/** The concrete exceptions and daemon replies of the hook's test suites, run through the model. */
module Scenarios {
  import opened Wrappers
  import opened Strings
  import opened ExceptionFormat
  import opened Wire
  import opened Response
  import opened Handler

  /** The RuntimeError "baz" raised four frames deep in /foo.rb. */
  function SampleFrames(): seq<string>
  {
    [ "/foo/bar.rb:3:in `block in func'",
      "/foo/bar.rb:2:in `each'",
      "/foo/bar.rb:2:in `func'",
      "/foo.rb:2:in `<main>'" ]
  }

  function Sample(): CapturedError
  {
    CapturedError("baz", "RuntimeError", Some(SampleFrames()))
  }

  /** The sample's header line. */
  lemma SampleHeader()
    ensures Format(Sample())[0] == SampleReason
  {
    FormatHeader(Sample(), SampleReason);
  }

  /** The header of an exception with frames, for a given expected text. */
  lemma FormatHeader(e: CapturedError, text: string)
    requires Frames(e) != [] && text == Frames(e)[0] + ": " + Summary(e.message, e.kind)
    ensures Format(e)[0] == text
  {
  }

  /** The sample's executable is /foo.rb. */
  lemma SampleExecutable(programName: string)
    ensures Executable(Sample(), programName) == "/foo.rb"
  {
    assert SampleFrames()[3] == "/foo.rb" + ":" + "2:in `<main>'";
    ExecutableOfLastFrame(Sample(), programName, "/foo.rb", "2:in `<main>'");
  }

  /** With no frames, or none recorded, the executable is the program name /bar.rb. */
  lemma SampleFallback()
    ensures Executable(CapturedError("baz", "RuntimeError", Some([])), "/bar.rb") == "/bar.rb"
    ensures Executable(CapturedError("baz", "RuntimeError", None), "/bar.rb") == "/bar.rb"
  {
  }

  /** The sample's formatted lines, as the handler test's report spells them. */
  const SampleReason: string := "/foo/bar.rb:3:in `block in func'" + ": baz (RuntimeError)"
  const SampleBacktrace: string :=
    SampleReason + "\n" +
    ("\tfrom " + "/foo/bar.rb:2:in `each'") + "\n" +
    ("\tfrom " + "/foo/bar.rb:2:in `func'") + "\n" +
    ("\tfrom " + "/foo.rb:2:in `<main>'")

  /** The sample renders as the four lines of the expected backtrace. */
  lemma SampleLines()
    ensures Format(Sample()) == [ SampleReason, "\tfrom " + "/foo/bar.rb:2:in `each'",
                                  "\tfrom " + "/foo/bar.rb:2:in `func'", "\tfrom " + "/foo.rb:2:in `<main>'" ]
  {
    SampleHeader();
    FormatFour(Sample(), "/foo/bar.rb:3:in `block in func'", "/foo/bar.rb:2:in `each'",
               "/foo/bar.rb:2:in `func'", "/foo.rb:2:in `<main>'");
    FourLines(Format(Sample()), SampleReason, "\tfrom " + "/foo/bar.rb:2:in `each'",
              "\tfrom " + "/foo/bar.rb:2:in `func'", "\tfrom " + "/foo.rb:2:in `<main>'");
  }

  /** The "\tfrom" lines of an exception with four frames. */
  lemma FormatFour(e: CapturedError, f0: string, f1: string, f2: string, f3: string)
    requires Frames(e) == [f0, f1, f2, f3]
    ensures |Format(e)| == 4
    ensures Format(e)[1] == FromPrefix + f1 && Format(e)[2] == FromPrefix + f2 && Format(e)[3] == FromPrefix + f3
  {
  }

  /** Four lines, given one by one, make up the whole sequence. */
  lemma FourLines(lines: seq<string>, a: string, b: string, c: string, d: string)
    requires |lines| == 4 && lines[0] == a && lines[1] == b && lines[2] == c && lines[3] == d
    ensures lines == [a, b, c, d]
  {
  }

  /** Four lines joined by a separator. */
  lemma JoinFour(a: string, b: string, c: string, d: string, sep: string)
    ensures Join([a, b, c, d], sep) == a + sep + b + sep + c + sep + d
  {
    assert [a, b, c, d][1..] == [b, c, d] && [b, c, d][1..] == [c, d] && [c, d][1..] == [d];
    assert Join([c, d], sep) == c + sep + d;
    assert Join([b, c, d], sep) == b + sep + (c + sep + d);
    assert Join([a, b, c, d], sep) == a + sep + (b + sep + (c + sep + d));
  }

  /** The sample's BACKTRACE value is the expected four-line text. */
  lemma SampleBacktraceJoined()
    ensures Join(Format(Sample()), "\n") == SampleBacktrace
  {
    SampleLines();
    JoinFour(SampleReason, "\tfrom " + "/foo/bar.rb:2:in `each'", "\tfrom " + "/foo/bar.rb:2:in `func'",
             "\tfrom " + "/foo.rb:2:in `<main>'", "\n");
  }

  /** The sample's seven report fields, name and value, in order. */
  lemma SampleFields(programName: string, pid: nat)
    ensures ReportFields(Sample(), programName, pid) ==
      [ Field("PID", Decimal(pid)), Field("EXECUTABLE", "/foo.rb"), Field("ANALYZER", "Ruby"),
        Field("TYPE", "Ruby"), Field("BASENAME", "rbhook"), Field("REASON", SampleReason),
        Field("BACKTRACE", SampleBacktrace) ]
  {
    ReportFieldsOf(Sample(), programName, pid);
    SampleHeader();
    SampleExecutable(programName);
    SampleBacktraceJoined();
  }

  /** Any report, field by field: the seven names paired with their values. */
  lemma ReportFieldsOf(e: CapturedError, programName: string, pid: nat)
    ensures var lines := Format(e);
      ReportFields(e, programName, pid) ==
        [ Field("PID", Decimal(pid)), Field("EXECUTABLE", Executable(e, programName)),
          Field("ANALYZER", "Ruby"), Field("TYPE", "Ruby"), Field("BASENAME", "rbhook"),
          Field("REASON", lines[0]), Field("BACKTRACE", Join(lines, "\n")) ]
  {
  }

  /** A record whose value holds no NUL byte is written as "NAME=value\0". */
  lemma RecordOf(f: Field, text: string)
    requires NUL !in f.value && text == f.name + "=" + f.value + "\0"
    ensures EncodeField(f) == text
  {
  }

  /** The pieces the first handler test adds together into the report it expects on the socket, for process id `pid`. */
  function ExpectedChunks(pid: nat): seq<string>
  {
    [ "PUT / HTTP/1.1\r\n\r\n",
      "PID=" + Decimal(pid) + "\0",
      "EXECUTABLE=/foo.rb\0",
      "ANALYZER=Ruby\0",
      "TYPE=Ruby\0",
      "BASENAME=rbhook\0",
      "REASON=" + SampleReason + "\0",
      "BACKTRACE=" + SampleBacktrace + "\0" ]
  }

  /** The request line and the sample's records are exactly the expected pieces. */
  lemma SampleChunks(programName: string, pid: nat)
    ensures RequestChunks(ReportFields(Sample(), programName, pid)) == ExpectedChunks(pid)
  {
    var fields := ReportFields(Sample(), programName, pid);
    SampleFields(programName, pid);
    SevenChunks(fields);
    SamplePidRecord(pid);
    ExecutableRecord();
    AnalyzerRecord();
    TypeRecord();
    BasenameRecord();
    SampleReasonRecord();
    SampleBacktraceRecord();
  }

  /** The chunks for seven fields: the request line, then each field's record. */
  lemma SevenChunks(fields: seq<Field>)
    requires |fields| == 7
    ensures var records := Encoded(fields);
      RequestChunks(fields) == [ RequestLine, records[0], records[1], records[2], records[3],
                                 records[4], records[5], records[6] ]
  {
    LeadAndSeven(RequestChunks(fields), RequestLine, Encoded(fields));
  }

  /** A first piece followed by seven more, spelled out. */
  lemma LeadAndSeven(pieces: seq<string>, lead: string, rest: seq<string>)
    requires pieces == [lead] + rest && |rest| == 7
    ensures pieces == [ lead, rest[0], rest[1], rest[2], rest[3], rest[4], rest[5], rest[6] ]
  {
  }

  /** The PID record is "PID=<digits of pid>\0". */
  lemma SamplePidRecord(pid: nat)
    ensures EncodeField(Field("PID", Decimal(pid))) == "PID=" + Decimal(pid) + "\0"
  {
    RecordOf(Field("PID", Decimal(pid)), "PID=" + Decimal(pid) + "\0");
  }

  /** The EXECUTABLE record is "EXECUTABLE=/foo.rb\0". */
  lemma ExecutableRecord()
    ensures EncodeField(Field("EXECUTABLE", "/foo.rb")) == "EXECUTABLE=/foo.rb\0"
  {
    RecordOf(Field("EXECUTABLE", "/foo.rb"), "EXECUTABLE=/foo.rb\0");
  }

  /** The ANALYZER record is "ANALYZER=Ruby\0". */
  lemma AnalyzerRecord()
    ensures EncodeField(Field("ANALYZER", "Ruby")) == "ANALYZER=Ruby\0"
  {
    RecordOf(Field("ANALYZER", "Ruby"), "ANALYZER=Ruby\0");
  }

  /** The TYPE record is "TYPE=Ruby\0". */
  lemma TypeRecord()
    ensures EncodeField(Field("TYPE", "Ruby")) == "TYPE=Ruby\0"
  {
    RecordOf(Field("TYPE", "Ruby"), "TYPE=Ruby\0");
  }

  /** The BASENAME record is "BASENAME=rbhook\0". */
  lemma BasenameRecord()
    ensures EncodeField(Field("BASENAME", "rbhook")) == "BASENAME=rbhook\0"
  {
    RecordOf(Field("BASENAME", "rbhook"), "BASENAME=rbhook\0");
  }

  /** No NUL byte occurs in the sample's REASON and BACKTRACE texts, taken piece by piece. */
  lemma SampleNulFree()
    ensures NUL !in SampleReason && NUL !in SampleBacktrace
  {
    assert NUL !in "/foo/bar.rb:3:in `block in func'" && NUL !in ": baz (RuntimeError)";
    assert NUL !in "\tfrom " && NUL !in "/foo/bar.rb:2:in `each'";
    assert NUL !in "/foo/bar.rb:2:in `func'" && NUL !in "/foo.rb:2:in `<main>'";
  }

  /** The REASON field is written as the expected record. */
  lemma SampleReasonRecord()
    ensures EncodeField(Field("REASON", SampleReason)) == "REASON=" + SampleReason + "\0"
  {
    SampleNulFree();
    RecordOf(Field("REASON", SampleReason), "REASON=" + SampleReason + "\0");
  }

  /** The BACKTRACE field is written as the expected record. */
  lemma SampleBacktraceRecord()
    ensures EncodeField(Field("BACKTRACE", SampleBacktrace)) == "BACKTRACE=" + SampleBacktrace + "\0"
  {
    SampleNulFree();
    RecordOf(Field("BACKTRACE", SampleBacktrace), "BACKTRACE=" + SampleBacktrace + "\0");
  }

  /** Handling the sample over a socket writes exactly the report the first handler test expects. */
  lemma SampleWritten(programName: string, pid: nat, reply: string)
    ensures Concat(SentChunks(Executable(Sample(), programName), ReportFields(Sample(), programName, pid),
                              Connected(reply)))
      == Concat(ExpectedChunks(pid))
  {
    SampleExecutable(programName);
    assert Eligible("/foo.rb");
    SampleChunks(programName, pid);
  }

  /**
   * The first handler test run through a fresh reporter: the sample is handled over a socket
   * whose daemon answers "HTTP/1.1 201", the socket receives exactly the expected report and
   * syslog receives the notice and no error.
   */
  method HandleSample(programName: string, pid: nat) returns (written: string, log: seq<LogEntry>)
    ensures written == Concat(ExpectedChunks(pid))
    ensures log == [LogEntry(Notice, "detected unhandled Ruby exception in '/foo.rb'", None)]
  {
    var reporter := new Reporter();
    reporter.HandleException(Sample(), programName, pid, Connected("HTTP/1.1 201 \r\n\r\n"));
    SampleWritten(programName, pid, "HTTP/1.1 201 \r\n\r\n");
    SampleDelivered(programName);
    NoticeLiteral();
    written, log := reporter.written, reporter.log;
  }

  /** The notice for /foo.rb is "detected unhandled Ruby exception in '/foo.rb'", at notice level. */
  lemma NoticeLiteral()
    ensures NoticeEntry("/foo.rb") == LogEntry(Notice, "detected unhandled Ruby exception in '/foo.rb'", None)
  {
  }

  /** Handling the sample logs that notice first, whatever the socket does. */
  lemma SampleNotice(programName: string, t: Transport)
    ensures HandleLog(Executable(Sample(), programName), t)[0]
      == LogEntry(Notice, "detected unhandled Ruby exception in '/foo.rb'", None)
  {
    var exe := Executable(Sample(), programName);
    assert exe == "/foo.rb" by { SampleExecutable(programName); }
    NoticeFirst(exe, "/foo.rb", t);
    NoticeLiteral();
  }

  /** The first log entry is the notice for the executable. */
  lemma NoticeFirst(exe: string, name: string, t: Transport)
    requires exe == name
    ensures HandleLog(exe, t)[0] == NoticeEntry(name)
  {
  }

  /** For the sample, each reply leads to the notice followed by that reply's error, if any. */
  lemma SampleReply(programName: string, reply: string)
    ensures HandleLog(Executable(Sample(), programName), Connected(reply))
      == [NoticeEntry("/foo.rb")] + ErrorEntries(Classify(reply))
  {
    SampleExecutable(programName);
    assert Eligible("/foo.rb");
  }

  /** A "HTTP/1.1 201" reply logs only the notice. */
  lemma SampleDelivered(programName: string)
    ensures HandleLog(Executable(Sample(), programName), Connected("HTTP/1.1 201 \r\n\r\n")) == [NoticeEntry("/foo.rb")]
  {
    SampleReply(programName, "HTTP/1.1 201 \r\n\r\n");
    ClassifyExamples();
  }

  /** An empty reply logs the fixed "Empty response received" error. */
  lemma SampleEmptyReply(programName: string)
    ensures HandleLog(Executable(Sample(), programName), Connected(""))
      == [NoticeEntry("/foo.rb"), LogEntry(Err, EmptyResponseMessage, None)]
  {
    SampleReply(programName, "");
  }

  /** The replies "foo" and "HTTP/1.1 400" are each logged verbatim behind "error sending data to ABRT daemon: ". */
  lemma SampleRejectedReply(programName: string, reply: string)
    requires reply == "foo" || reply == "HTTP/1.1 400 \r\n\r\n"
    ensures HandleLog(Executable(Sample(), programName), Connected(reply))
      == [NoticeEntry("/foo.rb"), LogEntry(Err, "%s", Some(SendErrorPrefix + reply))]
  {
    SampleReply(programName, reply);
    ClassifyExamples();
    RejectedReplyLogged(reply);
  }

  /** The exception whose message and only frame carry NUL bytes and a forged INJECTION field. */
  function Injection(): CapturedError
  {
    CapturedError("baz\0bar", "RuntimeError", Some(["/foo\0.rb:2:in `<main>'\0INJECTION=injected"]))
  }

  /** Its report still reads back as the seven report fields and nothing else. */
  lemma InjectionDefeated(programName: string, pid: nat, reply: string)
    ensures var sent := Concat(SentChunks(Executable(Injection(), programName),
                                          ReportFields(Injection(), programName, pid), Connected(reply)));
      RequestLine <= sent
      && |Decode(sent[|RequestLine|..])| == |FieldNames|
      && forall i :: 0 <= i < |FieldNames| ==> Decode(sent[|RequestLine|..])[i].name == FieldNames[i]
  {
    var e := Injection();
    ExecutableOfLastFrame(e, programName, "/foo\0.rb", "2:in `<main>'\0INJECTION=injected");
    ReportDecodes(e, programName, pid, Connected(reply));
  }

  /** The test's relative script "./foo.rb" sends nothing. */
  lemma RelativeScriptIgnored(programName: string, pid: nat, t: Transport)
    ensures var e := CapturedError("baz", "RuntimeError", Some(["./foo.rb:2:in `<main>'"]));
      SentChunks(Executable(e, programName), ReportFields(e, programName, pid), t) == []
  {
    RelativePathIgnored(CapturedError("baz", "RuntimeError", Some(["./foo.rb:2:in `<main>'"])), programName, "foo.rb:2:in `<main>'");
  }

  /** The test's one-line script "-e" sends nothing. */
  lemma OneLineScriptIgnored(programName: string, pid: nat, t: Transport)
    ensures var e := CapturedError("baz", "RuntimeError", Some(["-e:1:in `/'", "-e:1:in `<main>'"]));
      SentChunks(Executable(e, programName), ReportFields(e, programName, pid), t) == []
  {
    OneLinerIgnored(CapturedError("baz", "RuntimeError", Some(["-e:1:in `/'", "-e:1:in `<main>'"])), programName, "1:in `<main>'");
  }

  /** A socket nobody listens on: one "%s" error names the cause and the path. */
  lemma SampleUnreachable(programName: string, cause: string, path: string)
    ensures HandleLog(Executable(Sample(), programName), Unreachable(cause, path))
      == [NoticeEntry("/foo.rb"), LogEntry(Err, "%s", Some(ConnectErrorPrefix + ConnectFailureText(cause, path)))]
  {
    SampleExecutable(programName);
    assert Eligible("/foo.rb");
    assert Attempt(Unreachable(cause, path)) == ConnectError(cause, path);
    assert ErrorEntries(ConnectError(cause, path))
      == [LogEntry(Err, "%s", Some(ConnectErrorPrefix + ConnectFailureText(cause, path)))];
  }
}
