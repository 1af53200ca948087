/**
 * `ABRT.handle_exception`: logs that an unhandled exception was detected, filters out
 * scripts ABRT cannot attribute, and sends the report to the ABRT daemon over its
 * socket, logging to syslog whatever goes wrong instead of raising.
 */
module Handler {
  import opened Wrappers
  import opened Strings
  import opened ExceptionFormat
  import opened Wire
  import opened Response

  /**
   * What connecting to the daemon's socket gives: the daemon's reply once the request
   * has been written, or the connect error (its cause and the socket path).
   */
  datatype Transport = Connected(reply: string) | Unreachable(cause: string, path: string)

  /** The executable Ruby reports for a one-line script given with `ruby -e`. */
  const OneLinerMarker: string := "-e"

  /** Only scripts named by an absolute path are reported; relative paths and `-e` are not. */
  function Eligible(exe: string): (b: bool)
    ensures b <==> "/" <= exe
    ensures "./" <= exe || "../" <= exe || exe == OneLinerMarker ==> !b
  {
    |exe| > 0 && exe[0] == '/' && exe != OneLinerMarker
  }

  /** The report's fields, in the order they are sent. */
  const FieldNames: seq<string> := ["PID", "EXECUTABLE", "ANALYZER", "TYPE", "BASENAME", "REASON", "BACKTRACE"]

  /** No report field name holds the record terminator or the '=' separator. */
  lemma FieldNamesPlain()
    ensures forall i :: 0 <= i < |FieldNames| ==> PlainName(FieldNames[i])
  {
    forall i | 0 <= i < |FieldNames| ensures PlainName(FieldNames[i]) {
      var name := FieldNames[i];
      assert forall j :: 0 <= j < |name| ==> 'A' <= name[j] <= 'Z';
    }
  }

  /**
   * The report's values, in the order of `FieldNames`: process id, executable, the fixed
   * analyzer, type and hook name, the first formatted line as the reason and all
   * formatted lines joined by newlines as the backtrace.
   */
  function FieldValues(e: CapturedError, programName: string, pid: nat): (v: seq<string>)
    ensures |v| == |FieldNames|
  {
    var lines := Format(e);
    [ Decimal(pid), Executable(e, programName), "Ruby", "Ruby", "rbhook", lines[0], Join(lines, "\n") ]
  }

  /** The report: each field name with its value. */
  function ReportFields(e: CapturedError, programName: string, pid: nat): (r: seq<Field>)
    ensures |r| == |FieldNames|
    ensures forall i :: 0 <= i < |r| ==> r[i].name == FieldNames[i]
  {
    var values := FieldValues(e, programName, pid);
    seq(|FieldNames|, i requires 0 <= i < |FieldNames| => Field(FieldNames[i], values[i]))
  }

  /** The outcome of one attempt: the reply's classification, or the connect error. */
  function Attempt(t: Transport): (o: Outcome)
    ensures o.ConnectError? <==> t.Unreachable?
  {
    match t
    case Connected(reply) => Classify(reply)
    case Unreachable(cause, path) => ConnectError(cause, path)
  }

  /**
   * The chunks written to the socket for an executable and its report: the request line,
   * then one record per field; nothing when the executable is filtered or the socket unreachable.
   */
  function SentChunks(exe: string, fields: seq<Field>, t: Transport): (r: seq<string>)
    ensures r != [] <==> Eligible(exe) && t.Connected?
    ensures r != [] ==> |r| == |fields| + 1 && r[0] == RequestLine
  {
    if Eligible(exe) && t.Connected? then RequestChunks(fields) else []
  }

  /**
   * The syslog calls: the notice comes first and always; one error follows exactly when
   * an eligible report was not delivered, and never more than one.
   */
  function HandleLog(exe: string, t: Transport): (log: seq<LogEntry>)
    ensures 1 <= |log| <= 2 && log[0] == NoticeEntry(exe)
    ensures |log| == 2 <==> Eligible(exe) && !Attempt(t).Delivered?
    ensures |log| == 2 ==> log[1].level == Err
  {
    [NoticeEntry(exe)] + if Eligible(exe) then ErrorEntries(Attempt(t)) else []
  }

  /** Every report field carries one of the report's names, and those names are plain. */
  lemma ReportNamesPlain(e: CapturedError, programName: string, pid: nat)
    ensures forall i :: 0 <= i < |ReportFields(e, programName, pid)| ==>
      PlainName(ReportFields(e, programName, pid)[i].name)
  {
    FieldNamesPlain();
  }

  /** An eligible, connected attempt writes exactly the encoded request. */
  lemma SentIsRequest(exe: string, fields: seq<Field>, t: Transport)
    requires Eligible(exe) && t.Connected?
    ensures Concat(SentChunks(exe, fields, t)) == Request(fields)
  {
    RequestChunksConcat(fields);
  }

  /**
   * No written chunk holds a NUL byte except as its last character, whatever the
   * exception's message and frames contain.
   */
  lemma ChunksNulOnlyAtEnd(e: CapturedError, programName: string, pid: nat, t: Transport)
    ensures var sent := SentChunks(Executable(e, programName), ReportFields(e, programName, pid), t);
      forall i :: 0 <= i < |sent| ==> NulOnlyAtEnd(sent[i])
  {
    ReportNamesPlain(e, programName, pid);
    RequestChunksNulOnlyAtEnd(ReportFields(e, programName, pid));
  }

  /**
   * The daemon reading the body after the request line finds exactly the seven fields,
   * under their own names and in order, with NUL-free values: no forged field gets in.
   */
  lemma ReportDecodes(e: CapturedError, programName: string, pid: nat, t: Transport)
    requires Eligible(Executable(e, programName)) && t.Connected?
    ensures var fields := ReportFields(e, programName, pid);
      var sent := Concat(SentChunks(Executable(e, programName), fields, t));
      RequestLine <= sent
      && Decode(sent[|RequestLine|..]) == Sanitized(fields)
      && |Decode(sent[|RequestLine|..])| == |FieldNames|
      && forall i :: 0 <= i < |FieldNames| ==> Decode(sent[|RequestLine|..])[i].name == FieldNames[i]
  {
    var fields := ReportFields(e, programName, pid);
    SentIsRequest(Executable(e, programName), fields, t);
    ReportNamesPlain(e, programName, pid);
    RequestDecodes(fields);
  }

  /** REASON, the first formatted line, opens BACKTRACE, for every exception. */
  lemma ReasonStartsBacktrace(e: CapturedError, programName: string, pid: nat)
    ensures var r := ReportFields(e, programName, pid);
      r[5].name == "REASON" && r[6].name == "BACKTRACE" && r[5].value <= r[6].value
  {
  }

  /** When no line holds a newline, BACKTRACE splits back into exactly the formatted lines. */
  lemma BacktraceSplits(e: CapturedError, programName: string, pid: nat)
    requires '\n' !in Summary(e.message, e.kind)
    requires forall i :: 0 <= i < |Frames(e)| ==> '\n' !in Frames(e)[i]
    ensures SplitOn(ReportFields(e, programName, pid)[6].value, '\n') == Format(e)
  {
    var lines := Format(e);
    var summary := Summary(e.message, e.kind);
    forall i | 0 <= i < |lines| ensures '\n' !in lines[i] {
      if i == 0 && Frames(e) != [] {
        assert lines[0] == Frames(e)[0] + ": " + summary;
      } else if i > 0 {
        assert lines[i] == FromPrefix + Frames(e)[i];
      }
    }
    SplitJoin(lines, '\n');
  }

  /** A filtered executable gets nothing written and only the notice logged. */
  lemma FilteredSendsNothing(exe: string, fields: seq<Field>, t: Transport)
    requires !Eligible(exe)
    ensures SentChunks(exe, fields, t) == []
    ensures HandleLog(exe, t) == [NoticeEntry(exe)]
  {
  }

  /** A script run by a relative path ("./foo.rb:2:in ...") is never reported. */
  lemma RelativePathIgnored(e: CapturedError, programName: string, rest: string)
    requires Frames(e) != [] && Frames(e)[|Frames(e)| - 1] == "./" + rest
    ensures !Eligible(Executable(e, programName))
  {
    var exe := Executable(e, programName);
    assert exe <= "./" + rest;
    if |exe| > 0 {
      assert exe[0] == '.';
    }
  }

  /** A one-line script ("-e:1:in `<main>'") is never reported. */
  lemma OneLinerIgnored(e: CapturedError, programName: string, rest: string)
    requires Frames(e) != [] && Frames(e)[|Frames(e)| - 1] == OneLinerMarker + ":" + rest
    ensures !Eligible(Executable(e, programName))
  {
    ExecutableOfLastFrame(e, programName, OneLinerMarker, rest);
  }

  /** The socket the hook writes to and the syslog it writes to, as recorded sequences. */
  class Reporter {
    /** The argument of each `write` on the socket, in order. */
    var chunks: seq<string>
    /** Everything written to the socket so far. */
    var written: string
    /** The syslog calls made so far. */
    var log: seq<LogEntry>

    ghost predicate Valid()
      reads this
    {
      written == Concat(chunks)
    }

    constructor ()
      ensures Valid() && chunks == [] && written == [] && log == []
    {
      chunks, written, log := [], [], [];
    }

    /** `io.write(chunk)` */
    method Write(chunk: string)
      requires Valid()
      modifies this`chunks, this`written
      ensures Valid()
      ensures chunks == old(chunks) + [chunk] && written == old(written) + chunk
    {
      ConcatAppend(chunks, [chunk]);
      chunks := chunks + [chunk];
      written := written + chunk;
    }

    /** One syslog call. */
    method Syslog(entry: LogEntry)
      modifies this`log
      ensures log == old(log) + [entry]
    {
      log := log + [entry];
    }

    /** Writes the chunks in order, one `write` each. */
    method WriteAll(pending: seq<string>)
      requires Valid()
      modifies this`chunks, this`written
      ensures Valid()
      ensures chunks == old(chunks) + pending
    {
      var i := 0;
      while i < |pending|
        invariant 0 <= i <= |pending|
        invariant Valid()
        invariant chunks == old(chunks) + pending[..i]
      {
        Write(pending[i]);
        assert pending[..i + 1] == pending[..i] + [pending[i]];
        i := i + 1;
      }
      assert pending[..i] == pending;
    }

    /**
     * `write_dump`: writes the request line and each field's record to the connected
     * socket, then logs the error the daemon's reply amounts to, if any; a connect
     * failure writes nothing and logs the failure.
     */
    method WriteDump(fields: seq<Field>, t: Transport)
      requires Valid()
      modifies this
      ensures Valid()
      ensures chunks == old(chunks) + if t.Connected? then RequestChunks(fields) else []
      ensures log == old(log) + ErrorEntries(Attempt(t))
    {
      match t {
        case Unreachable(cause, path) =>
          Syslog(ErrorEntry(ConnectError(cause, path)).value);
        case Connected(reply) =>
          WriteAll(RequestChunks(fields));
          match ErrorEntry(Classify(reply)) {
            case None =>
            case Some(entry) => Syslog(entry);
          }
      }
    }

    /**
     * `handle_exception`: logs the notice, then reports an eligible exception through
     * `WriteDump`. It never fails, whatever the exception, the connection or the reply.
     */
    method HandleException(e: CapturedError, programName: string, pid: nat, t: Transport)
      requires Valid()
      modifies this
      ensures Valid()
      ensures var sent := SentChunks(Executable(e, programName), ReportFields(e, programName, pid), t);
        chunks == old(chunks) + sent && written == old(written) + Concat(sent)
      ensures log == old(log) + HandleLog(Executable(e, programName), t)
    {
      var exe := Executable(e, programName);
      var fields := ReportFields(e, programName, pid);
      ConcatAppend(chunks, SentChunks(exe, fields, t));
      Syslog(NoticeEntry(exe));
      if Eligible(exe) {
        WriteDump(fields, t);
      }
    }
  }
}
