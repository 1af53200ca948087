/**
 * What the hook makes of one exchange with the ABRT daemon: the reply is classified
 * into an outcome, and every outcome but a delivery is reported through syslog.
 */
module Response {
  import opened Wrappers
  import opened Strings

  /** The result of one reporting attempt. */
  datatype Outcome =
    | Delivered
    | EmptyResponse
    | MalformedResponse(raw: string)
    | ErrorStatus(raw: string)
    | ConnectError(cause: string, path: string)

  /** The status line a reply must open with. */
  const StatusPrefix: string := "HTTP/1.1 "

  /** The three-digit status code after "HTTP/1.1 ", if the reply has one. */
  function StatusCode(raw: string): (code: Option<nat>)
    ensures code.Some? <==> |raw| >= 12 && raw[..9] == StatusPrefix && AllDigits(raw[9..12])
    ensures code.Some? ==> code.value == DigitsValue(raw[9..12]) && code.value < 1000
  {
    var n := |StatusPrefix|;
    if |raw| >= n + 3 && raw[..n] == StatusPrefix
       && IsDigit(raw[n]) && IsDigit(raw[n + 1]) && IsDigit(raw[n + 2])
    then
      var digits := raw[n..n + 3];
      assert DigitsValue(digits[..2][..1]) == DigitValue(raw[n]) by {
        assert digits[..2][..1] == [raw[n]] && [raw[n]][..0] == [];
      }
      assert DigitsValue(digits[..2]) == 10 * DigitValue(raw[n]) + DigitValue(raw[n + 1]);
      Some(100 * DigitValue(raw[n]) + 10 * DigitValue(raw[n + 1]) + DigitValue(raw[n + 2]))
    else
      assert |raw| >= n + 3 && raw[..n] == StatusPrefix ==>
        raw[n..n + 3][0] == raw[n] && raw[n..n + 3][1] == raw[n + 1] && raw[n..n + 3][2] == raw[n + 2];
      None
  }

  /** A status code without a leading zero reads back as the reply's own three digits. */
  lemma StatusCodeDigits(raw: string)
    requires StatusCode(raw).Some? && raw[9] != '0'
    ensures Decimal(StatusCode(raw).value) == raw[9..12]
  {
    var code := StatusCode(raw).value;
    var a, b, c := DigitValue(raw[9]), DigitValue(raw[10]), DigitValue(raw[11]);
    assert code == 100 * a + 10 * b + c;
    assert code / 10 == 10 * a + b && code % 10 == c;
    assert code / 10 / 10 == a && code / 10 % 10 == b;
    assert Decimal(a) == [raw[9]];
    assert Decimal(code) == [raw[9], raw[10], raw[11]];
  }

  /**
   * Classifies the daemon's reply: nothing at all, no status line, a status outside
   * 200-299, or a delivery. A delivery is exactly a reply opening with "HTTP/1.1 2" and two digits.
   */
  function Classify(raw: string): (r: Outcome)
    ensures r.EmptyResponse? <==> raw == []
    ensures r.Delivered? <==>
      |raw| >= 12 && raw[..10] == "HTTP/1.1 2" && IsDigit(raw[10]) && IsDigit(raw[11])
    ensures r.MalformedResponse? ==> r.raw == raw && StatusCode(raw).None?
    ensures r.ErrorStatus? ==> r.raw == raw && StatusCode(raw).Some?
    ensures !r.ConnectError?
  {
    if raw == [] then EmptyResponse
    else match StatusCode(raw)
      case None => MalformedResponse(raw)
      case Some(code) =>
        assert raw[..9] == StatusPrefix;
        if 200 <= code < 300 then Delivered else ErrorStatus(raw)
  }

  /** Syslog severities the hook uses. */
  datatype Level = Notice | Err

  /**
   * One syslog call: its level, its format template and, when the message carries
   * outside text, that text as the separate argument of a "%s" template.
   */
  datatype LogEntry = LogEntry(level: Level, template: string, arg: Option<string>)

  const EmptyResponseMessage: string := "error sending data to ABRT daemon. Empty response received"
  const SendErrorPrefix: string := "error sending data to ABRT daemon: "
  const ConnectErrorPrefix: string := "can't communicate with ABRT daemon, is it running? "

  /** The message of the Ruby error a failed connect raises: its cause and the socket path. */
  function ConnectFailureText(cause: string, path: string): (r: string)
    ensures cause <= r && |r| >= |path| && r[|r| - |path|..] == path
    ensures |r| == |cause| + |path| + 18 && r[|cause|..|r| - |path|] == " - connect(2) for "
  {
    cause + " - connect(2) for " + path
  }

  /** "detected unhandled Ruby exception in '<exe>'", logged for every exception. */
  function NoticeEntry(exe: string): (r: LogEntry)
    ensures r.level == Notice && r.arg == None
  {
    LogEntry(Notice, "detected unhandled Ruby exception in '" + exe + "'", None)
  }

  /** The error logged for an outcome; a delivery logs nothing. */
  function ErrorEntry(o: Outcome): (r: Option<LogEntry>)
    ensures r.None? <==> o.Delivered?
    ensures r.Some? ==> r.value.level == Err
  {
    match o
    case Delivered => None
    case EmptyResponse => Some(LogEntry(Err, EmptyResponseMessage, None))
    case MalformedResponse(raw) => Some(LogEntry(Err, "%s", Some(SendErrorPrefix + raw)))
    case ErrorStatus(raw) => Some(LogEntry(Err, "%s", Some(SendErrorPrefix + raw)))
    case ConnectError(cause, path) =>
      Some(LogEntry(Err, "%s", Some(ConnectErrorPrefix + ConnectFailureText(cause, path))))
  }

  /** The syslog calls an outcome leads to: none for a delivery, one error otherwise. */
  function ErrorEntries(o: Outcome): (r: seq<LogEntry>)
    ensures |r| == if o.Delivered? then 0 else 1
  {
    match ErrorEntry(o)
    case None => []
    case Some(entry) => [entry]
  }

  /**
   * Text from outside (the reply, the OS error, the socket path) never becomes a syslog
   * template: every error template is "%s" or the fixed empty-response message.
   */
  lemma ErrorTemplateFixed(o: Outcome)
    requires ErrorEntry(o).Some?
    ensures ErrorEntry(o).value.template in {"%s", EmptyResponseMessage}
    ensures ErrorEntry(o).value.template == "%s" <==> ErrorEntry(o).value.arg.Some?
  {
  }

  /** A refused or malformed exchange logs the daemon's raw reply verbatim after the fixed prefix. */
  lemma RejectedReplyLogged(raw: string)
    requires raw != [] && !Classify(raw).Delivered?
    ensures ErrorEntry(Classify(raw)) == Some(LogEntry(Err, "%s", Some(SendErrorPrefix + raw)))
  {
  }

  /** A failed connect logs one "%s" error whose text holds the cause and the socket path. */
  lemma ConnectFailureLogged(cause: string, path: string)
    ensures var entry := ErrorEntry(ConnectError(cause, path)).value;
      entry.template == "%s" && entry.arg.Some?
      && entry.arg.value == ConnectErrorPrefix + cause + " - connect(2) for " + path
  {
  }

  /** The replies the test suite stubs in and the outcome each one gets. */
  lemma ClassifyExamples()
    ensures Classify("HTTP/1.1 201 \r\n\r\n") == Delivered
    ensures Classify("") == EmptyResponse
    ensures Classify("foo") == MalformedResponse("foo")
    ensures Classify("HTTP/1.1 400 \r\n\r\n") == ErrorStatus("HTTP/1.1 400 \r\n\r\n")
  {
    assert "HTTP/1.1 201 \r\n\r\n"[..9] == StatusPrefix;
    assert "HTTP/1.1 400 \r\n\r\n"[..9] == StatusPrefix;
  }
}
