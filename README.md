# ABRT Ruby hook — a Dafny model

abrt-ruby is the hook that reports unhandled Ruby exceptions to ABRT, the
automatic bug-reporting daemon. When a Ruby program dies of an exception, the
hook:

1. renders the exception the way Ruby prints an uncaught error (`format`) and
   works out which script raised it (`executable`);
2. logs the notice `detected unhandled Ruby exception in '<exe>'` to syslog,
   whatever happens next;
3. skips scripts ABRT cannot attribute: relative paths such as `./foo.rb` and
   one-liners run with `ruby -e`;
4. otherwise sends `PUT / HTTP/1.1\r\n\r\n` to the daemon's socket, followed by
   the fields `PID`, `EXECUTABLE`, `ANALYZER=Ruby`, `TYPE=Ruby`,
   `BASENAME=rbhook`, `REASON` (the first formatted line) and `BACKTRACE` (all
   formatted lines joined by newlines). Each field is written as
   `NAME=value\0`, with the value's own NUL bytes removed;
5. classifies the daemon's reply as delivered, empty, malformed or an error
   status. Every outcome except a delivery is logged as a syslog error, and so
   is a failed connect. The hook itself never raises.

The repository's implementation files, `lib/abrt/exception.rb` and
`lib/abrt/handler.rb`, are not part of this model. The behaviour modelled is
the one the two RSpec suites, `spec/abrt_exception_spec.rb` and
`spec/abrt_handler_spec.rb`, pin down. Where those suites are silent, the
model chooses:

- An empty backtrace renders as the single line `<message> (<Class>)`.
- A `nil` backtrace renders the same way as an empty one.
- A reply is classified as follows:
  - an empty reply is an empty response;
  - a reply that does not open with `HTTP/1.1 ` and three digits is malformed;
  - the code is read from those three digits alone, and whatever follows them
    is ignored (`HTTP/1.1 2000 OK` counts as code 200);
  - a code outside 200–299 is an error status;
  - anything else is a delivery.
- A last frame with no `:` at all is taken whole as the executable.
- Eligibility excludes both relative paths and `-e`. `-e` does not start with
  `/`, so the second condition is already implied by the first.

The assertion at `spec/abrt_exception_spec.rb:19` uses a bare `==` and
therefore checks nothing. The model still proves the rendering it documents
(`Scenarios.SampleHeader`, `ExceptionFormat.Format`). The handler suite relies
on that same rendering for the report it expects.

Modules:

- `Wrappers`: `Option`.
- `Strings`: prefix before a delimiter, join/split, concatenation of written
  chunks, decimal digits of a number.
- `ExceptionFormat`: the `ABRT::Exception` mix-in, with `format` and
  `executable` as pure functions.
- `Wire`: NUL stripping, field records and the request, plus the daemon-side
  reading of a body used to state injection safety.
- `Response`: reply classification and the syslog entries for each outcome.
- `Handler`: the eligibility filter, the report's fields, and the `Reporter`
  class. `Reporter` records what `handle_exception` writes to the socket
  (`chunks`, `written`) and logs (`log`).
- `Scenarios`: the suites' concrete exceptions and replies run through the
  model.

## Model

| member | source | states |
|---|---|---|
| `ExceptionFormat.FromLines` | spec/abrt_exception_spec.rb:20-23 | one `"\tfrom <frame>"` line per frame, same count, same order |
| `ExceptionFormat.Format` | spec/abrt_exception_spec.rb:17-25 | one line per frame (one line when there are none). The first line is `"<frame0>: <message> (<Class>)"`, or `"<message> (<Class>)"` without frames. Line i ≥ 1 is `"\tfrom " + frame[i]` |
| `ExceptionFormat.UnfromFromLines` | spec/abrt_exception_spec.rb:20-23 | the `"\tfrom "` lines read back as exactly the frames they were made from |
| `ExceptionFormat.HeaderFrameOf` | spec/abrt_exception_spec.rb:20 | a header made of a frame and the `: <message> (<Class>)` tail gives that frame back |
| `ExceptionFormat.FormatRoundTrip` | spec/abrt_exception_spec.rb:19-24 | the frames can be read back exactly from the formatted lines: the rendering loses no frame and keeps their order |
| `ExceptionFormat.Executable` | spec/abrt_exception_spec.rb:28-53 | with frames, the result is the last frame's text before its first `:` (the whole frame when it has none). Without frames, or with a `nil` backtrace, it is the program name |
| `ExceptionFormat.ExecutableOfLastFrame` | spec/abrt_exception_spec.rb:28-31 | a last frame `<path>:<rest>` with a `:`-free path yields exactly `<path>` (`/foo.rb:2:in ...` ↦ `/foo.rb`) |
| `ExceptionFormat.ExecutableFallback` | spec/abrt_exception_spec.rb:43-53 | an absent backtrace and an empty one both give the program name |
| `Strings.Before` | spec/abrt_exception_spec.rb:28-31 | the result has no delimiter, is a prefix of the input, and is followed in the input by the delimiter when shorter |
| `Strings.BeforeDelimited` | spec/abrt_exception_spec.rb:28-31 | on `p + [c] + rest` with a `c`-free `p`, the result is exactly `p` |
| `Strings.BeforeAbsent` | spec/abrt_exception_spec.rb:28-31 | a text without the delimiter is returned whole |
| `Strings.Join` | spec/abrt_handler_spec.rb:25-28 | the first line is a prefix of the joined text; a single line joins to itself |
| `Strings.SplitOn` | spec/abrt_handler_spec.rb:25-28 | at least one piece, and no piece holds the separator |
| `Strings.SplitJoin` | spec/abrt_handler_spec.rb:25-28 | splitting a joined text gives back the lines when no line holds the separator |
| `Strings.SplitOnDelimited` | spec/abrt_handler_spec.rb:25-28 | a delimiter-free piece followed by the delimiter is split off as one piece |
| `Strings.Concat` | spec/abrt_handler_spec.rb:60-68 | the first chunk written is a prefix of everything written |
| `Strings.ConcatAppend` | spec/abrt_handler_spec.rb:60-68 | writing two runs of chunks in turn yields their concatenations in turn |
| `Wire.StripNul` | spec/abrt_handler_spec.rb:31-37 | the result has no NUL and leaves NUL-free text unchanged |
| `Wire.StripNulKeepsOthers` | spec/abrt_handler_spec.rb:31-37 | stripping removes only NUL: every other character keeps its count (multiset) |
| `Wire.StripNulAppend` | spec/abrt_handler_spec.rb:31-37 | stripping a concatenation strips each part in turn, so the kept characters stay in their original order |
| `Wire.EncodeField` | spec/abrt_handler_spec.rb:63-72 | a record ends in NUL and, for a NUL-free name, holds no other NUL |
| `Wire.Encoded` | spec/abrt_handler_spec.rb:17-29 | one record per field, in field order |
| `Wire.EncodeBody` | spec/abrt_handler_spec.rb:17-29 | the body is empty exactly when there are no fields; otherwise it opens with the first field's record and ends with a record terminator |
| `Wire.EncodedConcat` | spec/abrt_handler_spec.rb:17-29 | writing the records one after another gives the encoded body |
| `Wire.Request` | spec/abrt_handler_spec.rb:17-29 | every request opens with `PUT / HTTP/1.1\r\n\r\n` |
| `Wire.Records` | spec/abrt_handler_spec.rb:63-72 | no record a reader splits off contains NUL |
| `Wire.ParseField` | spec/abrt_handler_spec.rb:17-29 | the name has no `=`. Name, `=` and value rebuild the record, or the record had no `=` |
| `Wire.Sanitized` | spec/abrt_handler_spec.rb:31-37 | same field count and names; every value is NUL-free |
| `Wire.DecodeEncode` | spec/abrt_handler_spec.rb:63-72 | reading an encoded body back yields exactly the fields with NUL-stripped values, in order, whatever the values held (no forged field) |
| `Wire.DecodeCons` | spec/abrt_handler_spec.rb:63-72 | a reader decodes the body one record at a time |
| `Wire.DecodeRecord` | spec/abrt_handler_spec.rb:63-72 | a NUL-free record followed by NUL decodes as that record, then the rest |
| `Wire.ParseFieldOf` | spec/abrt_handler_spec.rb:17-29 | `NAME=value` with a plain name parses back to that name and value |
| `Wire.SanitizedCons` | spec/abrt_handler_spec.rb:31-37 | fields are sanitized one at a time, in order |
| `Wire.RecordsAfter` | spec/abrt_handler_spec.rb:63-72 | a NUL-free record followed by NUL is read as exactly one record |
| `Wire.RecordCount` | spec/abrt_handler_spec.rb:63-72 | an encoded body splits into exactly one record per field |
| `Wire.RequestChunks` | spec/abrt_handler_spec.rb:60-68 | the request is written as the request line plus one chunk per field |
| `Wire.RequestChunksConcat` | spec/abrt_handler_spec.rb:60 | the written chunks concatenate to the request |
| `Wire.RequestChunksNulOnlyAtEnd` | spec/abrt_handler_spec.rb:66-68 | with plain names, every chunk holds NUL only as its last byte |
| `Wire.RequestDecodes` | spec/abrt_handler_spec.rb:63-72 | after the request line comes the body, and it reads back as the sanitized fields |
| `Response.StatusCode` | spec/abrt_handler_spec.rb:114-120 | a code is found exactly when the reply opens with `HTTP/1.1 ` and three digits, and its value is the number those three digits spell (below 1000) |
| `Response.StatusCodeDigits` | spec/abrt_handler_spec.rb:114-120 | a code without a leading zero renders back in decimal as the reply's own three digits (`400` ↦ 400 ↦ `400`) |
| `Response.Classify` | spec/abrt_handler_spec.rb:53-120 | empty exactly for `""`. Delivered exactly when the reply opens with `HTTP/1.1 2` and two digits. A malformed reply has no status code and an error status has one; both keep the raw reply. Never a connect error |
| `Response.ClassifyExamples` | spec/abrt_handler_spec.rb:53-120 | `HTTP/1.1 201` is delivered, `""` is empty, `foo` is malformed, `HTTP/1.1 400` is an error status |
| `Response.NoticeEntry` | spec/abrt_handler_spec.rb:74-77 | the notice is logged at notice level without an argument |
| `Response.ErrorEntry` | spec/abrt_handler_spec.rb:98-143 | nothing is logged exactly for a delivery; every other outcome logs at error level |
| `Response.ErrorEntries` | spec/abrt_handler_spec.rb:98-143 | an outcome adds no syslog call for a delivery and exactly one otherwise |
| `Response.ErrorTemplateFixed` | spec/abrt_handler_spec.rb:45-49 | an error template is `"%s"` or the fixed empty-response text, and it is `"%s"` exactly when outside text travels as the argument |
| `Response.RejectedReplyLogged` | spec/abrt_handler_spec.rb:106-120 | a non-empty, undelivered reply logs `err("%s", "error sending data to ABRT daemon: " + reply)` |
| `Response.ConnectFailureText` | spec/abrt_handler_spec.rb:122-143 | the connect error's text starts with the cause and ends with the socket path, with the fixed ` - connect(2) for ` between them |
| `Response.ConnectFailureLogged` | spec/abrt_handler_spec.rb:122-143 | a failed connect logs one `"%s"` error whose argument is exactly `can't communicate with ABRT daemon, is it running? <cause> - connect(2) for <path>` |
| `Strings.Decimal` | spec/abrt_handler_spec.rb:19 | the PID value is a non-empty run of decimal digits without a leading zero; it has one digit exactly for numbers below 10 |
| `Strings.DecimalValue` | spec/abrt_handler_spec.rb:19 | the digits `Decimal` renders spell the number itself, so `PID=` carries the process id |
| `Handler.Eligible` | spec/abrt_handler_spec.rb:79-96 | an executable is reported exactly when it is an absolute path. `./…`, `../…` and `-e` never are |
| `Handler.FieldNamesPlain` | spec/abrt_handler_spec.rb:17-29 | no report field name holds NUL or `=` |
| `Handler.FieldValues` | spec/abrt_handler_spec.rb:17-29 | one value per report field name |
| `Handler.ReportFields` | spec/abrt_handler_spec.rb:17-29 | seven fields named `PID`, `EXECUTABLE`, `ANALYZER`, `TYPE`, `BASENAME`, `REASON`, `BACKTRACE`, in that order |
| `Handler.ReportNamesPlain` | spec/abrt_handler_spec.rb:17-29 | every report field's name is plain |
| `Handler.Attempt` | spec/abrt_handler_spec.rb:98-143 | an attempt ends in a connect error exactly when the socket is unreachable |
| `Handler.SentChunks` | spec/abrt_handler_spec.rb:53-96 | something is written exactly when the executable is eligible and the socket connected, and then it is the request line followed by one chunk per field |
| `Handler.HandleLog` | spec/abrt_handler_spec.rb:74-143 | the notice comes first and always. One error follows exactly when an eligible report was not delivered, and there is never more than one |
| `Handler.SentIsRequest` | spec/abrt_handler_spec.rb:53-61 | an eligible, connected attempt writes exactly the encoded request for its fields |
| `Handler.ChunksNulOnlyAtEnd` | spec/abrt_handler_spec.rb:63-72 | whatever the exception holds, every written chunk has NUL only as its last byte |
| `Handler.ReportDecodes` | spec/abrt_handler_spec.rb:63-72 | the daemon reads back exactly the seven report fields with NUL-free values, under their names and in order |
| `Handler.ReasonStartsBacktrace` | spec/abrt_handler_spec.rb:24-28 | for every exception, REASON is a prefix of BACKTRACE |
| `Handler.BacktraceSplits` | spec/abrt_handler_spec.rb:24-28 | BACKTRACE splits on `\n` back into exactly the formatted lines when the exception text has no newline |
| `Handler.FilteredSendsNothing` | spec/abrt_handler_spec.rb:79-96 | a filtered executable gets nothing written and only the notice logged |
| `Handler.RelativePathIgnored` | spec/abrt_handler_spec.rb:79-85 | a last frame starting with `./` is never eligible |
| `Handler.OneLinerIgnored` | spec/abrt_handler_spec.rb:87-96 | a last frame `-e:...` is never eligible |
| `Handler.Reporter.constructor` | spec/abrt_handler_spec.rb:51 | a fresh socket buffer and syslog record are empty |
| `Handler.Reporter.Write` | spec/abrt_handler_spec.rb:60-68 | a write appends its chunk to the chunk list and to the written text |
| `Handler.Reporter.Syslog` | spec/abrt_handler_spec.rb:39-49 | a syslog call appends one entry |
| `Handler.Reporter.WriteAll` | spec/abrt_handler_spec.rb:60-68 | writes the chunks in order, appending each one to the chunk list |
| `Handler.Reporter.WriteDump` | spec/abrt_handler_spec.rb:53-143 | when connected, it writes the request line and every record, then logs the reply's error, if any. An unreachable socket gets nothing written and one connect-error entry |
| `Handler.Reporter.HandleException` | spec/abrt_handler_spec.rb:53-143 | the new chunks, written text and log are exactly those given by the report and log functions above. Nothing is written when the exception is filtered, and the method always returns |
| `Scenarios.SampleHeader` | spec/abrt_exception_spec.rb:19-20 | the sample's header is ``/foo/bar.rb:3:in `block in func': baz (RuntimeError)`` |
| `Scenarios.SampleExecutable` | spec/abrt_exception_spec.rb:28-31 | the sample's executable is `/foo.rb` |
| `Scenarios.SampleFallback` | spec/abrt_exception_spec.rb:43-53 | empty and `nil` backtraces give `/bar.rb` |
| `Scenarios.SampleLines` | spec/abrt_handler_spec.rb:24-28 | the sample renders as its header and the three `"\tfrom "` lines of the expected report |
| `Scenarios.SampleBacktraceJoined` | spec/abrt_handler_spec.rb:25-28 | the sample's BACKTRACE value is the expected four-line text |
| `Scenarios.ReportFieldsOf` | spec/abrt_handler_spec.rb:17-29 | any report is the seven named fields with the pid's digits, the executable, `Ruby`, `Ruby`, `rbhook`, the first formatted line and the joined lines |
| `Scenarios.SampleFields` | spec/abrt_handler_spec.rb:17-29 | the sample's seven fields, name and value, are those of the expected report |
| `Scenarios.SampleNulFree` | spec/abrt_handler_spec.rb:24-28 | the sample's REASON and BACKTRACE texts hold no NUL, so they are written unchanged |
| `Scenarios.SampleChunks` | spec/abrt_handler_spec.rb:17-29 | the request line and the sample's seven records are exactly the pieces of the expected report |
| `Scenarios.SampleWritten` | spec/abrt_handler_spec.rb:53-61 | handling the sample over a connected socket writes exactly the expected report |
| `Scenarios.HandleSample` | spec/abrt_handler_spec.rb:53-61 | a fresh reporter handling the sample with a `HTTP/1.1 201` reply ends with exactly the expected report on the socket and only the notice in syslog |
| `Scenarios.NoticeLiteral` | spec/abrt_handler_spec.rb:74-77 | the notice for `/foo.rb` is `detected unhandled Ruby exception in '/foo.rb'` at notice level |
| `Scenarios.SampleNotice` | spec/abrt_handler_spec.rb:74-77 | handling the sample logs that notice first, whatever the socket does |
| `Scenarios.SampleReply` | spec/abrt_handler_spec.rb:53-120 | for the sample, the log is the notice followed by the reply's error, if any |
| `Scenarios.SampleDelivered` | spec/abrt_handler_spec.rb:53-61 | a 201 reply logs no error |
| `Scenarios.SampleEmptyReply` | spec/abrt_handler_spec.rb:99-104 | an empty reply logs `error sending data to ABRT daemon. Empty response received` |
| `Scenarios.SampleRejectedReply` | spec/abrt_handler_spec.rb:106-120 | `foo` and `HTTP/1.1 400` are logged verbatim behind the error prefix |
| `Scenarios.InjectionDefeated` | spec/abrt_handler_spec.rb:63-72 | the exception with NULs and a forged `INJECTION=` field still reads back as the seven report fields only |
| `Scenarios.RelativeScriptIgnored` | spec/abrt_handler_spec.rb:79-85 | `./foo.rb` sends nothing |
| `Scenarios.OneLineScriptIgnored` | spec/abrt_handler_spec.rb:87-96 | a `-e` script sends nothing |
| `Scenarios.SampleUnreachable` | spec/abrt_handler_spec.rb:122-143 | an unreachable socket logs the notice and one connect-error entry |

## Left out

- Opening, half-closing and closing the UNIX socket are left out, as is choosing its path. The socket is the `Transport` input: either the reply the daemon gives once the request is written, or a connect failure with its cause and path.
- Response.ConnectFailureText: the OS error text is modelled in the newer Ruby form `<cause> - connect(2) for <path>`. The test also accepts the older form `<cause> - <path>`, which the model does not produce.
- Failures other than a failed connect are not modelled. These are a write or read that raises mid-exchange; what the hook logs for them is not modelled.
- The syslog sink is not modelled. Each call is recorded as a level, a template and an optional argument.
- `Process.pid` and `$PROGRAM_NAME` are parameters of the operations.
- Installing the hook into Ruby's exit path is not modelled.
- Ruby string encodings are not modelled; strings are sequences of characters.
- Handler.Reporter.WriteDump: it writes the request line and then one chunk per record. The tests only require at least one write, and the implementation's exact chunking is not part of this model.
- The first handler test's expected report is stated as the concatenation of eight pieces (request line and seven records) rather than as one string literal; the test's eleven added literals are grouped into those eight pieces, BACKTRACE's four literals forming one.
