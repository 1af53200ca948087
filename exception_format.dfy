/**
 * The exception formatter mixed into Ruby exceptions (`ABRT::Exception`):
 * `format` renders the backtrace the way Ruby prints an uncaught error, and
 * `executable` names the script that raised it.
 */
module ExceptionFormat {
  import opened Wrappers
  import opened Strings

  /** An unhandled Ruby exception: its message, its class name and its backtrace (`nil` is `None`). */
  datatype CapturedError = CapturedError(message: string, kind: string, backtrace: Option<seq<string>>)

  /** Prefix of every backtrace line after the first. */
  const FromPrefix: string := "\tfrom "

  /** The recorded frames, most recent call first; an absent backtrace has none. */
  function Frames(e: CapturedError): (frames: seq<string>)
  {
    match e.backtrace
    case None => []
    case Some(frames) => frames
  }

  /** "<message> (<Class>)", the part of the header that does not depend on the frames. */
  function Summary(message: string, kind: string): (summary: string)
  {
    message + " (" + kind + ")"
  }

  /** One "\tfrom <frame>" line per frame, in the given order. */
  function FromLines(frames: seq<string>): (r: seq<string>)
    ensures |r| == |frames|
    ensures forall i :: 0 <= i < |frames| ==> r[i] == FromPrefix + frames[i]
  {
    if frames == [] then [] else [FromPrefix + frames[0]] + FromLines(frames[1..])
  }

  /**
   * `format`: the first frame is promoted to the header "<frame>: <message> (<Class>)",
   * every later frame becomes "\tfrom <frame>"; without frames the header is the summary alone.
   */
  function Format(e: CapturedError): (r: seq<string>)
    ensures |r| == if Frames(e) == [] then 1 else |Frames(e)|
    ensures Frames(e) == [] ==> r[0] == Summary(e.message, e.kind)
    ensures Frames(e) != [] ==> r[0] == Frames(e)[0] + ": " + Summary(e.message, e.kind)
    ensures forall i :: 1 <= i < |r| ==> r[i] == FromPrefix + Frames(e)[i]
  {
    var frames := Frames(e);
    var summary := Summary(e.message, e.kind);
    if frames == [] then [summary]
    else [frames[0] + ": " + summary] + FromLines(frames[1..])
  }

  /** Reads frames back out of "\tfrom <frame>" lines; `None` when a line lacks the prefix. */
  function UnfromLines(lines: seq<string>): Option<seq<string>>
  {
    if lines == [] then Some([])
    else if !(FromPrefix <= lines[0]) then None
    else match UnfromLines(lines[1..])
      case None => None
      case Some(rest) => Some([lines[0][|FromPrefix|..]] + rest)
  }

  /** The "from" lines read back as the frames they were made from. */
  lemma {:induction false} UnfromFromLines(frames: seq<string>)
    ensures UnfromLines(FromLines(frames)) == Some(frames)
  {
    if frames != [] {
      var first := FromPrefix + frames[0];
      var lines := FromLines(frames);
      assert lines == [first] + FromLines(frames[1..]);
      assert lines[1..] == FromLines(frames[1..]);
      assert first[|FromPrefix|..] == frames[0];
      UnfromFromLines(frames[1..]);
      assert frames == [frames[0]] + frames[1..];
    }
  }

  /** The frame in front of a header's ": <message> (<Class>)" tail, if the line ends with that tail. */
  function HeaderFrame(line: string, tail: string): Option<string>
  {
    if |line| >= |tail| && line[|line| - |tail|..] == tail then Some(line[..|line| - |tail|]) else None
  }

  /** A header made of a frame and a tail gives that frame back. */
  lemma HeaderFrameOf(frame: string, tail: string)
    ensures HeaderFrame(frame + tail, tail) == Some(frame)
  {
    var line := frame + tail;
    assert line[|line| - |tail|..] == tail;
    assert line[..|line| - |tail|] == frame;
  }

  /**
   * Reads the frames back out of formatted lines, given the message and class name:
   * the inverse of `Format`, showing that the rendering loses no frame and keeps their order.
   */
  function Unformat(lines: seq<string>, message: string, kind: string): (frames: Option<seq<string>>)
  {
    var summary := Summary(message, kind);
    if lines == [] then None
    else if |lines| == 1 && lines[0] == summary then Some([])
    else match (HeaderFrame(lines[0], ": " + summary), UnfromLines(lines[1..]))
      case (Some(first), Some(rest)) => Some([first] + rest)
      case _ => None
  }

  /** Formatting then reading back recovers the recorded frames exactly. */
  lemma FormatRoundTrip(e: CapturedError)
    ensures Unformat(Format(e), e.message, e.kind) == Some(Frames(e))
  {
    var frames := Frames(e);
    if frames != [] {
      var summary := Summary(e.message, e.kind);
      var lines := Format(e);
      assert HeaderFrame(lines[0], ": " + summary) == Some(frames[0]) by {
        assert lines[0] == frames[0] + (": " + summary);
        HeaderFrameOf(frames[0], ": " + summary);
      }
      assert UnfromLines(lines[1..]) == Some(frames[1..]) by {
        assert lines[1..] == FromLines(frames[1..]);
        UnfromFromLines(frames[1..]);
      }
      assert !(|lines| == 1 && lines[0] == summary);
      assert frames == [frames[0]] + frames[1..];
    }
  }

  /**
   * `executable`: the file path of the last (outermost) frame, i.e. its text before the
   * first ':'; with an empty or absent backtrace, the program name (`$PROGRAM_NAME`).
   */
  function Executable(e: CapturedError, programName: string): (r: string)
    ensures Frames(e) == [] ==> r == programName
    ensures Frames(e) != [] ==> var last := Frames(e)[|Frames(e)| - 1];
      r <= last && ':' !in r && (|r| < |last| ==> last[|r|] == ':')
  {
    var frames := Frames(e);
    if frames == [] then programName else Before(frames[|frames| - 1], ':')
  }

  /** A last frame "<path>:<line>:in `<method>'" yields exactly <path>. */
  lemma ExecutableOfLastFrame(e: CapturedError, programName: string, path: string, rest: string)
    requires Frames(e) != [] && Frames(e)[|Frames(e)| - 1] == path + ":" + rest
    requires ':' !in path
    ensures Executable(e, programName) == path
  {
    BeforeDelimited(path, ':', rest);
  }

  /** An absent backtrace and an empty one both fall back to the program name. */
  lemma ExecutableFallback(message: string, kind: string, programName: string)
    ensures Executable(CapturedError(message, kind, None), programName) == programName
    ensures Executable(CapturedError(message, kind, Some([])), programName) == programName
  {
  }
}
