/** MPD's error replies and what the client makes of them. */
module Errors {
  import opened Wrappers
  import opened Text

  datatype ErrorCode =
    | NotList
    | Argument
    | Password
    | Permission
    | UnknownCmd
    | NoExist
    | PlaylistMax
    | System
    | PlaylistLoad
    | UpdateAlready
    | PlayerSync
    | Exist

  /** `commandListIndex` is a `u8` in the client. */
  datatype FailureResponse = FailureResponse(code: ErrorCode, commandListIndex: nat, command: string, message: string)

  /** `Panicked` stands for a panic of the client (a line whose colon ends it). */
  datatype MpdError =
    | Parse
    | UnknownCode(code: nat)
    | Generic
    | ValueExpected
    | TimedOut
    | Io
    | Mpd(failure: FailureResponse)
    | Panicked

  function CodeNumber(code: ErrorCode): nat {
    match code
    case NotList => 1
    case Argument => 2
    case Password => 3
    case Permission => 4
    case UnknownCmd => 5
    case NoExist => 50
    case PlaylistMax => 51
    case System => 52
    case PlaylistLoad => 53
    case UpdateAlready => 54
    case PlayerSync => 55
    case Exist => 56
  }

  function ParseCode(s: string): Result<ErrorCode, MpdError> {
    match ParseUnsigned(s, U8_MAX)
    case None => Failure(Parse)
    case Some(n) => CodeOf(n)
  }

  function CodeOf(n: nat): Result<ErrorCode, MpdError> {
    match n
    case 1 => Success(NotList)
    case 2 => Success(Argument)
    case 3 => Success(Password)
    case 4 => Success(Permission)
    case 5 => Success(UnknownCmd)
    case 50 => Success(NoExist)
    case 51 => Success(PlaylistMax)
    case 52 => Success(System)
    case 53 => Success(PlaylistLoad)
    case 54 => Success(UpdateAlready)
    case 55 => Success(PlayerSync)
    case 56 => Success(Exist)
    case _ => Failure(UnknownCode(n))
  }

  function StripPrefix(s: string, prefix: string): Option<string> {
    if prefix <= s then Some(s[|prefix|..]) else None
  }

  function SplitOnce(s: string, pat: string): Option<(string, string)> {
    match Find(s, pat)
    case None => None
    case Some(i) => Some((s[..i], s[i + |pat|..]))
  }

  lemma SplitOnceAfter(a: string, pat: string, b: string)
    requires pat != "" && pat[0] !in a
    ensures SplitOnce(a + (pat + b), pat) == Some((a, b))
  {
    FindAfter(a, pat, b);
    assert a + (pat + b) == a + pat + b;
    assert (a + pat + b)[..|a|] == a;
    assert (a + pat + b)[|a| + |pat|..] == b;
  }

  /** `ACK [code@index] {command} message`. */
  function ParseFailure(s: string): Result<FailureResponse, MpdError> {
    match StripPrefix(s, "ACK [")
    case None => Failure(Parse)
    case Some(afterAck) =>
      match SplitOnce(afterAck, "@")
      case None => Failure(Parse)
      case Some((codeText, afterCode)) =>
        match ParseCode(codeText)
        case Failure(e) => Failure(e)
        case Success(code) => ParseIndex(code, afterCode)
  }

  function ParseIndex(code: ErrorCode, s: string): Result<FailureResponse, MpdError> {
    match SplitOnce(s, "]")
    case None => Failure(Parse)
    case Some((indexText, afterIndex)) =>
      match ParseUnsigned(indexText, U8_MAX)
      case None => Failure(Parse)
      case Some(index) => ParseCommand(code, index, afterIndex)
  }

  function ParseCommand(code: ErrorCode, index: nat, s: string): Result<FailureResponse, MpdError> {
    match StripPrefix(s, " {")
    case None => Failure(Parse)
    case Some(afterBrace) =>
      match SplitOnce(afterBrace, "} ")
      case None => Failure(Parse)
      case Some((command, message)) => Success(FailureResponse(code, index, command, Trim(message)))
  }

  function CommandPart(command: string, message: string): string {
    " {" + (command + ("} " + message))
  }

  /** The line MPD writes, behind `ACK [`. */
  function AckBody(code: ErrorCode, index: nat, command: string, message: string): string {
    Digits(CodeNumber(code)) + ("@" + (Digits(index) + ("]" + CommandPart(command, message))))
  }

  function AckLine(code: ErrorCode, index: nat, command: string, message: string): string {
    "ACK [" + AckBody(code, index, command, message + "\n")
  }

  lemma Regroup(a: string, b: string, c: string)
    ensures a + (b + c) == (a + b) + c
  {
  }

  /** The body is one line if its parts are. */
  lemma AckIsOneLine(code: ErrorCode, index: nat, command: string, message: string)
    requires '\n' !in command && '\n' !in message
    ensures AckBody(code, index, command, message + "\n") == AckBody(code, index, command, message) + "\n"
    ensures '\n' !in AckBody(code, index, command, message)
  {
    var m1 := "} " + message;
    var m2 := command + m1;
    var m3 := " {" + m2;
    var m4 := "]" + m3;
    var m5 := Digits(index) + m4;
    var m6 := "@" + m5;
    Regroup("} ", message, "\n");
    Regroup(command, m1, "\n");
    Regroup(" {", m2, "\n");
    Regroup("]", m3, "\n");
    Regroup(Digits(index), m4, "\n");
    Regroup("@", m5, "\n");
    Regroup(Digits(CodeNumber(code)), m6, "\n");
    assert '\n' !in m2;
    assert '\n' !in m4;
    assert '\n' !in m6;
  }

  lemma ParseCodeNumber(code: ErrorCode)
    ensures ParseCode(Digits(CodeNumber(code))) == Success(code)
  {
    ParseCodeDigits(CodeNumber(code));
    CodeOfNumber(code);
  }

  lemma ParseCodeDigits(n: nat)
    requires n <= U8_MAX
    ensures ParseCode(Digits(n)) == CodeOf(n)
  {
    ParseDigits(n, U8_MAX);
  }

  lemma CodeOfNumber(code: ErrorCode)
    ensures CodeNumber(code) <= U8_MAX && CodeOf(CodeNumber(code)) == Success(code)
  {
  }

  lemma ParseCommandPart(code: ErrorCode, index: nat, command: string, tail: string)
    requires '}' !in command
    ensures ParseCommand(code, index, CommandPart(command, tail))
         == Success(FailureResponse(code, index, command, Trim(tail)))
  {
    var s := CommandPart(command, tail);
    assert s[2..] == command + ("} " + tail);
    SplitOnceAfter(command, "} ", tail);
  }

  lemma ParseIndexPart(code: ErrorCode, index: nat, command: string, tail: string)
    requires '}' !in command
    ensures ParseIndex(code, Digits(index) + ("]" + CommandPart(command, tail)))
         == if index <= U8_MAX then Success(FailureResponse(code, index, command, Trim(tail))) else Failure(Parse)
  {
    ParseBehindIndex(code, index, CommandPart(command, tail));
    if index <= U8_MAX { ParseCommandPart(code, index, command, tail); }
  }

  lemma ParseBehindIndex(code: ErrorCode, index: nat, rest: string)
    ensures ParseIndex(code, Digits(index) + ("]" + rest))
         == if index <= U8_MAX then ParseCommand(code, index, rest) else Failure(Parse)
  {
    SplitOnceAfter(Digits(index), "]", rest);
    ParseDigits(index, U8_MAX);
  }

  lemma ParseBehindCode(codeText: string, code: ErrorCode, rest: string)
    requires '@' !in codeText && ParseCode(codeText) == Success(code)
    ensures ParseFailure("ACK [" + (codeText + ("@" + rest))) == ParseIndex(code, rest)
  {
    var s := "ACK [" + (codeText + ("@" + rest));
    assert s[5..] == codeText + ("@" + rest);
    SplitOnceAfter(codeText, "@", rest);
  }

  /** The line is read back with its code, index and command, exactly when the index fits a
      `u8`; a larger index is no MPD error to the client but a parse error. */
  lemma AckRoundTrip(code: ErrorCode, index: nat, command: string, message: string)
    requires '}' !in command
    ensures ParseFailure(AckLine(code, index, command, message))
         == if index <= U8_MAX then Success(FailureResponse(code, index, command, Trim(message + "\n"))) else Failure(Parse)
  {
    var indexed := Digits(index) + ("]" + CommandPart(command, message + "\n"));
    ParseCodeNumber(code);
    ParseBehindCode(Digits(CodeNumber(code)), code, indexed);
    ParseIndexPart(code, index, command, message + "\n");
  }

  /** The message is the text behind the braces, without the line break. */
  lemma AckMessage(code: ErrorCode, index: nat, command: string, message: string)
    requires '}' !in command && index <= U8_MAX && Trimmed(message)
    ensures ParseFailure(AckLine(code, index, command, message)) == Success(FailureResponse(code, index, command, message))
  {
    AckRoundTrip(code, index, command, message);
    TrimLine(message);
  }
}
