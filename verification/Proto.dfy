/**
 Reading replies: lines, OK lines, key-value responses. The stream is text; a read at its
 end is the "reached EOF" error, and means waiting for a reply nobody sends.
 */
module Proto {
  import opened Wrappers
  import opened Text
  import opened Errors

  datatype MpdLine = Ok | Value(text: string)

  /** Length of the first line, its newline included. */
  function LineLength(s: string): (n: nat)
    ensures n <= |s| && (s != "" ==> n > 0)
  {
    match Find(s, "\n")
    case None => |s|
    case Some(i) => i + 1
  }

  /** `read_line` on one non-empty line; `pop` takes the last character, whatever it is. */
  function Classify(line: string): Result<MpdLine, MpdError>
    requires line != ""
  {
    if "OK" <= line || "list_OK" <= line then Success(Ok)
    else if "ACK" <= line then
      match ParseFailure(line)
      case Success(f) => Failure(Mpd(f))
      case Failure(e) => Failure(e)
    else Success(Value(line[..|line| - 1]))
  }

  /** One line and the rest of the stream. */
  function ReadLine(s: string): (r: (Result<MpdLine, MpdError>, string))
    ensures s != "" ==> |r.1| < |s|
  {
    if s == "" then (Failure(ValueExpected), "")
    else (Classify(s[..LineLength(s)]), s[LineLength(s)..])
  }

  /** A line that ends in a newline and has no other is read alone. */
  lemma ReadOneLine(text: string, rest: string)
    requires '\n' !in text
    ensures ReadLine(text + "\n" + rest) == (Classify(text + "\n"), rest)
  {
    FindAfter(text, "\n", rest);
    assert (text + "\n" + rest)[..|text| + 1] == text + "\n";
    assert (text + "\n" + rest)[|text| + 1..] == rest;
  }

  /** Key and value. `drain` removes the colon and the byte behind it. */
  function SplitLine(line: string): Result<(string, string), MpdError> {
    match Find(line, ":")
    case None => Failure(ValueExpected)
    case Some(i) =>
      if i + 2 <= |line| && line[i + 1] as int < 128 then Success((line[..i], line[i + 2..]))
      else Failure(Panicked)
  }

  lemma SplitPrinted(key: string, value: string)
    requires ':' !in key
    ensures SplitLine(key + ": " + value) == Success((key, value))
  {
    FindAfter(key, ":", " " + value);
    assert key + ":" + (" " + value) == key + ": " + value;
    assert (key + ": " + value)[..|key|] == key;
    assert (key + ": " + value)[|key| + 2..] == value;
  }

  /** `next_internal`: one lower-case key and its value. An unknown pair leaves the
      accumulator alone. */
  type Parser<!V> = (V, string, string) -> Result<V, MpdError>

  function Feed<V>(next: Parser<V>, acc: V, line: string): Result<V, MpdError> {
    match SplitLine(line)
    case Failure(e) => Failure(e)
    case Success((key, value)) => next(acc, Lower(key), value)
  }

  /** `read_response`, and what it leaves of the stream. */
  function Response<V>(next: Parser<V>, acc: V, s: string): (Result<V, MpdError>, string)
    decreases |s|
  {
    var line := ReadLine(s).0;
    var rest := ReadLine(s).1;
    if s == "" || line.Failure? then (Failure(if s == "" then ValueExpected else line.error), rest)
    else if line.value.Ok? then (Success(acc), rest)
    else
      var fed := Feed(next, acc, line.value.text);
      if fed.Failure? then (Failure(fed.error), rest) else Response(next, fed.value, rest)
  }

  /** `read_ok`: a value is an error too. */
  function OkResult(s: string): Result<(), MpdError> {
    var line := ReadLine(s).0;
    if line.Failure? then Failure(line.error)
    else if line.value.Ok? then Success(()) else Failure(Generic)
  }

  predicate ShouldReinit(e: MpdError) {
    !(e.Mpd? && e.failure.code.NoExist?) && !e.TimedOut?
  }

  /** The reading half of a client. */
  class Client {
    var incoming: string

    constructor ()
      ensures incoming == ""
    {
      incoming := "";
    }

    /** The server's reply arrives. */
    method Receive(reply: string)
      modifies this
      ensures incoming == old(incoming) + reply
    {
      incoming := incoming + reply;
    }

    /** A new BufReader: whatever the old one had already taken from the socket is lost. How
        much that is, is not known. */
    method ClearReadBuf()
      modifies this
      ensures exists k | 0 <= k <= |old(incoming)| :: incoming == old(incoming)[k..]
    {
      var lost :| 0 <= lost <= |incoming|;
      incoming := incoming[lost..];
    }

    /** What a failed read may leave of `rest`. */
    static predicate Left(e: MpdError, rest: string, left: string) {
      if ShouldReinit(e) then exists k | 0 <= k <= |rest| :: left == rest[k..] else left == rest
    }

    method ReadOk() returns (r: Result<(), MpdError>)
      modifies this
      ensures r == OkResult(old(incoming))
      ensures if r.Success? then incoming == ReadLine(old(incoming)).1
              else Left(r.error, ReadLine(old(incoming)).1, incoming)
    {
      var line := ReadLine(incoming).0;
      incoming := ReadLine(incoming).1;
      if line.Failure? {
        if ShouldReinit(line.error) { ClearReadBuf(); }
        return Failure(line.error);
      }
      if line.value.Value? {
        ClearReadBuf();
        return Failure(Generic);
      }
      return Success(());
    }

    method ReadResponse<V>(next: Parser<V>, init: V) returns (r: Result<V, MpdError>)
      modifies this
      ensures r == Response(next, init, old(incoming)).0
      ensures if r.Success? then incoming == Response(next, init, old(incoming)).1
              else Left(r.error, Response(next, init, old(incoming)).1, incoming)
    {
      var acc := init;
      while true
        invariant Response(next, acc, incoming) == Response(next, init, old(incoming))
        decreases |incoming|
      {
        var line := ReadLine(incoming).0;
        incoming := ReadLine(incoming).1;
        if line.Failure? {
          if ShouldReinit(line.error) { ClearReadBuf(); }
          return Failure(line.error);
        }
        if line.value.Ok? {
          return Success(acc);
        }
        var fed := Feed(next, acc, line.value.text);
        if fed.Failure? {
          if ShouldReinit(fed.error) { ClearReadBuf(); }
          return Failure(fed.error);
        }
        acc := fed.value;
      }
    }
  }

  /** An error line is read alone, as an MPD error or, with an index beyond `u8`, a parse error. */
  lemma ReadAck(code: ErrorCode, index: nat, command: string, message: string, rest: string)
    requires '}' !in command && '\n' !in command && '\n' !in message
    ensures ReadLine(AckLine(code, index, command, message) + rest)
         == (if index <= U8_MAX then Failure(Mpd(FailureResponse(code, index, command, Trim(message + "\n"))))
             else Failure(Parse), rest)
  {
    var body := AckBody(code, index, command, message);
    AckIsOneLine(code, index, command, message);
    assert AckLine(code, index, command, message) == ("ACK [" + body) + "\n" by {
      Regroup("ACK [", body, "\n");
    }
    ReadOneLine("ACK [" + body, rest);
    AckRoundTrip(code, index, command, message);
    AckIsNotOk(AckBody(code, index, command, message + "\n"));
  }

  lemma AckIsNotOk(body: string)
    ensures var line := "ACK [" + body;
      "ACK" <= line && !("OK" <= line) && !("list_OK" <= line)
  {
    assert ("ACK [" + body)[0] == 'A';
  }

  /** `read_opt_response`: as `read_response`, but a bare OK is no value. */
  method ReadOptResponse<V>(client: Client, next: Parser<V>, init: V) returns (r: Result<Option<V>, MpdError>)
    modifies client
    ensures var full := Response(next, init, old(client.incoming));
      if full.0.Failure? then r == Failure(full.0.error) && Client.Left(full.0.error, full.1, client.incoming)
      else && client.incoming == full.1
           && r == Success(if ReadLine(old(client.incoming)).0 == Success(Ok) then None else Some(full.0.value))
  {
    var acc, foundAny := init, false;
    while true
      invariant Response(next, acc, client.incoming) == Response(next, init, old(client.incoming))
      invariant !foundAny ==> client.incoming == old(client.incoming) && acc == init
      invariant foundAny ==> ReadLine(old(client.incoming)).0 != Success(Ok)
      decreases |client.incoming|
    {
      var line := ReadLine(client.incoming).0;
      client.incoming := ReadLine(client.incoming).1;
      if line.Failure? {
        if ShouldReinit(line.error) { client.ClearReadBuf(); }
        return Failure(line.error);
      }
      if line.value.Ok? {
        return Success(if foundAny then Some(acc) else None);
      }
      foundAny := true;
      var fed := Feed(next, acc, line.value.text);
      if fed.Failure? {
        if ShouldReinit(fed.error) { client.ClearReadBuf(); }
        return Failure(fed.error);
      }
      acc := fed.value;
    }
  }

  /** A pair as MPD prints it. */
  function PairLine(key: string, value: string): string {
    key + ": " + value + "\n"
  }

  /** The pair is one line, and its key ends where it should. */
  predicate OneLine(key: string, value: string) {
    ':' !in key && '\n' !in key && '\n' !in value
  }

  /** The line is not taken for the end of a reply or for an error. */
  predicate Plain(key: string) {
    !("OK" <= key) && !("list_OK" <= key) && !("ACK" <= key)
  }

  /** A printed pair is read as that pair exactly when its key is plain; a tag named like
      `OKtag` would end the reply instead. */
  lemma ReadPairExactly(key: string, value: string, rest: string)
    requires OneLine(key, value)
    ensures ReadLine(PairLine(key, value) + rest).1 == rest
    ensures ReadLine(PairLine(key, value) + rest).0 == Success(Value(key + ": " + value)) <==> Plain(key)
    ensures "OK" <= key ==> ReadLine(PairLine(key, value) + rest).0 == Success(Ok)
  {
    var text := key + ": " + value;
    var tail := ": " + value + "\n";
    assert PairLine(key, value) + rest == text + "\n" + rest;
    assert text + "\n" == key + tail;
    ReadOneLine(text, rest);
    PrefixBeforeColon("OK", key, tail);
    PrefixBeforeColon("list_OK", key, tail);
    PrefixBeforeColon("ACK", key, tail);
    assert (text + "\n")[..|text|] == text;
  }

  lemma PrefixBeforeColon(p: string, key: string, tail: string)
    requires ':' !in p && tail != "" && tail[0] == ':'
    ensures p <= key + tail <==> p <= key
  {
    if |p| <= |key| {
      assert (key + tail)[..|p|] == key[..|p|];
    } else {
      assert (key + tail)[|key|] == ':' != p[|key|];
    }
  }

  /** Reading one printed pair is one step of the parser. */
  lemma ResponsePair<V>(next: Parser<V>, acc: V, key: string, value: string, rest: string)
    requires OneLine(key, value) && Plain(key)
    ensures Response(next, acc, PairLine(key, value) + rest)
         == var fed := next(acc, Lower(key), value);
            if fed.Failure? then (Failure(fed.error), rest) else Response(next, fed.value, rest)
  {
    ReadPairExactly(key, value, rest);
    SplitPrinted(key, value);
  }

  /** The terminating line is taken, and nothing behind it. */
  lemma ResponseEnd<V>(next: Parser<V>, acc: V, rest: string)
    ensures Response(next, acc, "OK\n" + rest) == (Success(acc), rest)
    ensures Response(next, acc, "list_OK\n" + rest) == (Success(acc), rest)
  {
    ReadOneLine("OK", rest);
    ReadOneLine("list_OK", rest);
    assert "OK" + "\n" == "OK\n" && "list_OK" + "\n" == "list_OK\n";
  }
}
