/**
 Fetching the stickers of many songs: a command list of all songs not yet answered, read
 reply by reply, and started again behind the first refusal.
 */
module Stickers {
  import opened Wrappers
  import opened Text
  import opened Errors
  import opened Proto

  type StickerMap = map<string, string>

  /** What the server will answer for one song. */
  datatype Answer = Found(stickers: seq<(string, string)>) | Refused(code: ErrorCode, message: string)

  /** `Stickers::next_internal`. */
  function Next(acc: StickerMap, key: string, value: string): Result<StickerMap, MpdError> {
    if key != "sticker" then Success(acc)
    else
      match SplitOnce(value, "=")
      case None => Failure(Parse)
      case Some((k, v)) => Success(acc[k := v])
  }

  /** Names have no equals sign; nothing has a line break. */
  predicate Printable(a: Answer) {
    match a
    case Found(st) => forall p | p in st :: '=' !in p.0 && '\n' !in p.0 && '\n' !in p.1
    case Refused(_, message) => '\n' !in message
  }

  predicate AllPrintable(answers: seq<Answer>) {
    forall a | a in answers :: Printable(a)
  }

  function AddAll(acc: StickerMap, st: seq<(string, string)>): StickerMap
    decreases st
  {
    if st == [] then acc else AddAll(acc[st[0].0 := st[0].1], st[1..])
  }

  /** The stickers of one song on its own; none if it is refused. */
  function Meaning(a: Answer): StickerMap {
    match a
    case Found(st) => AddAll(map[], st)
    case Refused(_, _) => map[]
  }

  function StickerLines(st: seq<(string, string)>): string {
    if st == [] then "" else PairLine("sticker", st[0].0 + "=" + st[0].1) + StickerLines(st[1..])
  }

  /** The reply to a command list with one `list_OK` per command: the commands run in order and
      the list ends at the first failure, with one ACK carrying its index and nothing behind it. */
  function Batch(answers: seq<Answer>, index: nat): string
    decreases answers
  {
    if answers == [] then "OK\n"
    else
      match answers[0]
      case Found(st) => StickerLines(st) + ("list_OK\n" + Batch(answers[1..], index + 1))
      case Refused(code, message) => AckLine(code, index, "sticker", message)
  }

  lemma {:induction false} ReadFound(acc: StickerMap, st: seq<(string, string)>, rest: string)
    requires Printable(Found(st))
    ensures Response(Next, acc, StickerLines(st) + ("list_OK\n" + rest)) == (Success(AddAll(acc, st)), rest)
    decreases st
  {
    if st == [] {
      assert StickerLines(st) + ("list_OK\n" + rest) == "list_OK\n" + rest;
      ResponseEnd(Next, acc, rest);
    } else {
      var (k, v) := st[0];
      assert st[0] in st;
      var behind := StickerLines(st[1..]) + ("list_OK\n" + rest);
      assert StickerLines(st) + ("list_OK\n" + rest) == PairLine("sticker", k + "=" + v) + behind;
      assert Lower("sticker") == "sticker" && "sticker"[0] == 's';
      SplitOnceAfter(k, "=", v);
      Regroup(k, "=", v);
      ResponsePair(Next, acc, "sticker", k + "=" + v, behind);
      ReadFound(acc[k := v], st[1..], rest);
    }
  }

  /** Whatever the index, the refusal is an error to the reader and is all that was sent. */
  lemma ReadRefused(code: ErrorCode, message: string, index: nat)
    requires '\n' !in message
    ensures var r := Response(Next, map[], AckLine(code, index, "sticker", message));
      r.0.Failure? && r.1 == ""
  {
    var line := AckLine(code, index, "sticker", message);
    assert line + "" == line;
    ReadAck(code, index, "sticker", message, "");
  }

  /** Lines with another key are passed over, and a sticker without an equals sign is an error. */
  lemma OtherLinesIgnored(acc: StickerMap, key: string, value: string, rest: string)
    requires OneLine(key, value) && Plain(key)
    ensures Lower(key) != "sticker" ==>
      Response(Next, acc, PairLine(key, value) + rest) == Response(Next, acc, rest)
    ensures Lower(key) == "sticker" && '=' !in value ==>
      Response(Next, acc, PairLine(key, value) + rest) == (Failure(Parse), rest)
  {
    ResponsePair(Next, acc, key, value, rest);
    if '=' !in value { FindNothing(value, "="); }
  }

  /** One reply of a batch. */
  lemma ReadAnswer(answers: seq<Answer>, index: nat)
    requires answers != [] && AllPrintable(answers)
    ensures var r := Response(Next, map[], Batch(answers, index));
      if answers[0].Found? then r == (Success(Meaning(answers[0])), Batch(answers[1..], index + 1))
      else r.0.Failure? && r.1 == ""
  {
    assert answers[0] in answers;
    match answers[0]
    case Found(st) => ReadFound(map[], st, Batch(answers[1..], index + 1));
    case Refused(code, message) => ReadRefused(code, message, index);
  }

  /** The unread part of the reply to the batch that began with song `start`, before song `i`. */
  function Unread(answers: seq<Answer>, start: nat, i: nat): string
    requires start <= i <= |answers|
  {
    Batch(answers[i..], i - start)
  }

  /** `read_response` for song `i` of that batch. */
  method ReadReply(client: Client, ghost answers: seq<Answer>, ghost start: nat, ghost i: nat)
    returns (r: Result<StickerMap, MpdError>)
    requires start <= i < |answers| && AllPrintable(answers)
    requires client.incoming == Unread(answers, start, i)
    modifies client
    ensures answers[i].Found? ==> r == Success(Meaning(answers[i])) && client.incoming == Unread(answers, start, i + 1)
    ensures answers[i].Refused? ==> r.Failure? && client.incoming == ""
    ensures i + 1 == |answers| ==> Unread(answers, start, i + 1) == "OK\n"
  {
    assert answers[i..][0] == answers[i] && answers[i..][1..] == answers[i + 1..];
    ReadAnswer(answers[i..], i - start);
    r := client.ReadResponse(Next, map[]);
  }

  /** `read_ok` on the last line of a command list, or with nothing to read. */
  method ReadEnd(client: Client) returns (r: Result<(), MpdError>)
    requires client.incoming == "OK\n" || client.incoming == ""
    modifies client
    ensures r == if old(client.incoming) == "" then Failure(ValueExpected) else Success(())
    ensures client.incoming == ""
  {
    ReadOneLine("OK", "");
    assert "OK" + "\n" + "" == "OK\n";
    r := client.ReadOk();
  }

  /** What is unread when the outer loop tests its condition. */
  predicate Aligned(incoming: string, unanswered: bool, endedWithErr: bool) {
    incoming == if unanswered || endedWithErr then "" else "OK\n"
  }

  /** One entry per song, in order, whatever pattern of refusals; at the end nothing is unread.
      For no songs at all it waits for an OK that no command caused. */
  method ListStickersMultiple(client: Client, uris: seq<string>, answers: seq<Answer>)
    returns (r: Result<seq<StickerMap>, MpdError>)
    requires |answers| == |uris| && AllPrintable(answers)
    requires client.incoming == ""
    modifies client
    ensures uris == [] ==> r == Failure(ValueExpected)
    ensures uris != [] ==> r.Success? && |r.value| == |uris|
                           && forall j | 0 <= j < |uris| :: r.value[j] == Meaning(answers[j])
    ensures client.incoming == ""
  {
    var result: seq<StickerMap> := [];
    var listEndedWithErr := false;
    var i := 0;
    while i < |uris|
      invariant i == |result| <= |uris|
      invariant forall j | 0 <= j < i :: result[j] == Meaning(answers[j])
      invariant Aligned(client.incoming, i < |uris| || uris == [], listEndedWithErr)
      invariant i == 0 ==> !listEndedWithErr
    {
      client.Receive(Batch(answers[i..], 0));
      var start := i;
      while i < |uris|
        invariant start <= i == |result| <= |uris|
        invariant start == i ==> i < |uris|
        invariant forall j | 0 <= j < i :: result[j] == Meaning(answers[j])
        invariant client.incoming == Unread(answers, start, i)
        invariant start < i == |uris| ==> client.incoming == "OK\n"
        invariant start < i ==> !listEndedWithErr
      {
        var res := ReadReply(client, answers, start, i);
        i := i + 1;
        if res.Success? {
          listEndedWithErr := false;
          result := result + [res.value];
        } else {
          result := result + [map[]];
          listEndedWithErr := true;
          break;
        }
      }
    }
    if !listEndedWithErr {
      var ok := ReadEnd(client);
      match ok
      case Success(_) =>
      case Failure(e) => return Failure(e);
    }
    return Success(result);
  }

  /** Each song's own stickers; a song named twice gets its last answer. */
  function MeaningOf(uris: seq<string>, answers: seq<Answer>): map<string, StickerMap>
    requires |answers| == |uris|
  {
    if uris == [] then map[]
    else MeaningOf(uris[..|uris| - 1], answers[..|uris| - 1])[uris[|uris| - 1] := Meaning(answers[|uris| - 1])]
  }

  /** The map answers for exactly the songs asked about, each with its last answer. */
  lemma {:induction false} MeaningOfIsPerSong(uris: seq<string>, answers: seq<Answer>, u: string)
    requires |answers| == |uris|
    ensures u in MeaningOf(uris, answers) <==> u in uris
    ensures forall j | 0 <= j < |uris| && uris[j] == u && u !in uris[j + 1..] ::
              MeaningOf(uris, answers)[u] == Meaning(answers[j])
  {
    if uris != [] {
      var n := |uris| - 1;
      MeaningOfIsPerSong(uris[..n], answers[..n], u);
      assert uris == uris[..n] + [uris[n]];
      forall j | 0 <= j < |uris| && uris[j] == u && u !in uris[j + 1..]
        ensures MeaningOf(uris, answers)[u] == Meaning(answers[j])
      {
        if j < n {
          assert uris[j + 1..][n - j - 1] == uris[n];
          assert uris[j + 1..] == uris[..n][j + 1..] + [uris[n]];
          assert uris[..n][j] == u && answers[..n][j] == answers[j];
        }
      }
    }
  }

  method FetchSongStickers(client: Client, songUris: seq<string>, answers: seq<Answer>)
    returns (r: Result<map<string, StickerMap>, MpdError>)
    requires |answers| == |songUris| && AllPrintable(answers)
    requires client.incoming == ""
    modifies client
    ensures r == Success(MeaningOf(songUris, answers))
    ensures client.incoming == ""
  {
    if songUris == [] {
      return Success(map[]);
    }
    var result: map<string, StickerMap> := map[];
    var listEndedWithErr := false;
    var i := 0;
    assert songUris[..0] == [];
    while i < |songUris|
      invariant 0 <= i <= |songUris|
      invariant result == MeaningOf(songUris[..i], answers[..i])
      invariant Aligned(client.incoming, i < |songUris|, listEndedWithErr)
    {
      client.Receive(Batch(answers[i..], 0));
      var start := i;
      while i < |songUris|
        invariant start <= i <= |songUris|
        invariant start == i ==> i < |songUris|
        invariant result == MeaningOf(songUris[..i], answers[..i])
        invariant client.incoming == Unread(answers, start, i)
        invariant start < i == |songUris| ==> client.incoming == "OK\n"
        invariant start < i ==> !listEndedWithErr
      {
        MeaningOfGrows(songUris, answers, i);
        var res := ReadReply(client, answers, start, i);
        if res.Success? {
          listEndedWithErr := false;
          result := result[songUris[i] := res.value];
          i := i + 1;
        } else {
          result := result[songUris[i] := map[]];
          listEndedWithErr := true;
          i := i + 1;
          break;
        }
      }
    }
    assert songUris[..i] == songUris && answers[..i] == answers;
    if !listEndedWithErr {
      var ok := ReadEnd(client);
      match ok
      case Success(_) =>
      case Failure(e) => return Failure(e);
    }
    return Success(result);
  }

  lemma MeaningOfGrows(uris: seq<string>, answers: seq<Answer>, i: nat)
    requires |answers| == |uris| && i < |uris|
    ensures MeaningOf(uris[..i + 1], answers[..i + 1]) == MeaningOf(uris[..i], answers[..i])[uris[i] := Meaning(answers[i])]
  {
    assert uris[..i + 1][..i] == uris[..i];
    assert answers[..i + 1][..i] == answers[..i];
  }
}
