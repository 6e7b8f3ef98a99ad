/**
 Downloading album art in pieces: the first reply is to a command with offset 0, and
 every further command asks from where the buffer ends. A byte is a character here.
 */
module Binary {
  import opened Wrappers
  import opened Text
  import opened Errors
  import opened Proto
  import Quoting

  datatype BinaryResponse = BinaryResponse(bytesRead: nat, sizeTotal: nat, mimeType: Option<string>)

  // ---- one reply

  /** The lines before the payload, and the stream behind them. None: an OK instead of data. */
  function Header(s: string, acc: BinaryResponse): (r: (Result<Option<BinaryResponse>, MpdError>, string))
    decreases |s|
  {
    var line := ReadLine(s).0;
    var rest := ReadLine(s).1;
    if s == "" || line.Failure? then (Failure(if s == "" then ValueExpected else line.error), rest)
    else if line.value.Ok? then (Success(None), rest)
    else
      var pair := SplitLine(line.value.text);
      if pair.Failure? then (Failure(pair.error), rest)
      else
        var (key, value) := pair.value;
        if Lower(key) == "size" then
          var n := ParseUnsigned(value, U32_MAX);
          if n.Some? then Header(rest, acc.(sizeTotal := n.value)) else (Failure(Parse), rest)
        else if Lower(key) == "type" then Header(rest, acc.(mimeType := Some(value)))
        else if Lower(key) == "binary" then
          var n := ParseUnsigned(value, U64_MAX);
          if n.Some? then (Success(Some(acc.(bytesRead := n.value))), rest) else (Failure(Parse), rest)
        else (Failure(Generic), rest)
  }

  const NO_RESPONSE := BinaryResponse(0, 0, None)

  function Take(s: string, n: nat): string {
    if n <= |s| then s[..n] else s
  }

  function Drop(s: string, n: nat): string {
    if n <= |s| then s[n..] else ""
  }

  /** One binary reply: what the client makes of it, the payload, and the stream behind it. */
  function BinReply(s: string): (Result<Option<BinaryResponse>, MpdError>, string, string) {
    var header := Header(s, NO_RESPONSE);
    if header.0.Success? && header.0.value.Some? then
      var n := header.0.value.value.bytesRead;
      var behind := Drop(header.1, n);
      var last := ReadLine(behind[LineLength(behind)..]);
      (if last.0.Failure? then Failure(last.0.error) else if last.0.value.Ok? then header.0 else Failure(Generic),
       Take(header.1, n), last.1)
    else (header.0, "", header.1)
  }

  /** `read_bin_inner`: appends the payload to `buf`. */
  method ReadBinInner(client: Client, buf: string) returns (r: Result<Option<BinaryResponse>, MpdError>, newBuf: string)
    modifies client
    ensures var reply := BinReply(old(client.incoming));
      r == reply.0 && newBuf == buf + reply.1 && client.incoming == reply.2
  {
    assert buf + "" == buf;
    newBuf := buf;
    var result := NO_RESPONSE;
    while true
      invariant newBuf == buf
      invariant Header(client.incoming, result) == Header(old(client.incoming), NO_RESPONSE)
      decreases |client.incoming|
    {
      var line := ReadLine(client.incoming).0;
      client.incoming := ReadLine(client.incoming).1;
      if line.Failure? { return Failure(line.error), newBuf; }
      if line.value.Ok? { return Success(None), newBuf; }
      var pair := SplitLine(line.value.text);
      if pair.Failure? { return Failure(pair.error), newBuf; }
      var (key, value) := pair.value;
      if Lower(key) == "size" {
        var n := ParseUnsigned(value, U32_MAX);
        if n.None? { return Failure(Parse), newBuf; }
        result := result.(sizeTotal := n.value);
      } else if Lower(key) == "type" {
        result := result.(mimeType := Some(value));
      } else if Lower(key) == "binary" {
        var n := ParseUnsigned(value, U64_MAX);
        if n.None? { return Failure(Parse), newBuf; }
        result := result.(bytesRead := n.value);
        break;
      } else {
        return Failure(Generic), newBuf;
      }
    }
    newBuf := newBuf + Take(client.incoming, result.bytesRead);
    client.incoming := Drop(client.incoming, result.bytesRead);
    client.incoming := client.incoming[LineLength(client.incoming)..];
    var last := ReadLine(client.incoming).0;
    client.incoming := ReadLine(client.incoming).1;
    if last.Failure? { return Failure(last.error), newBuf; }
    if last.value.Value? { return Failure(Generic), newBuf; }
    return Success(Some(result)), newBuf;
  }

  // ---- the server

  /** What is behind one album art command: `refusals` commands are refused before it answers;
      without a picture it answers OK. `prefix` is the command up to its offset. */
  datatype World = World(prefix: string, picture: Option<string>, mime: Option<string>, limit: nat, refusals: nat,
                         refusalCode: ErrorCode) {
    predicate Valid() {
      && limit > 0
      && (picture.Some? ==> |picture.value| <= U32_MAX)
      && (mime.Some? ==> '\n' !in mime.value)
    }
  }

  function Min(a: nat, b: nat): nat {
    if a <= b then a else b
  }

  function TypeLine(mime: Option<string>): string {
    if mime.Some? then PairLine("type", mime.value) else ""
  }

  /** The pair lines, the bytes, a line break, OK. */
  function ChunkReply(data: string, mime: Option<string>, chunk: string): string {
    PairLine("size", Digits(|data|)) + (TypeLine(mime) + (PairLine("binary", Digits(|chunk|)) + (chunk + "\nOK\n")))
  }

  function Chunk(data: string, offset: nat, limit: nat): string
    requires offset <= |data|
  {
    data[offset..Min(offset + limit, |data|)]
  }

  const REFUSAL_TEXT := "No file exists"

  /** The reply to the command numbered `nth`. */
  function Answer(w: World, nth: nat, command: string): string {
    if nth < w.refusals then AckLine(w.refusalCode, 0, "albumart", REFUSAL_TEXT)
    else if w.picture.None? then "OK\n"
    else
      var offset := if w.prefix + " " <= command then ParseUnsigned(command[|w.prefix| + 1..], U32_MAX) else None;
      if offset.Some? && offset.value <= |w.picture.value| then
        ChunkReply(w.picture.value, w.mime, Chunk(w.picture.value, offset.value, w.limit))
      else AckLine(Argument, 0, "albumart", "Bad file offset")
  }

  // ---- reading what the server wrote

  lemma HeaderPair(key: string, value: string, rest: string)
    requires OneLine(key, value) && Plain(key)
    ensures ReadLine(PairLine(key, value) + rest) == (Success(Value(key + ": " + value)), rest)
    ensures SplitLine(key + ": " + value) == Success((key, value))
  {
    ReadPairExactly(key, value, rest);
    SplitPrinted(key, value);
  }

  lemma ReadSize(n: nat, rest: string, acc: BinaryResponse)
    requires n <= U32_MAX
    ensures Header(PairLine("size", Digits(n)) + rest, acc) == Header(rest, acc.(sizeTotal := n))
  {
    ParseDigits(n, U32_MAX);
    ReadSizeText(Digits(n), n, rest, acc);
  }

  lemma ReadSizeText(text: string, n: nat, rest: string, acc: BinaryResponse)
    requires '\n' !in text && ParseUnsigned(text, U32_MAX) == Some(n)
    ensures Header(PairLine("size", text) + rest, acc) == Header(rest, acc.(sizeTotal := n))
  {
    assert "size"[0] == 's' && Lower("size") == "size";
    HeaderPair("size", text, rest);
  }

  lemma ReadMime(mime: string, rest: string, acc: BinaryResponse)
    requires '\n' !in mime
    ensures Header(PairLine("type", mime) + rest, acc) == Header(rest, acc.(mimeType := Some(mime)))
  {
    assert "type"[0] == 't' && Lower("type") == "type" && "type" != "size";
    HeaderPair("type", mime, rest);
  }

  lemma ReadType(mime: Option<string>, rest: string, acc: BinaryResponse)
    requires mime.Some? ==> '\n' !in mime.value
    requires acc.mimeType == None
    ensures Header(TypeLine(mime) + rest, acc) == Header(rest, acc.(mimeType := mime))
  {
    if mime.Some? {
      ReadMime(mime.value, rest, acc);
    } else {
      assert TypeLine(mime) + rest == rest;
    }
  }

  lemma ReadBinary(n: nat, rest: string, acc: BinaryResponse)
    requires n <= U64_MAX
    ensures Header(PairLine("binary", Digits(n)) + rest, acc) == (Success(Some(acc.(bytesRead := n))), rest)
  {
    ParseDigits(n, U64_MAX);
    ReadBinaryText(Digits(n), n, rest, acc);
  }

  lemma ReadBinaryText(text: string, n: nat, rest: string, acc: BinaryResponse)
    requires '\n' !in text && ParseUnsigned(text, U64_MAX) == Some(n)
    ensures Header(PairLine("binary", text) + rest, acc) == (Success(Some(acc.(bytesRead := n))), rest)
  {
    assert "binary"[0] == 'b' && Lower("binary") == "binary" && |"binary"| != |"size"| && |"binary"| != |"type"|;
    HeaderPair("binary", text, rest);
  }

  /** The payload is delimited by its length alone: any bytes, line breaks and OK included. */
  lemma ReadChunkReply(data: string, mime: Option<string>, chunk: string)
    requires |data| <= U32_MAX && |chunk| <= |data| && (mime.Some? ==> '\n' !in mime.value)
    ensures Header(ChunkReply(data, mime, chunk), NO_RESPONSE)
         == (Success(Some(BinaryResponse(|chunk|, |data|, mime))), chunk + "\nOK\n")
  {
    var payload := chunk + "\nOK\n";
    ReadSize(|data|, TypeLine(mime) + (PairLine("binary", Digits(|chunk|)) + payload), NO_RESPONSE);
    var acc := NO_RESPONSE.(sizeTotal := |data|);
    ReadType(mime, PairLine("binary", Digits(|chunk|)) + payload, acc);
    ReadBinary(|chunk|, payload, acc.(mimeType := mime));
  }

  lemma ReadPayload(chunk: string)
    ensures Take(chunk + "\nOK\n", |chunk|) == chunk
    ensures var behind := Drop(chunk + "\nOK\n", |chunk|);
      ReadLine(behind[LineLength(behind)..]) == (Success(Ok), "")
  {
    var s := chunk + "\nOK\n";
    assert s[..|chunk|] == chunk;
    assert s[|chunk|..] == "\nOK\n";
    FindAfter("", "\n", "OK\n");
    assert "" + "\n" + "OK\n" == "\nOK\n";
    assert "\nOK\n"[1..] == "OK\n";
    ReadOneLine("OK", "");
    assert "OK" + "\n" + "" == "OK\n";
  }

  lemma AnswerToOffset(w: World, nth: nat, offset: nat)
    requires w.Valid() && w.picture.Some? && nth >= w.refusals && offset <= |w.picture.value|
    ensures Answer(w, nth, w.prefix + " " + Digits(offset))
         == ChunkReply(w.picture.value, w.mime, Chunk(w.picture.value, offset, w.limit))
  {
    var command := w.prefix + " " + Digits(offset);
    assert command[..|w.prefix| + 1] == w.prefix + " ";
    assert command[|w.prefix| + 1..] == Digits(offset);
    ParseDigits(offset, U32_MAX);
  }

  lemma RefusalRead(code: ErrorCode)
    ensures var reply := BinReply(AckLine(code, 0, "albumart", REFUSAL_TEXT));
      reply.0.Failure? && reply.1 == "" && reply.2 == ""
  {
    ReadAck(code, 0, "albumart", REFUSAL_TEXT, "");
    var ack := AckLine(code, 0, "albumart", REFUSAL_TEXT);
    assert ack + "" == ack;
  }

  lemma NothingRead()
    ensures BinReply("OK\n") == (Success(None), "", "")
  {
    ReadOneLine("OK", "");
    assert "OK" + "\n" + "" == "OK\n";
  }

  lemma PieceRead(data: string, mime: Option<string>, chunk: string)
    requires |data| <= U32_MAX && |chunk| <= |data| && (mime.Some? ==> '\n' !in mime.value)
    ensures BinReply(ChunkReply(data, mime, chunk))
         == (Success(Some(BinaryResponse(|chunk|, |data|, mime))), chunk, "")
  {
    ReadChunkReply(data, mime, chunk);
    ReadPayload(chunk);
  }

  /** What the client makes of the reply to a command with an offset. */
  lemma AnswerRead(w: World, nth: nat, offset: nat)
    requires w.Valid() && (w.picture.Some? ==> offset <= |w.picture.value|)
    ensures var reply := BinReply(Answer(w, nth, w.prefix + " " + Digits(offset)));
      && reply.2 == ""
      && (nth < w.refusals ==> reply.0.Failure? && reply.1 == "")
      && (nth >= w.refusals && w.picture.None? ==> reply.0 == Success(None) && reply.1 == "")
      && (nth >= w.refusals && w.picture.Some? ==>
            var chunk := Chunk(w.picture.value, offset, w.limit);
            reply.0 == Success(Some(BinaryResponse(|chunk|, |w.picture.value|, w.mime))) && reply.1 == chunk)
  {
    if nth < w.refusals {
      RefusalRead(w.refusalCode);
    } else if w.picture.None? {
      NothingRead();
    } else {
      AnswerToOffset(w, nth, offset);
      PieceRead(w.picture.value, w.mime, Chunk(w.picture.value, offset, w.limit));
    }
  }

  // ---- the command

  function TrimEndMatches(s: string, pat: string): string
    requires pat != ""
  {
    if |pat| <= |s| && s[|s| - |pat|..] == pat then TrimEndMatches(s[..|s| - |pat|], pat) else s
  }

  /** The command of `send_albumart` and `send_read_picture` without its offset. */
  function Prefix(verb: string, path: string): string {
    verb + " " + Quoting.Quote(path)
  }

  predicate EndsWith(s: string, pat: string) {
    |pat| <= |s| && s[|s| - |pat|..] == pat
  }

  /** Trimming takes the offset alone if and only if what is in front of it does not end alike. */
  lemma TrimTakesOffsetExactly(command: string)
    ensures TrimEndMatches(command + " 0", " 0") == command <==> !EndsWith(command, " 0")
  {
    var s := command + " 0";
    assert s[|command|..] == " 0" && s[..|command|] == command;
    TrimNotLonger(command);
  }

  lemma {:induction false} TrimNotLonger(s: string)
    ensures |TrimEndMatches(s, " 0")| <= |s|
    ensures EndsWith(s, " 0") ==> |TrimEndMatches(s, " 0")| < |s|
  {
    if EndsWith(s, " 0") { TrimNotLonger(s[..|s| - 2]); }
  }

  /** So nothing of the path is lost, whatever it ends in: behind it stands the closing quote. */
  lemma TrimTakesOffset(verb: string, path: string)
    ensures TrimEndMatches(Prefix(verb, path) + " 0", " 0") == Prefix(verb, path)
  {
    var p := Prefix(verb, path);
    assert p[|p| - 1] == '"' != " 0"[1];
    if |p| >= 2 { assert p[|p| - 2..][1] == p[|p| - 1]; }
    TrimTakesOffsetExactly(p);
  }

  /** Without the quotes it would lose the end of exactly the paths that are 0 or end in " 0". */
  lemma TrimUnquotedExactly(verb: string, path: string)
    ensures TrimEndMatches(verb + " " + path + " 0", " 0") == verb + " " + path
       <==> path != "0" && !EndsWith(path, " 0")
  {
    var p := verb + " " + path;
    TrimTakesOffsetExactly(p);
    if |path| >= 2 {
      assert p[|p| - 2..] == path[|path| - 2..];
    } else if |path| == 1 {
      assert p[|p| - 2..] == " " + path;
      assert path == [path[0]] && (" " + path)[1] == path[0];
    } else {
      assert p == verb + " " && p[|p| - 1] == ' ' != " 0"[1];
      if |p| >= 2 { assert p[|p| - 2..][1] == ' '; }
    }
  }

  // ---- the client

  class ArtClient {
    const client: Client
    const world: World
    var sent: seq<string>

    constructor (world: World)
      ensures this.world == world && sent == [] && client.incoming == "" && fresh(client)
    {
      this.client := new Client();
      this.world := world;
      this.sent := [];
    }

    method Execute(command: string)
      modifies this, client
      ensures sent == old(sent) + [command]
      ensures client.incoming == old(client.incoming) + Answer(world, |old(sent)|, command)
    {
      client.Receive(Answer(world, |sent|, command));
      sent := sent + [command];
    }

    /** `albumart` and `read_picture`: send the first command, then download. */
    method Download(verb: string, path: string) returns (r: Result<Option<string>, MpdError>)
      requires world.Valid() && world.prefix == Prefix(verb, path)
      requires sent == [] && client.incoming == ""
      modifies this, client
      ensures client.incoming == ""
      ensures world.refusals > 1 ==> r.Failure?
      ensures world.refusals <= 1 ==> r == Success(world.picture)
    {
      var command := Prefix(verb, path) + " 0";
      TrimTakesOffset(verb, path);
      assert Digits(0) == "0" && world.prefix + " 0" == world.prefix + " " + "0";
      Execute(command);
      r := ReadBin(command);
    }

    /** One reply, asked for from the end of the buffer. */
    method ReadOne(buf: string, ghost nth: nat) returns (r: Result<Option<BinaryResponse>, MpdError>, newBuf: string)
      requires world.Valid()
      requires world.picture.Some? ==> |buf| <= |world.picture.value|
      requires client.incoming == Answer(world, nth, world.prefix + " " + Digits(|buf|))
      modifies client
      ensures client.incoming == ""
      ensures nth < world.refusals ==> r.Failure? && newBuf == buf
      ensures nth >= world.refusals && world.picture.None? ==> r == Success(None) && newBuf == buf
      ensures nth >= world.refusals && world.picture.Some? ==>
        var chunk := Chunk(world.picture.value, |buf|, world.limit);
        r == Success(Some(BinaryResponse(|chunk|, |world.picture.value|, world.mime))) && newBuf == buf + chunk
    {
      AnswerRead(world, nth, |buf|);
      r, newBuf := ReadBinInner(client, buf);
      assert buf + "" == buf;
    }

    /** The next command, its offset put in place of the trailing one, and its reply. */
    method NextPiece(command: string, buf: string) returns (r: Result<Option<BinaryResponse>, MpdError>, newBuf: string)
      requires world.Valid() && TrimEndMatches(command, " 0") == world.prefix
      requires world.picture.Some? ==> |buf| <= |world.picture.value|
      requires client.incoming == ""
      modifies this, client
      ensures client.incoming == ""
      ensures |sent| == |old(sent)| + 1 && sent[..|old(sent)|] == old(sent)
      ensures sent[|old(sent)|] == world.prefix + " " + Digits(|buf|) && AsksOffset(world.prefix, sent[|old(sent)|])
      ensures |old(sent)| < world.refusals ==> r.Failure? && newBuf == buf
      ensures |old(sent)| >= world.refusals && world.picture.None? ==> r == Success(None) && newBuf == buf
      ensures |old(sent)| >= world.refusals && world.picture.Some? ==>
        var chunk := Chunk(world.picture.value, |buf|, world.limit);
        r == Success(Some(BinaryResponse(|chunk|, |world.picture.value|, world.mime))) && newBuf == buf + chunk
    {
      var trimmed := TrimEndMatches(command, " 0");
      Execute(trimmed + " " + Digits(|buf|));
      r, newBuf := ReadOne(buf, |sent| - 1);
    }

    /** The whole picture comes back, whatever its bytes, in as few requests as its size needs
        but never fewer than two; a first refusal is forgiven, a second ends the download. */
    method ReadBin(command: string) returns (r: Result<Option<string>, MpdError>)
      requires world.Valid()
      requires TrimEndMatches(command, " 0") == world.prefix
      requires sent == [command] && client.incoming == Answer(world, 0, world.prefix + " " + Digits(0))
      modifies this, client
      ensures client.incoming == ""
      ensures world.refusals > 1 ==> r.Failure?
      ensures world.refusals <= 1 && world.picture.None? ==> r == Success(None)
      ensures world.refusals <= 1 && world.picture.Some? ==>
        && r == Success(world.picture)
        && Requests(|world.picture.value|, world.limit, |sent| - world.refusals, 2 - world.refusals)
      ensures forall i | 1 <= i < |sent| :: AsksOffset(world.prefix, sent[i])
    {
      var first, buf := ReadOne("", 0);
      match first {
        case Success(None) => return Success(None);
        case Failure(e) => if ShouldReinit(e) { client.ClearReadBuf(); }
        case _ =>
      }
      ghost var pieces := if first.Success? then 1 else 0;
      FirstReply(world, pieces, buf);
      r := ReadRest(command, buf, pieces);
    }

    /** The loop of `read_bin`. */
    method ReadRest(command: string, first: string, ghost firstPieces: nat) returns (r: Result<Option<string>, MpdError>)
      requires world.Valid() && TrimEndMatches(command, " 0") == world.prefix
      requires client.incoming == "" && |sent| == 1 && Downloading(world, 1, firstPieces, first, true)
      modifies this, client
      ensures client.incoming == ""
      ensures world.refusals > 1 ==> r.Failure?
      ensures world.refusals <= 1 && world.picture.None? ==> r == Success(None)
      ensures world.refusals <= 1 && world.picture.Some? ==>
        && r == Success(world.picture)
        && Requests(|world.picture.value|, world.limit, |sent| - world.refusals, 2 - world.refusals)
      ensures forall i | 1 <= i < |sent| :: AsksOffset(world.prefix, sent[i])
    {
      var buf, go := first, true;
      ghost var pieces := firstPieces;
      while go
        invariant client.incoming == "" && Downloading(world, |sent|, pieces, buf, go)
        invariant forall i | 1 <= i < |sent| :: AsksOffset(world.prefix, sent[i])
        decreases go, |Data(world)| - |buf|, if |sent| == 1 then 1 else 0
      {
        ghost var before := buf;
        var response;
        response, buf := NextPiece(command, buf);
        match response
        case Failure(e) =>
          if ShouldReinit(e) { client.ClearReadBuf(); }
          return Failure(e);
        case Success(None) => return Success(None);
        case Success(Some(piece)) =>
          PieceKeeps(world, |sent| - 1, pieces, before);
          pieces := pieces + 1;
          if |buf| >= piece.sizeTotal || piece.bytesRead == 0 {
            go := false;
          }
      }
      return Success(Some(buf));
    }
  }

  function Data(w: World): string {
    if w.picture.Some? then w.picture.value else ""
  }

  /** The state of the loop after `asked` requests, `pieces` of them answered with data. */
  predicate Downloading(w: World, asked: nat, pieces: nat, buf: string, go: bool) {
    && asked >= 1
    && (w.picture.None? || w.refusals > 1 ==> w.refusals > 0 && asked == 1 && buf == "" && go)
    && (w.refusals <= 1 ==> pieces == asked - w.refusals)
    && (w.refusals <= 1 && w.picture.Some? ==> Fetched(Data(w), w.limit, pieces, buf))
    && (go ==> asked == 1 || |buf| < |Data(w)|)
    && (!go ==> buf == Data(w) && Requests(|Data(w)|, w.limit, pieces, 2 - w.refusals))
  }

  /** The first reply, or its refusal. */
  lemma FirstReply(w: World, pieces: nat, buf: string)
    requires w.Valid() && pieces == if w.refusals > 0 then 0 else 1
    requires w.refusals == 0 ==> w.picture.Some? && buf == Chunk(Data(w), 0, w.limit)
    requires w.refusals > 0 ==> buf == ""
    ensures Downloading(w, 1, pieces, buf, true)
  {
    if w.refusals > 0 { NoPiece(Data(w), w.limit); } else { FirstPiece(Data(w), w.limit); }
  }

  /** One more piece. */
  lemma PieceKeeps(w: World, asked: nat, pieces: nat, buf: string)
    requires w.Valid() && w.picture.Some? && w.refusals <= asked && Downloading(w, asked, pieces, buf, true)
    ensures |buf| <= |Data(w)|
    ensures var chunk := Chunk(Data(w), |buf|, w.limit);
      var done := |buf + chunk| >= |Data(w)| || |chunk| == 0;
      && Downloading(w, asked + 1, pieces + 1, buf + chunk, !done)
      && (!done ==> |chunk| > 0)
  {
    FetchedMore(Data(w), w.limit, pieces, buf, asked, 2 - w.refusals);
  }

  /** The command line of one request. */
  ghost predicate AsksOffset(prefix: string, command: string) {
    exists o: nat :: command == prefix + " " + Digits(o)
  }

  /** `buf` is what `m` pieces of at most `limit` bytes make of the data. */
  predicate Fetched(data: string, limit: nat, m: nat, buf: string) {
    |buf| == Min(m * limit, |data|) && buf == data[..|buf|]
  }

  /** `m` requests of at most `limit` bytes fetch `size` bytes, at least `least` and no more
      than needed beyond that. */
  predicate Requests(size: nat, limit: nat, m: int, least: int) {
    m >= least && size <= m * limit && (m > least ==> (m - 1) * limit < size)
  }

  lemma NoPiece(data: string, limit: nat)
    ensures Fetched(data, limit, 0, "")
  {
  }

  lemma FirstPiece(data: string, limit: nat)
    ensures Fetched(data, limit, 1, Chunk(data, 0, limit))
  {
  }

  /** One more piece; the loop's condition to stop is having everything. */
  lemma FetchedMore(data: string, limit: nat, m: nat, buf: string, sent: nat, least: int)
    requires limit > 0 && Fetched(data, limit, m, buf)
    requires sent > 1 ==> |buf| < |data|
    requires if sent > 1 then m >= least else m + 1 == least
    ensures var chunk := Chunk(data, |buf|, limit);
      && Fetched(data, limit, m + 1, buf + chunk)
      && ((|buf + chunk| >= |data| || |chunk| == 0) <==> buf + chunk == data)
      && (buf + chunk == data ==> Requests(|data|, limit, m + 1, least))
      && (buf + chunk != data ==> |chunk| == limit)
  {
    assert (m + 1) * limit == m * limit + limit;
  }
}
