/**
 Song records: MPD prints a `file` line, then the song's other pairs in any order; a tag
 may come several times.
 */
module Songs {
  import opened Wrappers
  import opened Text
  import opened Errors
  import opened Proto

  datatype MetadataTag = Single(value: string) | Multiple(items: seq<string>)

  datatype Song = Song(
    id: nat,
    file: string,
    duration: Option<nat>,
    metadata: map<string, MetadataTag>,
    lastModified: int,
    added: Option<int>)

  const DEFAULT_SONG := Song(0, "", None, map[], 0, None)

  /** How durations and dates are read; their syntax is not part of the model. */
  datatype Codec = Codec(duration: string -> Option<nat>, date: string -> Option<int>)

  /** `entry().and_modify().or_insert()`. */
  function AddTag(metadata: map<string, MetadataTag>, key: string, value: string): map<string, MetadataTag> {
    if key !in metadata then metadata[key := Single(value)]
    else
      match metadata[key]
      case Single(current) => metadata[key := Multiple([current, value])]
      case Multiple(items) => metadata[key := Multiple(items + [value])]
  }

  /** `Song::next_internal`. */
  function NextInSong(codec: Codec, song: Song, key: string, value: string): Result<Song, MpdError> {
    if key == "file" then Success(song.(file := value))
    else if key == "id" then
      var n := ParseUnsigned(value, U32_MAX);
      if n.Some? then Success(song.(id := n.value)) else Failure(Parse)
    else if key == "duration" then
      var d := codec.duration(value);
      if d.Some? then Success(song.(duration := d)) else Failure(Parse)
    else if key == "time" then Success(song)
    else if key == "last-modified" then
      var t := codec.date(value);
      if t.Some? then Success(song.(lastModified := t.value)) else Failure(Generic)
    else if key == "added" then
      var t := codec.date(value);
      if t.Some? then Success(song.(added := t)) else Failure(Generic)
    else Success(song.(metadata := AddTag(song.metadata, key, value)))
  }

  /** `Vec<Song>::next_internal`. */
  function NextInList(codec: Codec, songs: seq<Song>, key: string, value: string): Result<seq<Song>, MpdError> {
    var pushed := if key == "file" then songs + [DEFAULT_SONG] else songs;
    if pushed == [] then Failure(Generic)
    else
      var r := NextInSong(codec, pushed[|pushed| - 1], key, value);
      if r.Failure? then Failure(r.error) else Success(pushed[|pushed| - 1 := r.value])
  }

  /** The accumulator of a song list, updated in place: push on `file`, then change the last. */
  class SongList {
    var songs: seq<Song>

    constructor ()
      ensures songs == []
    {
      songs := [];
    }

    method NextInternal(codec: Codec, key: string, value: string) returns (r: Result<(), MpdError>)
      modifies this
      ensures var next := NextInList(codec, old(songs), key, value);
        if next.Success? then r == Success(()) && songs == next.value else r == Failure(next.error)
      ensures r.Success? && key == "file" ==> songs == old(songs) + [DEFAULT_SONG.(file := value)]
      ensures r.Success? && key != "file" ==>
        old(songs) != [] && |songs| == |old(songs)| && songs[..|songs| - 1] == old(songs)[..|songs| - 1]
    {
      if key == "file" {
        songs := songs + [DEFAULT_SONG];
      }
      if songs == [] {
        return Failure(Generic);
      }
      var last := |songs| - 1;
      match key {
        case "file" => songs := songs[last := songs[last].(file := value)];
        case "id" =>
          var n := ParseUnsigned(value, U32_MAX);
          if n.None? { return Failure(Parse); }
          songs := songs[last := songs[last].(id := n.value)];
        case "duration" =>
          var d := codec.duration(value);
          if d.None? { return Failure(Parse); }
          songs := songs[last := songs[last].(duration := d)];
        case "time" => songs := songs[last := songs[last]];
        case "last-modified" =>
          var t := codec.date(value);
          if t.None? { return Failure(Generic); }
          songs := songs[last := songs[last].(lastModified := t.value)];
        case "added" =>
          var t := codec.date(value);
          if t.None? { return Failure(Generic); }
          songs := songs[last := songs[last].(added := t)];
        case _ =>
          var m := songs[last].metadata;
          if key in m {
            match m[key] {
              case Single(current) => m := m[key := Multiple([current, value])];
              case Multiple(items) => m := m[key := Multiple(items + [value])];
            }
          } else {
            m := m[key := Single(value)];
          }
          songs := songs[last := songs[last].(metadata := m)];
      }
      return Success(());
    }
  }

  // ---- what MPD prints

  datatype Record = Record(file: string, pairs: seq<(string, string)>)

  predicate Reserved(key: string) {
    key == "id" || key == "duration" || key == "time" || key == "last-modified" || key == "added"
  }

  /** A pair of the song itself, printed on one line, its value readable. */
  predicate GoodPair(codec: Codec, p: (string, string)) {
    var key := Lower(p.0);
    && OneLine(p.0, p.1) && Plain(p.0) && key != "file"
    && (key == "id" ==> ParseUnsigned(p.1, U32_MAX).Some?)
    && (key == "duration" ==> codec.duration(p.1).Some?)
    && (key == "last-modified" || key == "added" ==> codec.date(p.1).Some?)
  }

  predicate GoodRecord(codec: Codec, r: Record) {
    '\n' !in r.file && forall p | p in r.pairs :: GoodPair(codec, p)
  }

  function PairLines(pairs: seq<(string, string)>): string {
    if pairs == [] then "" else PairLine(pairs[0].0, pairs[0].1) + PairLines(pairs[1..])
  }

  function Printed(records: seq<Record>): string {
    if records == [] then ""
    else PairLine("file", records[0].file) + (PairLines(records[0].pairs) + Printed(records[1..]))
  }

  /** The song a record stands for. */
  function WithPairs(codec: Codec, song: Song, pairs: seq<(string, string)>): Song
    requires forall p | p in pairs :: GoodPair(codec, p)
    decreases pairs
  {
    if pairs == [] then song
    else
      assert GoodPair(codec, pairs[0]);
      WithPairs(codec, NextInSong(codec, song, Lower(pairs[0].0), pairs[0].1).value, pairs[1..])
  }

  function SongOf(codec: Codec, r: Record): Song
    requires GoodRecord(codec, r)
  {
    WithPairs(codec, DEFAULT_SONG.(file := r.file), r.pairs)
  }

  function SongsOf(codec: Codec, records: seq<Record>): seq<Song>
    requires forall r | r in records :: GoodRecord(codec, r)
  {
    if records == [] then [] else [SongOf(codec, records[0])] + SongsOf(codec, records[1..])
  }

  // ---- the tags of a song

  /** The values given for one tag, in the order of the lines. */
  function ValuesOf(pairs: seq<(string, string)>, tag: string): seq<string> {
    if pairs == [] then []
    else (if Lower(pairs[0].0) == tag then [pairs[0].1] else []) + ValuesOf(pairs[1..], tag)
  }

  /** What the metadata must hold for a tag with these values: nothing, the one, or all of them. */
  predicate Holds(metadata: map<string, MetadataTag>, tag: string, values: seq<string>) {
    if values == [] then tag !in metadata
    else tag in metadata
         && metadata[tag] == if |values| == 1 then Single(values[0]) else Multiple(values)
  }

  lemma {:induction false} PairsAddUp(codec: Codec, song: Song, pairs: seq<(string, string)>, tag: string, before: seq<string>)
    requires forall p | p in pairs :: GoodPair(codec, p)
    requires !Reserved(tag) && tag != "file" && Holds(song.metadata, tag, before)
    ensures Holds(WithPairs(codec, song, pairs).metadata, tag, before + ValuesOf(pairs, tag))
    ensures WithPairs(codec, song, pairs).file == song.file
    decreases pairs
  {
    if pairs == [] {
      assert before + [] == before;
    } else {
      var (k, v) := pairs[0];
      assert GoodPair(codec, pairs[0]);
      OnePairAddsUp(codec, song, Lower(k), v, tag, before);
      PairsAddUp(codec, NextInSong(codec, song, Lower(k), v).value, pairs[1..], tag, WithFirst(pairs, tag, before));
      ValuesGrow(pairs, tag, before);
    }
  }

  /** The values so far, the first pair counted. */
  function WithFirst(pairs: seq<(string, string)>, tag: string, before: seq<string>): seq<string>
    requires pairs != []
  {
    if Lower(pairs[0].0) == tag then before + [pairs[0].1] else before
  }

  lemma ValuesGrow(pairs: seq<(string, string)>, tag: string, before: seq<string>)
    requires pairs != []
    ensures WithFirst(pairs, tag, before) + ValuesOf(pairs[1..], tag) == before + ValuesOf(pairs, tag)
  {
    var values := ValuesOf(pairs[1..], tag);
    if Lower(pairs[0].0) == tag {
      Together(before, pairs[0].1, values);
    } else {
      assert [] + values == values;
    }
  }

  lemma Together(before: seq<string>, value: string, after: seq<string>)
    ensures before + [value] + after == before + ([value] + after)
  {
  }

  lemma OnePairAddsUp(codec: Codec, song: Song, key: string, value: string, tag: string, before: seq<string>)
    requires key != "file" && NextInSong(codec, song, key, value).Success?
    requires !Reserved(tag) && tag != "file" && Holds(song.metadata, tag, before)
    ensures var song' := NextInSong(codec, song, key, value).value;
      && Holds(song'.metadata, tag, if key == tag then before + [value] else before)
      && song'.file == song.file
  {
    if key == tag {
      assert before + [value] == if |before| == 1 then [before[0], value] else before + [value];
    }
  }

  /** A parsed song holds, for every tag, exactly the values printed for it, in order; several
      of them as a Multiple, which is therefore never empty. */
  lemma TagsInOrder(codec: Codec, r: Record, tag: string)
    requires GoodRecord(codec, r) && !Reserved(tag) && tag != "file"
    ensures Holds(SongOf(codec, r).metadata, tag, ValuesOf(r.pairs, tag))
    ensures SongOf(codec, r).file == r.file
  {
    PairsAddUp(codec, DEFAULT_SONG.(file := r.file), r.pairs, tag, []);
    assert [] + ValuesOf(r.pairs, tag) == ValuesOf(r.pairs, tag);
  }

  // ---- the other fields of a song

  /** The last value given for a key. */
  function Latest(pairs: seq<(string, string)>, key: string): Option<string> {
    var values := ValuesOf(pairs, key);
    if values == [] then None else Some(values[|values| - 1])
  }

  /** Each field is what its last line says, or as it was if there is none. */
  predicate FieldsRead(codec: Codec, before: Song, after: Song, pairs: seq<(string, string)>) {
    && (match Latest(pairs, "id")
        case None => after.id == before.id
        case Some(value) => ParseUnsigned(value, U32_MAX) == Some(after.id))
    && (match Latest(pairs, "duration")
        case None => after.duration == before.duration
        case Some(value) => codec.duration(value) == after.duration)
    && (match Latest(pairs, "last-modified")
        case None => after.lastModified == before.lastModified
        case Some(value) => codec.date(value) == Some(after.lastModified))
    && (match Latest(pairs, "added")
        case None => after.added == before.added
        case Some(value) => codec.date(value) == after.added)
  }

  /** The keys of fields never become tags. */
  predicate OnlyTags(metadata: map<string, MetadataTag>) {
    forall key | key in metadata :: !Reserved(key) && key != "file"
  }

  lemma {:induction false} FieldsAlong(codec: Codec, song: Song, pairs: seq<(string, string)>)
    requires forall p | p in pairs :: GoodPair(codec, p)
    requires OnlyTags(song.metadata)
    ensures FieldsRead(codec, song, WithPairs(codec, song, pairs), pairs)
    ensures OnlyTags(WithPairs(codec, song, pairs).metadata)
    decreases pairs
  {
    if pairs != [] {
      var p, later := pairs[0], pairs[1..];
      assert pairs == [p] + later && GoodPair(codec, p);
      var next := NextInSong(codec, song, Lower(p.0), p.1).value;
      var after := WithPairs(codec, next, later);
      FieldsStep(codec, song, p, after, later);
      FieldsAlong(codec, next, later);
    }
  }

  /** One line sets its own field and no other. */
  lemma FieldsStep(codec: Codec, song: Song, p: (string, string), after: Song, later: seq<(string, string)>)
    requires GoodPair(codec, p) && OnlyTags(song.metadata)
    ensures var next := NextInSong(codec, song, Lower(p.0), p.1).value;
      && OnlyTags(next.metadata)
      && (FieldsRead(codec, next, after, later) ==> FieldsRead(codec, song, after, [p] + later))
  {
    LatestStep(p, later, "id");
    LatestStep(p, later, "duration");
    LatestStep(p, later, "last-modified");
    LatestStep(p, later, "added");
  }

  lemma LatestStep(p: (string, string), later: seq<(string, string)>, key: string)
    ensures Latest([p] + later, key)
         == if Latest(later, key).Some? then Latest(later, key) else if Lower(p.0) == key then Some(p.1) else None
  {
    assert ([p] + later)[1..] == later;
  }

  function WithoutTime(pairs: seq<(string, string)>): seq<(string, string)> {
    if pairs == [] then []
    else (if Lower(pairs[0].0) == "time" then [] else [pairs[0]]) + WithoutTime(pairs[1..])
  }

  lemma {:induction false} TimeIgnored(codec: Codec, song: Song, pairs: seq<(string, string)>)
    requires forall p | p in pairs :: GoodPair(codec, p)
    ensures ValuesOf(WithoutTime(pairs), "time") == []
    ensures forall p | p in WithoutTime(pairs) :: GoodPair(codec, p)
    ensures WithPairs(codec, song, WithoutTime(pairs)) == WithPairs(codec, song, pairs)
    decreases pairs
  {
    if pairs != [] {
      assert GoodPair(codec, pairs[0]);
      var next := NextInSong(codec, song, Lower(pairs[0].0), pairs[0].1).value;
      var rest := WithoutTime(pairs[1..]);
      TimeIgnored(codec, next, pairs[1..]);
      if Lower(pairs[0].0) == "time" {
        assert [] + rest == rest && next == song;
      } else {
        assert ([pairs[0]] + rest)[1..] == rest;
      }
    }
  }

  /** A parsed song has the number of its last `id` line, or 0; its duration and dates are what is
      read from their last lines, or the defaults; `time` lines change nothing; and none of these
      keys becomes a tag. */
  lemma FieldsInOrder(codec: Codec, r: Record)
    requires GoodRecord(codec, r)
    ensures var song := SongOf(codec, r);
      && (match Latest(r.pairs, "id")
          case None => song.id == 0
          case Some(value) => ParseUnsigned(value, U32_MAX) == Some(song.id))
      && (match Latest(r.pairs, "duration")
          case None => song.duration == None
          case Some(value) => codec.duration(value) == song.duration)
      && (match Latest(r.pairs, "last-modified")
          case None => song.lastModified == 0
          case Some(value) => codec.date(value) == Some(song.lastModified))
      && (match Latest(r.pairs, "added")
          case None => song.added == None
          case Some(value) => codec.date(value) == song.added)
      && forall key | key in song.metadata :: !Reserved(key) && key != "file"
    ensures ValuesOf(WithoutTime(r.pairs), "time") == []
    ensures GoodRecord(codec, Record(r.file, WithoutTime(r.pairs)))
    ensures SongOf(codec, Record(r.file, WithoutTime(r.pairs))) == SongOf(codec, r)
  {
    FieldsAlong(codec, DEFAULT_SONG.(file := r.file), r.pairs);
    TimeIgnored(codec, DEFAULT_SONG.(file := r.file), r.pairs);
  }

  lemma IdLine(codec: Codec, id: nat)
    requires id <= U32_MAX
    ensures Lower("Id") == "id" && GoodPair(codec, ("Id", Digits(id))) && ParseUnsigned(Digits(id), U32_MAX) == Some(id)
  {
    LowerMeans("Id");
    ParseDigits(id, U32_MAX);
    assert "Id"[0] == 'I';
  }

  lemma ArtistLine(codec: Codec, artist: string)
    requires '\n' !in artist
    ensures Lower("Artist") == "artist" && GoodPair(codec, ("Artist", artist))
  {
    LowerMeans("Artist");
    assert "Artist"[0] == 'A' && "Artist"[1] == 'r';
  }

  /** With the keys as MPD prints them. */
  lemma PrintedKeys(codec: Codec, file: string, id: nat, artist: string)
    requires '\n' !in file && '\n' !in artist && id <= U32_MAX
    ensures var r := Record(file, [("Id", Digits(id)), ("Artist", artist)]);
      && GoodRecord(codec, r)
      && SongOf(codec, r) == Song(id, file, None, map["artist" := Single(artist)], 0, None)
  {
    var first, second := ("Id", Digits(id)), ("Artist", artist);
    IdLine(codec, id);
    ArtistLine(codec, artist);
    var named := DEFAULT_SONG.(file := file);
    var numbered := named.(id := id);
    assert NextInSong(codec, named, "id", Digits(id)) == Success(numbered);
    assert [first, second][1..] == [second] && [second][1..] == [];
    assert WithPairs(codec, numbered, [second]) == NextInSong(codec, numbered, "artist", artist).value;
  }

  /** A line is refused if and only if its field cannot be read from it. */
  lemma RefusedExactly(codec: Codec, song: Song, key: string, value: string)
    ensures NextInSong(codec, song, key, value).Failure? <==>
      || (key == "id" && ParseUnsigned(value, U32_MAX).None?)
      || (key == "duration" && codec.duration(value).None?)
      || ((key == "last-modified" || key == "added") && codec.date(value).None?)
  {
  }

  /** In every song a client can build, from any lines at all, a Multiple has two items or more. */
  predicate NoEmptyMultiple(metadata: map<string, MetadataTag>) {
    forall k | k in metadata :: metadata[k].Multiple? ==> |metadata[k].items| >= 2
  }

  lemma NoEmptyMultipleKept(codec: Codec, songs: seq<Song>, key: string, value: string)
    requires forall s | s in songs :: NoEmptyMultiple(s.metadata)
    ensures var r := NextInList(codec, songs, key, value);
      r.Success? ==> forall s | s in r.value :: NoEmptyMultiple(s.metadata)
  {
    var pushed := if key == "file" then songs + [DEFAULT_SONG] else songs;
    forall s | s in pushed ensures NoEmptyMultiple(s.metadata) {}
    if pushed != [] {
      var last := pushed[|pushed| - 1];
      assert NoEmptyMultiple(last.metadata);
      AddTagKeeps(last.metadata, key, value);
    }
  }

  lemma AddTagKeeps(metadata: map<string, MetadataTag>, key: string, value: string)
    requires NoEmptyMultiple(metadata)
    ensures NoEmptyMultiple(AddTag(metadata, key, value))
  {
  }

  // ---- the round trip

  /** The parser of a song list, as `read_response` uses it. */
  function ListParser(codec: Codec): Parser<seq<Song>> {
    (songs: seq<Song>, key: string, value: string) => NextInList(codec, songs, key, value)
  }

  /** The pairs of one song change only the last element. */
  lemma {:induction false} ReadPairs(codec: Codec, done: seq<Song>, song: Song, pairs: seq<(string, string)>, rest: string)
    requires forall p | p in pairs :: GoodPair(codec, p)
    ensures Response(ListParser(codec), done + [song], PairLines(pairs) + rest)
         == Response(ListParser(codec), done + [WithPairs(codec, song, pairs)], rest)
    decreases pairs
  {
    if pairs == [] {
      assert PairLines(pairs) + rest == rest;
    } else {
      assert GoodPair(codec, pairs[0]);
      var (k, v) := pairs[0];
      var song' := NextInSong(codec, song, Lower(k), v).value;
      assert PairLines(pairs) + rest == PairLine(k, v) + (PairLines(pairs[1..]) + rest);
      ResponsePair(ListParser(codec), done + [song], k, v, PairLines(pairs[1..]) + rest);
      LastChanges(codec, done, song, Lower(k), v);
      ReadPairs(codec, done, song', pairs[1..], rest);
    }
  }

  lemma LastChanges(codec: Codec, done: seq<Song>, song: Song, key: string, value: string)
    requires key != "file" && NextInSong(codec, song, key, value).Success?
    ensures NextInList(codec, done + [song], key, value) == Success(done + [NextInSong(codec, song, key, value).value])
  {
    var all := done + [song];
    assert all[|all| - 1 := NextInSong(codec, song, key, value).value] == done + [NextInSong(codec, song, key, value).value];
  }

  lemma FileLineStarts(codec: Codec, done: seq<Song>, file: string)
    ensures NextInList(codec, done, "file", file) == Success(done + [DEFAULT_SONG.(file := file)])
  {
    var all := done + [DEFAULT_SONG];
    assert all[|all| - 1 := DEFAULT_SONG.(file := file)] == done + [DEFAULT_SONG.(file := file)];
  }

  lemma {:induction false} ReadRecords(codec: Codec, done: seq<Song>, records: seq<Record>, rest: string)
    requires forall r | r in records :: GoodRecord(codec, r)
    ensures Response(ListParser(codec), done, Printed(records) + ("OK\n" + rest))
         == (Success(done + SongsOf(codec, records)), rest)
    decreases records
  {
    var tail := "OK\n" + rest;
    if records == [] {
      assert Printed(records) + tail == tail && done + SongsOf(codec, records) == done;
      ResponseEnd(ListParser(codec), done, rest);
    } else {
      var r := records[0];
      assert GoodRecord(codec, r);
      var behind := Printed(records[1..]) + tail;
      Regroup(PairLine("file", r.file), PairLines(r.pairs) + Printed(records[1..]), tail);
      Regroup(PairLines(r.pairs), Printed(records[1..]), tail);
      ReadRecord(codec, done, r, behind);
      ReadRecords(codec, done + [SongOf(codec, r)], records[1..], rest);
      Appended(done, SongOf(codec, r), SongsOf(codec, records[1..]));
    }
  }

  lemma Appended(done: seq<Song>, song: Song, more: seq<Song>)
    ensures done + [song] + more == done + ([song] + more)
  {
  }

  lemma ReadRecord(codec: Codec, done: seq<Song>, r: Record, behind: string)
    requires GoodRecord(codec, r)
    ensures Response(ListParser(codec), done, PairLine("file", r.file) + (PairLines(r.pairs) + behind))
         == Response(ListParser(codec), done + [SongOf(codec, r)], behind)
  {
    FileIsPlain();
    ResponsePair(ListParser(codec), done, "file", r.file, PairLines(r.pairs) + behind);
    FileLineStarts(codec, done, r.file);
    ReadPairs(codec, done, DEFAULT_SONG.(file := r.file), r.pairs, behind);
  }

  lemma FileIsPlain()
    ensures Plain("file") && Lower("file") == "file" && ':' !in "file" && '\n' !in "file"
  {
    assert "file"[0] == 'f';
  }

  /** Reading a printed list gives back the list and stops exactly behind its own OK. */
  lemma SongListRoundTrip(codec: Codec, records: seq<Record>, rest: string)
    requires forall r | r in records :: GoodRecord(codec, r)
    ensures Response(ListParser(codec), [], Printed(records) + ("OK\n" + rest)) == (Success(SongsOf(codec, records)), rest)
  {
    ReadRecords(codec, [], records, rest);
    assert [] + SongsOf(codec, records) == SongsOf(codec, records);
  }

  /** `read_response` into a song list, one line after the other. */
  method ReadInto(client: Client, codec: Codec, list: SongList) returns (r: Result<(), MpdError>)
    modifies client, list
    ensures var full := Response(ListParser(codec), old(list.songs), old(client.incoming));
      if full.0.Success? then r == Success(()) && list.songs == full.0.value && client.incoming == full.1
      else r == Failure(full.0.error) && Client.Left(full.0.error, full.1, client.incoming)
  {
    while true
      invariant Response(ListParser(codec), list.songs, client.incoming)
             == Response(ListParser(codec), old(list.songs), old(client.incoming))
      decreases |client.incoming|
    {
      var line := ReadLine(client.incoming).0;
      client.incoming := ReadLine(client.incoming).1;
      if line.Failure? {
        if ShouldReinit(line.error) { client.ClearReadBuf(); }
        return Failure(line.error);
      }
      if line.value.Ok? {
        return Success(());
      }
      var pair := SplitLine(line.value.text);
      if pair.Success? {
        var (key, value) := pair.value;
        r := list.NextInternal(codec, Lower(key), value);
      } else {
        r := Failure(pair.error);
      }
      if r.Failure? {
        if ShouldReinit(r.error) { client.ClearReadBuf(); }
        return r;
      }
    }
  }

  /** `list_playlist_info` and `find`: the reply read from the connection. */
  method ReadSongs(client: Client, codec: Codec, ghost records: seq<Record>, ghost rest: string)
    returns (r: Result<seq<Song>, MpdError>)
    requires forall x | x in records :: GoodRecord(codec, x)
    requires client.incoming == Printed(records) + ("OK\n" + rest)
    modifies client
    ensures r == Success(SongsOf(codec, records)) && client.incoming == rest
  {
    SongListRoundTrip(codec, records, rest);
    var list := new SongList();
    var done := ReadInto(client, codec, list);
    match done
    case Success(_) => r := Success(list.songs);
    case Failure(e) => r := Failure(e);
  }

  /** `playlist_info`: the same, but no list at all for an empty queue. */
  method ReadQueue(client: Client, codec: Codec, ghost records: seq<Record>, ghost rest: string)
    returns (r: Result<Option<seq<Song>>, MpdError>)
    requires forall x | x in records :: GoodRecord(codec, x)
    requires client.incoming == Printed(records) + ("OK\n" + rest)
    modifies client
    ensures r == Success(if records == [] then None else Some(SongsOf(codec, records)))
    ensures client.incoming == rest
  {
    SongListRoundTrip(codec, records, rest);
    FirstLine(codec, records, rest);
    r := ReadOptResponse(client, ListParser(codec), []);
  }

  lemma FirstLine(codec: Codec, records: seq<Record>, rest: string)
    requires forall x | x in records :: GoodRecord(codec, x)
    ensures ReadLine(Printed(records) + ("OK\n" + rest)).0 == Success(Ok) <==> records == []
  {
    var tail := "OK\n" + rest;
    if records == [] {
      assert Printed(records) + tail == tail;
      ReadOneLine("OK", rest);
      assert "OK" + "\n" + rest == tail;
    } else {
      var r := records[0];
      assert GoodRecord(codec, r);
      FileIsPlain();
      Regroup(PairLine("file", r.file), PairLines(r.pairs) + Printed(records[1..]), tail);
      ReadPairExactly("file", r.file, PairLines(r.pairs) + Printed(records[1..]) + tail);
    }
  }
}
