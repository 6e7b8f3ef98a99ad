/**
 The sort order of directories, songs and playlists: a comparison by song properties, the
 handling of a leading "the", grouping by type, and reversal.
 */
module Sorting {
  import opened Wrappers
  import opened Text

  datatype Ordering = Less | Equal | Greater {
    function Flip(): Ordering {
      match this
      case Less => Greater
      case Equal => Equal
      case Greater => Less
    }
  }

  function CompareInt(a: int, b: int): Ordering {
    if a < b then Less else if a == b then Equal else Greater
  }

  /** `str::cmp`: by scalar values, a prefix first. */
  function CompareString(a: string, b: string): Ordering {
    if a == "" || b == "" then CompareInt(|a|, |b|)
    else if a[0] == b[0] then CompareString(a[1..], b[1..])
    else CompareInt(a[0] as int, b[0] as int)
  }

  // ---- what a comparison must satisfy

  /** The three results among a, b and c of a total preorder. */
  predicate Composes(ab: Ordering, bc: Ordering, ac: Ordering) {
    && (ab == Equal ==> ac == bc)
    && (bc == Equal ==> ac == ab)
    && (ab == bc ==> ac == ab)
  }

  ghost predicate TotalPreorder<T(!new)>(cmp: (T, T) -> Ordering) {
    && (forall a :: cmp(a, a) == Equal)
    && (forall a, b :: cmp(b, a) == cmp(a, b).Flip())
    && (forall a, b, c :: Composes(cmp(a, b), cmp(b, c), cmp(a, c)))
  }

  // ---- strings

  /** What the model does not look into: case folding, the path library's stem and extension,
      the parts of a `format` tag, and how durations, rates and dates are shown as text. */
  datatype Externals = Externals(
    fold: string -> string,
    stem: string -> Option<string>,
    ext: string -> Option<string>,
    rate: (SongProperty, string) -> Option<nat>,
    show: (SongProperty, int) -> string)

  function StripThe(s: string): string {
    if |s| >= 4 && (s[..4] == "THE " || s[..4] == "the " || s[..4] == "The ") then s[4..] else s
  }

  /** What a string is compared by. */
  function Folded(x: Externals, foldCase: bool, ignoreThe: bool, s: string): string {
    var stripped := if ignoreThe then StripThe(s) else s;
    if foldCase then x.fold(stripped) else stripped
  }

  /** `StringCompare::compare`. */
  function Compare(x: Externals, foldCase: bool, theA: bool, theB: bool, a: string, b: string): Ordering {
    var a' := if theA then StripThe(a) else a;
    var b' := if theB then StripThe(b) else b;
    if foldCase then CompareString(x.fold(a'), x.fold(b')) else CompareString(a', b')
  }

  /** `StringCompare::eq`. */
  predicate StringEq(x: Externals, foldCase: bool, theA: bool, theB: bool, a: string, b: string) {
    var a' := if theA then StripThe(a) else a;
    var b' := if theB then StripThe(b) else b;
    if foldCase then x.fold(a') == x.fold(b') else a' == b'
  }

  lemma {:induction false} CompareStringLaws(a: string, b: string, c: string)
    ensures CompareString(a, b) == Equal <==> a == b
    ensures CompareString(b, a) == CompareString(a, b).Flip()
    ensures Composes(CompareString(a, b), CompareString(b, c), CompareString(a, c))
    decreases |a| + |b| + |c|
  {
    if a != "" && b != "" && a[0] == b[0] {
      assert a == b <==> a[1..] == b[1..];
      CompareStringLaws(a[1..], b[1..], if c == "" then c else c[1..]);
    } else if b != "" && c != "" && b[0] == c[0] {
      assert b == c <==> b[1..] == c[1..];
      CompareStringLaws(if a == "" then a else a[1..], b[1..], c[1..]);
    }
  }

  /** `eq` and `compare` agree. */
  lemma EqIsCompareEqual(x: Externals, foldCase: bool, theA: bool, theB: bool, a: string, b: string)
    ensures StringEq(x, foldCase, theA, theB, a, b) <==> Compare(x, foldCase, theA, theB, a, b) == Equal
  {
    CompareStringLaws(Folded(x, foldCase, theA, a), Folded(x, foldCase, theB, b), "");
  }

  // ---- songs

  datatype SongProperty =
    | Filename | FileExtension | File | Title | Artist | Album | AlbumArtist | Other(tag: string)
    | Track | Position | Disc
    | Duration | SampleRate | Bits | Channels | Added | LastModified

  /** The values of one tag; there is at least one. */
  datatype TagValues = TagValues(first: string, more: seq<string>) {
    function Join(): string {
      first + Concat(more)
    }

    function Last(): string {
      if more == [] then first else more[|more| - 1]
    }
  }

  function Concat(ss: seq<string>): string {
    if ss == [] then "" else ss[0] + Concat(ss[1..])
  }

  /** Seconds; MPD writes years with four digits. */
  type Date = t: int | FIRST_DATE <= t < END_OF_DATES witness 0

  const FIRST_DATE := -62_167_219_200
  const END_OF_DATES := 253_402_300_800

  datatype Song = Song(
    file: string,
    tags: map<string, TagValues>,
    duration: Option<nat>,
    added: Option<Date>,
    lastModified: Date)

  function Joined(s: Song, tag: string): Option<string> {
    if tag in s.tags then Some(s.tags[tag].Join()) else None
  }

  function LastOf(s: Song, tag: string): Option<string> {
    if tag in s.tags then Some(s.tags[tag].Last()) else None
  }

  function Number(x: Externals, s: Song, p: SongProperty): Option<int> {
    match p
    case Duration => if s.duration.Some? then Some(s.duration.value) else None
    case Added => if s.added.Some? then Some(s.added.value) else None
    case LastModified => Some(s.lastModified)
    case _ =>
      if "format" in s.tags && x.rate(p, s.tags["format"].first).Some? then
        Some(x.rate(p, s.tags["format"].first).value)
      else None
  }

  /** The text of a property compared as text or as parsed text. */
  function TextOf(x: Externals, s: Song, p: SongProperty): Option<string> {
    match p
    case Filename => x.stem(s.file)
    case FileExtension => x.ext(s.file)
    case File => Some(s.file)
    case Title => Joined(s, "title")
    case Artist => Joined(s, "artist")
    case Album => Joined(s, "album")
    case AlbumArtist => Joined(s, "albumartist")
    case Other(tag) => Joined(s, tag)
    case Track => Joined(s, "track")
    case Position => LastOf(s, "pos")
    case Disc => Joined(s, "disc")
    case _ => None
  }

  /** `parse::<i32>`. */
  function ParseI32(s: string): Option<int> {
    if "-" <= s then
      if |s| == 1 then None
      else
        match ValueOf(s[1..])
        case None => None
        case Some(v) => if v <= I32_MAX + 1 then Some(0 - (v as int)) else None
    else
      match ParseUnsigned(s, I32_MAX)
      case None => None
      case Some(v) => Some(v)
  }

  /** `parse::<usize>`. */
  function ParseUsize(s: string): Option<int> {
    match ParseUnsigned(s, U64_MAX)
    case None => None
    case Some(v) => Some(v)
  }

  datatype CmpByProp = CmpByProp(ordering: Ordering, firstEmpty: bool, secondEmpty: bool)

  function OptStr(x: Externals, a: Option<string>, b: Option<string>, foldCase: bool, theA: bool, theB: bool): CmpByProp {
    match (a, b)
    case (Some(s), Some(t)) => CmpByProp(Compare(x, foldCase, theA, theB, s, t), s == "", t == "")
    case (None, Some(t)) => CmpByProp(Greater, true, t == "")
    case (Some(s), None) => CmpByProp(Less, s == "", true)
    case (None, None) => CmpByProp(Equal, true, true)
  }

  function OptStrParse(x: Externals, parse: string -> Option<int>, a: Option<string>, b: Option<string>,
                       foldCase: bool, theA: bool, theB: bool): CmpByProp
  {
    match (a, b)
    case (Some(s), Some(t)) =>
      (match (parse(s), parse(t))
       case (Some(m), Some(n)) => CmpByProp(CompareInt(m, n), false, false)
       case (Some(_), None) => CmpByProp(Less, false, false)
       case (None, Some(_)) => CmpByProp(Greater, false, false)
       case (None, None) => OptStr(x, a, b, foldCase, theA, theB))
    case (None, Some(t)) => CmpByProp(Greater, true, t == "")
    case (Some(s), None) => CmpByProp(Less, s == "", true)
    case (None, None) => CmpByProp(Equal, true, true)
  }

  function CmpNumbers(a: Option<int>, b: Option<int>): CmpByProp {
    match (a, b)
    case (Some(m), Some(n)) => CmpByProp(CompareInt(m, n), false, false)
    case (None, Some(_)) => CmpByProp(Greater, true, false)
    case (Some(_), None) => CmpByProp(Less, false, true)
    case (None, None) => CmpByProp(Equal, true, true)
  }

  predicate IsNumber(p: SongProperty) {
    p.Duration? || p.SampleRate? || p.Bits? || p.Channels? || p.Added? || p.LastModified?
  }

  /** `song_cmp`. */
  function SongCmp(x: Externals, a: Song, b: Song, p: SongProperty, foldCase: bool, theA: bool, theB: bool): CmpByProp {
    if IsNumber(p) then CmpNumbers(Number(x, a, p), Number(x, b, p))
    else if p.Track? || p.Disc? then OptStrParse(x, ParseI32, TextOf(x, a, p), TextOf(x, b, p), foldCase, theA, theB)
    else if p.Position? then OptStrParse(x, ParseUsize, TextOf(x, a, p), TextOf(x, b, p), foldCase, theA, theB)
    else OptStr(x, TextOf(x, a, p), TextOf(x, b, p), foldCase, theA, theB)
  }

  // ---- the order behind it: every song has a key per property

  /** Numbers first, then text that is none, then nothing at all. */
  datatype Key = Num(n: int) | Str(s: string) | Missing

  function CompareKey(a: Key, b: Key): Ordering {
    match (a, b)
    case (Num(m), Num(n)) => CompareInt(m, n)
    case (Str(s), Str(t)) => CompareString(s, t)
    case (Missing, Missing) => Equal
    case (Num(_), _) => Less
    case (_, Num(_)) => Greater
    case (Str(_), _) => Less
    case (_, _) => Greater
  }

  function ParseFor(p: SongProperty): string -> Option<int> {
    if p.Track? || p.Disc? then ParseI32
    else if p.Position? then ParseUsize
    else s => None
  }

  /** The key of a text, given how its property parses numbers. */
  function TextKey(x: Externals, parse: string -> Option<int>, text: Option<string>, foldCase: bool, ignoreThe: bool): Key {
    match text
    case None => Missing
    case Some(s) => if parse(s).Some? then Num(parse(s).value) else Str(Folded(x, foldCase, ignoreThe, s))
  }

  function KeyOf(x: Externals, s: Song, p: SongProperty, foldCase: bool, ignoreThe: bool): Key {
    if IsNumber(p) then
      if Number(x, s, p).Some? then Num(Number(x, s, p).value) else Missing
    else TextKey(x, ParseFor(p), TextOf(x, s, p), foldCase, ignoreThe)
  }

  /** The property shows nothing, so a leading "the" may still come. */
  predicate Empty(x: Externals, s: Song, p: SongProperty) {
    if IsNumber(p) then Number(x, s, p).None? else EmptyText(ParseFor(p), TextOf(x, s, p))
  }

  predicate EmptyText(parse: string -> Option<int>, text: Option<string>) {
    text.None? || (text.value == "" && parse(text.value).None?)
  }

  lemma ParsedIsKeyOrder(x: Externals, parse: string -> Option<int>, a: Option<string>, b: Option<string>,
                         foldCase: bool, theA: bool, theB: bool)
    ensures var r := OptStrParse(x, parse, a, b, foldCase, theA, theB);
      && r.ordering == CompareKey(TextKey(x, parse, a, foldCase, theA), TextKey(x, parse, b, foldCase, theB))
      && (r.ordering == Equal ==> r.firstEmpty == EmptyText(parse, a) && r.secondEmpty == EmptyText(parse, b))
  {
  }

  lemma TextIsKeyOrder(x: Externals, parse: string -> Option<int>, a: Option<string>, b: Option<string>,
                       foldCase: bool, theA: bool, theB: bool)
    requires forall s :: parse(s) == None
    ensures OptStr(x, a, b, foldCase, theA, theB) == OptStrParse(x, parse, a, b, foldCase, theA, theB)
  {
  }

  /** Every comparison by property compares the two songs' own keys. */
  lemma SongCmpIsKeyOrder(x: Externals, a: Song, b: Song, p: SongProperty, foldCase: bool, theA: bool, theB: bool)
    ensures var r := SongCmp(x, a, b, p, foldCase, theA, theB);
      && r.ordering == CompareKey(KeyOf(x, a, p, foldCase, theA), KeyOf(x, b, p, foldCase, theB))
      && (r.ordering == Equal ==> r.firstEmpty == Empty(x, a, p) && r.secondEmpty == Empty(x, b, p))
  {
    if !IsNumber(p) {
      ParsedIsKeyOrder(x, ParseFor(p), TextOf(x, a, p), TextOf(x, b, p), foldCase, theA, theB);
      if !p.Track? && !p.Disc? && !p.Position? {
        TextIsKeyOrder(x, ParseFor(p), TextOf(x, a, p), TextOf(x, b, p), foldCase, theA, theB);
      }
    }
  }

  lemma CompareKeyLaws(a: Key, b: Key, c: Key)
    ensures CompareKey(a, b) == Equal <==> a == b
    ensures CompareKey(b, a) == CompareKey(a, b).Flip()
    ensures Composes(CompareKey(a, b), CompareKey(b, c), CompareKey(a, c))
  {
    if a.Str? && b.Str? { CompareStringLaws(a.s, b.s, if c.Str? then c.s else ""); }
    if b.Str? && c.Str? { CompareStringLaws(if a.Str? then a.s else "", b.s, c.s); }
  }

  /** With the same flag on both sides each comparison by property is a total preorder. */
  lemma PropertyOrder(x: Externals, p: SongProperty, foldCase: bool, ignoreThe: bool)
    ensures TotalPreorder((a: Song, b: Song) => SongCmp(x, a, b, p, foldCase, ignoreThe, ignoreThe).ordering)
  {
    forall a: Song, b: Song, c: Song
      ensures SongCmp(x, a, a, p, foldCase, ignoreThe, ignoreThe).ordering == Equal
      ensures SongCmp(x, b, a, p, foldCase, ignoreThe, ignoreThe).ordering
           == SongCmp(x, a, b, p, foldCase, ignoreThe, ignoreThe).ordering.Flip()
      ensures Composes(SongCmp(x, a, b, p, foldCase, ignoreThe, ignoreThe).ordering,
                       SongCmp(x, b, c, p, foldCase, ignoreThe, ignoreThe).ordering,
                       SongCmp(x, a, c, p, foldCase, ignoreThe, ignoreThe).ordering)
    {
      SongCmpIsKeyOrder(x, a, a, p, foldCase, ignoreThe, ignoreThe);
      SongCmpIsKeyOrder(x, a, b, p, foldCase, ignoreThe, ignoreThe);
      SongCmpIsKeyOrder(x, b, a, p, foldCase, ignoreThe, ignoreThe);
      SongCmpIsKeyOrder(x, b, c, p, foldCase, ignoreThe, ignoreThe);
      SongCmpIsKeyOrder(x, a, c, p, foldCase, ignoreThe, ignoreThe);
      var ka, kb, kc := KeyOf(x, a, p, foldCase, ignoreThe), KeyOf(x, b, p, foldCase, ignoreThe), KeyOf(x, c, p, foldCase, ignoreThe);
      CompareKeyLaws(ka, ka, ka);
      CompareKeyLaws(ka, kb, kc);
    }
  }

  // ---- several properties

  datatype SortMode = Format(items: seq<SongProperty>) | ModifiedTime

  datatype SortOptions = SortOptions(mode: SortMode, groupByType: bool, reverse: bool, ignoreLeadingThe: bool, foldCase: bool)

  function Reversed(o: Ordering, reverse: bool): Ordering {
    if reverse then o.Flip() else o
  }

  /** The property loop of the song order: "the" is ignored on each side until that side has
      shown something. */
  function ByItems(x: Externals, opts: SortOptions, a: Song, b: Song, items: seq<SongProperty>, leadA: bool, leadB: bool): Ordering
    decreases items
  {
    if items == [] then Equal
    else
      var r := SongCmp(x, a, b, items[0], opts.foldCase, leadA && opts.ignoreLeadingThe, leadB && opts.ignoreLeadingThe);
      if r.ordering != Equal then r.ordering
      else ByItems(x, opts, a, b, items[1..], leadA && r.firstEmpty, leadB && r.secondEmpty)
  }

  /** `SongCustomSort::cmp`. */
  method CompareSongs(x: Externals, opts: SortOptions, a: Song, b: Song) returns (o: Ordering)
    ensures o == SongOrder(x, opts, a, b)
  {
    match opts.mode
    case Format(items) =>
      var leadA, leadB := true, true;
      for i := 0 to |items|
        invariant ByItems(x, opts, a, b, items, true, true) == ByItems(x, opts, a, b, items[i..], leadA, leadB)
      {
        var r := SongCmp(x, a, b, items[i], opts.foldCase, leadA && opts.ignoreLeadingThe, leadB && opts.ignoreLeadingThe);
        assert items[i..][0] == items[i] && items[i..][1..] == items[i + 1..];
        if !r.firstEmpty { leadA := false; }
        if !r.secondEmpty { leadB := false; }
        if r.ordering != Equal {
          return Reversed(r.ordering, opts.reverse);
        }
      }
      return Equal;
    case ModifiedTime =>
      return Reversed(CompareInt(a.lastModified, b.lastModified), opts.reverse);
  }

  function SongOrder(x: Externals, opts: SortOptions, a: Song, b: Song): Ordering {
    match opts.mode
    case Format(items) => Reversed(ByItems(x, opts, a, b, items, true, true), opts.reverse)
    case ModifiedTime => Reversed(CompareInt(a.lastModified, b.lastModified), opts.reverse)
  }

  /** Lexicographic order of key lists, a prefix first. */
  function Lexicographic(a: seq<Key>, b: seq<Key>): Ordering {
    if a == [] || b == [] then CompareInt(|a|, |b|)
    else if CompareKey(a[0], b[0]) != Equal then CompareKey(a[0], b[0])
    else Lexicographic(a[1..], b[1..])
  }

  /** All keys of one song; whether "the" is still ignored depends on this song alone. */
  function KeysOf(x: Externals, opts: SortOptions, s: Song, items: seq<SongProperty>, lead: bool): seq<Key> {
    if items == [] then []
    else [KeyOf(x, s, items[0], opts.foldCase, lead && opts.ignoreLeadingThe)]
         + KeysOf(x, opts, s, items[1..], lead && Empty(x, s, items[0]))
  }

  lemma {:induction false} LexicographicLaws(a: seq<Key>, b: seq<Key>, c: seq<Key>)
    ensures Lexicographic(a, b) == Equal <==> a == b
    ensures Lexicographic(b, a) == Lexicographic(a, b).Flip()
    ensures Composes(Lexicographic(a, b), Lexicographic(b, c), Lexicographic(a, c))
    decreases |a| + |b| + |c|
  {
    if a != [] && b != [] {
      CompareKeyLaws(a[0], b[0], if c == [] then Missing else c[0]);
      LexicographicLaws(a[1..], b[1..], if c == [] then [] else c[1..]);
      assert a == b <==> a[0] == b[0] && a[1..] == b[1..] by {
        assert a == [a[0]] + a[1..] && b == [b[0]] + b[1..];
      }
    }
    if b != [] && c != [] {
      CompareKeyLaws(if a == [] then Missing else a[0], b[0], c[0]);
    }
  }

  lemma {:induction false} ByItemsIsLexicographic(x: Externals, opts: SortOptions, a: Song, b: Song,
                                                  items: seq<SongProperty>, leadA: bool, leadB: bool)
    ensures ByItems(x, opts, a, b, items, leadA, leadB)
         == Lexicographic(KeysOf(x, opts, a, items, leadA), KeysOf(x, opts, b, items, leadB))
    decreases items
  {
    if items != [] {
      SongCmpIsKeyOrder(x, a, b, items[0], opts.foldCase, leadA && opts.ignoreLeadingThe, leadB && opts.ignoreLeadingThe);
      ByItemsIsLexicographic(x, opts, a, b, items[1..], leadA && Empty(x, a, items[0]), leadB && Empty(x, b, items[0]));
    }
  }

  // ---- directories, songs, playlists

  datatype DirOrSong = Dir(name: string, lastModified: Date, playlist: bool) | SongEntry(song: Song)

  function Modified(e: DirOrSong): int {
    match e
    case Dir(_, t, _) => t
    case SongEntry(s) => s.lastModified
  }

  function TypeOrder(a: DirOrSong, b: DirOrSong): Option<Ordering> {
    match (a, b)
    case (SongEntry(_), Dir(_, _, playlist)) => Some(if playlist then Less else Greater)
    case (Dir(_, _, playlist), SongEntry(_)) => Some(if playlist then Greater else Less)
    case (Dir(_, _, p), Dir(_, _, q)) => if p == q then None else Some(if p then Greater else Less)
    case (SongEntry(_), SongEntry(_)) => None
  }

  /** At least two digits. */
  function Padded(s: string): string {
    if |s| < 2 then "0" + s else s
  }

  /** `format` of one property: numbers are shown in their own way, and of a track, disc or
      position with several values only the last. */
  function Shown(x: Externals, s: Song, p: SongProperty): Option<string> {
    if IsNumber(p) then
      if Number(x, s, p).Some? then Some(x.show(p, Number(x, s, p).value)) else None
    else if p.Track? then
      match LastOf(s, "track")
      case None => None
      case Some(last) =>
        Some(if ParseUnsigned(last, U32_MAX).Some? then Padded(Digits(ParseUnsigned(last, U32_MAX).value)) else last)
    else if p.Position? then
      match LastOf(s, "pos")
      case None => None
      case Some(last) =>
        Some(if ParseUnsigned(last, U64_MAX).Some? then Digits(ParseUnsigned(last, U64_MAX).value + 1) else "")
    else if p.Disc? then LastOf(s, "disc")
    else TextOf(x, s, p)
  }

  /** A directory name against a song's properties as text, in the direction asked for. */
  function MixedByItems(x: Externals, opts: SortOptions, name: string, song: Song, songFirst: bool,
                        items: seq<SongProperty>, lead: bool): Option<Ordering>
    decreases items
  {
    if items == [] then None
    else
      match Shown(x, song, items[0])
      case None => MixedByItems(x, opts, name, song, songFirst, items[1..], lead)
      case Some(text) =>
        var the := lead && opts.ignoreLeadingThe;
        var o := if songFirst then Compare(x, opts.foldCase, the, the, text, name)
                 else Compare(x, opts.foldCase, the, the, name, text);
        if o != Equal then Some(o)
        else MixedByItems(x, opts, name, song, songFirst, items[1..], lead && text == "")
  }

  /** `DirOrSongCustomSort::cmp`. */
  function Cmp(x: Externals, opts: SortOptions, a: DirOrSong, b: DirOrSong): Ordering {
    var typeOrder := if opts.groupByType then TypeOrder(a, b) else None;
    if typeOrder.Some? then Reversed(typeOrder.value, opts.reverse)
    else
      match opts.mode
      case ModifiedTime => Reversed(CompareInt(Modified(a), Modified(b)), opts.reverse)
      case Format(items) =>
        match (a, b)
        case (Dir(m, _, _), Dir(n, _, _)) =>
          Reversed(Compare(x, opts.foldCase, opts.ignoreLeadingThe, opts.ignoreLeadingThe, m, n), opts.reverse)
        case (SongEntry(s), SongEntry(t)) =>
          // the song order reverses already: undone here, done again below
          Reversed(Reversed(SongOrder(x, opts, s, t), opts.reverse), opts.reverse)
        case (Dir(n, _, _), SongEntry(s)) =>
          var o := MixedByItems(x, opts, n, s, false, items, true);
          Reversed(if o.Some? then o.value else Less, opts.reverse)
        case (SongEntry(s), Dir(n, _, _)) =>
          var o := MixedByItems(x, opts, n, s, true, items, true);
          Reversed(if o.Some? then o.value else Greater, opts.reverse)
  }

  /** The order is by type, or by time only. */
  predicate Orderly(opts: SortOptions) {
    opts.groupByType || opts.mode.ModifiedTime?
  }

  function TypeRank(e: DirOrSong): int {
    if e.SongEntry? then 1 else if e.playlist then 2 else 0
  }

  /** What an entry is sorted by. */
  function EntryKeys(x: Externals, opts: SortOptions, e: DirOrSong): seq<Key> {
    (if opts.groupByType then [Num(TypeRank(e))] else [])
    + (match opts.mode
       case ModifiedTime => [Num(Modified(e))]
       case Format(items) =>
         match e
         case Dir(name, _, _) => [Str(Folded(x, opts.foldCase, opts.ignoreLeadingThe, name))]
         case SongEntry(s) => KeysOf(x, opts, s, items, true))
  }

  lemma SingleKeys(a: Key, b: Key)
    ensures Lexicographic([a], [b]) == CompareKey(a, b)
  {
    assert [a][1..] == [] && [b][1..] == [];
  }

  lemma CommonFirst(k: Key, a: seq<Key>, b: seq<Key>)
    ensures Lexicographic([k] + a, [k] + b) == Lexicographic(a, b)
  {
    CompareKeyLaws(k, k, k);
    assert ([k] + a)[1..] == a && ([k] + b)[1..] == b;
  }

  /** The comparison is one lexicographic order of the entries' own keys, reversed on request:
      directories, then songs, then playlists, each by its own keys. */
  lemma CmpIsKeyOrder(x: Externals, opts: SortOptions, a: DirOrSong, b: DirOrSong)
    requires Orderly(opts)
    ensures Cmp(x, opts, a, b) == Reversed(Lexicographic(EntryKeys(x, opts, a), EntryKeys(x, opts, b)), opts.reverse)
  {
    if opts.groupByType && TypeOrder(a, b).Some? {
      assert EntryKeys(x, opts, a)[0] != EntryKeys(x, opts, b)[0];
    } else {
      var plain := opts.(groupByType := false);
      InsideType(x, opts, a, b);
      GroupedKeys(x, opts, a);
      GroupedKeys(x, opts, b);
      if opts.groupByType {
        CommonFirst(Num(TypeRank(a)), EntryKeys(x, plain, a), EntryKeys(x, plain, b));
      }
    }
  }

  lemma GroupedKeys(x: Externals, opts: SortOptions, e: DirOrSong)
    ensures EntryKeys(x, opts, e)
         == (if opts.groupByType then [Num(TypeRank(e))] else []) + EntryKeys(x, opts.(groupByType := false), e)
  {
    if e.SongEntry? && opts.mode.Format? {
      SameKeysOf(x, opts, opts.(groupByType := false), e.song, opts.mode.items, true);
    }
  }

  /** Within one type, or by time. */
  lemma InsideType(x: Externals, opts: SortOptions, a: DirOrSong, b: DirOrSong)
    requires opts.mode.ModifiedTime? || TypeOrder(a, b) == None
    requires opts.groupByType ==> TypeOrder(a, b) == None
    ensures var plain := opts.(groupByType := false);
      Cmp(x, opts, a, b) == Reversed(Lexicographic(EntryKeys(x, plain, a), EntryKeys(x, plain, b)), opts.reverse)
  {
    var plain := opts.(groupByType := false);
    match opts.mode
    case ModifiedTime =>
      assert EntryKeys(x, plain, a) == [Num(Modified(a))] && EntryKeys(x, plain, b) == [Num(Modified(b))];
      SingleKeys(Num(Modified(a)), Num(Modified(b)));
    case Format(items) =>
      if a.Dir? {
        var s, t := Folded(x, opts.foldCase, opts.ignoreLeadingThe, a.name), Folded(x, opts.foldCase, opts.ignoreLeadingThe, b.name);
        assert EntryKeys(x, plain, a) == [Str(s)] && EntryKeys(x, plain, b) == [Str(t)];
        SingleKeys(Str(s), Str(t));
      } else {
        assert EntryKeys(x, plain, a) == KeysOf(x, plain, a.song, items, true);
        assert EntryKeys(x, plain, b) == KeysOf(x, plain, b.song, items, true);
        ByItemsIsLexicographic(x, plain, a.song, b.song, items, true, true);
        SameItems(x, opts, plain, a.song, b.song, items, true, true);
      }
  }

  lemma {:induction false} SameItems(x: Externals, opts: SortOptions, plain: SortOptions, a: Song, b: Song,
                                     items: seq<SongProperty>, leadA: bool, leadB: bool)
    requires plain.foldCase == opts.foldCase && plain.ignoreLeadingThe == opts.ignoreLeadingThe
    ensures ByItems(x, opts, a, b, items, leadA, leadB) == ByItems(x, plain, a, b, items, leadA, leadB)
    decreases items
  {
    if items != [] {
      var r := SongCmp(x, a, b, items[0], opts.foldCase, leadA && opts.ignoreLeadingThe, leadB && opts.ignoreLeadingThe);
      SameItems(x, opts, plain, a, b, items[1..], leadA && r.firstEmpty, leadB && r.secondEmpty);
    }
  }

  /** Sorting is well defined: with grouping or by time the comparison is a total preorder, in
      both directions. */
  lemma EntriesAreOrdered(x: Externals, opts: SortOptions)
    requires Orderly(opts)
    ensures TotalPreorder((a: DirOrSong, b: DirOrSong) => Cmp(x, opts, a, b))
  {
    forall a: DirOrSong, b: DirOrSong, c: DirOrSong
      ensures Cmp(x, opts, a, a) == Equal
      ensures Cmp(x, opts, b, a) == Cmp(x, opts, a, b).Flip()
      ensures Composes(Cmp(x, opts, a, b), Cmp(x, opts, b, c), Cmp(x, opts, a, c))
    {
      CmpIsKeyOrder(x, opts, a, a);
      CmpIsKeyOrder(x, opts, a, b);
      CmpIsKeyOrder(x, opts, b, a);
      CmpIsKeyOrder(x, opts, b, c);
      CmpIsKeyOrder(x, opts, a, c);
      var ka, kb, kc := EntryKeys(x, opts, a), EntryKeys(x, opts, b), EntryKeys(x, opts, c);
      LexicographicLaws(ka, ka, ka);
      LexicographicLaws(ka, kb, kc);
    }
  }

  /** The song order alone is one too, whatever the options. */
  lemma SongsAreOrdered(x: Externals, opts: SortOptions)
    ensures TotalPreorder((a: Song, b: Song) => SongOrder(x, opts, a, b))
  {
    forall a: Song, b: Song, c: Song
      ensures SongOrder(x, opts, a, a) == Equal
      ensures SongOrder(x, opts, b, a) == SongOrder(x, opts, a, b).Flip()
      ensures Composes(SongOrder(x, opts, a, b), SongOrder(x, opts, b, c), SongOrder(x, opts, a, c))
    {
      if opts.mode.Format? {
        var items := opts.mode.items;
        ByItemsIsLexicographic(x, opts, a, a, items, true, true);
        ByItemsIsLexicographic(x, opts, a, b, items, true, true);
        ByItemsIsLexicographic(x, opts, b, a, items, true, true);
        ByItemsIsLexicographic(x, opts, b, c, items, true, true);
        ByItemsIsLexicographic(x, opts, a, c, items, true, true);
        var ka, kb, kc := KeysOf(x, opts, a, items, true), KeysOf(x, opts, b, items, true), KeysOf(x, opts, c, items, true);
        LexicographicLaws(ka, ka, ka);
        LexicographicLaws(ka, kb, kc);
      }
    }
  }

  /** The reverse option is the exact flip, whatever the other options. */
  lemma ReverseFlips(x: Externals, opts: SortOptions, a: DirOrSong, b: DirOrSong)
    ensures Cmp(x, opts.(reverse := true), a, b) == Cmp(x, opts.(reverse := false), a, b).Flip()
  {
    var down, up := opts.(reverse := true), opts.(reverse := false);
    if opts.mode.Format? {
      if a.SongEntry? && b.SongEntry? {
        SameItems(x, down, up, a.song, b.song, opts.mode.items, true, true);
      } else if a.SongEntry? && b.Dir? {
        SameMixed(x, down, up, b.name, a.song, true, opts.mode.items, true);
      } else if a.Dir? && b.SongEntry? {
        SameMixed(x, down, up, a.name, b.song, false, opts.mode.items, true);
      }
    }
  }

  lemma {:induction false} SameMixed(x: Externals, opts: SortOptions, other: SortOptions, name: string, song: Song,
                                     songFirst: bool, items: seq<SongProperty>, lead: bool)
    requires other.foldCase == opts.foldCase && other.ignoreLeadingThe == opts.ignoreLeadingThe
    ensures MixedByItems(x, opts, name, song, songFirst, items, lead)
         == MixedByItems(x, other, name, song, songFirst, items, lead)
    decreases items
  {
    if items != [] {
      var text := Shown(x, song, items[0]);
      SameMixed(x, opts, other, name, song, songFirst, items[1..], if text.Some? then lead && text.value == "" else lead);
    }
  }

  lemma {:induction false} SameKeysOf(x: Externals, opts: SortOptions, other: SortOptions, s: Song,
                                      items: seq<SongProperty>, lead: bool)
    requires other.foldCase == opts.foldCase && other.ignoreLeadingThe == opts.ignoreLeadingThe
    ensures KeysOf(x, opts, s, items, lead) == KeysOf(x, other, s, items, lead)
    decreases items
  {
    if items != [] { SameKeysOf(x, opts, other, s, items[1..], lead && Empty(x, s, items[0])); }
  }
}
