/**
 Directories among songs, not grouped, sorted by a format: lists of properties for which the
 comparison is an order.
 */
module MixedSorting {
  import opened Wrappers
  import opened Sorting

  /** Where a property comes from. */
  datatype Field = PathField | StemField | ExtField | TagField(tag: string) | NumberField(p: SongProperty)

  function FieldOf(p: SongProperty): Field {
    match p
    case File => PathField
    case Filename => StemField
    case FileExtension => ExtField
    case Title => TagField("title")
    case Artist => TagField("artist")
    case Album => TagField("album")
    case AlbumArtist => TagField("albumartist")
    case Other(tag) => TagField(tag)
    case Track => TagField("track")
    case Position => TagField("pos")
    case Disc => TagField("disc")
    case _ => NumberField(p)
  }

  /** Compared as it is shown. */
  predicate IsText(p: SongProperty) {
    !IsNumber(p) && !p.Track? && !p.Position? && !p.Disc?
  }

  /** The text compared, before a leading "the" is taken into account. */
  function Cased(x: Externals, foldCase: bool, s: string): string {
    if foldCase then x.fold(s) else s
  }

  /** Some song has the number. */
  ghost predicate Occurs(x: Externals, p: SongProperty, n: int) {
    match p
    case Duration => n >= 0
    case Added => FIRST_DATE <= n < END_OF_DATES
    case LastModified => FIRST_DATE <= n < END_OF_DATES
    case _ => exists text :: x.rate(p, text).Some? && x.rate(p, text).value == n
  }

  /** Shown as text, numbers are in their own order, as dates of four-digit years are. */
  ghost predicate InOrder(x: Externals, foldCase: bool, p: SongProperty) {
    && IsNumber(p)
    && (forall n | Occurs(x, p, n) :: x.show(p, n) != "" && StripThe(x.show(p, n)) == x.show(p, n))
    && (forall m, n | Occurs(x, p, m) && Occurs(x, p, n) && m < n ::
          CompareString(Cased(x, foldCase, x.show(p, m)), Cased(x, foldCase, x.show(p, n))) == Less)
  }

  /** Songs are in the order of what the property shows. */
  ghost predicate Placed(x: Externals, foldCase: bool, p: SongProperty) {
    IsText(p) || InOrder(x, foldCase, p)
  }

  /** No song lacks the property. */
  ghost predicate Always(x: Externals, p: SongProperty) {
    p.File? || p.LastModified? || (p.Filename? && forall file :: x.stem(file).Some?)
  }

  /** Property `i` does not get in the way behind property `j`: they are the same field, or no
      song lacks `j`, or the field of `i` came before. */
  ghost predicate Together(x: Externals, items: seq<SongProperty>, j: nat, i: nat)
    requires j < i < |items|
  {
    || FieldOf(items[j]) == FieldOf(items[i])
    || Always(x, items[j])
    || exists k | 0 <= k < j :: FieldOf(items[k]) == FieldOf(items[i])
  }

  /** Everything is placed by what it shows; besides properties that no song lacks, in front,
      there is at most one field; and with leading "the"s ignored no more than one property. */
  ghost predicate Placeable(x: Externals, foldCase: bool, items: seq<SongProperty>, ignoreLeadingThe: bool) {
    && (forall i | 0 <= i < |items| :: Placed(x, foldCase, items[i]))
    && (forall j: nat, i: nat | j < i < |items| :: Together(x, items, j, i))
    && (ignoreLeadingThe ==> |items| <= 1)
  }

  ghost predicate PlaceableBy(x: Externals, opts: SortOptions)
    requires opts.mode.Format?
  {
    Placeable(x, opts.foldCase, opts.mode.items, opts.ignoreLeadingThe)
  }

  predicate Ungrouped(opts: SortOptions) {
    opts.mode.Format? && !opts.groupByType && !opts.reverse
  }

  function NameKey(x: Externals, opts: SortOptions, name: string): string {
    Folded(x, opts.foldCase, opts.ignoreLeadingThe, name)
  }

  // ---- what a song shows is its key

  /** What a property shows, as a key. */
  function ShownKey(x: Externals, opts: SortOptions, s: Song, p: SongProperty): Key {
    match Shown(x, s, p)
    case None => Missing
    case Some(text) => Str(NameKey(x, opts, text))
  }

  function ShownKeys(x: Externals, opts: SortOptions, s: Song, items: seq<SongProperty>): seq<Key> {
    if items == [] then [] else [ShownKey(x, opts, s, items[0])] + ShownKeys(x, opts, s, items[1..])
  }

  lemma NumberOccurs(x: Externals, s: Song, p: SongProperty)
    requires IsNumber(p) && Number(x, s, p).Some?
    ensures Occurs(x, p, Number(x, s, p).value)
  {
  }

  lemma ShownInOrder(x: Externals, opts: SortOptions, a: Song, b: Song, p: SongProperty)
    requires InOrder(x, opts.foldCase, p) && Number(x, a, p).Some? && Number(x, b, p).Some?
    ensures CompareInt(Number(x, a, p).value, Number(x, b, p).value)
         == CompareString(NameKey(x, opts, Shown(x, a, p).value), NameKey(x, opts, Shown(x, b, p).value))
  {
    var m, n := Number(x, a, p).value, Number(x, b, p).value;
    NumberOccurs(x, a, p);
    NumberOccurs(x, b, p);
    var s, t := Cased(x, opts.foldCase, x.show(p, m)), Cased(x, opts.foldCase, x.show(p, n));
    assert NameKey(x, opts, x.show(p, m)) == s && NameKey(x, opts, x.show(p, n)) == t;
    CompareStringLaws(s, t, "");
    if n < m { assert CompareString(t, s) == Less; }
  }

  lemma PlacedKey(x: Externals, opts: SortOptions, a: Song, b: Song, p: SongProperty)
    requires Placed(x, opts.foldCase, p)
    ensures CompareKey(KeyOf(x, a, p, opts.foldCase, opts.ignoreLeadingThe), KeyOf(x, b, p, opts.foldCase, opts.ignoreLeadingThe))
         == CompareKey(ShownKey(x, opts, a, p), ShownKey(x, opts, b, p))
  {
    if IsNumber(p) && Number(x, a, p).Some? && Number(x, b, p).Some? {
      ShownInOrder(x, opts, a, b, p);
    }
  }

  lemma FirstKeys(a: Key, b: Key, later: seq<Key>, others: seq<Key>)
    ensures Lexicographic([a] + later, [b] + others)
         == if CompareKey(a, b) != Equal then CompareKey(a, b) else Lexicographic(later, others)
  {
    assert ([a] + later)[1..] == later && ([b] + others)[1..] == others;
  }

  /** Two songs are in the order of what they show. */
  lemma {:induction false} SongsByShown(x: Externals, opts: SortOptions, a: Song, b: Song, items: seq<SongProperty>,
                                        leadA: bool, leadB: bool)
    requires forall i | 0 <= i < |items| :: Placed(x, opts.foldCase, items[i])
    requires opts.ignoreLeadingThe ==> |items| <= 1 && leadA && leadB
    ensures Lexicographic(KeysOf(x, opts, a, items, leadA), KeysOf(x, opts, b, items, leadB))
         == Lexicographic(ShownKeys(x, opts, a, items), ShownKeys(x, opts, b, items))
    decreases items
  {
    if items != [] {
      var p, rest := items[0], items[1..];
      var leadA', leadB' := leadA && Empty(x, a, p), leadB && Empty(x, b, p);
      PlacedKey(x, opts, a, b, p);
      FirstKeys(KeyOf(x, a, p, opts.foldCase, leadA && opts.ignoreLeadingThe),
                KeyOf(x, b, p, opts.foldCase, leadB && opts.ignoreLeadingThe),
                KeysOf(x, opts, a, rest, leadA'), KeysOf(x, opts, b, rest, leadB'));
      FirstKeys(ShownKey(x, opts, a, p), ShownKey(x, opts, b, p), ShownKeys(x, opts, a, rest), ShownKeys(x, opts, b, rest));
      forall i | 0 <= i < |rest| ensures rest[i] == items[i + 1] {}
      if opts.ignoreLeadingThe {
        assert rest == [];
      } else {
        SongsByShown(x, opts, a, b, rest, leadA', leadB');
      }
    }
  }

  // ---- directories among them

  function Copies(k: Key, n: nat): seq<Key> {
    if n == 0 then [] else [k] + Copies(k, n - 1)
  }

  /** A directory stands where a song would whose properties all show its name, in front of it. */
  function DirKeys(x: Externals, opts: SortOptions, name: string, n: nat): seq<Key> {
    Copies(Str(NameKey(x, opts, name)), n) + [Num(0), Str(NameKey(x, opts, name))]
  }

  function SongKeys(x: Externals, opts: SortOptions, s: Song, items: seq<SongProperty>): seq<Key> {
    ShownKeys(x, opts, s, items) + [Num(1)]
  }

  function MixedKeys(x: Externals, opts: SortOptions, e: DirOrSong): seq<Key>
    requires opts.mode.Format?
  {
    match e
    case Dir(name, _, _) => DirKeys(x, opts, name, |opts.mode.items|)
    case SongEntry(s) => SongKeys(x, opts, s, opts.mode.items)
  }

  /** The property shows nothing, or the name. */
  predicate NothingElse(x: Externals, opts: SortOptions, name: string, song: Song, p: SongProperty) {
    ShownKey(x, opts, song, p) == Missing || ShownKey(x, opts, song, p) == Str(NameKey(x, opts, name))
  }

  /** What a comparison without an answer comes to. */
  function Decided(o: Option<Ordering>, songFirst: bool): Ordering {
    if o.Some? then o.value else if songFirst then Greater else Less
  }

  lemma {:induction false} AllSkipped(x: Externals, opts: SortOptions, name: string, song: Song, songFirst: bool,
                                      items: seq<SongProperty>, lead: bool)
    requires forall i | 0 <= i < |items| :: NothingElse(x, opts, name, song, items[i])
    requires !opts.ignoreLeadingThe || items == []
    ensures MixedByItems(x, opts, name, song, songFirst, items, lead) == None
    decreases items
  {
    if items != [] {
      var text := Shown(x, song, items[0]);
      if text.Some? {
        EqIsCompareEqual(x, opts.foldCase, false, false, name, text.value);
        EqIsCompareEqual(x, opts.foldCase, false, false, text.value, name);
      }
      AllSkipped(x, opts, name, song, songFirst, items[1..], if text.Some? then lead && text.value == "" else lead);
    }
  }

  lemma SameFieldSameShown(x: Externals, foldCase: bool, s: Song, p: SongProperty, q: SongProperty)
    requires Placed(x, foldCase, p) && Placed(x, foldCase, q) && FieldOf(p) == FieldOf(q)
    ensures Shown(x, s, p) == Shown(x, s, q)
  {
  }

  /** Behind a property that shows nothing, only the name comes again. */
  lemma BehindMissing(x: Externals, opts: SortOptions, name: string, song: Song, items: seq<SongProperty>, j: nat, i: nat)
    requires j < i < |items| && Placed(x, opts.foldCase, items[j]) && Placed(x, opts.foldCase, items[i])
    requires forall k | 0 <= k < j :: Placed(x, opts.foldCase, items[k]) && NothingElse(x, opts, name, song, items[k])
    requires Together(x, items, j, i) && Shown(x, song, items[j]).None?
    ensures NothingElse(x, opts, name, song, items[i])
  {
    if FieldOf(items[j]) == FieldOf(items[i]) {
      SameFieldSameShown(x, opts.foldCase, song, items[j], items[i]);
    } else {
      var k :| 0 <= k < j && FieldOf(items[k]) == FieldOf(items[i]);
      SameFieldSameShown(x, opts.foldCase, song, items[k], items[i]);
    }
  }

  lemma AllBehindMissing(x: Externals, opts: SortOptions, name: string, song: Song, songFirst: bool, i: nat, lead: bool)
    requires Ungrouped(opts) && PlaceableBy(x, opts) && i < |opts.mode.items|
    requires forall k | 0 <= k < i :: NothingElse(x, opts, name, song, opts.mode.items[k])
    requires Shown(x, song, opts.mode.items[i]).None?
    ensures MixedByItems(x, opts, name, song, songFirst, opts.mode.items[i + 1..], lead) == None
  {
    var later := opts.mode.items[i + 1..];
    forall k | 0 <= k < |later| ensures NothingElse(x, opts, name, song, later[k]) {
      BehindMissing(x, opts, name, song, opts.mode.items, i, i + 1 + k);
    }
    AllSkipped(x, opts, name, song, songFirst, later, lead);
  }

  /** A song against a directory, from property `i` on, is the order of their keys. */
  lemma {:induction false} DirAgainstSong(x: Externals, opts: SortOptions, name: string, song: Song, songFirst: bool,
                                          i: nat, lead: bool)
    requires Ungrouped(opts) && PlaceableBy(x, opts) && i <= |opts.mode.items|
    requires opts.ignoreLeadingThe ==> i == |opts.mode.items| || (i == 0 && lead)
    requires forall k | 0 <= k < i :: NothingElse(x, opts, name, song, opts.mode.items[k])
    ensures var rest := opts.mode.items[i..];
      var keys := Lexicographic(DirKeys(x, opts, name, |rest|), SongKeys(x, opts, song, rest));
      Decided(MixedByItems(x, opts, name, song, songFirst, rest, lead), songFirst) == if songFirst then keys.Flip() else keys
    decreases |opts.mode.items| - i
  {
    var items := opts.mode.items;
    var rest := items[i..];
    var n := NameKey(x, opts, name);
    if rest == [] {
      NoProperties(x, opts, name, song);
    } else {
      var later := items[i + 1..];
      assert rest[0] == items[i] && rest[1..] == later;
      KeysSplit(x, opts, name, song, rest);
      match Shown(x, song, items[i])
      case None =>
        AllBehindMissing(x, opts, name, song, songFirst, i, lead);
      case Some(text) =>
        MixedFirst(x, opts, name, song, songFirst, rest, lead);
        if n == NameKey(x, opts, text) {
          DirAgainstSong(x, opts, name, song, songFirst, i + 1, lead && text == "");
        }
    }
  }

  /** The first text decides unless it is the name. */
  lemma MixedFirst(x: Externals, opts: SortOptions, name: string, song: Song, songFirst: bool,
                   items: seq<SongProperty>, lead: bool)
    requires items != [] && Shown(x, song, items[0]).Some? && (opts.ignoreLeadingThe ==> lead)
    ensures var text := Shown(x, song, items[0]).value;
      var o := CompareString(NameKey(x, opts, name), NameKey(x, opts, text));
      && (o == Equal <==> NameKey(x, opts, name) == NameKey(x, opts, text))
      && MixedByItems(x, opts, name, song, songFirst, items, lead)
         == if o != Equal then Some(if songFirst then o.Flip() else o)
            else MixedByItems(x, opts, name, song, songFirst, items[1..], lead && text == "")
  {
    CompareStringLaws(NameKey(x, opts, name), NameKey(x, opts, Shown(x, song, items[0]).value), "");
  }

  lemma NoProperties(x: Externals, opts: SortOptions, name: string, song: Song)
    ensures Lexicographic(DirKeys(x, opts, name, 0), SongKeys(x, opts, song, [])) == Less
  {
    var n := Str(NameKey(x, opts, name));
    assert DirKeys(x, opts, name, 0) == [Num(0)] + [n] && SongKeys(x, opts, song, []) == [Num(1)] + [];
    FirstKeys(Num(0), Num(1), [n], []);
  }

  /** The first keys decide, or the others do. */
  lemma KeysSplit(x: Externals, opts: SortOptions, name: string, song: Song, items: seq<SongProperty>)
    requires items != []
    ensures var n, k := Str(NameKey(x, opts, name)), ShownKey(x, opts, song, items[0]);
      Lexicographic(DirKeys(x, opts, name, |items|), SongKeys(x, opts, song, items))
      == if CompareKey(n, k) != Equal then CompareKey(n, k)
         else Lexicographic(DirKeys(x, opts, name, |items| - 1), SongKeys(x, opts, song, items[1..]))
  {
    var n, k := Str(NameKey(x, opts, name)), ShownKey(x, opts, song, items[0]);
    assert DirKeys(x, opts, name, |items|) == [n] + DirKeys(x, opts, name, |items| - 1);
    assert SongKeys(x, opts, song, items) == [k] + SongKeys(x, opts, song, items[1..]);
    FirstKeys(n, k, DirKeys(x, opts, name, |items| - 1), SongKeys(x, opts, song, items[1..]));
  }

  lemma {:induction false} SameTail(a: seq<Key>, b: seq<Key>, k: Key)
    requires |a| == |b|
    ensures Lexicographic(a + [k], b + [k]) == Lexicographic(a, b)
  {
    if a == [] {
      assert a + [k] == [k] && b + [k] == [k] && [k][1..] == [];
      CompareKeyLaws(k, k, k);
    } else {
      SameTail(a[1..], b[1..], k);
      assert (a + [k])[1..] == a[1..] + [k] && (b + [k])[1..] == b[1..] + [k];
    }
  }

  lemma {:induction false} KeyPerItem(x: Externals, opts: SortOptions, s: Song, items: seq<SongProperty>)
    ensures |ShownKeys(x, opts, s, items)| == |items|
  {
    if items != [] { KeyPerItem(x, opts, s, items[1..]); }
  }

  lemma {:induction false} DirAgainstDir(x: Externals, opts: SortOptions, a: string, b: string, n: nat)
    ensures Lexicographic(DirKeys(x, opts, a, n), DirKeys(x, opts, b, n))
         == CompareString(NameKey(x, opts, a), NameKey(x, opts, b))
  {
    var k, l := Str(NameKey(x, opts, a)), Str(NameKey(x, opts, b));
    if n == 0 {
      assert DirKeys(x, opts, a, 0) == [Num(0)] + [k] && DirKeys(x, opts, b, 0) == [Num(0)] + [l];
      FirstKeys(Num(0), Num(0), [k], [l]);
      SingleKeys(k, l);
    } else {
      assert DirKeys(x, opts, a, n) == [k] + DirKeys(x, opts, a, n - 1);
      assert DirKeys(x, opts, b, n) == [l] + DirKeys(x, opts, b, n - 1);
      FirstKeys(k, l, DirKeys(x, opts, a, n - 1), DirKeys(x, opts, b, n - 1));
      DirAgainstDir(x, opts, a, b, n - 1);
    }
  }

  /** For such a list every comparison is the order of the entries' own keys. */
  lemma PlacedByKeys(x: Externals, opts: SortOptions, a: DirOrSong, b: DirOrSong)
    requires Ungrouped(opts) && PlaceableBy(x, opts)
    ensures Cmp(x, opts, a, b) == Lexicographic(MixedKeys(x, opts, a), MixedKeys(x, opts, b))
  {
    var items := opts.mode.items;
    assert items[0..] == items;
    match (a, b)
    case (Dir(m, _, _), Dir(n, _, _)) =>
      DirAgainstDir(x, opts, m, n, |items|);
    case (SongEntry(s), SongEntry(t)) =>
      ByItemsIsLexicographic(x, opts, s, t, items, true, true);
      SongsByShown(x, opts, s, t, items, true, true);
      KeyPerItem(x, opts, s, items);
      KeyPerItem(x, opts, t, items);
      SameTail(ShownKeys(x, opts, s, items), ShownKeys(x, opts, t, items), Num(1));
    case (Dir(n, _, _), SongEntry(s)) =>
      DirAgainstSong(x, opts, n, s, false, 0, true);
    case (SongEntry(s), Dir(n, _, _)) =>
      DirAgainstSong(x, opts, n, s, true, 0, true);
      LexicographicLaws(MixedKeys(x, opts, b), MixedKeys(x, opts, a), []);
  }

  ghost predicate Ordered(x: Externals, opts: SortOptions) {
    TotalPreorder((a: DirOrSong, b: DirOrSong) => Cmp(x, opts, a, b))
  }

  lemma PlaceableIsOrdered(x: Externals, opts: SortOptions)
    requires Ungrouped(opts) && PlaceableBy(x, opts)
    ensures Ordered(x, opts)
  {
    forall a: DirOrSong, b: DirOrSong, c: DirOrSong
      ensures Cmp(x, opts, a, a) == Equal
      ensures Cmp(x, opts, b, a) == Cmp(x, opts, a, b).Flip()
      ensures Composes(Cmp(x, opts, a, b), Cmp(x, opts, b, c), Cmp(x, opts, a, c))
    {
      PlacedByKeys(x, opts, a, a);
      PlacedByKeys(x, opts, a, b);
      PlacedByKeys(x, opts, b, a);
      PlacedByKeys(x, opts, b, c);
      PlacedByKeys(x, opts, a, c);
      var ka, kb, kc := MixedKeys(x, opts, a), MixedKeys(x, opts, b), MixedKeys(x, opts, c);
      LexicographicLaws(ka, ka, ka);
      LexicographicLaws(ka, kb, kc);
    }
  }
}
