/**
 For other lists than the placeable ones, directories among songs are not in order.
 */
module MixedLimits {
  import opened Wrappers
  import opened Text
  import opened Sorting
  import opened MixedSorting

  // ---- what is assumed of the libraries

  /** Not changed by folding. */
  predicate Plain(c: char) {
    c as int < 128 && !('A' <= c <= 'Z')
  }

  /** Folding goes character by character and leaves plain ones alone. */
  ghost predicate FoldsByCharacter(x: Externals) {
    x.fold("") == "" && forall c: char, rest: string | Plain(c) :: x.fold([c] + rest) == [c] + x.fold(rest)
  }

  predicate PlainName(s: string) {
    s != "" && '.' !in s && '/' !in s
  }

  /** The path library on plain names. */
  ghost predicate SplitsPaths(x: Externals) {
    forall s: string | PlainName(s) :: x.stem(s) == Some(s) && x.ext(s) == None && x.ext("a." + s) == Some(s)
  }

  predicate IsRate(p: SongProperty) {
    p.SampleRate? || p.Bits? || p.Channels?
  }

  predicate High(s: string) {
    s != "" && s[0] == '9'
  }

  predicate Mid(s: string) {
    s != "" && '2' <= s[0] <= '8'
  }

  predicate Low(s: string) {
    s != "" && s[0] == '1'
  }

  /** Songs can show it high, low, and in between. */
  ghost predicate Varied(x: Externals, p: SongProperty) {
    && (exists n: int :: Occurs(x, p, n) && High(x.show(p, n)))
    && (exists n: int :: Occurs(x, p, n) && Low(x.show(p, n)))
    && (exists n: int :: Occurs(x, p, n) && Mid(x.show(p, n)) && PlainName(x.show(p, n)))
  }

  /** As 9:00 and 10:00, or 9 and 10 bits. */
  ghost predicate OutOfOrder(x: Externals, p: SongProperty) {
    exists m: int, n: int :: m < n && Occurs(x, p, m) && Occurs(x, p, n) && High(x.show(p, m)) && Low(x.show(p, n))
  }

  /** A number is shown in its own order, or clearly out of it, as rates are. */
  ghost predicate Displayed(x: Externals, foldCase: bool, p: SongProperty) {
    Varied(x, p) && (OutOfOrder(x, p) || (InOrder(x, foldCase, p) && !IsRate(p)))
  }

  /** What is assumed for a list of properties. */
  ghost predicate Realistic(x: Externals, opts: SortOptions)
    requires opts.mode.Format?
  {
    && FoldsByCharacter(x) && SplitsPaths(x)
    && forall i | 0 <= i < |opts.mode.items| && IsNumber(opts.mode.items[i]) :: Displayed(x, opts.foldCase, opts.mode.items[i])
  }

  // ---- such libraries exist

  function Zs(n: nat): string {
    if n == 0 then "" else "z" + Zs(n - 1)
  }

  /** Dates in order, other numbers in decimal. */
  function SampleShow(p: SongProperty, n: int): string {
    if p.Added? || p.LastModified? then
      if n <= FIRST_DATE then "1" else if n == FIRST_DATE + 1 then "5" else "9" + Zs(n - FIRST_DATE - 2)
    else if n < 0 then "" else Digits(n)
  }

  function SampleStem(s: string): Option<string> {
    if s == ".." then None else Some(s)
  }

  function SampleExt(s: string): Option<string> {
    if "a." <= s then Some(s[2..]) else None
  }

  function SampleRate(p: SongProperty, text: string): Option<nat> {
    ParseUnsigned(text, U32_MAX)
  }

  const SAMPLE := Externals(Lower, SampleStem, SampleExt, SampleRate, SampleShow)

  lemma {:induction false} MoreZs(m: nat, n: nat)
    requires m < n
    ensures CompareString(Zs(m), Zs(n)) == Less
  {
    if m > 0 {
      MoreZs(m - 1, n - 1);
      assert Zs(m)[1..] == Zs(m - 1) && Zs(n)[1..] == Zs(n - 1);
    }
  }

  lemma {:induction false} LowerZs(n: nat)
    ensures Lower(Zs(n)) == Zs(n)
  {
    if n > 0 { LowerZs(n - 1); }
  }

  lemma SampleDates(p: SongProperty, m: int, n: int)
    requires (p.Added? || p.LastModified?) && FIRST_DATE <= m < n
    ensures CompareString(SampleShow(p, m), SampleShow(p, n)) == Less
  {
    if m > FIRST_DATE + 1 {
      var a, b := Zs(m - FIRST_DATE - 2), Zs(n - FIRST_DATE - 2);
      MoreZs(m - FIRST_DATE - 2, n - FIRST_DATE - 2);
      assert ("9" + a)[1..] == a && ("9" + b)[1..] == b;
    }
  }

  lemma SampleLower(p: SongProperty, n: int)
    requires (p.Added? || p.LastModified?) && FIRST_DATE <= n
    ensures Lower(SampleShow(p, n)) == SampleShow(p, n)
  {
    if n > FIRST_DATE + 1 {
      LowerZs(n - FIRST_DATE - 2);
      assert Lower("9" + Zs(n - FIRST_DATE - 2)) == "9" + Lower(Zs(n - FIRST_DATE - 2));
    }
  }

  lemma SampleInOrder(foldCase: bool, p: SongProperty)
    requires p.Added? || p.LastModified?
    ensures InOrder(SAMPLE, foldCase, p)
  {
    forall n | Occurs(SAMPLE, p, n) ensures SAMPLE.show(p, n) != "" && StripThe(SAMPLE.show(p, n)) == SAMPLE.show(p, n) {
      assert "THE "[0] == 'T' && "The "[0] == 'T' && "the "[0] == 't';
    }
    forall m, n | Occurs(SAMPLE, p, m) && Occurs(SAMPLE, p, n) && m < n
      ensures CompareString(Cased(SAMPLE, foldCase, SAMPLE.show(p, m)), Cased(SAMPLE, foldCase, SAMPLE.show(p, n))) == Less
    {
      SampleLower(p, m);
      SampleLower(p, n);
      SampleDates(p, m, n);
    }
  }

  lemma SampleOccurs(p: SongProperty, n: nat)
    requires IsNumber(p) && !p.Added? && !p.LastModified? && n < 1000
    ensures Occurs(SAMPLE, p, n) && SAMPLE.show(p, n) == Digits(n)
  {
    ParsedNumber(n, U32_MAX);
    assert SAMPLE.rate(p, Digits(n)).Some? && SAMPLE.rate(p, Digits(n)).value == n;
  }

  lemma SampleDisplays(foldCase: bool, p: SongProperty)
    requires IsNumber(p)
    ensures Displayed(SAMPLE, foldCase, p)
  {
    if p.Added? || p.LastModified? {
      SampleInOrder(foldCase, p);
      SampleDatesVary(p);
    } else {
      SampleNumbers(p);
    }
  }

  lemma SampleDatesVary(p: SongProperty)
    requires p.Added? || p.LastModified?
    ensures Varied(SAMPLE, p)
  {
    var n := FIRST_DATE;
    assert Occurs(SAMPLE, p, n) && Low(SAMPLE.show(p, n));
    assert Occurs(SAMPLE, p, n + 1) && Mid(SAMPLE.show(p, n + 1)) && PlainName(SAMPLE.show(p, n + 1));
    assert Occurs(SAMPLE, p, n + 2) && High(SAMPLE.show(p, n + 2));
  }

  lemma SampleNumbers(p: SongProperty)
    requires IsNumber(p) && !p.Added? && !p.LastModified?
    ensures Varied(SAMPLE, p) && OutOfOrder(SAMPLE, p)
  {
    SmallNumbers();
    SampleOccurs(p, 9);
    SampleOccurs(p, 10);
    SampleOccurs(p, 30);
    assert 9 < 10 && High(SAMPLE.show(p, 9)) && Low(SAMPLE.show(p, 10));
    assert Mid(SAMPLE.show(p, 30)) && PlainName(SAMPLE.show(p, 30));
  }

  /** The assumptions can be met, for every list of properties. */
  lemma SampleIsRealistic(opts: SortOptions)
    requires opts.mode.Format?
    ensures Realistic(SAMPLE, opts)
  {
    forall c: char, rest: string | Plain(c) ensures Lower([c] + rest) == [c] + Lower(rest) {}
    forall s: string | PlainName(s) ensures SampleStem(s) == Some(s) && SampleExt(s) == None && SampleExt("a." + s) == Some(s) {
      assert s != ".." by { assert '.' in ".."; }
      assert |s| >= 2 ==> s[1] in s;
    }
    forall i | 0 <= i < |opts.mode.items| && IsNumber(opts.mode.items[i])
      ensures Displayed(SAMPLE, opts.foldCase, opts.mode.items[i])
    {
      SampleDisplays(opts.foldCase, opts.mode.items[i]);
    }
  }

  predicate FromPath(f: Field) {
    f.PathField? || f.StemField? || f.ExtField?
  }

  predicate Separate(items: seq<SongProperty>) {
    forall i, j | 0 <= i < |items| && 0 <= j < |items| ::
      && (FromPath(FieldOf(items[i])) && FromPath(FieldOf(items[j])) ==> FieldOf(items[i]) == FieldOf(items[j]))
      && (IsRate(items[i]) ==> FieldOf(items[j]) != TagField("format"))
  }

  /** The properties can vary on their own: not both the path and its parts, not both a rate and
      the tag it is read from, and no date in front of a tag that is both text and number. */
  ghost predicate Independent(x: Externals, opts: SortOptions)
    requires opts.mode.Format?
  {
    var items := opts.mode.items;
    && Separate(items)
    && (InOrder(x, opts.foldCase, LastModified) && LastModified in items ==>
          forall i, j | 0 <= i < |items| && 0 <= j < |items| && IsText(items[i]) && !IsText(items[j]) ::
            FieldOf(items[i]) != FieldOf(items[j]))
  }

  // ---- comparing by the first character

  predicate Head(c: char) {
    IsDigit(c)
  }

  predicate Below(a: string, b: string) {
    a != "" && b != "" && Head(a[0]) && Head(b[0]) && a[0] < b[0]
  }

  lemma FoldHead(x: Externals, s: string)
    requires FoldsByCharacter(x) && s != "" && Plain(s[0])
    ensures x.fold(s) != "" && x.fold(s)[0] == s[0]
  {
    assert s == [s[0]] + s[1..];
  }

  lemma {:induction false} FoldPlain(x: Externals, s: string)
    requires FoldsByCharacter(x) && forall c | c in s :: Plain(c)
    ensures x.fold(s) == s
  {
    if s != "" {
      assert s == [s[0]] + s[1..];
      FoldPlain(x, s[1..]);
    }
  }

  lemma BelowCompares(x: Externals, foldCase: bool, theA: bool, theB: bool, a: string, b: string)
    requires FoldsByCharacter(x) && Below(a, b)
    ensures Compare(x, foldCase, theA, theB, a, b) == Less && Compare(x, foldCase, theA, theB, b, a) == Greater
  {
    assert StripThe(a) == a && StripThe(b) == b by {
      assert "THE "[0] == 'T' && "The "[0] == 'T' && "the "[0] == 't';
    }
    FoldHead(x, a);
    FoldHead(x, b);
  }

  lemma SameCompares(x: Externals, foldCase: bool, theA: bool, theB: bool, s: string)
    requires theA == theB || (s != "" && Head(s[0]))
    ensures Compare(x, foldCase, theA, theB, s, s) == Equal
  {
    if s != "" && Head(s[0]) {
      assert StripThe(s) == s by { assert "THE "[0] == 'T' && "The "[0] == 'T' && "the "[0] == 't'; }
    }
    EqIsCompareEqual(x, foldCase, theA, theB, s, s);
  }

  /** A directory against a song: nothing or the name up to property `i`, which decides. */
  lemma {:induction false} MixedAt(x: Externals, opts: SortOptions, d: string, song: Song, songFirst: bool,
                                   items: seq<SongProperty>, i: nat, low: bool, lead: bool)
    requires FoldsByCharacter(x) && i < |items|
    requires forall k | 0 <= k < i :: Shown(x, song, items[k]).None? || Shown(x, song, items[k]).value == d
    requires Shown(x, song, items[i]).Some?
    requires if low then Below(Shown(x, song, items[i]).value, d) else Below(d, Shown(x, song, items[i]).value)
    ensures MixedByItems(x, opts, d, song, songFirst, items, lead) == Some(if low == songFirst then Less else Greater)
    decreases i
  {
    var text := Shown(x, song, items[0]);
    var the := lead && opts.ignoreLeadingThe;
    if i == 0 {
      if low { BelowCompares(x, opts.foldCase, the, the, text.value, d); }
      else { BelowCompares(x, opts.foldCase, the, the, d, text.value); }
    } else {
      SameCompares(x, opts.foldCase, the, the, d);
      forall k | 0 <= k < i - 1 ensures items[1..][k] == items[k + 1] {}
      MixedAt(x, opts, d, song, songFirst, items[1..], i - 1, low, if text.Some? then lead && text.value == "" else lead);
    }
  }

  /** The same in both songs, with no "the" in front. */
  predicate Alike(x: Externals, a: Song, b: Song, p: SongProperty) {
    if IsNumber(p) then Number(x, a, p) == Number(x, b, p)
    else IsText(p) && TextOf(x, a, p) == TextOf(x, b, p)
         && (TextOf(x, a, p).Some? ==> TextOf(x, a, p).value != "" && Head(TextOf(x, a, p).value[0]))
  }

  lemma AlikeIsEqual(x: Externals, a: Song, b: Song, p: SongProperty, foldCase: bool, theA: bool, theB: bool)
    requires Alike(x, a, b, p)
    ensures SongCmp(x, a, b, p, foldCase, theA, theB).ordering == Equal
  {
    if !IsNumber(p) && TextOf(x, a, p).Some? { SameCompares(x, foldCase, theA, theB, TextOf(x, a, p).value); }
  }

  /** Two songs alike up to property `i`, which decides. */
  lemma {:induction false} SongsAt(x: Externals, opts: SortOptions, a: Song, b: Song, items: seq<SongProperty>, i: nat,
                                   leadA: bool, leadB: bool)
    requires i < |items|
    requires forall k | 0 <= k < i :: Alike(x, a, b, items[k])
    requires forall theA, theB :: SongCmp(x, a, b, items[i], opts.foldCase, theA, theB).ordering == Less
    ensures ByItems(x, opts, a, b, items, leadA, leadB) == Less
    decreases i
  {
    var theA, theB := leadA && opts.ignoreLeadingThe, leadB && opts.ignoreLeadingThe;
    if i > 0 {
      AlikeIsEqual(x, a, b, items[0], opts.foldCase, theA, theB);
      forall k | 0 <= k < i - 1 ensures items[1..][k] == items[k + 1] {}
      var r := SongCmp(x, a, b, items[0], opts.foldCase, theA, theB);
      SongsAt(x, opts, a, b, items[1..], i - 1, leadA && r.firstEmpty, leadB && r.secondEmpty);
    } else {
      assert SongCmp(x, a, b, items[i], opts.foldCase, theA, theB).ordering == Less;
    }
  }

  // ---- songs made to order

  /** A song whose field shows `text`. */
  function Put(s: Song, f: Field, text: string): Song {
    match f
    case PathField => s.(file := text)
    case StemField => s.(file := text)
    case ExtField => s.(file := "a." + text)
    case TagField(tag) => s.(tags := s.tags[tag := TagValues(text, [])])
    case NumberField(_) => s
  }

  lemma PutShows(x: Externals, s: Song, p: SongProperty, text: string)
    requires SplitsPaths(x) && PlainName(text) && IsText(p)
    ensures TextOf(x, Put(s, FieldOf(p), text), p) == Some(text)
  {
    assert TagValues(text, []).Join() == text + "" == text;
  }

  /** The songs differ in the field of one property only. */
  ghost predicate DifferIn(s: Song, t: Song, p: SongProperty) {
    && (FromPath(FieldOf(p)) || t.file == s.file)
    && (p.Duration? || t.duration == s.duration)
    && (p.Added? || t.added == s.added)
    && (p.LastModified? || t.lastModified == s.lastModified)
    && (forall tag | TagField(tag) != FieldOf(p) && !(IsRate(p) && tag == "format") ::
          (tag in t.tags <==> tag in s.tags) && (tag in s.tags ==> t.tags[tag] == s.tags[tag]))
  }

  /** The song has the number, and otherwise is like `s`. */
  lemma PutNumber(x: Externals, s: Song, p: SongProperty, n: int) returns (t: Song)
    requires IsNumber(p) && Occurs(x, p, n)
    ensures Number(x, t, p) == Some(n) && DifferIn(s, t, p)
  {
    if IsRate(p) {
      var text :| x.rate(p, text).Some? && x.rate(p, text).value == n;
      t := s.(tags := s.tags["format" := TagValues(text, [])]);
    } else {
      t := if p.Duration? then s.(duration := Some(n))
           else if p.Added? then s.(added := Some(n)) else s.(lastModified := n);
    }
  }

  lemma SmallNumbers()
    ensures Digits(8) == "8" && Digits(9) == "9" && Digits(10) == "10" && Digits(99) == "99" && Digits(100) == "100"
    ensures Digits(30) == "30" && Digits(31) == "31" && Digits(130) == "130" && Digits(131) == "131"
  {
    assert Digits(13) == "13";
  }

  lemma ParsedNumber(n: nat, max: nat)
    requires n <= I32_MAX <= max
    ensures ParseUnsigned(Digits(n), max) == Some(n) && ParseI32(Digits(n)) == Some(n)
  {
    ParseDigits(n, max);
    ParseDigits(n, I32_MAX);
    assert IsDigit(Digits(n)[0]);
  }

  /** What a track, disc or position with one number is shown and compared as. */
  lemma NumberTag(x: Externals, s: Song, p: SongProperty, n: nat)
    requires (p.Track? || p.Disc? || p.Position?) && 8 <= n < 1000
    requires FieldOf(p).TagField? && FieldOf(p).tag in s.tags && s.tags[FieldOf(p).tag] == TagValues(Digits(n), [])
    ensures TextOf(x, s, p) == Some(Digits(n)) && ParseFor(p)(Digits(n)) == Some(n)
    ensures Shown(x, s, p) == Some(if p.Track? then Padded(Digits(n)) else if p.Position? then Digits(n + 1) else Digits(n))
  {
    assert TagValues(Digits(n), []).Join() == Digits(n) + "" == Digits(n);
    ParsedNumber(n, U32_MAX);
    ParsedNumber(n, U64_MAX);
  }

  /** A song like `s` whose property `p` shows something small. */
  lemma LowSong(x: Externals, opts: SortOptions, s: Song, p: SongProperty) returns (t: Song)
    requires opts.mode.Format? && Realistic(x, opts) && p in opts.mode.items
    ensures Shown(x, t, p).Some? && Low(Shown(x, t, p).value) && DifferIn(s, t, p)
  {
    SmallNumbers();
    if IsNumber(p) {
      assert Varied(x, p);
      var n: int :| Occurs(x, p, n) && Low(x.show(p, n));
      t := PutNumber(x, s, p, n);
    } else if IsText(p) {
      t := Put(s, FieldOf(p), "1");
      PutShows(x, s, p, "1");
    } else {
      var n := if p.Position? then 9 else 10;
      t := Put(s, FieldOf(p), Digits(n));
      NumberTag(x, t, p, n);
    }
  }

  /** A song like `s` whose text or number shows something large. */
  lemma HighSong(x: Externals, opts: SortOptions, s: Song, p: SongProperty) returns (t: Song)
    requires opts.mode.Format? && Realistic(x, opts) && p in opts.mode.items && Placed(x, opts.foldCase, p)
    ensures Shown(x, t, p).Some? && High(Shown(x, t, p).value) && DifferIn(s, t, p)
  {
    if IsNumber(p) {
      assert Varied(x, p);
      var n: int :| Occurs(x, p, n) && High(x.show(p, n));
      t := PutNumber(x, s, p, n);
    } else {
      t := Put(s, FieldOf(p), "9");
      PutShows(x, s, p, "9");
    }
  }

  /** Two songs in the order of their numbers, but not of what they show. */
  lemma TwoNumbers(x: Externals, opts: SortOptions, s: Song, p: SongProperty) returns (a: Song, b: Song)
    requires opts.mode.Format? && Realistic(x, opts) && p in opts.mode.items && !Placed(x, opts.foldCase, p)
    ensures DifferIn(s, a, p) && DifferIn(s, b, p)
    ensures Shown(x, a, p).Some? && High(Shown(x, a, p).value)
    ensures Shown(x, b, p).Some? && Low(Shown(x, b, p).value)
    ensures forall theA, theB :: SongCmp(x, a, b, p, opts.foldCase, theA, theB).ordering == Less
  {
    if IsNumber(p) {
      assert Displayed(x, opts.foldCase, p) && OutOfOrder(x, p);
      a, b := TwoCounts(x, s, p, opts.foldCase);
    } else {
      a, b := TwoTags(x, s, p, opts.foldCase);
    }
  }

  lemma TwoCounts(x: Externals, s: Song, p: SongProperty, foldCase: bool) returns (a: Song, b: Song)
    requires IsNumber(p) && OutOfOrder(x, p)
    ensures DifferIn(s, a, p) && DifferIn(s, b, p)
    ensures Shown(x, a, p).Some? && High(Shown(x, a, p).value)
    ensures Shown(x, b, p).Some? && Low(Shown(x, b, p).value)
    ensures forall theA, theB :: SongCmp(x, a, b, p, foldCase, theA, theB).ordering == Less
  {
    var m: int, n: int :| m < n && Occurs(x, p, m) && Occurs(x, p, n) && High(x.show(p, m)) && Low(x.show(p, n));
    a := PutNumber(x, s, p, m);
    b := PutNumber(x, s, p, n);
  }

  lemma TwoTags(x: Externals, s: Song, p: SongProperty, foldCase: bool) returns (a: Song, b: Song)
    requires p.Track? || p.Disc? || p.Position?
    ensures DifferIn(s, a, p) && DifferIn(s, b, p)
    ensures Shown(x, a, p).Some? && High(Shown(x, a, p).value)
    ensures Shown(x, b, p).Some? && Low(Shown(x, b, p).value)
    ensures forall theA, theB :: SongCmp(x, a, b, p, foldCase, theA, theB).ordering == Less
  {
    SmallNumbers();
    var m, n := if p.Position? then 8 else if p.Track? then 99 else 9, if p.Position? then 9 else if p.Track? then 100 else 10;
    a := OneTag(x, s, p, m);
    b := OneTag(x, s, p, n);
    NumbersLess(x, a, b, p, foldCase, m, n);
  }

  lemma OneTag(x: Externals, s: Song, p: SongProperty, n: nat) returns (t: Song)
    requires (p.Track? || p.Disc? || p.Position?) && 8 <= n < 1000
    ensures DifferIn(s, t, p)
    ensures TextOf(x, t, p) == Some(Digits(n)) && ParseFor(p)(Digits(n)) == Some(n)
    ensures Shown(x, t, p) == Some(if p.Track? then Padded(Digits(n)) else if p.Position? then Digits(n + 1) else Digits(n))
  {
    t := Put(s, FieldOf(p), Digits(n));
    NumberTag(x, t, p, n);
  }

  lemma NumbersLess(x: Externals, a: Song, b: Song, p: SongProperty, foldCase: bool, m: nat, n: nat)
    requires (p.Track? || p.Disc? || p.Position?) && m < n
    requires TextOf(x, a, p).Some? && ParseFor(p)(TextOf(x, a, p).value) == Some(m)
    requires TextOf(x, b, p).Some? && ParseFor(p)(TextOf(x, b, p).value) == Some(n)
    ensures forall theA, theB :: SongCmp(x, a, b, p, foldCase, theA, theB).ordering == Less
  {
  }

  // ---- a name that every song can show

  /** Properties that differ in no field of `q`. */
  predicate Unrelated(p: SongProperty, q: SongProperty) {
    && FieldOf(p) != FieldOf(q) && !(FromPath(FieldOf(p)) && FromPath(FieldOf(q)))
    && !(IsRate(p) && IsRate(q))
    && !(IsRate(q) && FieldOf(p) == TagField("format")) && !(IsRate(p) && FieldOf(q) == TagField("format"))
  }

  lemma Untouched(x: Externals, s: Song, t: Song, q: SongProperty, p: SongProperty)
    requires DifferIn(s, t, q) && Unrelated(p, q)
    ensures Shown(x, t, p) == Shown(x, s, p) && TextOf(x, t, p) == TextOf(x, s, p)
    ensures IsNumber(p) ==> Number(x, t, p) == Number(x, s, p)
  {
    if IsNumber(p) { NumberUntouched(x, s, t, q, p); }
    else if FieldOf(p).TagField? { TagUntouched(x, s, t, q, p); }
  }

  lemma NumberUntouched(x: Externals, s: Song, t: Song, q: SongProperty, p: SongProperty)
    requires DifferIn(s, t, q) && Unrelated(p, q) && IsNumber(p)
    ensures Number(x, t, p) == Number(x, s, p)
  {
    if IsRate(p) { assert TagField("format") != FieldOf(q); }
  }

  lemma TagUntouched(x: Externals, s: Song, t: Song, q: SongProperty, p: SongProperty)
    requires DifferIn(s, t, q) && Unrelated(p, q) && FieldOf(p).TagField?
    ensures Shown(x, t, p) == Shown(x, s, p) && TextOf(x, t, p) == TextOf(x, s, p)
  {
    var tag := FieldOf(p).tag;
    assert (tag in t.tags <==> tag in s.tags) && (tag in s.tags ==> t.tags[tag] == s.tags[tag]);
    if IsText(p) { SameTextTag(x, s, t, p); } else { SameNumberTag(x, s, t, p); }
  }

  lemma SameTextTag(x: Externals, s: Song, t: Song, p: SongProperty)
    requires FieldOf(p).TagField? && IsText(p)
    requires Joined(t, FieldOf(p).tag) == Joined(s, FieldOf(p).tag)
    ensures Shown(x, t, p) == Shown(x, s, p) && TextOf(x, t, p) == TextOf(x, s, p)
  {
  }

  lemma SameNumberTag(x: Externals, s: Song, t: Song, p: SongProperty)
    requires FieldOf(p).TagField? && !IsText(p)
    requires Joined(t, FieldOf(p).tag) == Joined(s, FieldOf(p).tag) && LastOf(t, FieldOf(p).tag) == LastOf(s, FieldOf(p).tag)
    ensures Shown(x, t, p) == Shown(x, s, p) && TextOf(x, t, p) == TextOf(x, s, p)
  {
  }

  /** A song without tags that shows the name for every property no song lacks. */
  ghost predicate ShowsName(x: Externals, opts: SortOptions, s: Song, d: string)
    requires opts.mode.Format?
  {
    && Mid(d) && PlainName(d) && s.tags == map[] && s.duration == None && s.added == None
    && (s.file == d || (forall k | 0 <= k < |opts.mode.items| && FromPath(FieldOf(opts.mode.items[k])) ::
                          !Always(x, opts.mode.items[k])))
    && (forall k | 0 <= k < |opts.mode.items| && Placed(x, opts.foldCase, opts.mode.items[k]) && Always(x, opts.mode.items[k]) ::
          Shown(x, s, opts.mode.items[k]) == Some(d))
  }

  lemma NameSong(x: Externals, opts: SortOptions) returns (s: Song, d: string)
    requires opts.mode.Format? && Realistic(x, opts)
    ensures ShowsName(x, opts, s, d) && s.file == d
  {
    if InOrder(x, opts.foldCase, LastModified) && LastModified in opts.mode.items {
      assert Displayed(x, opts.foldCase, LastModified);
      s, d := DateSong(x);
    } else {
      d := "5";
      s := Song(d, map[], None, None, 0);
    }
    assert x.stem(d) == Some(d);
    NameShown(x, opts, s, d);
  }

  lemma DateSong(x: Externals) returns (s: Song, d: string)
    requires Varied(x, LastModified)
    ensures Mid(d) && PlainName(d) && s.file == d && s.tags == map[] && s.duration == None && s.added == None
    ensures x.show(LastModified, s.lastModified) == d
  {
    var n: int :| Occurs(x, LastModified, n) && Mid(x.show(LastModified, n)) && PlainName(x.show(LastModified, n));
    d := x.show(LastModified, n);
    s := Song(d, map[], None, None, n);
  }

  lemma NameShown(x: Externals, opts: SortOptions, s: Song, d: string)
    requires opts.mode.Format? && Mid(d) && PlainName(d) && s.tags == map[] && s.duration == None && s.added == None
    requires s.file == d && x.stem(d) == Some(d)
    requires InOrder(x, opts.foldCase, LastModified) && LastModified in opts.mode.items ==> x.show(LastModified, s.lastModified) == d
    ensures ShowsName(x, opts, s, d)
  {
    var items := opts.mode.items;
    forall k | 0 <= k < |items| && Placed(x, opts.foldCase, items[k]) && Always(x, items[k])
      ensures Shown(x, s, items[k]) == Some(d)
    {
      assert items[k] in items;
    }
  }

  /** The same without `p`, which some songs lack. */
  lemma Lacking(x: Externals, opts: SortOptions, s: Song, d: string, p: SongProperty) returns (t: Song)
    requires opts.mode.Format? && SplitsPaths(x) && Separate(opts.mode.items) && ShowsName(x, opts, s, d) && s.file == d
    requires p in opts.mode.items && Placed(x, opts.foldCase, p) && !Always(x, p)
    ensures ShowsName(x, opts, t, d) && Shown(x, t, p) == None
  {
    if p.Filename? {
      t := LackingStem(x, opts, s, d);
    } else {
      t := s;
      LackingOther(x, s, p);
    }
  }

  lemma LackingOther(x: Externals, s: Song, p: SongProperty)
    requires s.tags == map[] && s.duration == None && s.added == None && x.ext(s.file) == None
    requires !p.File? && !p.Filename? && !p.LastModified? && (IsText(p) || IsNumber(p))
    ensures Shown(x, s, p) == None
  {
  }

  lemma LackingStem(x: Externals, opts: SortOptions, s: Song, d: string) returns (t: Song)
    requires opts.mode.Format? && Separate(opts.mode.items) && ShowsName(x, opts, s, d)
    requires Filename in opts.mode.items && !Always(x, Filename)
    ensures ShowsName(x, opts, t, d) && Shown(x, t, Filename) == None
  {
    var items := opts.mode.items;
    var file :| x.stem(file) == None;
    t := s.(file := file);
    var j :| 0 <= j < |items| && items[j] == Filename;
    forall k | 0 <= k < |items| && FromPath(FieldOf(items[k])) ensures items[k] == Filename {
      assert FieldOf(items[k]) == FieldOf(items[j]);
    }
    forall k | 0 <= k < |items| && Placed(x, opts.foldCase, items[k]) && Always(x, items[k])
      ensures Shown(x, t, items[k]) == Some(d)
    {
      assert items[k].LastModified? && Shown(x, t, items[k]) == Shown(x, s, items[k]);
    }
  }

  /** Properties in front that no song lacks still show the name in a song that differs in `q`. */
  lemma StillShown(x: Externals, opts: SortOptions, s: Song, t: Song, d: string, i: nat, p: SongProperty)
    requires opts.mode.Format? && i < |opts.mode.items| && Separate(opts.mode.items)
    requires ShowsName(x, opts, s, d) && DifferIn(s, t, opts.mode.items[i])
    requires p in opts.mode.items && Placed(x, opts.foldCase, p) && Always(x, p) && FieldOf(p) != FieldOf(opts.mode.items[i])
    ensures Shown(x, t, p) == Some(d) && Alike(x, s, t, p)
  {
    var k :| 0 <= k < |opts.mode.items| && opts.mode.items[k] == p;
    assert Unrelated(p, opts.mode.items[i]);
    Untouched(x, s, t, opts.mode.items[i], p);
  }

  lemma AlikeBoth(x: Externals, s: Song, a: Song, b: Song, p: SongProperty)
    requires Alike(x, s, a, p) && Alike(x, s, b, p)
    ensures Alike(x, a, b, p)
  {
  }

  // ---- no order

  lemma OrderedLaws(x: Externals, opts: SortOptions, a: DirOrSong, b: DirOrSong, c: DirOrSong)
    requires Ordered(x, opts)
    ensures Cmp(x, opts, a, c) == Cmp(x, opts, c, a).Flip()
    ensures Composes(Cmp(x, opts, a, b), Cmp(x, opts, b, c), Cmp(x, opts, a, c))
  {
    var cmp := (a: DirOrSong, b: DirOrSong) => Cmp(x, opts, a, b);
    assert cmp(a, c) == cmp(c, a).Flip();
    assert Composes(cmp(a, b), cmp(b, c), cmp(a, c));
  }

  lemma CycleBreaks(x: Externals, opts: SortOptions, a: DirOrSong, b: DirOrSong, c: DirOrSong)
    requires Cmp(x, opts, a, b) == Less && Cmp(x, opts, b, c) == Less && Cmp(x, opts, c, a) == Less
    ensures !Ordered(x, opts)
  {
    if Ordered(x, opts) { OrderedLaws(x, opts, a, b, c); }
  }

  lemma TieBreaks(x: Externals, opts: SortOptions, a: DirOrSong, b: DirOrSong, c: DirOrSong)
    requires Cmp(x, opts, a, b) == Equal && Cmp(x, opts, a, c) != Cmp(x, opts, b, c)
    ensures !Ordered(x, opts)
  {
    if Ordered(x, opts) { OrderedLaws(x, opts, a, b, c); }
  }

  function Directory(name: string): DirOrSong {
    Dir(name, 0, false)
  }

  /** Numbers that are shown out of order, behind properties that no song lacks. */
  lemma NumbersBreak(x: Externals, opts: SortOptions, i: nat)
    requires Ungrouped(opts) && Realistic(x, opts) && Independent(x, opts) && i < |opts.mode.items|
    requires forall k | 0 <= k < i :: Placed(x, opts.foldCase, opts.mode.items[k]) && Always(x, opts.mode.items[k])
    requires !Placed(x, opts.foldCase, opts.mode.items[i])
    ensures !Ordered(x, opts)
  {
    var items := opts.mode.items;
    var s, d := NameSong(x, opts);
    var a, b := TwoNumbers(x, opts, s, items[i]);
    NumbersBehind(x, opts, s, a, b, d, i);
    SongsAt(x, opts, a, b, items, i, true, true);
    MixedAt(x, opts, d, b, true, items, i, true, true);
    MixedAt(x, opts, d, a, false, items, i, false, true);
    CycleBreaks(x, opts, SongEntry(a), SongEntry(b), Directory(d));
  }

  lemma NumbersBehind(x: Externals, opts: SortOptions, s: Song, a: Song, b: Song, d: string, i: nat)
    requires opts.mode.Format? && i < |opts.mode.items| && Separate(opts.mode.items)
    requires forall k | 0 <= k < i :: Placed(x, opts.foldCase, opts.mode.items[k]) && Always(x, opts.mode.items[k])
    requires !Placed(x, opts.foldCase, opts.mode.items[i])
    requires ShowsName(x, opts, s, d) && DifferIn(s, a, opts.mode.items[i]) && DifferIn(s, b, opts.mode.items[i])
    ensures forall k | 0 <= k < i :: Shown(x, a, opts.mode.items[k]) == Some(d) && Shown(x, b, opts.mode.items[k]) == Some(d)
    ensures forall k | 0 <= k < i :: Alike(x, a, b, opts.mode.items[k])
  {
    forall k | 0 <= k < i
      ensures Shown(x, a, opts.mode.items[k]) == Some(d) && Shown(x, b, opts.mode.items[k]) == Some(d)
      ensures Alike(x, a, b, opts.mode.items[k])
    {
      var p := opts.mode.items[k];
      if FieldOf(p) == FieldOf(opts.mode.items[i]) { SameFieldPlaced(x, opts.foldCase, p, opts.mode.items[i]); }
      StillShown(x, opts, s, a, d, i, p);
      StillShown(x, opts, s, b, d, i, p);
      AlikeBoth(x, s, a, b, p);
    }
  }

  lemma SameFieldPlaced(x: Externals, foldCase: bool, p: SongProperty, q: SongProperty)
    requires FieldOf(p) == FieldOf(q) && Always(x, p) && Placed(x, foldCase, p)
    ensures Placed(x, foldCase, q)
  {
  }

  /** Up to property `i` only fields that no song lacks, all seen before property `j`, and the
      field of property `j`, which some song lacks. */
  ghost predicate OneField(x: Externals, opts: SortOptions, j: nat, i: nat)
    requires opts.mode.Format?
  {
    var items := opts.mode.items;
    && j < i <= |items| && !Always(x, items[j])
    && (forall k | 0 <= k < i :: Placed(x, opts.foldCase, items[k]))
    && (forall k | 0 <= k < j :: Always(x, items[k]))
    && (forall k | 0 <= k < i :: FieldOf(items[k]) == FieldOf(items[j])
          || (Always(x, items[k]) && exists m | 0 <= m < j :: FieldOf(items[m]) == FieldOf(items[k])))
  }

  /** Behind an optional field another one: a song without the first is placed by the second,
      but comes last among songs. */
  lemma GapBreaks(x: Externals, opts: SortOptions, j: nat, i: nat)
    requires Ungrouped(opts) && Realistic(x, opts) && Independent(x, opts)
    requires i < |opts.mode.items| && OneField(x, opts, j, i)
    requires !Together(x, opts.mode.items, j, i)
    ensures !Ordered(x, opts)
  {
    var items := opts.mode.items;
    var one, two, d := GapSongs(x, opts, j, i);
    GapCycle(x, opts, one, two, d, j, i);
  }

  lemma GapCycle(x: Externals, opts: SortOptions, one: Song, two: Song, d: string, j: nat, i: nat)
    requires Ungrouped(opts) && FoldsByCharacter(x) && j < i < |opts.mode.items| && Mid(d)
    requires forall k | 0 <= k < j :: Alike(x, one, two, opts.mode.items[k]) && Shown(x, one, opts.mode.items[k]) == Some(d)
    requires forall k | 0 <= k < i :: Shown(x, two, opts.mode.items[k]) == None || Shown(x, two, opts.mode.items[k]) == Some(d)
    requires Shown(x, one, opts.mode.items[j]).Some? && High(Shown(x, one, opts.mode.items[j]).value)
    requires forall theA, theB :: SongCmp(x, one, two, opts.mode.items[j], opts.foldCase, theA, theB).ordering == Less
    requires Shown(x, two, opts.mode.items[i]).Some? && Low(Shown(x, two, opts.mode.items[i]).value)
    ensures !Ordered(x, opts)
  {
    var items := opts.mode.items;
    SongsAt(x, opts, one, two, items, j, true, true);
    MixedAt(x, opts, d, two, true, items, i, true, true);
    MixedAt(x, opts, d, one, false, items, j, false, true);
    CycleBreaks(x, opts, SongEntry(one), SongEntry(two), Directory(d));
  }

  lemma GapSongs(x: Externals, opts: SortOptions, j: nat, i: nat) returns (one: Song, two: Song, d: string)
    requires Ungrouped(opts) && Realistic(x, opts) && Independent(x, opts)
    requires i < |opts.mode.items| && OneField(x, opts, j, i)
    requires !Together(x, opts.mode.items, j, i)
    ensures Mid(d)
    ensures forall k | 0 <= k < j :: Alike(x, one, two, opts.mode.items[k]) && Shown(x, one, opts.mode.items[k]) == Some(d)
    ensures forall k | 0 <= k < i :: Shown(x, two, opts.mode.items[k]) == None || Shown(x, two, opts.mode.items[k]) == Some(d)
    ensures Shown(x, one, opts.mode.items[j]).Some? && High(Shown(x, one, opts.mode.items[j]).value)
    ensures forall theA, theB :: SongCmp(x, one, two, opts.mode.items[j], opts.foldCase, theA, theB).ordering == Less
    ensures Shown(x, two, opts.mode.items[i]).Some? && Low(Shown(x, two, opts.mode.items[i]).value)
  {
    var items := opts.mode.items;
    var p, q := items[j], items[i];
    var s, name := NameSong(x, opts);
    d := name;
    var t := Lacking(x, opts, s, d, p);
    one := HighSong(x, opts, t, p);
    two := LowSong(x, opts, t, q);
    PlacedIsNoRate(x, opts, p);
    GapBetween(x, opts, t, one, two, d, j, i);
  }

  lemma GapBetween(x: Externals, opts: SortOptions, t: Song, one: Song, two: Song, d: string, j: nat, i: nat)
    requires opts.mode.Format? && Separate(opts.mode.items) && ShowsName(x, opts, t, d)
    requires i < |opts.mode.items| && OneField(x, opts, j, i) && !Together(x, opts.mode.items, j, i)
    requires !IsRate(opts.mode.items[j]) && Shown(x, t, opts.mode.items[j]) == None
    requires DifferIn(t, one, opts.mode.items[j]) && Shown(x, one, opts.mode.items[j]).Some?
    requires DifferIn(t, two, opts.mode.items[i])
    ensures forall k | 0 <= k < j :: Alike(x, one, two, opts.mode.items[k]) && Shown(x, one, opts.mode.items[k]) == Some(d)
    ensures forall k | 0 <= k < i :: Shown(x, two, opts.mode.items[k]) == None || Shown(x, two, opts.mode.items[k]) == Some(d)
    ensures forall theA, theB :: SongCmp(x, one, two, opts.mode.items[j], opts.foldCase, theA, theB).ordering == Less
  {
    var items := opts.mode.items;
    var p, q := items[j], items[i];
    assert Unrelated(p, q);
    Untouched(x, t, two, q, p);
    MissingIsLess(x, opts, one, two, p);
    forall k | 0 <= k < j ensures Alike(x, one, two, items[k]) && Shown(x, one, items[k]) == Some(d) {
      InFront(x, opts, j, i, k);
      StillShown(x, opts, t, one, d, j, items[k]);
      StillShown(x, opts, t, two, d, i, items[k]);
      AlikeBoth(x, t, one, two, items[k]);
    }
    forall k | 0 <= k < i ensures Shown(x, two, items[k]) == None || Shown(x, two, items[k]) == Some(d) {
      if FieldOf(items[k]) == FieldOf(p) {
        SameFieldSameShown(x, opts.foldCase, two, items[k], p);
      } else {
        var m :| 0 <= m < j && FieldOf(items[m]) == FieldOf(items[k]);
        SameFieldSameShown(x, opts.foldCase, two, items[m], items[k]);
        InFront(x, opts, j, i, m);
        StillShown(x, opts, t, two, d, i, items[m]);
      }
    }
  }

  /** A property in front of the optional one has a field of its own. */
  lemma InFront(x: Externals, opts: SortOptions, j: nat, i: nat, k: nat)
    requires opts.mode.Format? && i < |opts.mode.items| && OneField(x, opts, j, i) && !Together(x, opts.mode.items, j, i) && k < j
    ensures FieldOf(opts.mode.items[k]) != FieldOf(opts.mode.items[j])
    ensures FieldOf(opts.mode.items[k]) != FieldOf(opts.mode.items[i])
  {
    if FieldOf(opts.mode.items[k]) == FieldOf(opts.mode.items[j]) {
      SameFieldAlways(x, opts.mode.items[k], opts.mode.items[j]);
    }
  }

  /** What is shown in order is not shown out of order. */
  lemma PlacedIsNoRate(x: Externals, opts: SortOptions, p: SongProperty)
    requires opts.mode.Format? && Realistic(x, opts) && p in opts.mode.items && Placed(x, opts.foldCase, p)
    ensures !IsRate(p)
  {
    if IsRate(p) {
      assert Displayed(x, opts.foldCase, p);
      OutIsNotIn(x, opts.foldCase, p);
    }
  }

  lemma OutIsNotIn(x: Externals, foldCase: bool, p: SongProperty)
    requires FoldsByCharacter(x) && OutOfOrder(x, p)
    ensures !InOrder(x, foldCase, p)
  {
    var m: int, n: int :| m < n && Occurs(x, p, m) && Occurs(x, p, n) && High(x.show(p, m)) && Low(x.show(p, n));
    HighAboveLow(x, foldCase, x.show(p, m), x.show(p, n));
  }

  lemma HighAboveLow(x: Externals, foldCase: bool, s: string, t: string)
    requires FoldsByCharacter(x) && High(s) && Low(t)
    ensures CompareString(Cased(x, foldCase, s), Cased(x, foldCase, t)) == Greater
  {
    FoldHead(x, s);
    FoldHead(x, t);
  }

  lemma MissingIsLess(x: Externals, opts: SortOptions, one: Song, two: Song, p: SongProperty)
    requires Placed(x, opts.foldCase, p) && Shown(x, one, p).Some? && Shown(x, two, p).None?
    ensures forall theA, theB :: SongCmp(x, one, two, p, opts.foldCase, theA, theB).ordering == Less
  {
  }

  // ---- one tag as text and as a number

  /** The tag's values: joined the same, the last one different. */
  const JOINED_1 := TagValues("2", ["130"])
  const JOINED_2 := TagValues("21", ["30"])

  function WithTag(tag: string, v: TagValues): Song {
    Song("2130", map[tag := v], None, None, 0)
  }

  lemma BothJoin()
    ensures JOINED_1.Join() == "2130" && JOINED_2.Join() == "2130" && JOINED_1.Last() == "130" && JOINED_2.Last() == "30"
  {
    assert Concat(["130"]) == "130" + Concat([]) && Concat(["30"]) == "30" + Concat([]);
  }

  /** What they show. */
  lemma LastShown(x: Externals, p: SongProperty)
    requires p.Track? || p.Disc? || p.Position?
    ensures var a, b := WithTag(FieldOf(p).tag, JOINED_1), WithTag(FieldOf(p).tag, JOINED_2);
      && Shown(x, a, p).Some? && Below(Shown(x, a, p).value, "2130")
      && Shown(x, b, p).Some? && Below("2130", Shown(x, b, p).value)
      && (p.Position? ==> TextOf(x, a, p) == Some("130") && TextOf(x, b, p) == Some("30")
                          && ParseUsize("130") == Some(130) && ParseUsize("30") == Some(30))
  {
    BothJoin();
    SmallNumbers();
    LastOneShown(x, p, JOINED_1, 130);
    LastOneShown(x, p, JOINED_2, 30);
  }

  lemma LastOneShown(x: Externals, p: SongProperty, v: TagValues, n: nat)
    requires (p.Track? || p.Disc? || p.Position?) && 10 <= n < 1000 && v.Last() == Digits(n) && |Digits(n)| >= 2
    ensures var s := WithTag(FieldOf(p).tag, v);
      && Shown(x, s, p) == Some(if p.Position? then Digits(n + 1) else Digits(n))
      && (p.Position? ==> TextOf(x, s, p) == Some(Digits(n)) && ParseUsize(Digits(n)) == Some(n))
  {
    ParseDigits(n, U32_MAX);
    ParseDigits(n, U64_MAX);
  }

  /** Two songs with the same keys are equal. */
  lemma {:induction false} SameKeysSame(x: Externals, opts: SortOptions, a: Song, b: Song, items: seq<SongProperty>, lead: bool)
    requires forall p :: IsText(p) ==> TextOf(x, a, p) == TextOf(x, b, p)
    requires forall p | IsNumber(p) :: Number(x, a, p) == Number(x, b, p)
    requires forall p | !IsText(p) && !IsNumber(p) :: TextOf(x, a, p) == TextOf(x, b, p)
    ensures KeysOf(x, opts, a, items, lead) == KeysOf(x, opts, b, items, lead)
  {
    if items != [] {
      var p := items[0];
      assert Empty(x, a, p) == Empty(x, b, p);
      SameKeysSame(x, opts, a, b, items[1..], lead && Empty(x, a, p));
    }
  }

  lemma SharedTagTies(x: Externals, opts: SortOptions, tag: string)
    requires Ungrouped(opts) && (tag == "track" || tag == "disc")
    ensures Cmp(x, opts, SongEntry(WithTag(tag, JOINED_1)), SongEntry(WithTag(tag, JOINED_2))) == Equal
  {
    var a, b := WithTag(tag, JOINED_1), WithTag(tag, JOINED_2);
    var items := opts.mode.items;
    BothJoin();
    assert "track"[0] == 't' && "disc"[0] == 'd' && "pos"[0] == 'p' && "format"[0] == 'f';
    SameKeysSame(x, opts, a, b, items, true);
    ByItemsIsLexicographic(x, opts, a, b, items, true, true);
    LexicographicLaws(KeysOf(x, opts, a, items, true), KeysOf(x, opts, b, items, true), []);
  }

  /** Up to the number both songs show the name. */
  lemma SharedTagSongs(x: Externals, opts: SortOptions, j: nat, i: nat, v: TagValues)
    requires Ungrouped(opts) && SplitsPaths(x) && Independent(x, opts)
    requires i < |opts.mode.items| && OneField(x, opts, j, i) && v.Join() == "2130"
    requires FieldOf(opts.mode.items[i]) == FieldOf(opts.mode.items[j]) && !Placed(x, opts.foldCase, opts.mode.items[i])
    ensures var q := opts.mode.items[i];
      && FieldOf(q).TagField? && (q.Track? || q.Disc? || q.Position?)
      && (forall k | 0 <= k < i :: IsText(opts.mode.items[k]) && TextOf(x, WithTag(FieldOf(q).tag, v), opts.mode.items[k]) == Some("2130"))
      && (forall k | 0 <= k < i :: Shown(x, WithTag(FieldOf(q).tag, v), opts.mode.items[k]) == Some("2130"))
  {
    var items := opts.mode.items;
    TextAndNumber(x, opts.foldCase, items[j], items[i]);
    assert x.stem("2130") == Some("2130") by { assert PlainName("2130"); }
    forall k | 0 <= k < i
      ensures IsText(items[k])
      ensures TextOf(x, WithTag(FieldOf(items[i]).tag, v), items[k]) == Some("2130")
      ensures Shown(x, WithTag(FieldOf(items[i]).tag, v), items[k]) == Some("2130")
    {
      NoDateInFront(x, opts, j, i, k);
      SharedShown(x, v, FieldOf(items[i]).tag, items[k]);
    }
  }

  lemma TextAndNumber(x: Externals, foldCase: bool, p: SongProperty, q: SongProperty)
    requires FieldOf(p) == FieldOf(q) && Placed(x, foldCase, p) && !Placed(x, foldCase, q)
    ensures FieldOf(q).TagField? && IsText(p) && !IsText(q) && (q.Track? || q.Disc? || q.Position?)
  {
  }

  lemma NoDateInFront(x: Externals, opts: SortOptions, j: nat, i: nat, k: nat)
    requires opts.mode.Format? && Independent(x, opts) && i < |opts.mode.items| && OneField(x, opts, j, i) && k < i
    requires FieldOf(opts.mode.items[i]) == FieldOf(opts.mode.items[j])
    requires IsText(opts.mode.items[j]) && !IsText(opts.mode.items[i])
    ensures opts.mode.items[k].File? || opts.mode.items[k].Filename?
            || (FieldOf(opts.mode.items[k]) == FieldOf(opts.mode.items[j]) && Placed(x, opts.foldCase, opts.mode.items[k]))
  {
    var items := opts.mode.items;
    assert items[k] in items && Placed(x, opts.foldCase, items[k]);
  }

  lemma SharedShown(x: Externals, v: TagValues, tag: string, p: SongProperty)
    requires v.Join() == "2130" && x.stem("2130") == Some("2130")
    requires p.File? || p.Filename? || (FieldOf(p) == TagField(tag) && (IsText(p) || IsNumber(p)))
    ensures IsText(p) && TextOf(x, WithTag(tag, v), p) == Some("2130") && Shown(x, WithTag(tag, v), p) == Some("2130")
  {
  }

  lemma SharedTagBreaks(x: Externals, opts: SortOptions, j: nat, i: nat)
    requires Ungrouped(opts) && Realistic(x, opts) && Independent(x, opts)
    requires i < |opts.mode.items| && OneField(x, opts, j, i)
    requires FieldOf(opts.mode.items[i]) == FieldOf(opts.mode.items[j]) && !Placed(x, opts.foldCase, opts.mode.items[i])
    ensures !Ordered(x, opts)
  {
    var q := opts.mode.items[i];
    BothJoin();
    SharedTagSongs(x, opts, j, i, JOINED_1);
    SharedTagSongs(x, opts, j, i, JOINED_2);
    LastShown(x, q);
    var a, b := WithTag(FieldOf(q).tag, JOINED_1), WithTag(FieldOf(q).tag, JOINED_2);
    NameBetween(x, opts, "2130", a, b, i);
    if q.Position? {
      PositionsDecide(x, opts, b, a, i);
      CycleBreaks(x, opts, SongEntry(b), SongEntry(a), Directory("2130"));
    } else {
      SharedTagTies(x, opts, FieldOf(q).tag);
      TieBreaks(x, opts, SongEntry(a), SongEntry(b), Directory("2130"));
    }
  }

  /** The directory is between two songs that show its name up to property `i`. */
  lemma NameBetween(x: Externals, opts: SortOptions, d: string, a: Song, b: Song, i: nat)
    requires FoldsByCharacter(x) && Ungrouped(opts) && i < |opts.mode.items|
    requires forall k | 0 <= k < i :: Shown(x, a, opts.mode.items[k]) == Some(d)
    requires forall k | 0 <= k < i :: Shown(x, b, opts.mode.items[k]) == Some(d)
    requires Shown(x, a, opts.mode.items[i]).Some? && Below(Shown(x, a, opts.mode.items[i]).value, d)
    requires Shown(x, b, opts.mode.items[i]).Some? && Below(d, Shown(x, b, opts.mode.items[i]).value)
    ensures Cmp(x, opts, SongEntry(a), Directory(d)) == Less
    ensures Cmp(x, opts, SongEntry(b), Directory(d)) == Greater && Cmp(x, opts, Directory(d), SongEntry(b)) == Less
  {
    var items := opts.mode.items;
    MixedAt(x, opts, d, a, true, items, i, true, true);
    MixedAt(x, opts, d, b, true, items, i, false, true);
    MixedAt(x, opts, d, b, false, items, i, false, true);
  }

  lemma PositionsDecide(x: Externals, opts: SortOptions, a: Song, b: Song, i: nat)
    requires Ungrouped(opts) && i < |opts.mode.items| && opts.mode.items[i].Position?
    requires forall k | 0 <= k < i :: IsText(opts.mode.items[k])
               && TextOf(x, a, opts.mode.items[k]) == TextOf(x, b, opts.mode.items[k]) == Some("2130")
    requires TextOf(x, a, Position) == Some("30") && TextOf(x, b, Position) == Some("130")
    requires ParseUsize("30") == Some(30) && ParseUsize("130") == Some(130)
    ensures Cmp(x, opts, SongEntry(a), SongEntry(b)) == Less
  {
    SongsAt(x, opts, a, b, opts.mode.items, i, true, true);
  }

  // ---- leading "the"s

  lemma CompareThe(x: Externals, foldCase: bool, d: string, text: string)
    requires FoldsByCharacter(x) && d != "" && Head(d[0]) && text != "" && Head(text[0])
    ensures Compare(x, foldCase, true, true, "the " + d, d) == Equal
    ensures Compare(x, foldCase, false, false, "the " + d, text) == Greater
  {
    assert StripThe("the " + d) == d by { assert ("the " + d)[..4] == "the " && ("the " + d)[4..] == d; }
    assert StripThe(d) == d by { assert "THE "[0] == 'T' && "The "[0] == 'T' && "the "[0] == 't'; }
    SameCompares(x, foldCase, true, true, d);
    FoldHead(x, "the " + d);
    FoldHead(x, text);
  }

  /** The first property strips the name, the second does not. */
  lemma MixedThe(x: Externals, opts: SortOptions, d: string, s: Song, items: seq<SongProperty>)
    requires FoldsByCharacter(x) && opts.ignoreLeadingThe && |items| > 1 && d != "" && Head(d[0])
    requires Shown(x, s, items[0]) == Some(d)
    requires Shown(x, s, items[1]).Some? && Shown(x, s, items[1]).value != "" && Head(Shown(x, s, items[1]).value[0])
    ensures MixedByItems(x, opts, "the " + d, s, false, items, true) == Some(Greater)
  {
    CompareThe(x, opts.foldCase, d, Shown(x, s, items[1]).value);
    assert items[1..][0] == items[1];
    assert MixedByItems(x, opts, "the " + d, s, false, items[1..], false) == Some(Greater);
  }

  /** A song that shows the name first, and behind it the name or something larger. */
  lemma LargerSong(x: Externals, opts: SortOptions) returns (s: Song, d: string)
    requires Ungrouped(opts) && Realistic(x, opts) && Independent(x, opts) && |opts.mode.items| > 1
    requires Placeable(x, opts.foldCase, opts.mode.items, false)
    ensures d != "" && Head(d[0]) && Shown(x, s, opts.mode.items[0]) == Some(d)
    ensures Shown(x, s, opts.mode.items[1]).Some? && Shown(x, s, opts.mode.items[1]).value != ""
            && Head(Shown(x, s, opts.mode.items[1]).value[0])
    ensures Decided(MixedByItems(x, opts, d, s, false, opts.mode.items, true), false) == Less
  {
    var items := opts.mode.items;
    var base, name := NameSong(x, opts);
    assert items[..|items|] == items;
    var j := FirstOptional(x, opts, |items|);
    if j == |items| {
      s, d := base, name;
      ShowsTheName(x, opts, d, s, items, true);
    } else {
      var p := items[j];
      PlacedIsNoRate(x, opts, p);
      s := HighSong(x, opts, base, p);
      if j == 0 {
        d := Shown(x, s, p).value;
        AllOneField(x, opts, s, d);
      } else {
        d := name;
        LargerAt(x, opts, base, s, d, j);
      }
    }
  }

  lemma AllOneField(x: Externals, opts: SortOptions, s: Song, d: string)
    requires opts.mode.Format? && opts.mode.items != [] && OneField(x, opts, 0, |opts.mode.items|)
    requires Shown(x, s, opts.mode.items[0]) == Some(d)
    ensures forall k | 0 <= k < |opts.mode.items| :: Shown(x, s, opts.mode.items[k]) == Some(d)
    ensures MixedByItems(x, opts, d, s, false, opts.mode.items, true) == None
  {
    var items := opts.mode.items;
    forall k | 0 <= k < |items| ensures Shown(x, s, items[k]) == Some(d) {
      SameFieldSameShown(x, opts.foldCase, s, items[k], items[0]);
    }
    ShowsTheName(x, opts, d, s, items, true);
  }

  lemma LargerAt(x: Externals, opts: SortOptions, base: Song, s: Song, d: string, j: nat)
    requires opts.mode.Format? && FoldsByCharacter(x) && Separate(opts.mode.items) && 0 < j < |opts.mode.items|
    requires OneField(x, opts, j, |opts.mode.items|) && ShowsName(x, opts, base, d) && DifferIn(base, s, opts.mode.items[j])
    requires Shown(x, s, opts.mode.items[j]).Some? && High(Shown(x, s, opts.mode.items[j]).value)
    ensures forall k | 0 <= k < j :: Shown(x, s, opts.mode.items[k]) == Some(d)
    ensures MixedByItems(x, opts, d, s, false, opts.mode.items, true) == Some(Less)
  {
    var items := opts.mode.items;
    forall k | 0 <= k < j ensures Shown(x, s, items[k]) == Some(d) {
      if FieldOf(items[k]) == FieldOf(items[j]) { SameFieldAlways(x, items[k], items[j]); }
      StillShown(x, opts, base, s, d, j, items[k]);
    }
    MixedAt(x, opts, d, s, false, items, j, false, true);
  }

  lemma {:induction false} ShowsTheName(x: Externals, opts: SortOptions, d: string, song: Song, items: seq<SongProperty>, lead: bool)
    requires forall k | 0 <= k < |items| :: Shown(x, song, items[k]) == Some(d)
    ensures MixedByItems(x, opts, d, song, false, items, lead) == None
    decreases items
  {
    if items != [] {
      SameCompares(x, opts.foldCase, lead && opts.ignoreLeadingThe, lead && opts.ignoreLeadingThe, d);
      ShowsTheName(x, opts, d, song, items[1..], lead && d == "");
    }
  }

  /** Two directories that differ by the "the" are equal, but a song is between them. */
  lemma LeadingTheBreaks(x: Externals, opts: SortOptions)
    requires Ungrouped(opts) && Realistic(x, opts) && Independent(x, opts)
    requires Placeable(x, opts.foldCase, opts.mode.items, false)
    requires opts.ignoreLeadingThe && |opts.mode.items| > 1
    ensures !Ordered(x, opts)
  {
    var s, d := LargerSong(x, opts);
    MixedThe(x, opts, d, s, opts.mode.items);
    CompareThe(x, opts.foldCase, d, d);
    TieBreaks(x, opts, Directory("the " + d), Directory(d), SongEntry(s));
  }

  // ---- the condition

  /** The first property that is out of place. */
  lemma FirstBad(x: Externals, opts: SortOptions) returns (i: nat)
    requires opts.mode.Format? && !Placeable(x, opts.foldCase, opts.mode.items, false)
    ensures i < |opts.mode.items| && Placeable(x, opts.foldCase, opts.mode.items[..i], false)
    ensures !(Placed(x, opts.foldCase, opts.mode.items[i]) && forall j: nat | j < i :: Together(x, opts.mode.items, j, i))
  {
    var items := opts.mode.items;
    i := 0;
    while Placed(x, opts.foldCase, items[i]) && forall j: nat | j < i :: Together(x, items, j, i)
      invariant i < |items| && Placeable(x, opts.foldCase, items[..i], false)
      decreases |items| - i
    {
      GrowsByOne(x, opts.foldCase, items, i);
      assert items[..|items|] == items;
      i := i + 1;
    }
  }

  lemma SamePrefix(x: Externals, items: seq<SongProperty>, n: nat, k: nat, m: nat)
    requires k < m < n <= |items|
    ensures Together(x, items[..n], k, m) <==> Together(x, items, k, m)
  {
  }

  lemma GrowsByOne(x: Externals, foldCase: bool, items: seq<SongProperty>, i: nat)
    requires i < |items| && Placeable(x, foldCase, items[..i], false)
    requires Placed(x, foldCase, items[i]) && forall j: nat | j < i :: Together(x, items, j, i)
    ensures Placeable(x, foldCase, items[..i + 1], false)
  {
    var before, now := items[..i], items[..i + 1];
    forall k: nat, m: nat | k < m < |now| ensures Together(x, now, k, m) {
      SamePrefix(x, items, i + 1, k, m);
      if m < i {
        SamePrefix(x, items, i, k, m);
        assert Together(x, before, k, m);
      } else {
        assert Together(x, items, k, m);
      }
    }
    forall k | 0 <= k < |now| ensures Placed(x, foldCase, now[k]) {
      if k < i { assert Placed(x, foldCase, before[k]); }
    }
  }

  /** The first property that some song lacks, if any. */
  lemma FirstOptional(x: Externals, opts: SortOptions, i: nat) returns (j: nat)
    requires opts.mode.Format? && i <= |opts.mode.items| && Placeable(x, opts.foldCase, opts.mode.items[..i], false)
    ensures j <= i && (forall k | 0 <= k < j :: Always(x, opts.mode.items[k]))
    ensures forall k | 0 <= k < i :: Placed(x, opts.foldCase, opts.mode.items[k])
    ensures j < i ==> OneField(x, opts, j, i)
  {
    var items := opts.mode.items;
    forall k | 0 <= k < i ensures Placed(x, opts.foldCase, items[k]) { assert Placed(x, opts.foldCase, items[..i][k]); }
    j := 0;
    while j < i && Always(x, items[j])
      invariant j <= i && forall k | 0 <= k < j :: Always(x, items[k])
    {
      j := j + 1;
    }
    if j < i { OnlyOneField(x, opts, j, i); }
  }

  lemma OnlyOneField(x: Externals, opts: SortOptions, j: nat, i: nat)
    requires opts.mode.Format? && j < i <= |opts.mode.items| && Placeable(x, opts.foldCase, opts.mode.items[..i], false)
    requires (forall k | 0 <= k < j :: Always(x, opts.mode.items[k])) && !Always(x, opts.mode.items[j])
    requires forall k | 0 <= k < i :: Placed(x, opts.foldCase, opts.mode.items[k])
    ensures OneField(x, opts, j, i)
  {
    var items := opts.mode.items;
    forall k | 0 <= k < i
      ensures FieldOf(items[k]) == FieldOf(items[j])
           || (Always(x, items[k]) && exists m | 0 <= m < j :: FieldOf(items[m]) == FieldOf(items[k]))
    {
      if k < j {
        assert FieldOf(items[k]) == FieldOf(items[k]);
      } else if j < k {
        SamePrefix(x, items, i, j, k);
        assert Together(x, items[..i], j, k);
        if m :| 0 <= m < j && FieldOf(items[m]) == FieldOf(items[k]) { SameFieldAlways(x, items[m], items[k]); }
      }
    }
  }

  lemma SameFieldAlways(x: Externals, p: SongProperty, q: SongProperty)
    requires FieldOf(p) == FieldOf(q) && Always(x, p)
    ensures Always(x, q)
  {
  }

  lemma BadListBreaks(x: Externals, opts: SortOptions)
    requires Ungrouped(opts) && Realistic(x, opts) && Independent(x, opts)
    requires !Placeable(x, opts.foldCase, opts.mode.items, false)
    ensures !Ordered(x, opts)
  {
    var items := opts.mode.items;
    var i := FirstBad(x, opts);
    var j := FirstOptional(x, opts, i);
    if j == i {
      NumbersBreak(x, opts, i);
    } else if Together(x, items, j, i) {
      NotPlacedAtAll(x, opts, j, i);
      SharedTagBreaks(x, opts, j, i);
    } else {
      GapBreaks(x, opts, j, i);
    }
  }

  /** A property that is in place behind property `j` is out of place for what it shows. */
  lemma NotPlacedAtAll(x: Externals, opts: SortOptions, j: nat, i: nat)
    requires opts.mode.Format? && i < |opts.mode.items| && OneField(x, opts, j, i) && Together(x, opts.mode.items, j, i)
    requires !(Placed(x, opts.foldCase, opts.mode.items[i]) && forall k: nat | k < i :: Together(x, opts.mode.items, k, i))
    ensures !Placed(x, opts.foldCase, opts.mode.items[i]) && FieldOf(opts.mode.items[i]) == FieldOf(opts.mode.items[j])
  {
    forall k: nat | k < i ensures Together(x, opts.mode.items, k, i) { TogetherAll(x, opts, j, i, k); }
    if m :| 0 <= m < j && FieldOf(opts.mode.items[m]) == FieldOf(opts.mode.items[i]) {
      SameFieldPlaced(x, opts.foldCase, opts.mode.items[m], opts.mode.items[i]);
    }
  }

  lemma TogetherAll(x: Externals, opts: SortOptions, j: nat, i: nat, k: nat)
    requires opts.mode.Format? && j < i < |opts.mode.items| && k < i
    ensures OneField(x, opts, j, i) && Together(x, opts.mode.items, j, i) ==> Together(x, opts.mode.items, k, i)
  {
    var items := opts.mode.items;
    if OneField(x, opts, j, i) && Together(x, items, j, i) && !Always(x, items[k]) {
      assert FieldOf(items[k]) == FieldOf(items[j]);
      if m :| 0 <= m < j && FieldOf(items[m]) == FieldOf(items[i]) { assert m < k; }
    }
  }

  lemma FlipOrdered(x: Externals, opts: SortOptions)
    requires opts.mode.Format? && !opts.groupByType
    ensures Ordered(x, opts) <==> Ordered(x, opts.(reverse := false))
  {
    var up := opts.(reverse := false);
    forall a, b ensures Cmp(x, opts, a, b) == Reversed(Cmp(x, up, a, b), opts.reverse) { ReverseFlips(x, opts, a, b); }
    if opts.reverse {
      if Ordered(x, opts) { Flipped(x, opts, up); }
      if Ordered(x, up) { Flipped(x, up, opts); }
    } else {
      assert opts == up;
    }
  }

  lemma Flipped(x: Externals, opts: SortOptions, other: SortOptions)
    requires Ordered(x, opts) && forall a, b :: Cmp(x, other, a, b) == Cmp(x, opts, a, b).Flip()
    ensures Ordered(x, other)
  {
    forall a: DirOrSong, b: DirOrSong, c: DirOrSong
      ensures Cmp(x, other, a, a) == Equal
      ensures Cmp(x, other, b, a) == Cmp(x, other, a, b).Flip()
      ensures Composes(Cmp(x, other, a, b), Cmp(x, other, b, c), Cmp(x, other, a, c))
    {
      OrderedLaws(x, opts, a, b, c);
      OrderedLaws(x, opts, b, c, a);
      OrderedLaws(x, opts, a, a, a);
    }
  }

  /** Directories among songs sorted by a format are in order for every placeable list of
      properties, and for no other list whose properties can vary on their own. */
  lemma UngroupedOrderExactly(x: Externals, opts: SortOptions)
    requires opts.mode.Format? && !opts.groupByType
    ensures PlaceableBy(x, opts) ==> Ordered(x, opts)
    ensures Realistic(x, opts) && Independent(x, opts) ==> (Ordered(x, opts) <==> PlaceableBy(x, opts))
  {
    var up := opts.(reverse := false);
    FlipOrdered(x, opts);
    if PlaceableBy(x, opts) {
      PlaceableIsOrdered(x, up);
    } else if Realistic(x, opts) && Independent(x, opts) {
      if Placeable(x, opts.foldCase, opts.mode.items, false) { LeadingTheBreaks(x, up); } else { BadListBreaks(x, up); }
    }
  }

  /** For instance, by date of modification they are in order, its years having four digits. */
  lemma DatesAreOrdered(x: Externals, opts: SortOptions)
    requires opts.mode == Format([LastModified]) && !opts.groupByType
    requires InOrder(x, opts.foldCase, LastModified)
    ensures Ordered(x, opts)
  {
    UngroupedOrderExactly(x, opts);
  }

  const BLANK := Song("a", map[], None, None, 0)

  /** For instance sorting by track: track 99 comes before track 100, track 100 before the
      directory "5", and that before track 99. */
  lemma UngroupedFormatHasCycle(x: Externals)
    ensures var opts := SortOptions(Format([Track]), false, false, false, false);
      var a, b := Put(BLANK, TagField("track"), "99"), Put(BLANK, TagField("track"), "100");
      && Cmp(x, opts, SongEntry(a), SongEntry(b)) == Less
      && Cmp(x, opts, SongEntry(b), Directory("5")) == Less
      && Cmp(x, opts, Directory("5"), SongEntry(a)) == Less
  {
    var a, b := Put(BLANK, TagField("track"), "99"), Put(BLANK, TagField("track"), "100");
    SmallNumbers();
    NumberTag(x, a, Track, 99);
    NumberTag(x, b, Track, 100);
    assert Compare(x, false, false, false, "100", "5") == Less && Compare(x, false, false, false, "5", "99") == Less;
  }
}
