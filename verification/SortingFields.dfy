/**
 What decides in the sort order: which value of a song each property is about, what is left of a
 leading "the", and which times count.
 */
module SortingFields {
  import opened Wrappers
  import opened Text
  import opened Sorting

  // ---- a leading "the"

  predicate LeadsWithThe(s: string) {
    "The " <= s || "the " <= s || "THE " <= s
  }

  /** Three spellings are taken off, once, and nothing else is. */
  lemma TheTakenOff(s: string)
    ensures StripThe("The " + s) == s && StripThe("the " + s) == s && StripThe("THE " + s) == s
    ensures !LeadsWithThe(s) ==> StripThe(s) == s
  {
    assert ("The " + s)[..4] == "The " && ("the " + s)[..4] == "the " && ("THE " + s)[..4] == "THE ";
  }

  /** With the option on, "The x" is where "x" is; with it off, it is compared as it stands. */
  lemma TheIgnored(x: Externals, foldCase: bool, s: string, t: string)
    requires !LeadsWithThe(s) && !LeadsWithThe(t)
    ensures Compare(x, foldCase, true, true, "The " + s, t) == Compare(x, foldCase, false, false, s, t)
    ensures Compare(x, foldCase, true, true, t, "the " + s) == Compare(x, foldCase, false, false, t, s)
    ensures Compare(x, foldCase, true, true, "THE " + s, s) == Equal
    ensures Compare(x, false, false, false, "The " + s, t) == CompareString("The " + s, t)
  {
    TheTakenOff(s);
    TheTakenOff(t);
    CompareStringLaws(s, s, s);
    CompareStringLaws(x.fold(s), x.fold(s), "");
  }

  // ---- texts

  /** The tag a property is about. */
  predicate AboutTag(p: SongProperty, tag: string) {
    || (p == Title && tag == "title")
    || (p == Artist && tag == "artist")
    || (p == Album && tag == "album")
    || (p == AlbumArtist && tag == "albumartist")
    || p == Other(tag)
  }

  /** Texts are compared with all values of the tag joined; a song without the tag comes last. */
  lemma TagDecides(x: Externals, a: Song, b: Song, p: SongProperty, tag: string, foldCase: bool, theA: bool, theB: bool)
    requires AboutTag(p, tag)
    ensures tag in a.tags && tag in b.tags ==>
      SongCmp(x, a, b, p, foldCase, theA, theB).ordering
        == Compare(x, foldCase, theA, theB, a.tags[tag].first + Concat(a.tags[tag].more), b.tags[tag].first + Concat(b.tags[tag].more))
    ensures tag in a.tags && tag !in b.tags ==> SongCmp(x, a, b, p, foldCase, theA, theB).ordering == Less
    ensures tag !in a.tags && tag in b.tags ==> SongCmp(x, a, b, p, foldCase, theA, theB).ordering == Greater
    ensures tag !in a.tags && tag !in b.tags ==> SongCmp(x, a, b, p, foldCase, theA, theB).ordering == Equal
  {
  }

  lemma PathDecides(x: Externals, a: Song, b: Song, foldCase: bool, theA: bool, theB: bool)
    ensures SongCmp(x, a, b, File, foldCase, theA, theB).ordering == Compare(x, foldCase, theA, theB, a.file, b.file)
    ensures x.stem(a.file).Some? && x.stem(b.file).Some? ==>
      SongCmp(x, a, b, Filename, foldCase, theA, theB).ordering
        == Compare(x, foldCase, theA, theB, x.stem(a.file).value, x.stem(b.file).value)
    ensures x.ext(a.file).Some? && x.ext(b.file).Some? ==>
      SongCmp(x, a, b, FileExtension, foldCase, theA, theB).ordering
        == Compare(x, foldCase, theA, theB, x.ext(a.file).value, x.ext(b.file).value)
  {
  }

  // ---- numbers

  lemma PlainNumber(n: nat)
    ensures !("-" <= Digits(n)) && !("+" <= Digits(n))
    ensures n <= I32_MAX ==> ParseI32(Digits(n)) == Some(n)
    ensures n <= U64_MAX ==> ParseUsize(Digits(n)) == Some(n)
  {
    assert IsDigit(Digits(n)[0]);
    ParseDigits(n, I32_MAX);
    ParseDigits(n, U64_MAX);
  }

  /** A track or disc may be negative, down to the least the type holds. */
  lemma NegativeNumber(n: nat)
    ensures ParseI32("-" + Digits(n)) == if n <= I32_MAX + 1 then Some(0 - n as int) else None
  {
    var s := "-" + Digits(n);
    ValueOfDigits(n);
    assert s[1..] == Digits(n);
  }

  /** A bare sign is no number, and neither is one beyond the type. */
  lemma NoI32(n: nat)
    requires n > I32_MAX
    ensures ParseI32("-") == None && ParseI32("") == None && ParseI32(Digits(n)) == None
  {
    ParseDigits(n, I32_MAX);
    assert IsDigit(Digits(n)[0]);
  }

  /** The tag of a property that is compared as a number if it is one. */
  predicate CountsBy(p: SongProperty, tag: string) {
    (p == Track && tag == "track") || (p == Disc && tag == "disc") || (p == Position && tag == "pos")
  }

  /** Tracks, discs and positions go by their numbers, 9 before 10; what is no number comes behind. */
  lemma NumberDecides(x: Externals, a: Song, b: Song, p: SongProperty, tag: string, m: nat, n: nat,
                      foldCase: bool, theA: bool, theB: bool)
    requires CountsBy(p, tag) && m <= I32_MAX && n <= I32_MAX
    requires tag in a.tags && a.tags[tag] == TagValues(Digits(m), [])
    requires tag in b.tags
    ensures b.tags[tag] == TagValues(Digits(n), []) ==>
      SongCmp(x, a, b, p, foldCase, theA, theB).ordering == CompareInt(m, n)
    ensures b.tags[tag].more == [] && b.tags[tag].first != "" && (forall c | c in b.tags[tag].first :: !IsDigit(c)) ==>
      SongCmp(x, a, b, p, foldCase, theA, theB).ordering == Less
  {
    PlainNumber(m);
    PlainNumber(n);
    assert Digits(m) + "" == Digits(m) && Digits(n) + "" == Digits(n);
    var text := b.tags[tag].first;
    assert text + "" == text;
    if text != "" && forall c | c in text :: !IsDigit(c) {
      NoNumber(text);
    }
  }

  lemma NoNumber(s: string)
    requires forall c | c in s :: !IsDigit(c)
    ensures ParseI32(s) == None && ParseUsize(s) == None
  {
    NoValue(s);
    if s != "" { NoValue(s[1..]); }
  }

  lemma NoValue(s: string)
    requires forall c | c in s :: !IsDigit(c)
    ensures s != "" ==> ValueOf(s) == None
  {
  }

  /** Durations and dates go by the fields of the song. */
  lemma FieldDecides(x: Externals, a: Song, b: Song, foldCase: bool, theA: bool, theB: bool)
    ensures a.duration.Some? && b.duration.Some? ==>
      SongCmp(x, a, b, Duration, foldCase, theA, theB).ordering == CompareInt(a.duration.value, b.duration.value)
    ensures a.added.Some? && b.added.Some? ==>
      SongCmp(x, a, b, Added, foldCase, theA, theB).ordering == CompareInt(a.added.value, b.added.value)
    ensures SongCmp(x, a, b, LastModified, foldCase, theA, theB).ordering == CompareInt(a.lastModified, b.lastModified)
  {
  }

  // ---- by time

  /** Without grouping, by time: the earlier modification comes first, of whatever two entries. */
  lemma ByTime(x: Externals, opts: SortOptions, s: Song, t: Song, m: string, n: string, d: Date, e: Date, p: bool, q: bool)
    requires opts.mode.ModifiedTime? && !opts.groupByType
    ensures Cmp(x, opts, SongEntry(s), SongEntry(t)) == Reversed(CompareInt(s.lastModified, t.lastModified), opts.reverse)
    ensures Cmp(x, opts, SongEntry(s), Dir(n, e, q)) == Reversed(CompareInt(s.lastModified, e), opts.reverse)
    ensures Cmp(x, opts, Dir(m, d, p), SongEntry(t)) == Reversed(CompareInt(d, t.lastModified), opts.reverse)
    ensures Cmp(x, opts, Dir(m, d, p), Dir(n, e, q)) == Reversed(CompareInt(d, e), opts.reverse)
  {
  }

  /** With grouping: directories, then songs, then playlists, whatever their times and names. */
  lemma ByType(x: Externals, opts: SortOptions, s: Song, m: string, n: string, d: Date, e: Date)
    requires opts.groupByType && !opts.reverse
    ensures Cmp(x, opts, Dir(m, d, false), SongEntry(s)) == Less && Cmp(x, opts, SongEntry(s), Dir(n, e, true)) == Less
    ensures Cmp(x, opts, Dir(m, d, false), Dir(n, e, true)) == Less
  {
  }

  // ---- what a song shows beside a directory

  /** Tracks show two digits at least, positions count from one, discs are shown as they are. */
  lemma ShownNumbers(x: Externals, s: Song, n: nat)
    ensures "track" in s.tags && n <= U32_MAX && s.tags["track"].Last() == Digits(n) ==>
      Shown(x, s, Track) == Some(if n < 10 then "0" + Digits(n) else Digits(n))
    ensures "pos" in s.tags && n <= U64_MAX && s.tags["pos"].Last() == Digits(n) ==> Shown(x, s, Position) == Some(Digits(n + 1))
    ensures "pos" in s.tags && ParseUnsigned(s.tags["pos"].Last(), U64_MAX).None? ==> Shown(x, s, Position) == Some("")
    ensures "disc" in s.tags ==> Shown(x, s, Disc) == Some(s.tags["disc"].Last())
  {
    ParseDigits(n, U32_MAX);
    ParseDigits(n, U64_MAX);
  }

  lemma ShownTexts(x: Externals, s: Song, p: SongProperty, tag: string)
    requires AboutTag(p, tag)
    ensures Shown(x, s, p) == if tag in s.tags then Some(s.tags[tag].first + Concat(s.tags[tag].more)) else None
    ensures Shown(x, s, File) == Some(s.file) && Shown(x, s, Filename) == x.stem(s.file)
    ensures Shown(x, s, LastModified) == Some(x.show(LastModified, s.lastModified))
  {
  }
}
