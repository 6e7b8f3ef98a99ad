/**
 Strings as rmpc uses them: prefixes, first occurrences, white space, and the decimal
 numbers of the MPD protocol. A string is a sequence of Unicode scalar values.
 */
module Text {
  import opened Wrappers

  /** Where `pat` first occurs. */
  function Find(s: string, pat: string): (r: Option<nat>)
    ensures r.Some? ==> r.value + |pat| <= |s| && s[r.value..r.value + |pat|] == pat
  {
    if pat <= s then Some(0)
    else if s == "" then None
    else
      match Find(s[1..], pat)
      case None => None
      case Some(i) =>
        assert s[i + 1..i + 1 + |pat|] == s[1..][i..i + |pat|];
        Some(i + 1)
  }

  /** A text free of the first character of `pat` is passed over. */
  lemma {:induction false} FindAfter(a: string, pat: string, b: string)
    requires pat != "" && pat[0] !in a
    ensures Find(a + pat + b, pat) == Some(|a|)
  {
    var s := a + pat + b;
    if a == "" {
      assert s == pat + b;
    } else {
      assert s[0] == a[0] && pat[0] != a[0];
      assert s[1..] == a[1..] + pat + b;
      FindAfter(a[1..], pat, b);
    }
  }

  lemma {:induction false} FindNothing(s: string, pat: string)
    requires pat != "" && pat[0] !in s
    ensures Find(s, pat) == None
  {
    if s != "" { FindNothing(s[1..], pat); }
  }

  /** `char::is_whitespace`. */
  predicate IsWhitespace(c: char) {
    var n := c as int;
    || 9 <= n <= 13 || n == 32 || n == 0x85 || n == 0xA0 || n == 0x1680
    || 0x2000 <= n <= 0x200A || n == 0x2028 || n == 0x2029 || n == 0x202F || n == 0x205F || n == 0x3000
  }

  function TrimStart(s: string): string {
    if s != "" && IsWhitespace(s[0]) then TrimStart(s[1..]) else s
  }

  function TrimEnd(s: string): string {
    if s != "" && IsWhitespace(s[|s| - 1]) then TrimEnd(s[..|s| - 1]) else s
  }

  function Trim(s: string): string {
    TrimEnd(TrimStart(s))
  }

  predicate AllWhitespace(s: string) {
    forall c | c in s :: IsWhitespace(c)
  }

  /** A text that neither begins nor ends with white space. */
  predicate Trimmed(s: string) {
    s != "" ==> !IsWhitespace(s[0]) && !IsWhitespace(s[|s| - 1])
  }

  lemma {:induction false} TrimStartTakes(w: string, s: string)
    requires AllWhitespace(w) && (s != "" ==> !IsWhitespace(s[0]))
    ensures TrimStart(w + s) == s
    decreases w
  {
    if w == "" {
      assert w + s == s;
    } else {
      assert w[0] in w && (w + s)[1..] == w[1..] + s;
      TrimStartTakes(w[1..], s);
    }
  }

  lemma {:induction false} TrimEndTakes(s: string, w: string)
    requires AllWhitespace(w) && (s != "" ==> !IsWhitespace(s[|s| - 1]))
    ensures TrimEnd(s + w) == s
    decreases w
  {
    if w == "" {
      assert s + w == s;
    } else {
      assert w[|w| - 1] in w && (s + w)[..|s + w| - 1] == s + w[..|w| - 1];
      TrimEndTakes(s, w[..|w| - 1]);
    }
  }

  /** Trimming takes the white space at both ends and nothing else. */
  lemma TrimTakesEnds(before: string, s: string, behind: string)
    requires AllWhitespace(before) && AllWhitespace(behind) && Trimmed(s)
    ensures Trim(before + s + behind) == s
  {
    if s == "" {
      assert before + s + behind == (before + behind) + "";
      TrimStartTakes(before + behind, "");
    } else {
      assert before + s + behind == before + (s + behind);
      TrimStartTakes(before, s + behind);
      TrimEndTakes(s, behind);
    }
  }

  /** ASCII part of `to_lowercase`. */
  function LowerChar(c: char): char {
    if 'A' <= c <= 'Z' then c - 'A' + 'a' else c
  }

  function Lower(s: string): string {
    seq(|s|, i requires 0 <= i < |s| => LowerChar(s[i]))
  }

  lemma TrimLine(s: string)
    requires Trimmed(s)
    ensures Trim(s + "\n") == s
  {
    TrimTakesEnds("", s, "\n");
    assert "" + s + "\n" == s + "\n";
  }

  /** A capital letter becomes the small one, the rest stays; so the keys MPD prints become those
      the parsers look for. */
  lemma LowerMeans(s: string)
    ensures |Lower(s)| == |s|
    ensures forall i | 0 <= i < |s| ::
      if 'A' <= s[i] <= 'Z' then Lower(s)[i] as int == s[i] as int + 32 else Lower(s)[i] == s[i]
    ensures Lower("Id") == "id" && Lower("Artist") == "artist" && Lower("AlbumArtist") == "albumartist"
    ensures Lower("duration") == "duration" && Lower("Last-Modified") == "last-modified" && Lower("Added") == "added"
  {
  }

  // ---- decimal numbers

  const U8_MAX: nat := 0xFF
  const I32_MAX: nat := 0x7FFF_FFFF
  const U32_MAX: nat := 0xFFFF_FFFF
  const U64_MAX: nat := 0xFFFF_FFFF_FFFF_FFFF

  predicate IsDigit(c: char) {
    '0' <= c <= '9'
  }

  function DigitValue(c: char): nat
    requires IsDigit(c)
  {
    c as int - '0' as int
  }

  function DigitChar(d: nat): (c: char)
    requires d < 10
    ensures IsDigit(c) && DigitValue(c) == d
  {
    '0' + d as char
  }

  /** How a number is written. */
  function Digits(n: nat): (s: string)
    ensures s != "" && forall c | c in s :: IsDigit(c)
  {
    if n < 10 then [DigitChar(n)] else Digits(n / 10) + [DigitChar(n % 10)]
  }

  /** The value of a string of digits. */
  function ValueOf(s: string): Option<nat> {
    if s == "" then Some(0)
    else
      match ValueOf(s[..|s| - 1])
      case None => None
      case Some(v) => if IsDigit(s[|s| - 1]) then Some(10 * v + DigitValue(s[|s| - 1])) else None
  }

  /** Rust's `parse` for an unsigned type with the given largest value: an optional plus sign,
      then at least one digit, and nothing beyond the type. */
  function ParseUnsigned(s: string, max: nat): Option<nat> {
    var digits := if "+" <= s then s[1..] else s;
    if digits == "" then None
    else
      match ValueOf(digits)
      case None => None
      case Some(v) => if v <= max then Some(v) else None
  }

  lemma {:induction false} ValueOfDigits(n: nat)
    ensures ValueOf(Digits(n)) == Some(n)
  {
    var s := Digits(n);
    if n < 10 {
      assert s[..0] == "";
    } else {
      ValueOfDigits(n / 10);
      assert s[..|s| - 1] == Digits(n / 10);
    }
  }

  /** A written number is read back if the type can hold it, and refused otherwise. */
  lemma ParseDigits(n: nat, max: nat)
    ensures ParseUnsigned(Digits(n), max) == if n <= max then Some(n) else None
  {
    ValueOfDigits(n);
    assert IsDigit(Digits(n)[0]);
  }
}
