/**
 Values inside MPD filter expressions pass two levels of quoting: the double quotes of a
 command argument and the single quotes of a string in the expression. `escape_filter`
 escapes for both at once.
 */
module FilterEscape {
  import opened Wrappers

  /** `str::replace` of one character. */
  function Replace(s: string, c: char, to: string): string {
    if s == "" then "" else (if s[0] == c then to else [s[0]]) + Replace(s[1..], c, to)
  }

  const FOUR_BACKSLASHES := ['\\', '\\', '\\', '\\']

  /** `escape_filter`: five replacements one after the other. */
  function EscapeFilter(s: string): string {
    Replace(Replace(Replace(Replace(Replace(s,
      '\\', FOUR_BACKSLASHES), '(', ['\\', '(']), ')', ['\\', ')']), '\'', ['\\', '\\', '\'']), '"', ['\\', '"'])
  }

  /** What becomes of one character. */
  function Escaped(c: char): string {
    if c == '\\' then FOUR_BACKSLASHES
    else if c == '\'' then ['\\', '\\', '\'']
    else if c == '(' || c == ')' || c == '"' then ['\\', c]
    else [c]
  }

  function EscapedAll(s: string): string {
    if s == "" then "" else Escaped(s[0]) + EscapedAll(s[1..])
  }

  lemma Regroup(a: string, b: string, c: string)
    ensures a + (b + c) == (a + b) + c
  {
  }

  lemma {:induction false} ReplaceConcat(a: string, b: string, c: char, to: string)
    ensures Replace(a + b, c, to) == Replace(a, c, to) + Replace(b, c, to)
  {
    if a == "" {
      assert a + b == b;
    } else {
      var head := if a[0] == c then to else [a[0]];
      ReplaceConcat(a[1..], b, c, to);
      assert (a + b)[0] == a[0] && (a + b)[1..] == a[1..] + b;
      assert Replace(a + b, c, to) == head + (Replace(a[1..], c, to) + Replace(b, c, to));
      Regroup(head, Replace(a[1..], c, to), Replace(b, c, to));
    }
  }

  lemma {:induction false} ReplaceAbsent(s: string, c: char, to: string)
    requires c !in s
    ensures Replace(s, c, to) == s
  {
    if s != "" { ReplaceAbsent(s[1..], c, to); }
  }

  lemma EscapeConcat(a: string, b: string)
    ensures EscapeFilter(a + b) == EscapeFilter(a) + EscapeFilter(b)
  {
    var a1, b1 := Replace(a, '\\', FOUR_BACKSLASHES), Replace(b, '\\', FOUR_BACKSLASHES);
    var a2, b2 := Replace(a1, '(', ['\\', '(']), Replace(b1, '(', ['\\', '(']);
    var a3, b3 := Replace(a2, ')', ['\\', ')']), Replace(b2, ')', ['\\', ')']);
    var a4, b4 := Replace(a3, '\'', ['\\', '\\', '\'']), Replace(b3, '\'', ['\\', '\\', '\'']);
    ReplaceConcat(a, b, '\\', FOUR_BACKSLASHES);
    ReplaceConcat(a1, b1, '(', ['\\', '(']);
    ReplaceConcat(a2, b2, ')', ['\\', ')']);
    ReplaceConcat(a3, b3, '\'', ['\\', '\\', '\'']);
    ReplaceConcat(a4, b4, '"', ['\\', '"']);
  }

  /** On one character no replacement touches what an earlier one wrote. */
  lemma EscapeOne(c: char)
    ensures EscapeFilter([c]) == Escaped(c)
  {
    if c == '\\' { EscapeBackslash(); }
    else if c == '(' { EscapeOpen(); }
    else if c == ')' { EscapeClose(); }
    else if c == '\'' { EscapeSingle(); }
    else { EscapeLast(c); }
  }

  lemma ReplaceOne(c: char, to: string)
    ensures Replace([c], c, to) == to
  {
    assert [c][1..] == "";
    assert to + "" == to;
  }

  lemma EscapeBackslash()
    ensures EscapeFilter(['\\']) == FOUR_BACKSLASHES
  {
    ReplaceOne('\\', FOUR_BACKSLASHES);
    ReplaceAbsent(FOUR_BACKSLASHES, '(', ['\\', '(']);
    ReplaceAbsent(FOUR_BACKSLASHES, ')', ['\\', ')']);
    ReplaceAbsent(FOUR_BACKSLASHES, '\'', ['\\', '\\', '\'']);
    ReplaceAbsent(FOUR_BACKSLASHES, '"', ['\\', '"']);
  }

  lemma EscapeOpen()
    ensures EscapeFilter(['(']) == ['\\', '(']
  {
    ReplaceAbsent(['('], '\\', FOUR_BACKSLASHES);
    ReplaceOne('(', ['\\', '(']);
    ReplaceAbsent(['\\', '('], ')', ['\\', ')']);
    ReplaceAbsent(['\\', '('], '\'', ['\\', '\\', '\'']);
    ReplaceAbsent(['\\', '('], '"', ['\\', '"']);
  }

  lemma EscapeClose()
    ensures EscapeFilter([')']) == ['\\', ')']
  {
    ReplaceAbsent([')'], '\\', FOUR_BACKSLASHES);
    ReplaceAbsent([')'], '(', ['\\', '(']);
    ReplaceOne(')', ['\\', ')']);
    ReplaceAbsent(['\\', ')'], '\'', ['\\', '\\', '\'']);
    ReplaceAbsent(['\\', ')'], '"', ['\\', '"']);
  }

  lemma EscapeSingle()
    ensures EscapeFilter(['\'']) == ['\\', '\\', '\'']
  {
    ReplaceAbsent(['\''], '\\', FOUR_BACKSLASHES);
    ReplaceAbsent(['\''], '(', ['\\', '(']);
    ReplaceAbsent(['\''], ')', ['\\', ')']);
    ReplaceOne('\'', ['\\', '\\', '\'']);
    ReplaceAbsent(['\\', '\\', '\''], '"', ['\\', '"']);
  }

  lemma EscapeLast(c: char)
    requires c != '\\' && c != '(' && c != ')' && c != '\''
    ensures EscapeFilter([c]) == Escaped(c)
  {
    ReplaceAbsent([c], '\\', FOUR_BACKSLASHES);
    ReplaceAbsent([c], '(', ['\\', '(']);
    ReplaceAbsent([c], ')', ['\\', ')']);
    ReplaceAbsent([c], '\'', ['\\', '\\', '\'']);
    if c == '"' { ReplaceOne(c, ['\\', '"']); } else { ReplaceAbsent([c], '"', ['\\', '"']); }
  }

  /** The five replacements are one substitution of all characters at once. */
  lemma {:induction false} ReplacementsAreSimultaneous(s: string)
    ensures EscapeFilter(s) == EscapedAll(s)
  {
    if s != "" {
      assert s == [s[0]] + s[1..];
      EscapeConcat([s[0]], s[1..]);
      EscapeOne(s[0]);
      ReplacementsAreSimultaneous(s[1..]);
    }
  }

  // ---- what MPD undoes

  /** A quoted string from behind its opening quote: a backslash takes the next character
      literally, the first bare quote ends it. Its value and what is behind it. */
  function Unquote(s: string, quote: char): Option<(string, string)> {
    if s == "" then None
    else if s[0] == quote then Some(("", s[1..]))
    else if s[0] == '\\' then
      if |s| == 1 then None else Prepend([s[1]], Unquote(s[2..], quote))
    else Prepend([s[0]], Unquote(s[1..], quote))
  }

  function Prepend(p: string, r: Option<(string, string)>): Option<(string, string)> {
    match r
    case None => None
    case Some((value, rest)) => Some((p + value, rest))
  }

  /** The value as it must stand between single quotes. */
  function FilterLevel(s: string): string {
    if s == "" then "" else (if s[0] == '\\' || s[0] == '\'' then ['\\', s[0]] else [s[0]]) + FilterLevel(s[1..])
  }

  lemma UnquotePair(c: char, s: string, quote: char)
    requires quote != '\\'
    ensures Unquote(['\\', c] + s, quote) == Prepend([c], Unquote(s, quote))
  {
    assert (['\\', c] + s)[2..] == s;
  }

  lemma UnquoteChar(c: char, s: string, quote: char)
    requires c != quote && c != '\\'
    ensures Unquote([c] + s, quote) == Prepend([c], Unquote(s, quote))
  {
    assert ([c] + s)[1..] == s;
  }

  lemma PrependTwice(p: string, q: string, r: Option<(string, string)>)
    ensures Prepend(p, Prepend(q, r)) == Prepend(p + q, r)
  {
    if r.Some? { assert p + (q + r.value.0) == p + q + r.value.0; }
  }

  lemma PrependNothing(r: Option<(string, string)>)
    ensures Prepend("", r) == r
  {
    if r.Some? { assert "" + r.value.0 == r.value.0; }
  }

  lemma FilterLevelSplits(v: string)
    requires v != ""
    ensures FilterLevel([v[0]]) + FilterLevel(v[1..]) == FilterLevel(v)
  {
    assert [v[0]][1..] == "";
  }

  /** The argument level turns one escaped character into its filter-level form. */
  lemma ArgumentChar(c: char, s: string)
    ensures Unquote(Escaped(c) + s, '"') == Prepend(FilterLevel([c]), Unquote(s, '"'))
  {
    assert [c][1..] == "";
    assert FilterLevel([c]) == if c == '\\' || c == '\'' then ['\\', c] else [c];
    if c == '\\' {
      var two := ['\\', '\\'];
      assert ['\\'] + ['\\'] == two;
      assert FOUR_BACKSLASHES + s == two + (two + s);
      UnquotePair('\\', two + s, '"');
      UnquotePair('\\', s, '"');
      PrependTwice(['\\'], ['\\'], Unquote(s, '"'));
    } else if c == '\'' {
      assert ['\\', '\\', '\''] + s == ['\\', '\\'] + (['\''] + s);
      UnquotePair('\\', ['\''] + s, '"');
      UnquoteChar('\'', s, '"');
      PrependTwice(['\\'], ['\''], Unquote(s, '"'));
      assert ['\\'] + ['\''] == ['\\', '\''];
    } else if c == '(' || c == ')' || c == '"' {
      UnquotePair(c, s, '"');
    } else {
      UnquoteChar(c, s, '"');
    }
  }

  /** First level: inside the double quotes the escaped value reads as the filter-level form,
      and nothing in it closes the argument. */
  lemma {:induction false} ArgumentLevel(v: string, rest: string)
    ensures Unquote(EscapedAll(v) + rest, '"') == Prepend(FilterLevel(v), Unquote(rest, '"'))
  {
    if v == "" {
      assert EscapedAll(v) + rest == rest;
      PrependNothing(Unquote(rest, '"'));
    } else {
      var more := EscapedAll(v[1..]) + rest;
      assert EscapedAll(v) + rest == Escaped(v[0]) + more;
      ArgumentChar(v[0], more);
      ArgumentLevel(v[1..], rest);
      PrependTwice(FilterLevel([v[0]]), FilterLevel(v[1..]), Unquote(rest, '"'));
      FilterLevelSplits(v);
    }
  }

  /** Second level: inside the single quotes that form reads as the value itself. */
  lemma {:induction false} FilterLevelUnquotes(v: string, rest: string)
    ensures Unquote(FilterLevel(v) + (['\''] + rest), '\'') == Some((v, rest))
  {
    var tail := ['\''] + rest;
    if v == "" {
      assert FilterLevel(v) + tail == tail && tail[1..] == rest;
    } else {
      var head := if v[0] == '\\' || v[0] == '\'' then ['\\', v[0]] else [v[0]];
      assert FilterLevel(v) + tail == head + (FilterLevel(v[1..]) + tail);
      FilterLevelUnquotes(v[1..], rest);
      if v[0] == '\\' || v[0] == '\'' {
        UnquotePair(v[0], FilterLevel(v[1..]) + tail, '\'');
      } else {
        UnquoteChar(v[0], FilterLevel(v[1..]) + tail, '\'');
      }
      assert [v[0]] + v[1..] == v;
    }
  }

  // ---- whole queries

  datatype FilterKind = Exact | NotExact | StartsWith | Contains | Regex | NotRegex

  datatype Filter = Filter(tag: string, kind: FilterKind, value: string)

  function Operator(k: FilterKind): string {
    match k
    case Exact => " == '"
    case NotExact => " != '"
    case StartsWith => " starts_with '"
    case Contains => " contains '"
    case Regex => " =~ '"
    case NotRegex => " !~ '"
  }

  /** `to_query_str` of one filter with the value written as `written`. */
  function OneFilter(f: Filter, written: string): string {
    f.tag + (Operator(f.kind) + (written + ['\'']))
  }

  /** The filters joined with AND, each in parentheses, with every value escaped. */
  function Query(filters: seq<Filter>, first: bool): string {
    if filters == [] then ""
    else (if first then "(" else " AND (") + (OneFilter(filters[0], EscapeFilter(filters[0].value)) + (")" + Query(filters[1..], false)))
  }

  /** The expression MPD should parse: every value at filter level only. */
  function Expression(filters: seq<Filter>, first: bool): string {
    if filters == [] then ""
    else (if first then "(" else " AND (") + (OneFilter(filters[0], FilterLevel(filters[0].value)) + (")" + Expression(filters[1..], false)))
  }

  predicate NoSpecial(s: string) {
    '\\' !in s && '"' !in s
  }

  lemma {:induction false} PlainPasses(p: string, rest: string)
    requires NoSpecial(p)
    ensures Unquote(p + rest, '"') == Prepend(p, Unquote(rest, '"'))
  {
    if p == "" {
      assert p + rest == rest;
      PrependNothing(Unquote(rest, '"'));
    } else {
      assert p + rest == [p[0]] + (p[1..] + rest);
      UnquoteChar(p[0], p[1..] + rest, '"');
      PlainPasses(p[1..], rest);
      PrependTwice([p[0]], p[1..], Unquote(rest, '"'));
      assert [p[0]] + p[1..] == p;
    }
  }

  lemma OneFilterPasses(f: Filter, rest: string)
    requires NoSpecial(f.tag)
    ensures Unquote(OneFilter(f, EscapeFilter(f.value)) + rest, '"')
         == Prepend(OneFilter(f, FilterLevel(f.value)), Unquote(rest, '"'))
  {
    var v := f.value;
    ReplacementsAreSimultaneous(v);
    var r3 := ['\''] + rest;
    var r2 := EscapedAll(v) + r3;
    var r1 := Operator(f.kind) + r2;
    assert OneFilter(f, EscapedAll(v)) + rest == f.tag + r1;
    PlainPasses(f.tag, r1);
    OperatorIsPlain(f.kind);
    PlainPasses(Operator(f.kind), r2);
    ArgumentLevel(v, r3);
    PlainPasses(['\''], rest);
    var u := Unquote(rest, '"');
    PrependTwice(FilterLevel(v), ['\''], u);
    PrependTwice(Operator(f.kind), FilterLevel(v) + ['\''], u);
    PrependTwice(f.tag, Operator(f.kind) + (FilterLevel(v) + ['\'']), u);
  }

  lemma OperatorIsPlain(k: FilterKind)
    ensures NoSpecial(Operator(k))
  {
  }

  lemma QueryUnfolds(filters: seq<Filter>, first: bool, tail: string)
    requires filters != []
    ensures Query(filters, first) + tail
         == (if first then "(" else " AND (")
            + (OneFilter(filters[0], EscapeFilter(filters[0].value)) + (")" + (Query(filters[1..], false) + tail)))
  {
    var open := if first then "(" else " AND (";
    var one := OneFilter(filters[0], EscapeFilter(filters[0].value));
    var more := Query(filters[1..], false);
    Regroup(open, one + (")" + more), tail);
    Regroup(one, ")" + more, tail);
    Regroup(")", more, tail);
  }

  /** The argument MPD receives is the expression with every value intact, whatever the values. */
  lemma {:induction false} QueryArrives(filters: seq<Filter>, first: bool, rest: string)
    requires forall f | f in filters :: NoSpecial(f.tag)
    ensures Unquote(Query(filters, first) + (['"'] + rest), '"') == Some((Expression(filters, first), rest))
  {
    var tail := ['"'] + rest;
    if filters == [] {
      assert Query(filters, first) + tail == tail && tail[1..] == rest;
    } else {
      var f := filters[0];
      var open := if first then "(" else " AND (";
      var r2 := Query(filters[1..], false) + tail;
      var r1 := ")" + r2;
      var one := OneFilter(f, EscapeFilter(f.value));
      QueryUnfolds(filters, first, tail);
      PlainPasses(open, one + r1);
      OneFilterPasses(f, r1);
      PlainPasses(")", r2);
      QueryArrives(filters[1..], false, rest);
    }
  }

  /** And from a value's opening quote MPD's expression parser reads exactly the value and is
      left right behind the closing quote. */
  lemma ValueArrives(f: Filter, behind: string)
    ensures var s := OneFilter(f, FilterLevel(f.value)) + behind;
      var opening := |f.tag| + |Operator(f.kind)|;
      && s[opening - 1] == '\''
      && Unquote(s[opening..], '\'') == Some((f.value, behind))
  {
    var s := OneFilter(f, FilterLevel(f.value)) + behind;
    var opening := |f.tag| + |Operator(f.kind)|;
    assert s[opening..] == FilterLevel(f.value) + (['\''] + behind);
    assert s[opening - 1] == Operator(f.kind)[|Operator(f.kind)| - 1];
    FilterLevelUnquotes(f.value, behind);
  }
}
