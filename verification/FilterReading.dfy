/**
 The filters MPD reads: a whole query, through both levels of quoting, is the list of filters it
 was written for.
 */
module FilterReading {
  import opened Wrappers
  import opened Text
  import opened FilterEscape

  /** MPD's operators, "Filters" in its protocol reference, each with the quote behind it. */
  function ReadOperator(s: string): Option<(FilterKind, string)> {
    if " == '" <= s then Some((Exact, s[5..]))
    else if " != '" <= s then Some((NotExact, s[5..]))
    else if " =~ '" <= s then Some((Regex, s[5..]))
    else if " !~ '" <= s then Some((NotRegex, s[5..]))
    else if " contains '" <= s then Some((Contains, s[11..]))
    else if " starts_with '" <= s then Some((StartsWith, s[14..]))
    else None
  }

  lemma {:induction false} UnquoteShrinks(s: string, quote: char)
    ensures Unquote(s, quote).Some? ==> |Unquote(s, quote).value.1| < |s|
  {
    if s != "" && s[0] != quote {
      if s[0] != '\\' { UnquoteShrinks(s[1..], quote); }
      else if |s| > 1 { UnquoteShrinks(s[2..], quote); }
    }
  }

  /** One filter up to its closing parenthesis: a tag, an operator, a quoted value. */
  function ReadFilter(s: string): (r: Option<(Filter, string)>)
    ensures r.Some? ==> |r.value.1| < |s|
  {
    match Find(s, " ")
    case None => None
    case Some(i) =>
      match ReadOperator(s[i..])
      case None => None
      case Some((kind, behind)) =>
        UnquoteShrinks(behind, '\'');
        match Unquote(behind, '\'')
        case None => None
        case Some((value, rest)) => if ")" <= rest then Some((Filter(s[..i], kind, value), rest[1..])) else None
  }

  /** Filters in parentheses, joined by AND. */
  function ReadFilters(s: string, first: bool): Option<seq<Filter>>
    decreases |s|
  {
    var open := if first then "(" else " AND (";
    if s == "" then Some([])
    else if !(open <= s) then None
    else
      match ReadFilter(s[|open|..])
      case None => None
      case Some((filter, rest)) =>
        match ReadFilters(rest, false)
        case None => None
        case Some(more) => Some([filter] + more)
  }

  predicate PlainTag(tag: string) {
    NoSpecial(tag) && ' ' !in tag
  }

  /** The operators differ in their second or third character. */
  lemma OperatorRead(kind: FilterKind, behind: string)
    ensures Operator(kind) != "" && Operator(kind)[0] == ' '
    ensures ReadOperator(Operator(kind) + behind) == Some((kind, behind))
  {
    var op := Operator(kind);
    var s := op + behind;
    assert s[..|op|] == op && s[|op|..] == behind;
    assert s[1] == op[1] && s[2] == op[2];
    match kind
    case Exact => assert s[1] == '=' && s[2] == '=';
    case NotExact => assert s[1] == '!' && s[2] == '=';
    case Regex => assert s[1] == '=' && s[2] == '~';
    case NotRegex => assert s[1] == '!' && s[2] == '~';
    case Contains => assert s[1] == 'c';
    case StartsWith => assert s[1] == 's';
  }

  lemma FilterRead(f: Filter, rest: string)
    requires PlainTag(f.tag)
    ensures ReadFilter(OneFilter(f, FilterLevel(f.value)) + (")" + rest)) == Some((f, rest))
  {
    var behind := FilterLevel(f.value) + (['\''] + (")" + rest));
    var op := Operator(f.kind) + behind;
    var s := OneFilter(f, FilterLevel(f.value)) + (")" + rest);
    assert s == f.tag + op;
    OperatorRead(f.kind, behind);
    TagRead(f.tag, op);
    FilterLevelUnquotes(f.value, ")" + rest);
    assert (")" + rest)[1..] == rest;
  }

  lemma TagRead(tag: string, op: string)
    requires ' ' !in tag && op != "" && op[0] == ' '
    ensures Find(tag + op, " ") == Some(|tag|)
    ensures (tag + op)[..|tag|] == tag && (tag + op)[|tag|..] == op
  {
    FindAfter(tag, " ", op[1..]);
    assert tag + " " + op[1..] == tag + op;
  }

  lemma {:induction false} ExpressionRead(filters: seq<Filter>, first: bool)
    requires forall f | f in filters :: PlainTag(f.tag)
    ensures ReadFilters(Expression(filters, first), first) == Some(filters)
    decreases filters
  {
    if filters != [] {
      var f, more := filters[0], Expression(filters[1..], false);
      var open := if first then "(" else " AND (";
      var one := OneFilter(f, FilterLevel(f.value)) + (")" + more);
      assert Expression(filters, first) == open + one;
      assert (open + one)[|open|..] == one;
      FilterRead(f, more);
      ExpressionRead(filters[1..], false);
      assert [f] + filters[1..] == filters;
    }
  }

  /** Whatever the values, MPD reads from the argument exactly the filters of the query: each tag,
      each operator and each value, in order, and nothing behind them. */
  lemma FiltersArrive(filters: seq<Filter>, rest: string)
    requires forall f | f in filters :: PlainTag(f.tag)
    ensures var argument := Unquote(Query(filters, true) + (['"'] + rest), '"');
      argument.Some? && argument.value.1 == rest && ReadFilters(argument.value.0, true) == Some(filters)
  {
    QueryArrives(filters, true, rest);
    ExpressionRead(filters, true);
  }
}
