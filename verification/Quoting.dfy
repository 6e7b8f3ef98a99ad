/**
 Quoting an argument for MPD, and rmpc's own shell-like tokenizer, which undoes it.
 */
module Quoting {
  import opened Wrappers
  import opened Text

  // ---- quote_and_escape

  function EscapeChar(c: char): string {
    if c == '"' || c == '\\' then ['\\', c] else [c]
  }

  function Escape(s: string): string {
    if s == "" then "" else EscapeChar(s[0]) + Escape(s[1..])
  }

  function Quote(s: string): string {
    ['"'] + Escape(s) + ['"']
  }

  lemma {:induction false} EscapeAppend(s: string, c: char)
    ensures Escape(s + [c]) == Escape(s) + EscapeChar(c)
  {
    if s == "" {
      assert s + [c] == [c];
      assert Escape([c][1..]) == "";
    } else {
      EscapeAppend(s[1..], c);
      assert (s + [c])[1..] == s[1..] + [c];
    }
  }

  method QuoteAndEscape(s: string) returns (result: string)
    ensures result == Quote(s)
  {
    result := ['"'];
    assert s[..0] == "";
    for i := 0 to |s|
      invariant result == ['"'] + Escape(s[..i])
    {
      EscapeAppend(s[..i], s[i]);
      assert s[..i + 1] == s[..i] + [s[i]];
      if s[i] == '"' || s[i] == '\\' {
        result := result + ['\\'];
      }
      result := result + [s[i]];
    }
    assert s[..|s|] == s;
    result := result + ['"'];
  }

  // ---- split_command_line

  datatype TokenizerError = DanglingBackslash | UnclosedSingleQuote | UnclosedDoubleQuote

  /** The variables of the character loop. */
  datatype Tokenizer = Tokenizer(
    args: seq<string>,
    token: string,
    inSingleQuote: bool,
    inDoubleQuote: bool,
    escaped: bool,
    inArg: bool)

  const START := Tokenizer([], "", false, false, false, false)

  /** One character. */
  function Step(t: Tokenizer, c: char): Tokenizer {
    if t.escaped then
      if c == '\'' || c == '"' || IsWhitespace(c) || c == '\\' then
        t.(token := t.token + [c], inArg := true, escaped := false)
      else
        t.(token := t.token + ['\\', c], inArg := true, escaped := false)
    else if c == '\\' && !t.inSingleQuote then t.(escaped := true)
    else if c == '\'' && !t.inDoubleQuote then t.(inSingleQuote := !t.inSingleQuote, inArg := true)
    else if c == '"' && !t.inSingleQuote then t.(inDoubleQuote := !t.inDoubleQuote, inArg := true)
    else if IsWhitespace(c) && !t.inSingleQuote && !t.inDoubleQuote then
      if t.inArg then t.(args := t.args + [t.token], token := "", inArg := false) else t
    else t.(token := t.token + [c], inArg := true)
  }

  function Steps(t: Tokenizer, s: string): Tokenizer
    decreases |s|
  {
    if s == "" then t else Steps(Step(t, s[0]), s[1..])
  }

  function Finish(t: Tokenizer): Result<seq<string>, TokenizerError> {
    if t.escaped then Failure(DanglingBackslash)
    else if t.inSingleQuote then Failure(UnclosedSingleQuote)
    else if t.inDoubleQuote then Failure(UnclosedDoubleQuote)
    else Success(if t.inArg then t.args + [t.token] else t.args)
  }

  lemma {:induction false} StepsConcat(t: Tokenizer, a: string, b: string)
    ensures Steps(t, a + b) == Steps(Steps(t, a), b)
    decreases |a|
  {
    if a == "" {
      assert a + b == b;
    } else {
      StepsConcat(Step(t, a[0]), a[1..], b);
      assert (a + b)[1..] == a[1..] + b;
    }
  }

  method SplitCommandLine(s: string) returns (r: Result<seq<string>, TokenizerError>)
    ensures r == Finish(Steps(START, s))
  {
    var args: seq<string>, token: string := [], "";
    var inSingleQuote, inDoubleQuote, escaped, inArg := false, false, false, false;
    assert s[..0] == "";
    for i := 0 to |s|
      invariant Tokenizer(args, token, inSingleQuote, inDoubleQuote, escaped, inArg) == Steps(START, s[..i])
    {
      var ch := s[i];
      StepsConcat(START, s[..i], [ch]);
      assert s[..i + 1] == s[..i] + [ch] && [ch][1..] == [];
      if escaped {
        if ch == '\'' || ch == '"' || IsWhitespace(ch) {
          token := token + [ch];
          inArg := true;
        } else if ch == '\\' {
          token := token + ['\\'];
          inArg := true;
        } else {
          token := token + ['\\'];
          token := token + [ch];
          inArg := true;
        }
        escaped := false;
        continue;
      }
      if ch == '\\' && !inSingleQuote {
        escaped := true;
      } else if ch == '\'' && !inDoubleQuote {
        inSingleQuote := !inSingleQuote;
        inArg := true;
      } else if ch == '"' && !inSingleQuote {
        inDoubleQuote := !inDoubleQuote;
        inArg := true;
      } else if IsWhitespace(ch) && !inSingleQuote && !inDoubleQuote {
        if inArg {
          args := args + [token];
          token := "";
          inArg := false;
        }
      } else {
        token := token + [ch];
        inArg := true;
      }
    }
    assert s[..|s|] == s;
    if escaped { return Failure(DanglingBackslash); }
    if inSingleQuote { return Failure(UnclosedSingleQuote); }
    if inDoubleQuote { return Failure(UnclosedDoubleQuote); }
    if inArg { args := args + [token]; }
    return Success(args);
  }

  // ---- the round trip

  /** Between arguments. */
  predicate Between(t: Tokenizer) {
    t == START.(args := t.args)
  }

  /** Inside double quotes an escaped text adds exactly the text. */
  lemma {:induction false} InsideQuotes(t: Tokenizer, s: string)
    requires t.inDoubleQuote && !t.inSingleQuote && !t.escaped && t.inArg
    ensures Steps(t, Escape(s)) == t.(token := t.token + s)
    decreases |s|
  {
    if s == "" {
      assert t.token + "" == t.token;
    } else {
      StepsConcat(t, EscapeChar(s[0]), Escape(s[1..]));
      OneCharacter(t, s[0]);
      var t' := t.(token := t.token + [s[0]]);
      InsideQuotes(t', s[1..]);
      assert t.token + [s[0]] + s[1..] == t.token + s;
    }
  }

  lemma OneCharacter(t: Tokenizer, c: char)
    requires t.inDoubleQuote && !t.inSingleQuote && !t.escaped && t.inArg
    ensures Steps(t, EscapeChar(c)) == t.(token := t.token + [c])
  {
    if c == '"' || c == '\\' {
      var t1 := Step(t, '\\');
      assert ['\\', c][1..] == [c] && [c][1..] == [];
      assert Steps(t1, [c]) == Step(t1, c);
    } else {
      assert [c][1..] == [];
    }
  }

  /** One quoted argument, the empty one included. */
  lemma QuotedArgument(t: Tokenizer, s: string)
    requires Between(t)
    ensures Steps(t, Quote(s)) == t.(token := s, inArg := true)
  {
    var q := ['"'];
    assert q[1..] == [];
    StepsConcat(t, q + Escape(s), q);
    StepsConcat(t, q, Escape(s));
    var t1 := Steps(t, q);
    assert t1 == t.(inDoubleQuote := true, inArg := true);
    InsideQuotes(t1, s);
    assert "" + s == s;
  }

  /** White space ends an argument, however long it is. */
  lemma {:induction false} Separator(t: Tokenizer, w: string)
    requires !t.escaped && !t.inSingleQuote && !t.inDoubleQuote
    requires AllWhitespace(w) && w != ""
    ensures Steps(t, w) == if t.inArg then START.(args := t.args + [t.token]) else t
    decreases |w|
  {
    assert w[0] in w;
    var t1 := Step(t, w[0]);
    if |w| > 1 {
      assert forall c | c in w[1..] :: c in w;
      Separator(t1, w[1..]);
    } else {
      assert w[1..] == [];
    }
  }

  /** The arguments quoted one after the other, `gaps[i]` behind argument i. */
  function Line(args: seq<string>, gaps: seq<string>): string
    requires |gaps| == |args|
  {
    if args == [] then "" else Quote(args[0]) + (gaps[0] + Line(args[1..], gaps[1..]))
  }

  /** White space between any two arguments; the last gap may be empty. */
  predicate Separated(gaps: seq<string>) {
    && (forall g | g in gaps :: AllWhitespace(g))
    && (forall i | 0 <= i < |gaps| - 1 :: gaps[i] != "")
  }

  lemma {:induction false} LineSteps(t: Tokenizer, args: seq<string>, gaps: seq<string>)
    requires Between(t) && |gaps| == |args| && Separated(gaps)
    ensures Finish(Steps(t, Line(args, gaps))) == Success(t.args + args)
    decreases |args|
  {
    if args == [] {
      assert t.args + [] == t.args;
    } else {
      var rest := Line(args[1..], gaps[1..]);
      StepsConcat(t, Quote(args[0]), gaps[0] + rest);
      QuotedArgument(t, args[0]);
      var t1 := t.(token := args[0], inArg := true);
      StepsConcat(t1, gaps[0], rest);
      assert gaps[0] in gaps;
      if gaps[0] == "" {
        assert |args| == 1 && rest == "" && args == [args[0]];
      } else {
        Separator(t1, gaps[0]);
        var t2 := START.(args := t.args + [args[0]]);
        assert forall g | g in gaps[1..] :: g in gaps;
        assert forall i | 0 <= i < |gaps[1..]| - 1 :: gaps[1..][i] == gaps[i + 1];
        LineSteps(t2, args[1..], gaps[1..]);
        assert t.args + [args[0]] + args[1..] == t.args + args;
      }
    }
  }

  /** Quoting every argument and joining with any white space is undone exactly, for all
      arguments: empty ones, and ones with quotes, backslashes, spaces or line breaks. */
  lemma QuotingRoundTrip(args: seq<string>, gaps: seq<string>, lead: string)
    requires |gaps| == |args| && Separated(gaps) && AllWhitespace(lead)
    ensures Finish(Steps(START, lead + Line(args, gaps))) == Success(args)
  {
    LineAfterLead(START, args, gaps, lead);
    assert START.args + args == args;
  }

  lemma LineAfterLead(t: Tokenizer, args: seq<string>, gaps: seq<string>, lead: string)
    requires Between(t) && |gaps| == |args| && Separated(gaps) && AllWhitespace(lead)
    ensures Finish(Steps(t, lead + Line(args, gaps))) == Success(t.args + args)
  {
    StepsConcat(t, lead, Line(args, gaps));
    if lead != "" { Separator(t, lead); }
    LineSteps(t, args, gaps);
  }

  /** A quoted text ends in its own closing quote: no unescaped quote inside it. */
  lemma QuoteEndsOnce(s: string, n: nat)
    requires n < |Escape(s)|
    ensures var t := Steps(START, ['"'] + Escape(s)[..n]); t.inDoubleQuote
  {
    var q := ['"'];
    assert q[1..] == [];
    StepsConcat(START, q, Escape(s)[..n]);
    StaysInside(Steps(START, q), s, n);
  }

  lemma {:induction false} StaysInside(t: Tokenizer, s: string, n: nat)
    requires t.inDoubleQuote && !t.inSingleQuote && !t.escaped && t.inArg
    requires n <= |Escape(s)|
    ensures Steps(t, Escape(s)[..n]).inDoubleQuote
    decreases |s|
  {
    if n > 0 {
      var e := EscapeChar(s[0]);
      if n < |e| {
        assert Escape(s)[..n] == ['\\'] && ['\\'][1..] == [];
      } else {
        assert Escape(s)[..n] == e + Escape(s[1..])[..n - |e|];
        StepsConcat(t, e, Escape(s[1..])[..n - |e|]);
        OneCharacter(t, s[0]);
        StaysInside(t.(token := t.token + [s[0]]), s[1..], n - |e|);
      }
    }
  }
}
