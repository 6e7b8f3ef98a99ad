/**
 What rmpc's tokenizer makes of a command line: words of bare, escaped, single-quoted and
 double-quoted pieces, and the three ways a line can be left unfinished.
 */
module CommandLine {
  import opened Wrappers
  import opened Text
  import opened Quoting

  /** A character as it is, or behind a backslash. */
  datatype Unit = Raw(c: char) | Escaped(c: char)

  datatype Piece = Bare(unit: Unit) | Single(text: string) | Double(units: seq<Unit>)

  /** A backslash is dropped in front of these and kept in front of anything else. */
  predicate Escapable(c: char) {
    c == '\'' || c == '"' || c == '\\' || IsWhitespace(c)
  }

  function UnitText(u: Unit): string {
    match u
    case Raw(c) => [c]
    case Escaped(c) => ['\\', c]
  }

  function UnitMeaning(u: Unit): string {
    match u
    case Raw(c) => [c]
    case Escaped(c) => if Escapable(c) then [c] else ['\\', c]
  }

  function UnitsText(us: seq<Unit>): string {
    if us == [] then "" else UnitText(us[0]) + UnitsText(us[1..])
  }

  function UnitsMeaning(us: seq<Unit>): string {
    if us == [] then "" else UnitMeaning(us[0]) + UnitsMeaning(us[1..])
  }

  /** What can stand inside double quotes. */
  predicate InsideDouble(us: seq<Unit>) {
    forall u | u in us :: u.Raw? ==> u.c != '"' && u.c != '\\'
  }

  predicate GoodPiece(p: Piece) {
    match p
    case Bare(u) => u.Raw? ==> !Escapable(u.c)
    case Single(text) => '\'' !in text
    case Double(us) => InsideDouble(us)
  }

  function PieceText(p: Piece): string {
    match p
    case Bare(u) => UnitText(u)
    case Single(text) => ['\''] + (text + ['\''])
    case Double(us) => ['"'] + (UnitsText(us) + ['"'])
  }

  function PieceMeaning(p: Piece): string {
    match p
    case Bare(u) => UnitMeaning(u)
    case Single(text) => text
    case Double(us) => UnitsMeaning(us)
  }

  function WordText(ps: seq<Piece>): string {
    if ps == [] then "" else PieceText(ps[0]) + WordText(ps[1..])
  }

  function WordMeaning(ps: seq<Piece>): string {
    if ps == [] then "" else PieceMeaning(ps[0]) + WordMeaning(ps[1..])
  }

  predicate GoodWord(ps: seq<Piece>) {
    ps != [] && forall p | p in ps :: GoodPiece(p)
  }

  /** Words one after the other, `gaps[i]` behind word i. */
  function WordsText(words: seq<seq<Piece>>, gaps: seq<string>): string
    requires |gaps| == |words|
  {
    if words == [] then "" else WordText(words[0]) + (gaps[0] + WordsText(words[1..], gaps[1..]))
  }

  function Meanings(words: seq<seq<Piece>>): seq<string> {
    seq(|words|, i requires 0 <= i < |words| => WordMeaning(words[i]))
  }

  // ---- pieces

  predicate Unquoted(t: Tokenizer) {
    !t.escaped && !t.inSingleQuote && !t.inDoubleQuote
  }

  lemma OneStep(t: Tokenizer, c: char)
    ensures Steps(t, [c]) == Step(t, c)
  {
    assert [c][1..] == [];
  }

  lemma Joined(a: string, b: string, c: string)
    ensures a + b + c == a + (b + c)
  {
  }

  lemma EscapedSteps(t: Tokenizer, c: char)
    requires !t.escaped && !t.inSingleQuote
    ensures Steps(t, ['\\', c]) == t.(token := t.token + UnitMeaning(Escaped(c)), inArg := true)
  {
    assert ['\\', c] == ['\\'] + [c];
    StepsConcat(t, ['\\'], [c]);
    OneStep(t, '\\');
    OneStep(t.(escaped := true), c);
  }

  lemma {:induction false} SingleSteps(t: Tokenizer, text: string)
    requires !t.escaped && t.inSingleQuote && !t.inDoubleQuote && t.inArg && '\'' !in text
    ensures Steps(t, text) == t.(token := t.token + text)
    decreases text
  {
    if text == "" {
      assert t.token + "" == t.token;
    } else {
      assert text[0] in text;
      SingleSteps(t.(token := t.token + [text[0]]), text[1..]);
      assert t.token + [text[0]] + text[1..] == t.token + text;
    }
  }

  lemma {:induction false} DoubleSteps(t: Tokenizer, us: seq<Unit>)
    requires !t.escaped && !t.inSingleQuote && t.inDoubleQuote && t.inArg && InsideDouble(us)
    ensures Steps(t, UnitsText(us)) == t.(token := t.token + UnitsMeaning(us))
    decreases us
  {
    if us == [] {
      assert t.token + "" == t.token;
    } else {
      var u := us[0];
      assert u in us;
      StepsConcat(t, UnitText(u), UnitsText(us[1..]));
      if u.Raw? { OneStep(t, u.c); } else { EscapedSteps(t, u.c); }
      DoubleSteps(t.(token := t.token + UnitMeaning(u)), us[1..]);
      Joined(t.token, UnitMeaning(u), UnitsMeaning(us[1..]));
    }
  }

  lemma PieceSteps(t: Tokenizer, p: Piece)
    requires Unquoted(t) && GoodPiece(p)
    ensures Steps(t, PieceText(p)) == t.(token := t.token + PieceMeaning(p), inArg := true)
  {
    match p
    case Bare(u) =>
      if u.Raw? { OneStep(t, u.c); } else { EscapedSteps(t, u.c); }
    case Single(text) =>
      var t1 := t.(inSingleQuote := true, inArg := true);
      StepsConcat(t, ['\''], text + ['\'']);
      StepsConcat(t1, text, ['\'']);
      OneStep(t, '\'');
      SingleSteps(t1, text);
      OneStep(t1.(token := t.token + text), '\'');
    case Double(us) =>
      var t1 := t.(inDoubleQuote := true, inArg := true);
      StepsConcat(t, ['"'], UnitsText(us) + ['"']);
      StepsConcat(t1, UnitsText(us), ['"']);
      OneStep(t, '"');
      DoubleSteps(t1, us);
      OneStep(t1.(token := t.token + UnitsMeaning(us)), '"');
  }

  /** Pieces that touch are one word. */
  lemma {:induction false} WordSteps(t: Tokenizer, ps: seq<Piece>)
    requires Unquoted(t) && forall p | p in ps :: GoodPiece(p)
    ensures Steps(t, WordText(ps)) == t.(token := t.token + WordMeaning(ps), inArg := t.inArg || ps != [])
    decreases ps
  {
    if ps == [] {
      assert t.token + "" == t.token;
    } else {
      var p := ps[0];
      assert p in ps;
      StepsConcat(t, PieceText(p), WordText(ps[1..]));
      PieceSteps(t, p);
      WordSteps(t.(token := t.token + PieceMeaning(p), inArg := true), ps[1..]);
      Joined(t.token, PieceMeaning(p), WordMeaning(ps[1..]));
    }
  }

  // ---- lines

  /** One word between others. */
  lemma OneWord(t: Tokenizer, word: seq<Piece>)
    requires Between(t) && GoodWord(word)
    ensures Steps(t, WordText(word)) == t.(token := WordMeaning(word), inArg := true)
  {
    WordSteps(t, word);
    assert "" + WordMeaning(word) == WordMeaning(word);
  }

  /** And the white space behind it. */
  lemma WordAndGap(t: Tokenizer, word: seq<Piece>, gap: string)
    requires Between(t) && GoodWord(word) && AllWhitespace(gap) && gap != ""
    ensures Steps(t, WordText(word) + gap) == START.(args := t.args + [WordMeaning(word)])
  {
    StepsConcat(t, WordText(word), gap);
    OneWord(t, word);
    Separator(t.(token := WordMeaning(word), inArg := true), gap);
  }

  lemma MeaningsGrow(args: seq<string>, words: seq<seq<Piece>>)
    requires words != []
    ensures args + [WordMeaning(words[0])] + Meanings(words[1..]) == args + Meanings(words)
  {
    assert Meanings(words) == [WordMeaning(words[0])] + Meanings(words[1..]);
  }

  lemma WordsGrow(words: seq<seq<Piece>>, gaps: seq<string>)
    requires words != [] && |gaps| == |words|
    ensures WordsText(words, gaps) == WordText(words[0]) + gaps[0] + WordsText(words[1..], gaps[1..])
  {
  }

  lemma LastWord(t: Tokenizer, words: seq<seq<Piece>>, gaps: seq<string>)
    requires Between(t) && |words| == |gaps| == 1 && gaps[0] == "" && GoodWord(words[0])
    ensures Unquoted(Steps(t, WordsText(words, gaps)))
    ensures Finish(Steps(t, WordsText(words, gaps))) == Success(t.args + Meanings(words))
  {
    OneWord(t, words[0]);
    assert WordsText(words, gaps) == WordText(words[0]);
    assert Meanings(words) == [WordMeaning(words[0])];
  }

  lemma {:induction false} WordsSteps(t: Tokenizer, words: seq<seq<Piece>>, gaps: seq<string>)
    requires Between(t) && |gaps| == |words| && Separated(gaps) && forall w | w in words :: GoodWord(w)
    ensures Unquoted(Steps(t, WordsText(words, gaps)))
    ensures Finish(Steps(t, WordsText(words, gaps))) == Success(t.args + Meanings(words))
    decreases |words|
  {
    if words == [] {
      assert Meanings(words) == [] && t.args + [] == t.args;
    } else {
      assert words[0] in words && gaps[0] in gaps;
      if gaps[0] == "" {
        assert |words| == 1;
        LastWord(t, words, gaps);
      } else {
        var t2 := START.(args := t.args + [WordMeaning(words[0])]);
        WordsGrow(words, gaps);
        StepsConcat(t, WordText(words[0]) + gaps[0], WordsText(words[1..], gaps[1..]));
        WordAndGap(t, words[0], gaps[0]);
        SeparatedTail(gaps);
        WordsSteps(t2, words[1..], gaps[1..]);
        MeaningsGrow(t.args, words);
      }
    }
  }

  lemma SeparatedTail(gaps: seq<string>)
    requires gaps != [] && Separated(gaps)
    ensures Separated(gaps[1..])
  {
    assert forall g | g in gaps[1..] :: g in gaps;
    assert forall i | 0 <= i < |gaps[1..]| - 1 :: gaps[1..][i] == gaps[i + 1];
  }

  lemma LineMeans(words: seq<seq<Piece>>, gaps: seq<string>, lead: string)
    requires |gaps| == |words| && Separated(gaps) && AllWhitespace(lead) && forall w | w in words :: GoodWord(w)
    ensures Unquoted(Steps(START, lead + WordsText(words, gaps)))
    ensures Finish(Steps(START, lead + WordsText(words, gaps))) == Success(Meanings(words))
  {
    StepsConcat(START, lead, WordsText(words, gaps));
    if lead != "" { Separator(START, lead); }
    WordsSteps(START, words, gaps);
    assert [] + Meanings(words) == Meanings(words);
  }

  /** A line of words reads as the words: single quotes keep everything, double quotes everything
      but escapes, a backslash makes a quote, a backslash or white space ordinary and is itself
      kept in front of anything else, and only white space outside quotes ends a word. */
  lemma CommandLineMeaning(words: seq<seq<Piece>>, gaps: seq<string>, lead: string)
    requires |gaps| == |words| && Separated(gaps) && AllWhitespace(lead) && forall w | w in words :: GoodWord(w)
    ensures Finish(Steps(START, lead + WordsText(words, gaps))) == Success(Meanings(words))
  {
    LineMeans(words, gaps, lead);
  }

  /** Behind any such line an open quote or a last backslash is an error, each its own; a backslash
      is told before the quote it stands in. */
  lemma UnfinishedLine(words: seq<seq<Piece>>, gaps: seq<string>, lead: string, text: string, us: seq<Unit>)
    requires |gaps| == |words| && Separated(gaps) && AllWhitespace(lead) && forall w | w in words :: GoodWord(w)
    requires '\'' !in text && InsideDouble(us)
    ensures var line := lead + WordsText(words, gaps);
      && Finish(Steps(START, line + (['\''] + text))) == Failure(UnclosedSingleQuote)
      && Finish(Steps(START, line + (['"'] + UnitsText(us)))) == Failure(UnclosedDoubleQuote)
      && Finish(Steps(START, line + ['\\'])) == Failure(DanglingBackslash)
      && Finish(Steps(START, line + ((['"'] + UnitsText(us)) + ['\\']))) == Failure(DanglingBackslash)
  {
    var line := lead + WordsText(words, gaps);
    LineMeans(words, gaps, lead);
    StepsConcat(START, line, ['\''] + text);
    StepsConcat(START, line, ['"'] + UnitsText(us));
    StepsConcat(START, line, ['\\']);
    StepsConcat(START, line, (['"'] + UnitsText(us)) + ['\\']);
    OpenQuotes(Steps(START, line), text, us);
  }

  lemma OpenQuotes(t: Tokenizer, text: string, us: seq<Unit>)
    requires Unquoted(t) && '\'' !in text && InsideDouble(us)
    ensures Finish(Steps(t, ['\''] + text)) == Failure(UnclosedSingleQuote)
    ensures Finish(Steps(t, ['"'] + UnitsText(us))) == Failure(UnclosedDoubleQuote)
    ensures Finish(Steps(t, ['\\'])) == Failure(DanglingBackslash)
    ensures Finish(Steps(t, (['"'] + UnitsText(us)) + ['\\'])) == Failure(DanglingBackslash)
  {
    StepsConcat(t, ['\''], text);
    OneStep(t, '\'');
    SingleSteps(t.(inSingleQuote := true, inArg := true), text);
    StepsConcat(t, ['"'], UnitsText(us));
    OneStep(t, '"');
    DoubleSteps(t.(inDoubleQuote := true, inArg := true), us);
    OneStep(t, '\\');
    StepsConcat(t, ['"'] + UnitsText(us), ['\\']);
    OneStep(Steps(t, ['"'] + UnitsText(us)), '\\');
  }
}
