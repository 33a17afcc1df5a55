/** The RON check on the three texts the repository's tests feed it. */
module RonExamples {
  import opened Wrappers
  import opened Ron
  import opened RonGrammar

  /** Text that brings a plain state with stack `p` back to itself. */
  predicate Neutral(p: seq<char>, x: string) {
    Run(Plain(p), x) == Some(Plain(p))
  }

  lemma NeutralConcat(p: seq<char>, x: string, y: string)
    requires Neutral(p, x) && Neutral(p, y)
    ensures Neutral(p, x + y)
  {
    RunAppend(Plain(p), x, y);
  }

  lemma NeutralBracketed(p: seq<char>, o: char, x: string)
    requires IsOpener(o) && Neutral(p + [o], x)
    ensures Neutral(p, [o] + x + [CloserFor(o)])
  {
    RunAppend(Plain(p), [o], x + [CloserFor(o)]);
    RunAppend(Plain(p + [o]), x, [CloserFor(o)]);
    assert (p + [o])[..|p|] == p;
    assert [o] + x + [CloserFor(o)] == [o] + (x + [CloserFor(o)]);
  }

  /** Text free of brackets, quotes and backslashes is neutral anywhere outside quotes. */
  lemma NeutralInert(p: seq<char>, x: string)
    requires forall i :: 0 <= i < |x| ==> Inert(x[i])
    ensures Neutral(p, x)
  {
    InertRun(p, x);
  }

  /** A literal whose body has no quote and no backslash is neutral outside quotes. */
  lemma {:induction false} NeutralLiteral(p: seq<char>, b: string)
    requires forall i :: 0 <= i < |b| ==> b[i] != '"' && b[i] != '\\'
    ensures Neutral(p, ['"'] + b + ['"'])
  {
    SimpleBody(b);
    NodeNeutral(p, Quoted(b));
  }

  lemma {:induction false} SimpleBody(b: string)
    requires forall i :: 0 <= i < |b| ==> b[i] != '"' && b[i] != '\\'
    ensures StringBody(b)
    decreases |b|
  {
    if b != [] {
      SimpleBody(b[1..]);
    }
  }

  predicate AllInert(x: string) {
    forall i :: 0 <= i < |x| ==> Inert(x[i])
  }

  predicate NoQuoteOrBackslash(b: string) {
    forall i :: 0 <= i < |b| ==> b[i] != '"' && b[i] != '\\'
  }

  /** Appending a run of ordinary characters keeps a text neutral. */
  lemma ThenInert(q: seq<char>, x: string, c: string)
    requires Neutral(q, x) && AllInert(c)
    ensures Neutral(q, x + c)
  {
    NeutralInert(q, c);
    NeutralConcat(q, x, c);
  }

  /** Appending a simple string literal keeps a text neutral. */
  lemma ThenLiteral(q: seq<char>, x: string, b: string)
    requires Neutral(q, x) && NoQuoteOrBackslash(b)
    ensures Neutral(q, x + (['"'] + b + ['"']))
  {
    NeutralLiteral(q, b);
    NeutralConcat(q, x, ['"'] + b + ['"']);
  }

  /** Appending a bracket group around ordinary characters keeps a text neutral. */
  lemma ThenGroup(q: seq<char>, x: string, o: char, d: string)
    requires Neutral(q, x) && IsOpener(o) && AllInert(d)
    ensures Neutral(q, x + ([o] + d + [CloserFor(o)]))
  {
    NeutralInert(q + [o], d);
    NeutralBracketed(q, o, d);
    NeutralConcat(q, x, [o] + d + [CloserFor(o)]);
  }

  /** A neutral text between parentheses is accepted. */
  lemma Parenthesised(x: string)
    requires Neutral(['('], x)
    ensures ValidRon(['('] + x + [')'])
  {
    assert [] + ['('] == ['('];
    NeutralBracketed([], '(', x);
  }

  /** A neutral text after an opening parenthesis leaves it open: rejected. */
  lemma LeftOpen(x: string)
    requires Neutral(['('], x)
    ensures !ValidRon(['('] + x)
  {
    RunAppend(Start, ['('], x);
    assert Step(Start, '(') == Some(Plain([] + ['(']));
    assert [] + ['('] == ['('];
    assert ['('][1..] == [];
  }

  /** After `(`, the run `a"b"c[d]` of plain pieces is neutral. */
  lemma OpeningPart(a: string, b: string, c: string, d: string)
    requires AllInert(a) && NoQuoteOrBackslash(b) && AllInert(c) && AllInert(d)
    ensures Neutral(['('], a + ['"'] + b + ['"'] + c + ['['] + d + [']'])
  {
    var q := ['('];
    NeutralInert(q, a);
    ThenLiteral(q, a, b);
    var x1 := a + (['"'] + b + ['"']);
    ThenInert(q, x1, c);
    ThenGroup(q, x1 + c, '[', d);
    assert x1 + c + (['['] + d + [']']) == a + ['"'] + b + ['"'] + c + ['['] + d + [']'];
  }

  /** The shape `(a"b"c[d]e(f))` with plain pieces: accepted. */
  lemma NestedShapeValid(a: string, b: string, c: string, d: string, e: string, f: string)
    requires AllInert(a) && NoQuoteOrBackslash(b) && AllInert(c) && AllInert(d) && AllInert(e) && AllInert(f)
    ensures ValidRon(['('] + a + ['"'] + b + ['"'] + c + ['['] + d + [']'] + e + ['('] + f + [')'] + [')'])
  {
    var q := ['('];
    var x3 := a + ['"'] + b + ['"'] + c + ['['] + d + [']'];
    OpeningPart(a, b, c, d);
    ThenInert(q, x3, e);
    ThenGroup(q, x3 + e, '(', f);
    var x5 := x3 + e + (['('] + f + [')']);
    Parenthesised(x5);
    assert ['('] + a + ['"'] + b + ['"'] + c + ['['] + d + [']'] == ['('] + x3;
    assert ['('] + x5 + [')'] == ['('] + x3 + e + ['('] + f + [')'] + [')'];
  }

  /** The shape `(a"b"c[d]` with plain pieces: one bracket left open, rejected. */
  lemma UnclosedShapeInvalid(a: string, b: string, c: string, d: string)
    requires AllInert(a) && NoQuoteOrBackslash(b) && AllInert(c) && AllInert(d)
    ensures !ValidRon(['('] + a + ['"'] + b + ['"'] + c + ['['] + d + [']'])
  {
    var x3 := a + ['"'] + b + ['"'] + c + ['['] + d + [']'];
    OpeningPart(a, b, c, d);
    LeftOpen(x3);
    assert ['('] + x3 == ['('] + a + ['"'] + b + ['"'] + c + ['['] + d + [']'];
  }

  /** The shape `(a"b"c(f))` with plain pieces: accepted. */
  lemma QuotedShapeValid(a: string, b: string, c: string, f: string)
    requires AllInert(a) && NoQuoteOrBackslash(b) && AllInert(c) && AllInert(f)
    ensures ValidRon(['('] + a + ['"'] + b + ['"'] + c + ['('] + f + [')'] + [')'])
  {
    var q := ['('];
    NeutralInert(q, a);
    ThenLiteral(q, a, b);
    var x1 := a + (['"'] + b + ['"']);
    ThenInert(q, x1, c);
    ThenGroup(q, x1 + c, '(', f);
    var x3 := x1 + c + (['('] + f + [')']);
    Parenthesised(x3);
    assert ['('] + x3 + [')'] == ['('] + a + ['"'] + b + ['"'] + c + ['('] + f + [')'] + [')'];
  }

  lemma NestedTailText()
    ensures ", nested: " + ['('] + "a: 1" + [')'] + [')'] == ", nested: (a: 1))"
  {
  }

  lemma BalancedText()
    ensures ['('] + "key: " + ['"'] + "value" + ['"'] + ", list: " + ['['] + "1, 2, 3" + [']'] + ", nested: " + ['('] + "a: 1" + [')'] + [')']
         == "(key: \"value\", list: [1, 2, 3], nested: (a: 1))"
  {
    UnclosedText();
    NestedTailText();
    assert "(key: \"value\", list: [1, 2, 3], nested: (a: 1))" == "(key: \"value\", list: [1, 2, 3]" + ", nested: (a: 1))";
  }

  lemma UnclosedText()
    ensures ['('] + "key: " + ['"'] + "value" + ['"'] + ", list: " + ['['] + "1, 2, 3" + [']']
         == "(key: \"value\", list: [1, 2, 3]"
  {
    var head := ['('] + "key: " + ['"'] + "value" + ['"'];
    var list := ", list: " + ['['] + "1, 2, 3" + [']'];
    assert head == "(key: \"value\"";
    assert list == ", list: [1, 2, 3]";
    assert "(key: \"value\", list: [1, 2, 3]" == "(key: \"value\"" + ", list: [1, 2, 3]";
    assert head + list == ['('] + "key: " + ['"'] + "value" + ['"'] + ", list: " + ['['] + "1, 2, 3" + [']'];
  }

  lemma QuotedHeadText()
    ensures ['('] + "key: " + ['"'] + "value (with paren)" + ['"'] == "(key: \"value (with paren)\""
  {
    assert ['('] + "key: " + ['"'] == "(key: \"";
    assert "value (with paren)" + ['"'] == "value (with paren)\"";
    assert "(key: \"value (with paren)\"" == "(key: \"" + "value (with paren)\"";
  }

  lemma QuotedText()
    ensures ['('] + "key: " + ['"'] + "value (with paren)" + ['"'] + ", nested: " + ['('] + "a: 1" + [')'] + [')']
         == "(key: \"value (with paren)\", nested: (a: 1))"
  {
    var head := ['('] + "key: " + ['"'] + "value (with paren)" + ['"'];
    QuotedHeadText();
    NestedTailText();
    assert "(key: \"value (with paren)\", nested: (a: 1))" == "(key: \"value (with paren)\"" + ", nested: (a: 1))";
    assert head + (", nested: " + ['('] + "a: 1" + [')'] + [')']) == ['('] + "key: " + ['"'] + "value (with paren)" + ['"'] + ", nested: " + ['('] + "a: 1" + [')'] + [')'];
  }

  /** `(key: "value", list: [1, 2, 3], nested: (a: 1))` is valid. */
  lemma BalancedExampleValid()
    ensures ValidRon("(key: \"value\", list: [1, 2, 3], nested: (a: 1))")
  {
    NestedShapeValid("key: ", "value", ", list: ", "1, 2, 3", ", nested: ", "a: 1");
    BalancedText();
  }

  /** `(key: "value", list: [1, 2, 3]`, missing its last `)`, is invalid. */
  lemma MissingCloserInvalid()
    ensures !ValidRon("(key: \"value\", list: [1, 2, 3]")
  {
    UnclosedShapeInvalid("key: ", "value", ", list: ", "1, 2, 3");
    UnclosedText();
  }

  /** `(key: "value (with paren)", nested: (a: 1))` is valid: the quoted `(` is ignored. */
  lemma QuotedParenValid()
    ensures ValidRon("(key: \"value (with paren)\", nested: (a: 1))")
  {
    QuotedShapeValid("key: ", "value (with paren)", ", nested: ", "a: 1");
    QuotedText();
  }
}
