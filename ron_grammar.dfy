/**
 * An independent description of the texts the RON check accepts: a forest of
 * well-nested bracket groups, string literals, escape pairs and other
 * characters, optionally followed by one unterminated string literal or a
 * lone backslash. A recursive-descent parser over the same alphabet connects
 * the description to the state machine in both directions.
 */
module RonGrammar {
  import opened Wrappers
  import opened Ron

  datatype Node =
    | Char(c: char)                       // a character with no meaning to the check
    | Escape(e: char)                     // a backslash and the character it swallows
    | Quoted(body: string)                // a complete string literal, quotes included
    | Group(open: char, inner: seq<Node>) // an opener, a nested forest, the matching closer

  /** The text between the quotes of a complete literal: no bare `"`, every backslash paired. */
  predicate StringBody(b: string)
    decreases |b|
  {
    if b == [] then true
    else if b[0] == '\\' then |b| >= 2 && StringBody(b[2..])
    else b[0] != '"' && StringBody(b[1..])
  }

  /** The text after the opening quote of a literal the input never closes. */
  predicate StringTail(b: string)
    decreases |b|
  {
    if b == [] then true
    else if b[0] == '\\' then |b| == 1 || StringTail(b[2..])
    else b[0] != '"' && StringTail(b[1..])
  }

  /** What may follow the last node at the end of input: a lone backslash or an unclosed literal. */
  predicate OpenTail(t: string) {
    t == ['\\'] || (t != [] && t[0] == '"' && StringTail(t[1..]))
  }

  predicate WellFormedNode(n: Node)
    decreases n
  {
    match n
    case Char(c) => Inert(c)
    case Escape(_) => true
    case Quoted(b) => StringBody(b)
    case Group(o, inner) => IsOpener(o) && WellFormed(inner)
  }

  predicate WellFormed(ns: seq<Node>)
    decreases ns
  {
    ns == [] || (WellFormedNode(ns[0]) && WellFormed(ns[1..]))
  }

  function RenderNode(n: Node): string
    decreases n
  {
    match n
    case Char(c) => [c]
    case Escape(e) => ['\\', e]
    case Quoted(b) => ['"'] + b + ['"']
    case Group(o, inner) => [o] + Render(inner) + [CloserFor(o)]
  }

  function Render(ns: seq<Node>): string
    decreases ns
  {
    if ns == [] then [] else RenderNode(ns[0]) + Render(ns[1..])
  }

  /** A whole document: a well-formed forest, then nothing or an open tail. */
  predicate Document(ns: seq<Node>, t: string) {
    WellFormed(ns) && (t == [] || OpenTail(t))
  }

  /** The texts the check is meant to accept, described without the state machine. */
  ghost predicate Accepted(s: string) {
    exists ns: seq<Node>, t: string :: Document(ns, t) && s == Render(ns) + t
  }

  lemma RenderCons(n: Node, ns: seq<Node>)
    ensures Render([n] + ns) == RenderNode(n) + Render(ns)
    ensures WellFormed([n] + ns) == (WellFormedNode(n) && WellFormed(ns))
  {
    assert ([n] + ns)[1..] == ns;
  }

  // ---------------------------------------------------------------------------
  // From the description to the state machine

  /** Inside quotes, a complete literal body leaves the state as it was. */
  lemma {:induction false} BodyKeepsState(p: seq<char>, b: string)
    requires StringBody(b)
    ensures Run(Scan(p, true, false), b) == Some(Scan(p, true, false))
    decreases |b|
  {
    if b != [] {
      if b[0] == '\\' {
        EscapeSkipsNext(Scan(p, true, false), b[1], b[2..]);
        assert b == ['\\', b[1]] + b[2..];
        BodyKeepsState(p, b[2..]);
      } else {
        BodyKeepsState(p, b[1..]);
      }
    }
  }

  /** Inside quotes, an unterminated literal never touches the stack. */
  lemma {:induction false} TailKeepsStack(p: seq<char>, b: string)
    requires StringTail(b)
    ensures Run(Scan(p, true, false), b).Some?
    ensures Run(Scan(p, true, false), b).value.stack == p
    decreases |b|
  {
    if b != [] {
      if b[0] == '\\' {
        if |b| >= 2 {
          EscapeSkipsNext(Scan(p, true, false), b[1], b[2..]);
          assert b == ['\\', b[1]] + b[2..];
          TailKeepsStack(p, b[2..]);
        }
      } else {
        TailKeepsStack(p, b[1..]);
      }
    }
  }

  /** Outside quotes, an open tail leaves the stack as it was and never fails. */
  lemma OpenTailKeepsStack(p: seq<char>, t: string)
    requires OpenTail(t)
    ensures Run(Plain(p), t).Some? && Run(Plain(p), t).value.stack == p
  {
    if t != ['\\'] {
      TailKeepsStack(p, t[1..]);
    }
  }

  /** A closed string literal is neutral. */
  lemma QuotedNeutral(p: seq<char>, b: string)
    requires StringBody(b)
    ensures Run(Plain(p), ['"'] + b + ['"']) == Some(Plain(p))
  {
    RunAppend(Plain(p), ['"'], b + ['"']);
    RunAppend(Scan(p, true, false), b, ['"']);
    BodyKeepsState(p, b);
    assert ['"'] + b + ['"'] == ['"'] + (b + ['"']);
  }

  /** A well-formed node is neutral: from a plain state it returns to that same state. */
  lemma {:induction false} NodeNeutral(p: seq<char>, n: Node)
    requires WellFormedNode(n)
    ensures Run(Plain(p), RenderNode(n)) == Some(Plain(p))
    decreases n
  {
    match n
    case Char(c) =>
    case Escape(e) =>
      EscapeSkipsNext(Plain(p), e, []);
      assert ['\\', e] + [] == ['\\', e];
    case Quoted(b) =>
      QuotedNeutral(p, b);
    case Group(o, inner) =>
      var q := p + [o];
      RunAppend(Plain(p), [o], Render(inner) + [CloserFor(o)]);
      RunAppend(Plain(q), Render(inner), [CloserFor(o)]);
      ForestNeutral(q, inner);
      assert q[..|q| - 1] == p;
      assert [o] + Render(inner) + [CloserFor(o)] == [o] + (Render(inner) + [CloserFor(o)]);
  }

  /** A well-formed forest is neutral. */
  lemma {:induction false} ForestNeutral(p: seq<char>, ns: seq<Node>)
    requires WellFormed(ns)
    ensures Run(Plain(p), Render(ns)) == Some(Plain(p))
    decreases ns
  {
    if ns != [] {
      NodeNeutral(p, ns[0]);
      ForestNeutral(p, ns[1..]);
      RunAppend(Plain(p), RenderNode(ns[0]), Render(ns[1..]));
    }
  }

  /**
   * An unterminated string literal is not itself an error: once a quote opens
   * a literal that never closes, the verdict is whether the stack was empty.
   */
  lemma UnterminatedLiteralIsNoError(a: string, b: string)
    requires Run(Start, a).Some?
    requires !Run(Start, a).value.inQuotes && !Run(Start, a).value.escaped
    requires StringTail(b)
    ensures ValidRon(a + ['"'] + b) <==> Run(Start, a).value.stack == []
  {
    var mid := Run(Start, a).value;
    RunAppend(Start, a, ['"'] + b);
    assert a + ['"'] + b == a + (['"'] + b);
    assert Run(mid, ['"'] + b) == Run(Scan(mid.stack, true, false), b);
    TailKeepsStack(mid.stack, b);
  }

  /** Everything the description admits, the check accepts. */
  lemma AcceptedIsValid(ns: seq<Node>, t: string)
    requires WellFormed(ns) && (t == [] || OpenTail(t))
    ensures ValidRon(Render(ns) + t)
  {
    ForestNeutral([], ns);
    RunAppend(Start, Render(ns), t);
    if t != [] {
      OpenTailKeepsStack([], t);
    }
  }

  // ---------------------------------------------------------------------------
  // A parser for the description

  /** Where a string literal that starts after an opening quote ends, if it does. */
  datatype Literal = Closed(body: string, after: string) | Unclosed

  function ScanLiteral(s: string): (r: Literal)
    ensures r.Closed? ==> StringBody(r.body) && s == r.body + ['"'] + r.after
    ensures r.Unclosed? ==> StringTail(s)
    decreases |s|
  {
    if s == [] then Unclosed
    else if s[0] == '"' then Closed([], s[1..])
    else if s[0] == '\\' then
      if |s| == 1 then Unclosed
      else
        match ScanLiteral(s[2..])
        case Unclosed => Unclosed
        case Closed(b, after) =>
          assert s == ['\\', s[1]] + (b + ['"'] + after);
          Closed(['\\', s[1]] + b, after)
    else
      match ScanLiteral(s[1..])
      case Unclosed => Unclosed
      case Closed(b, after) =>
        assert s == [s[0]] + (b + ['"'] + after);
        Closed([s[0]] + b, after)
  }

  /**
   * The outcome of parsing a forest: it stops before a closer or at the end
   * (`Parsed`), runs into an open tail (`Open`), or finds an unclosed group
   * or a mismatched closer (`Stuck`).
   */
  datatype Parse = Parsed(nodes: seq<Node>, rest: string) | Open(nodes: seq<Node>, tail: string) | Stuck

  function Prepend(n: Node, r: Parse): Parse {
    match r
    case Parsed(ns, rest) => Parsed([n] + ns, rest)
    case Open(ns, t) => Open([n] + ns, t)
    case Stuck => Stuck
  }

  /** `r` is a faithful parse of `s`: its nodes are well formed and render what they consumed. */
  predicate Describes(s: string, r: Parse) {
    match r
    case Parsed(ns, rest) => WellFormed(ns) && s == Render(ns) + rest && (rest == [] || IsCloser(rest[0]))
    case Open(ns, t) => WellFormed(ns) && s == Render(ns) + t && OpenTail(t)
    case Stuck => true
  }

  /** Prepending a well-formed node to a parse of `t` gives a parse of the node's text followed by `t`. */
  lemma PrependFacts(n: Node, t: string, r: Parse)
    requires WellFormedNode(n) && Describes(t, r)
    ensures Describes(RenderNode(n) + t, Prepend(n, r))
  {
    if !r.Stuck? {
      RenderCons(n, r.nodes);
      var tail := if r.Parsed? then r.rest else r.tail;
      assert RenderNode(n) + (Render(r.nodes) + tail) == (RenderNode(n) + Render(r.nodes)) + tail;
    }
  }

  function ParseForest(s: string): (r: Parse)
    ensures r.Parsed? ==> |r.rest| <= |s|
    decreases |s|
  {
    if s == [] then Parsed([], [])
    else if IsCloser(s[0]) then Parsed([], s)
    else if s[0] == '\\' then
      if |s| == 1 then Open([], s) else Prepend(Escape(s[1]), ParseForest(s[2..]))
    else if s[0] == '"' then
      match ScanLiteral(s[1..])
      case Unclosed => Open([], s)
      case Closed(b, after) => Prepend(Quoted(b), ParseForest(after))
    else if IsOpener(s[0]) then
      match ParseForest(s[1..])
      case Parsed(inner, rest) =>
        if rest != [] && rest[0] == CloserFor(s[0]) then
          Prepend(Group(s[0], inner), ParseForest(rest[1..]))
        else Stuck
      case _ => Stuck
    else Prepend(Char(s[0]), ParseForest(s[1..]))
  }

  /** What the parser returns is a well-formed forest that renders the input it consumed. */
  lemma {:induction false} ParseForestSound(s: string)
    ensures Describes(s, ParseForest(s))
    decreases |s|, 1
  {
    if s == [] || IsCloser(s[0]) {
      assert Render([]) == [];
    } else if s[0] == '\\' {
      EscapeSound(s);
    } else if s[0] == '"' {
      QuotedSound(s);
    } else if IsOpener(s[0]) {
      GroupSound(s);
    } else {
      ParseForestSound(s[1..]);
      PrependFacts(Char(s[0]), s[1..], ParseForest(s[1..]));
      assert s == RenderNode(Char(s[0])) + s[1..];
    }
  }

  /** The backslash case of ParseForestSound. */
  lemma {:induction false} EscapeSound(s: string)
    requires s != [] && s[0] == '\\'
    ensures Describes(s, ParseForest(s))
    decreases |s|, 0
  {
    if |s| == 1 {
      assert Render([]) == [];
    } else {
      ParseForestSound(s[2..]);
      PrependFacts(Escape(s[1]), s[2..], ParseForest(s[2..]));
      assert s == RenderNode(Escape(s[1])) + s[2..];
    }
  }

  /** The quote case of ParseForestSound. */
  lemma {:induction false} QuotedSound(s: string)
    requires s != [] && s[0] == '"'
    ensures Describes(s, ParseForest(s))
    decreases |s|, 0
  {
    match ScanLiteral(s[1..])
    case Unclosed =>
      assert Render([]) == [];
    case Closed(b, after) =>
      ParseForestSound(after);
      PrependFacts(Quoted(b), after, ParseForest(after));
      assert s == RenderNode(Quoted(b)) + after;
  }

  /** A group's text: its opener, its contents, its closer; what follows comes after. */
  lemma GroupText(s: string, inner: seq<Node>, rest: string)
    requires s != [] && s[1..] == Render(inner) + rest
    requires rest != [] && rest[0] == CloserFor(s[0])
    ensures s == RenderNode(Group(s[0], inner)) + rest[1..]
  {
    var o, after := s[0], rest[1..];
    calc {
      s;
      [o] + s[1..];
      [o] + (Render(inner) + rest);
      { assert rest == [CloserFor(o)] + after; }
      [o] + (Render(inner) + ([CloserFor(o)] + after));
      [o] + Render(inner) + [CloserFor(o)] + after;
      RenderNode(Group(o, inner)) + after;
    }
  }

  /** The opener case of ParseForestSound. */
  lemma {:induction false} GroupSound(s: string)
    requires s != [] && IsOpener(s[0])
    ensures Describes(s, ParseForest(s))
    decreases |s|, 0
  {
    ParseForestSound(s[1..]);
    var inside := ParseForest(s[1..]);
    if inside.Parsed? && inside.rest != [] && inside.rest[0] == CloserFor(s[0]) {
      var o, inner, rest := s[0], inside.nodes, inside.rest;
      var n := Group(o, inner);
      var after := rest[1..];
      assert ParseForest(s) == Prepend(n, ParseForest(after));
      ParseForestSound(after);
      PrependFacts(n, after, ParseForest(after));
      GroupText(s, inner, rest);
    } else {
      assert ParseForest(s) == Stuck;
    }
  }

  // ---------------------------------------------------------------------------
  // From the state machine back to the description

  /** A failed run, or one that ends with more open brackets than it started with. */
  predicate Blocked(p: seq<char>, s: string) {
    match Run(Plain(p), s)
    case None => true
    case Some(st) => |st.stack| > |p|
  }

  /** After a neutral prefix, the run continues exactly as on the rest. */
  lemma AfterNeutral(p: seq<char>, n: Node, t: string)
    requires WellFormedNode(n)
    ensures Run(Plain(p), RenderNode(n) + t) == Run(Plain(p), t)
  {
    NodeNeutral(p, n);
    RunAppend(Plain(p), RenderNode(n), t);
  }

  /** Where the parser gets stuck, the check fails or leaves a bracket open. */
  lemma {:induction false} StuckIsBlocked(p: seq<char>, s: string)
    requires ParseForest(s).Stuck?
    ensures Blocked(p, s)
    decreases |s|, 1
  {
    assert s != [] && !IsCloser(s[0]);
    if s[0] == '\\' {
      AfterNeutral(p, Escape(s[1]), s[2..]);
      assert s == RenderNode(Escape(s[1])) + s[2..];
      StuckIsBlocked(p, s[2..]);
    } else if s[0] == '"' {
      var lit := ScanLiteral(s[1..]);
      AfterNeutral(p, Quoted(lit.body), lit.after);
      assert s == RenderNode(Quoted(lit.body)) + lit.after;
      StuckIsBlocked(p, lit.after);
    } else if IsOpener(s[0]) {
      StuckGroupIsBlocked(p, s);
    } else {
      AfterNeutral(p, Char(s[0]), s[1..]);
      assert s == RenderNode(Char(s[0])) + s[1..];
      StuckIsBlocked(p, s[1..]);
    }
  }

  /** The opener case of StuckIsBlocked. */
  lemma {:induction false} StuckGroupIsBlocked(p: seq<char>, s: string)
    requires s != [] && IsOpener(s[0]) && ParseForest(s).Stuck?
    ensures Blocked(p, s)
    decreases |s|, 0
  {
    var o := s[0];
    var q := p + [o];
    assert Run(Plain(p), s) == Run(Plain(q), s[1..]);
    ParseForestSound(s[1..]);
    match ParseForest(s[1..])
    case Stuck =>
      StuckIsBlocked(q, s[1..]);
    case Open(inner, tail) =>
      ForestNeutral(q, inner);
      RunAppend(Plain(q), Render(inner), tail);
      OpenTailKeepsStack(q, tail);
    case Parsed(inner, rest) =>
      ForestNeutral(q, inner);
      RunAppend(Plain(q), Render(inner), rest);
      if rest != [] && rest[0] == CloserFor(o) {
        var n := Group(o, inner);
        AfterNeutral(p, n, rest[1..]);
        GroupText(s, inner, rest);
        StuckIsBlocked(p, rest[1..]);
      } else if rest != [] {
        assert OpenerFor(rest[0]) != o;
      }
  }

  /** The parser, run on the contents, decides exactly what the check decides. */
  lemma ParserDecides(s: string)
    ensures ValidRon(s) <==> (ParseForest(s).Parsed? && ParseForest(s).rest == []) || ParseForest(s).Open?
  {
    var r := ParseForest(s);
    ParseForestSound(s);
    match r
    case Stuck =>
      StuckIsBlocked([], s);
    case Parsed(ns, rest) =>
      if rest == [] {
        assert s == Render(ns) + [];
        AcceptedIsValid(ns, []);
      } else {
        ForestNeutral([], ns);
        RunAppend(Start, Render(ns), rest);
      }
    case Open(ns, t) =>
      AcceptedIsValid(ns, t);
  }

  /** Every text the check accepts is admitted by the description. */
  lemma ValidIsAccepted(s: string)
    requires ValidRon(s)
    ensures Accepted(s)
  {
    ParserDecides(s);
    ParseForestSound(s);
    var r := ParseForest(s);
    var t: string := if r.Parsed? then [] else r.tail;
    assert Document(r.nodes, t) && s == Render(r.nodes) + t;
  }

  /** The check accepts exactly the texts the description admits. */
  lemma ValidRonIffAccepted(s: string)
    ensures ValidRon(s) <==> Accepted(s)
  {
    if ValidRon(s) {
      ValidIsAccepted(s);
    }
    if Accepted(s) {
      var ns, t :| Document(ns, t) && s == Render(ns) + t;
      AcceptedIsValid(ns, t);
    }
  }
}
