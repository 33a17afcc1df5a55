/**
 * The basic RON syntax check of `validate_ron`: a character-by-character
 * state machine over the file contents that keeps a stack of open brackets,
 * ignores brackets inside string literals, and lets a backslash swallow the
 * character after it.
 */
module Ron {
  import opened Wrappers

  /** The values of the closer-to-opener table: `(`, `[`, `{`. */
  predicate IsOpener(c: char) {
    c == '(' || c == '[' || c == '{'
  }

  /** The keys of the closer-to-opener table: `)`, `]`, `}`. */
  predicate IsCloser(c: char) {
    c == ')' || c == ']' || c == '}'
  }

  /** The closer-to-opener table, `pairs[c]`. */
  function OpenerFor(c: char): (o: char)
    requires IsCloser(c)
    ensures IsOpener(o)
  {
    if c == ')' then '(' else if c == ']' then '[' else '{'
  }

  /** The closer that matches an opener. */
  function CloserFor(o: char): (c: char)
    ensures IsCloser(c)
    ensures IsOpener(o) ==> OpenerFor(c) == o
  {
    if o == '(' then ')' else if o == '[' then ']' else '}'
  }

  /** The three pieces of loop state: the bracket stack and the two flags. */
  datatype Scan = Scan(stack: seq<char>, inQuotes: bool, escaped: bool)

  /** The state before the first character. */
  const Start := Scan([], false, false)

  /** A state neither inside a string literal nor after a backslash, with stack `p`. */
  function Plain(p: seq<char>): Scan {
    Scan(p, false, false)
  }

  predicate OnlyOpeners(stack: seq<char>) {
    forall i :: 0 <= i < |stack| ==> IsOpener(stack[i])
  }

  /**
   * One iteration of the loop. None is the early `return False`: a closer
   * outside quotes with an empty stack or the wrong opener on top.
   */
  function Step(st: Scan, c: char): (r: Option<Scan>)
    // only openers are ever pushed
    ensures r.Some? && OnlyOpeners(st.stack) ==> OnlyOpeners(r.value.stack)
    // the scan fails exactly on an unmatched or mismatched closer outside quotes
    ensures r.None? <==>
      !st.escaped && !st.inQuotes && IsCloser(c) &&
      (st.stack == [] || st.stack[|st.stack| - 1] != OpenerFor(c))
    // a matched closer pops exactly its opener
    ensures r.Some? && !st.escaped && !st.inQuotes && IsCloser(c) ==>
      st.stack != [] && st.stack[|st.stack| - 1] == OpenerFor(c) &&
      r.value.stack == st.stack[..|st.stack| - 1]
    // the stack changes only on a bracket read outside quotes and not escaped
    ensures r.Some? && (st.escaped || st.inQuotes || (!IsOpener(c) && !IsCloser(c))) ==>
      r.value.stack == st.stack
  {
    if st.escaped then Some(st.(escaped := false))
    else if c == '\\' then Some(st.(escaped := true))
    else if c == '"' then Some(st.(inQuotes := !st.inQuotes))
    else if st.inQuotes then Some(st)
    else if IsOpener(c) then Some(st.(stack := st.stack + [c]))
    else if IsCloser(c) then
      if st.stack != [] && st.stack[|st.stack| - 1] == OpenerFor(c) then
        Some(st.(stack := st.stack[..|st.stack| - 1]))
      else
        None
    else Some(st)
  }

  /** The loop over `s` from state `st`; None once some step failed. */
  function Run(st: Scan, s: string): Option<Scan>
    decreases |s|
  {
    if s == [] then Some(st)
    else
      match Step(st, s[0])
      case None => None
      case Some(next) => Run(next, s[1..])
  }

  /** What `validate_ron` returns for readable contents `content`. */
  predicate ValidRon(content: string) {
    match Run(Start, content)
    case None => false
    case Some(st) => st.stack == []
  }

  /** The check as the source runs it: one loop, an explicit stack, two flags. */
  method ValidateRon(content: string) returns (ok: bool)
    ensures ok == ValidRon(content)
  {
    var stack: seq<char> := [];
    var inQuotes := false;
    var escaped := false;
    for i := 0 to |content|
      invariant Run(Start, content) == Run(Scan(stack, inQuotes, escaped), content[i..])
    {
      var c := content[i];
      assert content[i..][1..] == content[i + 1..];
      if escaped {
        escaped := false;
        continue;
      }
      if c == '\\' {
        escaped := true;
        continue;
      }
      if c == '"' {
        inQuotes := !inQuotes;
        continue;
      }
      if inQuotes {
        continue;
      }
      if IsOpener(c) {
        stack := stack + [c];
      } else if IsCloser(c) {
        if stack == [] {
          return false;
        }
        var top := stack[|stack| - 1];
        stack := stack[..|stack| - 1];
        if top != OpenerFor(c) {
          return false;
        }
      }
    }
    ok := stack == [];
  }

  /** Running over `a + b` is running over `a`, then over `b`. */
  lemma {:induction false} RunAppend(st: Scan, a: string, b: string)
    ensures Run(st, a + b) ==
      match Run(st, a)
      case None => None
      case Some(mid) => Run(mid, b)
    decreases |a|
  {
    if a == [] {
      assert a + b == b;
    } else {
      assert (a + b)[1..] == a[1..] + b;
      match Step(st, a[0])
      case None =>
      case Some(next) => RunAppend(next, a[1..], b);
    }
  }

  /** The stack never holds anything but openers. */
  lemma {:induction false} StackHoldsOpeners(st: Scan, s: string)
    requires OnlyOpeners(st.stack)
    ensures Run(st, s).Some? ==> OnlyOpeners(Run(st, s).value.stack)
    decreases |s|
  {
    if s != [] {
      match Step(st, s[0])
      case None =>
      case Some(next) => StackHoldsOpeners(next, s[1..]);
    }
  }

  /** A backslash, in or out of quotes, makes the next character count for nothing. */
  lemma EscapeSkipsNext(st: Scan, c: char, rest: string)
    requires !st.escaped
    ensures Run(st, ['\\', c] + rest) == Run(st, rest)
  {
    assert (['\\', c] + rest)[1..][1..] == rest;
  }

  /** Characters that are neither brackets, quotes nor backslashes. */
  predicate Inert(c: char) {
    !IsOpener(c) && !IsCloser(c) && c != '"' && c != '\\'
  }

  /** Outside quotes, text without brackets, quotes or backslashes leaves the state as it was. */
  lemma {:induction false} InertRun(p: seq<char>, s: string)
    requires forall i :: 0 <= i < |s| ==> Inert(s[i])
    ensures Run(Plain(p), s) == Some(Plain(p))
    decreases |s|
  {
    if s != [] {
      InertRun(p, s[1..]);
    }
  }
}
