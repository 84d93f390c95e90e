/** The recogniser for SPDX licence expressions, over an already split token list.

    The grammar is the one the code accepts: OR over AND over WITH over atoms, where
    an atom is an identifier or any parenthesised expression, also on either side of
    WITH. Trees keep OR and AND as lists, so every expression has one tree. */
module SpdxExpression {
  import opened Options

  /** `Junk` is a word the identifier pattern rejects. */
  datatype Token = Open | Close | AndWord | OrWord | WithWord | Name(id: string) | Junk(text: string)

  datatype Atom = Licence(id: string) | Paren(inner: Disj)
  datatype Term = Plain(licence: Atom) | Excepted(licence: Atom, exception: Atom)
  datatype Conj = LastTerm(term: Term) | AndThen(term: Term, more: Conj)
  datatype Disj = LastConj(conj: Conj) | OrElse(conj: Conj, others: Disj)

  // ---------------------------------------------------------------- printing

  function PrintAtom(a: Atom): (s: seq<Token>)
    ensures |s| > 0
  {
    match a
    case Licence(id) => [Name(id)]
    case Paren(d) => [Open] + PrintDisj(d) + [Close]
  }

  function PrintTerm(t: Term): (s: seq<Token>)
    ensures |s| > 0
  {
    match t
    case Plain(a) => PrintAtom(a)
    case Excepted(a, x) => PrintAtom(a) + [WithWord] + PrintAtom(x)
  }

  function PrintConj(c: Conj): (s: seq<Token>)
    ensures |s| > 0
  {
    match c
    case LastTerm(t) => PrintTerm(t)
    case AndThen(t, more) => PrintTerm(t) + [AndWord] + PrintConj(more)
  }

  function PrintDisj(d: Disj): (s: seq<Token>)
    ensures |s| > 0
  {
    match d
    case LastConj(c) => PrintConj(c)
    case OrElse(c, others) => PrintConj(c) + [OrWord] + PrintDisj(others)
  }

  // ---------------------------------------------------------------- what the recogniser computes

  /** A tree and the position behind it. */
  type Parsed<T> = Option<(T, nat)>

  predicate Here(ts: seq<Token>, p: nat, t: Token) {
    p < |ts| && ts[p] == t
  }

  function ParseAtom(ts: seq<Token>, p: nat): (r: Parsed<Atom>)
    requires p <= |ts|
    ensures r.Some? ==> p < r.value.1 <= |ts|
    decreases |ts| - p, 0
  {
    if p == |ts| then None
    else match ts[p]
      case Open =>
        var inner := ParseDisj(ts, p + 1);
        if inner.Some? && Here(ts, inner.value.1, Close)
        then Some((Paren(inner.value.0), inner.value.1 + 1)) else None
      case Name(id) => Some((Licence(id), p + 1))
      case _ => None
  }

  function ParseTerm(ts: seq<Token>, p: nat): (r: Parsed<Term>)
    requires p <= |ts|
    ensures r.Some? ==> p < r.value.1 <= |ts|
    decreases |ts| - p, 1
  {
    var a := ParseAtom(ts, p);
    if a.None? then None
    else if !Here(ts, a.value.1, WithWord) then Some((Plain(a.value.0), a.value.1))
    else
      var x := ParseAtom(ts, a.value.1 + 1);
      if x.None? then None else Some((Excepted(a.value.0, x.value.0), x.value.1))
  }

  function ParseConj(ts: seq<Token>, p: nat): (r: Parsed<Conj>)
    requires p <= |ts|
    ensures r.Some? ==> p < r.value.1 <= |ts|
    decreases |ts| - p, 2
  {
    var t := ParseTerm(ts, p);
    if t.None? then None
    else if !Here(ts, t.value.1, AndWord) then Some((LastTerm(t.value.0), t.value.1))
    else
      var more := ParseConj(ts, t.value.1 + 1);
      if more.None? then None else Some((AndThen(t.value.0, more.value.0), more.value.1))
  }

  function ParseDisj(ts: seq<Token>, p: nat): (r: Parsed<Disj>)
    requires p <= |ts|
    ensures r.Some? ==> p < r.value.1 <= |ts|
    decreases |ts| - p, 3
  {
    var c := ParseConj(ts, p);
    if c.None? then None
    else if !Here(ts, c.value.1, OrWord) then Some((LastConj(c.value.0), c.value.1))
    else
      var others := ParseDisj(ts, c.value.1 + 1);
      if others.None? then None else Some((OrElse(c.value.0, others.value.0), others.value.1))
  }

  // ---------------------------------------------------------------- soundness

  /** A slice is what stands before and after one of its tokens. */
  lemma SliceAround(ts: seq<Token>, p: nat, q: nat, e: nat)
    requires p <= q < e <= |ts|
    ensures ts[p..e] == ts[p..q] + [ts[q]] + ts[q + 1..e]
  {
  }

  lemma {:induction false} AtomSound(ts: seq<Token>, p: nat)
    requires p <= |ts| && ParseAtom(ts, p).Some?
    ensures var r := ParseAtom(ts, p).value; ts[p..r.1] == PrintAtom(r.0)
    decreases |ts| - p, 0
  {
    if ts[p].Open? {
      DisjSound(ts, p + 1);
      var q := ParseDisj(ts, p + 1).value.1;
      assert ts[p..q + 1] == [Open] + ts[p + 1..q] + [Close];
    }
  }

  lemma {:induction false} TermSound(ts: seq<Token>, p: nat)
    requires p <= |ts| && ParseTerm(ts, p).Some?
    ensures var r := ParseTerm(ts, p).value; ts[p..r.1] == PrintTerm(r.0)
    decreases |ts| - p, 1
  {
    hide ParseAtom, PrintAtom;
    AtomSound(ts, p);
    var q := ParseAtom(ts, p).value.1;
    if Here(ts, q, WithWord) {
      AtomSound(ts, q + 1);
      var e := ParseAtom(ts, q + 1).value.1;
      SliceAround(ts, p, q, e);
    }
  }

  lemma {:induction false} ConjSound(ts: seq<Token>, p: nat)
    requires p <= |ts| && ParseConj(ts, p).Some?
    ensures var r := ParseConj(ts, p).value; ts[p..r.1] == PrintConj(r.0)
    decreases |ts| - p, 2
  {
    hide ParseAtom, PrintAtom, ParseTerm, PrintTerm;
    TermSound(ts, p);
    var q := ParseTerm(ts, p).value.1;
    if Here(ts, q, AndWord) {
      ConjSound(ts, q + 1);
      var e := ParseConj(ts, q + 1).value.1;
      SliceAround(ts, p, q, e);
    }
  }

  lemma {:induction false} DisjSound(ts: seq<Token>, p: nat)
    requires p <= |ts| && ParseDisj(ts, p).Some?
    ensures var r := ParseDisj(ts, p).value; ts[p..r.1] == PrintDisj(r.0)
    decreases |ts| - p, 3
  {
    hide ParseAtom, PrintAtom, ParseTerm, PrintTerm, ParseConj, PrintConj;
    ConjSound(ts, p);
    var q := ParseConj(ts, p).value.1;
    if Here(ts, q, OrWord) {
      DisjSound(ts, q + 1);
      var e := ParseDisj(ts, q + 1).value.1;
      SliceAround(ts, p, q, e);
    }
  }

  // ---------------------------------------------------------------- completeness

  /** `s` stands in `ts` at `p`. */
  predicate Stands(ts: seq<Token>, p: nat, s: seq<Token>) {
    p + |s| <= |ts| && ts[p..p + |s|] == s
  }

  lemma StandsSplit(ts: seq<Token>, p: nat, a: seq<Token>, t: Token, b: seq<Token>)
    requires Stands(ts, p, a + [t] + b)
    ensures Stands(ts, p, a) && Here(ts, p + |a|, t) && Stands(ts, p + |a| + 1, b)
  {
    var s := a + [t] + b;
    assert s[..|a|] == a && s[|a|] == t && s[|a| + 1..] == b;
    assert ts[p..p + |a|] == ts[p..p + |s|][..|a|];
    assert ts[p + |a|] == ts[p..p + |s|][|a|];
    assert ts[p + |a| + 1..p + |s|] == ts[p..p + |s|][|a| + 1..];
  }

  lemma {:induction false} AtomComplete(ts: seq<Token>, p: nat, a: Atom)
    requires Stands(ts, p, PrintAtom(a))
    ensures ParseAtom(ts, p) == Some((a, p + |PrintAtom(a)|))
    decreases a
  {
    match a
    case Licence(id) =>
      assert ts[p] == ts[p..p + 1][0];
    case Paren(d) =>
      var inner := PrintDisj(d);
      assert [Open] + inner + [Close] == [] + [Open] + (inner + [Close] + []);
      StandsSplit(ts, p, [], Open, inner + [Close] + []);
      StandsSplit(ts, p + 1, inner, Close, []);
      DisjComplete(ts, p + 1, d);
  }

  lemma {:induction false} TermComplete(ts: seq<Token>, p: nat, t: Term)
    requires Stands(ts, p, PrintTerm(t))
    requires t.Plain? ==> !Here(ts, p + |PrintTerm(t)|, WithWord)
    ensures ParseTerm(ts, p) == Some((t, p + |PrintTerm(t)|))
    decreases t
  {
    hide ParseAtom, PrintAtom;
    match t
    case Plain(a) => AtomComplete(ts, p, a);
    case Excepted(a, x) =>
      StandsSplit(ts, p, PrintAtom(a), WithWord, PrintAtom(x));
      AtomComplete(ts, p, a);
      AtomComplete(ts, p + |PrintAtom(a)| + 1, x);
  }

  lemma {:induction false} ConjComplete(ts: seq<Token>, p: nat, c: Conj)
    requires Stands(ts, p, PrintConj(c))
    requires !Here(ts, p + |PrintConj(c)|, WithWord) && !Here(ts, p + |PrintConj(c)|, AndWord)
    ensures ParseConj(ts, p) == Some((c, p + |PrintConj(c)|))
    decreases c
  {
    hide ParseAtom, PrintAtom, ParseTerm, PrintTerm;
    match c
    case LastTerm(t) => TermComplete(ts, p, t);
    case AndThen(t, more) =>
      StandsSplit(ts, p, PrintTerm(t), AndWord, PrintConj(more));
      TermComplete(ts, p, t);
      ConjComplete(ts, p + |PrintTerm(t)| + 1, more);
  }

  lemma {:induction false} DisjComplete(ts: seq<Token>, p: nat, d: Disj)
    requires Stands(ts, p, PrintDisj(d))
    requires !Here(ts, p + |PrintDisj(d)|, WithWord) && !Here(ts, p + |PrintDisj(d)|, AndWord)
    requires !Here(ts, p + |PrintDisj(d)|, OrWord)
    ensures ParseDisj(ts, p) == Some((d, p + |PrintDisj(d)|))
    decreases d
  {
    hide ParseAtom, PrintAtom, ParseTerm, PrintTerm, ParseConj, PrintConj;
    match d
    case LastConj(c) => ConjComplete(ts, p, c);
    case OrElse(c, others) =>
      StandsSplit(ts, p, PrintConj(c), OrWord, PrintDisj(others));
      ConjComplete(ts, p, c);
      DisjComplete(ts, p + |PrintConj(c)| + 1, others);
  }

  /** The whole token list is one expression. */
  predicate Accepted(ts: seq<Token>) {
    ParseDisj(ts, 0).Some? && ParseDisj(ts, 0).value.1 == |ts|
  }

  lemma PrintsToItself(d: Disj)
    ensures ParseDisj(PrintDisj(d), 0) == Some((d, |PrintDisj(d)|))
  {
    DisjComplete(PrintDisj(d), 0, d);
  }

  /** The accepted token lists are exactly the printed expressions. */
  lemma AcceptsExactlyTheGrammar(ts: seq<Token>)
    ensures Accepted(ts) <==> exists d: Disj :: PrintDisj(d) == ts
  {
    if Accepted(ts) {
      DisjSound(ts, 0);
      assert ts[0..|ts|] == ts;
      assert PrintDisj(ParseDisj(ts, 0).value.0) == ts;
    }
    forall d: Disj | PrintDisj(d) == ts ensures Accepted(ts) {
      PrintsToItself(d);
    }
  }

  /** No token list prints two trees. */
  lemma OneTreePerExpression(d: Disj, e: Disj)
    requires PrintDisj(d) == PrintDisj(e)
    ensures d == e
  {
    PrintsToItself(d);
    PrintsToItself(e);
  }

  // ---------------------------------------------------------------- the recogniser

  function End<T>(r: Parsed<T>): Option<nat> {
    if r.None? then None else Some(r.value.1)
  }

  /** Where the AND loop ends when it stands at `p`. */
  function ConjEnd(ts: seq<Token>, p: nat): Option<nat>
    requires p <= |ts|
  {
    if Here(ts, p, AndWord) then End(ParseConj(ts, p + 1)) else Some(p)
  }

  function DisjEnd(ts: seq<Token>, p: nat): Option<nat>
    requires p <= |ts|
  {
    if Here(ts, p, OrWord) then End(ParseDisj(ts, p + 1)) else Some(p)
  }

  /** Each method reports whether its construct stands at `position`, and on success
      leaves `position` behind it. A failure may leave `position` anywhere. */
  class Recogniser {
    const tokens: seq<Token>
    var position: nat

    constructor (tokens: seq<Token>)
      ensures this.tokens == tokens && position == 0
    {
      this.tokens := tokens;
      position := 0;
    }

    method MatchAtom() returns (ok: bool)
      requires position <= |tokens|
      modifies this
      ensures position <= |tokens|
      ensures End(ParseAtom(tokens, old(position))) == if ok then Some(position) else None
      decreases |tokens| - position, 0
    {
      if position >= |tokens| { return false; }
      var token := tokens[position];
      if token.Open? {
        position := position + 1;
        ok := MatchDisjunction();
        if !ok || position >= |tokens| || tokens[position] != Close { return false; }
        position := position + 1;
        return true;
      }
      if !token.Name? { return false; }
      position := position + 1;
      ok := true;
    }

    method MatchTerm() returns (ok: bool)
      requires position <= |tokens|
      modifies this
      ensures position <= |tokens|
      ensures End(ParseTerm(tokens, old(position))) == if ok then Some(position) else None
      decreases |tokens| - position, 1
    {
      ok := MatchAtom();
      if !ok { return; }
      if position < |tokens| && tokens[position] == WithWord {
        position := position + 1;
        ok := MatchAtom();
      }
    }

    method MatchConjunction() returns (ok: bool)
      requires position <= |tokens|
      modifies this
      ensures position <= |tokens|
      ensures End(ParseConj(tokens, old(position))) == if ok then Some(position) else None
      decreases |tokens| - position, 2
    {
      ok := MatchTerm();
      if !ok { return; }
      while position < |tokens| && tokens[position] == AndWord
        invariant old(position) < position <= |tokens| && ok
        invariant End(ParseConj(tokens, old(position))) == ConjEnd(tokens, position)
        decreases |tokens| - position
      {
        position := position + 1;
        ok := MatchTerm();
        if !ok { return; }
      }
    }

    method MatchDisjunction() returns (ok: bool)
      requires position <= |tokens|
      modifies this
      ensures position <= |tokens|
      ensures End(ParseDisj(tokens, old(position))) == if ok then Some(position) else None
      decreases |tokens| - position, 3
    {
      ok := MatchConjunction();
      if !ok { return; }
      while position < |tokens| && tokens[position] == OrWord
        invariant old(position) < position <= |tokens| && ok
        invariant End(ParseDisj(tokens, old(position))) == DisjEnd(tokens, position)
        decreases |tokens| - position
      {
        position := position + 1;
        ok := MatchConjunction();
        if !ok { return; }
      }
    }
  }

  /** True exactly for the token lists that print some expression. */
  method HasValidShape(tokens: seq<Token>) returns (valid: bool)
    ensures valid <==> exists d: Disj :: PrintDisj(d) == tokens
  {
    AcceptsExactlyTheGrammar(tokens);
    if tokens == [] { return false; }
    var r := new Recogniser(tokens);
    var ok := r.MatchDisjunction();
    valid := ok && r.position == |tokens|;
  }
}
