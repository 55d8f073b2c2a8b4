/** The license expressions of scripts/security-gate.ts. */
module Spdx {
  // parseSpdx, allowedTree and spdxAllowed.  The input is already split into tokens, with AND,
  // OR and WITH recognized in any case.

  import opened Base

  datatype Token = Open | Close | And | Or | With | Word(id: string)

  datatype Node = Id(id: string) | Both(left: Node, right: Node) | Either(left: Node, right: Node)

  // ---------- The grammar ----------

  /** Derivations: what was written, with its parentheses and exceptions. */
  datatype Atom = Plain(id: string) | Paren(inner: OrForm)
  datatype WithForm = WithForm(atom: Atom, exception: Option<string>)
  datatype AndTail = AndEnd | AndMore(next: WithForm, rest: AndTail)
  datatype AndForm = AndForm(head: WithForm, tail: AndTail)
  datatype OrTail = OrEnd | OrMore(next: AndForm, rest: OrTail)
  datatype OrForm = OrForm(head: AndForm, tail: OrTail)

  function AtomTokens(a: Atom): (r: seq<Token>)
    ensures r != [] && r[0] != With && r[0] != And && r[0] != Or
  {
    match a
    case Plain(id) => [Word(id)]
    case Paren(inner) => [Open] + OrTokens(inner) + [Close]
  }

  function WithTokens(w: WithForm): (r: seq<Token>)
    ensures r != [] && r[0] != With && r[0] != And && r[0] != Or
  {
    AtomTokens(w.atom) + if w.exception.Some? then [With, Word(w.exception.value)] else []
  }

  function AndTailTokens(t: AndTail): seq<Token> {
    match t
    case AndEnd => []
    case AndMore(next, rest) => [And] + WithTokens(next) + AndTailTokens(rest)
  }

  function AndTokens(f: AndForm): (r: seq<Token>)
    ensures r != [] && r[0] != With && r[0] != And && r[0] != Or
  {
    WithTokens(f.head) + AndTailTokens(f.tail)
  }

  function OrTailTokens(t: OrTail): seq<Token> {
    match t
    case OrEnd => []
    case OrMore(next, rest) => [Or] + AndTokens(next) + OrTailTokens(rest)
  }

  function OrTokens(f: OrForm): (r: seq<Token>)
    ensures r != [] && r[0] != With && r[0] != And && r[0] != Or
  {
    AndTokens(f.head) + OrTailTokens(f.tail)
  }

  /** The tree a derivation stands for: AND and OR group to the left, exceptions are dropped. */
  function AtomTree(a: Atom): Node {
    match a
    case Plain(id) => Id(id)
    case Paren(inner) => OrTree(inner)
  }

  function AndTailTree(left: Node, t: AndTail): Node
    decreases t
  {
    match t
    case AndEnd => left
    case AndMore(next, rest) => AndTailTree(Both(left, AtomTree(next.atom)), rest)
  }

  function AndTree(f: AndForm): Node {
    AndTailTree(AtomTree(f.head.atom), f.tail)
  }

  function OrTailTree(left: Node, t: OrTail): Node
    decreases t
  {
    match t
    case OrEnd => left
    case OrMore(next, rest) => OrTailTree(Either(left, AndTree(next)), rest)
  }

  function OrTree(f: OrForm): Node {
    OrTailTree(AndTree(f.head), f.tail)
  }

  /** Which operands may carry an exception. */
  datatype Rule =
    | SingleTree     // parseSpdx: the operand's tree is one identifier, parenthesized or not
    | SingleWord     // the SPDX grammar: the operand is an identifier

  predicate MayExcept(r: Rule, a: Atom) {
    if r.SingleTree? then AtomTree(a).Id? else a.Plain?
  }

  predicate AtomOk(r: Rule, a: Atom) {
    a.Paren? ==> OrOk(r, a.inner)
  }

  predicate WithOk(r: Rule, w: WithForm) {
    AtomOk(r, w.atom) && (w.exception.Some? ==> MayExcept(r, w.atom))
  }

  predicate AndTailOk(r: Rule, t: AndTail) {
    t.AndMore? ==> WithOk(r, t.next) && AndTailOk(r, t.rest)
  }

  predicate AndOk(r: Rule, f: AndForm) {
    WithOk(r, f.head) && AndTailOk(r, f.tail)
  }

  predicate OrTailOk(r: Rule, t: OrTail) {
    t.OrMore? ==> AndOk(r, t.next) && OrTailOk(r, t.rest)
  }

  predicate OrOk(r: Rule, f: OrForm) {
    AndOk(r, f.head) && OrTailOk(r, f.tail)
  }

  // ---------- The parser, as a function of the remaining tokens ----------

  datatype Parse<+T> = Fail | Done(value: T, rest: seq<Token>)

  predicate StartsWith(toks: seq<Token>, t: Token) {
    toks != [] && toks[0] == t
  }

  function ParseAtom(toks: seq<Token>): (r: Parse<Atom>)
    ensures r.Done? ==> AtomOk(SingleTree, r.value) && AtomTokens(r.value) + r.rest == toks && |r.rest| < |toks|
    decreases |toks|, 0
  {
    if toks == [] then Fail
    else if toks[0] == Open then
      var inner := ParseOr(toks[1..]);
      if inner.Fail? || !StartsWith(inner.rest, Close) then Fail
      else
        assert toks == [Open] + (OrTokens(inner.value) + inner.rest);
        assert inner.rest == [Close] + inner.rest[1..];
        assert [Open] + OrTokens(inner.value) + [Close] + inner.rest[1..] == toks;
        Done(Paren(inner.value), inner.rest[1..])
    else if !toks[0].Word? then Fail
    else Done(Plain(toks[0].id), toks[1..])
  }

  function ParseWith(toks: seq<Token>): (r: Parse<WithForm>)
    ensures r.Done? ==> WithOk(SingleTree, r.value) && WithTokens(r.value) + r.rest == toks && |r.rest| < |toks|
    decreases |toks|, 1
  {
    var atom := ParseAtom(toks);
    if atom.Fail? then Fail
    else if !StartsWith(atom.rest, With) then Done(WithForm(atom.value, None), atom.rest)
    else if !AtomTree(atom.value).Id? || |atom.rest| < 2 || !atom.rest[1].Word? then Fail
    else
      assert atom.rest == [With, Word(atom.rest[1].id)] + atom.rest[2..];
      assert AtomTokens(atom.value) + [With, Word(atom.rest[1].id)] + atom.rest[2..] == toks;
      Done(WithForm(atom.value, Some(atom.rest[1].id)), atom.rest[2..])
  }

  function ParseAndTail(toks: seq<Token>): (r: Parse<AndTail>)
    ensures r.Done? ==> AndTailOk(SingleTree, r.value) && AndTailTokens(r.value) + r.rest == toks && |r.rest| <= |toks|
    decreases |toks|, 2
  {
    if !StartsWith(toks, And) then Done(AndEnd, toks)
    else
      var next := ParseWith(toks[1..]);
      if next.Fail? then Fail
      else
        var more := ParseAndTail(next.rest);
        if more.Fail? then Fail
        else
          assert toks == [And] + (WithTokens(next.value) + (AndTailTokens(more.value) + more.rest));
          assert [And] + WithTokens(next.value) + AndTailTokens(more.value) + more.rest == toks;
          Done(AndMore(next.value, more.value), more.rest)
  }

  function ParseAnd(toks: seq<Token>): (r: Parse<AndForm>)
    ensures r.Done? ==> AndOk(SingleTree, r.value) && AndTokens(r.value) + r.rest == toks && |r.rest| < |toks|
    decreases |toks|, 3
  {
    var head := ParseWith(toks);
    if head.Fail? then Fail
    else
      var tail := ParseAndTail(head.rest);
      if tail.Fail? then Fail
      else
        assert WithTokens(head.value) + AndTailTokens(tail.value) + tail.rest == toks;
        Done(AndForm(head.value, tail.value), tail.rest)
  }

  function ParseOrTail(toks: seq<Token>): (r: Parse<OrTail>)
    ensures r.Done? ==> OrTailOk(SingleTree, r.value) && OrTailTokens(r.value) + r.rest == toks && |r.rest| <= |toks|
    decreases |toks|, 4
  {
    if !StartsWith(toks, Or) then Done(OrEnd, toks)
    else
      var next := ParseAnd(toks[1..]);
      if next.Fail? then Fail
      else
        var more := ParseOrTail(next.rest);
        if more.Fail? then Fail
        else
          assert toks == [Or] + (AndTokens(next.value) + (OrTailTokens(more.value) + more.rest));
          assert [Or] + AndTokens(next.value) + OrTailTokens(more.value) + more.rest == toks;
          Done(OrMore(next.value, more.value), more.rest)
  }

  function ParseOr(toks: seq<Token>): (r: Parse<OrForm>)
    ensures r.Done? ==> OrOk(SingleTree, r.value) && OrTokens(r.value) + r.rest == toks && |r.rest| < |toks|
    decreases |toks|, 5
  {
    var head := ParseAnd(toks);
    if head.Fail? then Fail
    else
      var tail := ParseOrTail(head.rest);
      if tail.Fail? then Fail
      else
        assert AndTokens(head.value) + OrTailTokens(tail.value) + tail.rest == toks;
        Done(OrForm(head.value, tail.value), tail.rest)
  }

  /** parseSpdx: the whole input, or no tree at all. */
  function ParseSpdx(toks: seq<Token>): Option<Node> {
    var r := ParseOr(toks);
    if r.Done? && r.rest == [] then Some(OrTree(r.value)) else None
  }

  // ---------- parseSpdx, moving one position through the tokens ----------

  class Parser {
    const tokens: seq<Token>
    var pos: nat

    constructor (tokens: seq<Token>)
      ensures this.tokens == tokens && pos == 0
    {
      this.tokens := tokens;
      pos := 0;
    }

    /** What is left to read. */
    function Left(): seq<Token>
      requires pos <= |tokens|
      reads this
    {
      tokens[pos..]
    }

    method ReadAtom() returns (r: Option<Node>)
      requires pos <= |tokens|
      modifies this
      ensures pos <= |tokens|
      ensures r.None? <==> ParseAtom(old(Left())).Fail?
      ensures r.Some? ==> r.value == AtomTree(ParseAtom(old(Left())).value) && Left() == ParseAtom(old(Left())).rest
      decreases |tokens| - pos, 0
    {
      if pos == |tokens| {
        return None;
      }
      var token := tokens[pos];
      if token == Open {
        pos := pos + 1;
        assert Left() == old(Left())[1..];
        var inner := ReadOr();
        if inner.None? || pos == |tokens| || tokens[pos] != Close {
          return None;
        }
        pos := pos + 1;
        return inner;
      }
      if !token.Word? {
        return None;
      }
      pos := pos + 1;
      r := Some(Id(token.id));
    }

    method ReadWith() returns (r: Option<Node>)
      requires pos <= |tokens|
      modifies this
      ensures pos <= |tokens|
      ensures r.None? <==> ParseWith(old(Left())).Fail?
      ensures r.Some? ==> r.value == AtomTree(ParseWith(old(Left())).value.atom) && Left() == ParseWith(old(Left())).rest
      decreases |tokens| - pos, 1
    {
      r := ReadAtom();
      if r.None? || pos == |tokens| || tokens[pos] != With {
        return;
      }
      if !r.value.Id? {
        return None;
      }
      pos := pos + 1;
      if pos == |tokens| || !tokens[pos].Word? {
        return None;
      }
      pos := pos + 1;
    }

    method ReadAnd() returns (r: Option<Node>)
      requires pos <= |tokens|
      modifies this
      ensures pos <= |tokens|
      ensures r.None? <==> ParseAnd(old(Left())).Fail?
      ensures r.Some? ==> r.value == AndTree(ParseAnd(old(Left())).value) && Left() == ParseAnd(old(Left())).rest
      decreases |tokens| - pos, 2
    {
      hide AtomTokens, WithTokens, AndTailTokens, AndTokens, OrTailTokens, OrTokens, AtomOk, WithOk, AndTailOk, AndOk, OrTailOk, OrOk, MayExcept;
      hide ParseAtom, ParseWith, ParseOrTail, ParseOr, AtomTree, OrTailTree;
      var left := ReadWith();
      if left.None? {
        return None;
      }
      ghost var head := ParseWith(old(Left()));
      ghost var whole := ParseAndTail(head.rest);
      while pos < |tokens| && tokens[pos] == And
        invariant pos <= |tokens| && left.Some? && |Left()| < |old(Left())|
        invariant whole.Fail? <==> ParseAndTail(Left()).Fail?
        invariant whole.Done? ==>
                    && ParseAndTail(Left()).rest == whole.rest
                    && AndTailTree(left.value, ParseAndTail(Left()).value) == AndTailTree(AtomTree(head.value.atom), whole.value)
        decreases |tokens| - pos
      {
        ghost var before := Left();
        pos := pos + 1;
        assert Left() == before[1..];
        var right := ReadWith();
        if right.None? {
          return None;
        }
        left := Some(Both(left.value, right.value));
      }
      r := left;
    }

    method ReadOr() returns (r: Option<Node>)
      requires pos <= |tokens|
      modifies this
      ensures pos <= |tokens|
      ensures r.None? <==> ParseOr(old(Left())).Fail?
      ensures r.Some? ==> r.value == OrTree(ParseOr(old(Left())).value) && Left() == ParseOr(old(Left())).rest
      decreases |tokens| - pos, 3
    {
      hide AtomTokens, WithTokens, AndTailTokens, AndTokens, OrTailTokens, OrTokens, AtomOk, WithOk, AndTailOk, AndOk, OrTailOk, OrOk, MayExcept;
      hide ParseAtom, ParseWith, ParseAndTail, ParseAnd, AtomTree, AndTailTree, AndTree;
      var left := ReadAnd();
      if left.None? {
        return None;
      }
      ghost var head := ParseAnd(old(Left()));
      ghost var whole := ParseOrTail(head.rest);
      while pos < |tokens| && tokens[pos] == Or
        invariant pos <= |tokens| && left.Some? && |Left()| < |old(Left())|
        invariant whole.Fail? <==> ParseOrTail(Left()).Fail?
        invariant whole.Done? ==>
                    && ParseOrTail(Left()).rest == whole.rest
                    && OrTailTree(left.value, ParseOrTail(Left()).value) == OrTailTree(AndTree(head.value), whole.value)
        decreases |tokens| - pos
      {
        ghost var before := Left();
        pos := pos + 1;
        assert Left() == before[1..];
        var right := ReadAnd();
        if right.None? {
          return None;
        }
        left := Some(Either(left.value, right.value));
      }
      r := left;
    }

    /** The tree when every token is read, no tree otherwise. */
    method Run() returns (r: Option<Node>)
      requires pos == 0
      modifies this
      ensures r == ParseSpdx(tokens)
      ensures r.Some? ==> pos == |tokens|
    {
      assert Left() == tokens;
      r := ReadOr();
      if r.Some? && pos != |tokens| {
        assert Left() != [];
        r := None;
      }
    }
  }

  // ---------- The parser accepts exactly the grammar, with one reading each ----------

  /** What may follow an operand, an AND group and an OR group. */
  predicate AfterWith(toks: seq<Token>) { !StartsWith(toks, With) }

  predicate AfterAnd(toks: seq<Token>) { AfterWith(toks) && !StartsWith(toks, And) }

  predicate AfterOr(toks: seq<Token>) { AfterAnd(toks) && !StartsWith(toks, Or) }

  lemma Regroup(x: Token, a: seq<Token>, b: seq<Token>, rest: seq<Token>)
    ensures [x] + a + b + rest == [x] + (a + (b + rest))
    ensures ([x] + a + b + rest)[1..] == a + (b + rest)
  {
  }

  lemma RegroupPair(a: seq<Token>, b: seq<Token>, rest: seq<Token>)
    ensures a + b + rest == a + (b + rest)
  {
  }

  lemma {:induction false} AtomComplete(a: Atom, rest: seq<Token>)
    requires AtomOk(SingleTree, a)
    ensures ParseAtom(AtomTokens(a) + rest) == Done(a, rest)
    decreases a, 0
  {
    if a.Paren? {
      var inner := OrTokens(a.inner);
      OrComplete(a.inner, [Close] + rest);
      Regroup(Open, inner, [Close], rest);
      assert ([Close] + rest)[1..] == rest;
    } else {
      assert ([Word(a.id)] + rest)[1..] == rest;
    }
  }

  lemma {:induction false} WithComplete(w: WithForm, rest: seq<Token>)
    requires WithOk(SingleTree, w) && AfterWith(rest)
    ensures ParseWith(WithTokens(w) + rest) == Done(w, rest)
    decreases w, 1
  {
    if w.exception.Some? {
      var tail := [With, Word(w.exception.value)] + rest;
      assert WithTokens(w) + rest == AtomTokens(w.atom) + tail;
      AtomComplete(w.atom, tail);
      assert tail[2..] == rest;
    } else {
      assert WithTokens(w) == AtomTokens(w.atom);
      AtomComplete(w.atom, rest);
    }
  }

  lemma {:induction false} AndTailComplete(t: AndTail, rest: seq<Token>)
    requires AndTailOk(SingleTree, t) && AfterAnd(rest)
    ensures ParseAndTail(AndTailTokens(t) + rest) == Done(t, rest)
    ensures AfterWith(AndTailTokens(t) + rest)
    decreases t, 2
  {
    if t.AndMore? {
      var after := AndTailTokens(t.rest) + rest;
      AndTailComplete(t.rest, rest);
      WithComplete(t.next, after);
      Regroup(And, WithTokens(t.next), AndTailTokens(t.rest), rest);
    } else {
      assert AndTailTokens(t) + rest == rest;
    }
  }

  lemma {:induction false} AndComplete(f: AndForm, rest: seq<Token>)
    requires AndOk(SingleTree, f) && AfterAnd(rest)
    ensures ParseAnd(AndTokens(f) + rest) == Done(f, rest)
    decreases f, 3
  {
    AndTailComplete(f.tail, rest);
    WithComplete(f.head, AndTailTokens(f.tail) + rest);
    RegroupPair(WithTokens(f.head), AndTailTokens(f.tail), rest);
  }

  lemma {:induction false} OrTailComplete(t: OrTail, rest: seq<Token>)
    requires OrTailOk(SingleTree, t) && AfterOr(rest)
    ensures ParseOrTail(OrTailTokens(t) + rest) == Done(t, rest)
    ensures AfterAnd(OrTailTokens(t) + rest)
    decreases t, 4
  {
    hide AtomTokens, WithTokens, AndTailTokens, AndTokens, OrTokens, AtomOk, WithOk, AndTailOk, AndOk, OrOk, MayExcept;
    hide ParseAtom, ParseWith, ParseAndTail, ParseAnd, ParseOr;
    if t.OrMore? {
      var after := OrTailTokens(t.rest) + rest;
      OrTailComplete(t.rest, rest);
      AndComplete(t.next, after);
      Regroup(Or, AndTokens(t.next), OrTailTokens(t.rest), rest);
    } else {
      assert OrTailTokens(t) + rest == rest;
    }
  }

  lemma {:induction false} OrComplete(f: OrForm, rest: seq<Token>)
    requires OrOk(SingleTree, f) && AfterOr(rest)
    ensures ParseOr(OrTokens(f) + rest) == Done(f, rest)
    decreases f, 5
  {
    OrTailComplete(f.tail, rest);
    AndComplete(f.head, OrTailTokens(f.tail) + rest);
    RegroupPair(AndTokens(f.head), OrTailTokens(f.tail), rest);
  }

  /** Every derivation of the grammar parses to its own tree. */
  lemma DerivationParses(f: OrForm)
    requires OrOk(SingleTree, f)
    ensures ParseSpdx(OrTokens(f)) == Some(OrTree(f))
  {
    OrComplete(f, []);
    assert OrTokens(f) + [] == OrTokens(f);
  }

  /** A tree comes back exactly for the token lists the grammar derives, and it is the derivation's tree. */
  lemma AcceptsExactlyTheGrammar(toks: seq<Token>)
    ensures ParseSpdx(toks).Some? <==> exists f :: OrOk(SingleTree, f) && OrTokens(f) == toks
    ensures forall f :: OrOk(SingleTree, f) && OrTokens(f) == toks ==> ParseSpdx(toks) == Some(OrTree(f))
  {
    var r := ParseOr(toks);
    if r.Done? && r.rest == [] {
      assert OrTokens(r.value) + [] == OrTokens(r.value);
      assert OrOk(SingleTree, r.value) && OrTokens(r.value) == toks;
    }
    forall f | OrOk(SingleTree, f) && OrTokens(f) == toks ensures ParseSpdx(toks) == Some(OrTree(f)) {
      DerivationParses(f);
    }
  }

  /** The grammar is unambiguous. */
  lemma OneDerivation(f: OrForm, g: OrForm)
    requires OrOk(SingleTree, f) && OrOk(SingleTree, g) && OrTokens(f) == OrTokens(g)
    ensures f == g
  {
    OrComplete(f, []);
    OrComplete(g, []);
    assert OrTokens(f) + [] == OrTokens(g) + [];
  }

  // ---------- Exceptions after parentheses ----------

  predicate CloseWithAt(toks: seq<Token>, i: nat) {
    i + 1 < |toks| && toks[i] == Close && toks[i + 1] == With
  }

  /** Some WITH stands right after a closing parenthesis. */
  predicate HasCloseWith(toks: seq<Token>) {
    exists i: nat :: i < |toks| && CloseWithAt(toks, i)
  }

  lemma CloseWithAppend(a: seq<Token>, b: seq<Token>)
    ensures HasCloseWith(a + b) <==>
              HasCloseWith(a) || HasCloseWith(b) || (a != [] && b != [] && a[|a| - 1] == Close && b[0] == With)
  {
    var c := a + b;
    if HasCloseWith(a) {
      var i: nat :| i < |a| && CloseWithAt(a, i);
      assert CloseWithAt(c, i);
    }
    if HasCloseWith(b) {
      var i: nat :| i < |b| && CloseWithAt(b, i);
      assert CloseWithAt(c, |a| + i);
    }
    if a != [] && b != [] && a[|a| - 1] == Close && b[0] == With {
      assert CloseWithAt(c, |a| - 1);
    }
    if HasCloseWith(c) {
      var i: nat :| i < |c| && CloseWithAt(c, i);
      if i + 1 < |a| {
        assert CloseWithAt(a, i);
      } else if i >= |a| {
        assert CloseWithAt(b, i - |a|);
      }
    }
  }

  /** A derivation of the parser's grammar is one of the SPDX grammar exactly when no WITH follows a parenthesis. */
  lemma {:induction false} AtomStrictIff(a: Atom)
    requires AtomOk(SingleTree, a)
    ensures AtomOk(SingleWord, a) <==> !HasCloseWith(AtomTokens(a))
    decreases a, 0
  {
    if a.Paren? {
      OrStrictIff(a.inner);
      CloseWithAppend([Open], OrTokens(a.inner));
      CloseWithAppend([Open] + OrTokens(a.inner), [Close]);
    }
  }

  lemma {:induction false} WithStrictIff(w: WithForm)
    requires WithOk(SingleTree, w)
    ensures WithOk(SingleWord, w) <==> !HasCloseWith(WithTokens(w))
    decreases w, 1
  {
    AtomStrictIff(w.atom);
    if w.exception.Some? {
      var tail := [With, Word(w.exception.value)];
      CloseWithAppend(AtomTokens(w.atom), tail);
      assert !HasCloseWith(tail);
    } else {
      assert WithTokens(w) == AtomTokens(w.atom);
    }
  }

  lemma {:induction false} AndTailStrictIff(t: AndTail)
    requires AndTailOk(SingleTree, t)
    ensures AndTailOk(SingleWord, t) <==> !HasCloseWith(AndTailTokens(t))
    ensures AndTailTokens(t) != [] ==> AndTailTokens(t)[0] == And
    decreases t, 2
  {
    if t.AndMore? {
      WithStrictIff(t.next);
      AndTailStrictIff(t.rest);
      CloseWithAppend([And], WithTokens(t.next));
      CloseWithAppend([And] + WithTokens(t.next), AndTailTokens(t.rest));
    }
  }

  lemma {:induction false} AndStrictIff(f: AndForm)
    requires AndOk(SingleTree, f)
    ensures AndOk(SingleWord, f) <==> !HasCloseWith(AndTokens(f))
    decreases f, 3
  {
    WithStrictIff(f.head);
    AndTailStrictIff(f.tail);
    CloseWithAppend(WithTokens(f.head), AndTailTokens(f.tail));
  }

  lemma {:induction false} OrTailStrictIff(t: OrTail)
    requires OrTailOk(SingleTree, t)
    ensures OrTailOk(SingleWord, t) <==> !HasCloseWith(OrTailTokens(t))
    ensures OrTailTokens(t) != [] ==> OrTailTokens(t)[0] == Or
    decreases t, 4
  {
    if t.OrMore? {
      AndStrictIff(t.next);
      OrTailStrictIff(t.rest);
      CloseWithAppend([Or], AndTokens(t.next));
      CloseWithAppend([Or] + AndTokens(t.next), OrTailTokens(t.rest));
    }
  }

  lemma {:induction false} OrStrictIff(f: OrForm)
    requires OrOk(SingleTree, f)
    ensures OrOk(SingleWord, f) <==> !HasCloseWith(OrTokens(f))
    decreases f, 5
  {
    AndStrictIff(f.head);
    OrTailStrictIff(f.tail);
    CloseWithAppend(AndTokens(f.head), OrTailTokens(f.tail));
  }

  lemma {:induction false} StrictIsOk(f: OrForm)
    requires OrOk(SingleWord, f)
    ensures OrOk(SingleTree, f)
  {
    AndStrictIsOk(f.head);
    OrTailStrictIsOk(f.tail);
  }

  lemma {:induction false} AndStrictIsOk(f: AndForm)
    requires AndOk(SingleWord, f)
    ensures AndOk(SingleTree, f)
    decreases f, 2
  {
    WithStrictIsOk(f.head);
    AndTailStrictIsOk(f.tail);
  }

  lemma {:induction false} WithStrictIsOk(w: WithForm)
    requires WithOk(SingleWord, w)
    ensures WithOk(SingleTree, w)
    decreases w, 1
  {
    if w.atom.Paren? {
      StrictIsOk(w.atom.inner);
    }
  }

  lemma {:induction false} AndTailStrictIsOk(t: AndTail)
    requires AndTailOk(SingleWord, t)
    ensures AndTailOk(SingleTree, t)
    decreases t
  {
    if t.AndMore? {
      WithStrictIsOk(t.next);
      AndTailStrictIsOk(t.rest);
    }
  }

  lemma {:induction false} OrTailStrictIsOk(t: OrTail)
    requires OrTailOk(SingleWord, t)
    ensures OrTailOk(SingleTree, t)
    decreases t
  {
    if t.OrMore? {
      AndStrictIsOk(t.next);
      OrTailStrictIsOk(t.rest);
    }
  }

  /**
   parseSpdx reads more than the SPDX grammar: it also takes `(MIT) WITH x`.  What it accepts
   is an expression of that grammar exactly when no WITH stands right after a parenthesis.
   */
  lemma AcceptedIsSpdxIff(toks: seq<Token>)
    requires ParseSpdx(toks).Some?
    ensures (exists f :: OrOk(SingleWord, f) && OrTokens(f) == toks) <==> !HasCloseWith(toks)
  {
    var f := ParseOr(toks).value;
    assert OrTokens(f) + [] == OrTokens(f);
    OrStrictIff(f);
    if g :| OrOk(SingleWord, g) && OrTokens(g) == toks {
      StrictIsOk(g);
      OrStrictIff(g);
    }
  }

  /** And it takes all of the SPDX grammar. */
  lemma SpdxIsAccepted(f: OrForm)
    requires OrOk(SingleWord, f)
    ensures ParseSpdx(OrTokens(f)) == Some(OrTree(f))
  {
    StrictIsOk(f);
    DerivationParses(f);
  }

  lemma ParenthesizedExceptionIsAccepted(id: string, exception: string)
    ensures var toks := [Open, Word(id), Close, With, Word(exception)];
            ParseSpdx(toks) == Some(Id(id)) && HasCloseWith(toks)
  {
    var one := Single(WithForm(Plain(id), None));
    var f := Single(WithForm(Paren(one), Some(exception)));
    SingleTokens(WithForm(Plain(id), None));
    SingleTokens(WithForm(Paren(one), Some(exception)));
    assert WithTokens(WithForm(Plain(id), None)) == [Word(id)];
    assert AtomTokens(Paren(one)) == [Open, Word(id), Close];
    assert WithOk(SingleTree, WithForm(Plain(id), None));
    assert AtomOk(SingleTree, Paren(one)) && AtomTree(Paren(one)) == Id(id);
    assert WithOk(SingleTree, WithForm(Paren(one), Some(exception)));
    assert OrTokens(f) == [Open, Word(id), Close, With, Word(exception)];
    DerivationParses(f);
    assert CloseWithAt(OrTokens(f), 2);
  }

  /** An expression that is one operand. */
  function Single(w: WithForm): OrForm {
    OrForm(AndForm(w, AndEnd), OrEnd)
  }

  lemma SingleTokens(w: WithForm)
    ensures OrTokens(Single(w)) == WithTokens(w)
    ensures OrTree(Single(w)) == AtomTree(w.atom)
    ensures WithOk(SingleTree, w) ==> OrOk(SingleTree, Single(w))
  {
    var a := AndForm(w, AndEnd);
    assert AndTokens(a) == WithTokens(w) + [];
    assert AndTree(a) == AtomTree(w.atom);
    assert AndTailOk(SingleTree, AndEnd) && OrTailOk(SingleTree, OrEnd);
    assert WithOk(SingleTree, w) ==> AndOk(SingleTree, a);
  }

  // ---------- Printing ----------

  function AppendAnd(t: AndTail, w: WithForm): AndTail {
    match t case AndEnd => AndMore(w, AndEnd) case AndMore(next, rest) => AndMore(next, AppendAnd(rest, w))
  }

  function AppendOr(t: OrTail, f: AndForm): OrTail {
    match t case OrEnd => OrMore(f, OrEnd) case OrMore(next, rest) => OrMore(next, AppendOr(rest, f))
  }

  /** The derivation that writes a tree with as few parentheses as its grouping needs. */
  function AtomOf(n: Node): Atom
    decreases n, 0
  {
    match n
    case Id(id) => Plain(id)
    case Both(l, r) => Paren(OrForm(AndForm(AndOf(l).head, AppendAnd(AndOf(l).tail, WithForm(AtomOf(r), None))), OrEnd))
    case Either(l, r) => Paren(OrForm(OrOf(l).head, AppendOr(OrOf(l).tail, AndOf(r))))
  }

  function AndOf(n: Node): AndForm
    decreases n, 1
  {
    match n
    case Both(l, r) => AndForm(AndOf(l).head, AppendAnd(AndOf(l).tail, WithForm(AtomOf(r), None)))
    case _ => AndForm(WithForm(AtomOf(n), None), AndEnd)
  }

  function OrOf(n: Node): OrForm
    decreases n, 2
  {
    match n
    case Either(l, r) => OrForm(OrOf(l).head, AppendOr(OrOf(l).tail, AndOf(r)))
    case _ => OrForm(AndOf(n), OrEnd)
  }

  function Print(n: Node): seq<Token> {
    OrTokens(OrOf(n))
  }

  lemma {:induction false} AppendAndTree(left: Node, t: AndTail, w: WithForm)
    ensures AndTailTree(left, AppendAnd(t, w)) == Both(AndTailTree(left, t), AtomTree(w.atom))
    ensures AndTailOk(SingleWord, t) && WithOk(SingleWord, w) ==> AndTailOk(SingleWord, AppendAnd(t, w))
    ensures |AndTailTokens(AppendAnd(t, w))| == |AndTailTokens(t)| + 1 + |WithTokens(w)|
    decreases t
  {
    if t.AndMore? {
      AppendAndTree(Both(left, AtomTree(t.next.atom)), t.rest, w);
    } else {
      assert AndTailTree(left, AppendAnd(t, w)) == AndTailTree(Both(left, AtomTree(w.atom)), AndEnd);
    }
  }

  lemma {:induction false} AppendOrTree(left: Node, t: OrTail, f: AndForm)
    ensures OrTailTree(left, AppendOr(t, f)) == Either(OrTailTree(left, t), AndTree(f))
    ensures OrTailOk(SingleWord, t) && AndOk(SingleWord, f) ==> OrTailOk(SingleWord, AppendOr(t, f))
    ensures |OrTailTokens(AppendOr(t, f))| == |OrTailTokens(t)| + 1 + |AndTokens(f)|
    decreases t
  {
    if t.OrMore? {
      AppendOrTree(Either(left, AndTree(t.next)), t.rest, f);
    } else {
      assert OrTailTree(left, AppendOr(t, f)) == OrTailTree(Either(left, AndTree(f)), OrEnd);
    }
  }

  /** How many tokens a tree takes as an operand, as an AND group and as an OR group. */
  function AtomCost(n: Node): nat
    decreases n, 0
  {
    match n
    case Id(_) => 1
    case Both(l, r) => AndCost(l) + 1 + AtomCost(r) + 2
    case Either(l, r) => OrCost(l) + 1 + AndCost(r) + 2
  }

  function AndCost(n: Node): nat
    decreases n, 1
  {
    if n.Both? then AndCost(n.left) + 1 + AtomCost(n.right) else AtomCost(n)
  }

  function OrCost(n: Node): nat
    decreases n, 2
  {
    if n.Either? then OrCost(n.left) + 1 + AndCost(n.right) else AndCost(n)
  }

  lemma {:induction false} PrintedForms(n: Node)
    ensures AtomTree(AtomOf(n)) == n && AtomOk(SingleWord, AtomOf(n)) && |AtomTokens(AtomOf(n))| == AtomCost(n)
    ensures AndTree(AndOf(n)) == n && AndOk(SingleWord, AndOf(n)) && |AndTokens(AndOf(n))| == AndCost(n)
    ensures OrTree(OrOf(n)) == n && OrOk(SingleWord, OrOf(n)) && |OrTokens(OrOf(n))| == OrCost(n)
    decreases n
  {
    match n
    case Id(id) =>
      var w := WithForm(Plain(id), None);
      assert WithTokens(w) == [Word(id)] && WithOk(SingleWord, w);
      assert AndTailOk(SingleWord, AndEnd) && OrTailOk(SingleWord, OrEnd);
      assert AndTokens(AndOf(n)) == [Word(id)] + [];
      assert OrTokens(OrOf(n)) == AndTokens(AndOf(n)) + [];
    case Both(l, r) => PrintedBoth(n);
    case Either(l, r) => PrintedEither(n);
  }

  lemma {:induction false} PrintedBoth(n: Node)
    requires n.Both?
    ensures AtomTree(AtomOf(n)) == n && AtomOk(SingleWord, AtomOf(n)) && |AtomTokens(AtomOf(n))| == AtomCost(n)
    ensures AndTree(AndOf(n)) == n && AndOk(SingleWord, AndOf(n)) && |AndTokens(AndOf(n))| == AndCost(n)
    ensures OrTree(OrOf(n)) == n && OrOk(SingleWord, OrOf(n)) && |OrTokens(OrOf(n))| == OrCost(n)
    decreases n, 0
  {
    PrintedForms(n.left);
    PrintedForms(n.right);
    var left, w := AndOf(n.left), WithForm(AtomOf(n.right), None);
    AppendAndTree(AtomTree(left.head.atom), left.tail, w);
    assert |WithTokens(w)| == AtomCost(n.right) && WithOk(SingleWord, w);
    assert OrOf(n) == OrForm(AndOf(n), OrEnd) && AtomOf(n) == Paren(OrOf(n));
    assert OrTailOk(SingleWord, OrEnd) && OrTokens(OrOf(n)) == AndTokens(AndOf(n)) + [];
    assert OrTree(OrOf(n)) == OrTailTree(n, OrEnd) == n;
  }

  lemma {:induction false} PrintedEither(n: Node)
    requires n.Either?
    ensures AtomTree(AtomOf(n)) == n && AtomOk(SingleWord, AtomOf(n)) && |AtomTokens(AtomOf(n))| == AtomCost(n)
    ensures AndTree(AndOf(n)) == n && AndOk(SingleWord, AndOf(n)) && |AndTokens(AndOf(n))| == AndCost(n)
    ensures OrTree(OrOf(n)) == n && OrOk(SingleWord, OrOf(n)) && |OrTokens(OrOf(n))| == OrCost(n)
    decreases n, 0
  {
    PrintedForms(n.left);
    PrintedForms(n.right);
    var left, f := OrOf(n.left), AndOf(n.right);
    AppendOrTree(AndTree(left.head), left.tail, f);
    assert AtomOf(n) == Paren(OrOf(n));
    var w := WithForm(AtomOf(n), None);
    assert |WithTokens(w)| == AtomCost(n) && WithOk(SingleWord, w);
    assert AndTailOk(SingleWord, AndEnd) && AndTokens(AndOf(n)) == WithTokens(w) + [];
  }

  /** Printing a tree and parsing it gives the tree back, and what is printed is an SPDX expression. */
  lemma PrintThenParse(n: Node)
    ensures ParseSpdx(Print(n)) == Some(n)
    ensures !HasCloseWith(Print(n))
  {
    PrintedForms(n);
    SpdxIsAccepted(OrOf(n));
    StrictIsOk(OrOf(n));
    OrStrictIff(OrOf(n));
  }

  // ---------- No shorter spelling ----------

  lemma CostsOrdered(n: Node)
    ensures OrCost(n) <= AndCost(n) <= AtomCost(n)
    ensures AtomCost(n) <= OrCost(n) + 2
  {
  }

  lemma {:induction false} AtomIsLong(a: Atom)
    ensures |AtomTokens(a)| >= AtomCost(AtomTree(a))
    decreases a, 0
  {
    if a.Paren? {
      OrIsLong(a.inner);
      CostsOrdered(OrTree(a.inner));
    }
  }

  lemma {:induction false} AndTailIsLong(left: Node, t: AndTail)
    ensures AndCost(left) + |AndTailTokens(t)| >= AndCost(AndTailTree(left, t))
    decreases t, 1
  {
    if t.AndMore? {
      AtomIsLong(t.next.atom);
      AndTailIsLong(Both(left, AtomTree(t.next.atom)), t.rest);
    }
  }

  lemma {:induction false} AndIsLong(f: AndForm)
    ensures |AndTokens(f)| >= AndCost(AndTree(f))
    decreases f, 2
  {
    AtomIsLong(f.head.atom);
    CostsOrdered(AtomTree(f.head.atom));
    AndTailIsLong(AtomTree(f.head.atom), f.tail);
  }

  lemma {:induction false} OrTailIsLong(left: Node, t: OrTail)
    ensures OrCost(left) + |OrTailTokens(t)| >= OrCost(OrTailTree(left, t))
    decreases t, 3
  {
    if t.OrMore? {
      AndIsLong(t.next);
      OrTailIsLong(Either(left, AndTree(t.next)), t.rest);
    }
  }

  lemma {:induction false} OrIsLong(f: OrForm)
    ensures |OrTokens(f)| >= OrCost(OrTree(f))
    decreases f, 4
  {
    AndIsLong(f.head);
    CostsOrdered(AndTree(f.head));
    OrTailIsLong(AndTree(f.head), f.tail);
  }

  /** The parentheses printed are minimal: no accepted token list with this tree is shorter. */
  lemma PrintIsShortest(n: Node, toks: seq<Token>)
    requires ParseSpdx(toks) == Some(n)
    ensures |Print(n)| <= |toks|
  {
    var f := ParseOr(toks).value;
    assert OrTokens(f) + [] == OrTokens(f);
    OrIsLong(f);
    PrintedForms(n);
  }

  // ---------- What an expression allows ----------

  function AllowedTree(lower: string -> string, n: Node, allowed: set<string>): bool {
    match n
    case Id(id) => lower(id) in allowed
    case Both(l, r) => AllowedTree(lower, l, allowed) && AllowedTree(lower, r, allowed)
    case Either(l, r) => AllowedTree(lower, l, allowed) || AllowedTree(lower, r, allowed)
  }

  /** spdxAllowed on the tokens of an expression; None where it throws. */
  function SpdxAllowed(lower: string -> string, toks: seq<Token>, allowed: set<string>): Option<bool> {
    match ParseSpdx(toks) case None => None case Some(n) => Some(AllowedTree(lower, n, allowed))
  }

  /** The ways to satisfy an expression: each picks one side of every OR and keeps both sides of every AND. */
  ghost predicate Choice(lower: string -> string, n: Node, licenses: set<string>)
    decreases n
  {
    match n
    case Id(id) => licenses == {lower(id)}
    case Both(l, r) => exists a, b :: Choice(lower, l, a) && Choice(lower, r, b) && licenses == a + b
    case Either(l, r) => Choice(lower, l, licenses) || Choice(lower, r, licenses)
  }

  /** A tree is allowed exactly when some choice of licenses is inside the allow list. */
  lemma {:induction false} AllowedIffSomeChoice(lower: string -> string, n: Node, allowed: set<string>)
    ensures AllowedTree(lower, n, allowed) <==> exists c :: Choice(lower, n, c) && c <= allowed
    decreases n
  {
    match n
    case Id(id) =>
      if AllowedTree(lower, n, allowed) {
        assert Choice(lower, n, {lower(id)}) && {lower(id)} <= allowed;
      }
      if c :| Choice(lower, n, c) && c <= allowed {
        assert lower(id) in c;
      }
    case Both(l, r) =>
      AllowedIffSomeChoice(lower, l, allowed);
      AllowedIffSomeChoice(lower, r, allowed);
      if AllowedTree(lower, n, allowed) {
        var a :| Choice(lower, l, a) && a <= allowed;
        var b :| Choice(lower, r, b) && b <= allowed;
        assert Choice(lower, n, a + b) && a + b <= allowed;
      }
      if c :| Choice(lower, n, c) && c <= allowed {
        var a, b :| Choice(lower, l, a) && Choice(lower, r, b) && c == a + b;
        assert a <= allowed && b <= allowed;
      }
    case Either(l, r) =>
      AllowedIffSomeChoice(lower, l, allowed);
      AllowedIffSomeChoice(lower, r, allowed);
      if AllowedTree(lower, n, allowed) {
        if AllowedTree(lower, l, allowed) {
          var a :| Choice(lower, l, a) && a <= allowed;
          assert Choice(lower, n, a);
        } else {
          var b :| Choice(lower, r, b) && b <= allowed;
          assert Choice(lower, n, b);
        }
      }
  }

  /** A longer allow list never turns an allowed expression away, and never makes one parse or fail to. */
  lemma AllowedIsMonotone(lower: string -> string, toks: seq<Token>, small: set<string>, large: set<string>)
    requires small <= large
    ensures SpdxAllowed(lower, toks, small) == None <==> SpdxAllowed(lower, toks, large) == None
    ensures SpdxAllowed(lower, toks, small) == Some(true) ==> SpdxAllowed(lower, toks, large) == Some(true)
  {
    if SpdxAllowed(lower, toks, small) == Some(true) {
      var n := ParseSpdx(toks).value;
      AllowedIffSomeChoice(lower, n, small);
      AllowedIffSomeChoice(lower, n, large);
      var c :| Choice(lower, n, c) && c <= small;
      assert c <= large;
    }
  }
}
