/** The overlay of late answers in savePlanRecord, src/claude/hook.ts. */
module PlanRecord {
  // savePlanRecord must not lose the answers that were stored while a plan was being made.

  import opened Base
  import opened Hitl
  import opened UserAnswers
  import L = LeaseMachine
  import LeaseLock

  // ---------- The overlay of savePlanRecord ----------

  /** An answer the new plan must keep: given by a user or assumed, never taken from the knowledge base. */
  predicate IsLate(c: Clarification) {
    c.answer.Some? && c.answer.value != [] && !IsSettled(c)
  }

  function LateOf(list: seq<Clarification>): seq<Clarification> {
    if list == [] then []
    else LateOf(list[..|list| - 1]) + if IsLate(list[|list| - 1]) then [list[|list| - 1]] else []
  }

  /** The entry of the map from normalized question to late answer: the last one stored wins. */
  function Lookup(t: Text, late: seq<Clarification>, key: string): (r: Option<Clarification>)
    ensures r.Some? ==> r.value in late && t.norm(r.value.question) == key
    ensures r.None? ==> forall c :: c in late ==> t.norm(c.question) != key
  {
    if late == [] then None
    else if t.norm(late[|late| - 1].question) == key then Some(late[|late| - 1])
    else Lookup(t, late[..|late| - 1], key)
  }

  function Overlaid(t: Text, late: seq<Clarification>, c: Clarification): Clarification {
    match Lookup(t, late, t.norm(c.question)) case Some(answered) => answered case None => c
  }

  predicate Asks(t: Text, list: seq<Clarification>, key: string) {
    exists i :: 0 <= i < |list| && t.norm(list[i].question) == key
  }

  /** Late answers to questions the new plan does not ask, in the order they were stored. */
  function Unasked(t: Text, base: seq<Clarification>, late: seq<Clarification>): seq<Clarification> {
    if late == [] then []
    else
      var last := late[|late| - 1];
      Unasked(t, base, late[..|late| - 1]) + if Asks(t, base, t.norm(last.question)) then [] else [last]
  }

  function OverBase(t: Text, base: seq<Clarification>, late: seq<Clarification>): seq<Clarification> {
    seq(|base|, i requires 0 <= i < |base| => Overlaid(t, late, base[i]))
  }

  /** The clarifications that are saved over a stored record. */
  function Saved(t: Text, base: seq<Clarification>, prior: seq<Clarification>): seq<Clarification> {
    var late := LateOf(prior);
    OverBase(t, base, late) + Unasked(t, base, late)
  }

  method LateAnswers(prior: seq<Clarification>) returns (late: seq<Clarification>)
    ensures late == LateOf(prior)
  {
    late := [];
    for i := 0 to |prior|
      invariant late == LateOf(prior[..i])
    {
      assert prior[..i + 1][..i] == prior[..i];
      if IsLate(prior[i]) {
        late := late + [prior[i]];
      }
    }
    assert prior[..|prior|] == prior;
  }

  /** `new Map(late.map(...))`: a later answer replaces an earlier one with the same key. */
  method ByQuestion(t: Text, late: seq<Clarification>) returns (m: map<string, Clarification>)
    ensures forall key :: key in m <==> Lookup(t, late, key).Some?
    ensures forall key :: key in m ==> Lookup(t, late, key) == Some(m[key])
  {
    m := map[];
    for i := 0 to |late|
      invariant forall key :: key in m <==> Lookup(t, late[..i], key).Some?
      invariant forall key :: key in m ==> Lookup(t, late[..i], key) == Some(m[key])
    {
      assert late[..i + 1][..i] == late[..i];
      m := m[t.norm(late[i].question) := late[i]];
    }
    assert late[..|late|] == late;
  }

  /** The overlay of savePlanRecord over the clarifications stored when the lock is held. */
  method Overlay(t: Text, base: seq<Clarification>, prior: seq<Clarification>) returns (saved: seq<Clarification>)
    ensures saved == Saved(t, base, prior)
  {
    hide Lookup, LateOf;
    var late := LateAnswers(prior);
    var byQuestion := ByQuestion(t, late);
    saved := [];
    for i := 0 to |base|
      invariant saved == OverBase(t, base, late)[..i]
    {
      var key := t.norm(base[i].question);
      saved := saved + [if key in byQuestion then byQuestion[key] else base[i]];
    }
    assert saved == OverBase(t, base, late);
    var seen: set<string> := set c | c in base :: t.norm(c.question);
    for i := 0 to |late|
      invariant saved == OverBase(t, base, late) + Unasked(t, base, late[..i])
    {
      assert late[..i + 1][..i] == late[..i];
      var key := t.norm(late[i].question);
      assert key in seen <==> Asks(t, base, key);
      if key !in seen {
        saved := saved + [late[i]];
      }
    }
    assert late[..|late|] == late;
  }

  lemma {:induction false} LateMembers(list: seq<Clarification>, c: Clarification)
    ensures c in LateOf(list) <==> c in list && IsLate(c)
  {
    if list != [] {
      LateMembers(list[..|list| - 1], c);
      assert list == list[..|list| - 1] + [list[|list| - 1]];
    }
  }

  lemma {:induction false} UnaskedMembers(t: Text, base: seq<Clarification>, late: seq<Clarification>, c: Clarification)
    ensures c in Unasked(t, base, late) <==> c in late && !Asks(t, base, t.norm(c.question))
  {
    if late != [] {
      UnaskedMembers(t, base, late[..|late| - 1], c);
      assert late == late[..|late| - 1] + [late[|late| - 1]];
    }
  }

  /** Base questions keep their places; each is as planned, or the stored answer to the same question. */
  lemma BaseKeepsItsPlace(t: Text, base: seq<Clarification>, prior: seq<Clarification>, i: nat)
    requires i < |base|
    ensures var saved := Saved(t, base, prior);
            && i < |saved|
            && t.norm(saved[i].question) == t.norm(base[i].question)
            && (saved[i] == base[i] || (saved[i] in prior && IsLate(saved[i])))
            && ((exists c :: c in prior && IsLate(c) && t.norm(c.question) == t.norm(base[i].question)) ==>
                  saved[i] in prior && IsLate(saved[i]))
  {
    var late := LateOf(prior);
    forall c ensures c in late <==> c in prior && IsLate(c) {
      LateMembers(prior, c);
    }
  }

  /** Stored at some place, with no other late answer to the same normalized question after it. */
  ghost predicate LastToItsQuestion(t: Text, prior: seq<Clarification>, c: Clarification) {
    exists i :: 0 <= i < |prior| && prior[i] == c && NoneAfter(t, prior, c, i)
  }

  ghost predicate NoneAfter(t: Text, prior: seq<Clarification>, c: Clarification, i: nat) {
    forall j :: i < j < |prior| && IsLate(prior[j]) && t.norm(prior[j].question) == t.norm(c.question) ==> prior[j] == c
  }

  lemma LookupStep(t: Text, prior: seq<Clarification>, key: string)
    requires prior != []
    ensures var last := prior[|prior| - 1];
            Lookup(t, LateOf(prior), key)
            == if IsLate(last) && t.norm(last.question) == key then Some(last)
               else Lookup(t, LateOf(prior[..|prior| - 1]), key)
  {
    var before, last, late := prior[..|prior| - 1], prior[|prior| - 1], LateOf(prior);
    if IsLate(last) {
      assert late == LateOf(before) + [last] && late[..|late| - 1] == LateOf(before);
    } else {
      assert late == LateOf(before) + [] == LateOf(before);
    }
  }

  lemma {:induction false} LastIsLookedUp(t: Text, prior: seq<Clarification>, c: Clarification, i: nat)
    requires i < |prior| && prior[i] == c && IsLate(c) && NoneAfter(t, prior, c, i)
    ensures Lookup(t, LateOf(prior), t.norm(c.question)) == Some(c)
    decreases |prior|
  {
    hide LateOf, Lookup, IsLate;
    var before, last := prior[..|prior| - 1], prior[|prior| - 1];
    LookupStep(t, prior, t.norm(c.question));
    if i < |before| && !(IsLate(last) && t.norm(last.question) == t.norm(c.question)) {
      LastIsLookedUp(t, before, c, i);
    }
  }

  lemma {:induction false} LookedUpIsLast(t: Text, prior: seq<Clarification>, c: Clarification) returns (i: nat)
    requires Lookup(t, LateOf(prior), t.norm(c.question)) == Some(c)
    ensures i < |prior| && prior[i] == c && NoneAfter(t, prior, c, i)
    decreases |prior|
  {
    hide IsLate;
    var before, last := prior[..|prior| - 1], prior[|prior| - 1];
    LookupStep(t, prior, t.norm(c.question));
    if IsLate(last) && t.norm(last.question) == t.norm(c.question) {
      i := |before|;
    } else {
      i := LookedUpIsLast(t, before, c);
    }
  }

  lemma {:induction false} LookupIsLast(t: Text, prior: seq<Clarification>, c: Clarification)
    requires IsLate(c)
    ensures Lookup(t, LateOf(prior), t.norm(c.question)) == Some(c) <==> LastToItsQuestion(t, prior, c)
  {
    hide LateOf, Lookup, IsLate;
    if LastToItsQuestion(t, prior, c) {
      var i :| 0 <= i < |prior| && prior[i] == c && NoneAfter(t, prior, c, i);
      LastIsLookedUp(t, prior, c, i);
    }
    if Lookup(t, LateOf(prior), t.norm(c.question)) == Some(c) {
      var i := LookedUpIsLast(t, prior, c);
    }
  }

  /**
   A stored answer is in the saved list exactly when the new plan does not ask its question, or
   no other late answer stored after it has the same normalized question.
   */
  lemma LateAnswerSurvivesIff(t: Text, base: seq<Clarification>, prior: seq<Clarification>, c: Clarification)
    requires c in prior && IsLate(c)
    ensures c in Saved(t, base, prior) <==> (!Asks(t, base, t.norm(c.question)) || LastToItsQuestion(t, prior, c))
  {
    var late := LateOf(prior);
    var key := t.norm(c.question);
    LateMembers(prior, c);
    UnaskedMembers(t, base, late, c);
    LookupIsLast(t, prior, c);
    hide LastToItsQuestion, LateOf, IsLate;
    var front := OverBase(t, base, late);
    assert Saved(t, base, prior) == front + Unasked(t, base, late);
    if Asks(t, base, key) {
      var i :| 0 <= i < |base| && t.norm(base[i].question) == key;
      assert front[i] == Lookup(t, late, key).value;
      if c in front {
        var j :| 0 <= j < |base| && front[j] == c;
        assert t.norm(base[j].question) == key;
      }
    }
  }

  /** An answer by a user, or one that was assumed: not one from the knowledge base. */
  ghost predicate AnswersLate(c: Clarification) {
    c.answer.Some? && c.answer.value != "" && c.source != Some(Knowledge)
  }

  /** The last late answer to a question, by its place. */
  ghost predicate LastAnswerAt(t: Text, prior: seq<Clarification>, key: string, j: nat) {
    && j < |prior| && AnswersLate(prior[j]) && t.norm(prior[j].question) == key
    && forall i :: j < i < |prior| ==> !(AnswersLate(prior[i]) && t.norm(prior[i].question) == key)
  }

  lemma {:induction false} LastAnswerIsLookedUp(t: Text, prior: seq<Clarification>, key: string)
    ensures match Lookup(t, LateOf(prior), key)
            case Some(c) => exists j: nat :: LastAnswerAt(t, prior, key, j) && prior[j] == c
            case None => forall j :: 0 <= j < |prior| ==> !(AnswersLate(prior[j]) && t.norm(prior[j].question) == key)
    decreases |prior|
  {
    if prior != [] {
      var before, last := prior[..|prior| - 1], prior[|prior| - 1];
      LookupStep(t, prior, key);
      LastAnswerIsLookedUp(t, before, key);
      if IsLate(last) && t.norm(last.question) == key {
        assert LastAnswerAt(t, prior, key, |before|);
      } else if Lookup(t, LateOf(before), key).Some? {
        var j: nat :| LastAnswerAt(t, before, key, j) && before[j] == Lookup(t, LateOf(before), key).value;
        assert LastAnswerAt(t, prior, key, j);
      }
    }
  }

  /** The new plan asks the question at this place of the stored list. */
  ghost predicate AskedAgain(t: Text, base: seq<Clarification>, c: Clarification) {
    exists i :: 0 <= i < |base| && t.norm(base[i].question) == t.norm(c.question)
  }

  /** The late answers the new plan does not ask for, by their places. */
  ghost predicate KeptAt(t: Text, base: seq<Clarification>, prior: seq<Clarification>, at: seq<nat>) {
    && (forall i, j :: 0 <= i < j < |at| ==> at[i] < at[j])
    && forall j: nat :: j in at <==> j < |prior| && AnswersLate(prior[j]) && !AskedAgain(t, base, prior[j])
  }

  lemma UnaskedStep(t: Text, base: seq<Clarification>, prior: seq<Clarification>)
    requires prior != []
    ensures var last := prior[|prior| - 1];
            Unasked(t, base, LateOf(prior)) == Unasked(t, base, LateOf(prior[..|prior| - 1]))
                                              + if AnswersLate(last) && !AskedAgain(t, base, last) then [last] else []
  {
    var before, last := prior[..|prior| - 1], prior[|prior| - 1];
    assert IsLate(last) <==> AnswersLate(last);
    if IsLate(last) {
      assert LateOf(prior) == LateOf(before) + [last];
      assert LateOf(prior)[..|LateOf(prior)| - 1] == LateOf(before);
      assert Asks(t, base, t.norm(last.question)) <==> AskedAgain(t, base, last);
      hide AskedAgain, Asks;
    } else {
      assert LateOf(prior) == LateOf(before) + [] == LateOf(before);
    }
  }

  lemma KeptStep(t: Text, base: seq<Clarification>, prior: seq<Clarification>, at: seq<nat>)
    requires prior != [] && KeptAt(t, base, prior[..|prior| - 1], at)
    ensures var last := prior[|prior| - 1];
            KeptAt(t, base, prior, if AnswersLate(last) && !AskedAgain(t, base, last) then at + [|prior| - 1] else at)
  {
    hide AnswersLate, AskedAgain;
    var before := prior[..|prior| - 1];
    assert forall i :: 0 <= i < |at| ==> at[i] in at;
  }

  lemma {:induction false} UnaskedAt(t: Text, base: seq<Clarification>, prior: seq<Clarification>) returns (at: seq<nat>)
    ensures var kept := Unasked(t, base, LateOf(prior));
            KeptAt(t, base, prior, at) && |kept| == |at|
            && forall k :: 0 <= k < |at| ==> at[k] < |prior| && kept[k] == prior[at[k]]
    decreases |prior|
  {
    if prior == [] {
      return [];
    }
    hide KeptAt, AnswersLate, AskedAgain, Unasked, LateOf;
    var last := prior[|prior| - 1];
    at := UnaskedAt(t, base, prior[..|prior| - 1]);
    UnaskedStep(t, base, prior);
    KeptStep(t, base, prior, at);
    if AnswersLate(last) && !AskedAgain(t, base, last) {
      at := at + [|prior| - 1];
    }
  }

  /**
   The whole saved list: each planned question in its place, as the last late answer to it or as it was
   planned; then the late answers to other questions, in the order they were stored, each once.
   */
  lemma WhatIsSaved(t: Text, base: seq<Clarification>, prior: seq<Clarification>) returns (at: seq<nat>)
    ensures var saved := Saved(t, base, prior);
            && |saved| == |base| + |at| && KeptAt(t, base, prior, at)
            && (forall k :: 0 <= k < |at| ==> at[k] < |prior| && saved[|base| + k] == prior[at[k]])
            && forall i :: 0 <= i < |base| ==>
                 var key := t.norm(base[i].question);
                 || (exists j: nat :: LastAnswerAt(t, prior, key, j) && saved[i] == prior[j])
                 || (saved[i] == base[i]
                     && forall j :: 0 <= j < |prior| ==> !(AnswersLate(prior[j]) && t.norm(prior[j].question) == key))
  {
    hide AnswersLate, AskedAgain;
    at := UnaskedAt(t, base, prior);
    forall i | 0 <= i < |base| {
      LastAnswerIsLookedUp(t, prior, t.norm(base[i].question));
    }
  }

  ghost predicate Distinct(t: Text, list: seq<Clarification>) {
    forall i, j :: 0 <= i < j < |list| ==> t.norm(list[i].question) != t.norm(list[j].question)
  }

  /** With pairwise distinct stored questions no late answer is lost. */
  lemma NoLateAnswerIsLost(t: Text, base: seq<Clarification>, prior: seq<Clarification>)
    requires Distinct(t, prior)
    ensures forall c :: c in prior && IsLate(c) ==> c in Saved(t, base, prior)
  {
    forall c | c in prior && IsLate(c) ensures c in Saved(t, base, prior) {
      var i :| 0 <= i < |prior| && prior[i] == c;
      assert NoneAfter(t, prior, c, i);
      LateAnswerSurvivesIff(t, base, prior, c);
    }
  }

  /**
   Free-form replies all carry the same question, so two of them are not distinct: a plan
   that read the first one and is saved after the second loses the first one's text.
   */
  lemma SecondFreeFormHidesTheFirst(t: Text, first: string, second: string, now: int)
    requires t.trim(first) != [] && t.trim(second) != [] && t.trim(first) != t.trim(second)
    ensures var one := Folded(t, [], [], FreeText(first), now).list;
            var two := Folded(t, one, [], FreeText(second), now).list;
            && |two| == 2 && IsLate(two[0]) && two[0].answer == Some(t.trim(first))
            && two[0] !in Saved(t, one, two)
            && forall c :: c in Saved(t, one, two) ==> c.answer != Some(t.trim(first))
  {
    var one := Folded(t, [], [], FreeText(first), now).list;
    var two := Folded(t, one, [], FreeText(second), now).list;
    assert two[..1] == one && one[..0] == [];
    assert LateOf(one) == one;
    assert LateOf(two) == two;
    var key := t.norm(FREE_FORM);
    assert Lookup(t, two, key) == Some(two[1]);
    assert t.norm(one[0].question) == key;
    assert Asks(t, one, key);
    assert Unasked(t, one, one) == [] by {
      assert Unasked(t, one, one[..0]) == [];
    }
    assert Unasked(t, one, two) == [];
    assert Saved(t, one, two) == [two[1]];
  }

  // ---------- Under the session lock ----------

  /** The clarifications a record file holds, beside whatever else it holds. */
  type Reader = Option<Bytes> -> seq<Clarification>

  /** Client p saves a plan with the clarifications `base` over whatever record it finds under the lock. */
  ghost predicate SavesPlan(cfg: L.Config, read: Reader, t: Text, p: nat, base: seq<Clarification>) {
    forall r :: cfg.mutate(p, r).Some? && read(cfg.mutate(p, r)) == Saved(t, base, read(r))
  }

  /** What an update under the session lock does to the clarifications. */
  datatype Update = AnswerCall(asked: seq<Asked>, response: Response, now: int) | KeepsThem

  function Updated(t: Text, u: Update, list: seq<Clarification>): Folding {
    match u
    case AnswerCall(asked, response, now) => Folded(t, list, asked, response, now)
    case KeepsThem => Folding(list, [])
  }

  /** Client c's writes are those of the update: an answer call folds its answers in, any other leaves them. */
  ghost predicate Performs(cfg: L.Config, read: Reader, t: Text, c: nat, u: Update) {
    forall r :: cfg.mutate(c, r).Some? ==> read(cfg.mutate(c, r)) == Updated(t, u, read(r)).list
  }

  /** The clarifications before turn j of a ledger, and what turn j does to them. */
  ghost function Before(cfg: L.Config, read: Reader, ledger: seq<L.Turn>, j: nat): seq<Clarification>
    requires j <= |ledger|
  {
    read(L.Fold(cfg, ledger[..j]))
  }

  ghost function AtTurn(cfg: L.Config, read: Reader, t: Text, ledger: seq<L.Turn>, updates: nat -> Update, j: nat): Folding
    requires j < |ledger|
  {
    Updated(t, updates(ledger[j].client), Before(cfg, read, ledger, j))
  }

  /** Turns from..upto, those that committed, are such updates. */
  ghost predicate AllPerform(cfg: L.Config, read: Reader, t: Text, ledger: seq<L.Turn>, updates: nat -> Update, from: nat, upto: nat)
    requires upto <= |ledger|
  {
    forall j :: from <= j < upto && ledger[j].committed ==>
      Performs(cfg, read, t, ledger[j].client, updates(ledger[j].client))
  }

  /** Whether a committed turn after turn i and before `upto` answered the question at place m again. */
  ghost predicate AnsweredAgain(cfg: L.Config, read: Reader, t: Text, ledger: seq<L.Turn>, updates: nat -> Update, i: nat,
                                upto: nat, m: nat)
    requires upto <= |ledger|
  {
    exists j :: i < j < upto && ledger[j].committed && m in AtTurn(cfg, read, t, ledger, updates, j).matched
  }

  /** The answer at place m of a list: the same question, answered by a user, with the same text unless answered again. */
  ghost predicate StillAnswered(list: seq<Clarification>, m: nat, answered: Clarification, again: bool) {
    && m < |list| && list[m].question == answered.question && IsLate(list[m]) && list[m].source == Some(User)
    && (!again ==> list[m] == answered)
  }

  lemma OneTurn(cfg: L.Config, read: Reader, t: Text, ledger: seq<L.Turn>, updates: nat -> Update, j: nat)
    requires j < |ledger| && L.Replayable(cfg, ledger[..j + 1])
    requires ledger[j].committed ==> Performs(cfg, read, t, ledger[j].client, updates(ledger[j].client))
    ensures Before(cfg, read, ledger, j + 1) ==
            if ledger[j].committed then AtTurn(cfg, read, t, ledger, updates, j).list else Before(cfg, read, ledger, j)
  {
    assert ledger[..j + 1][..j] == ledger[..j];
  }

  lemma {:induction false} ReplayablePrefix(cfg: L.Config, ledger: seq<L.Turn>, n: nat)
    requires n <= |ledger| && L.Replayable(cfg, ledger)
    ensures L.Replayable(cfg, ledger[..n])
    decreases |ledger|
  {
    if n == |ledger| {
      assert ledger[..n] == ledger;
    } else {
      ReplayablePrefix(cfg, ledger[..|ledger| - 1], n);
      assert ledger[..|ledger| - 1][..n] == ledger[..n];
    }
  }

  /** An update leaves an answered question answered, and its text too unless it answers it again. */
  lemma UpdateKeepsAnswer(t: Text, u: Update, list: seq<Clarification>, m: nat, answered: Clarification, again: bool)
    requires StillAnswered(list, m, answered, again)
    ensures StillAnswered(Updated(t, u, list).list, m, answered, again || m in Updated(t, u, list).matched)
  {
    if u.AnswerCall? {
      var g := Folded(t, list, u.asked, u.response, u.now);
      FoldedIsSound(t, list, u.asked, u.response, u.now);
      assert SameQuestion(list[m], g.list[m]);
      if m in g.matched {
        var x :| 0 <= x < |g.matched| && g.matched[x] == m;
      }
    }
  }

  /** An answer folded in by turn i stays through every later turn. */
  lemma {:induction false} AnswerStays(cfg: L.Config, read: Reader, t: Text, ledger: seq<L.Turn>, updates: nat -> Update,
                                       i: nat, upto: nat, m: nat)
    requires i < upto <= |ledger| && ledger[i].committed && L.Replayable(cfg, ledger)
    requires AllPerform(cfg, read, t, ledger, updates, i, upto)
    requires m in AtTurn(cfg, read, t, ledger, updates, i).matched
    ensures m < |AtTurn(cfg, read, t, ledger, updates, i).list|
    ensures StillAnswered(Before(cfg, read, ledger, upto), m, AtTurn(cfg, read, t, ledger, updates, i).list[m],
                          AnsweredAgain(cfg, read, t, ledger, updates, i, upto, m))
    decreases upto
  {
    hide L.Fold, L.Replayable, Performs, Before;
    var g, u := AtTurn(cfg, read, t, ledger, updates, i), updates(ledger[i].client);
    FoldedIsSound(t, Before(cfg, read, ledger, i), u.asked, u.response, u.now);
    var x :| 0 <= x < |g.matched| && g.matched[x] == m;
    var last := upto - 1;
    ReplayablePrefix(cfg, ledger, upto);
    OneTurn(cfg, read, t, ledger, updates, last);
    if last > i {
      AnswerStays(cfg, read, t, ledger, updates, i, last, m);
      var again := AnsweredAgain(cfg, read, t, ledger, updates, i, last, m);
      UpdateKeepsAnswer(t, updates(ledger[last].client), Before(cfg, read, ledger, last), m, g.list[m], again);
    }
  }

  /** A save over distinct stored questions keeps every late answer that stands in the record it finds. */
  lemma {:induction false} StoredAnswersAreSaved(cfg: L.Config, ledger: seq<L.Turn>, read: Reader, t: Text, p: nat,
                                                 base: seq<Clarification>)
    requires SavesPlan(cfg, read, t, p, base) && ledger != [] && ledger[|ledger| - 1] == L.Turn(p, true)
    requires Distinct(t, Before(cfg, read, ledger, |ledger| - 1))
    ensures forall c :: c in Before(cfg, read, ledger, |ledger| - 1) && IsLate(c) ==> c in read(L.Fold(cfg, ledger))
  {
    var before := L.Fold(cfg, ledger[..|ledger| - 1]);
    assert cfg.mutate(p, before).Some? && read(cfg.mutate(p, before)) == Saved(t, base, read(before));
    NoLateAnswerIsLost(t, base, read(before));
  }

  /**
   The answer of a locked update, from its fold to the saved plan: whatever was interleaved, when
   turn i folded an answer in at place m and only answer calls and updates that leave the
   clarifications alone committed between it and the save, the record after the save holds that
   question answered by a user, and with the same text unless a later call answered it again.
   */
  lemma AnswersSurviveTheSave(cfg: L.Config, steps: seq<L.Step>, read: Reader, t: Text, p: nat,
                                                 base: seq<Clarification>, updates: nat -> Update, i: nat, m: nat)
    requires L.Legal(cfg, L.Initial(cfg), steps) && L.TimelyRun(cfg, L.Initial(cfg), steps)
    requires SavesPlan(cfg, read, t, p, base)
    requires var ledger := L.After(cfg, L.Initial(cfg), steps).ledger;
             && i < |ledger| - 1 && ledger[i].committed && ledger[|ledger| - 1] == L.Turn(p, true)
             && AllPerform(cfg, read, t, ledger, updates, i, |ledger| - 1)
             && m in AtTurn(cfg, read, t, ledger, updates, i).matched
             && Distinct(t, Before(cfg, read, ledger, |ledger| - 1))
    ensures var s := L.After(cfg, L.Initial(cfg), steps);
            var g := AtTurn(cfg, read, t, s.ledger, updates, i);
            && m < |g.list|
            && exists c :: c in read(s.record) && c.question == g.list[m].question && IsLate(c) && c.source == Some(User)
                 && (AnsweredAgain(cfg, read, t, s.ledger, updates, i, |s.ledger| - 1, m) || c == g.list[m])
  {
    hide L.Legal, L.After, L.TimelyRun, L.Fold, L.Replayable, Before, AtTurn, Distinct, AllPerform, SavesPlan, AnsweredAgain;
    LeaseLock.Serializable(cfg, steps);
    var s := L.After(cfg, L.Initial(cfg), steps);
    var ledger, n := s.ledger, |s.ledger| - 1;
    AnswerStays(cfg, read, t, ledger, updates, i, n, m);
    StoredAnswersAreSaved(cfg, ledger, read, t, p, base);
    var c := Before(cfg, read, ledger, n)[m];
    assert c in read(s.record);
  }
}
