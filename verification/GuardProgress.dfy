/** One undisturbed call of the guard of src/claude/atomic.ts, from its first file to its last. */
module GuardProgress {
  import opened Guard

  /** Nobody alive is in the guard. */
  predicate NobodyInside(s: State) {
    s.guard.Dir? ==> forall v :: v in s.guard.entries ==> !s.Live(v)
  }

  /** The steps from an empty candidate to fn: one rename, or the recovery of a dead owner's guard. */
  function EntrySteps(s: State, o: Owner): seq<Step> {
    [FillCandidate(o)] + if Claimable(s.guard) then [Claim(o)] else TakeoverScript(o)
  }

  lemma {:induction false} NothingNew(s: State, steps: seq<Step>)
    requires Legal(s, steps) && forall i :: 0 <= i < |steps| ==> !steps[i].Crash? && !steps[i].MakeCandidate?
    ensures After(s, steps).dead == s.dead && After(s, steps).candidates.Keys <= s.candidates.Keys
    decreases |steps|
  {
    if steps != [] {
      NothingNew(Apply(s, steps[0]), steps[1..]);
    }
  }

  lemma Fills(s: State, o: Owner)
    requires Inv(s) && s.Live(o) && s.PcOf(o) == Made
    ensures Enabled(s, FillCandidate(o))
    ensures var t := Apply(s, FillCandidate(o));
            Inv(t) && t.PcOf(o) == Filled && t.guard == s.guard && t.dead == s.dead
  {
    assert OwnerOk(s, o);
    StepKeepsInv(s, FillCandidate(o));
  }

  /** With nobody alive in the guard, an undisturbed call gets into fn. */
  lemma Enters(s: State, o: Owner)
    requires Inv(s) && s.Live(o) && s.PcOf(o) == Made && NobodyInside(s)
    ensures Legal(s, EntrySteps(s, o))
    ensures var t := After(s, EntrySteps(s, o));
            t.PcOf(o) == Inside && t.guard == Dir({o}) && t.dead == s.dead && t.candidates.Keys <= s.candidates.Keys
  {
    hide Apply, Enabled, OwnerOk, Legal, After, ListedOwner;
    Fills(s, o);
    var t := Apply(s, FillCandidate(o));
    var rest := if Claimable(s.guard) then [Claim(o)] else TakeoverScript(o);
    if Claimable(s.guard) {
      SoloClaim(t, o);
    } else {
      var v :| s.guard == Dir({v});
      assert v in s.guard.entries;
      SoloTakeover(t, o, v);
    }
    LegalCons(s, FillCandidate(o), rest);
    NothingNew(s, EntrySteps(s, o));
  }

  /** A call that did not get in removes its own candidate. */
  lemma BacksOut(s: State, o: Owner)
    requires Inv(s) && s.Live(o) && s.PcOf(o) == Backout && o in s.candidates
    ensures var steps := [UnlinkCandidate(o), RemoveCandidate(o)];
            && Legal(s, steps)
            && var t := After(s, steps);
               t.PcOf(o) == Done(false) && t.guard == s.guard && t.candidates == s.candidates - {o}
  {
    assert OwnerOk(s, o);
    var t := Apply(s, UnlinkCandidate(o));
    assert t.candidates[o] == {};
    assert t.candidates - {o} == s.candidates - {o};
    LegalCons(t, RemoveCandidate(o), []);
    LegalCons(s, UnlinkCandidate(o), [RemoveCandidate(o)] + []);
    assert [UnlinkCandidate(o)] + ([RemoveCandidate(o)] + []) == [UnlinkCandidate(o), RemoveCandidate(o)];
  }

  /** One whose candidate cannot be emptied leaves it behind, and still reports that it did not get in. */
  lemma FailedBackoutLeavesTheCandidate(s: State, o: Owner)
    requires s.Live(o) && s.PcOf(o) == Backout && o in s.candidates && s.candidates[o] != {}
    ensures var steps := [Fail(o), RemoveCandidate(o)]; Legal(s, steps) && After(s, steps) == s.At(o, Done(false))
  {
    var t := s.At(o, Unwind);
    assert Apply(s, Fail(o)) == t;
    assert t.pcs[o := Done(false)] == s.pcs[o := Done(false)];
    LegalCons(t, RemoveCandidate(o), []);
    LegalCons(s, Fail(o), [RemoveCandidate(o)] + []);
    assert [Fail(o)] + ([RemoveCandidate(o)] + []) == [Fail(o), RemoveCandidate(o)];
  }

  /** An undisturbed sweep removes a dead owner's candidate and nothing else. */
  lemma Sweeps(s: State, k: nat, o: Owner)
    requires Inv(s) && !s.Live(o) && k !in s.sweeps && o in s.candidates
    ensures var steps := [SweepJudge(k, o)] + ([SweepList(k)] + ([SweepUnlink(k)] + ([SweepRemove(k)] + [])));
            && Legal(s, steps)
            && var t := After(s, steps);
               t.candidates == s.candidates - {o} && t.guard == s.guard && t.pcs == s.pcs && k !in t.sweeps
  {
    assert OwnerOk(s, o);
    hide Legal, After, Inv, OwnerOk;
    var s1 := Apply(s, SweepJudge(k, o));
    var s2 := Apply(s1, SweepList(k));
    SweepEnds(s2, k, o);
    LegalCons(s1, SweepList(k), [SweepUnlink(k)] + ([SweepRemove(k)] + []));
    LegalCons(s, SweepJudge(k, o), [SweepList(k)] + ([SweepUnlink(k)] + ([SweepRemove(k)] + [])));
  }

  lemma SweepEnds(s: State, k: nat, o: Owner)
    requires o in s.candidates && s.candidates[o] <= {o} && k in s.sweeps && s.sweeps[k] == Counted(o, o in s.candidates[o])
    ensures var steps := [SweepUnlink(k)] + ([SweepRemove(k)] + []);
            && Legal(s, steps)
            && var t := After(s, steps);
               t.candidates == s.candidates - {o} && t.guard == s.guard && t.pcs == s.pcs && k !in t.sweeps
  {
    hide Legal, After;
    var s3 := Apply(s, SweepUnlink(k));
    assert o in s3.candidates && s3.candidates[o] == {};
    var s4 := Apply(s3, SweepRemove(k));
    assert s4.candidates == s.candidates - {o};
    Stays(s4);
    LegalCons(s3, SweepRemove(k), []);
    LegalCons(s, SweepUnlink(k), [SweepRemove(k)] + []);
  }

  lemma Stays(s: State)
    ensures Legal(s, []) && After(s, []) == s
  {
  }

  /** A call whose fn returned leaves the guard absent. */
  lemma Leaves(s: State, o: Owner)
    requires Inv(s) && s.Live(o) && s.PcOf(o) == Leaving
    ensures var steps := [UnlinkOwn(o), RemoveVacated(o)];
            && Legal(s, steps)
            && var t := After(s, steps);
               t.PcOf(o) == Done(true) && t.guard == Absent && t.dead == s.dead && t.candidates == s.candidates
  {
    assert OwnerOk(s, o);
    var t := Apply(s, UnlinkOwn(o));
    assert o in s.guard.entries;
    assert t.guard == Dir({});
    LegalCons(t, RemoveVacated(o), []);
    LegalCons(s, UnlinkOwn(o), [RemoveVacated(o)] + []);
    assert [UnlinkOwn(o)] + ([RemoveVacated(o)] + []) == [UnlinkOwn(o), RemoveVacated(o)];
  }

  function Failures(o: Owner, n: nat): seq<Step> {
    if n == 0 then [] else [Fail(o)] + Failures(o, n - 1)
  }

  /** How many failing calls are left until this call of withLockMutation is over. */
  function CallsLeft(pc: Pc): nat {
    match pc
    case Busy | Listed(_) | Condemned(_) | Emptied => 4
    case Made | Filled | Retry => 3
    case Backout => 2
    case Unwind | Leaving | Vacated => 1
    case Unstarted | Inside | Done(_) => 0
  }

  predicate HadRun(pc: Pc) { pc.Leaving? || pc.Vacated? || (pc.Done? && pc.entered) }

  /**
   However persistently the file system fails, a call outside fn is over after four more failing calls at
   most; nothing but the call itself has changed, and it reports a result of fn only if fn had run.
   */
  lemma {:induction false} FailuresEndTheCall(s: State, o: Owner)
    requires o in s.pcs && s.Live(o) && !s.PcOf(o).Unstarted? && !s.PcOf(o).Inside?
    ensures var n := CallsLeft(s.PcOf(o));
            && Legal(s, Failures(o, n))
            && After(s, Failures(o, n)) == s.At(o, Done(HadRun(s.PcOf(o))))
    decreases CallsLeft(s.PcOf(o))
  {
    if s.PcOf(o).Done? {
      assert s.pcs[o := s.pcs[o]] == s.pcs;
    } else {
      var t := Apply(s, Fail(o));
      FailuresEndTheCall(t, o);
      assert t.pcs[o := Done(HadRun(s.PcOf(o)))] == s.pcs[o := Done(HadRun(s.PcOf(o)))];
      LegalCons(s, Fail(o), Failures(o, CallsLeft(t.PcOf(o))));
    }
  }
}
