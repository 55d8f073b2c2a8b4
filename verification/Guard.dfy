/** The mutation guard of src/claude/atomic.ts. */
module Guard {
  // The guard is a machine whose steps are single file-system calls, taken by any number of
  // processes in any order, with a crash possible before each step.
  //
  // A call of withLockMutation is named by its owner name: the pid and a nonce that no other
  // call uses.  Its candidate directory is named after it, so candidates are kept in a map
  // keyed by the owner name.

  datatype Owner = Owner(pid: nat, nonce: nat)

  datatype Dir = Absent | Dir(entries: set<Owner>)

  /** Where one call of withLockMutation stands. */
  datatype Pc =
    | Unstarted
    | Made                      // candidate directory exists, still empty
    | Filled                    // owner entry created; first rename pending
    | Busy                      // first rename refused; readdir pending
    | Listed(victim: Owner)     // guard held exactly this entry; liveness test pending
    | Condemned(victim: Owner)  // victim's process reported as gone; unlink pending
    | Emptied                   // victim's entry unlinked; rmdir pending
    | Retry                     // second rename pending
    | Inside                    // guard claimed: fn is running
    | Leaving                   // fn returned or threw; unlink of the own entry pending
    | Vacated                   // own entry unlinked; rmdir pending
    | Backout                   // not claimed: unlink of the candidate's entry pending
    | Unwind                    // rmdir of the candidate pending
    | Done(entered: bool)

  /** Where one call of removeDeadLockCandidate stands. */
  datatype Sweep =
    | Judged(owner: Owner)                  // owner's process reported as gone
    | Counted(owner: Owner, filled: bool)   // candidate listed: empty, or exactly the owner's entry
    | Swept(owner: Owner)                   // rmdir pending

  datatype State = State(
    guard: Dir,
    candidates: map<Owner, set<Owner>>,
    pcs: map<Owner, Pc>,
    sweeps: map<nat, Sweep>,
    dead: set<nat>)
  {
    function PcOf(o: Owner): Pc { if o in pcs then pcs[o] else Unstarted }

    predicate Live(o: Owner) { o.pid !in dead }

    function At(o: Owner, pc: Pc): State { this.(pcs := pcs[o := pc]) }
  }

  datatype Step =
    | MakeCandidate(o: Owner)
    | FillCandidate(o: Owner)
    | Claim(o: Owner)             // either rename of the candidate over the guard
    | List(o: Owner)
    | Judge(o: Owner)
    | UnlinkVictim(o: Owner)
    | RemoveEmptied(o: Owner)
    | Return(o: Owner)            // fn returns or throws
    | UnlinkOwn(o: Owner)
    | RemoveVacated(o: Owner)
    | UnlinkCandidate(o: Owner)
    | RemoveCandidate(o: Owner)
    | Fail(o: Owner)              // the call at this point reports an unexpected error and changes nothing
    | Crash(pid: nat)
    | SweepJudge(k: nat, o: Owner)
    | SweepList(k: nat)
    | SweepUnlink(k: nat)
    | SweepRemove(k: nat)
    | SweepStop(k: nat)

  const INITIAL := State(Absent, map[], map[], map[], {})

  /** rmdir: succeeds only on an empty directory. */
  function Rmdir(d: Dir): Dir {
    if d == Dir({}) then Absent else d
  }

  /** unlink of one entry; a missing directory or entry is left as it is. */
  function Unlink(d: Dir, o: Owner): Dir {
    if d.Dir? then Dir(d.entries - {o}) else d
  }

  /** rename of a directory over the guard name: only an absent or empty target is replaced. */
  predicate Claimable(d: Dir) {
    d.Absent? || d == Dir({})
  }

  predicate Enabled(s: State, step: Step) {
    match step
    case MakeCandidate(o) => s.Live(o) && o !in s.pcs && o !in s.candidates
    case FillCandidate(o) => s.Live(o) && s.PcOf(o) == Made
    case Claim(o) => s.Live(o) && (s.PcOf(o) == Filled || s.PcOf(o) == Retry)
    case List(o) => s.Live(o) && s.PcOf(o) == Busy
    case Judge(o) => s.Live(o) && s.PcOf(o).Listed?
    case UnlinkVictim(o) => s.Live(o) && s.PcOf(o).Condemned?
    case RemoveEmptied(o) => s.Live(o) && s.PcOf(o) == Emptied
    case Return(o) => s.Live(o) && s.PcOf(o) == Inside
    case UnlinkOwn(o) => s.Live(o) && s.PcOf(o) == Leaving
    case RemoveVacated(o) => s.Live(o) && s.PcOf(o) == Vacated
    case UnlinkCandidate(o) => s.Live(o) && s.PcOf(o) == Backout
    case RemoveCandidate(o) => s.Live(o) && s.PcOf(o) == Unwind
    case Fail(o) => o in s.pcs && s.Live(o) && !s.PcOf(o).Inside? && !s.PcOf(o).Done?
    case Crash(pid) => true
    case SweepJudge(k, o) => k !in s.sweeps && o.pid in s.dead
    case SweepList(k) => k in s.sweeps && s.sweeps[k].Judged?
    case SweepUnlink(k) => k in s.sweeps && s.sweeps[k].Counted?
    case SweepRemove(k) => k in s.sweeps && s.sweeps[k].Swept?
    case SweepStop(k) => k in s.sweeps
  }

  /** The state after an enabled step. */
  ghost function Apply(s: State, step: Step): State
    requires Enabled(s, step)
  {
    match step
    case MakeCandidate(o) => s.At(o, Made).(candidates := s.candidates[o := {}])
    case FillCandidate(o) =>
      if o in s.candidates then s.At(o, Filled).(candidates := s.candidates[o := s.candidates[o] + {o}])
      else s.At(o, Backout)
    case Claim(o) =>
      if o !in s.candidates then s.At(o, Backout)
      else if Claimable(s.guard) then
        s.At(o, Inside).(guard := Dir(s.candidates[o]), candidates := s.candidates - {o})
      else s.At(o, if s.PcOf(o) == Filled then Busy else Backout)
    case List(o) => s.At(o, ListedOwner(s.guard))
    case Judge(o) => s.At(o, if s.PcOf(o).victim.pid in s.dead then Condemned(s.PcOf(o).victim) else Retry)
    case UnlinkVictim(o) =>
      var v := s.PcOf(o).victim;
      if s.guard.Dir? && v in s.guard.entries then s.At(o, Emptied).(guard := Unlink(s.guard, v))
      else s.At(o, Retry)
    case RemoveEmptied(o) => s.At(o, Retry).(guard := Rmdir(s.guard))
    case Return(o) => s.At(o, Leaving)
    case UnlinkOwn(o) =>
      if s.guard.Dir? && o in s.guard.entries then s.At(o, Vacated).(guard := Unlink(s.guard, o))
      else s.At(o, Done(true))
    case RemoveVacated(o) => s.At(o, Done(true)).(guard := Rmdir(s.guard))
    case UnlinkCandidate(o) =>
      if o in s.candidates then s.At(o, Unwind).(candidates := s.candidates[o := s.candidates[o] - {o}])
      else s.At(o, Unwind)
    case RemoveCandidate(o) =>
      if o in s.candidates && s.candidates[o] == {} then s.At(o, Done(false)).(candidates := s.candidates - {o})
      else s.At(o, Done(false))
    case Fail(o) => s.At(o, AfterError(s.PcOf(o)))
    case Crash(pid) => s.(dead := s.dead + {pid})
    case SweepJudge(k, o) => s.(sweeps := s.sweeps[k := Judged(o)])
    case SweepList(k) =>
      var o := s.sweeps[k].owner;
      if o in s.candidates && s.candidates[o] <= {o}
      then s.(sweeps := s.sweeps[k := Counted(o, o in s.candidates[o])])
      else s.(sweeps := s.sweeps - {k})
    case SweepUnlink(k) =>
      var o := s.sweeps[k].owner;
      if !s.sweeps[k].filled then s.(sweeps := s.sweeps[k := Swept(o)])
      else if o in s.candidates && o in s.candidates[o]
      then s.(sweeps := s.sweeps[k := Swept(o)], candidates := s.candidates[o := s.candidates[o] - {o}])
      else s.(sweeps := s.sweeps - {k})
    case SweepRemove(k) =>
      var o := s.sweeps[k].owner;
      if o in s.candidates && s.candidates[o] == {}
      then s.(sweeps := s.sweeps - {k}, candidates := s.candidates - {o})
      else s.(sweeps := s.sweeps - {k})
    case SweepStop(k) => s.(sweeps := s.sweeps - {k})
  }

  /** readdir of the guard: recovery goes on only when it lists exactly one entry. */
  ghost function ListedOwner(d: Dir): Pc {
    if d.Dir? && exists v :: d.entries == {v}
    then var v :| d.entries == {v}; Listed(v)
    else Retry
  }

  /** Where an unexpected error at `pc` leaves the call. */
  function AfterError(pc: Pc): Pc
  {
    match pc
    case Made | Filled | Retry => Backout
    case Busy | Listed(_) | Condemned(_) | Emptied => Retry
    case Leaving | Vacated => Done(true)
    case Backout => Unwind
    case Unwind => Done(false)
    case Unstarted | Inside | Done(_) => pc
  }

  // ---------- Runs ----------

  ghost predicate Legal(s: State, steps: seq<Step>)
    decreases |steps|
  {
    steps == [] || (Enabled(s, steps[0]) && Legal(Apply(s, steps[0]), steps[1..]))
  }

  ghost function After(s: State, steps: seq<Step>): State
    requires Legal(s, steps)
    decreases |steps|
  {
    if steps == [] then s else After(Apply(s, steps[0]), steps[1..])
  }

  // ---------- The invariant ----------

  /** Calls that hold a filled candidate nobody else may touch. */
  predicate HoldsCandidate(pc: Pc) {
    pc.Filled? || pc.Busy? || pc.Listed? || pc.Condemned? || pc.Emptied? || pc.Retry?
  }

  /** Calls whose entry is in the guard directory. */
  predicate Owns(pc: Pc) {
    pc.Inside? || pc.Leaving?
  }

  ghost predicate GuardShape(s: State) {
    s.guard.Absent? || s.guard == Dir({}) || exists o :: s.guard == Dir({o})
  }

  /** What holds of every owner name, whether or not a call uses it. */
  ghost predicate OwnerOk(s: State, o: Owner) {
    var pc := s.PcOf(o);
    && (o in s.candidates ==> s.candidates[o] <= {o})
    && (s.Live(o) && HoldsCandidate(pc) ==> o in s.candidates && s.candidates[o] == {o})
    && (s.Live(o) && pc.Made? ==> o in s.candidates && s.candidates[o] == {})
    && (s.Live(o) && Owns(pc) ==> s.guard == Dir({o}))
    && (s.guard.Dir? && o in s.guard.entries ==> Owns(pc) || pc == Done(true))
    && (pc.Condemned? ==> !s.Live(pc.victim))
  }

  ghost predicate Inv(s: State) {
    && GuardShape(s)
    && (forall o :: OwnerOk(s, o))
    && (forall k :: k in s.sweeps ==> !s.Live(s.sweeps[k].owner))
  }

  /** The owner name a step acts for. */
  function Actor(s: State, step: Step): Owner
    requires Enabled(s, step)
  {
    match step
    case Crash(pid) => Owner(pid, 0)
    case SweepJudge(_, o) => o
    case SweepList(k) => s.sweeps[k].owner
    case SweepUnlink(k) => s.sweeps[k].owner
    case SweepRemove(k) => s.sweeps[k].owner
    case SweepStop(k) => s.sweeps[k].owner
    case _ => step.o
  }

  predicate IsSweep(step: Step) {
    step.SweepJudge? || step.SweepList? || step.SweepUnlink? || step.SweepRemove? || step.SweepStop?
  }

  predicate IsRecovery(step: Step) {
    step.List? || step.Judge? || step.UnlinkVictim? || step.RemoveEmptied?
  }

  predicate IsRelease(step: Step) {
    step.Return? || step.UnlinkOwn? || step.RemoveVacated? || step.UnlinkCandidate? || step.RemoveCandidate?
  }

  lemma SweepKeepsOwner(s: State, step: Step, o: Owner)
    requires Enabled(s, step) && IsSweep(step)
    requires OwnerOk(s, o) && !s.Live(Actor(s, step))
    ensures OwnerOk(Apply(s, step), o)
  {
  }

  lemma RecoveryKeepsOwner(s: State, step: Step, o: Owner)
    requires Enabled(s, step) && IsRecovery(step)
    requires GuardShape(s) && OwnerOk(s, o) && OwnerOk(s, Actor(s, step))
    ensures OwnerOk(Apply(s, step), o)
  {
  }

  lemma ReleaseKeepsOwner(s: State, step: Step, o: Owner)
    requires Enabled(s, step) && IsRelease(step)
    requires GuardShape(s) && OwnerOk(s, o) && OwnerOk(s, Actor(s, step))
    ensures OwnerOk(Apply(s, step), o)
  {
  }

  lemma ClaimKeepsOwner(s: State, step: Step, o: Owner)
    requires Enabled(s, step) && !IsRecovery(step) && !IsRelease(step) && !IsSweep(step)
    requires GuardShape(s) && OwnerOk(s, o) && OwnerOk(s, Actor(s, step))
    ensures OwnerOk(Apply(s, step), o)
  {
  }

  lemma StepKeepsInv(s: State, step: Step)
    requires Inv(s) && Enabled(s, step)
    ensures Inv(Apply(s, step))
  {
    assert OwnerOk(s, Actor(s, step));
    forall o ensures OwnerOk(Apply(s, step), o) {
      assert OwnerOk(s, o);
      if IsSweep(step) {
        SweepKeepsOwner(s, step, o);
      } else if IsRecovery(step) {
        RecoveryKeepsOwner(s, step, o);
      } else if IsRelease(step) {
        ReleaseKeepsOwner(s, step, o);
      } else {
        ClaimKeepsOwner(s, step, o);
      }
    }
  }

  lemma {:induction false} RunKeepsInv(s: State, steps: seq<Step>)
    requires Inv(s) && Legal(s, steps)
    ensures Inv(After(s, steps))
    decreases |steps|
  {
    if steps != [] {
      StepKeepsInv(s, steps[0]);
      RunKeepsInv(Apply(s, steps[0]), steps[1..]);
    }
  }

  /** No step but its return takes a call out of fn, and the dead stay dead. */
  lemma InsideStays(s: State, step: Step, o: Owner)
    requires Enabled(s, step) && !step.Return?
    ensures s.PcOf(o) == Inside ==> Apply(s, step).PcOf(o) == Inside
    ensures s.dead <= Apply(s, step).dead
    ensures !step.MakeCandidate? ==> Apply(s, step).pcs.Keys == s.pcs.Keys
  {
  }

  // ---------- What every run keeps ----------

  /** At most one live process is inside fn, whatever was interleaved and wherever a process died. */
  lemma MutualExclusion(steps: seq<Step>, a: Owner, b: Owner)
    requires Legal(INITIAL, steps)
    requires var s := After(INITIAL, steps);
             s.Live(a) && s.Live(b) && s.PcOf(a) == Inside && s.PcOf(b) == Inside
    ensures a == b
  {
    RunKeepsInv(INITIAL, steps);
    var s := After(INITIAL, steps);
    assert OwnerOk(s, a) && OwnerOk(s, b);
    assert a in Dir({b}).entries;
  }

  /** The guard name is absent, an empty directory, or holds one entry: that of a call that claimed it. */
  lemma GuardHoldsOneClaim(steps: seq<Step>)
    requires Legal(INITIAL, steps)
    ensures var s := After(INITIAL, steps);
            || s.guard.Absent?
            || s.guard == Dir({})
            || exists o :: s.guard == Dir({o}) && (Owns(s.PcOf(o)) || s.PcOf(o) == Done(true))
  {
    RunKeepsInv(INITIAL, steps);
    var s := After(INITIAL, steps);
    if s.guard.Dir? && s.guard != Dir({}) {
      var o :| s.guard == Dir({o});
      assert OwnerOk(s, o);
      assert o in s.guard.entries;
    }
  }

  /**
   A live owner's entry leaves the guard only by that owner's own unlink: no recovery,
   however long it was delayed since it read the guard, removes it.
   */
  lemma LiveEntryIsSafe(steps: seq<Step>, step: Step, o: Owner)
    requires Legal(INITIAL, steps) && Enabled(After(INITIAL, steps), step)
    requires var s := After(INITIAL, steps);
             && s.Live(o) && s.guard.Dir? && o in s.guard.entries
             && !(Apply(s, step).guard.Dir? && o in Apply(s, step).guard.entries)
    ensures step == UnlinkOwn(o)
  {
    RunKeepsInv(INITIAL, steps);
    var s := After(INITIAL, steps);
    assert OwnerOk(s, o) && OwnerOk(s, Actor(s, step));
  }

  /** A live call's candidate directory is changed or removed only by that call's own steps. */
  lemma LiveCandidateIsSafe(steps: seq<Step>, step: Step, o: Owner)
    requires Legal(INITIAL, steps) && Enabled(After(INITIAL, steps), step)
    requires var s := After(INITIAL, steps);
             && s.Live(o) && o in s.candidates
             && !(o in Apply(s, step).candidates && Apply(s, step).candidates[o] == s.candidates[o])
    ensures Actor(After(INITIAL, steps), step) == o && !IsSweep(step)
  {
    hide Apply, Legal, After;
    RunKeepsInv(INITIAL, steps);
    var s := After(INITIAL, steps);
    if IsSweep(step) {
      assert !s.Live(Actor(s, step));
      SweepTouchesItsOwner(s, step, o);
    } else {
      CallTouchesItsCandidate(s, step, o);
    }
  }

  lemma SweepTouchesItsOwner(s: State, step: Step, o: Owner)
    requires Enabled(s, step) && IsSweep(step) && o in s.candidates && Actor(s, step) != o
    ensures o in Apply(s, step).candidates && Apply(s, step).candidates[o] == s.candidates[o]
  {
  }

  lemma CallTouchesItsCandidate(s: State, step: Step, o: Owner)
    requires Enabled(s, step) && !IsSweep(step) && o in s.candidates
    ensures Actor(s, step) == o || (o in Apply(s, step).candidates && Apply(s, step).candidates[o] == s.candidates[o])
  {
  }

  // ---------- Progress of one call running alone ----------

  /** The recovery and retry that follow a refused first rename, when the owner found is dead. */
  function TakeoverScript(o: Owner): seq<Step> {
    [Claim(o)] + ([List(o)] + ([Judge(o)] + ([UnlinkVictim(o)] + ([RemoveEmptied(o)] + [Claim(o)]))))
  }

  /** The same, when the owner found is alive. */
  function RefusedScript(o: Owner): seq<Step> {
    [Claim(o)] + ([List(o)] + ([Judge(o)] + [Claim(o)]))
  }

  lemma LegalCons(s: State, step: Step, rest: seq<Step>)
    requires Enabled(s, step) && Legal(Apply(s, step), rest)
    ensures Legal(s, [step] + rest) && After(s, [step] + rest) == After(Apply(s, step), rest)
  {
    assert ([step] + rest)[1..] == rest;
  }

  lemma ListsTheOwner(s: State, v: Owner)
    requires s.guard == Dir({v})
    ensures ListedOwner(s.guard) == Listed(v)
  {
    assert s.guard.entries == {v};
    assert forall w :: s.guard.entries == {w} ==> w in {v};
  }

  /** A free guard is claimed by the first rename. */
  lemma SoloClaim(s: State, o: Owner)
    requires Inv(s) && s.Live(o) && s.PcOf(o) == Filled && Claimable(s.guard)
    ensures Legal(s, [Claim(o)])
    ensures After(s, [Claim(o)]).PcOf(o) == Inside && After(s, [Claim(o)]).guard == Dir({o})
  {
    assert OwnerOk(s, o);
  }

  /** A guard left by a dead owner is claimed within one call, in six of its own steps. */
  lemma SoloTakeover(s: State, o: Owner, v: Owner)
    requires Inv(s) && s.Live(o) && s.PcOf(o) == Filled && s.guard == Dir({v}) && !s.Live(v)
    ensures Legal(s, TakeoverScript(o))
    ensures After(s, TakeoverScript(o)).PcOf(o) == Inside && After(s, TakeoverScript(o)).guard == Dir({o})
  {
    assert OwnerOk(s, o);
    assert v in s.guard.entries;
    var s1 := Apply(s, Claim(o));
    ListsTheOwner(s1, v);
    var s2 := Apply(s1, List(o));
    var s3 := Apply(s2, Judge(o));
    var s4 := Apply(s3, UnlinkVictim(o));
    assert s4.guard == Dir({});
    var s5 := Apply(s4, RemoveEmptied(o));
    LegalCons(s4, RemoveEmptied(o), [Claim(o)]);
    LegalCons(s3, UnlinkVictim(o), [RemoveEmptied(o)] + [Claim(o)]);
    LegalCons(s2, Judge(o), [UnlinkVictim(o)] + ([RemoveEmptied(o)] + [Claim(o)]));
    LegalCons(s1, List(o), [Judge(o)] + ([UnlinkVictim(o)] + ([RemoveEmptied(o)] + [Claim(o)])));
    LegalCons(s, Claim(o), [List(o)] + ([Judge(o)] + ([UnlinkVictim(o)] + ([RemoveEmptied(o)] + [Claim(o)]))));
  }

  /** A guard held by a live owner is left as it is and the call backs out unclaimed. */
  lemma SoloRefused(s: State, o: Owner, v: Owner)
    requires Inv(s) && s.Live(o) && s.PcOf(o) == Filled && s.guard == Dir({v}) && s.Live(v)
    ensures Legal(s, RefusedScript(o))
    ensures After(s, RefusedScript(o)).PcOf(o) == Backout && After(s, RefusedScript(o)).guard == s.guard
  {
    assert OwnerOk(s, o);
    assert v in s.guard.entries;
    var s1 := Apply(s, Claim(o));
    ListsTheOwner(s1, v);
    var s2 := Apply(s1, List(o));
    var s3 := Apply(s2, Judge(o));
    LegalCons(s2, Judge(o), [Claim(o)]);
    LegalCons(s1, List(o), [Judge(o)] + [Claim(o)]);
    LegalCons(s, Claim(o), [List(o)] + ([Judge(o)] + [Claim(o)]));
  }
}
