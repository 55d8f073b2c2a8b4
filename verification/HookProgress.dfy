/** What one undisturbed installer does with the hook lock of scripts/cursor-hooks.ts, from every reachable state. */
module HookProgress {
  import opened Base
  import opened HookLock
  import G = Guard
  import P = GuardProgress

  ghost predicate Leads(s: State, steps: seq<Step>, t: State) {
    Legal(s, steps) && After(s, steps) == t
  }

  lemma {:induction false} LeadsOn(s: State, a: seq<Step>, t: State, b: seq<Step>, u: State)
    requires Leads(s, a, t) && Leads(t, b, u)
    ensures Leads(s, a + b, u)
    decreases |a|
  {
    if a == [] {
      assert a + b == b;
    } else {
      assert (a + b)[1..] == a[1..] + b;
      LeadsOn(Apply(s, a[0]), a[1..], t, b, u);
    }
  }

  lemma OneStep(s: State, step: Step)
    requires Enabled(s, step)
    ensures Leads(s, [step], Apply(s, step))
  {
    assert [step][1..] == [];
  }

  /** Steps at the guard that neither enter nor leave fn. */
  function GuardSteps(steps: seq<G.Step>): seq<Step> {
    if steps == [] then [] else [GuardStep(steps[0])] + GuardSteps(steps[1..])
  }

  lemma {:induction false} GuardRuns(s: State, steps: seq<G.Step>)
    requires G.Legal(s.guard, steps) && forall i :: 0 <= i < |steps| ==> !steps[i].MakeCandidate? && !steps[i].Return?
    ensures Leads(s, GuardSteps(steps), s.(guard := G.After(s.guard, steps)))
    decreases |steps|
  {
    hide G.Apply, G.Enabled;
    if steps != [] {
      var t := s.(guard := G.Apply(s.guard, steps[0]));
      GuardRuns(t, steps[1..]);
      OneStep(s, GuardStep(steps[0]));
      LeadsOn(s, [GuardStep(steps[0])], t, GuardSteps(steps[1..]), s.(guard := G.After(s.guard, steps)));
    }
  }

  // ---------- In and out of fn ----------

  /** A client between attempts, with a name for its next call that nobody has used, and nobody alive in the guard. */
  ghost predicate Ready(s: State, c: nat, o: G.Owner) {
    && Inv(s) && s.Live(c) && (s.PcOf(c).Waiting? || s.PcOf(c).Leaving?)
    && o.pid == s.clients[c].pid && o !in s.attempts && o !in s.guard.candidates && P.NobodyInside(s.guard)
  }

  function MadeGuard(g: G.State, o: G.Owner): G.State {
    g.At(o, G.Made).(candidates := g.candidates[o := {}])
  }

  function EnterSteps(s: State, c: nat, o: G.Owner): seq<Step> {
    [Begin(c, o)] + GuardSteps(P.EntrySteps(MadeGuard(s.guard, o), o))
  }

  /** The state once the client's fn starts. */
  ghost function Entered(s: State, c: nat, o: G.Owner): State
    requires c in s.clients && (s.PcOf(c).Waiting? || s.PcOf(c).Leaving?)
    requires G.Legal(MadeGuard(s.guard, o), P.EntrySteps(MadeGuard(s.guard, o), o))
  {
    s.At(c, if s.PcOf(c).Waiting? then Trying(o) else Releasing(o))
    .(guard := G.After(MadeGuard(s.guard, o), P.EntrySteps(MadeGuard(s.guard, o), o)), attempts := s.attempts[o := c])
  }

  lemma Begins(s: State, c: nat, o: G.Owner) returns (begun: State)
    requires Ready(s, c, o)
    ensures begun == s.At(c, if s.PcOf(c).Waiting? then Trying(o) else Releasing(o))
                     .(guard := MadeGuard(s.guard, o), attempts := s.attempts[o := c])
    ensures Leads(s, [Begin(c, o)], begun) && Inv(begun) && G.Inv(begun.guard) && begun.guard.PcOf(o) == G.Made
  {
    hide Leads;
    begun := Apply(s, Begin(c, o));
    StepKeepsInv(s, Begin(c, o));
    hide G.Inv, ClientOk;
    OneStep(s, Begin(c, o));
  }

  lemma EntersFn(s: State, c: nat, o: G.Owner)
    requires Ready(s, c, o)
    ensures G.Legal(MadeGuard(s.guard, o), P.EntrySteps(MadeGuard(s.guard, o), o))
    ensures var t := Entered(s, c, o);
            && Leads(s, EnterSteps(s, c, o), t) && Inv(t) && Inside(t, c)
            && t.guard.guard == G.Dir({o}) && t.guard.dead == s.guard.dead
            && t.guard.candidates.Keys <= s.guard.candidates.Keys + {o}
  {
    hide Apply, Enabled, Inv, G.Apply, G.Enabled, G.Inv, Legal, After, G.Legal, G.After, Leads, P.EntrySteps, GuardSteps;
    var begun := Begins(s, c, o);
    var steps := P.EntrySteps(begun.guard, o);
    P.Enters(begun.guard, o);
    EntryIsPlain(begun.guard, o);
    GuardRuns(begun, steps);
    LeadsOn(s, [Begin(c, o)], begun, GuardSteps(steps), Entered(s, c, o));
    InvAfter(begun, GuardSteps(steps), Entered(s, c, o));
  }

  lemma EntryIsPlain(g: G.State, o: G.Owner)
    ensures forall i :: 0 <= i < |P.EntrySteps(g, o)| ==> !P.EntrySteps(g, o)[i].MakeCandidate? && !P.EntrySteps(g, o)[i].Return?
  {
  }

  lemma InvAfter(s: State, steps: seq<Step>, t: State)
    requires Inv(s) && Leads(s, steps, t)
    ensures Inv(t)
  {
    RunKeepsInv(s, steps);
  }

  function LeaveSteps(c: nat, o: G.Owner): seq<Step> {
    [Return(c)] + GuardSteps([G.UnlinkOwn(o), G.RemoveVacated(o)]) + [EndAttempt(c)]
  }

  lemma Returns(s: State, c: nat)
    requires Inv(s) && s.Live(c) && Resulted(s.PcOf(c)) && s.guard.PcOf(s.PcOf(c).o) == G.Inside
    ensures var o := s.PcOf(c).o;
            && s.guard.Live(o) && G.Enabled(s.guard, G.Return(o))
            && var guard := G.Apply(s.guard, G.Return(o));
               && Leads(s, [Return(c)], s.(guard := guard)) && G.Inv(guard) && guard.PcOf(o) == G.Leaving
               && guard.dead == s.guard.dead && guard.candidates == s.guard.candidates
  {
    hide Leads;
    assert ClientOk(s, c);
    G.StepKeepsInv(s.guard, G.Return(s.PcOf(c).o));
    hide Inv, ClientOk;
    OneStep(s, Return(c));
  }

  lemma Ends(s: State, c: nat)
    requires s.Live(c) && Resulted(s.PcOf(c)) && s.guard.PcOf(s.PcOf(c).o).Done?
    ensures Leads(s, [EndAttempt(c)], s.At(c, AfterAttempt(s.PcOf(c))))
  {
    hide Leads, AfterAttempt;
    OneStep(s, EndAttempt(c));
  }

  /** A client whose fn has its result leaves the guard and goes on with that result. */
  lemma LeavesFn(s: State, c: nat) returns (guard: G.State)
    requires Inv(s) && s.Live(c) && Resulted(s.PcOf(c)) && s.guard.PcOf(s.PcOf(c).o) == G.Inside
    ensures Leads(s, LeaveSteps(c, s.PcOf(c).o), s.At(c, AfterAttempt(s.PcOf(c))).(guard := guard))
    ensures guard.guard == G.Absent && guard.dead == s.guard.dead && guard.candidates == s.guard.candidates
  {
    hide Inv, G.Inv, Leads, Apply, Enabled, G.Apply, G.Enabled, G.Legal, G.After, GuardSteps;
    var o, pc := s.PcOf(c).o, s.PcOf(c);
    Returns(s, c);
    var returned := s.(guard := G.Apply(s.guard, G.Return(o)));
    P.Leaves(returned.guard, o);
    var steps := [G.UnlinkOwn(o), G.RemoveVacated(o)];
    GuardRuns(returned, steps);
    guard := G.After(returned.guard, steps);
    var left := s.(guard := guard);
    Ends(left, c);
    LeadsOn(s, [Return(c)], returned, GuardSteps(steps), left);
    LeadsOn(s, [Return(c)] + GuardSteps(steps), left, [EndAttempt(c)], left.At(c, AfterAttempt(pc)));
  }

  /** Every other client, the clock and the processes are as they were. */
  predicate Untouched(s: State, t: State, c: nat, pc: Pc) {
    && c in s.clients && t.clients == s.clients[c := s.clients[c].(pc := pc)] && t.now == s.now && t.guard.dead == s.guard.dead
  }

  /** One call of withLockMutation by client c: into the guard, its steps of fn, and out again. */
  function CallSteps(s: State, c: nat, o: G.Owner, fn: seq<Step>): seq<Step> {
    EnterSteps(s, c, o) + fn + LeaveSteps(c, o)
  }

  /** A whole call, from what its fn does. */
  lemma WholeCall(s: State, c: nat, o: G.Owner, fn: seq<Step>, u: State)
    requires Ready(s, c, o) && G.Legal(MadeGuard(s.guard, o), P.EntrySteps(MadeGuard(s.guard, o), o))
    requires Leads(Entered(s, c, o), fn, u)
    requires u.Live(c) && Resulted(u.PcOf(c)) && u.PcOf(c).o == o && u.guard == Entered(s, c, o).guard
    ensures Legal(s, CallSteps(s, c, o, fn))
    ensures var t := After(s, CallSteps(s, c, o, fn));
            && t == u.At(c, AfterAttempt(u.PcOf(c))).(guard := t.guard) && Inv(t)
            && t.guard.guard == G.Absent && t.guard.dead == s.guard.dead
            && t.guard.candidates.Keys <= s.guard.candidates.Keys + {o}
  {
    EntersFn(s, c, o);
    var entered := Entered(s, c, o);
    assert Inv(s) && entered.guard.PcOf(o) == G.Inside;
    hide Ready, Inv, Entered, EnterSteps, LeaveSteps, G.Legal, G.After, Inside, Apply, Enabled;
    InvAfter(entered, fn, u);
    var guard := LeavesFn(u, c);
    var t := u.At(c, AfterAttempt(u.PcOf(c))).(guard := guard);
    LeadsOn(s, EnterSteps(s, c, o), entered, fn, u);
    LeadsOn(s, EnterSteps(s, c, o) + fn, u, LeaveSteps(c, o), t);
    InvAfter(s, CallSteps(s, c, o, fn), t);
  }

  // ---------- Taking and removing the lock ----------

  lemma TwoSteps(s: State, a: Step, b: Step, t: State)
    requires Enabled(s, a) && Enabled(Apply(s, a), b) && Apply(Apply(s, a), b) == t
    ensures Leads(s, [a, b], t)
  {
    hide Apply, Enabled, Leads;
    OneStep(s, a);
    OneStep(Apply(s, a), b);
    LeadsOn(s, [a], Apply(s, a), [b], t);
    assert [a] + [b] == [a, b];
  }

  /** A client inside fn, at its start. */
  ghost predicate Starts(s: State, c: nat, pc: Pc) {
    s.Live(c) && s.PcOf(c) == pc && Attempting(pc) && s.guard.PcOf(pc.o) == G.Inside
  }

  lemma StartsFn(s: State, c: nat, o: G.Owner)
    requires Ready(s, c, o)
    ensures G.Legal(MadeGuard(s.guard, o), P.EntrySteps(MadeGuard(s.guard, o), o))
    ensures var e := Entered(s, c, o);
            && c in s.clients && Starts(e, c, if s.PcOf(c).Waiting? then Trying(o) else Releasing(o))
            && (e.file, e.now) == (s.file, s.now)
            && e.clients == s.clients[c := s.clients[c].(pc := e.PcOf(c))] && e.guard.dead == s.guard.dead
  {
    EntersFn(s, c, o);
  }

  /** There is no lock file, or it names a dead process, or it has named nobody for a second or more. */
  predicate Takeable(s: State) {
    s.file.Some? ==>
      if s.file.value.pid.Some? then s.file.value.pid.value in s.guard.dead
      else s.now - s.file.value.mtime >= 1000
  }

  /** The steps that look at the lock, and remove what is left behind. */
  function LookSteps(s: State, c: nat): seq<Step> {
    [ReadLock(c)] +
    if s.file.None? then []
    else if Takeable(s) then [Judge(c)] + [ReadAgain(c), UnlinkOld(c)]
    else [Judge(c)]
  }

  lemma Looks(s: State, c: nat, o: G.Owner)
    requires Starts(s, c, Trying(o))
    ensures Leads(s, LookSteps(s, c),
                  if Takeable(s) then s.At(c, Free(o)).(file := None) else s.At(c, Missed(o)))
  {
    hide Leads;
    OneStep(s, ReadLock(c));
    if s.file.None? {
      assert Apply(s, ReadLock(c)) == s.At(c, Free(o)).(file := None);
      assert [ReadLock(c)] + [] == [ReadLock(c)];
    } else {
      Judges(s.At(c, Read(o, s.file.value)), c, o);
      var t := if Takeable(s) then s.At(c, Free(o)).(file := None) else s.At(c, Missed(o));
      assert s.At(c, Read(o, s.file.value)).clients[c := t.clients[c]] == t.clients;
      LeadsOn(s, [ReadLock(c)], s.At(c, Read(o, s.file.value)), if Takeable(s) then [Judge(c)] + [ReadAgain(c), UnlinkOld(c)] else [Judge(c)], t);
    }
  }

  lemma Judges(s: State, c: nat, o: G.Owner)
    requires s.Live(c) && s.file.Some? && s.PcOf(c) == Read(o, s.file.value)
    ensures if Takeable(s) then Leads(s, [Judge(c)] + [ReadAgain(c), UnlinkOld(c)], s.At(c, Free(o)).(file := None))
            else Leads(s, [Judge(c)], s.At(c, Missed(o)))
  {
    hide Leads;
    OneStep(s, Judge(c));
    if Takeable(s) {
      var dead, u := s.At(c, Dead(o, s.file.value)), s.At(c, Free(o)).(file := None);
      assert Apply(s, Judge(c)) == dead;
      var stale := s.At(c, Stale(o));
      assert dead.clients[c := dead.clients[c].(pc := Stale(o))] == stale.clients;
      assert Apply(dead, ReadAgain(c)) == stale;
      assert stale.clients[c := stale.clients[c].(pc := Free(o))] == u.clients;
      TwoSteps(dead, ReadAgain(c), UnlinkOld(c), u);
      LeadsOn(s, [Judge(c)], dead, [ReadAgain(c), UnlinkOld(c)], u);
    }
  }

  /** The file with the client's whole payload. */
  function Payload(s: State, c: nat): File
    requires c in s.clients
  {
    File(Some(s.clients[c].pid), c, true, s.now)
  }

  lemma Writes(s: State, c: nat, o: G.Owner)
    requires s.Live(c) && s.PcOf(c) == Free(o) && s.file == None
    ensures Leads(s, [OpenNew(c), WriteAll(c)], s.At(c, Won(o)).(file := Some(Payload(s, c))))
  {
    hide Leads;
    var created, won := s.At(c, Opened(o)).(file := Some(File(None, c, false, s.now))), s.At(c, Won(o)).(file := Some(Payload(s, c)));
    assert Apply(s, OpenNew(c)) == created;
    assert created.clients[c := created.clients[c].(pc := Won(o))] == won.clients;
    TwoSteps(s, OpenNew(c), WriteAll(c), won);
  }

  /** An installer whose payload cannot be written removes its new file again. */
  lemma FailedWriteIsUndone(s: State, c: nat, o: G.Owner)
    requires s.Live(c) && s.PcOf(c) == Free(o) && s.file == None
    requires s.guard.PcOf(o) == G.Inside
    ensures Leads(s, [OpenNew(c), FnError(c)] + [UnlinkUndo(c)], s.At(c, Threw(o)))
  {
    hide Leads;
    var created := s.At(c, Opened(o)).(file := Some(File(None, c, false, s.now)));
    var failed, u := created.At(c, Undo(o)), s.At(c, Threw(o));
    assert Apply(s, OpenNew(c)) == created;
    TwoSteps(s, OpenNew(c), FnError(c), failed);
    assert failed.clients[c := u.clients[c]] == u.clients;
    OneStep(failed, UnlinkUndo(c));
    LeadsOn(s, [OpenNew(c), FnError(c)], failed, [UnlinkUndo(c)], u);
  }

  lemma TakesTheLock(s: State, c: nat, o: G.Owner)
    requires Starts(s, c, Trying(o)) && Takeable(s)
    ensures Leads(s, LookSteps(s, c) + [OpenNew(c), WriteAll(c)], s.At(c, Won(o)).(file := Some(Payload(s, c))))
  {
    hide Leads, LookSteps, Takeable, Apply, Enabled;
    Looks(s, c, o);
    var judged, u := s.At(c, Free(o)).(file := None), s.At(c, Won(o)).(file := Some(Payload(s, c)));
    Writes(judged, c, o);
    assert judged.clients[c := judged.clients[c].(pc := Won(o))] == u.clients;
    LeadsOn(s, LookSteps(s, c), judged, [OpenNew(c), WriteAll(c)], u);
  }

  /**
   An undisturbed installer gets the lock exactly when none protects anybody: then the file holds its
   own payload and its body runs; otherwise the file stays and the installer waits.
   */
  lemma TakesIffLeftBehind(s: State, c: nat, o: G.Owner)
    requires Ready(s, c, o) && s.PcOf(c).Waiting?
    ensures var fn := LookSteps(s, c) + if Takeable(s) then [OpenNew(c), WriteAll(c)] else [];
            && Legal(s, CallSteps(s, c, o, fn))
            && var t := After(s, CallSteps(s, c, o, fn));
               && t.guard.guard == G.Absent
               && (if Takeable(s) then Untouched(s, t, c, Body) && t.file == Some(File(Some(s.clients[c].pid), c, true, s.now))
                   else Untouched(s, t, c, Waiting) && t.file == s.file)
  {
    hide Leads, G.Legal, G.After, P.EntrySteps, Legal, After, Inv, Apply, Enabled, Entered, EnterSteps, Ready;
    StartsFn(s, c, o);
    var e := Entered(s, c, o);
    assert (Takeable(e) <==> Takeable(s)) && LookSteps(e, c) == LookSteps(s, c);
    hide Takeable, LookSteps;
    if Takeable(s) {
      TakesTheLock(e, c, o);
      WholeCall(s, c, o, LookSteps(s, c) + [OpenNew(c), WriteAll(c)], e.At(c, Won(o)).(file := Some(Payload(e, c))));
    } else {
      Looks(e, c, o);
      assert LookSteps(s, c) + [] == LookSteps(s, c);
      WholeCall(s, c, o, LookSteps(s, c), e.At(c, Missed(o)));
    }
  }

  predicate HoldsPayload(s: State, c: nat) { s.file.Some? && s.file.value.whole && s.file.value.writer == c }

  function RemoveSteps(own: bool, c: nat): seq<Step> { [Compare(c)] + if own then [UnlinkOwn(c)] else [] }

  lemma Removes(s: State, c: nat, o: G.Owner)
    requires Starts(s, c, Releasing(o))
    ensures var own := HoldsPayload(s, c);
            Leads(s, RemoveSteps(own, c), s.At(c, Released(o)).(file := if own then None else s.file))
  {
    hide Leads;
    OneStep(s, Compare(c));
    if HoldsPayload(s, c) {
      var own, u := s.At(c, Own(o)), s.At(c, Released(o)).(file := None);
      assert Apply(s, Compare(c)) == own;
      assert own.clients[c := own.clients[c].(pc := Released(o))] == u.clients;
      OneStep(own, UnlinkOwn(c));
      LeadsOn(s, [Compare(c)], own, [UnlinkOwn(c)], u);
    } else {
      assert [Compare(c)] + [] == [Compare(c)];
    }
  }

  /** An undisturbed removal removes the file exactly when it still holds the installer's own payload. */
  lemma RemovesItsOwn(s: State, c: nat, o: G.Owner)
    requires Ready(s, c, o) && s.PcOf(c).Leaving?
    ensures var own := HoldsPayload(s, c);
            && Legal(s, CallSteps(s, c, o, RemoveSteps(own, c)))
            && var t := After(s, CallSteps(s, c, o, RemoveSteps(own, c)));
               t.guard.guard == G.Absent && Untouched(s, t, c, Ended) && t.file == if own then None else s.file
  {
    hide Leads, G.Legal, G.After, P.EntrySteps, Legal, After, Inv, Apply, Enabled, RemoveSteps, Entered, EnterSteps, Ready;
    StartsFn(s, c, o);
    var e, own := Entered(s, c, o), HoldsPayload(s, c);
    Removes(e, c, o);
    WholeCall(s, c, o, RemoveSteps(own, c), e.At(c, Released(o)).(file := if own then None else s.file));
  }

  // ---------- Errors ----------

  lemma LooksAndFails(s: State, c: nat, o: G.Owner)
    requires Starts(s, c, Trying(o))
    ensures Leads(s, [ReadLock(c), FnError(c)], s.At(c, if s.file.None? then Threw(o) else Missed(o)))
  {
    hide Leads;
    var read := s.At(c, if s.file.None? then Free(o) else Read(o, s.file.value));
    var t := s.At(c, if s.file.None? then Threw(o) else Missed(o));
    assert Apply(s, ReadLock(c)) == read;
    assert read.clients[c := t.clients[c]] == t.clients;
    TwoSteps(s, ReadLock(c), FnError(c), t);
  }

  /** An error after the first look: the installer fails if it was about to create the file, and waits otherwise. */
  lemma ErrorAfterLooking(s: State, c: nat, o: G.Owner)
    requires Ready(s, c, o) && s.PcOf(c).Waiting?
    ensures var steps := CallSteps(s, c, o, [ReadLock(c), FnError(c)]);
            && Legal(s, steps)
            && var t := After(s, steps);
               t.guard.guard == G.Absent && t.file == s.file && Untouched(s, t, c, if s.file.None? then Ended else Waiting)
  {
    hide Leads, G.Legal, G.After, P.EntrySteps, Legal, After, Inv, Apply, Enabled, Entered, EnterSteps, Ready;
    StartsFn(s, c, o);
    var e := Entered(s, c, o);
    LooksAndFails(e, c, o);
    WholeCall(s, c, o, [ReadLock(c), FnError(c)], e.At(c, if e.file.None? then Threw(o) else Missed(o)));
  }

  function FailedRemoval(own: bool, c: nat): seq<Step> { (if own then [Compare(c)] else []) + [FnError(c)] }

  lemma RemovalFails(s: State, c: nat, o: G.Owner)
    requires Starts(s, c, Releasing(o))
    ensures Leads(s, FailedRemoval(HoldsPayload(s, c), c), s.At(c, Released(o)))
  {
    hide Leads;
    var t := s.At(c, Released(o));
    if HoldsPayload(s, c) {
      assert Apply(s, Compare(c)) == s.At(c, Own(o));
      assert s.At(c, Own(o)).clients[c := t.clients[c]] == t.clients;
      TwoSteps(s, Compare(c), FnError(c), t);
      assert [Compare(c)] + [FnError(c)] == [Compare(c), FnError(c)];
    } else {
      OneStep(s, FnError(c));
      assert [] + [FnError(c)] == [FnError(c)];
    }
  }

  /** An error in the removal ends it with the file as it is, whether or not the file was found to be the installer's. */
  lemma ErrorInRemoval(s: State, c: nat, o: G.Owner)
    requires Ready(s, c, o) && s.PcOf(c).Leaving?
    ensures var steps := CallSteps(s, c, o, FailedRemoval(HoldsPayload(s, c), c));
            && Legal(s, steps)
            && var t := After(s, steps); t.guard.guard == G.Absent && t.file == s.file && Untouched(s, t, c, Ended)
  {
    hide Leads, G.Legal, G.After, P.EntrySteps, Legal, After, Inv, Apply, Enabled, FailedRemoval, Entered, EnterSteps, Ready;
    StartsFn(s, c, o);
    var e := Entered(s, c, o);
    RemovalFails(e, c, o);
    WholeCall(s, c, o, FailedRemoval(HoldsPayload(s, c), c), e.At(c, Released(o)));
  }

  /** A payload that can be neither written nor taken away leaves a file that names nobody. */
  lemma FailedUndoLeavesTheFile(s: State, c: nat, o: G.Owner)
    requires s.Live(c) && s.PcOf(c) == Free(o) && s.file == None
    requires s.guard.PcOf(o) == G.Inside
    ensures Leads(s, [OpenNew(c), FnError(c)] + [FnError(c)], s.At(c, Threw(o)).(file := Some(File(None, c, false, s.now))))
  {
    hide Leads;
    var created := s.At(c, Opened(o)).(file := Some(File(None, c, false, s.now)));
    var failed, u := created.At(c, Undo(o)), created.At(c, Threw(o));
    assert Apply(s, OpenNew(c)) == created;
    TwoSteps(s, OpenNew(c), FnError(c), failed);
    assert failed.clients[c := u.clients[c]] == u.clients;
    OneStep(failed, FnError(c));
    assert s.clients[c := u.clients[c]] == u.clients;
    LeadsOn(s, [OpenNew(c), FnError(c)], failed, [FnError(c)], u);
  }

  // ---------- A run in which an installer dies while it writes its payload ----------

  const FIRST := G.Owner(7, 0)
  const SECOND := G.Owner(8, 0)

  lemma InitialInv()
    ensures Inv(INITIAL)
  {
  }

  /** A first installer creates the file and writes a part of its payload, which names whom it may. */
  lemma Tears(named: Option<nat>) returns (steps: seq<Step>, s: State)
    ensures Leads(INITIAL, steps, s) && Inv(s) && s.file == Some(File(named, 0, false, 0)) && s.now == 0
    ensures s.clients == map[0 := Client(7, Opened(FIRST))] && s.guard.guard == G.Dir({FIRST}) && s.guard.dead == {}
    ensures s.attempts.Keys <= {FIRST} && s.guard.candidates.Keys <= {FIRST}
  {
    hide Leads, G.Legal, G.After, P.EntrySteps, Legal, After, EnterSteps;
    InitialInv();
    var s1 := Apply(INITIAL, Arrive(0, 7));
    OneStep(INITIAL, Arrive(0, 7));
    InvAfter(INITIAL, [Arrive(0, 7)], s1);
    EntersFn(s1, 0, FIRST);
    var e := Entered(s1, 0, FIRST);
    LeadsOn(INITIAL, [Arrive(0, 7)], s1, EnterSteps(s1, 0, FIRST), e);
    var created := e.At(0, Opened(FIRST)).(file := Some(File(None, 0, false, 0)));
    assert Apply(e, ReadLock(0)) == e.At(0, Free(FIRST));
    assert e.At(0, Free(FIRST)).clients[0 := created.clients[0]] == created.clients;
    TwoSteps(e, ReadLock(0), OpenNew(0), created);
    s := created.(file := Some(File(named, 0, false, 0)));
    assert Apply(created, WriteSome(0, named)) == s;
    OneStep(created, WriteSome(0, named));
    hide Inv, Apply, Enabled;
    LeadsOn(INITIAL, [Arrive(0, 7)] + EnterSteps(s1, 0, FIRST), e, [ReadLock(0), OpenNew(0)], created);
    steps := [Arrive(0, 7)] + EnterSteps(s1, 0, FIRST) + [ReadLock(0), OpenNew(0)] + [WriteSome(0, named)];
    LeadsOn(INITIAL, [Arrive(0, 7)] + EnterSteps(s1, 0, FIRST) + [ReadLock(0), OpenNew(0)], created, [WriteSome(0, named)], s);
    InvAfter(INITIAL, steps, s);
  }

  /** It dies inside the guard, some time goes by, and a second installer comes. */
  lemma DiesAndWaits(named: Option<nat>, ms: nat, s: State) returns (t: State)
    requires Inv(s) && s.file == Some(File(named, 0, false, 0)) && s.now == 0
    requires s.clients == map[0 := Client(7, Opened(FIRST))] && s.guard.guard == G.Dir({FIRST}) && s.guard.dead == {}
    requires s.attempts.Keys <= {FIRST} && s.guard.candidates.Keys <= {FIRST}
    ensures Leads(s, [GuardStep(G.Crash(7)), Tick(ms)] + [Arrive(1, 8)], t)
    ensures Ready(t, 1, SECOND) && t.PcOf(1).Waiting? && t.clients.Keys == {0, 1} && t.clients[0].pid == 7 && t.clients[1].pid == 8
    ensures t.file == s.file && t.now == ms && t.guard.dead == {7}
  {
    hide Leads;
    var late := s.(guard := s.guard.(dead := {7}), now := ms);
    t := late.(clients := map[0 := Client(7, Opened(FIRST)), 1 := Client(8, Waiting)]);
    TwoSteps(s, GuardStep(G.Crash(7)), Tick(ms), late);
    OneStep(late, Arrive(1, 8));
    assert Apply(late, Arrive(1, 8)) == t;
    hide Apply, Enabled, Inv;
    LeadsOn(s, [GuardStep(G.Crash(7)), Tick(ms)], late, [Arrive(1, 8)], t);
    InvAfter(s, [GuardStep(G.Crash(7)), Tick(ms)] + [Arrive(1, 8)], t);
  }

  /**
   A complete run: an installer dies while it writes its payload, and ms later another one finds what is
   left.  That one takes the lock if the part written names the dead process, or names none and is a
   second old; a part that names some other process, as the first digits of a pid do, is waited for.
   */
  lemma TornPayload(named: Option<nat>, ms: nat) returns (steps: seq<Step>)
    ensures Legal(INITIAL, steps)
    ensures var t := After(INITIAL, steps);
            && t.now == ms && !t.Live(0) && t.Live(1)
            && if named == Some(7) || (named == None && ms >= 1000)
               then t.PcOf(1) == Body && t.file == Some(File(Some(8), 1, true, ms))
               else t.PcOf(1) == Waiting && t.file == Some(File(named, 0, false, 0))
  {
    hide Apply, Enabled, Inv, Legal, After, CallSteps, Ready;
    var torn, s := Tears(named);
    var then' := [GuardStep(G.Crash(7)), Tick(ms)] + [Arrive(1, 8)];
    var t := DiesAndWaits(named, ms, s);
    LeadsOn(INITIAL, torn, s, then', t);
    TakesIffLeftBehind(t, 1, SECOND);
    var last := CallSteps(t, 1, SECOND, LookSteps(t, 1) + if Takeable(t) then [OpenNew(1), WriteAll(1)] else []);
    LeadsOn(INITIAL, torn + then', t, last, After(t, last));
    steps := torn + then' + last;
  }
}
