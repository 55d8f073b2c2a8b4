/** What one undisturbed client does with the pid lock of last.json (src/claude/state.ts), from every reachable state. */
module LastProgress {
  import opened Base
  import opened LastMachine
  import G = Guard
  import P = GuardProgress

  ghost predicate Leads(s: State, steps: seq<Step>, t: State) {
    Legal(s, steps) && After(s, steps) == t
  }

  lemma {:induction false} LeadsOn(s: State, a: seq<Step>, t: State, b: seq<Step>, u: State)
    requires Leads(s, a, t) && Leads(t, b, u)
    ensures Leads(s, a + b, u)
    decreases |a|
  {
    if a == [] {
      assert a + b == b;
    } else {
      assert (a + b)[1..] == a[1..] + b;
      LeadsOn(Apply(s, a[0]), a[1..], t, b, u);
    }
  }

  lemma OneStep(s: State, step: Step)
    requires Enabled(s, step)
    ensures Leads(s, [step], Apply(s, step))
  {
    assert [step][1..] == [];
  }

  /** Steps at the guard that neither enter nor leave fn. */
  function GuardSteps(steps: seq<G.Step>): seq<Step> {
    if steps == [] then [] else [GuardStep(steps[0])] + GuardSteps(steps[1..])
  }

  lemma {:induction false} GuardRuns(s: State, steps: seq<G.Step>)
    requires G.Legal(s.guard, steps) && forall i :: 0 <= i < |steps| ==> !steps[i].MakeCandidate? && !steps[i].Return?
    ensures Leads(s, GuardSteps(steps), s.(guard := G.After(s.guard, steps)))
    decreases |steps|
  {
    hide G.Apply, G.Enabled;
    if steps != [] {
      var t := s.(guard := G.Apply(s.guard, steps[0]));
      GuardRuns(t, steps[1..]);
      OneStep(s, GuardStep(steps[0]));
      LeadsOn(s, [GuardStep(steps[0])], t, GuardSteps(steps[1..]), s.(guard := G.After(s.guard, steps)));
    }
  }

  // ---------- In and out of fn ----------

  /** A client between attempts, with a name for its next call that nobody has used, and nobody alive in the guard. */
  ghost predicate Ready(s: State, c: nat, o: G.Owner) {
    && Inv(s) && s.Live(c) && (s.PcOf(c).Waiting? || s.PcOf(c).Pausing?)
    && o.pid == s.clients[c].pid && o !in s.attempts && o !in s.guard.candidates && P.NobodyInside(s.guard)
  }

  function MadeGuard(g: G.State, o: G.Owner): G.State {
    g.At(o, G.Made).(candidates := g.candidates[o := {}])
  }

  function EnterSteps(s: State, c: nat, o: G.Owner): seq<Step> {
    [Begin(c, o)] + GuardSteps(P.EntrySteps(MadeGuard(s.guard, o), o))
  }

  /** The state once the client's fn starts. */
  ghost function Entered(s: State, c: nat, o: G.Owner): State
    requires c in s.clients && (s.PcOf(c).Waiting? || s.PcOf(c).Pausing?)
    requires G.Legal(MadeGuard(s.guard, o), P.EntrySteps(MadeGuard(s.guard, o), o))
  {
    s.At(c, if s.PcOf(c).Waiting? then Trying(o) else Cleaning(o, s.PcOf(c).ino))
    .(guard := G.After(MadeGuard(s.guard, o), P.EntrySteps(MadeGuard(s.guard, o), o)), attempts := s.attempts[o := c])
  }

  lemma Begins(s: State, c: nat, o: G.Owner) returns (begun: State)
    requires Ready(s, c, o)
    ensures begun == s.At(c, if s.PcOf(c).Waiting? then Trying(o) else Cleaning(o, s.PcOf(c).ino))
                     .(guard := MadeGuard(s.guard, o), attempts := s.attempts[o := c])
    ensures Leads(s, [Begin(c, o)], begun) && Inv(begun) && G.Inv(begun.guard) && begun.guard.PcOf(o) == G.Made
  {
    hide Leads;
    begun := Apply(s, Begin(c, o));
    StepKeepsInv(s, Begin(c, o));
    hide G.Inv, ClientOk;
    OneStep(s, Begin(c, o));
  }

  lemma EntersFn(s: State, c: nat, o: G.Owner)
    requires Ready(s, c, o)
    ensures G.Legal(MadeGuard(s.guard, o), P.EntrySteps(MadeGuard(s.guard, o), o))
    ensures var t := Entered(s, c, o);
            && Leads(s, EnterSteps(s, c, o), t) && Inv(t) && Inside(t, c)
            && t.guard.guard == G.Dir({o}) && t.guard.dead == s.guard.dead
            && t.guard.candidates.Keys <= s.guard.candidates.Keys + {o}
  {
    hide Apply, Enabled, Inv, G.Apply, G.Enabled, G.Inv, Legal, After, G.Legal, G.After, Leads, P.EntrySteps, GuardSteps;
    var begun := Begins(s, c, o);
    var steps := P.EntrySteps(begun.guard, o);
    P.Enters(begun.guard, o);
    EntryIsPlain(begun.guard, o);
    GuardRuns(begun, steps);
    LeadsOn(s, [Begin(c, o)], begun, GuardSteps(steps), Entered(s, c, o));
    InvAfter(begun, GuardSteps(steps), Entered(s, c, o));
  }

  lemma EntryIsPlain(g: G.State, o: G.Owner)
    ensures forall i :: 0 <= i < |P.EntrySteps(g, o)| ==> !P.EntrySteps(g, o)[i].MakeCandidate? && !P.EntrySteps(g, o)[i].Return?
  {
  }

  lemma InvAfter(s: State, steps: seq<Step>, t: State)
    requires Inv(s) && Leads(s, steps, t)
    ensures Inv(t)
  {
    RunKeepsInv(s, steps);
  }

  function LeaveSteps(c: nat, o: G.Owner): seq<Step> {
    [Return(c)] + GuardSteps([G.UnlinkOwn(o), G.RemoveVacated(o)]) + [EndAttempt(c)]
  }

  lemma Returns(s: State, c: nat)
    requires Inv(s) && s.Live(c) && Resulted(s.PcOf(c)) && s.guard.PcOf(s.PcOf(c).o) == G.Inside
    ensures var o := s.PcOf(c).o;
            && s.guard.Live(o) && G.Enabled(s.guard, G.Return(o))
            && var guard := G.Apply(s.guard, G.Return(o));
               && Leads(s, [Return(c)], s.(guard := guard)) && G.Inv(guard) && guard.PcOf(o) == G.Leaving
               && guard.dead == s.guard.dead && guard.candidates == s.guard.candidates
  {
    hide Leads;
    assert ClientOk(s, c);
    G.StepKeepsInv(s.guard, G.Return(s.PcOf(c).o));
    hide Inv, ClientOk;
    OneStep(s, Return(c));
  }

  lemma Ends(s: State, c: nat)
    requires s.Live(c) && Resulted(s.PcOf(c)) && s.guard.PcOf(s.PcOf(c).o).Done?
    ensures Leads(s, [EndAttempt(c)], s.At(c, AfterAttempt(s.PcOf(c))))
  {
    hide Leads, AfterAttempt;
    OneStep(s, EndAttempt(c));
  }

  /** A client whose fn has its result leaves the guard and goes on with that result. */
  lemma LeavesFn(s: State, c: nat) returns (guard: G.State)
    requires Inv(s) && s.Live(c) && Resulted(s.PcOf(c)) && s.guard.PcOf(s.PcOf(c).o) == G.Inside
    ensures Leads(s, LeaveSteps(c, s.PcOf(c).o), s.At(c, AfterAttempt(s.PcOf(c))).(guard := guard))
    ensures guard.guard == G.Absent && guard.dead == s.guard.dead && guard.candidates == s.guard.candidates
  {
    hide Inv, G.Inv, Leads, Apply, Enabled, G.Apply, G.Enabled, G.Legal, G.After, GuardSteps;
    var o, pc := s.PcOf(c).o, s.PcOf(c);
    Returns(s, c);
    var returned := s.(guard := G.Apply(s.guard, G.Return(o)));
    P.Leaves(returned.guard, o);
    var steps := [G.UnlinkOwn(o), G.RemoveVacated(o)];
    GuardRuns(returned, steps);
    guard := G.After(returned.guard, steps);
    var left := s.(guard := guard);
    Ends(left, c);
    LeadsOn(s, [Return(c)], returned, GuardSteps(steps), left);
    LeadsOn(s, [Return(c)] + GuardSteps(steps), left, [EndAttempt(c)], left.At(c, AfterAttempt(pc)));
  }

  /** Every other client, the clock and the processes are as they were. */
  predicate Untouched(s: State, t: State, c: nat, pc: Pc) {
    && c in s.clients && t.clients == s.clients[c := s.clients[c].(pc := pc)] && t.now == s.now && t.guard.dead == s.guard.dead
  }

  /** One call of withLockMutation by client c: into the guard, its steps of fn, and out again. */
  function CallSteps(s: State, c: nat, o: G.Owner, fn: seq<Step>): seq<Step> {
    EnterSteps(s, c, o) + fn + LeaveSteps(c, o)
  }

  /** A whole call, from what its fn does. */
  lemma WholeCall(s: State, c: nat, o: G.Owner, fn: seq<Step>, u: State)
    requires Ready(s, c, o) && G.Legal(MadeGuard(s.guard, o), P.EntrySteps(MadeGuard(s.guard, o), o))
    requires Leads(Entered(s, c, o), fn, u)
    requires u.Live(c) && Resulted(u.PcOf(c)) && u.PcOf(c).o == o && u.guard == Entered(s, c, o).guard
    ensures Legal(s, CallSteps(s, c, o, fn))
    ensures var t := After(s, CallSteps(s, c, o, fn));
            && t == u.At(c, AfterAttempt(u.PcOf(c))).(guard := t.guard) && Inv(t)
            && t.guard.guard == G.Absent && t.guard.dead == s.guard.dead
            && t.guard.candidates.Keys <= s.guard.candidates.Keys + {o}
  {
    EntersFn(s, c, o);
    var entered := Entered(s, c, o);
    assert Inv(s) && entered.guard.PcOf(o) == G.Inside;
    hide Ready, Inv, Entered, EnterSteps, LeaveSteps, G.Legal, G.After, Inside, Apply, Enabled;
    InvAfter(entered, fn, u);
    var guard := LeavesFn(u, c);
    var t := u.At(c, AfterAttempt(u.PcOf(c))).(guard := guard);
    LeadsOn(s, EnterSteps(s, c, o), entered, fn, u);
    LeadsOn(s, EnterSteps(s, c, o) + fn, u, LeaveSteps(c, o), t);
    InvAfter(s, CallSteps(s, c, o, fn), t);
  }

  // ---------- Taking and removing the lock ----------

  lemma TwoSteps(s: State, a: Step, b: Step, t: State)
    requires Enabled(s, a) && Enabled(Apply(s, a), b) && Apply(Apply(s, a), b) == t
    ensures Leads(s, [a, b], t)
  {
    hide Apply, Enabled, Leads;
    OneStep(s, a);
    OneStep(Apply(s, a), b);
    LeadsOn(s, [a], Apply(s, a), [b], t);
    assert [a] + [b] == [a, b];
  }

  /** A client inside fn, at its start. */
  ghost predicate Starts(s: State, c: nat, pc: Pc) {
    s.Live(c) && s.PcOf(c) == pc && Attempting(pc) && s.guard.PcOf(pc.o) == G.Inside
  }

  lemma StartsFn(s: State, c: nat, o: G.Owner)
    requires Ready(s, c, o)
    ensures G.Legal(MadeGuard(s.guard, o), P.EntrySteps(MadeGuard(s.guard, o), o))
    ensures var e := Entered(s, c, o);
            && c in s.clients && Starts(e, c, if s.PcOf(c).Waiting? then Trying(o) else Cleaning(o, s.PcOf(c).ino))
            && (e.path, e.files, e.creators, e.now) == (s.path, s.files, s.creators, s.now)
            && e.clients == s.clients[c := s.clients[c].(pc := e.PcOf(c))] && e.guard.dead == s.guard.dead
  {
    EntersFn(s, c, o);
  }

  /** The lock file is gone, or what it says protects nobody: no live process is named, or it has been empty too long. */
  ghost predicate ProtectsNobody(s: State) {
    s.path.Some? && s.path.value in s.files ==>
      var file := s.files[s.path.value];
      if file.text == [] then s.now - file.mtime > 5000
      else forall pid: nat :: ParsePid(file.text) == Some(pid) ==> pid in s.guard.dead
  }

  /** The steps that look at the lock. */
  function LookSteps(s: State, c: nat): seq<Step> {
    [ReadLock(c)] +
    if s.path.None? || s.path.value !in s.files then []
    else if s.files[s.path.value].text == [] then [StatEmpty(c)]
    else [JudgeText(c)]
  }

  lemma Looks(s: State, c: nat, o: G.Owner)
    requires Starts(s, c, Trying(o))
    ensures Leads(s, LookSteps(s, c), s.At(c, if ProtectsNobody(s) then Free(o) else Missed(o)))
  {
    hide Leads, ParsePid;
    var t := s.At(c, if ProtectsNobody(s) then Free(o) else Missed(o));
    if s.path.None? || s.path.value !in s.files {
      assert Apply(s, ReadLock(c)) == t;
      OneStep(s, ReadLock(c));
      assert [ReadLock(c)] + [] == [ReadLock(c)];
    } else {
      var text := s.files[s.path.value].text;
      var read := s.At(c, if text == [] then Empty(o) else Read(o, text));
      assert Apply(s, ReadLock(c)) == read;
      assert forall pc :: read.clients[c := read.clients[c].(pc := pc)] == s.clients[c := s.clients[c].(pc := pc)];
      if text == [] {
        TwoSteps(s, ReadLock(c), StatEmpty(c), t);
        assert [ReadLock(c)] + [StatEmpty(c)] == [ReadLock(c), StatEmpty(c)];
      } else {
        assert ParsePid(text).Some? ==> ParsePid(text) == Some(ParsePid(text).value);
        TwoSteps(s, ReadLock(c), JudgeText(c), t);
        assert [ReadLock(c)] + [JudgeText(c)] == [ReadLock(c), JudgeText(c)];
      }
    }
  }

  function WriteSteps(s: State, c: nat, ino: nat): seq<Step>
    requires c in s.clients
  {
    [UnlinkOld(c), OpenNew(c, ino)] + [WritePid(c, |Digits(s.clients[c].pid)|)]
  }

  lemma Writes(s: State, c: nat, o: G.Owner, ino: nat)
    requires s.Live(c) && s.PcOf(c) == Free(o) && ino !in s.files && ino !in s.creators
    ensures Leads(s, WriteSteps(s, c, ino),
                  s.At(c, Won(o, ino)).(path := Some(ino), files := s.files[ino := File(Digits(s.clients[c].pid), s.now)],
                                        creators := s.creators[ino := c]))
  {
    hide Leads, Digits;
    var text := Digits(s.clients[c].pid);
    var unlinked := s.At(c, Unlinked(o)).(path := None);
    var created := s.At(c, Opened(o, ino)).(path := Some(ino), files := s.files[ino := File([], s.now)], creators := s.creators[ino := c]);
    var won := s.At(c, Won(o, ino)).(path := Some(ino), files := s.files[ino := File(text, s.now)], creators := s.creators[ino := c]);
    assert Apply(s, UnlinkOld(c)) == unlinked;
    assert unlinked.clients[c := unlinked.clients[c].(pc := Opened(o, ino))] == created.clients;
    TwoSteps(s, UnlinkOld(c), OpenNew(c, ino), created);
    assert created.clients[c := created.clients[c].(pc := Won(o, ino))] == won.clients;
    assert created.files[ino := File(text, s.now)] == won.files && text[..|text|] == text;
    OneStep(created, WritePid(c, |text|));
    LeadsOn(s, [UnlinkOld(c), OpenNew(c, ino)], created, [WritePid(c, |text|)], won);
  }

  /** A client whose pid cannot be written removes its new file from the name again. */
  lemma FailedWriteIsUndone(s: State, c: nat, o: G.Owner, ino: nat)
    requires s.Live(c) && s.PcOf(c) == Free(o) && ino !in s.files && ino !in s.creators
    ensures Leads(s, [UnlinkOld(c), OpenNew(c, ino)] + [FnError(c), UnlinkUndo(c)],
                  s.At(c, Threw(o)).(path := None, files := s.files[ino := File([], s.now)], creators := s.creators[ino := c]))
  {
    hide Leads;
    var unlinked := s.At(c, Unlinked(o)).(path := None);
    var created := s.At(c, Opened(o, ino)).(path := Some(ino), files := s.files[ino := File([], s.now)], creators := s.creators[ino := c]);
    assert Apply(s, UnlinkOld(c)) == unlinked;
    assert unlinked.clients[c := created.clients[c]] == created.clients;
    TwoSteps(s, UnlinkOld(c), OpenNew(c, ino), created);
    UndoesItsFile(created, c, o, ino);
    var undone := created.At(c, Threw(o)).(path := None);
    assert undone.clients == s.clients[c := undone.clients[c]];
    LeadsOn(s, [UnlinkOld(c), OpenNew(c, ino)], created, [FnError(c), UnlinkUndo(c)], undone);
  }

  lemma UndoesItsFile(s: State, c: nat, o: G.Owner, ino: nat)
    requires s.Live(c) && s.PcOf(c) == Opened(o, ino)
    ensures Leads(s, [FnError(c), UnlinkUndo(c)], s.At(c, Threw(o)).(path := None))
  {
    hide Leads;
    var failed, u := s.At(c, Undo(o, ino)), s.At(c, Threw(o)).(path := None);
    assert Apply(s, FnError(c)) == failed;
    assert failed.clients[c := u.clients[c]] == u.clients;
    TwoSteps(s, FnError(c), UnlinkUndo(c), u);
  }

  lemma TakesTheLock(s: State, c: nat, o: G.Owner, ino: nat)
    requires Starts(s, c, Trying(o)) && ProtectsNobody(s) && ino !in s.files && ino !in s.creators
    ensures Leads(s, LookSteps(s, c) + WriteSteps(s, c, ino),
                  s.At(c, Won(o, ino)).(path := Some(ino), files := s.files[ino := File(Digits(s.clients[c].pid), s.now)],
                                        creators := s.creators[ino := c]))
  {
    hide Leads, Digits, LookSteps, WriteSteps, ProtectsNobody, Apply, Enabled;
    Looks(s, c, o);
    var judged := s.At(c, Free(o));
    Writes(judged, c, o, ino);
    SameSteps(judged, s, c, ino);
    var u := s.At(c, Won(o, ino)).(path := Some(ino), files := s.files[ino := File(Digits(s.clients[c].pid), s.now)],
                                   creators := s.creators[ino := c]);
    assert judged.clients[c := judged.clients[c].(pc := Won(o, ino))] == u.clients;
    LeadsOn(s, LookSteps(s, c), judged, WriteSteps(s, c, ino), u);
  }

  /**
   An undisturbed client gets the lock exactly when it protects nobody: then the name refers to a new
   file holding its own pid and its body runs; otherwise the file stays and the client waits.
   */
  lemma TakesIffUnprotected(s: State, c: nat, o: G.Owner, ino: nat)
    requires Ready(s, c, o) && s.PcOf(c).Waiting? && ino !in s.files && ino !in s.creators
    ensures var fn := LookSteps(s, c) + if ProtectsNobody(s) then WriteSteps(s, c, ino) else [];
            && Legal(s, CallSteps(s, c, o, fn))
            && var t := After(s, CallSteps(s, c, o, fn));
               && t.guard.guard == G.Absent
               && (if ProtectsNobody(s) then
                     && Untouched(s, t, c, Body(ino)) && t.path == Some(ino)
                     && t.files == s.files[ino := File(Digits(s.clients[c].pid), s.now)]
                   else Untouched(s, t, c, Waiting) && (t.path, t.files) == (s.path, s.files))
  {
    hide Leads, G.Legal, G.After, P.EntrySteps, Legal, After, Inv, Digits, WriteSteps, ParsePid, Apply, Enabled, Entered, EnterSteps, Ready;
    StartsFn(s, c, o);
    var e := Entered(s, c, o);
    assert (ProtectsNobody(e) <==> ProtectsNobody(s)) && LookSteps(e, c) == LookSteps(s, c);
    hide ProtectsNobody, LookSteps;
    if ProtectsNobody(s) {
      TakesTheLock(e, c, o, ino);
      SameSteps(e, s, c, ino);
      WholeCall(s, c, o, LookSteps(s, c) + WriteSteps(s, c, ino),
                e.At(c, Won(o, ino)).(path := Some(ino), files := s.files[ino := File(Digits(s.clients[c].pid), s.now)],
                                      creators := s.creators[ino := c]));
    } else {
      Looks(e, c, o);
      assert LookSteps(s, c) + [] == LookSteps(s, c);
      WholeCall(s, c, o, LookSteps(s, c), e.At(c, Missed(o)));
    }
  }

  lemma SameSteps(a: State, b: State, c: nat, ino: nat)
    requires c in a.clients && c in b.clients && a.clients[c].pid == b.clients[c].pid
    ensures WriteSteps(a, c, ino) == WriteSteps(b, c, ino)
  {
  }

  function RemoveSteps(own: bool, c: nat): seq<Step> { [Compare(c)] + if own then [UnlinkOwn(c)] else [] }

  lemma Removes(s: State, c: nat, o: G.Owner, ino: nat)
    requires Starts(s, c, Cleaning(o, ino))
    ensures var own := s.path == Some(ino);
            Leads(s, RemoveSteps(own, c), s.At(c, Cleaned(o, ino)).(path := if own then None else s.path))
  {
    hide Leads;
    OneStep(s, Compare(c));
    if s.path == Some(ino) {
      var same, u := s.At(c, Same(o, ino)), s.At(c, Cleaned(o, ino)).(path := None);
      assert Apply(s, Compare(c)) == same;
      assert same.clients[c := same.clients[c].(pc := Cleaned(o, ino))] == u.clients;
      OneStep(same, UnlinkOwn(c));
      LeadsOn(s, [Compare(c)], same, [UnlinkOwn(c)], u);
    } else {
      assert [Compare(c)] + [] == [Compare(c)];
    }
  }

  /** An undisturbed removal unlinks the name exactly when it still refers to the client's own file. */
  lemma RemovesItsOwn(s: State, c: nat, o: G.Owner)
    requires Ready(s, c, o) && s.PcOf(c).Pausing?
    ensures var own := s.path == Some(s.PcOf(c).ino);
            && Legal(s, CallSteps(s, c, o, RemoveSteps(own, c)))
            && var t := After(s, CallSteps(s, c, o, RemoveSteps(own, c)));
               && t.guard.guard == G.Absent && Untouched(s, t, c, Ended) && t.files == s.files
               && t.path == if own then None else s.path
  {
    hide Leads, G.Legal, G.After, P.EntrySteps, Legal, After, Inv, Apply, Enabled, RemoveSteps, Entered, EnterSteps, Ready;
    StartsFn(s, c, o);
    var e, ino, own := Entered(s, c, o), s.PcOf(c).ino, s.path == Some(s.PcOf(c).ino);
    Removes(e, c, o, ino);
    WholeCall(s, c, o, RemoveSteps(own, c), e.At(c, Cleaned(o, ino)).(path := if own then None else s.path));
  }

  // ---------- A run in which a client dies before it writes its pid ----------

  const FIRST := G.Owner(7, 0)
  const SECOND := G.Owner(8, 0)

  /** A first look at no file, and its creation. */
  lemma Creates(s: State, c: nat, o: G.Owner, ino: nat)
    requires Starts(s, c, Trying(o)) && s.path == None && ino !in s.files && ino !in s.creators
    ensures Leads(s, [ReadLock(c), UnlinkOld(c)] + [OpenNew(c, ino)],
                  s.At(c, Opened(o, ino)).(path := Some(ino), files := s.files[ino := File([], s.now)],
                                           creators := s.creators[ino := c]))
  {
    hide Leads;
    var free, unlinked := s.At(c, Free(o)), s.At(c, Unlinked(o));
    var created := s.At(c, Opened(o, ino)).(path := Some(ino), files := s.files[ino := File([], s.now)], creators := s.creators[ino := c]);
    assert Apply(s, ReadLock(c)) == free;
    assert free.clients[c := unlinked.clients[c]] == unlinked.clients;
    TwoSteps(s, ReadLock(c), UnlinkOld(c), unlinked);
    assert unlinked.clients[c := created.clients[c]] == created.clients;
    assert Apply(unlinked, OpenNew(c, ino)) == created;
    OneStep(unlinked, OpenNew(c, ino));
    hide Apply, Enabled;
    LeadsOn(s, [ReadLock(c), UnlinkOld(c)], unlinked, [OpenNew(c, ino)], created);
  }

  lemma Arrives() returns (s: State)
    ensures Leads(Initial(), [Arrive(0, 7)], s) && s == Initial().(clients := map[0 := Client(7, Waiting)])
    ensures Ready(s, 0, FIRST)
  {
    hide Leads;
    InitialInv();
    s := Initial().(clients := map[0 := Client(7, Waiting)]);
    assert Apply(Initial(), Arrive(0, 7)) == s;
    OneStep(Initial(), Arrive(0, 7));
    InvAfter(Initial(), [Arrive(0, 7)], s);
  }

  /** A first client creates the lock file. */
  lemma CreatesOnly() returns (steps: seq<Step>, s: State)
    ensures Leads(Initial(), steps, s) && Inv(s) && s.path == Some(0) && s.files == map[0 := File([], 0)] && s.now == 0
    ensures s.clients == map[0 := Client(7, Opened(FIRST, 0))] && s.guard.guard == G.Dir({FIRST}) && s.guard.dead == {}
    ensures s.attempts.Keys <= {FIRST} && s.guard.candidates.Keys <= {FIRST} && s.creators.Keys == {0}
  {
    hide Leads, G.Legal, G.After, P.EntrySteps, Legal, After, EnterSteps, Digits, Inv, Apply, Enabled, Ready;
    var s1 := Arrives();
    EntersFn(s1, 0, FIRST);
    var e := Entered(s1, 0, FIRST);
    LeadsOn(Initial(), [Arrive(0, 7)], s1, EnterSteps(s1, 0, FIRST), e);
    StartsFn(s1, 0, FIRST);
    Creates(e, 0, FIRST, 0);
    var create := [ReadLock(0), UnlinkOld(0)] + [OpenNew(0, 0)];
    s := e.At(0, Opened(FIRST, 0)).(path := Some(0), files := e.files[0 := File([], e.now)], creators := e.creators[0 := 0]);
    LeadsOn(Initial(), [Arrive(0, 7)] + EnterSteps(s1, 0, FIRST), e, create, s);
    steps := [Arrive(0, 7)] + EnterSteps(s1, 0, FIRST) + create;
    assert e.clients == map[0 := Client(7, Trying(FIRST))];
    InvAfter(e, create, s);
  }

  /** It dies inside the guard, some time goes by, and a second client comes. */
  lemma DiesAndWaits(ms: nat, s: State) returns (t: State)
    requires Inv(s) && s.path == Some(0) && s.files == map[0 := File([], 0)] && s.now == 0 && s.creators.Keys == {0}
    requires s.clients == map[0 := Client(7, Opened(FIRST, 0))] && s.guard.guard == G.Dir({FIRST}) && s.guard.dead == {}
    requires s.attempts.Keys <= {FIRST} && s.guard.candidates.Keys <= {FIRST}
    ensures Leads(s, [GuardStep(G.Crash(7)), Tick(ms)] + [Arrive(1, 8)], t)
    ensures Ready(t, 1, SECOND) && t.PcOf(1).Waiting? && t.clients.Keys == {0, 1} && t.clients[0].pid == 7 && t.clients[1].pid == 8
    ensures (t.path, t.files, t.creators, t.now) == (s.path, s.files, s.creators, ms) && t.guard.dead == {7}
  {
    hide Leads, Digits, ParsePid;
    var late := s.(guard := s.guard.(dead := {7}), now := ms);
    t := late.(clients := map[0 := Client(7, Opened(FIRST, 0)), 1 := Client(8, Waiting)]);
    TwoSteps(s, GuardStep(G.Crash(7)), Tick(ms), late);
    OneStep(late, Arrive(1, 8));
    assert Apply(late, Arrive(1, 8)) == t;
    hide Apply, Enabled, Inv;
    LeadsOn(s, [GuardStep(G.Crash(7)), Tick(ms)], late, [Arrive(1, 8)], t);
    InvAfter(s, [GuardStep(G.Crash(7)), Tick(ms)] + [Arrive(1, 8)], t);
  }

  lemma EightIsWritten()
    ensures Digits(8) == "8"
  {
  }

  /**
   A complete run: a client dies between creating the lock file and writing its pid, and ms later
   another one comes: it takes the lock if and only if the file has been empty for more than 5 s.
   */
  lemma EmptyLockIsTaken(ms: nat) returns (steps: seq<Step>)
    ensures Legal(Initial(), steps)
    ensures var t := After(Initial(), steps);
            && t.now == ms && !t.Live(0) && t.Live(1)
            && if ms > 5000 then t.PcOf(1) == Body(1) && t.path == Some(1) && t.files == map[0 := File([], 0), 1 := File("8", ms)]
               else t.PcOf(1) == Waiting && t.path == Some(0) && t.files == map[0 := File([], 0)]
  {
    hide Apply, Enabled, Inv, Legal, After, CallSteps, Ready, Digits, ParsePid, WriteSteps;
    EightIsWritten();
    var created, s := CreatesOnly();
    var then' := [GuardStep(G.Crash(7)), Tick(ms)] + [Arrive(1, 8)];
    var t := DiesAndWaits(ms, s);
    LeadsOn(Initial(), created, s, then', t);
    TakesIffUnprotected(t, 1, SECOND, 1);
    var last := CallSteps(t, 1, SECOND, LookSteps(t, 1) + if ProtectsNobody(t) then WriteSteps(t, 1, 1) else []);
    LeadsOn(Initial(), created + then', t, last, After(t, last));
    steps := created + then' + last;
  }
}
