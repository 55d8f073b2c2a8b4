/**
 A concrete run of LastMachine, from the first step to the last: a client with the pid 7 takes the
 guard and the lock, leaves the guard and runs its body; a second client with the pid 8 takes the
 guard and reads the first one's pid from the lock file; then the first one's body ends.  The first
 client marks its lock as finished only after that, so what the second one judges is a text from
 before the marker: it finds the lock held, although its holder has finished.
 */
module EarlyRead {
  import opened Base
  import opened LastMachine
  import G = Guard
  import LastLock
  import opened LastProgress

  lemma TwoGuardSteps(s: State, a: G.Step, b: G.Step)
    requires !a.MakeCandidate? && !a.Return? && !b.MakeCandidate? && !b.Return?
    requires G.Enabled(s.guard, a) && G.Enabled(G.Apply(s.guard, a), b)
    ensures Leads(s, [GuardStep(a), GuardStep(b)], s.(guard := G.Apply(G.Apply(s.guard, a), b)))
  {
    hide G.Apply, G.Enabled, Leads;
    TwoSteps(s, GuardStep(a), GuardStep(b), s.(guard := G.Apply(G.Apply(s.guard, a), b)));
  }

  /** The guard before a call's owner fills its candidate, and while it holds the guard. */
  function Prepared(g: G.State, o: G.Owner): G.State {
    g.(candidates := g.candidates[o := {}], pcs := g.pcs[o := G.Made])
  }

  function Held(g: G.State, o: G.Owner): G.State {
    g.(guard := G.Dir({o}), pcs := g.pcs[o := G.Inside])
  }

  lemma GuardIsEntered(g: G.State, o: G.Owner)
    requires G.Claimable(g.guard) && g.dead == {} && o !in g.pcs && o !in g.candidates
    ensures G.Enabled(Prepared(g, o), G.FillCandidate(o))
    ensures var filled := G.Apply(Prepared(g, o), G.FillCandidate(o));
            G.Enabled(filled, G.Claim(o)) && G.Apply(filled, G.Claim(o)) == Held(g, o)
  {
    var filled := G.Apply(Prepared(g, o), G.FillCandidate(o));
    assert filled.candidates[o] == {o};
    assert filled.candidates - {o} == g.candidates;
    assert filled.pcs[o := G.Inside] == g.pcs[o := G.Inside];
  }

  lemma GuardIsLeft(g: G.State, o: G.Owner)
    requires g.guard == G.Absent && g.dead == {} && o !in g.pcs
    ensures var leaving := G.Apply(Held(g, o), G.Return(o));
            var vacated := G.Apply(leaving, G.UnlinkOwn(o));
            && G.Enabled(leaving, G.UnlinkOwn(o)) && G.Enabled(vacated, G.RemoveVacated(o))
            && G.Apply(vacated, G.RemoveVacated(o)) == g.(pcs := g.pcs[o := G.Done(true)])
  {
    var leaving := G.Apply(Held(g, o), G.Return(o));
    assert leaving.guard.entries - {o} == {};
    assert g.pcs[o := G.Inside][o := G.Leaving][o := G.Vacated][o := G.Done(true)] == g.pcs[o := G.Done(true)];
  }

  /** A client that has just entered the guard. */
  function Entered(s: State, c: nat, o: G.Owner): State {
    s.(clients := s.clients[c := Client(o.pid, Trying(o))], guard := Held(s.guard, o), attempts := s.attempts[o := c])
  }

  function EnterSteps(c: nat, o: G.Owner): seq<Step> {
    [Arrive(c, o.pid), Begin(c, o)] + [GuardStep(G.FillCandidate(o)), GuardStep(G.Claim(o))]
  }

  /** An undisturbed client enters a free guard. */
  lemma EntersTheGuard(s: State, c: nat, o: G.Owner)
    requires c !in s.clients && o.pid > 0 && s.guard.dead == {} && G.Claimable(s.guard.guard)
    requires o !in s.attempts && o !in s.guard.pcs && o !in s.guard.candidates
    ensures Leads(s, EnterSteps(c, o), Entered(s, c, o))
  {
    hide Leads;
    var begun := s.(clients := s.clients[c := Client(o.pid, Trying(o))], guard := Prepared(s.guard, o),
                    attempts := s.attempts[o := c]);
    var arrived := Apply(s, Arrive(c, o.pid));
    assert arrived.clients[c := Client(o.pid, Trying(o))] == begun.clients;
    assert Apply(arrived, Begin(c, o)) == begun;
    TwoSteps(s, Arrive(c, o.pid), Begin(c, o), begun);
    hide Apply, Enabled;
    GuardIsEntered(s.guard, o);
    TwoGuardSteps(begun, G.FillCandidate(o), G.Claim(o));
    LeadsOn(s, [Arrive(c, o.pid), Begin(c, o)], begun, [GuardStep(G.FillCandidate(o)), GuardStep(G.Claim(o))], Entered(s, c, o));
  }

  /** The lock's only file, written whole by client 0 with the pid 7. */
  function Locked(s: State, pc: Pc, text: string): State {
    s.(clients := map[0 := Client(7, pc)], path := Some(0), files := map[0 := File(text, 0)], creators := map[0 := 0])
  }

  const FIRST := G.Owner(7, 0)
  const SECOND := G.Owner(8, 0)

  function TakeSteps(): seq<Step> { [ReadLock(0), UnlinkOld(0)] + [OpenNew(0, 0), WritePid(0, |Digits(7)|)] }

  lemma FirstWritesItsPid(s: State)
    requires s.clients == map[0 := Client(7, Unlinked(FIRST))] && s.guard.dead == {} && s.path == None
    requires s.files == map[] && s.creators == map[] && s.now == 0
    ensures Leads(s, [OpenNew(0, 0), WritePid(0, |Digits(7)|)], Locked(s, Won(FIRST, 0), Digits(7)))
  {
    hide Leads;
    assert Apply(s, OpenNew(0, 0)) == Locked(s, Opened(FIRST, 0), []);
    hide Digits;
    assert Digits(7)[..|Digits(7)|] == Digits(7);
    TwoSteps(s, OpenNew(0, 0), WritePid(0, |Digits(7)|), Locked(s, Won(FIRST, 0), Digits(7)));
  }

  lemma FirstTakesTheLock()
    ensures var s := Entered(Initial(), 0, FIRST); Leads(s, TakeSteps(), Locked(s, Won(FIRST, 0), Digits(7)))
  {
    hide Leads;
    var s := Entered(Initial(), 0, FIRST);
    var unlinked := s.(clients := map[0 := Client(7, Unlinked(FIRST))]);
    var won := Locked(s, Won(FIRST, 0), Digits(7));
    assert Apply(s, ReadLock(0)) == s.(clients := map[0 := Client(7, Free(FIRST))]);
    assert Apply(Apply(s, ReadLock(0)), UnlinkOld(0)) == unlinked;
    TwoSteps(s, ReadLock(0), UnlinkOld(0), unlinked);
    FirstWritesItsPid(unlinked);
    LeadsOn(s, [ReadLock(0), UnlinkOld(0)], unlinked, [OpenNew(0, 0), WritePid(0, |Digits(7)|)], won);
  }

  /** The guard after client 0 has left it. */
  const LEFT := G.INITIAL.(pcs := map[FIRST := G.Done(true)])

  /** Client 0 in its body, and nobody in the guard. */
  function Running(): State {
    Locked(Entered(Initial(), 0, FIRST), Body(0), Digits(7)).(guard := LEFT)
  }

  function LeaveSteps(): seq<Step> {
    [Return(0)] + [GuardStep(G.UnlinkOwn(FIRST)), GuardStep(G.RemoveVacated(FIRST))] + [EndAttempt(0)]
  }

  lemma BodyIsReached(s: State)
    requires s.clients == map[0 := Client(7, Won(FIRST, 0))] && s.guard == Held(G.INITIAL, FIRST)
    ensures Leads(s, LeaveSteps(), s.(clients := map[0 := Client(7, Body(0))], guard := LEFT))
  {
    hide Leads, Held, G.Apply, G.Enabled;
    HeldIsInside();
    var returned := s.(guard := G.Apply(s.guard, G.Return(FIRST)));
    var left := s.(guard := LEFT);
    var running := left.(clients := map[0 := Client(7, Body(0))]);
    OneStep(s, Return(0));
    GuardIsLeft(G.INITIAL, FIRST);
    assert G.INITIAL.pcs[FIRST := G.Done(true)] == map[FIRST := G.Done(true)];
    TwoGuardSteps(returned, G.UnlinkOwn(FIRST), G.RemoveVacated(FIRST));
    AttemptEnds(left);
    LeadsOn(s, [Return(0)], returned, [GuardStep(G.UnlinkOwn(FIRST)), GuardStep(G.RemoveVacated(FIRST))], left);
    LeadsOn(s, [Return(0)] + [GuardStep(G.UnlinkOwn(FIRST)), GuardStep(G.RemoveVacated(FIRST))], left, [EndAttempt(0)], running);
  }

  lemma AttemptEnds(s: State)
    requires s.clients == map[0 := Client(7, Won(FIRST, 0))] && s.guard == LEFT
    ensures Leads(s, [EndAttempt(0)], s.(clients := map[0 := Client(7, Body(0))]))
  {
    hide Leads;
    assert Apply(s, EndAttempt(0)) == s.(clients := map[0 := Client(7, Body(0))]);
    OneStep(s, EndAttempt(0));
  }

  lemma HeldIsInside()
    ensures var g := Held(G.INITIAL, FIRST); g.PcOf(FIRST) == G.Inside && g.dead == {} && G.Enabled(g, G.Return(FIRST))
  {
  }

  lemma SecondReads(s: State, o: G.Owner)
    requires s.clients == map[0 := Client(7, Body(0)), 1 := Client(8, Trying(o))]
    requires s.guard.PcOf(o) == G.Inside && s.guard.dead == {}
    requires s.path == Some(0) && 0 in s.files && s.files[0].text != []
    ensures Leads(s, [ReadLock(1)], s.(clients := map[0 := Client(7, Body(0)), 1 := Client(8, Read(o, s.files[0].text))]))
  {
    hide Leads;
    assert Apply(s, ReadLock(1)) == s.(clients := map[0 := Client(7, Body(0)), 1 := Client(8, Read(o, s.files[0].text))]);
    OneStep(s, ReadLock(1));
  }

  lemma BodyEnds(s: State, pc: Pc)
    requires s.clients == map[0 := Client(7, Body(0)), 1 := Client(8, pc)] && pc.Read? && s.guard.dead == {} && 0 in s.files
    ensures var t := s.(clients := map[0 := Client(7, Marking(0)), 1 := Client(8, pc)]);
            Leads(s, [EndBody(0)], t) && Enabled(t, Mark(0)) && Enabled(t, JudgeText(1))
  {
    hide Leads;
    assert Apply(s, EndBody(0)) == s.(clients := map[0 := Client(7, Marking(0)), 1 := Client(8, pc)]);
    OneStep(s, EndBody(0));
  }

  /** One client's body runs while a second, holding the guard, reads its pid; then the body ends. */
  function EarlyReadRun(): seq<Step> {
    EnterSteps(0, FIRST) + TakeSteps() + LeaveSteps() + EnterSteps(1, SECOND) + [ReadLock(1)] + [EndBody(0)]
  }

  function ReadEarly(): State {
    var s := Entered(Running(), 1, SECOND);
    s.(clients := map[0 := Client(7, Marking(0)), 1 := Client(8, Read(SECOND, Digits(7)))])
  }

  lemma EarlyReadRuns()
    ensures Leads(Initial(), EarlyReadRun(), ReadEarly()) && Enabled(ReadEarly(), Mark(0)) && Enabled(ReadEarly(), JudgeText(1))
  {
    var s0, s1 := Initial(), Entered(Initial(), 0, FIRST);
    var s2, s3 := Locked(s1, Won(FIRST, 0), Digits(7)), Entered(Running(), 1, SECOND);
    hide Apply, Enabled, Leads, EnterSteps, TakeSteps, LeaveSteps, Digits;
    EntersTheGuard(s0, 0, FIRST);
    FirstTakesTheLock();
    BodyIsReached(s2);
    EntersTheGuard(Running(), 1, SECOND);
    assert s3.clients == map[0 := Client(7, Body(0)), 1 := Client(8, Trying(SECOND))];
    var s4 := s3.(clients := map[0 := Client(7, Body(0)), 1 := Client(8, Read(SECOND, Digits(7)))]);
    SecondReads(s3, SECOND);
    BodyEnds(s4, Read(SECOND, Digits(7)));
    LeadsOn(s0, EnterSteps(0, FIRST), s1, TakeSteps(), s2);
    LeadsOn(s0, EnterSteps(0, FIRST) + TakeSteps(), s2, LeaveSteps(), Running());
    LeadsOn(s0, EnterSteps(0, FIRST) + TakeSteps() + LeaveSteps(), Running(), EnterSteps(1, SECOND), s3);
    LeadsOn(s0, EnterSteps(0, FIRST) + TakeSteps() + LeaveSteps() + EnterSteps(1, SECOND), s3, [ReadLock(1)], s4);
    LeadsOn(s0, EnterSteps(0, FIRST) + TakeSteps() + LeaveSteps() + EnterSteps(1, SECOND) + [ReadLock(1)], s4,
            [EndBody(0)], ReadEarly());
  }

  /** After such a run the first client marks its lock, and the second still judges it held. */
  lemma EarlierReadHappens()
    ensures Leads(Initial(), EarlyReadRun(), ReadEarly()) && Enabled(ReadEarly(), Mark(0))
    ensures var t := Apply(ReadEarly(), Mark(0)); Enabled(t, JudgeText(1)) && Apply(t, JudgeText(1)).PcOf(1).Missed?
  {
    hide Apply, Enabled, Legal, After, EarlyReadRun, Digits;
    EarlyReadRuns();
    LastLock.EarlierReadMayBeHeld(EarlyReadRun(), 0, 1);
  }
}
