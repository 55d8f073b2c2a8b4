/** What one undisturbed client does with the lease lock of src/claude/atomic.ts, from every reachable state. */
module LeaseProgress {
  import opened Base
  import opened LeaseMachine
  import G = Guard
  import P = GuardProgress

  ghost predicate Leads(cfg: Config, s: State, steps: seq<Step>, t: State) {
    Legal(cfg, s, steps) && After(cfg, s, steps) == t
  }

  lemma {:induction false} LeadsOn(cfg: Config, s: State, a: seq<Step>, t: State, b: seq<Step>, u: State)
    requires Leads(cfg, s, a, t) && Leads(cfg, t, b, u)
    ensures Leads(cfg, s, a + b, u)
    decreases |a|
  {
    if a == [] {
      assert a + b == b;
    } else {
      assert (a + b)[1..] == a[1..] + b;
      LeadsOn(cfg, Apply(cfg, s, a[0]), a[1..], t, b, u);
    }
  }

  lemma OneStep(cfg: Config, s: State, step: Step)
    requires Enabled(s, step)
    ensures Leads(cfg, s, [step], Apply(cfg, s, step))
  {
    assert [step][1..] == [];
  }

  /** Steps at the guard that neither enter nor leave fn. */
  function GuardSteps(steps: seq<G.Step>): seq<Step> {
    if steps == [] then [] else [GuardStep(steps[0])] + GuardSteps(steps[1..])
  }

  lemma {:induction false} GuardRuns(cfg: Config, s: State, steps: seq<G.Step>)
    requires G.Legal(s.guard, steps) && forall i :: 0 <= i < |steps| ==> !steps[i].MakeCandidate? && !steps[i].Return?
    ensures Leads(cfg, s, GuardSteps(steps), s.(guard := G.After(s.guard, steps)))
    decreases |steps|
  {
    hide G.Apply, G.Enabled;
    if steps != [] {
      var t := s.(guard := G.Apply(s.guard, steps[0]));
      GuardRuns(cfg, t, steps[1..]);
      OneStep(cfg, s, GuardStep(steps[0]));
      LeadsOn(cfg, s, [GuardStep(steps[0])], t, GuardSteps(steps[1..]), s.(guard := G.After(s.guard, steps)));
    }
  }

  // ---------- In and out of fn ----------

  /** A client between attempts, with a name for its next call that nobody has used, and nobody alive in the guard. */
  ghost predicate Ready(cfg: Config, s: State, c: nat, o: G.Owner) {
    && Inv(cfg, s) && s.Live(c) && (s.PcOf(c).Waiting? || s.PcOf(c).Pausing?)
    && o.pid == s.clients[c].pid && o !in s.attempts && o !in s.guard.candidates && P.NobodyInside(s.guard)
  }

  function MadeGuard(g: G.State, o: G.Owner): G.State {
    g.At(o, G.Made).(candidates := g.candidates[o := {}])
  }

  function EnterSteps(s: State, c: nat, o: G.Owner): seq<Step> {
    [Begin(c, o)] + GuardSteps(P.EntrySteps(MadeGuard(s.guard, o), o))
  }

  /** The state once the client's fn starts. */
  ghost function Entered(s: State, c: nat, o: G.Owner): State
    requires c in s.clients && G.Legal(MadeGuard(s.guard, o), P.EntrySteps(MadeGuard(s.guard, o), o))
  {
    s.At(c, if s.PcOf(c).Waiting? then Trying(o) else Releasing(o))
    .(guard := G.After(MadeGuard(s.guard, o), P.EntrySteps(MadeGuard(s.guard, o), o)), attempts := s.attempts[o := c])
  }

  lemma Begins(cfg: Config, s: State, c: nat, o: G.Owner) returns (begun: State)
    requires Ready(cfg, s, c, o)
    ensures begun == s.At(c, if s.PcOf(c).Waiting? then Trying(o) else Releasing(o))
                     .(guard := MadeGuard(s.guard, o), attempts := s.attempts[o := c])
    ensures Leads(cfg, s, [Begin(c, o)], begun) && Inv(cfg, begun) && G.Inv(begun.guard) && begun.guard.PcOf(o) == G.Made
  {
    hide Leads;
    begun := Apply(cfg, s, Begin(c, o));
    StepKeepsInv(cfg, s, Begin(c, o));
    hide G.Inv, ClientOk;
    OneStep(cfg, s, Begin(c, o));
  }

  lemma EntersFn(cfg: Config, s: State, c: nat, o: G.Owner)
    requires Ready(cfg, s, c, o)
    ensures G.Legal(MadeGuard(s.guard, o), P.EntrySteps(MadeGuard(s.guard, o), o))
    ensures var t := Entered(s, c, o);
            && Leads(cfg, s, EnterSteps(s, c, o), t) && Inv(cfg, t) && Inside(t, c)
            && t.guard.guard == G.Dir({o}) && t.guard.dead == s.guard.dead
            && t.guard.candidates.Keys <= s.guard.candidates.Keys + {o}
  {
    hide Apply, Enabled, Inv, G.Apply, G.Enabled, G.Inv, Legal, After, G.Legal, G.After, Leads, P.EntrySteps, GuardSteps;
    var begun := Begins(cfg, s, c, o);
    var steps := P.EntrySteps(begun.guard, o);
    P.Enters(begun.guard, o);
    EntryIsPlain(begun.guard, o);
    GuardRuns(cfg, begun, steps);
    LeadsOn(cfg, s, [Begin(c, o)], begun, GuardSteps(steps), Entered(s, c, o));
    InvAfter(cfg, begun, GuardSteps(steps), Entered(s, c, o));
  }

  lemma EntryIsPlain(g: G.State, o: G.Owner)
    ensures forall i :: 0 <= i < |P.EntrySteps(g, o)| ==> !P.EntrySteps(g, o)[i].MakeCandidate? && !P.EntrySteps(g, o)[i].Return?
  {
  }

  lemma InvAfter(cfg: Config, s: State, steps: seq<Step>, t: State)
    requires Inv(cfg, s) && Leads(cfg, s, steps, t)
    ensures Inv(cfg, t)
  {
    RunKeepsInv(cfg, s, steps);
  }

  function LeaveSteps(c: nat, o: G.Owner): seq<Step> {
    [Return(c)] + GuardSteps([G.UnlinkOwn(o), G.RemoveVacated(o)]) + [EndAttempt(c)]
  }

  lemma Returns(cfg: Config, s: State, c: nat)
    requires Inv(cfg, s) && s.Live(c) && Resulted(s.PcOf(c)) && s.guard.PcOf(s.PcOf(c).o) == G.Inside
    ensures var o := s.PcOf(c).o;
            && s.guard.Live(o) && G.Enabled(s.guard, G.Return(o))
            && var guard := G.Apply(s.guard, G.Return(o));
               && Leads(cfg, s, [Return(c)], s.(guard := guard)) && G.Inv(guard) && guard.PcOf(o) == G.Leaving
               && guard.dead == s.guard.dead && guard.candidates == s.guard.candidates
  {
    hide Leads;
    assert ClientOk(cfg, s, c);
    G.StepKeepsInv(s.guard, G.Return(s.PcOf(c).o));
    hide Inv, ClientOk;
    OneStep(cfg, s, Return(c));
  }

  lemma Ends(cfg: Config, s: State, c: nat)
    requires s.Live(c) && Resulted(s.PcOf(c)) && s.guard.PcOf(s.PcOf(c).o).Done?
    ensures Leads(cfg, s, [EndAttempt(c)], s.At(c, AfterAttempt(s.PcOf(c))))
  {
    hide Leads, AfterAttempt;
    OneStep(cfg, s, EndAttempt(c));
  }

  /** A client whose fn has its result leaves the guard and goes on with that result. */
  lemma LeavesFn(cfg: Config, s: State, c: nat) returns (guard: G.State)
    requires Inv(cfg, s) && s.Live(c) && Resulted(s.PcOf(c)) && s.guard.PcOf(s.PcOf(c).o) == G.Inside
    ensures Leads(cfg, s, LeaveSteps(c, s.PcOf(c).o), s.At(c, AfterAttempt(s.PcOf(c))).(guard := guard))
    ensures guard.guard == G.Absent && guard.dead == s.guard.dead && guard.candidates == s.guard.candidates
  {
    hide Inv, G.Inv, Leads, Apply, Enabled, G.Apply, G.Enabled, G.Legal, G.After, GuardSteps;
    var o, pc := s.PcOf(c).o, s.PcOf(c);
    Returns(cfg, s, c);
    var returned := s.(guard := G.Apply(s.guard, G.Return(o)));
    P.Leaves(returned.guard, o);
    var steps := [G.UnlinkOwn(o), G.RemoveVacated(o)];
    GuardRuns(cfg, returned, steps);
    guard := G.After(returned.guard, steps);
    var left := s.(guard := guard);
    Ends(cfg, left, c);
    LeadsOn(cfg, s, [Return(c)], returned, GuardSteps(steps), left);
    LeadsOn(cfg, s, [Return(c)] + GuardSteps(steps), left, [EndAttempt(c)], left.At(c, AfterAttempt(pc)));
  }

  /** The rest of the state is as it was, but for one client, the lock, the guard and the attempts. */
  predicate Untouched(s: State, t: State, c: nat, pc: Pc) {
    && c in s.clients && t.clients == s.clients[c := s.clients[c].(pc := pc)] && t.now == s.now && t.record == s.record
    && t.guard.dead == s.guard.dead
  }

  /** No other name for a call is used up. */
  ghost predicate OnlyUses(s: State, t: State, o: G.Owner) {
    t.attempts.Keys <= s.attempts.Keys + {o} && t.guard.candidates.Keys <= s.guard.candidates.Keys + {o}
  }

  /** One call of withLockMutation by client c: into the guard, its steps of fn, and out again. */
  function CallSteps(s: State, c: nat, o: G.Owner, fn: seq<Step>): seq<Step> {
    EnterSteps(s, c, o) + fn + LeaveSteps(c, o)
  }

  /** A whole call, from what its fn does. */
  lemma WholeCall(cfg: Config, s: State, c: nat, o: G.Owner, fn: seq<Step>, u: State)
    requires Ready(cfg, s, c, o) && G.Legal(MadeGuard(s.guard, o), P.EntrySteps(MadeGuard(s.guard, o), o))
    requires Leads(cfg, Entered(s, c, o), fn, u)
    requires u.Live(c) && Resulted(u.PcOf(c)) && u.PcOf(c).o == o && u.guard == Entered(s, c, o).guard
    ensures Legal(cfg, s, CallSteps(s, c, o, fn))
    ensures var t := After(cfg, s, CallSteps(s, c, o, fn));
            && t == u.At(c, AfterAttempt(u.PcOf(c))).(guard := t.guard) && Inv(cfg, t)
            && t.guard.guard == G.Absent && t.guard.dead == s.guard.dead
            && t.guard.candidates.Keys <= s.guard.candidates.Keys + {o}
  {
    EntersFn(cfg, s, c, o);
    var entered := Entered(s, c, o);
    assert Inv(cfg, s) && entered.guard.PcOf(o) == G.Inside;
    hide Ready, Inv, Entered, EnterSteps, LeaveSteps, G.Legal, G.After, Inside, Apply, Enabled;
    InvAfter(cfg, entered, fn, u);
    var guard := LeavesFn(cfg, u, c);
    var t := u.At(c, AfterAttempt(u.PcOf(c))).(guard := guard);
    LeadsOn(cfg, s, EnterSteps(s, c, o), entered, fn, u);
    LeadsOn(cfg, s, EnterSteps(s, c, o) + fn, u, LeaveSteps(c, o), t);
    InvAfter(cfg, s, CallSteps(s, c, o, fn), t);
  }

  // ---------- Acquire and release ----------

  lemma TwoSteps(cfg: Config, s: State, a: Step, b: Step, t: State)
    requires Enabled(s, a) && Enabled(Apply(cfg, s, a), b) && Apply(cfg, Apply(cfg, s, a), b) == t
    ensures Leads(cfg, s, [a, b], t)
  {
    hide Apply, Enabled, Leads;
    OneStep(cfg, s, a);
    OneStep(cfg, Apply(cfg, s, a), b);
    LeadsOn(cfg, s, [a], Apply(cfg, s, a), [b], t);
    assert [a] + [b] == [a, b];
  }

  /** A client inside fn, at its start. */
  ghost predicate Starts(s: State, c: nat, pc: Pc) {
    s.Live(c) && s.PcOf(c) == pc && Attempting(pc) && s.guard.PcOf(pc.o) == G.Inside
  }

  lemma OpensAndWrites(cfg: Config, s: State, c: nat, o: G.Owner)
    requires Starts(s, c, Trying(o)) && s.lock.NoLock?
    ensures Leads(cfg, s, [OpenLock(c), WriteToken(c)],
                  s.At(c, Won(o, s.now)).(lock := Lock(Some(c), s.now), ledger := s.ledger + [Turn(c, false)]))
  {
    hide Leads;
    var created := s.At(c, Created(o)).(lock := Lock(None, s.now));
    assert Apply(cfg, s, OpenLock(c)) == created;
    var u := s.At(c, Won(o, s.now)).(lock := Lock(Some(c), s.now), ledger := s.ledger + [Turn(c, false)]);
    assert created.clients[c := created.clients[c].(pc := Won(o, s.now))] == u.clients;
    TwoSteps(cfg, s, OpenLock(c), WriteToken(c), u);
  }

  lemma FindsItExpired(cfg: Config, s: State, c: nat, o: G.Owner)
    requires Starts(s, c, Trying(o)) && s.lock.Lock? && s.now - s.lock.mtime > cfg.staleMs
    ensures Leads(cfg, s, [OpenLock(c), StatLock(c)] + [UnlinkExpired(c)], s.At(c, Missed(o)).(lock := NoLock))
  {
    hide Leads;
    var found, expired := s.At(c, Inspecting(o)), s.At(c, Expired(o));
    assert Apply(cfg, s, OpenLock(c)) == found;
    assert found.clients[c := found.clients[c].(pc := Expired(o))] == expired.clients;
    TwoSteps(cfg, s, OpenLock(c), StatLock(c), expired);
    var u := s.At(c, Missed(o)).(lock := NoLock);
    assert expired.clients[c := expired.clients[c].(pc := Missed(o))] == u.clients;
    OneStep(cfg, expired, UnlinkExpired(c));
    LeadsOn(cfg, s, [OpenLock(c), StatLock(c)], expired, [UnlinkExpired(c)], u);
  }

  lemma FindsItFresh(cfg: Config, s: State, c: nat, o: G.Owner)
    requires Starts(s, c, Trying(o)) && s.lock.Lock? && s.now - s.lock.mtime <= cfg.staleMs
    ensures Leads(cfg, s, [OpenLock(c), StatLock(c)], s.At(c, Missed(o)))
  {
    hide Leads;
    var found, u := s.At(c, Inspecting(o)), s.At(c, Missed(o));
    assert Apply(cfg, s, OpenLock(c)) == found;
    assert found.clients[c := found.clients[c].(pc := Missed(o))] == u.clients;
    TwoSteps(cfg, s, OpenLock(c), StatLock(c), u);
  }

  lemma UnlinksItsOwn(cfg: Config, s: State, c: nat, o: G.Owner)
    requires Starts(s, c, Releasing(o)) && s.lock.Lock? && s.lock.token == Some(c)
    ensures Leads(cfg, s, [ReadToken(c), UnlinkMatched(c)], s.At(c, Released(o)).(lock := NoLock))
  {
    hide Leads;
    var matched, u := s.At(c, Matched(o)), s.At(c, Released(o)).(lock := NoLock);
    assert Apply(cfg, s, ReadToken(c)) == matched;
    assert matched.clients[c := matched.clients[c].(pc := Released(o))] == u.clients;
    TwoSteps(cfg, s, ReadToken(c), UnlinkMatched(c), u);
  }

  lemma StartsFn(cfg: Config, s: State, c: nat, o: G.Owner)
    requires Ready(cfg, s, c, o)
    ensures G.Legal(MadeGuard(s.guard, o), P.EntrySteps(MadeGuard(s.guard, o), o))
    ensures var e := Entered(s, c, o);
            && c in s.clients && Starts(e, c, if s.PcOf(c).Waiting? then Trying(o) else Releasing(o))
            && (e.lock, e.now, e.record, e.ledger) == (s.lock, s.now, s.record, s.ledger)
            && e.clients == s.clients[c := s.clients[c].(pc := e.PcOf(c))] && e.attempts == s.attempts[o := c]
            && e.guard.dead == s.guard.dead
  {
    EntersFn(cfg, s, c, o);
  }

  /** An undisturbed acquire over an absent lock ends with the client's token in the file and its callback running. */
  lemma AcquiresFree(cfg: Config, s: State, c: nat, o: G.Owner)
    requires Ready(cfg, s, c, o) && s.PcOf(c).Waiting? && s.lock.NoLock?
    ensures var steps := CallSteps(s, c, o, [OpenLock(c), WriteToken(c)]);
            && Legal(cfg, s, steps)
            && var t := After(cfg, s, steps);
               && t.lock == Lock(Some(c), s.now) && Untouched(s, t, c, Body(true, s.now)) && t.guard.guard == G.Absent
               && OnlyUses(s, t, o)
  {
    hide Leads, G.Legal, G.After, P.EntrySteps, Legal, After, Inv;
    StartsFn(cfg, s, c, o);
    var e := Entered(s, c, o);
    OpensAndWrites(cfg, e, c, o);
    WholeCall(cfg, s, c, o, [OpenLock(c), WriteToken(c)],
              e.At(c, Won(o, s.now)).(lock := Lock(Some(c), s.now), ledger := s.ledger + [Turn(c, false)]));
  }

  /** An undisturbed release by a client whose token is in the file ends with no lock. */
  lemma ReleasesItsOwn(cfg: Config, s: State, c: nat, o: G.Owner)
    requires Ready(cfg, s, c, o) && s.PcOf(c).Pausing? && s.lock.Lock? && s.lock.token == Some(c)
    ensures var steps := CallSteps(s, c, o, [ReadToken(c), UnlinkMatched(c)]);
            && Legal(cfg, s, steps)
            && var t := After(cfg, s, steps);
               && t.lock == NoLock && Untouched(s, t, c, Ended) && t.guard.guard == G.Absent && t.ledger == s.ledger
  {
    hide Leads, G.Legal, G.After, P.EntrySteps, Legal, After, Inv;
    StartsFn(cfg, s, c, o);
    var e := Entered(s, c, o);
    UnlinksItsOwn(cfg, e, c, o);
    WholeCall(cfg, s, c, o, [ReadToken(c), UnlinkMatched(c)], e.At(c, Released(o)).(lock := NoLock));
  }

  /** A release by anybody else leaves the lock as it is. */
  lemma LeavesAnothers(cfg: Config, s: State, c: nat, o: G.Owner)
    requires Ready(cfg, s, c, o) && s.PcOf(c).Pausing? && !(s.lock.Lock? && s.lock.token == Some(c))
    ensures var steps := CallSteps(s, c, o, [ReadToken(c)]);
            && Legal(cfg, s, steps)
            && var t := After(cfg, s, steps); t.lock == s.lock && Untouched(s, t, c, Ended) && t.guard.guard == G.Absent
  {
    hide Leads, G.Legal, G.After, P.EntrySteps, Legal, After, Inv;
    StartsFn(cfg, s, c, o);
    var e := Entered(s, c, o);
    OneStep(cfg, e, ReadToken(c));
    WholeCall(cfg, s, c, o, [ReadToken(c)], e.At(c, Released(o)));
  }

  /** An acquire that finds the lock no older than staleMs leaves it as it is and stays without it. */
  lemma WaitsForFresh(cfg: Config, s: State, c: nat, o: G.Owner)
    requires Ready(cfg, s, c, o) && s.PcOf(c).Waiting? && s.lock.Lock? && s.now - s.lock.mtime <= cfg.staleMs
    ensures var steps := CallSteps(s, c, o, [OpenLock(c), StatLock(c)]);
            && Legal(cfg, s, steps)
            && var t := After(cfg, s, steps); t.lock == s.lock && Untouched(s, t, c, Waiting) && t.guard.guard == G.Absent
  {
    hide Leads, G.Legal, G.After, P.EntrySteps, Legal, After, Inv;
    StartsFn(cfg, s, c, o);
    var e := Entered(s, c, o);
    FindsItFresh(cfg, e, c, o);
    WholeCall(cfg, s, c, o, [OpenLock(c), StatLock(c)], e.At(c, Missed(o)));
  }

  /** One that finds it older than that removes it, and can go on with another name for its next call. */
  lemma Reclaims(cfg: Config, s: State, c: nat, o: G.Owner, next: G.Owner)
    requires Ready(cfg, s, c, o) && s.PcOf(c).Waiting? && s.lock.Lock? && s.now - s.lock.mtime > cfg.staleMs
    requires Ready(cfg, s, c, next) && next != o
    ensures var steps := CallSteps(s, c, o, [OpenLock(c), StatLock(c)] + [UnlinkExpired(c)]);
            && Legal(cfg, s, steps)
            && var t := After(cfg, s, steps);
               t.lock == NoLock && Untouched(s, t, c, Waiting) && t.guard.guard == G.Absent && Ready(cfg, t, c, next)
  {
    hide Leads, G.Legal, G.After, P.EntrySteps, Legal, After, Inv;
    StartsFn(cfg, s, c, o);
    var e := Entered(s, c, o);
    FindsItExpired(cfg, e, c, o);
    WholeCall(cfg, s, c, o, [OpenLock(c), StatLock(c)] + [UnlinkExpired(c)], e.At(c, Missed(o)).(lock := NoLock));
  }

  function ReclaimSteps(s: State, c: nat, o: G.Owner): seq<Step> {
    CallSteps(s, c, o, [OpenLock(c), StatLock(c)] + [UnlinkExpired(c)])
  }

  /** An undisturbed acquire over a lock older than staleMs reclaims it and then ends with its own token in the file. */
  lemma AcquiresStale(cfg: Config, s: State, c: nat, o: G.Owner, next: G.Owner)
    requires Ready(cfg, s, c, o) && s.PcOf(c).Waiting? && s.lock.Lock? && s.now - s.lock.mtime > cfg.staleMs
    requires Ready(cfg, s, c, next) && next != o
    ensures Legal(cfg, s, ReclaimSteps(s, c, o))
    ensures var mid := After(cfg, s, ReclaimSteps(s, c, o));
            var steps := ReclaimSteps(s, c, o) + CallSteps(mid, c, next, [OpenLock(c), WriteToken(c)]);
            && Legal(cfg, s, steps)
            && var t := After(cfg, s, steps);
               && t.lock == Lock(Some(c), s.now) && Untouched(s, t, c, Body(true, s.now)) && t.guard.guard == G.Absent
  {
    hide Apply, Enabled, Inv, CallSteps, Legal, After, P.NobodyInside;
    Reclaims(cfg, s, c, o, next);
    var mid := After(cfg, s, ReclaimSteps(s, c, o));
    AcquiresFree(cfg, mid, c, next);
    var rest := CallSteps(mid, c, next, [OpenLock(c), WriteToken(c)]);
    assert Leads(cfg, s, ReclaimSteps(s, c, o), mid) && Leads(cfg, mid, rest, After(cfg, mid, rest));
    LeadsOn(cfg, s, ReclaimSteps(s, c, o), mid, rest, After(cfg, mid, rest));
  }

  // ---------- The callback ----------

  function WriteSteps(c: nat, next: Bytes): seq<Step> {
    [ReadRecord(c)] + (if next == [] then [] else [WriteTmp(c, |next|)]) + [Commit(c)] + [Finish(c), Finish(c)]
  }

  /** An undisturbed callback that writes puts its mutation of the record in place, and goes on to its release if it has one. */
  lemma CallbackWrites(cfg: Config, s: State, c: nat, next: Bytes)
    requires s.Live(c) && s.PcOf(c).Body? && cfg.mutate(c, s.record) == Some(next)
    ensures Legal(cfg, s, WriteSteps(c, next))
    ensures var t := After(cfg, s, WriteSteps(c, next));
            && t.record == Some(next) && t.lock == s.lock && t.guard == s.guard
            && t.PcOf(c) == if s.PcOf(c).locked then Pausing else Ended
  {
    hide Leads, Mark;
    var pc := s.PcOf(c);
    var read, written := s.At(c, Update(pc.locked, pc.since, next, [])), s.At(c, Update(pc.locked, pc.since, next, next));
    OneStep(cfg, s, ReadRecord(c));
    assert Apply(cfg, s, ReadRecord(c)) == read;
    if next == [] {
      assert [ReadRecord(c)] + [] == [ReadRecord(c)];
    } else {
      OneStep(cfg, read, WriteTmp(c, |next|));
      assert next[..|next|] == next;
      assert read.clients[c := read.clients[c].(pc := written.PcOf(c))] == written.clients;
      assert Apply(cfg, read, WriteTmp(c, |next|)) == written;
      LeadsOn(cfg, s, [ReadRecord(c)], read, [WriteTmp(c, |next|)], written);
    }
    CommitsAndFinishes(cfg, written, c);
    LeadsOn(cfg, s, [ReadRecord(c)] + (if next == [] then [] else [WriteTmp(c, |next|)]), written,
            [Commit(c)] + [Finish(c), Finish(c)], After(cfg, written, [Commit(c)] + [Finish(c), Finish(c)]));
    assert WriteSteps(c, next) == [ReadRecord(c)] + (if next == [] then [] else [WriteTmp(c, |next|)]) + ([Commit(c)] + [Finish(c), Finish(c)]);
  }

  lemma CommitsAndFinishes(cfg: Config, s: State, c: nat)
    requires s.Live(c) && s.PcOf(c).Update? && s.PcOf(c).tmp == s.PcOf(c).next
    ensures var steps := [Commit(c)] + [Finish(c), Finish(c)];
            Legal(cfg, s, steps) && Leads(cfg, s, steps, After(cfg, s, steps))
            && var t := After(cfg, s, steps);
               && t.record == Some(s.PcOf(c).next) && t.lock == s.lock && t.guard == s.guard
               && t.PcOf(c) == if s.PcOf(c).locked then Pausing else Ended
  {
    hide Mark;
    var pc := s.PcOf(c);
    var committed := Apply(cfg, s, Commit(c));
    OneStep(cfg, s, Commit(c));
    hide Leads;
    var finished := committed.At(c, Finished(pc.locked));
    var t := committed.At(c, if pc.locked then Pausing else Ended);
    assert Apply(cfg, committed, Finish(c)) == finished;
    assert finished.clients[c := t.clients[c]] == t.clients;
    TwoSteps(cfg, committed, Finish(c), Finish(c), t);
    LeadsOn(cfg, s, [Commit(c)], committed, [Finish(c), Finish(c)], t);
    IsAfter(cfg, s, [Commit(c)] + [Finish(c), Finish(c)], t);
  }

  lemma IsAfter(cfg: Config, s: State, steps: seq<Step>, t: State)
    requires Leads(cfg, s, steps, t)
    ensures Legal(cfg, s, steps) && After(cfg, s, steps) == t
  {
  }

  /** One whose mutation writes nothing leaves the record as it is. */
  lemma CallbackWritesNothing(cfg: Config, s: State, c: nat)
    requires s.Live(c) && s.PcOf(c).Body? && cfg.mutate(c, s.record) == None
    ensures var steps := [ReadRecord(c), Finish(c)];
            Legal(cfg, s, steps) && After(cfg, s, steps) == s.At(c, if s.PcOf(c).locked then Pausing else Ended)
  {
    hide Leads;
    var finished, t := s.At(c, Finished(s.PcOf(c).locked)), s.At(c, if s.PcOf(c).locked then Pausing else Ended);
    assert Apply(cfg, s, ReadRecord(c)) == finished;
    assert finished.clients[c := t.clients[c]] == t.clients;
    TwoSteps(cfg, s, ReadRecord(c), Finish(c), t);
    IsAfter(cfg, s, [ReadRecord(c), Finish(c)], t);
  }

  /** A client whose token cannot be written removes its new lock again, and its callback runs unlocked. */
  lemma FailedTokenIsUndone(cfg: Config, s: State, c: nat, o: G.Owner)
    requires Ready(cfg, s, c, o) && s.PcOf(c).Waiting? && s.lock.NoLock?
    ensures var steps := CallSteps(s, c, o, [OpenLock(c), TokenError(c)] + [Discard(c)]);
            && Legal(cfg, s, steps)
            && var t := After(cfg, s, steps);
               t.lock == NoLock && t.PcOf(c).Body? && !t.PcOf(c).locked && t.record == s.record && t.guard.guard == G.Absent
  {
    hide Leads, G.Legal, G.After, P.EntrySteps, Legal, After, Inv;
    StartsFn(cfg, s, c, o);
    var e := Entered(s, c, o);
    OpensAndUndoes(cfg, e, c, o);
    WholeCall(cfg, s, c, o, [OpenLock(c), TokenError(c)] + [Discard(c)], e.At(c, Threw(o)).(lock := NoLock));
  }

  lemma OpensAndUndoes(cfg: Config, s: State, c: nat, o: G.Owner)
    requires Starts(s, c, Trying(o)) && s.lock.NoLock?
    ensures Leads(cfg, s, [OpenLock(c), TokenError(c)] + [Discard(c)], s.At(c, Threw(o)).(lock := NoLock))
  {
    hide Leads;
    var created, failed := s.At(c, Created(o)).(lock := Lock(None, s.now)), s.At(c, Discarding(o)).(lock := Lock(None, s.now));
    assert Apply(cfg, s, OpenLock(c)) == created;
    assert created.clients[c := failed.clients[c]] == failed.clients;
    TwoSteps(cfg, s, OpenLock(c), TokenError(c), failed);
    var u := s.At(c, Threw(o)).(lock := NoLock);
    assert failed.clients[c := u.clients[c]] == u.clients;
    OneStep(cfg, failed, Discard(c));
    LeadsOn(cfg, s, [OpenLock(c), TokenError(c)], failed, [Discard(c)], u);
  }

  /** A client that gives up runs its callback unlocked, or leaves its lock behind. */
  lemma GivingUp(cfg: Config, s: State, c: nat)
    requires s.Live(c) && (s.PcOf(c).Waiting? || s.PcOf(c).Pausing?)
    ensures Enabled(s, GiveUp(c))
    ensures Apply(cfg, s, GiveUp(c)) == s.At(c, if s.PcOf(c).Pausing? then Ended else Body(false, s.now))
  {
  }

  /** Every reachable state keeps the invariant that these runs start from. */
  lemma ReachableIsInv(cfg: Config, steps: seq<Step>)
    requires Legal(cfg, Initial(cfg), steps)
    ensures Inv(cfg, After(cfg, Initial(cfg), steps))
  {
    InitialInv(cfg);
    RunKeepsInv(cfg, Initial(cfg), steps);
  }

  // ---------- A run in which a crashed holder is replaced ----------

  const FIRST := G.Owner(7, 0)
  const SECOND := G.Owner(8, 0)
  const THIRD := G.Owner(8, 1)

  /** A first client takes the lock. */
  lemma FirstHolds(cfg: Config) returns (steps: seq<Step>, s: State)
    ensures Leads(cfg, Initial(cfg), steps, s) && Inv(cfg, s) && s.lock == Lock(Some(0), 0) && s.now == 0
    ensures s.clients == map[0 := Client(7, Body(true, 0))] && s.guard.guard == G.Absent && s.guard.dead == {}
    ensures s.attempts.Keys <= {FIRST} && s.guard.candidates.Keys <= {FIRST}
  {
    InitialInv(cfg);
    var s1 := Apply(cfg, Initial(cfg), Arrive(0, 7));
    OneStep(cfg, Initial(cfg), Arrive(0, 7));
    InvAfter(cfg, Initial(cfg), [Arrive(0, 7)], s1);
    AcquiresFree(cfg, s1, 0, FIRST);
    var taken := CallSteps(s1, 0, FIRST, [OpenLock(0), WriteToken(0)]);
    s := After(cfg, s1, taken);
    steps := [Arrive(0, 7)] + taken;
    hide Apply, Enabled, Inv, CallSteps, Legal, After;
    LeadsOn(cfg, Initial(cfg), [Arrive(0, 7)], s1, taken, s);
    InvAfter(cfg, Initial(cfg), steps, s);
  }

  /** It dies, more than staleMs go by, and a second client comes. */
  lemma DiesAndWaits(cfg: Config, s: State) returns (t: State)
    requires Inv(cfg, s) && s.lock == Lock(Some(0), 0) && s.now == 0 && s.guard.guard == G.Absent && s.guard.dead == {}
    requires s.clients == map[0 := Client(7, Body(true, 0))]
    requires s.attempts.Keys <= {FIRST} && s.guard.candidates.Keys <= {FIRST}
    ensures Leads(cfg, s, [GuardStep(G.Crash(7)), Tick(cfg.staleMs + 1)] + [Arrive(1, 8)], t)
    ensures Ready(cfg, t, 1, SECOND) && Ready(cfg, t, 1, THIRD) && t.PcOf(1).Waiting?
    ensures t.lock == Lock(Some(0), 0) && t.now == cfg.staleMs + 1 && !t.Live(0)
  {
    hide Leads;
    var late := s.(guard := s.guard.(dead := {7}), now := cfg.staleMs + 1);
    t := late.(clients := map[0 := Client(7, Body(true, 0)), 1 := Client(8, Waiting)]);
    TwoSteps(cfg, s, GuardStep(G.Crash(7)), Tick(cfg.staleMs + 1), late);
    OneStep(cfg, late, Arrive(1, 8));
    assert Apply(cfg, late, Arrive(1, 8)) == t;
    hide Apply, Enabled, Inv;
    LeadsOn(cfg, s, [GuardStep(G.Crash(7)), Tick(cfg.staleMs + 1)], late, [Arrive(1, 8)], t);
    InvAfter(cfg, s, [GuardStep(G.Crash(7)), Tick(cfg.staleMs + 1)] + [Arrive(1, 8)], t);
  }

  /** A complete run in which a client takes the lock and dies, and another one takes it over when it is stale. */
  lemma CrashedHolderIsReplaced(cfg: Config) returns (steps: seq<Step>)
    ensures Legal(cfg, Initial(cfg), steps)
    ensures var t := After(cfg, Initial(cfg), steps);
            t.lock == Lock(Some(1), cfg.staleMs + 1) && t.PcOf(1) == Body(true, cfg.staleMs + 1) && !t.Live(0)
  {
    hide Apply, Enabled, Inv, Legal, After, CallSteps, Ready;
    var first, s := FirstHolds(cfg);
    var then' := [GuardStep(G.Crash(7)), Tick(cfg.staleMs + 1)] + [Arrive(1, 8)];
    var t := DiesAndWaits(cfg, s);
    LeadsOn(cfg, Initial(cfg), first, s, then', t);
    AcquiresStale(cfg, t, 1, SECOND, THIRD);
    var last := ReclaimSteps(t, 1, SECOND)
                + CallSteps(After(cfg, t, ReclaimSteps(t, 1, SECOND)), 1, THIRD, [OpenLock(1), WriteToken(1)]);
    LeadsOn(cfg, Initial(cfg), first + then', t, last, After(cfg, t, last));
    steps := first + then' + last;
  }
}
