/**
 acquireHookLock and releaseHookLock (scripts/cursor-hooks.ts): the pid-and-token lock around an
 install or remove of the Cursor hooks.  Every look at the lock file and every change of it happens
 inside the mutation guard; the installer's body runs outside it.  A client is one call, and its
 token is its own.  Both installers use this lock, so their installs and removes take turns.
 */
module HookLock {
  import opened Base
  import G = Guard

  const EMPTY_GRACE_MS := 1000

  /** The lock file: the pid its text names so far, whose payload it is, and whether that is written whole. */
  datatype File = File(pid: Option<nat>, writer: nat, whole: bool, mtime: nat)

  datatype Pc =
    | Waiting                       // between attempts
    | Trying(o: G.Owner)            // a withLockMutation call is under way
    | Read(o: G.Owner, seen: File)  // lockIsFree read the file; liveness test pending
    | Dead(o: G.Owner, seen: File)  // judged left behind; second read pending
    | Stale(o: G.Owner)             // same text again; unlink pending
    | Free(o: G.Owner)              // open(wx) pending
    | Opened(o: G.Owner)            // lock file created; payload write pending
    | Undo(o: G.Owner)              // write failed; unlink pending
    | Missed(o: G.Owner)            // fn returned "busy"
    | Threw(o: G.Owner)             // fn threw
    | Won(o: G.Owner)               // fn returned "acquired"
    | Body                          // the install or remove is running
    | Leaving                       // body over; guarded removal pending
    | Releasing(o: G.Owner)         // its withLockMutation call is under way
    | Own(o: G.Owner)               // the file holds our payload; unlink pending
    | Released(o: G.Owner)          // fn returned
    | Ended

  datatype Client = Client(pid: nat, pc: Pc)

  datatype State = State(
    guard: G.State,
    attempts: map<G.Owner, nat>,
    clients: map<nat, Client>,
    file: Option<File>,
    now: nat)
  {
    predicate Live(c: nat) { c in clients && clients[c].pid !in guard.dead }

    function PcOf(c: nat): Pc { if c in clients then clients[c].pc else Ended }

    function At(c: nat, pc: Pc): State
      requires c in clients
    {
      this.(clients := clients[c := clients[c].(pc := pc)])
    }
  }

  datatype Step =
    | GuardStep(g: G.Step)
    | Arrive(c: nat, pid: nat)
    | Tick(ms: nat)
    | Begin(c: nat, o: G.Owner)
    | Return(c: nat)
    | EndAttempt(c: nat)
    | GiveUp(c: nat)
    | ReadLock(c: nat)
    | Judge(c: nat)
    | ReadAgain(c: nat)
    | UnlinkOld(c: nat)
    | OpenNew(c: nat)
    | WriteSome(c: nat, named: Option<nat>)   // a crash after this leaves part of the payload
    | WriteAll(c: nat)
    | FnError(c: nat)
    | UnlinkUndo(c: nat)
    | EndBody(c: nat)
    | Compare(c: nat)
    | UnlinkOwn(c: nat)

  const INITIAL := State(G.INITIAL, map[], map[], None, 0)

  /** Inside fn. */
  predicate Working(pc: Pc) {
    pc.Read? || pc.Dead? || pc.Stale? || pc.Free? || pc.Opened? || pc.Undo? || pc.Own?
  }

  predicate Resulted(pc: Pc) { pc.Missed? || pc.Threw? || pc.Won? || pc.Released? }

  predicate Attempting(pc: Pc) { pc.Trying? || pc.Releasing? || Working(pc) || Resulted(pc) }

  /** From the whole payload to its removal. */
  predicate Holds(pc: Pc) { pc.Won? || pc.Body? || pc.Leaving? || pc.Releasing? || pc.Own? }

  predicate Inside(s: State, c: nat) {
    Attempting(s.PcOf(c)) && s.guard.PcOf(s.PcOf(c).o) == G.Inside
  }

  /** lockIsFree: a dead pid, or no pid and past the grace. */
  predicate LeftBehind(s: State, f: File) {
    if f.pid.Some? then f.pid.value in s.guard.dead else s.now - f.mtime >= EMPTY_GRACE_MS
  }

  predicate Enabled(s: State, step: Step) {
    match step
    case GuardStep(g) => !g.MakeCandidate? && !g.Return? && G.Enabled(s.guard, g)
    case Arrive(c, pid) => c !in s.clients && pid !in s.guard.dead
    case Tick(_) => true
    case Begin(c, o) =>
      && s.Live(c) && (s.PcOf(c).Waiting? || s.PcOf(c).Leaving?)
      && o.pid == s.clients[c].pid && o !in s.attempts && G.Enabled(s.guard, G.MakeCandidate(o))
    case Return(c) => s.Live(c) && Resulted(s.PcOf(c)) && G.Enabled(s.guard, G.Return(s.PcOf(c).o))
    case EndAttempt(c) => s.Live(c) && Attempting(s.PcOf(c)) && s.guard.PcOf(s.PcOf(c).o).Done?
                          && (Resulted(s.PcOf(c)) || s.guard.PcOf(s.PcOf(c).o) == G.Done(false))
    case GiveUp(c) => s.Live(c) && (s.PcOf(c).Waiting? || s.PcOf(c).Leaving?)
    case ReadLock(c) => s.Live(c) && s.PcOf(c).Trying? && Inside(s, c)
    case Judge(c) => s.Live(c) && s.PcOf(c).Read?
    case ReadAgain(c) => s.Live(c) && s.PcOf(c).Dead?
    case UnlinkOld(c) => s.Live(c) && s.PcOf(c).Stale?
    case OpenNew(c) => s.Live(c) && s.PcOf(c).Free?
    case WriteSome(c, _) => s.Live(c) && s.PcOf(c).Opened? && s.file.Some?
    case WriteAll(c) => s.Live(c) && s.PcOf(c).Opened? && s.file.Some?
    case FnError(c) =>
      && s.Live(c) && Inside(s, c)
      && (Working(s.PcOf(c)) || s.PcOf(c).Trying? || s.PcOf(c).Releasing? || s.PcOf(c).Won?)
    case UnlinkUndo(c) => s.Live(c) && s.PcOf(c).Undo?
    case EndBody(c) => s.Live(c) && s.PcOf(c).Body?
    case Compare(c) => s.Live(c) && s.PcOf(c).Releasing? && Inside(s, c)
    case UnlinkOwn(c) => s.Live(c) && s.PcOf(c).Own?
  }

  ghost function Apply(s: State, step: Step): State
    requires Enabled(s, step)
  {
    match step
    case GuardStep(g) => s.(guard := G.Apply(s.guard, g))
    case Arrive(c, pid) => s.(clients := s.clients[c := Client(pid, Waiting)])
    case Tick(ms) => s.(now := s.now + ms)
    case Begin(c, o) =>
      s.At(c, if s.PcOf(c).Waiting? then Trying(o) else Releasing(o))
      .(guard := G.Apply(s.guard, G.MakeCandidate(o)), attempts := s.attempts[o := c])
    case Return(c) => s.(guard := G.Apply(s.guard, G.Return(s.PcOf(c).o)))
    case EndAttempt(c) => s.At(c, AfterAttempt(s.PcOf(c)))
    case GiveUp(c) => s.At(c, Ended)
    case ReadLock(c) =>
      var o := s.PcOf(c).o;
      s.At(c, if s.file.None? then Free(o) else Read(o, s.file.value))
    case Judge(c) =>
      var pc := s.PcOf(c);
      s.At(c, if LeftBehind(s, pc.seen) then Dead(pc.o, pc.seen) else Missed(pc.o))
    case ReadAgain(c) =>
      var pc := s.PcOf(c);
      s.At(c, if s.file.None? then Free(pc.o)
              else if s.file.value.(mtime := pc.seen.mtime) == pc.seen then Stale(pc.o)
              else Missed(pc.o))
    case UnlinkOld(c) => s.At(c, Free(s.PcOf(c).o)).(file := None)
    case OpenNew(c) =>
      var o := s.PcOf(c).o;
      if s.file.Some? then s.At(c, Missed(o)) else s.At(c, Opened(o)).(file := Some(File(None, c, false, s.now)))
    case WriteSome(c, named) => s.(file := Some(s.file.value.(pid := named, mtime := s.now)))
    case WriteAll(c) =>
      s.At(c, Won(s.PcOf(c).o))
      .(file := Some(s.file.value.(pid := Some(s.clients[c].pid), whole := true, mtime := s.now)))
    case FnError(c) =>
      var pc := s.PcOf(c);
      s.At(c, if pc.Opened? || pc.Won? then Undo(pc.o)
              else if pc.Free? || pc.Undo? then Threw(pc.o)
              else if pc.Own? || pc.Releasing? then Released(pc.o)
              else Missed(pc.o))
    case UnlinkUndo(c) => s.At(c, Threw(s.PcOf(c).o)).(file := None)
    case EndBody(c) => s.At(c, Leaving)
    case Compare(c) =>
      var o := s.PcOf(c).o;
      s.At(c, if s.file.Some? && s.file.value.whole && s.file.value.writer == c then Own(o) else Released(o))
    case UnlinkOwn(c) => s.At(c, Released(s.PcOf(c).o)).(file := None)
  }

  /** A finished withLockMutation call: acquiring is tried again until the deadline, and so is removing. */
  function AfterAttempt(pc: Pc): Pc
    requires Attempting(pc)
  {
    match pc
    case Won(_) => Body
    case Threw(_) | Released(_) => Ended
    case Releasing(_) | Own(_) => Leaving
    case _ => Waiting
  }

  ghost predicate Legal(s: State, steps: seq<Step>)
    decreases |steps|
  {
    steps == [] || (Enabled(s, steps[0]) && Legal(Apply(s, steps[0]), steps[1..]))
  }

  ghost function After(s: State, steps: seq<Step>): State
    requires Legal(s, steps)
    decreases |steps|
  {
    if steps == [] then s else After(Apply(s, steps[0]), steps[1..])
  }

  // ---------- The invariant ----------

  /** A text that protects nobody: it names no pid, or a dead one. */
  predicate Unprotected(s: State, f: File) {
    f.pid.Some? ==> f.pid.value in s.guard.dead
  }

  predicate Mine(s: State, c: nat) { s.file.Some? && s.file.value.writer == c }

  ghost predicate ClientOk(s: State, c: nat) {
    var pc := s.PcOf(c);
    && (Attempting(pc) ==> pc.o in s.attempts && s.attempts[pc.o] == c && pc.o.pid == s.clients[c].pid)
    && (Working(pc) ==> s.guard.PcOf(pc.o) == G.Inside)
    && (s.Live(c) && Holds(pc) ==> Mine(s, c) && s.file.value.whole && s.file.value.pid == Some(s.clients[c].pid))
    && (s.Live(c) && (pc.Opened? || pc.Undo?) ==> Mine(s, c))
    && (s.Live(c) && (pc.Read? || pc.Dead?) ==> s.file == Some(pc.seen))
    && (s.Live(c) && pc.Dead? ==> Unprotected(s, pc.seen))
    && (s.Live(c) && pc.Stale? ==> s.file.Some? && Unprotected(s, s.file.value))
    && (s.Live(c) && pc.Free? ==> s.file.None?)
  }

  ghost predicate Inv(s: State) {
    G.Inv(s.guard) && s.guard.pcs.Keys <= s.attempts.Keys && forall c :: ClientOk(s, c)
  }

  lemma InsideIsExclusive(s: State, a: nat, b: nat)
    requires Inv(s) && s.Live(a) && s.Live(b) && Inside(s, a) && Inside(s, b)
    ensures a == b
  {
    assert ClientOk(s, a) && ClientOk(s, b);
    var oa, ob := s.PcOf(a).o, s.PcOf(b).o;
    assert G.OwnerOk(s.guard, oa) && G.OwnerOk(s.guard, ob);
    assert oa in G.Dir({ob}).entries;
  }

  /** The steps inside fn. */
  predicate IsLockStep(step: Step) {
    || step.ReadLock? || step.Judge? || step.ReadAgain? || step.UnlinkOld? || step.OpenNew? || step.WriteSome?
    || step.WriteAll? || step.FnError? || step.UnlinkUndo? || step.Compare? || step.UnlinkOwn?
  }

  /** The lock steps that leave the file alone. */
  predicate IsLook(step: Step) {
    step.ReadLock? || step.Judge? || step.ReadAgain? || step.FnError? || step.Compare?
  }

  lemma OwnLookKeepsClient(s: State, step: Step)
    requires IsLook(step) && Enabled(s, step) && ClientOk(s, step.c)
    ensures ClientOk(Apply(s, step), step.c)
  {
  }

  lemma OwnChangeKeepsClient(s: State, step: Step)
    requires IsLockStep(step) && !IsLook(step) && Enabled(s, step) && ClientOk(s, step.c)
    ensures ClientOk(Apply(s, step), step.c)
  {
  }

  lemma BeginKeepsClient(s: State, c: nat, o: G.Owner)
    requires Enabled(s, Begin(c, o)) && ClientOk(s, c)
    ensures ClientOk(Apply(s, Begin(c, o)), c)
  {
    hide G.Apply, G.Enabled;
  }

  lemma ReturnKeepsClient(s: State, c: nat)
    requires Enabled(s, Return(c)) && ClientOk(s, c)
    ensures ClientOk(Apply(s, Return(c)), c)
  {
  }

  lemma OwnStepKeepsClient(s: State, step: Step)
    requires !IsLockStep(step) && !step.GuardStep? && !step.Tick? && Enabled(s, step) && ClientOk(s, step.c)
    ensures ClientOk(Apply(s, step), step.c)
  {
    hide G.Apply, G.Enabled;
    match step
    case Begin(c, o) => BeginKeepsClient(s, c, o);
    case Return(c) => ReturnKeepsClient(s, c);
    case _ =>
  }

  /** A lock step of another client: only one is inside, and whoever holds the lock outside is protected by it. */
  lemma OtherLockStepKeepsClient(s: State, step: Step, c: nat)
    requires Inv(s) && Enabled(s, step) && IsLockStep(step) && step.c != c
    ensures ClientOk(Apply(s, step), c)
  {
    assert ClientOk(s, c) && ClientOk(s, step.c);
    if s.Live(c) && Inside(s, c) {
      InsideIsExclusive(s, c, step.c);
    }
  }

  lemma OtherStepKeepsClient(s: State, step: Step, c: nat)
    requires !IsLockStep(step) && !step.GuardStep? && !step.Tick? && Enabled(s, step) && step.c != c
    requires s.guard.pcs.Keys <= s.attempts.Keys && ClientOk(s, c) && ClientOk(s, step.c)
    ensures ClientOk(Apply(s, step), c)
  {
  }

  lemma StepKeepsGuard(s: State, step: Step)
    requires Inv(s) && Enabled(s, step)
    ensures G.Inv(Apply(s, step).guard) && Apply(s, step).guard.pcs.Keys <= Apply(s, step).attempts.Keys
  {
    match step
    case GuardStep(g) => G.StepKeepsInv(s.guard, g);
    case Begin(_, o) => G.StepKeepsInv(s.guard, G.MakeCandidate(o));
    case Return(c) =>
      assert ClientOk(s, c);
      G.StepKeepsInv(s.guard, G.Return(s.PcOf(c).o));
    case _ =>
  }

  lemma GuardOrTickKeepsClient(s: State, step: Step, c: nat)
    requires (step.GuardStep? || step.Tick?) && Enabled(s, step) && ClientOk(s, c)
    ensures ClientOk(Apply(s, step), c)
  {
    hide G.Apply, G.Enabled;
    if step.GuardStep? {
      G.InsideStays(s.guard, step.g, if Working(s.PcOf(c)) then s.PcOf(c).o else G.Owner(0, 0));
    }
  }

  lemma StepKeepsClient(s: State, step: Step, c: nat)
    requires Inv(s) && Enabled(s, step)
    ensures ClientOk(Apply(s, step), c)
  {
    hide Apply, Enabled, ClientOk, G.Inv;
    assert ClientOk(s, c);
    if step.GuardStep? || step.Tick? {
      GuardOrTickKeepsClient(s, step, c);
    } else if c != step.c {
      assert ClientOk(s, step.c);
      if IsLockStep(step) {
        OtherLockStepKeepsClient(s, step, c);
      } else {
        OtherStepKeepsClient(s, step, c);
      }
    } else if IsLook(step) {
      OwnLookKeepsClient(s, step);
    } else if IsLockStep(step) {
      OwnChangeKeepsClient(s, step);
    } else {
      OwnStepKeepsClient(s, step);
    }
  }

  lemma StepKeepsInv(s: State, step: Step)
    requires Inv(s) && Enabled(s, step)
    ensures Inv(Apply(s, step))
  {
    hide Apply, Enabled, ClientOk, G.Inv;
    StepKeepsGuard(s, step);
    forall c ensures ClientOk(Apply(s, step), c) {
      StepKeepsClient(s, step, c);
    }
  }

  lemma {:induction false} RunKeepsInv(s: State, steps: seq<Step>)
    requires Inv(s) && Legal(s, steps)
    ensures Inv(After(s, steps))
    decreases |steps|
  {
    if steps != [] {
      StepKeepsInv(s, steps[0]);
      RunKeepsInv(Apply(s, steps[0]), steps[1..]);
    }
  }

  lemma InvAfter(steps: seq<Step>)
    requires Legal(INITIAL, steps)
    ensures Inv(After(INITIAL, steps))
  {
    assert Inv(INITIAL) by {
      forall o ensures G.OwnerOk(G.INITIAL, o) {
      }
    }
    RunKeepsInv(INITIAL, steps);
  }

  // ---------- What every run keeps ----------

  /** Installs and removes of live processes never overlap, whatever the delays. */
  lemma BodiesNeverOverlap(steps: seq<Step>, a: nat, b: nat)
    requires Legal(INITIAL, steps)
    requires var s := After(INITIAL, steps); s.Live(a) && s.Live(b) && s.PcOf(a).Body? && s.PcOf(b).Body?
    ensures a == b
  {
    InvAfter(steps);
    assert ClientOk(After(INITIAL, steps), a) && ClientOk(After(INITIAL, steps), b);
  }

  /** Until it removes it, a live holder's whole payload is in the lock file. */
  lemma HolderOwnsTheLock(steps: seq<Step>, c: nat)
    requires Legal(INITIAL, steps)
    requires After(INITIAL, steps).Live(c) && Holds(After(INITIAL, steps).PcOf(c))
    ensures var s := After(INITIAL, steps);
            s.file.Some? && s.file.value.whole && s.file.value.writer == c && s.file.value.pid == Some(s.clients[c].pid)
  {
    InvAfter(steps);
    assert ClientOk(After(INITIAL, steps), c);
  }

  /** The lock file disappears only by its writer's own hand, or when it protects nobody. */
  lemma OnlyOwnOrDeadIsUnlinked(steps: seq<Step>, step: Step)
    requires Legal(INITIAL, steps) && Enabled(After(INITIAL, steps), step)
    requires After(INITIAL, steps).file.Some? && Apply(After(INITIAL, steps), step).file.None?
    ensures var s := After(INITIAL, steps);
            || ((step.UnlinkOwn? || step.UnlinkUndo?) && s.file.value.writer == step.c)
            || (step.UnlinkOld? && Unprotected(s, s.file.value))
  {
    InvAfter(steps);
    assert step.UnlinkOwn? || step.UnlinkUndo? || step.UnlinkOld?;
    assert ClientOk(After(INITIAL, steps), step.c);
  }

  /** While its holder lives, the lock is judged busy, and the file of a slow creator is not even looked at. */
  lemma LiveHolderIsBusy(steps: seq<Step>, c: nat, holder: nat)
    requires Legal(INITIAL, steps) && Enabled(After(INITIAL, steps), Judge(c))
    requires var s := After(INITIAL, steps); s.Live(holder) && (Holds(s.PcOf(holder)) || s.PcOf(holder).Opened?)
    ensures Holds(After(INITIAL, steps).PcOf(holder)) && Apply(After(INITIAL, steps), Judge(c)).PcOf(c).Missed?
  {
    InvAfter(steps);
    var s := After(INITIAL, steps);
    assert ClientOk(s, c) && ClientOk(s, holder);
    if s.PcOf(holder).Opened? {
      InsideIsExclusive(s, c, holder);
    }
  }
}
