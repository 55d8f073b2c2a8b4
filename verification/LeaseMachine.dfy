/**
 withFileLock (src/claude/atomic.ts) around one read-modify-write of a file, as updateSession
 (src/claude/state.ts) and savePlanRecord (src/claude/hook.ts) use it: the machine, its invariant,
 and the proof that every step keeps it.

 A client is one call of withFileLock; its number stands for the random token of that call.  Every
 file-system call is one step, the guard's calls included, so a run is an arbitrary interleaving of
 clients, with crashes, errors and the degrade-to-unlocked path.
 */
module LeaseMachine {
  import opened Base
  import G = Guard

  /** The lock file; the token is absent between its creation and the token's write. */
  datatype LockFile = NoLock | Lock(token: Option<nat>, mtime: nat)

  datatype Pc =
    | Waiting                          // acquire: between attempts
    | Trying(o: G.Owner)               // acquire: a withLockMutation call is under way
    | Created(o: G.Owner)              // lock file created; token write pending
    | Discarding(o: G.Owner)           // token write failed; unlink of the new lock file pending
    | Threw(o: G.Owner)                // fn rethrew that failure
    | Inspecting(o: G.Owner)           // lock file exists; stat pending
    | Expired(o: G.Owner)              // older than staleMs; unlink pending
    | Missed(o: G.Owner)               // fn returned without the lock
    | Won(o: G.Owner, since: nat)      // fn returned the token
    | Body(locked: bool, since: nat)   // callback running; record not yet read
    | Update(locked: bool, since: nat, next: Bytes, tmp: Bytes) // temporary file holds tmp
    | Mirroring(locked: bool, since: nat) // record renamed into place; last.json pending
    | Finished(locked: bool)           // callback returned or threw
    | Pausing                          // release: between attempts
    | Releasing(o: G.Owner)            // release: a withLockMutation call is under way
    | Matched(o: G.Owner)              // lock file carries our token; unlink pending
    | Released(o: G.Owner)             // fn returned true
    | Ended

  datatype Client = Client(pid: nat, pc: Pc)

  /** One acquisition, and whether its holder's record reached the target name. */
  datatype Turn = Turn(client: nat, committed: bool)

  /** What a client writes for the record it read; None writes nothing. */
  type Mutation = (nat, Option<Bytes>) -> Option<Bytes>

  datatype Config = Config(staleMs: nat, mutate: Mutation, initial: Option<Bytes>)

  datatype State = State(
    guard: G.State,
    attempts: map<G.Owner, nat>,
    clients: map<nat, Client>,
    lock: LockFile,
    now: nat,
    record: Option<Bytes>,
    ledger: seq<Turn>)           // acquisitions in lock order
  {
    predicate Live(c: nat) { c in clients && clients[c].pid !in guard.dead }

    function PcOf(c: nat): Pc { if c in clients then clients[c].pc else Ended }

    /** A client that can take a step of its own. */
    predicate Acts(c: nat, pc: Pc) { Live(c) && clients[c].pc == pc }

    function At(c: nat, pc: Pc): State
      requires c in clients
    {
      this.(clients := clients[c := clients[c].(pc := pc)])
    }
  }

  datatype Step =
    | GuardStep(g: G.Step)
    | Arrive(c: nat, pid: nat)
    | Tick(ms: nat)
    | Begin(c: nat, o: G.Owner)
    | OpenLock(c: nat)
    | WriteToken(c: nat)
    | TokenError(c: nat)
    | Discard(c: nat)
    | StatLock(c: nat)
    | UnlinkExpired(c: nat)
    | ReadToken(c: nat)
    | UnlinkMatched(c: nat)
    | Return(c: nat)
    | EndAttempt(c: nat)
    | GiveUp(c: nat)               // timeout, attempts used up, or a bookkeeping error
    | ReadRecord(c: nat)
    | WriteTmp(c: nat, upTo: nat)  // one more chunk of the temporary file
    | Commit(c: nat)               // rename of the complete temporary file over the record
    | Throw(c: nat)                // the callback ends early, by an error at any point
    | Finish(c: nat)               // the callback returns

  function Initial(cfg: Config): State {
    State(G.INITIAL, map[], map[], NoLock, 0, cfg.initial, [])
  }

  /** Clients whose fn is at work inside the guard. */
  predicate Working(pc: Pc) {
    pc.Created? || pc.Discarding? || pc.Inspecting? || pc.Expired? || pc.Matched?
  }

  /** Clients whose fn has its result. */
  predicate Resulted(pc: Pc) {
    pc.Missed? || pc.Won? || pc.Threw? || pc.Released?
  }

  predicate Attempting(pc: Pc) {
    pc.Trying? || pc.Releasing? || Working(pc) || Resulted(pc)
  }

  /** Live holders are those that may still believe the lock is theirs. */
  predicate Holds(pc: Pc) {
    pc.Won? || ((pc.Body? || pc.Update? || pc.Mirroring?) && pc.locked)
  }

  predicate Inside(s: State, c: nat) {
    Attempting(s.PcOf(c)) && s.guard.PcOf(s.PcOf(c).o) == G.Inside
  }

  predicate Enabled(s: State, step: Step) {
    match step
    case GuardStep(g) => !g.MakeCandidate? && !g.Return? && G.Enabled(s.guard, g)
    case Arrive(c, pid) => c !in s.clients && pid !in s.guard.dead
    case Tick(_) => true
    case Begin(c, o) =>
      && s.Live(c) && (s.PcOf(c).Waiting? || s.PcOf(c).Pausing?)
      && o.pid == s.clients[c].pid && o !in s.attempts && G.Enabled(s.guard, G.MakeCandidate(o))
    case OpenLock(c) => s.Live(c) && s.PcOf(c).Trying? && Inside(s, c)
    case WriteToken(c) => s.Live(c) && s.PcOf(c).Created?
    case TokenError(c) => s.Live(c) && s.PcOf(c).Created?
    case Discard(c) => s.Live(c) && s.PcOf(c).Discarding?
    case StatLock(c) => s.Live(c) && s.PcOf(c).Inspecting?
    case UnlinkExpired(c) => s.Live(c) && s.PcOf(c).Expired?
    case ReadToken(c) => s.Live(c) && s.PcOf(c).Releasing? && Inside(s, c)
    case UnlinkMatched(c) => s.Live(c) && s.PcOf(c).Matched?
    case Return(c) => s.Live(c) && Resulted(s.PcOf(c)) && G.Enabled(s.guard, G.Return(s.PcOf(c).o))
    case EndAttempt(c) => s.Live(c) && Attempting(s.PcOf(c)) && s.guard.PcOf(s.PcOf(c).o).Done?
                          && (Resulted(s.PcOf(c)) || s.guard.PcOf(s.PcOf(c).o) == G.Done(false))
    case GiveUp(c) => s.Live(c) && (s.PcOf(c).Waiting? || s.PcOf(c).Pausing?)
    case ReadRecord(c) => s.Live(c) && s.PcOf(c).Body?
    case WriteTmp(c, upTo) => s.Live(c) && s.PcOf(c).Update? && |s.PcOf(c).tmp| < upTo <= |s.PcOf(c).next|
    case Commit(c) => s.Live(c) && s.PcOf(c).Update? && |s.PcOf(c).tmp| == |s.PcOf(c).next|
    case Throw(c) => s.Live(c) && (s.PcOf(c).Body? || s.PcOf(c).Update?)
    case Finish(c) => s.Live(c) && (s.PcOf(c).Mirroring? || s.PcOf(c).Finished?)
  }

  ghost function Apply(cfg: Config, s: State, step: Step): State
    requires Enabled(s, step)
  {
    match step
    case GuardStep(g) => s.(guard := G.Apply(s.guard, g))
    case Arrive(c, pid) => s.(clients := s.clients[c := Client(pid, Waiting)])
    case Tick(ms) => s.(now := s.now + ms)
    case Begin(c, o) =>
      s.At(c, if s.PcOf(c).Waiting? then Trying(o) else Releasing(o))
      .(guard := G.Apply(s.guard, G.MakeCandidate(o)), attempts := s.attempts[o := c])
    case OpenLock(c) =>
      var o := s.PcOf(c).o;
      if s.lock.NoLock? then s.At(c, Created(o)).(lock := Lock(None, s.now))
      else s.At(c, Inspecting(o))
    case WriteToken(c) =>
      s.At(c, Won(s.PcOf(c).o, s.now)).(lock := Lock(Some(c), s.now), ledger := s.ledger + [Turn(c, false)])
    case TokenError(c) => s.At(c, Discarding(s.PcOf(c).o))
    case Discard(c) => s.At(c, Threw(s.PcOf(c).o)).(lock := NoLock)
    case StatLock(c) =>
      var o := s.PcOf(c).o;
      if s.lock.Lock? && s.now - s.lock.mtime > cfg.staleMs then s.At(c, Expired(o))
      else s.At(c, Missed(o))
    case UnlinkExpired(c) => s.At(c, Missed(s.PcOf(c).o)).(lock := NoLock)
    case ReadToken(c) =>
      var o := s.PcOf(c).o;
      if s.lock.Lock? && s.lock.token == Some(c) then s.At(c, Matched(o)) else s.At(c, Released(o))
    case UnlinkMatched(c) => s.At(c, Released(s.PcOf(c).o)).(lock := NoLock)
    case Return(c) => s.(guard := G.Apply(s.guard, G.Return(s.PcOf(c).o)))
    case EndAttempt(c) => s.At(c, AfterAttempt(s.PcOf(c)))
    case GiveUp(c) => s.At(c, if s.PcOf(c).Waiting? then Body(false, s.now) else Ended)
    case ReadRecord(c) =>
      var pc := s.PcOf(c);
      var next := cfg.mutate(c, s.record);
      s.At(c, if next.Some? then Update(pc.locked, pc.since, next.value, []) else Finished(pc.locked))
    case WriteTmp(c, upTo) => s.At(c, s.PcOf(c).(tmp := s.PcOf(c).next[..upTo]))
    case Commit(c) =>
      var pc := s.PcOf(c);
      s.At(c, Mirroring(pc.locked, pc.since)).(
        record := Some(pc.tmp),
        ledger := Mark(s.ledger, c))
    case Throw(c) => s.At(c, Finished(s.PcOf(c).locked))
    case Finish(c) =>
      s.At(c, if s.PcOf(c).Mirroring? then Finished(s.PcOf(c).locked)
              else if s.PcOf(c).locked then Pausing else Ended)
  }

  /** Records that client c's write reached the record. */
  function Mark(ledger: seq<Turn>, c: nat): (r: seq<Turn>)
    ensures |r| == |ledger|
  {
    seq(|ledger|, i requires 0 <= i < |ledger| => if ledger[i].client == c then Turn(c, true) else ledger[i])
  }

  /** What a finished withLockMutation call leads to. */
  function AfterAttempt(pc: Pc): Pc
    requires Attempting(pc)
  {
    match pc
    case Won(_, since) => Body(true, since)
    case Threw(_) => Body(false, 0)
    case Released(_) => Ended
    case Releasing(_) | Matched(_) => Pausing
    case _ => Waiting
  }

  // ---------- Runs ----------

  ghost predicate Legal(cfg: Config, s: State, steps: seq<Step>)
    decreases |steps|
  {
    steps == [] || (Enabled(s, steps[0]) && Legal(cfg, Apply(cfg, s, steps[0]), steps[1..]))
  }

  ghost function After(cfg: Config, s: State, steps: seq<Step>): State
    requires Legal(cfg, s, steps)
    decreases |steps|
  {
    if steps == [] then s else After(cfg, Apply(cfg, s, steps[0]), steps[1..])
  }

  // ---------- What holds in every run ----------

  /** The part of a client's knowledge of the lock file that the guard protects. */
  ghost predicate ClientOk(cfg: Config, s: State, c: nat) {
    var pc := s.PcOf(c);
    && (Attempting(pc) ==> pc.o in s.attempts && s.attempts[pc.o] == c && pc.o.pid == s.clients[c].pid)
    && (Working(pc) ==> s.guard.PcOf(pc.o) == G.Inside)
    && (s.Live(c) && (pc.Created? || pc.Discarding?) ==> s.lock.Lock? && s.lock.token == None)
    && (s.Live(c) && pc.Expired? ==> s.lock.Lock? && s.now - s.lock.mtime > cfg.staleMs)
    && (s.Live(c) && pc.Matched? ==> s.lock.Lock? && s.lock.token == Some(c))
    && (pc.Update? ==> pc.tmp <= pc.next)
  }

  ghost predicate Inv(cfg: Config, s: State) {
    && G.Inv(s.guard)
    && s.guard.pcs.Keys <= s.attempts.Keys
    && (forall c :: ClientOk(cfg, s, c))
  }

  /** Two live clients inside the guard are the same client. */
  lemma InsideIsExclusive(cfg: Config, s: State, a: nat, b: nat)
    requires Inv(cfg, s) && s.Live(a) && s.Live(b) && Inside(s, a) && Inside(s, b)
    ensures a == b
  {
    assert ClientOk(cfg, s, a) && ClientOk(cfg, s, b);
    var oa, ob := s.PcOf(a).o, s.PcOf(b).o;
    assert G.OwnerOk(s.guard, oa) && G.OwnerOk(s.guard, ob);
    assert oa in G.Dir({ob}).entries;
  }

  predicate IsClientStep(step: Step) {
    !step.GuardStep? && !step.Tick?
  }

  /** What happens at the guard without entering or leaving fn does not concern a client. */
  lemma GuardChangeKeepsClient(cfg: Config, s: State, guard: G.State, c: nat)
    requires ClientOk(cfg, s, c) && s.guard.dead <= guard.dead
    requires Working(s.PcOf(c)) ==> guard.PcOf(s.PcOf(c).o) == G.Inside
    ensures ClientOk(cfg, s.(guard := guard), c)
  {
  }

  /** Steps on the lock file itself, all taken inside the guard. */
  predicate IsLockStep(step: Step) {
    || step.OpenLock? || step.WriteToken? || step.TokenError? || step.Discard?
    || step.StatLock? || step.UnlinkExpired? || step.ReadToken? || step.UnlinkMatched?
  }

  lemma OwnLockStepKeepsClient(cfg: Config, s: State, step: Step)
    requires Inv(cfg, s) && Enabled(s, step) && IsLockStep(step)
    ensures ClientOk(cfg, Apply(cfg, s, step), step.c)
  {
    assert ClientOk(cfg, s, step.c);
  }

  /** Steps that run or leave a withLockMutation call. */
  predicate IsAttemptStep(step: Step) {
    step.Begin? || step.Return? || step.EndAttempt? || step.GiveUp?
  }

  lemma OwnAttemptStepKeepsClient(cfg: Config, s: State, step: Step)
    requires Inv(cfg, s) && Enabled(s, step) && IsAttemptStep(step)
    ensures ClientOk(cfg, Apply(cfg, s, step), step.c)
  {
    assert ClientOk(cfg, s, step.c);
  }

  /** Another client's lock step keeps a client's part: only one of them can be inside the guard. */
  lemma OtherLockStepKeepsClient(cfg: Config, s: State, step: Step, c: nat)
    requires Inv(cfg, s) && Enabled(s, step) && IsLockStep(step) && step.c != c
    ensures ClientOk(cfg, Apply(cfg, s, step), c)
  {
    hide G.Apply, G.Enabled, G.Inv;
    assert ClientOk(cfg, s, c) && ClientOk(cfg, s, step.c);
    if s.Live(c) && Inside(s, c) && Inside(s, step.c) {
      InsideIsExclusive(cfg, s, c, step.c);
    }
  }

  lemma OtherStepKeepsClient(cfg: Config, s: State, step: Step, c: nat)
    requires Inv(cfg, s) && Enabled(s, step) && IsClientStep(step) && !IsLockStep(step) && step.c != c
    ensures ClientOk(cfg, Apply(cfg, s, step), c)
  {
    assert ClientOk(cfg, s, c) && ClientOk(cfg, s, step.c);
  }

  lemma StepKeepsGuard(cfg: Config, s: State, step: Step)
    requires Inv(cfg, s) && Enabled(s, step)
    ensures var t := Apply(cfg, s, step); G.Inv(t.guard) && t.guard.pcs.Keys <= t.attempts.Keys
  {
    match step
    case GuardStep(g) => G.StepKeepsInv(s.guard, g);
    case Begin(_, o) => G.StepKeepsInv(s.guard, G.MakeCandidate(o));
    case Return(c) =>
      assert ClientOk(cfg, s, c);
      G.StepKeepsInv(s.guard, G.Return(s.PcOf(c).o));
    case _ =>
  }

  lemma GuardOrTickKeepsClient(cfg: Config, s: State, step: Step, c: nat)
    requires (step.GuardStep? || step.Tick?) && Enabled(s, step) && ClientOk(cfg, s, c)
    ensures ClientOk(cfg, Apply(cfg, s, step), c)
  {
    hide G.Apply, G.Enabled;
    if step.GuardStep? {
      G.InsideStays(s.guard, step.g, if Working(s.PcOf(c)) then s.PcOf(c).o else G.Owner(0, 0));
    }
  }

  lemma OwnStepKeepsClient(cfg: Config, s: State, step: Step)
    requires IsClientStep(step) && !IsLockStep(step) && !IsAttemptStep(step) && ClientOk(cfg, s, step.c) && Enabled(s, step)
    ensures ClientOk(cfg, Apply(cfg, s, step), step.c)
  {
    hide G.Apply, G.Enabled;
  }

  lemma StepKeepsClient(cfg: Config, s: State, step: Step, c: nat)
    requires Inv(cfg, s) && Enabled(s, step)
    ensures ClientOk(cfg, Apply(cfg, s, step), c)
  {
    hide Apply, Enabled, ClientOk, G.Inv;
    assert ClientOk(cfg, s, c);
    if step.GuardStep? || step.Tick? {
      GuardOrTickKeepsClient(cfg, s, step, c);
    } else if IsLockStep(step) {
      if c == step.c {
        OwnLockStepKeepsClient(cfg, s, step);
      } else {
        OtherLockStepKeepsClient(cfg, s, step, c);
      }
    } else if c == step.c {
      if IsAttemptStep(step) {
        OwnAttemptStepKeepsClient(cfg, s, step);
      } else {
        OwnStepKeepsClient(cfg, s, step);
      }
    } else {
      OtherStepKeepsClient(cfg, s, step, c);
    }
  }

  lemma StepKeepsInv(cfg: Config, s: State, step: Step)
    requires Inv(cfg, s) && Enabled(s, step)
    ensures Inv(cfg, Apply(cfg, s, step))
  {
    StepKeepsGuard(cfg, s, step);
    forall c ensures ClientOk(cfg, Apply(cfg, s, step), c) {
      StepKeepsClient(cfg, s, step, c);
    }
  }

  lemma {:induction false} RunKeepsInv(cfg: Config, s: State, steps: seq<Step>)
    requires Inv(cfg, s) && Legal(cfg, s, steps)
    ensures Inv(cfg, After(cfg, s, steps))
    decreases |steps|
  {
    if steps != [] {
      StepKeepsInv(cfg, s, steps[0]);
      RunKeepsInv(cfg, Apply(cfg, s, steps[0]), steps[1..]);
    }
  }

  lemma InitialInv(cfg: Config)
    ensures Inv(cfg, Initial(cfg))
  {
    forall o ensures G.OwnerOk(G.INITIAL, o) {
    }
  }

  // ---------- Serializability ----------

  /** No callback runs unlocked, and no live holder has outlived the lease it took. */
  ghost predicate Timely(cfg: Config, s: State) {
    forall c :: s.Live(c) ==>
      && ((s.PcOf(c).Body? || s.PcOf(c).Update? || s.PcOf(c).Mirroring?) ==> s.PcOf(c).locked)
      && (Holds(s.PcOf(c)) ==> s.now <= s.PcOf(c).since + cfg.staleMs)
  }

  /** The record after the committed turns, each mutation applied to what the turns before it left. */
  ghost function Fold(cfg: Config, ledger: seq<Turn>): Option<Bytes> {
    if ledger == [] then cfg.initial
    else
      var last := ledger[|ledger| - 1];
      var before := Fold(cfg, ledger[..|ledger| - 1]);
      if last.committed then cfg.mutate(last.client, before) else before
  }

  /** Clients that have not taken the lock yet. */
  predicate Fresh(pc: Pc) {
    || pc.Waiting? || pc.Trying? || pc.Created? || pc.Discarding? || pc.Threw? || pc.Inspecting? || pc.Expired? || pc.Missed?
  }

  /** What a live holder knows: the lock is its own, its turn is the last, the record is as it read it. */
  ghost predicate HolderOk(cfg: Config, s: State, c: nat) {
    var pc := s.PcOf(c);
    && (s.Live(c) && Holds(pc) ==>
          && s.lock == Lock(Some(c), pc.since)
          && s.ledger != []
          && s.ledger[|s.ledger| - 1] == Turn(c, pc.Mirroring?)
          && forall i :: 0 <= i < |s.ledger| - 1 ==> s.ledger[i].client != c)
    && (s.Live(c) && pc.Update? ==> cfg.mutate(c, s.record) == Some(pc.next))
    && (c !in s.clients || Fresh(pc) ==> forall i :: 0 <= i < |s.ledger| ==> s.ledger[i].client != c)
  }

  /** Every committed turn did write: its mutation of what it read was a record. */
  ghost predicate Replayable(cfg: Config, ledger: seq<Turn>) {
    ledger == [] ||
    (var before := ledger[..|ledger| - 1];
     var last := ledger[|ledger| - 1];
     Replayable(cfg, before) && (last.committed ==> cfg.mutate(last.client, Fold(cfg, before)).Some?))
  }

  ghost predicate Serial(cfg: Config, s: State) {
    && Inv(cfg, s)
    && (forall c :: HolderOk(cfg, s, c))
    && s.record == Fold(cfg, s.ledger)
    && Replayable(cfg, s.ledger)
  }

  /** Two live holders are the same client. */
  lemma HolderIsExclusive(cfg: Config, s: State, a: nat, b: nat)
    requires Serial(cfg, s) && s.Live(a) && s.Live(b) && Holds(s.PcOf(a)) && Holds(s.PcOf(b))
    ensures a == b
  {
    assert HolderOk(cfg, s, a) && HolderOk(cfg, s, b);
  }

  /** A live holder's lock file survives every lock step of the others while its lease is fresh. */
  lemma OtherLockStepKeepsHolder(cfg: Config, s: State, step: Step, c: nat)
    requires Serial(cfg, s) && Timely(cfg, s) && Enabled(s, step) && IsLockStep(step) && step.c != c
    ensures HolderOk(cfg, Apply(cfg, s, step), c)
  {
    hide G.Apply, G.Enabled, G.Inv;
    assert HolderOk(cfg, s, c) && ClientOk(cfg, s, step.c);
  }

  lemma OwnLockStepKeepsHolder(cfg: Config, s: State, step: Step)
    requires Serial(cfg, s) && Timely(cfg, s) && Enabled(s, step) && IsLockStep(step)
    ensures HolderOk(cfg, Apply(cfg, s, step), step.c)
  {
    hide G.Apply, G.Enabled, G.Inv;
    assert HolderOk(cfg, s, step.c) && ClientOk(cfg, s, step.c);
  }

  lemma OwnAttemptStepKeepsHolder(cfg: Config, s: State, step: Step)
    requires Serial(cfg, s) && Timely(cfg, s) && Enabled(s, step) && IsAttemptStep(step)
    ensures HolderOk(cfg, Apply(cfg, s, step), step.c)
  {
    hide G.Apply, G.Enabled, G.Inv;
    assert HolderOk(cfg, s, step.c) && ClientOk(cfg, s, step.c);
  }

  lemma OwnStepKeepsHolder(cfg: Config, s: State, step: Step)
    requires Serial(cfg, s) && Timely(cfg, s) && Enabled(s, step)
    requires IsClientStep(step) && !IsLockStep(step) && !IsAttemptStep(step)
    ensures HolderOk(cfg, Apply(cfg, s, step), step.c)
  {
    assert HolderOk(cfg, s, step.c) && ClientOk(cfg, s, step.c);
  }

  /** Nobody else commits while a client holds the lock. */
  lemma OtherStepKeepsHolder(cfg: Config, s: State, step: Step, c: nat)
    requires Serial(cfg, s) && Timely(cfg, s) && Enabled(s, step) && IsClientStep(step) && !IsLockStep(step) && step.c != c
    ensures HolderOk(cfg, Apply(cfg, s, step), c)
  {
    assert HolderOk(cfg, s, c) && HolderOk(cfg, s, step.c);
  }

  lemma StepKeepsHolder(cfg: Config, s: State, step: Step, c: nat)
    requires Serial(cfg, s) && Timely(cfg, s) && Enabled(s, step)
    ensures HolderOk(cfg, Apply(cfg, s, step), c)
  {
    if !IsClientStep(step) {
      assert HolderOk(cfg, s, c);
    } else if IsLockStep(step) {
      if c == step.c {
        OwnLockStepKeepsHolder(cfg, s, step);
      } else {
        OtherLockStepKeepsHolder(cfg, s, step, c);
      }
    } else if c == step.c {
      if IsAttemptStep(step) {
        OwnAttemptStepKeepsHolder(cfg, s, step);
      } else {
        OwnStepKeepsHolder(cfg, s, step);
      }
    } else {
      OtherStepKeepsHolder(cfg, s, step, c);
    }
  }

  lemma MarkLast(ledger: seq<Turn>, c: nat)
    requires ledger != [] && ledger[|ledger| - 1].client == c
    requires forall i :: 0 <= i < |ledger| - 1 ==> ledger[i].client != c
    ensures Mark(ledger, c) == ledger[..|ledger| - 1] + [Turn(c, true)]
  {
  }

  /** A committed write extends the fold by exactly the holder's mutation. */
  lemma StepKeepsFold(cfg: Config, s: State, step: Step)
    requires Serial(cfg, s) && Timely(cfg, s) && Enabled(s, step)
    ensures var t := Apply(cfg, s, step); t.record == Fold(cfg, t.ledger) && Replayable(cfg, t.ledger)
  {
    var t := Apply(cfg, s, step);
    if step.Commit? {
      var c := step.c;
      assert HolderOk(cfg, s, c) && ClientOk(cfg, s, c);
      MarkLast(s.ledger, c);
      assert t.ledger[..|t.ledger| - 1] == s.ledger[..|s.ledger| - 1];
      assert s.PcOf(c).tmp == s.PcOf(c).next;
    } else if step.WriteToken? {
      assert t.ledger[..|t.ledger| - 1] == s.ledger;
    }
  }

  lemma StepKeepsSerial(cfg: Config, s: State, step: Step)
    requires Serial(cfg, s) && Timely(cfg, s) && Enabled(s, step)
    ensures Serial(cfg, Apply(cfg, s, step))
  {
    StepKeepsInv(cfg, s, step);
    StepKeepsFold(cfg, s, step);
    forall c ensures HolderOk(cfg, Apply(cfg, s, step), c) {
      StepKeepsHolder(cfg, s, step, c);
    }
  }

  /** Every state of the run before its last step is timely. */
  ghost predicate TimelyRun(cfg: Config, s: State, steps: seq<Step>)
    requires Legal(cfg, s, steps)
    decreases |steps|
  {
    steps == [] || (Timely(cfg, s) && TimelyRun(cfg, Apply(cfg, s, steps[0]), steps[1..]))
  }

  lemma {:induction false} RunKeepsSerial(cfg: Config, s: State, steps: seq<Step>)
    requires Legal(cfg, s, steps) && TimelyRun(cfg, s, steps) && Serial(cfg, s)
    ensures Serial(cfg, After(cfg, s, steps))
    decreases |steps|
  {
    if steps != [] {
      StepKeepsSerial(cfg, s, steps[0]);
      RunKeepsSerial(cfg, Apply(cfg, s, steps[0]), steps[1..]);
    }
  }
}
