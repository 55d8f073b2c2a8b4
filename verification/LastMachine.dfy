/**
 withLastLock (src/claude/state.ts): the pid lock of last.json as a machine, its invariant, and the
 proof that every step keeps it.

 It never runs its body without the lock.  A client is one call; inodes are numbered in the order
 they are created, and an open descriptor keeps its inode's number from being used again.  Every
 file-system call is one step, the guard's calls included, and a process may die before any of them.
 */
module LastMachine {
  import opened Base
  import G = Guard

  // ---------- The text of the lock file ----------

  /**
   The pid a lock text names: `Number(text)` when that is a positive integer.  The texts
   that occur are prefixes of a pid's decimal digits, whole or with `!` over the first.
   */
  function ParsePid(text: string): Option<nat> {
    if text != [] && (forall i :: 0 <= i < |text| ==> IsDigit(text[i])) && Value(text) > 0
    then Some(Value(text))
    else None
  }

  /** The completion marker: `!` written over the first byte. */
  function MarkOver(text: string): string {
    if text == [] then "!" else "!" + text[1..]
  }

  lemma DigitsNameThePid(n: nat)
    ensures Value(Digits(n)) == n
    ensures n > 0 ==> ParsePid(Digits(n)) == Some(n)
  {
    DigitsReadBack(n);
  }

  /** A finished holder's text names no process. */
  lemma MarkedNamesNobody(text: string)
    ensures ParsePid(MarkOver(text)) == None
    ensures MarkOver(text) != [] && MarkOver(text)[0] == '!'
  {
    assert !IsDigit(MarkOver(text)[0]);
  }

  // ---------- The machine ----------

  const STALE_MS := 5000

  datatype File = File(text: string, mtime: nat)

  datatype Pc =
    | Waiting                                // between attempts
    | Trying(o: G.Owner)                     // a withLockMutation call is under way
    | Read(o: G.Owner, text: string)         // lastLockHeld read a non-empty text; liveness test pending
    | Empty(o: G.Owner)                      // lastLockHeld read an empty text; stat pending
    | Free(o: G.Owner)                       // not held; unlink pending
    | Unlinked(o: G.Owner)                   // open(wx) pending
    | Opened(o: G.Owner, ino: nat)           // lock file created; pid write pending
    | Undo(o: G.Owner, ino: nat)             // pid write failed; unlink pending
    | Missed(o: G.Owner)                     // fn returned undefined
    | Threw(o: G.Owner)                      // fn threw
    | Won(o: G.Owner, ino: nat)              // fn returned the descriptor
    | Body(ino: nat)                         // body running
    | Marking(ino: nat)                      // body returned or threw; marker pending
    | Pausing(ino: nat)                      // guarded removal pending
    | Cleaning(o: G.Owner, ino: nat)         // its withLockMutation call is under way
    | Same(o: G.Owner, ino: nat)             // the lock name still has our inode; unlink pending
    | Cleaned(o: G.Owner, ino: nat)          // fn returned
    | Ended

  datatype Client = Client(pid: nat, pc: Pc)

  datatype State = State(
    guard: G.State,
    attempts: map<G.Owner, nat>,
    clients: map<nat, Client>,
    path: Option<nat>,            // the inode the lock name refers to
    files: map<nat, File>,        // every inode created so far
    creators: map<nat, nat>,      // the client that created each inode
    now: nat)
  {
    predicate Live(c: nat) { c in clients && clients[c].pid !in guard.dead }

    function PcOf(c: nat): Pc { if c in clients then clients[c].pc else Ended }

    function At(c: nat, pc: Pc): State
      requires c in clients
    {
      this.(clients := clients[c := clients[c].(pc := pc)])
    }
  }

  datatype Step =
    | GuardStep(g: G.Step)
    | Arrive(c: nat, pid: nat)
    | Tick(ms: nat)
    | Begin(c: nat, o: G.Owner)
    | Return(c: nat)
    | EndAttempt(c: nat)
    | GiveUp(c: nat)
    | ReadLock(c: nat)
    | ReadError(c: nat)                    // unreadable for another reason: counts as held
    | JudgeText(c: nat)
    | StatEmpty(c: nat)
    | UnlinkOld(c: nat)
    | OpenNew(c: nat, ino: nat)
    | WritePid(c: nat, upTo: nat)
    | FnError(c: nat)                      // an error inside fn
    | UnlinkUndo(c: nat)
    | EndBody(c: nat)
    | Mark(c: nat)
    | MarkError(c: nat)
    | Compare(c: nat)
    | UnlinkOwn(c: nat)

  function Initial(): State {
    State(G.INITIAL, map[], map[], None, map[], map[], 0)
  }

  predicate Working(pc: Pc) {
    || pc.Read? || pc.Empty? || pc.Free? || pc.Unlinked? || pc.Opened? || pc.Undo? || pc.Same?
  }

  predicate Resulted(pc: Pc) {
    pc.Missed? || pc.Threw? || pc.Won? || pc.Cleaned?
  }

  predicate Attempting(pc: Pc) {
    pc.Trying? || pc.Cleaning? || Working(pc) || Resulted(pc)
  }

  predicate HasFd(pc: Pc) {
    || pc.Opened? || pc.Undo? || pc.Won? || pc.Body? || pc.Marking? || pc.Pausing? || pc.Cleaning? || pc.Same? || pc.Cleaned?
  }

  /** From the complete pid write to the end of the body. */
  predicate Holds(pc: Pc) {
    pc.Won? || pc.Body?
  }

  predicate Inside(s: State, c: nat) {
    Attempting(s.PcOf(c)) && s.guard.PcOf(s.PcOf(c).o) == G.Inside
  }

  /** The text names no live process: nobody is protected by it. */
  predicate Unheld(s: State, text: string) {
    text == [] || ParsePid(text) == None || ParsePid(text).value in s.guard.dead
  }

  predicate Enabled(s: State, step: Step) {
    match step
    case GuardStep(g) => !g.MakeCandidate? && !g.Return? && G.Enabled(s.guard, g)
    case Arrive(c, pid) => c !in s.clients && pid !in s.guard.dead && pid > 0
    case Tick(_) => true
    case Begin(c, o) =>
      && s.Live(c) && (s.PcOf(c).Waiting? || s.PcOf(c).Pausing?)
      && o.pid == s.clients[c].pid && o !in s.attempts && G.Enabled(s.guard, G.MakeCandidate(o))
    case Return(c) => s.Live(c) && Resulted(s.PcOf(c)) && G.Enabled(s.guard, G.Return(s.PcOf(c).o))
    case EndAttempt(c) => s.Live(c) && Attempting(s.PcOf(c)) && s.guard.PcOf(s.PcOf(c).o).Done?
                          && (Resulted(s.PcOf(c)) || s.guard.PcOf(s.PcOf(c).o) == G.Done(false))
    case GiveUp(c) => s.Live(c) && (s.PcOf(c).Waiting? || s.PcOf(c).Pausing?)
    case ReadLock(c) => s.Live(c) && s.PcOf(c).Trying? && Inside(s, c)
    case ReadError(c) => s.Live(c) && s.PcOf(c).Trying? && Inside(s, c)
    case JudgeText(c) => s.Live(c) && s.PcOf(c).Read?
    case StatEmpty(c) => s.Live(c) && s.PcOf(c).Empty?
    case UnlinkOld(c) => s.Live(c) && s.PcOf(c).Free?
    case OpenNew(c, ino) => s.Live(c) && s.PcOf(c).Unlinked? && ino !in s.files && ino !in s.creators
    case WritePid(c, upTo) => s.Live(c) && s.PcOf(c).Opened? && s.PcOf(c).ino in s.files
                              && |s.files[s.PcOf(c).ino].text| < upTo <= |Digits(s.clients[c].pid)|
    case FnError(c) => s.Live(c) && (s.PcOf(c).Free? || s.PcOf(c).Unlinked? || s.PcOf(c).Opened? || s.PcOf(c).Undo?)
    case UnlinkUndo(c) => s.Live(c) && s.PcOf(c).Undo?
    case EndBody(c) => s.Live(c) && s.PcOf(c).Body?
    case Mark(c) => s.Live(c) && s.PcOf(c).Marking? && s.PcOf(c).ino in s.files
    case MarkError(c) => s.Live(c) && s.PcOf(c).Marking?
    case Compare(c) => s.Live(c) && s.PcOf(c).Cleaning? && Inside(s, c)
    case UnlinkOwn(c) => s.Live(c) && s.PcOf(c).Same?
  }

  ghost function Apply(s: State, step: Step): State
    requires Enabled(s, step)
  {
    match step
    case GuardStep(g) => s.(guard := G.Apply(s.guard, g))
    case Arrive(c, pid) => s.(clients := s.clients[c := Client(pid, Waiting)])
    case Tick(ms) => s.(now := s.now + ms)
    case Begin(c, o) =>
      s.At(c, if s.PcOf(c).Waiting? then Trying(o) else Cleaning(o, s.PcOf(c).ino))
      .(guard := G.Apply(s.guard, G.MakeCandidate(o)), attempts := s.attempts[o := c])
    case Return(c) => s.(guard := G.Apply(s.guard, G.Return(s.PcOf(c).o)))
    case EndAttempt(c) => s.At(c, AfterAttempt(s.PcOf(c)))
    case GiveUp(c) => s.At(c, Ended)
    case ReadLock(c) =>
      var o := s.PcOf(c).o;
      if s.path.None? || s.path.value !in s.files then s.At(c, Free(o))
      else
        var text := s.files[s.path.value].text;
        s.At(c, if text == [] then Empty(o) else Read(o, text))
    case ReadError(c) => s.At(c, Missed(s.PcOf(c).o))
    case JudgeText(c) =>
      var pc := s.PcOf(c);
      s.At(c, if Unheld(s, pc.text) then Free(pc.o) else Missed(pc.o))
    case StatEmpty(c) =>
      var o := s.PcOf(c).o;
      if s.path.Some? && s.path.value in s.files && s.now - s.files[s.path.value].mtime <= STALE_MS
      then s.At(c, Missed(o)) else s.At(c, Free(o))
    case UnlinkOld(c) => s.At(c, Unlinked(s.PcOf(c).o)).(path := None)
    case OpenNew(c, ino) =>
      var o := s.PcOf(c).o;
      if s.path.Some? then s.At(c, Threw(o))
      else s.At(c, Opened(o, ino)).(path := Some(ino),
                                    files := s.files[ino := File("", s.now)],
                                    creators := s.creators[ino := c])
    case WritePid(c, upTo) =>
      var pc := s.PcOf(c);
      var text := Digits(s.clients[c].pid);
      s.At(c, if upTo == |text| then Won(pc.o, pc.ino) else pc).(files := s.files[pc.ino := File(text[..upTo], s.now)])
    case FnError(c) =>
      var pc := s.PcOf(c);
      s.At(c, if pc.Opened? then Undo(pc.o, pc.ino) else Threw(pc.o))
    case UnlinkUndo(c) => s.At(c, Threw(s.PcOf(c).o)).(path := None)
    case EndBody(c) => s.At(c, Marking(s.PcOf(c).ino))
    case Mark(c) =>
      var ino := s.PcOf(c).ino;
      s.At(c, Pausing(ino)).(files := s.files[ino := File(MarkOver(s.files[ino].text), s.now)])
    case MarkError(c) => s.At(c, Pausing(s.PcOf(c).ino))
    case Compare(c) =>
      var pc := s.PcOf(c);
      s.At(c, if s.path == Some(pc.ino) then Same(pc.o, pc.ino) else Cleaned(pc.o, pc.ino))
    case UnlinkOwn(c) => s.At(c, Cleaned(s.PcOf(c).o, s.PcOf(c).ino)).(path := None)
  }

  /** What a finished withLockMutation call leads to; the removal is tried once only. */
  function AfterAttempt(pc: Pc): Pc
    requires Attempting(pc)
  {
    match pc
    case Won(_, ino) => Body(ino)
    case Threw(_) | Cleaning(_, _) | Same(_, _) | Cleaned(_, _) => Ended
    case _ => Waiting
  }

  ghost predicate Legal(s: State, steps: seq<Step>)
    decreases |steps|
  {
    steps == [] || (Enabled(s, steps[0]) && Legal(Apply(s, steps[0]), steps[1..]))
  }

  ghost function After(s: State, steps: seq<Step>): State
    requires Legal(s, steps)
    decreases |steps|
  {
    if steps == [] then s else After(Apply(s, steps[0]), steps[1..])
  }

  // ---------- The invariant ----------

  /** The lock name refers to inode `ino`. */
  predicate Names(s: State, ino: nat) {
    s.path == Some(ino) && ino in s.files
  }

  ghost predicate ClientOk(s: State, c: nat) {
    var pc := s.PcOf(c);
    && (c in s.clients ==> s.clients[c].pid > 0)
    && (Attempting(pc) ==> pc.o in s.attempts && s.attempts[pc.o] == c && pc.o.pid == s.clients[c].pid)
    && (Working(pc) ==> s.guard.PcOf(pc.o) == G.Inside)
    && (HasFd(pc) ==> pc.ino in s.files && pc.ino in s.creators && s.creators[pc.ino] == c)
    && (s.Live(c) && (pc.Opened? || pc.Undo? || pc.Same? || Holds(pc)) ==> Names(s, pc.ino))
    && (s.Live(c) && Holds(pc) ==> s.files[pc.ino].text == Digits(s.clients[c].pid))
    && (s.Live(c) && pc.Read? ==>
          && s.path.Some? && s.path.value in s.files && pc.text != []
          && (s.files[s.path.value].text == pc.text || s.files[s.path.value].text == MarkOver(pc.text)))
    && (s.Live(c) && pc.Empty? ==>
          && s.path.Some? && s.path.value in s.files
          && (s.files[s.path.value].text == [] || s.files[s.path.value].text == MarkOver([])))
    && (s.Live(c) && pc.Free? ==>
          s.path.None? || (s.path.value in s.files && Unheld(s, s.files[s.path.value].text)))
    && (s.Live(c) && pc.Unlinked? ==> s.path.None?)
  }

  ghost predicate Inv(s: State) {
    && G.Inv(s.guard)
    && s.guard.pcs.Keys <= s.attempts.Keys
    && s.files.Keys == s.creators.Keys
    && (s.path.Some? ==> s.path.value in s.files)
    && (forall c :: ClientOk(s, c))
  }

  lemma InsideIsExclusive(s: State, a: nat, b: nat)
    requires Inv(s) && s.Live(a) && s.Live(b) && Inside(s, a) && Inside(s, b)
    ensures a == b
  {
    assert ClientOk(s, a) && ClientOk(s, b);
    var oa, ob := s.PcOf(a).o, s.PcOf(b).o;
    assert G.OwnerOk(s.guard, oa) && G.OwnerOk(s.guard, ob);
    assert oa in G.Dir({ob}).entries;
  }

  predicate IsClientStep(step: Step) {
    !step.GuardStep? && !step.Tick?
  }

  predicate IsAttemptStep(step: Step) {
    step.Begin? || step.Return? || step.EndAttempt? || step.GiveUp? || step.Arrive?
  }

  /** Steps of fn, all taken inside the guard. */
  predicate IsLockStep(step: Step) {
    || step.ReadLock? || step.ReadError? || step.JudgeText? || step.StatEmpty? || step.UnlinkOld? || step.OpenNew?
    || step.WritePid? || step.FnError? || step.UnlinkUndo? || step.Compare? || step.UnlinkOwn?
  }

  /** What happens at the guard without entering or leaving fn does not concern a client. */
  lemma GuardChangeKeepsClient(s: State, guard: G.State, c: nat)
    requires ClientOk(s, c) && s.guard.dead <= guard.dead
    requires Working(s.PcOf(c)) ==> guard.PcOf(s.PcOf(c).o) == G.Inside
    ensures ClientOk(s.(guard := guard), c)
  {
  }

  lemma GuardStepKeepsClient(s: State, g: G.Step, c: nat)
    requires ClientOk(s, c) && Enabled(s, GuardStep(g))
    ensures ClientOk(s.(guard := G.Apply(s.guard, g)), c)
  {
    if Working(s.PcOf(c)) {
      G.InsideStays(s.guard, g, s.PcOf(c).o);
    } else {
      G.InsideStays(s.guard, g, G.Owner(0, 0));
    }
    GuardChangeKeepsClient(s, G.Apply(s.guard, g), c);
  }

  /** The lock steps that only look. */
  predicate IsLook(step: Step) {
    step.ReadLock? || step.ReadError? || step.JudgeText? || step.StatEmpty? || step.Compare?
  }

  lemma ReadKeepsClient(s: State, c: nat)
    requires Enabled(s, ReadLock(c)) && ClientOk(s, c) && (s.path.Some? ==> s.path.value in s.files)
    ensures ClientOk(Apply(s, ReadLock(c)), c)
  {
    hide Value, Digits;
  }

  lemma JudgeKeepsClient(s: State, c: nat)
    requires Enabled(s, JudgeText(c)) && ClientOk(s, c)
    ensures ClientOk(Apply(s, JudgeText(c)), c)
  {
    hide Value, Digits;
    MarkedNamesNobody(s.PcOf(c).text);
  }

  lemma StatKeepsClient(s: State, c: nat)
    requires Enabled(s, StatEmpty(c)) && ClientOk(s, c)
    ensures ClientOk(Apply(s, StatEmpty(c)), c)
  {
    hide Value, Digits;
    MarkedNamesNobody([]);
  }

  lemma CompareKeepsClient(s: State, c: nat)
    requires Enabled(s, Compare(c)) && ClientOk(s, c)
    ensures ClientOk(Apply(s, Compare(c)), c)
  {
    hide Value, Digits;
  }

  lemma ReadErrorKeepsClient(s: State, c: nat)
    requires Enabled(s, ReadError(c)) && ClientOk(s, c)
    ensures ClientOk(Apply(s, ReadError(c)), c)
  {
    hide Value, Digits;
  }

  lemma OwnLookKeepsClient(s: State, step: Step)
    requires IsLook(step) && Enabled(s, step) && ClientOk(s, step.c) && (s.path.Some? ==> s.path.value in s.files)
    ensures ClientOk(Apply(s, step), step.c)
  {
    hide Apply, Enabled, ClientOk;
    match step
    case ReadLock(c) => ReadKeepsClient(s, c);
    case ReadError(c) => ReadErrorKeepsClient(s, c);
    case JudgeText(c) => JudgeKeepsClient(s, c);
    case StatEmpty(c) => StatKeepsClient(s, c);
    case Compare(c) => CompareKeepsClient(s, c);
  }

  lemma OwnLockStepKeepsClient(s: State, step: Step)
    requires IsLockStep(step) && !IsLook(step) && Enabled(s, step) && ClientOk(s, step.c)
    ensures ClientOk(Apply(s, step), step.c)
  {
    hide Value, Digits, G.Apply, G.Enabled;
  }

  lemma BeginKeepsClient(s: State, c: nat, o: G.Owner)
    requires Enabled(s, Begin(c, o)) && ClientOk(s, c)
    ensures ClientOk(Apply(s, Begin(c, o)), c)
  {
    hide Value, Digits, G.Apply, G.Enabled;
  }

  lemma ReturnKeepsClient(s: State, c: nat)
    requires Enabled(s, Return(c)) && ClientOk(s, c)
    ensures ClientOk(Apply(s, Return(c)), c)
  {
    hide Value, Digits;
  }

  lemma EndKeepsClient(s: State, c: nat)
    requires Enabled(s, EndAttempt(c)) && ClientOk(s, c)
    ensures ClientOk(Apply(s, EndAttempt(c)), c)
  {
    hide Value, Digits, G.Apply, G.Enabled;
  }

  lemma ComingAndGoing(s: State, step: Step)
    requires (step.Arrive? || step.GiveUp?) && Enabled(s, step) && ClientOk(s, step.c)
    ensures ClientOk(Apply(s, step), step.c)
  {
    hide Value, Digits, G.Apply, G.Enabled;
  }

  lemma OwnAttemptStepKeepsClient(s: State, step: Step)
    requires IsAttemptStep(step) && Enabled(s, step) && ClientOk(s, step.c)
    ensures ClientOk(Apply(s, step), step.c)
  {
    hide Apply, Enabled, ClientOk;
    match step
    case Begin(c, o) => BeginKeepsClient(s, c, o);
    case Return(c) => ReturnKeepsClient(s, c);
    case EndAttempt(c) => EndKeepsClient(s, c);
    case _ => ComingAndGoing(s, step);
  }

  lemma OwnStepKeepsClient(s: State, step: Step)
    requires Inv(s) && Enabled(s, step) && IsClientStep(step) && !IsLockStep(step) && !IsAttemptStep(step)
    ensures ClientOk(Apply(s, step), step.c)
  {
    assert ClientOk(s, step.c);
  }

  lemma OtherLookKeepsClient(s: State, step: Step, c: nat)
    requires IsLook(step) && Enabled(s, step) && step.c != c && ClientOk(s, c)
    ensures ClientOk(Apply(s, step), c)
  {
    hide Value, Digits, G.Apply, G.Enabled, G.Inv;
  }

  /** Two clients inside the guard would be one; a holder outside it is protected by the text of its lock. */
  lemma OtherLockStepKeepsClient(s: State, step: Step, c: nat)
    requires Inv(s) && Enabled(s, step) && IsLockStep(step) && !IsLook(step) && step.c != c
    ensures ClientOk(Apply(s, step), c)
  {
    hide Value, Digits, G.Apply, G.Enabled, G.Inv;
    assert ClientOk(s, c) && ClientOk(s, step.c);
    if s.Live(c) && Inside(s, c) {
      InsideIsExclusive(s, c, step.c);
    }
    if s.Live(c) {
      DigitsNameThePid(s.clients[c].pid);
    }
  }

  /** The only change outside the guard is a completion marker on the marker's own inode. */
  lemma OtherStepKeepsClient(s: State, step: Step, c: nat)
    requires IsClientStep(step) && !IsLockStep(step) && step.c != c && Enabled(s, step)
    requires ClientOk(s, c) && ClientOk(s, step.c) && s.guard.pcs.Keys <= s.attempts.Keys
    ensures ClientOk(Apply(s, step), c)
  {
    hide Value, Digits;
    if step.Mark? {
      MarkedNamesNobody(s.files[s.PcOf(step.c).ino].text);
      assert MarkOver(MarkOver(s.files[s.PcOf(step.c).ino].text)) == MarkOver(s.files[s.PcOf(step.c).ino].text);
    }
  }

  lemma StepKeepsGuard(s: State, step: Step)
    requires Inv(s) && Enabled(s, step)
    ensures var t := Apply(s, step);
            && G.Inv(t.guard)
            && t.guard.pcs.Keys <= t.attempts.Keys
            && t.files.Keys == t.creators.Keys
            && (t.path.Some? ==> t.path.value in t.files)
  {
    match step
    case GuardStep(g) => G.StepKeepsInv(s.guard, g);
    case Begin(_, o) => G.StepKeepsInv(s.guard, G.MakeCandidate(o));
    case Return(c) =>
      assert ClientOk(s, c);
      G.StepKeepsInv(s.guard, G.Return(s.PcOf(c).o));
    case Mark(c) => assert ClientOk(s, c);
    case WritePid(c, _) => assert ClientOk(s, c);
    case _ =>
  }

  lemma TickKeepsClient(s: State, ms: nat, c: nat)
    requires ClientOk(s, c)
    ensures ClientOk(Apply(s, Tick(ms)), c)
  {
  }

  lemma StepKeepsClient(s: State, step: Step, c: nat)
    requires Inv(s) && Enabled(s, step)
    ensures ClientOk(Apply(s, step), c)
  {
    hide ClientOk;
    assert ClientOk(s, c) && (IsClientStep(step) ==> ClientOk(s, step.c));
    if step.GuardStep? {
      GuardStepKeepsClient(s, step.g, c);
    } else if step.Tick? {
      TickKeepsClient(s, step.ms, c);
    } else if IsLockStep(step) {
      if c != step.c {
        if IsLook(step) {
          OtherLookKeepsClient(s, step, c);
        } else {
          OtherLockStepKeepsClient(s, step, c);
        }
      } else if IsLook(step) {
        OwnLookKeepsClient(s, step);
      } else {
        OwnLockStepKeepsClient(s, step);
      }
    } else if c != step.c {
      OtherStepKeepsClient(s, step, c);
    } else if IsAttemptStep(step) {
      OwnAttemptStepKeepsClient(s, step);
    } else {
      OwnStepKeepsClient(s, step);
    }
  }

  lemma StepKeepsInv(s: State, step: Step)
    requires Inv(s) && Enabled(s, step)
    ensures Inv(Apply(s, step))
  {
    StepKeepsGuard(s, step);
    forall c ensures ClientOk(Apply(s, step), c) {
      StepKeepsClient(s, step, c);
    }
  }

  lemma {:induction false} RunKeepsInv(s: State, steps: seq<Step>)
    requires Inv(s) && Legal(s, steps)
    ensures Inv(After(s, steps))
    decreases |steps|
  {
    if steps != [] {
      StepKeepsInv(s, steps[0]);
      RunKeepsInv(Apply(s, steps[0]), steps[1..]);
    }
  }

  lemma InitialInv()
    ensures Inv(Initial())
  {
    forall o ensures G.OwnerOk(G.INITIAL, o) {
    }
  }
}
