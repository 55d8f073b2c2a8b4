/** How scripts/cursor-hooks.ts and scripts/cursor-plugin.ts rewrite hooks.json. */
module HookCommit {
  // They read, merge, and replace only if the bytes are still the ones that were merged.  The
  // last byte check and the rename are one step.

  import opened Base
  import opened HookEntries

  /** JSON.parse and JSON.stringify, as far as the merges see them. */
  datatype Codec = Codec(parse: string -> Option<Config>, render: Config -> string)

  /** Every object is read back as it was written; only objects are ever written. */
  ghost predicate RoundTrips(k: Codec) {
    forall c: Config :: c.Top? ==> k.parse(k.render(c)) == Some(c)
  }

  /** readHooksFile: a missing file is an empty config, an unparseable one a hard error. */
  function ReadConfig(k: Codec, raw: Option<string>): Option<Config> {
    if raw.None? then Some(Missing) else k.parse(raw.value)
  }

  /** The bytes an operation puts in place of `raw`; an operation that writes nothing leaves them. */
  function Replacement(k: Codec, op: Op, raw: Option<string>): Option<string> {
    match ReadConfig(k, raw)
    case None => raw
    case Some(c) =>
      match MergeOf(op, c)
      case Write(next) => Some(k.render(next))
      case _ => raw
  }

  datatype Outcome = Wrote | NothingToWrite | Unreadable | Malformed | Changed | Thrown

  /** How one merge of the bytes `raw` ends when nothing fails and nobody interferes. */
  function Verdict(k: Codec, op: Op, raw: Option<string>): Outcome {
    match ReadConfig(k, raw)
    case None => Unreadable
    case Some(c) =>
      match MergeOf(op, c)
      case Refused => Malformed
      case Keep(_) => NothingToWrite
      case Write(_) => Wrote
  }

  // ---------- Any number of installers and editors ----------

  datatype Event = Edited(raw: Option<string>) | Merged(op: Op)

  datatype Snapshot = Snapshot(op: Op, raw: Option<string>)

  datatype State = State(raw: Option<string>, snapshots: map<nat, Snapshot>, history: seq<Event>)

  datatype Step =
    | Edit(raw: Option<string>)   // somebody else replaces or removes the file
    | Read(i: nat, op: Op)        // installer i reads the bytes it will merge
    | Swap(i: nat)                // installer i's last byte check and rename

  predicate Enabled(s: State, step: Step) {
    step.Swap? ==> step.i in s.snapshots
  }

  function Apply(k: Codec, s: State, step: Step): State
    requires Enabled(s, step)
  {
    match step
    case Edit(raw) => s.(raw := raw, history := s.history + [Edited(raw)])
    case Read(i, op) => s.(snapshots := s.snapshots[i := Snapshot(op, s.raw)])
    case Swap(i) =>
      var snap := s.snapshots[i];
      var next := Replacement(k, snap.op, snap.raw);
      var done := s.(snapshots := s.snapshots - {i});
      if s.raw != snap.raw || Verdict(k, snap.op, snap.raw) != Wrote then done
      else done.(raw := next, history := s.history + [Merged(snap.op)])
  }

  ghost predicate Legal(k: Codec, s: State, steps: seq<Step>)
    decreases |steps|
  {
    steps == [] || (Enabled(s, steps[0]) && Legal(k, Apply(k, s, steps[0]), steps[1..]))
  }

  ghost function After(k: Codec, s: State, steps: seq<Step>): State
    requires Legal(k, s, steps)
    decreases |steps|
  {
    if steps == [] then s else After(k, Apply(k, s, steps[0]), steps[1..])
  }

  /** The file if every event had been one indivisible change, each operation merging what it replaces. */
  function Replay(k: Codec, raw: Option<string>, history: seq<Event>): Option<string> {
    if history == [] then raw
    else
      var before := Replay(k, raw, history[..|history| - 1]);
      match history[|history| - 1]
      case Edited(r) => r
      case Merged(op) => Replacement(k, op, before)
  }

  /**
   Commits are linearizable without any lock: the file is always what the edits and the
   committed operations give one after another, so no edit is replaced by an older snapshot.
   */
  lemma {:induction false} CommitsAreLinear(k: Codec, raw: Option<string>, s: State, steps: seq<Step>)
    requires Legal(k, s, steps) && s.raw == Replay(k, raw, s.history)
    ensures var t := After(k, s, steps); t.raw == Replay(k, raw, t.history)
    decreases |steps|
  {
    if steps != [] {
      var t := Apply(k, s, steps[0]);
      if t.history != s.history {
        assert t.history[..|t.history| - 1] == s.history;
      }
      CommitsAreLinear(k, raw, t, steps[1..]);
    }
  }

  /** An edit between an installer's read and its swap stands: the merge of the older bytes is dropped. */
  lemma EditStands(k: Codec, s: State, i: nat, op: Op, raw: Option<string>)
    requires raw != s.raw
    ensures var steps := [Read(i, op)] + ([Edit(raw)] + [Swap(i)]);
            && Legal(k, s, steps)
            && After(k, s, steps) == State(raw, s.snapshots - {i}, s.history + [Edited(raw)])
  {
    var read := s.(snapshots := s.snapshots[i := Snapshot(op, s.raw)]);
    var edited := read.(raw := raw, history := s.history + [Edited(raw)]);
    assert edited.snapshots - {i} == s.snapshots - {i};
    assert [Swap(i)][1..] == [] && ([Edit(raw)] + [Swap(i)])[1..] == [Swap(i)];
    assert ([Read(i, op)] + ([Edit(raw)] + [Swap(i)]))[1..] == [Edit(raw)] + [Swap(i)];
    var t := Apply(k, edited, Swap(i));
    assert Legal(k, edited, [Swap(i)]) && After(k, edited, [Swap(i)]) == After(k, t, []) == t;
    assert After(k, read, [Edit(raw)] + [Swap(i)]) == t;
  }

  function OpsOf(history: seq<Event>): seq<Op> {
    if history == [] then []
    else OpsOf(history[..|history| - 1])
         + match history[|history| - 1] case Merged(op) => [op] case Edited(_) => []
  }

  lemma {:induction false} RunOpsAppend(ops: seq<Op>, op: Op, c: Config)
    ensures RunOps(ops + [op], c) == Result(op, RunOps(ops, c))
  {
    if ops == [] {
      assert RunOps([op], c) == RunOps([op][1..], Result(op, c));
    } else {
      assert (ops + [op])[1..] == ops[1..] + [op];
      RunOpsAppend(ops[1..], op, Result(ops[0], c));
    }
  }

  /** With no editor in between, what was committed is the sequence of operations in commit order. */
  lemma {:induction false} CommitsRunTheOps(k: Codec, raw: Option<string>, c: Config, history: seq<Event>)
    requires RoundTrips(k) && ReadConfig(k, raw) == Some(c)
    requires forall i :: 0 <= i < |history| ==> history[i].Merged?
    ensures ReadConfig(k, Replay(k, raw, history)) == Some(RunOps(OpsOf(history), c))
  {
    if history != [] {
      var before := history[..|history| - 1];
      CommitsRunTheOps(k, raw, c, before);
      RunOpsAppend(OpsOf(before), history[|history| - 1].op, c);
    }
  }

  /** Operations read so far, and those committed, are of a kind; nobody else edited the file. */
  ghost predicate AllClean(s: State) {
    && (forall i :: i in s.snapshots ==> Clean(s.snapshots[i].op))
    && (forall j :: 0 <= j < |s.history| ==> s.history[j].Merged? && Clean(s.history[j].op))
  }

  ghost predicate CleanSteps(steps: seq<Step>) {
    forall i :: 0 <= i < |steps| ==> !steps[i].Edit? && (steps[i].Read? ==> Clean(steps[i].op))
  }

  lemma {:induction false} RunStaysClean(k: Codec, s: State, steps: seq<Step>)
    requires Legal(k, s, steps) && CleanSteps(steps) && AllClean(s)
    ensures AllClean(After(k, s, steps))
    decreases |steps|
  {
    if steps != [] {
      assert !steps[0].Edit? && (steps[0].Read? ==> Clean(steps[0].op));
      assert forall i :: 0 <= i < |steps[1..]| ==> steps[1..][i] == steps[i + 1];
      RunStaysClean(k, Apply(k, s, steps[0]), steps[1..]);
    }
  }

  lemma {:induction false} OpsAreClean(history: seq<Event>)
    requires forall j :: 0 <= j < |history| ==> history[j].Merged? && Clean(history[j].op)
    ensures forall j :: 0 <= j < |OpsOf(history)| ==> Clean(OpsOf(history)[j])
  {
    if history != [] {
      OpsAreClean(history[..|history| - 1]);
    }
  }

  /**
   Any interleaving of both installers' clean operations, with no other writer: the file holds
   everybody else's entries as they were, and of each installer exactly what its own committed
   operations, in commit order, leave: the entry of its last install, or none after its last remove.
   */
  lemma LastWordsStand(k: Codec, raw: Option<string>, c: Config, steps: seq<Step>)
    requires RoundTrips(k) && ReadConfig(k, raw) == Some(c) && Shapeable(c) && Separate(Entries(c))
    requires Legal(k, State(raw, map[], []), steps) && CleanSteps(steps)
    ensures var t := After(k, State(raw, map[], []), steps);
            var ops, now := OpsOf(t.history), ReadConfig(k, t.raw);
            && now.Some? && Shapeable(now.value)
            && Filter(OwnedByNeither, Entries(now.value)) == Filter(OwnedByNeither, Entries(c))
            && Mine(Pstack, Entries(now.value)) == Effect(Pstack, ops, Mine(Pstack, Entries(c)))
            && Mine(Planner, Entries(now.value)) == Effect(Planner, ops, Mine(Planner, Entries(c)))
  {
    var s := State(raw, map[], []);
    var t := After(k, s, steps);
    CommitsAreLinear(k, raw, s, steps);
    RunStaysClean(k, s, steps);
    CommitsRunTheOps(k, raw, c, t.history);
    OpsAreClean(t.history);
    AnySequence(OpsOf(t.history), c);
  }

  // ---------- One commit, with its attempts ----------

  const WRITE_ATTEMPTS := 3

  /** What other programs do to the file: edit number n, or nothing at that moment. */
  type Editors = nat -> Option<Option<string>>

  /** Where the file system fails in one attempt. */
  datatype Fault =
    | NoFault
    | ReadFault     // the file cannot be read for the merge
    | CheckFault    // it cannot be read for the first byte check, which counts as changed
    | TmpFault      // the temporary file cannot be written, or the file not read again
    | RenameFault   // the rename fails

  datatype World = World(edits: Editors, fault: nat -> Fault)

  function Moment(raw: Option<string>, e: Editors, n: nat): Option<string> {
    match e(n) case Some(r) => r case None => raw
  }

  /** The file after the first n moments if only the editors had touched it. */
  function Edits(raw: Option<string>, e: Editors, n: nat): Option<string> {
    if n == 0 then raw else Moment(Edits(raw, e, n - 1), e, n - 1)
  }

  datatype WriteEnd = Replaced | Stale | WriteThrew

  /** The two byte checks around the temporary file, and what fails between them. */
  function WriteEndOf(first: Option<string>, second: Option<string>, expected: Option<string>, fault: Fault): WriteEnd {
    if first != expected || fault == CheckFault then Stale
    else if fault == TmpFault then WriteThrew
    else if second != expected then Stale
    else if fault == RenameFault then WriteThrew
    else Replaced
  }

  datatype TurnEnd = Stops(outcome: Outcome, raw: Option<string>, moments: nat) | Again(raw: Option<string>)

  /** Attempt n over the bytes it finds. */
  function Turn(k: Codec, op: Op, w: World, raw: Option<string>, n: nat): TurnEnd {
    if w.fault(n) == ReadFault then Stops(Unreadable, raw, 2 * n)
    else if Verdict(k, op, raw) != Wrote then Stops(Verdict(k, op, raw), raw, 2 * n)
    else
      var first := Moment(raw, w.edits, 2 * n);
      var second := Moment(first, w.edits, 2 * n + 1);
      match WriteEndOf(first, second, raw, w.fault(n))
      case Replaced => Stops(Wrote, Replacement(k, op, raw), 2 * n + 2)
      case WriteThrew => Stops(Thrown, second, 2 * n + 2)
      case Stale => Again(second)
  }

  /** The commit from its n-th attempt: how it ends, the file it leaves, and the moments that passed. */
  function CommitFrom(k: Codec, op: Op, w: World, raw: Option<string>, n: nat): (Outcome, Option<string>, nat)
    decreases WRITE_ATTEMPTS - n
  {
    if n >= WRITE_ATTEMPTS then (Changed, raw, 2 * n)
    else
      match Turn(k, op, w, raw, n)
      case Stops(outcome, left, moments) => (outcome, left, moments)
      case Again(left) => CommitFrom(k, op, w, left, n + 1)
  }

  lemma CommitStep(k: Codec, op: Op, w: World, raw: Option<string>, n: nat)
    requires n <= WRITE_ATTEMPTS
    ensures var t := Turn(k, op, w, raw, n);
            CommitFrom(k, op, w, raw, n)
            == if n == WRITE_ATTEMPTS then (Changed, raw, 2 * n)
               else if t.Stops? then (t.outcome, t.raw, t.moments)
               else CommitFrom(k, op, w, t.raw, n + 1)
  {
  }

  /** The bytes found by attempt n, if no attempt before it wrote. */
  function Found(raw: Option<string>, w: World, n: nat): Option<string> { Edits(raw, w.edits, 2 * n) }

  predicate Tries(k: Codec, op: Op, w: World, raw: Option<string>, n: nat) {
    w.fault(n) != ReadFault && Verdict(k, op, Found(raw, w, n)) == Wrote
  }

  /** Attempt n has something to write, passes its byte checks as far as it gets, and the file system fails. */
  predicate Throws(k: Codec, op: Op, w: World, raw: Option<string>, n: nat) {
    && Tries(k, op, w, raw, n) && Edits(raw, w.edits, 2 * n + 1) == Found(raw, w, n)
    && (w.fault(n) == TmpFault || (w.fault(n) == RenameFault && Found(raw, w, n + 1) == Found(raw, w, n)))
  }

  /** Attempt n has something to write, and finds the bytes changed under it. */
  predicate Retries(k: Codec, op: Op, w: World, raw: Option<string>, n: nat) {
    && Tries(k, op, w, raw, n)
    && (|| w.fault(n) == CheckFault || Edits(raw, w.edits, 2 * n + 1) != Found(raw, w, n)
        || (w.fault(n) != TmpFault && Found(raw, w, n + 1) != Found(raw, w, n)))
  }

  /**
   An end is faithful to `unwritten`, the file as the editors left it: a write merged exactly those
   bytes, without one they stand, and a refused or needless merge is their own verdict.
   */
  predicate Faithful(k: Codec, op: Op, outcome: Outcome, left: Option<string>, unwritten: Option<string>) {
    && (outcome == Wrote ==> Verdict(k, op, unwritten) == Wrote && left == Replacement(k, op, unwritten))
    && (outcome != Wrote ==> left == unwritten)
    && (outcome in {NothingToWrite, Malformed} ==> Verdict(k, op, unwritten) == outcome)
  }

  /** What one attempt does, when none before it wrote. */
  lemma TurnAt(k: Codec, op: Op, w: World, raw: Option<string>, n: nat)
    ensures var t := Turn(k, op, w, Found(raw, w, n), n);
            && (t.Stops? ==>
                  && t.moments in {2 * n, 2 * n + 2} && t.outcome != Changed
                  && Faithful(k, op, t.outcome, t.raw, Edits(raw, w.edits, t.moments)))
            && (t.Again? ==> t.raw == Found(raw, w, n + 1))
            && (t.Again? <==> Retries(k, op, w, raw, n))
            && (t.Stops? && t.outcome == Thrown <==> Throws(k, op, w, raw, n))
  {
    hide MergeOf, Replacement;
    var at := Found(raw, w, n);
    assert Edits(raw, w.edits, 2 * n + 1) == Moment(at, w.edits, 2 * n);
    assert Found(raw, w, n + 1) == Moment(Moment(at, w.edits, 2 * n), w.edits, 2 * n + 1);
  }

  /** An attempt from n on throws, after attempts that all found the bytes changed. */
  ghost predicate ThrowsFrom(k: Codec, op: Op, w: World, raw: Option<string>, n: nat) {
    exists j :: n <= j < WRITE_ATTEMPTS && Throws(k, op, w, raw, j) && forall m :: n <= m < j ==> Retries(k, op, w, raw, m)
  }

  lemma OutOfAttempts(k: Codec, op: Op, w: World, raw: Option<string>)
    ensures var at := Found(raw, w, WRITE_ATTEMPTS);
            Faithful(k, op, Changed, at, Edits(raw, w.edits, 2 * WRITE_ATTEMPTS)) && !ThrowsFrom(k, op, w, raw, WRITE_ATTEMPTS)
  {
    hide Edits;
  }

  /**
   Whatever the editors do and wherever the file system fails: a write replaces exactly the bytes
   it merged, and without one the file is as the editors left it.
   */
  lemma {:induction false} CommitIsFaithful(k: Codec, op: Op, w: World, raw: Option<string>, n: nat)
    requires n <= WRITE_ATTEMPTS
    ensures var (outcome, left, moments) := CommitFrom(k, op, w, Found(raw, w, n), n);
            && moments <= 6 && (outcome == Changed ==> moments == 6)
            && Faithful(k, op, outcome, left, Edits(raw, w.edits, moments))
    decreases WRITE_ATTEMPTS - n
  {
    hide CommitFrom, Turn, Verdict, Replacement, Faithful, Throws, Retries, Edits, Found, Moment;
    CommitStep(k, op, w, Found(raw, w, n), n);
    if n == WRITE_ATTEMPTS {
      OutOfAttempts(k, op, w, raw);
    } else {
      TurnAt(k, op, w, raw, n);
      if Turn(k, op, w, Found(raw, w, n), n).Again? {
        CommitIsFaithful(k, op, w, raw, n + 1);
      }
    }
  }

  /** A commit throws exactly when one of its attempts does and every attempt before it found the bytes changed. */
  lemma {:induction false} CommitThrowsIff(k: Codec, op: Op, w: World, raw: Option<string>, n: nat)
    requires n <= WRITE_ATTEMPTS
    ensures CommitFrom(k, op, w, Found(raw, w, n), n).0 == Thrown <==> ThrowsFrom(k, op, w, raw, n)
    decreases WRITE_ATTEMPTS - n
  {
    hide CommitFrom, Turn, Verdict, Replacement, Faithful, Throws, Retries, ThrowsFrom, Edits, Found, Moment;
    CommitStep(k, op, w, Found(raw, w, n), n);
    if n == WRITE_ATTEMPTS {
      OutOfAttempts(k, op, w, raw);
    } else {
      TurnAt(k, op, w, raw, n);
      CommitThrowsIff(k, op, w, raw, n + 1);
      ThrowsStep(k, op, w, raw, n);
    }
  }

  lemma ThrowsStep(k: Codec, op: Op, w: World, raw: Option<string>, n: nat)
    requires n < WRITE_ATTEMPTS
    ensures ThrowsFrom(k, op, w, raw, n) <==>
            Throws(k, op, w, raw, n) || (Retries(k, op, w, raw, n) && ThrowsFrom(k, op, w, raw, n + 1))
  {
    hide Throws, Retries;
    if ThrowsFrom(k, op, w, raw, n) && !Throws(k, op, w, raw, n) {
      var j :| n <= j < WRITE_ATTEMPTS && Throws(k, op, w, raw, j) && forall m :: n <= m < j ==> Retries(k, op, w, raw, m);
      assert n < j && Retries(k, op, w, raw, n);
    }
    if Retries(k, op, w, raw, n) && ThrowsFrom(k, op, w, raw, n + 1) {
      var j :| n + 1 <= j < WRITE_ATTEMPTS && Throws(k, op, w, raw, j) && forall m :: n + 1 <= m < j ==> Retries(k, op, w, raw, m);
      assert forall m :: n <= m < j ==> Retries(k, op, w, raw, m);
    }
  }

  // ---------- A commit is a run of the machine ----------

  /** The installer a step belongs to, if any. */
  predicate IsOf(step: Step, i: nat) { !step.Edit? && step.i == i }

  lemma {:induction false} LegalAppend(k: Codec, s: State, a: seq<Step>, b: seq<Step>)
    requires Legal(k, s, a) && Legal(k, After(k, s, a), b)
    ensures Legal(k, s, a + b) && After(k, s, a + b) == After(k, After(k, s, a), b)
    decreases |a|
  {
    if a == [] {
      assert a + b == b;
    } else {
      assert (a + b)[1..] == a[1..] + b;
      LegalAppend(k, Apply(k, s, a[0]), a[1..], b);
    }
  }

  /** Steps of others in a gap of installer i's commit, which give the file its next moment. */
  ghost predicate Gap(k: Codec, s: State, i: nat, steps: seq<Step>, e: Editors, n: nat) {
    && Legal(k, s, steps) && (forall j :: 0 <= j < |steps| ==> !IsOf(steps[j], i))
    && After(k, s, steps).raw == Moment(s.raw, e, n)
  }

  lemma {:induction false} GapKeepsSnapshot(k: Codec, s: State, i: nat, steps: seq<Step>)
    requires Legal(k, s, steps) && (forall j :: 0 <= j < |steps| ==> !IsOf(steps[j], i)) && i in s.snapshots
    ensures i in After(k, s, steps).snapshots && After(k, s, steps).snapshots[i] == s.snapshots[i]
    decreases |steps|
  {
    if steps != [] {
      assert !IsOf(steps[0], i);
      GapKeepsSnapshot(k, Apply(k, s, steps[0]), i, steps[1..]);
    }
  }

  /** Attempt n as a run: the read, what the others do in the two gaps, and the swap if it gets there. */
  function AttemptSteps(k: Codec, op: Op, w: World, i: nat, raw: Option<string>, n: nat, others: nat -> seq<Step>): seq<Step> {
    if w.fault(n) == ReadFault then []
    else if Verdict(k, op, raw) != Wrote then [Read(i, op)]
    else
      var t := Turn(k, op, w, raw, n);
      [Read(i, op)] + others(2 * n) + others(2 * n + 1) + if t.Stops? && t.outcome == Wrote then [Swap(i)] else []
  }

  function CommitSteps(k: Codec, op: Op, w: World, i: nat, raw: Option<string>, n: nat, others: nat -> seq<Step>): seq<Step>
    decreases WRITE_ATTEMPTS - n
  {
    if n >= WRITE_ATTEMPTS then []
    else
      var t := Turn(k, op, w, raw, n);
      AttemptSteps(k, op, w, i, raw, n, others) + if t.Again? then CommitSteps(k, op, w, i, t.raw, n + 1, others) else []
  }

  /** The others' steps of attempt n are possible where they come, and the world is what they make of the file. */
  ghost predicate AttemptFits(k: Codec, op: Op, w: World, i: nat, s: State, n: nat, others: nat -> seq<Step>) {
    w.fault(n) == ReadFault || Verdict(k, op, s.raw) != Wrote ||
    var read := Apply(k, s, Read(i, op));
    Gap(k, read, i, others(2 * n), w.edits, 2 * n)
    && Gap(k, After(k, read, others(2 * n)), i, others(2 * n + 1), w.edits, 2 * n + 1)
  }

  ghost predicate Fits(k: Codec, op: Op, w: World, i: nat, s: State, n: nat, others: nat -> seq<Step>)
    decreases WRITE_ATTEMPTS - n
  {
    n >= WRITE_ATTEMPTS ||
    (&& AttemptFits(k, op, w, i, s, n, others)
     && var steps := AttemptSteps(k, op, w, i, s.raw, n, others);
        Turn(k, op, w, s.raw, n).Again? && Legal(k, s, steps) ==> Fits(k, op, w, i, After(k, s, steps), n + 1, others))
  }

  /** The last event is this operation's commit. */
  ghost predicate EndsWith(history: seq<Event>, op: Op) {
    history != [] && history[|history| - 1] == Merged(op)
  }

  lemma AttemptIsARun(k: Codec, op: Op, w: World, i: nat, s: State, n: nat, others: nat -> seq<Step>)
    requires AttemptFits(k, op, w, i, s, n, others)
    ensures var steps, t := AttemptSteps(k, op, w, i, s.raw, n, others), Turn(k, op, w, s.raw, n);
            && Legal(k, s, steps) && After(k, s, steps).raw == t.raw
            && (t.Stops? && t.outcome == Wrote ==> EndsWith(After(k, s, steps).history, op))
  {
    if w.fault(n) != ReadFault && Verdict(k, op, s.raw) == Wrote {
      var read := Apply(k, s, Read(i, op));
      var first := After(k, read, others(2 * n));
      var second := After(k, first, others(2 * n + 1));
      GapKeepsSnapshot(k, read, i, others(2 * n));
      GapKeepsSnapshot(k, first, i, others(2 * n + 1));
      var t := Turn(k, op, w, s.raw, n);
      var swap := if t.Stops? && t.outcome == Wrote then [Swap(i)] else [];
      LegalAppend(k, s, [Read(i, op)], others(2 * n));
      LegalAppend(k, s, [Read(i, op)] + others(2 * n), others(2 * n + 1));
      LegalAppend(k, s, [Read(i, op)] + others(2 * n) + others(2 * n + 1), swap);
    }
  }

  /**
   A commit is a run of the machine, whatever steps of other installers and editors come between its
   own: it ends with the file the loop leaves, and with its own operation as the last event when the
   loop says that it wrote.
   */
  lemma {:induction false} CommitIsARun(k: Codec, op: Op, w: World, i: nat, s: State, n: nat, others: nat -> seq<Step>)
    requires n <= WRITE_ATTEMPTS && Fits(k, op, w, i, s, n, others)
    ensures var steps, (outcome, left, _) := CommitSteps(k, op, w, i, s.raw, n, others), CommitFrom(k, op, w, s.raw, n);
            && Legal(k, s, steps) && After(k, s, steps).raw == left
            && (outcome == Wrote ==> EndsWith(After(k, s, steps).history, op))
    decreases WRITE_ATTEMPTS - n
  {
    CommitStep(k, op, w, s.raw, n);
    if n < WRITE_ATTEMPTS {
      AttemptIsARun(k, op, w, i, s, n, others);
      var steps, t := AttemptSteps(k, op, w, i, s.raw, n, others), Turn(k, op, w, s.raw, n);
      if t.Again? {
        CommitIsARun(k, op, w, i, After(k, s, steps), n + 1, others);
        LegalAppend(k, s, steps, CommitSteps(k, op, w, i, t.raw, n + 1, others));
      } else {
        assert steps + [] == steps;
      }
    }
  }

  lemma {:induction false} EffectOfLast(who: Installer, ops: seq<Op>, op: Op, mine: seq<Entry>)
    ensures Effect(who, ops + [op], mine) ==
            if op.who != who then Effect(who, ops, mine) else if op.Install? then [op.wanted] else []
  {
    if ops != [] {
      assert (ops + [op])[1..] == ops[1..] + [op];
      EffectOfLast(who, ops[1..], op, if ops[0].who != who then mine else if ops[0].Install? then [ops[0].wanted] else []);
    }
  }

  lemma CommitStepsAreClean(k: Codec, op: Op, w: World, i: nat, raw: Option<string>, n: nat, others: nat -> seq<Step>)
    requires Clean(op) && forall m :: CleanSteps(others(m))
    ensures CleanSteps(CommitSteps(k, op, w, i, raw, n, others))
    decreases WRITE_ATTEMPTS - n
  {
    hide Turn, Verdict;
    if n < WRITE_ATTEMPTS && Turn(k, op, w, raw, n).Again? {
      CommitStepsAreClean(k, op, w, i, Turn(k, op, w, raw, n).raw, n + 1, others);
    }
  }

  /**
   The loop's last word: after any run of both installers' clean operations, a commit whose gaps are
   filled with any more of them and which says that it wrote leaves its installer with exactly the
   entry it installed, or none, and everybody else's entries as they were before all of them.
   */
  lemma LoopHasLastWord(k: Codec, raw: Option<string>, c: Config, pre: seq<Step>, op: Op, w: World, i: nat,
                        others: nat -> seq<Step>)
    requires RoundTrips(k) && ReadConfig(k, raw) == Some(c) && Shapeable(c) && Separate(Entries(c))
    requires Legal(k, State(raw, map[], []), pre) && CleanSteps(pre) && Clean(op) && forall m :: CleanSteps(others(m))
    requires Fits(k, op, w, i, After(k, State(raw, map[], []), pre), 0, others)
    ensures var (outcome, left, _) := CommitFrom(k, op, w, After(k, State(raw, map[], []), pre).raw, 0);
            var now := ReadConfig(k, left);
            && now.Some? && Shapeable(now.value)
            && Filter(OwnedByNeither, Entries(now.value)) == Filter(OwnedByNeither, Entries(c))
            && (outcome == Wrote ==> Mine(op.who, Entries(now.value)) == if op.Install? then [op.wanted] else [])
  {
    hide CommitFrom, CommitSteps, Fits, Legal, After, Filter, Mine, Shapeable, Separate, RoundTrips, ReadConfig, Clean, Entries;
    var start := State(raw, map[], []);
    var s := After(k, start, pre);
    var steps := CommitSteps(k, op, w, i, s.raw, 0, others);
    CommitIsARun(k, op, w, i, s, 0, others);
    CommitStepsAreClean(k, op, w, i, s.raw, 0, others);
    LegalAppend(k, start, pre, steps);
    LastWordsStand(k, raw, c, pre + steps);
    var t := After(k, start, pre + steps);
    if CommitFrom(k, op, w, s.raw, 0).0 == Wrote {
      var before := OpsOf(t.history[..|t.history| - 1]);
      assert OpsOf(t.history) == before + [op];
      EffectOfLast(Pstack, before, op, Mine(Pstack, Entries(c)));
      EffectOfLast(Planner, before, op, Mine(Planner, Entries(c)));
    }
  }

  // ---------- An install: the staged script and the entry ----------

  datatype InstallEnd = Installed | Failed | Threw

  /** The files of one Cursor directory: hooks.json, the staged script, and the planner's root file. */
  datatype Disk = Disk(raw: Option<string>, hook: Option<Bytes>, root: Option<Bytes>)

  /** What happens around one install. */
  datatype Setting = Setting(
    preview: Fault,                                       // while the file is read before anything is staged
    between: Option<Option<string>>,                      // an edit between that and the commit
    staging: Option<(Option<Bytes>, Option<Bytes>)>,      // what a failed copy leaves staged
    commit: World,
    restore: Option<(Option<Bytes>, Option<Bytes>)>)      // what a failed restore leaves staged

  /** A file that cannot be read or shaped is refused before anything is staged. */
  predicate Previews(k: Codec, op: Op, w: Setting, raw: Option<string>) {
    w.preview != ReadFault && Verdict(k, op, raw) in {Wrote, NothingToWrite}
  }

  function AfterPreview(w: Setting, raw: Option<string>): Option<string> {
    if w.between.Some? then w.between.value else raw
  }

  predicate Committed(o: Outcome) { o == Wrote || o == NothingToWrite }

  function Restored(w: Setting, d: Disk, raw: Option<string>): Disk {
    match w.restore
    case None => d.(raw := raw)
    case Some(left) => Disk(raw, left.0, left.1)
  }

  /** The install path of cursor-hooks.ts; its root file is not touched. */
  function PstackInstall(k: Codec, op: Op, source: Bytes, w: Setting, d: Disk): (InstallEnd, Disk) {
    if !Previews(k, op, w, d.raw) then (Failed, d)
    else
      var raw := AfterPreview(w, d.raw);
      if w.staging.Some? then (Threw, Restored(w, d, raw).(root := d.root))
      else
        var (outcome, left, _) := CommitFrom(k, op, w.commit, raw, 0);
        if Committed(outcome) then (Installed, Disk(left, Some(source), d.root))
        else if outcome == Thrown then (Threw, Disk(left, Some(source), d.root))
        else (if w.restore.Some? then Threw else Failed, Restored(w, d, left).(root := d.root))
  }

  /** The install path of cursor-plugin.ts: every failure restores, and a failing restore is only logged. */
  function PlannerInstall(k: Codec, op: Op, source: Bytes, rootText: Bytes, w: Setting, d: Disk): (InstallEnd, Disk) {
    if !Previews(k, op, w, d.raw) then (Failed, d)
    else
      var raw := AfterPreview(w, d.raw);
      if w.staging.Some? then (Failed, Restored(w, d, raw))
      else
        var (outcome, left, _) := CommitFrom(k, op, w.commit, raw, 0);
        if Committed(outcome) then (Installed, Disk(left, Some(source), Some(rootText)))
        else (Failed, Restored(w, d, left))
  }

  class CursorDir {
    var raw: Option<string>
    var hook: Option<Bytes>
    var root: Option<Bytes>

    function Model(): Disk
      reads this
    {
      Disk(raw, hook, root)
    }

    constructor (d: Disk)
      ensures Model() == d
    {
      raw, hook, root := d.raw, d.hook, d.root;
    }

    /** A moment at which another program may replace the file. */
    method Interfere(e: Editors, n: nat)
      modifies this`raw
      ensures raw == Moment(old(raw), e, n)
    {
      match e(n)
      case Some(r) => raw := r;
      case None =>
    }

    /** writeHooksFile: one byte check, the temporary file, a second check and the rename. */
    method WriteIfUnchanged(text: string, expected: Option<string>, e: Editors, n: nat, fault: Fault) returns (end: WriteEnd)
      modifies this`raw
      ensures var later := Moment(old(raw), e, n);
              && (end == Replaced <==> old(raw) == expected == later && fault in {NoFault, ReadFault})
              && (end == WriteThrew <==>
                  old(raw) == expected && (fault == TmpFault || (fault == RenameFault && later == expected)))
              && raw == if end == Replaced then Some(text) else later
    {
      if raw != expected || fault == CheckFault {
        Interfere(e, n);
        return Stale;
      }
      if fault == TmpFault {
        Interfere(e, n);
        return WriteThrew;
      }
      Interfere(e, n);
      if raw != expected {
        return Stale;
      }
      if fault == RenameFault {
        return WriteThrew;
      }
      raw := Some(text);
      end := Replaced;
    }

    /** commitHooks: at most three rounds of read, merge and checked write. */
    method Commit(k: Codec, op: Op, w: World) returns (outcome: Outcome, moments: nat)
      modifies this`raw
      ensures (outcome, raw, moments) == CommitFrom(k, op, w, old(raw), 0)
    {
      hide CommitFrom, MergeOf, Moment, ReadConfig;
      moments := 0;
      var attempt := 0;
      while attempt < WRITE_ATTEMPTS
        invariant 0 <= attempt <= WRITE_ATTEMPTS && moments == 2 * attempt
        invariant CommitFrom(k, op, w, raw, attempt) == CommitFrom(k, op, w, old(raw), 0)
      {
        CommitStep(k, op, w, raw, attempt);
        if w.fault(attempt) == ReadFault {
          return Unreadable, moments;
        }
        var seen := raw;
        var config := ReadConfig(k, seen);
        if config.None? {
          return Unreadable, moments;
        }
        match MergeOf(op, config.value)
        case Refused => return Malformed, moments;
        case Keep(_) => return NothingToWrite, moments;
        case Write(next) =>
          Interfere(w.edits, moments);
          var end := WriteIfUnchanged(k.render(next), seen, w.edits, moments + 1, w.fault(attempt));
          moments := moments + 2;
          attempt := attempt + 1;
          match end
          case Replaced => return Wrote, moments;
          case WriteThrew => return Thrown, moments;
          case Stale =>
      }
      CommitStep(k, op, w, raw, attempt);
      outcome := Changed;
    }

    /** install of cursor-hooks.ts, under its lock. */
    method InstallPstack(k: Codec, op: Op, source: Bytes, w: Setting) returns (end: InstallEnd)
      modifies this
      ensures (end, Model()) == PstackInstall(k, op, source, w, old(Model()))
    {
      if !Previews(k, op, w, raw) {
        return Failed;
      }
      var previous := hook;
      raw := AfterPreview(w, raw);
      if w.staging.Some? {
        hook := w.staging.value.0;
        hook := if w.restore.Some? then w.restore.value.0 else previous;
        return Threw;
      }
      hook := Some(source);
      var outcome, _ := Commit(k, op, w.commit);
      match outcome
      case Thrown => return Threw;
      case Wrote | NothingToWrite => return Installed;
      case _ =>
        hook := if w.restore.Some? then w.restore.value.0 else previous;
        end := if w.restore.Some? then Threw else Failed;
    }

    /** install of cursor-plugin.ts, under the same lock. */
    method InstallPlanner(k: Codec, op: Op, source: Bytes, rootText: Bytes, w: Setting) returns (end: InstallEnd)
      modifies this
      ensures (end, Model()) == PlannerInstall(k, op, source, rootText, w, old(Model()))
    {
      if !Previews(k, op, w, raw) {
        return Failed;
      }
      var previousHook, previousRoot := hook, root;
      raw := AfterPreview(w, raw);
      if w.staging.Some? {
        hook, root := w.staging.value.0, w.staging.value.1;
      } else {
        hook, root := Some(source), Some(rootText);
        var outcome, _ := Commit(k, op, w.commit);
        if Committed(outcome) {
          return Installed;
        }
      }
      hook, root := previousHook, previousRoot;
      if w.restore.Some? {
        hook, root := w.restore.value.0, w.restore.value.1;
      }
      end := Failed;
    }
  }

  // ---------- What an install leaves ----------

  /** An install that says so left its script staged and its entry current: doing it again would write nothing. */
  lemma InstalledIsRegistered(k: Codec, op: Op, source: Bytes, rootText: Bytes, w: Setting, d: Disk)
    requires RoundTrips(k) && op.Install? && Owned(op.who, op.wanted)
    ensures var (end, left) := PstackInstall(k, op, source, w, d);
            end == Installed ==> left.hook == Some(source) && Verdict(k, op, left.raw) == NothingToWrite
    ensures var (end, left) := PlannerInstall(k, op, source, rootText, w, d);
            end == Installed ==>
              left.hook == Some(source) && left.root == Some(rootText) && Verdict(k, op, left.raw) == NothingToWrite
  {
    var raw := AfterPreview(w, d.raw);
    var (outcome, left, moments) := CommitFrom(k, op, w.commit, raw, 0);
    CommitIsFaithful(k, op, w.commit, raw, 0);
    if outcome == Wrote {
      var unwritten := Edits(raw, w.commit.edits, moments);
      var c := ReadConfig(k, unwritten).value;
      RepeatWritesNothing(op, c);
      assert ReadConfig(k, left) == Some(Result(op, c));
    }
  }

  /**
   An install succeeds exactly when the file can be read and shaped beforehand, the staging works, and
   the commit wrote or had nothing to write; the pstack installer never touches the planner's root file.
   */
  lemma InstalledIff(k: Codec, op: Op, source: Bytes, rootText: Bytes, w: Setting, d: Disk)
    ensures var config, outcome := ReadConfig(k, d.raw), CommitFrom(k, op, w.commit, AfterPreview(w, d.raw), 0).0;
            var succeeds := && w.preview != ReadFault && config.Some? && Shapeable(config.value) && w.staging.None?
                            && outcome in {Wrote, NothingToWrite};
            && (PstackInstall(k, op, source, w, d).0 == Installed <==> succeeds)
            && (PlannerInstall(k, op, source, rootText, w, d).0 == Installed <==> succeeds)
            && PstackInstall(k, op, source, w, d).1.root == d.root
  {
    hide CommitFrom, Current, Mine, Upserted, WithEntries;
  }

  /** The file as other programs had left it at some moment since the install first read it. */
  ghost predicate LeftByOthers(w: Setting, d: Disk, raw: Option<string>) {
    exists n :: raw == Edits(AfterPreview(w, d.raw), w.commit.edits, n)
  }

  /** An install that did not succeed never wrote the file, and put nothing back that others had replaced. */
  lemma UnfinishedWritesNoEntry(k: Codec, op: Op, source: Bytes, rootText: Bytes, w: Setting, d: Disk)
    ensures var (end, left) := PstackInstall(k, op, source, w, d);
            end != Installed ==> if Previews(k, op, w, d.raw) then LeftByOthers(w, d, left.raw) else left == d
    ensures var (end, left) := PlannerInstall(k, op, source, rootText, w, d);
            end != Installed ==> if Previews(k, op, w, d.raw) then LeftByOthers(w, d, left.raw) else left == d
  {
    hide CommitFrom, Verdict, Replacement, Previews, AfterPreview;
    var raw := AfterPreview(w, d.raw);
    CommitIsFaithful(k, op, w.commit, raw, 0);
    assert Edits(raw, w.commit.edits, 0) == raw == Found(raw, w.commit, 0);
    assert LeftByOthers(w, d, raw);
    var (outcome, left, moments) := CommitFrom(k, op, w.commit, raw, 0);
    assert outcome != Wrote ==> left == Edits(raw, w.commit.edits, moments);
    assert outcome != Wrote ==> LeftByOthers(w, d, left);
    hide LeftByOthers;
  }

  /** A failed restore that leaves the new script where it is. */
  predicate LeavesNewScript(w: Setting, source: Bytes) {
    w.restore.Some? && w.restore.value.0 == Some(source)
  }

  /**
   The pstack install ends with the new script staged and no entry written exactly when nothing was
   refused beforehand and either the copy worked and the commit threw (at an attempt whose temporary
   file or rename failed, after attempts that all found the file changed), or the copy or the commit
   failed in any way and the restore failed with the new script still there.
   */
  lemma ScriptWithoutEntryIff(k: Codec, op: Op, source: Bytes, w: Setting, d: Disk)
    requires d.hook != Some(source)
    ensures var (end, left) := PstackInstall(k, op, source, w, d);
            var commit := CommitFrom(k, op, w.commit, AfterPreview(w, d.raw), 0).0;
            (end != Installed && left.hook == Some(source)) <==>
            && Previews(k, op, w, d.raw)
            && (|| (w.staging.None? && ThrowsFrom(k, op, w.commit, AfterPreview(w, d.raw), 0))
                || ((w.staging.Some? || !Committed(commit)) && LeavesNewScript(w, source)))
  {
    CommitThrowsIff(k, op, w.commit, AfterPreview(w, d.raw), 0);
  }

  /** Such a run: nobody else is there, and the rename of the first attempt fails. */
  lemma FailedRenameLeavesTheScript(k: Codec, who: Installer, wanted: Entry, source: Bytes)
    ensures var w := Setting(NoFault, None, None, World(_ => None, _ => RenameFault), None);
            PstackInstall(k, Install(who, wanted), source, w, Disk(None, None, None))
            == (Threw, Disk(None, Some(source), None))
  {
    var op := Install(who, wanted);
    assert Verdict(k, op, None) == Wrote;
  }

  /**
   And such a run without a throwing commit: three attempts find the file changed, and the restore
   fails before it has touched the script.
   */
  lemma FailedRestoreLeavesTheScript(k: Codec, who: Installer, wanted: Entry, source: Bytes)
    ensures var w := Setting(NoFault, None, None, World(_ => None, _ => CheckFault), Some((Some(source), None)));
            && PstackInstall(k, Install(who, wanted), source, w, Disk(None, None, None))
               == (Threw, Disk(None, Some(source), None))
            && !ThrowsFrom(k, Install(who, wanted), w.commit, None, 0)
  {
    var op := Install(who, wanted);
    assert Verdict(k, op, None) == Wrote;
    var w := World(_ => None, _ => CheckFault);
    assert Turn(k, op, w, None, 0) == Turn(k, op, w, None, 1) == Turn(k, op, w, None, 2) == Again(None);
    CommitStep(k, op, w, None, 0);
    CommitStep(k, op, w, None, 1);
    CommitStep(k, op, w, None, 2);
    CommitStep(k, op, w, None, 3);
  }

  /**
   A failed pstack install leaves the script as it was exactly when nothing was staged, or the
   restore ran and works; after a thrown commit it does not run, and the new script stays.
   */
  lemma PstackRestoresIff(k: Codec, op: Op, source: Bytes, w: Setting, d: Disk)
    ensures var (end, left) := PstackInstall(k, op, source, w, d);
            var threw := w.staging.None? && ThrowsFrom(k, op, w.commit, AfterPreview(w, d.raw), 0);
            end != Installed ==>
              (left.hook == d.hook <==>
               || !Previews(k, op, w, d.raw)
               || (if threw then d.hook == Some(source) else w.restore.None? || w.restore.value.0 == d.hook))
  {
    hide CommitFrom, Throws, Retries, Verdict, Previews;
    var raw := AfterPreview(w, d.raw);
    CommitThrowsIff(k, op, w.commit, raw, 0);
    assert Found(raw, w.commit, 0) == raw;
  }

  /** A failed planner install always runs its restore: only a restore that fails as well leaves other files. */
  lemma PlannerRestoresIff(k: Codec, op: Op, source: Bytes, rootText: Bytes, w: Setting, d: Disk)
    ensures var (end, left) := PlannerInstall(k, op, source, rootText, w, d);
            end != Installed ==>
              (left.hook == d.hook && left.root == d.root <==>
               !Previews(k, op, w, d.raw) || w.restore.None? || w.restore.value == (d.hook, d.root))
  {
    hide CommitFrom, Verdict, Previews;
  }
}
