/** What every run of LeaseMachine keeps: the lease lock and the updates under it. */
module LeaseLock {
  import opened Base
  import opened LeaseMachine

  /**
   In every run, degraded and overdue callbacks included, a lock file carrying client d's
   token changes only by d's own release, or by a reclaim once it is older than staleMs.
   */
  lemma TokenIsSafe(cfg: Config, steps: seq<Step>, step: Step, d: nat)
    requires Legal(cfg, Initial(cfg), steps) && Enabled(After(cfg, Initial(cfg), steps), step)
    requires var s := After(cfg, Initial(cfg), steps);
             s.lock.Lock? && s.lock.token == Some(d) && Apply(cfg, s, step).lock != s.lock
    ensures var s := After(cfg, Initial(cfg), steps);
            step == UnlinkMatched(d) || (step.UnlinkExpired? && s.now - s.lock.mtime > cfg.staleMs)
  {
    InitialInv(cfg);
    RunKeepsInv(cfg, Initial(cfg), steps);
    var s := After(cfg, Initial(cfg), steps);
    if IsLockStep(step) {
      assert ClientOk(cfg, s, step.c);
    }
  }

  /**
   In every run the record changes only by the rename of a complete temporary file, so a crash
   at any step leaves the whole old record or the whole new one.
   */
  lemma RecordChangesWhole(cfg: Config, steps: seq<Step>, step: Step)
    requires Legal(cfg, Initial(cfg), steps) && Enabled(After(cfg, Initial(cfg), steps), step)
    requires Apply(cfg, After(cfg, Initial(cfg), steps), step).record != After(cfg, Initial(cfg), steps).record
    ensures var s := After(cfg, Initial(cfg), steps);
            step.Commit? && s.PcOf(step.c).Update? && Apply(cfg, s, step).record == Some(s.PcOf(step.c).next)
  {
    InitialInv(cfg);
    RunKeepsInv(cfg, Initial(cfg), steps);
    var s := After(cfg, Initial(cfg), steps);
    assert step.Commit?;
    assert ClientOk(cfg, s, step.c);
    assert s.PcOf(step.c).tmp == s.PcOf(step.c).next;
  }

  /** Lock-file steps of live clients never overlap: only one of them is inside the guard. */
  lemma LockStepsAreExclusive(cfg: Config, steps: seq<Step>, a: Step, b: Step)
    requires Legal(cfg, Initial(cfg), steps)
    requires IsLockStep(a) && Enabled(After(cfg, Initial(cfg), steps), a)
    requires IsLockStep(b) && Enabled(After(cfg, Initial(cfg), steps), b)
    ensures a.c == b.c
  {
    InitialInv(cfg);
    RunKeepsInv(cfg, Initial(cfg), steps);
    var s := After(cfg, Initial(cfg), steps);
    assert ClientOk(cfg, s, a.c) && ClientOk(cfg, s, b.c);
    InsideIsExclusive(cfg, s, a.c, b.c);
  }

  /**
   Session updates are serializable: after any timely run, crashes included, the record is
   the fold, in lock order, of exactly the mutations whose rename happened.
   */
  lemma Serializable(cfg: Config, steps: seq<Step>)
    requires Legal(cfg, Initial(cfg), steps) && TimelyRun(cfg, Initial(cfg), steps)
    ensures var s := After(cfg, Initial(cfg), steps); s.record == Fold(cfg, s.ledger) && Replayable(cfg, s.ledger)
  {
    InitialInv(cfg);
    RunKeepsSerial(cfg, Initial(cfg), steps);
  }

  /** In a timely run two live callbacks never overlap. */
  lemma CallbacksNeverOverlap(cfg: Config, steps: seq<Step>, a: nat, b: nat)
    requires Legal(cfg, Initial(cfg), steps) && TimelyRun(cfg, Initial(cfg), steps)
    requires var s := After(cfg, Initial(cfg), steps);
             s.Live(a) && s.Live(b) && Holds(s.PcOf(a)) && Holds(s.PcOf(b))
    ensures a == b
  {
    InitialInv(cfg);
    RunKeepsSerial(cfg, Initial(cfg), steps);
    HolderIsExclusive(cfg, After(cfg, Initial(cfg), steps), a, b);
  }

  // ---------- Counting ----------

  function Commits(ledger: seq<Turn>): nat {
    if ledger == [] then 0
    else Commits(ledger[..|ledger| - 1]) + if ledger[|ledger| - 1].committed then 1 else 0
  }

  /** Every write adds one to the counter it read. */
  ghost predicate Increments(cfg: Config, count: Option<Bytes> -> nat) {
    forall c, r :: cfg.mutate(c, r).Some? ==> count(cfg.mutate(c, r)) == count(r) + 1
  }

  lemma {:induction false} FoldCounts(cfg: Config, count: Option<Bytes> -> nat, ledger: seq<Turn>)
    requires Increments(cfg, count) && Replayable(cfg, ledger)
    ensures count(Fold(cfg, ledger)) == count(cfg.initial) + Commits(ledger)
  {
    if ledger != [] {
      FoldCounts(cfg, count, ledger[..|ledger| - 1]);
    }
  }

  /** When every write adds one to a counter in the record, the counter grows by the number of commits. */
  lemma IncrementsSumExactly(cfg: Config, count: Option<Bytes> -> nat, steps: seq<Step>)
    requires Legal(cfg, Initial(cfg), steps) && TimelyRun(cfg, Initial(cfg), steps)
    requires Increments(cfg, count)
    ensures var s := After(cfg, Initial(cfg), steps);
            count(s.record) == count(cfg.initial) + Commits(s.ledger)
  {
    Serializable(cfg, steps);
    FoldCounts(cfg, count, After(cfg, Initial(cfg), steps).ledger);
  }
}
