/** How long acquire and release of src/claude/atomic.ts wait. */
module LockWait {
  // Only sleep advances the clock; what each withLockMutation call reports and the random
  // jitter come from outside.

  import opened Base

  /** What one attempt's withLockMutation call reports to acquire. */
  datatype Outcome =
    | Token      // the lock file is ours
    | Reclaimed  // a stale or vanished name: retry at once
    | Held       // a fresh lock file
    | Busy       // the guard is taken
    | Error      // any other file-system error

  /** The world acquire runs in: the report and the jitter drawn at each attempt. */
  datatype World = World(report: nat -> Outcome, jitter: nat -> nat)

  datatype Options = Options(timeoutMs: int, pollMs: nat)

  const IMMEDIATE_RETRIES := 1000

  /** `Math.floor(Math.random() * (pollMs + 1))` is at most pollMs. */
  ghost predicate Plausible(w: World, opt: Options) {
    forall n :: w.jitter(n) <= opt.pollMs
  }

  datatype Progress = Running(attempt: nat, elapsed: nat) | Stopped(locked: bool, attempt: nat, elapsed: nat)

  /** One round of acquire's loop. */
  function Round(w: World, opt: Options, attempt: nat, elapsed: nat): Progress {
    match w.report(attempt)
    case Token => Stopped(true, attempt, elapsed)
    case Error => Stopped(false, attempt, elapsed)
    case outcome =>
      if outcome == Reclaimed && attempt < IMMEDIATE_RETRIES then Running(attempt + 1, elapsed)
      else if elapsed >= opt.timeoutMs then Stopped(false, attempt, elapsed)
      else Running(attempt + 1, elapsed + opt.pollMs + w.jitter(attempt))
  }

  /** The loop after at most `rounds` rounds. */
  function Rounds(w: World, opt: Options, rounds: nat): Progress {
    if rounds == 0 then Running(0, 0)
    else
      match Rounds(w, opt, rounds - 1)
      case Running(attempt, elapsed) => Round(w, opt, attempt, elapsed)
      case stopped => stopped
  }

  class Clock {
    var now: int

    method Sleep(ms: nat)
      modifies this
      ensures now == old(now) + ms
    {
      now := now + ms;
    }
  }

  predicate Decisive(o: Outcome) { o == Token || o == Error }

  /**
   acquire returns the lock exactly when the attempt it stopped at reported the token, and
   it stops at the first decisive report.  Without one it stops only after timeoutMs, and
   never later than two longest sleeps past it.
   */
  method Acquire(clock: Clock, w: World, opt: Options) returns (locked: bool, attempt: nat)
    requires Plausible(w, opt)
    requires opt.pollMs >= 1 || opt.timeoutMs <= 0
    modifies clock
    ensures locked <==> w.report(attempt) == Token
    ensures forall n :: 0 <= n < attempt ==> !Decisive(w.report(n))
    ensures Decisive(w.report(attempt)) || clock.now - old(clock.now) >= opt.timeoutMs
    ensures 0 <= clock.now - old(clock.now)
    ensures clock.now == old(clock.now) || clock.now - old(clock.now) < opt.timeoutMs + 2 * opt.pollMs
    ensures Rounds(w, opt, attempt + 1) == Stopped(locked, attempt, clock.now - old(clock.now))
  {
    attempt := 0;
    var started := clock.now;
    while true
      invariant started == old(clock.now) <= clock.now
      invariant clock.now == started || clock.now - started < opt.timeoutMs + 2 * opt.pollMs
      invariant forall n :: 0 <= n < attempt ==> !Decisive(w.report(n))
      invariant Rounds(w, opt, attempt) == Running(attempt, clock.now - started)
      decreases if clock.now - started < opt.timeoutMs then opt.timeoutMs - (clock.now - started) else 0,
                if attempt < IMMEDIATE_RETRIES then IMMEDIATE_RETRIES - attempt else 0
    {
      var outcome := w.report(attempt);
      if outcome == Token {
        return true, attempt;
      }
      if outcome == Error {
        return false, attempt;
      }
      if outcome == Reclaimed && attempt < IMMEDIATE_RETRIES {
        attempt := attempt + 1;
        continue;
      }
      if clock.now - started >= opt.timeoutMs {
        return false, attempt;
      }
      clock.Sleep(opt.pollMs + w.jitter(attempt));
      attempt := attempt + 1;
    }
  }

  /**
   release gives up after 1,000 attempts, on an error, or once timeoutMs has passed; it
   overshoots timeoutMs by less than one sleep.
   */
  method Release(clock: Clock, report: nat -> Outcome, opt: Options) returns (released: bool, attempts: nat)
    modifies clock
    ensures 1 <= attempts <= 1000
    ensures released <==> report(attempts - 1) == Token
    ensures forall n :: 0 <= n < attempts - 1 ==> !Decisive(report(n))
    ensures attempts == 1000 || Decisive(report(attempts - 1)) || clock.now - old(clock.now) >= opt.timeoutMs
    ensures 0 <= clock.now - old(clock.now)
    ensures clock.now == old(clock.now) || clock.now - old(clock.now) < opt.timeoutMs + opt.pollMs
    ensures clock.now - old(clock.now) <= attempts * opt.pollMs
  {
    var started := clock.now;
    attempts := 0;
    while attempts < 1000
      invariant attempts <= 1000 && started == old(clock.now) <= clock.now
      invariant clock.now - started == attempts * opt.pollMs
      invariant clock.now == started || clock.now - started < opt.timeoutMs + opt.pollMs
      invariant forall n :: 0 <= n < attempts ==> !Decisive(report(n))
    {
      attempts := attempts + 1;
      if report(attempts - 1) == Token {
        return true, attempts;
      }
      if report(attempts - 1) == Error {
        return false, attempts;
      }
      if clock.now - started >= opt.timeoutMs {
        return false, attempts;
      }
      clock.Sleep(opt.pollMs);
    }
    released := false;
  }

  // ---------- When acquire terminates ----------

  /** The world in which the guard is always taken and no jitter is drawn. */
  function AlwaysBusy(): World {
    World(n => Busy, n => 0)
  }

  lemma {:induction false} NoPollNeverStops(opt: Options, rounds: nat)
    requires opt.pollMs == 0 && opt.timeoutMs > 0
    ensures Rounds(AlwaysBusy(), opt, rounds) == Running(rounds, 0)
  {
    if rounds > 0 {
      NoPollNeverStops(opt, rounds - 1);
    }
  }

  ghost predicate Stops(w: World, opt: Options) {
    exists rounds :: Rounds(w, opt, rounds).Stopped?
  }

  /** While acquire keeps running, every round past the immediate retries takes time. */
  lemma {:induction false} RunningTakesTime(w: World, opt: Options, rounds: nat)
    requires Rounds(w, opt, rounds).Running?
    ensures Rounds(w, opt, rounds).attempt == rounds
    ensures opt.pollMs >= 1 && rounds > IMMEDIATE_RETRIES ==>
              Rounds(w, opt, rounds).elapsed >= rounds - IMMEDIATE_RETRIES
    ensures rounds > IMMEDIATE_RETRIES ==> opt.timeoutMs > 0
  {
    if rounds > 0 {
      RunningTakesTime(w, opt, rounds - 1);
    }
  }

  /** The time between two attempts: none while a reclaimed name is retried at once, else a poll with its jitter. */
  function PauseAfter(w: World, opt: Options, n: nat): nat {
    if w.report(n) == Reclaimed && n < 1000 then 0 else opt.pollMs + w.jitter(n)
  }

  function Pauses(w: World, opt: Options, n: nat): nat {
    if n == 0 then 0 else Pauses(w, opt, n - 1) + PauseAfter(w, opt, n - 1)
  }

  /** While acquire keeps running, the time gone is exactly that of its pauses. */
  lemma {:induction false} TimeIsPauses(w: World, opt: Options, rounds: nat)
    requires Rounds(w, opt, rounds).Running?
    ensures Rounds(w, opt, rounds) == Running(rounds, Pauses(w, opt, rounds))
  {
    if rounds > 0 {
      TimeIsPauses(w, opt, rounds - 1);
    }
  }

  lemma TimeRunsOut(w: World, opt: Options)
    requires Plausible(w, opt)
    requires opt.pollMs >= 1 || opt.timeoutMs <= 0
    ensures Stops(w, opt)
  {
    var rounds: nat := IMMEDIATE_RETRIES + 1 + if opt.timeoutMs > 0 then opt.timeoutMs else 0;
    if Rounds(w, opt, rounds).Running? {
      RunningTakesTime(w, opt, rounds);
      var elapsed := Rounds(w, opt, rounds).elapsed;
      assert Round(w, opt, rounds, elapsed).Stopped?;
      assert Rounds(w, opt, rounds + 1).Stopped?;
    }
  }

  /** acquire stops in every world exactly when it sleeps at all or has no time to wait. */
  lemma AcquireStopsIff(opt: Options)
    ensures (forall w :: Plausible(w, opt) ==> Stops(w, opt)) <==> (opt.pollMs >= 1 || opt.timeoutMs <= 0)
  {
    if opt.pollMs >= 1 || opt.timeoutMs <= 0 {
      forall w | Plausible(w, opt) ensures Stops(w, opt) {
        TimeRunsOut(w, opt);
      }
    } else {
      var w := AlwaysBusy();
      forall rounds ensures Rounds(w, opt, rounds).Running? {
        NoPollNeverStops(opt, rounds);
      }
      assert Plausible(w, opt) && !Stops(w, opt);
    }
  }
}
