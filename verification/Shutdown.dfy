/**
 createShutdown of services/ultrathink/lifecycle.ts.  Timers, settled promises and shutdown calls
 interleave in any order; a stretch of code without an await is not interrupted, but may itself
 call shutdown again.
 */
module Shutdown {
  import opened Base

  datatype Phase = Begin | Draining | Stopping | CallingApp | AwaitingApp | AwaitingServer | Closed

  /** What became of server.stop(). */
  datatype Stop = NotCalled | Pending | Settled(ok: bool) | Threw

  /** One call of run: its closure variables, and what it did. */
  datatype Run = Run(requested: int, code: int, finished: bool, armed: bool, phase: Phase, stop: Stop, app: Option<bool>,
                     failed: bool, timedOut: bool, exits: seq<int>, closes: nat)

  /** How a synchronous call of server.stop() ends. */
  datatype StopCall = Returns | Promises | Throws

  // ---------- One run ----------

  function Started(code: int): Run { Run(code, code, false, true, Begin, NotCalled, None, false, false, [], 0) }

  function Fail(r: Run): Run { r.(failed := true, code := if r.code == 0 then 1 else r.code) }

  function FailUnless(r: Run, ok: bool): Run { if ok then r else Fail(r) }

  function Finish(r: Run, code: int): Run {
    if r.finished then r else r.(finished := true, exits := r.exits + [code])
  }

  function BeginDrain(r: Run, ok: bool, drain: bool): Run {
    FailUnless(r, ok).(phase := if drain then Draining else Stopping)
  }

  function CallStop(r: Run, how: StopCall): Run {
    match how
    case Returns => r.(phase := CallingApp, stop := Settled(true))
    case Promises => r.(phase := CallingApp, stop := Pending)
    case Throws => Fail(r).(phase := CallingApp, stop := Threw)
  }

  function SettleApp(r: Run, ok: bool): Run { FailUnless(r, ok).(phase := AwaitingServer, app := Some(ok)) }

  /** The store closes, the timer is cancelled and the process exits. */
  function Close(r: Run, ok: bool): Run {
    var stopped := FailUnless(r, r.stop != Settled(false));
    var closed := FailUnless(stopped, ok).(phase := Closed, armed := false, closes := r.closes + 1);
    Finish(closed, closed.code)
  }

  function FireTimer(r: Run): Run {
    Finish(r.(armed := false, timedOut := true), if r.code == 0 then 1 else r.code)
  }

  class RunObject {
    const requested: int
    var code: int
    var finished: bool
    var armed: bool
    var phase: Phase
    var stop: Stop
    var app: Option<bool>
    var failed: bool
    var timedOut: bool
    var exits: seq<int>
    var closes: nat

    function Model(): Run
      reads this
    {
      Run(requested, code, finished, armed, phase, stop, app, failed, timedOut, exits, closes)
    }

    constructor (requested: int)
      ensures Model() == Started(requested)
    {
      this.requested, code, finished, armed, phase := requested, requested, false, true, Begin;
      stop, app, failed, timedOut, exits, closes := NotCalled, None, false, false, [], 0;
    }

    method FailedStep()
      modifies this
      ensures Model() == Fail(old(Model()))
    {
      failed := true;
      if code == 0 {
        code := 1;
      }
    }

    method Exit(withCode: int)
      modifies this
      ensures Model() == Finish(old(Model()), withCode)
    {
      if finished {
        return;
      }
      finished := true;
      exits := exits + [withCode];
    }

    method Drain(ok: bool, drain: bool)
      modifies this
      ensures Model() == BeginDrain(old(Model()), ok, drain)
    {
      if !ok {
        FailedStep();
      }
      phase := if drain then Draining else Stopping;
    }

    method StopServer(how: StopCall)
      modifies this
      ensures Model() == CallStop(old(Model()), how)
    {
      match how {
        case Returns => stop := Settled(true);
        case Promises => stop := Pending;
        case Throws =>
          stop := Threw;
          FailedStep();
      }
      phase := CallingApp;
    }

    method AppSettled(ok: bool)
      modifies this
      ensures Model() == SettleApp(old(Model()), ok)
    {
      if !ok {
        FailedStep();
      }
      app, phase := Some(ok), AwaitingServer;
    }

    method CloseStore(ok: bool)
      modifies this
      ensures Model() == Close(old(Model()), ok)
    {
      if stop == Settled(false) {
        FailedStep();
      }
      if !ok {
        FailedStep();
      }
      phase, armed, closes := Closed, false, closes + 1;
      Exit(code);
    }

    method TimerFires()
      modifies this
      ensures Model() == FireTimer(old(Model()))
    {
      armed, timedOut := false, true;
      Exit(if code == 0 then 1 else code);
    }
  }

  // ---------- The process ----------

  /** The runs started, the one shutdown remembers, and those still in their first stretch of code. */
  datatype System = System(runs: seq<Run>, running: Option<nat>, starting: seq<nat>, drain: bool)

  datatype Step =
    | Call(code: int)                    // shutdown(reason, code)
    | Begins(id: nat, ok: bool)          // beginDrain
    | DrainOver(id: nat)
    | StopCalled(id: nat, how: StopCall)
    | AppCalled(id: nat)
    | ServerSettles(id: nat, ok: bool)
    | AppSettles(id: nat, ok: bool)
    | Closes(id: nat, ok: bool)
    | Timeout(id: nat)

  function Start(drain: bool): System { System([], None, [], drain) }

  /** Code that is not interrupted: nothing else runs until a first stretch is over. */
  predicate OnTop(s: System, id: nat) { s.starting == [] || s.starting[|s.starting| - 1] == id }

  predicate Enabled(s: System, step: Step) {
    match step
    case Call(_) => true
    case Begins(id, _) => id < |s.runs| && s.runs[id].phase == Begin && OnTop(s, id)
    case DrainOver(id) => id < |s.runs| && s.runs[id].phase == Draining && s.starting == []
    case StopCalled(id, _) => id < |s.runs| && s.runs[id].phase == Stopping && OnTop(s, id)
    case AppCalled(id) => id < |s.runs| && s.runs[id].phase == CallingApp && OnTop(s, id)
    case ServerSettles(id, _) => id < |s.runs| && s.runs[id].stop == Pending && s.starting == []
    case AppSettles(id, _) => id < |s.runs| && s.runs[id].phase == AwaitingApp && s.starting == []
    case Closes(id, _) =>
      id < |s.runs| && s.runs[id].phase == AwaitingServer && s.runs[id].stop != Pending && s.starting == []
    case Timeout(id) => id < |s.runs| && s.runs[id].armed && s.starting == []
  }

  function With(s: System, id: nat, r: Run): System
    requires id < |s.runs|
  {
    s.(runs := s.runs[id := r])
  }

  /** The first stretch of a run ends at its first await: only now is the run remembered. */
  function Returned(s: System, id: nat): System {
    if s.starting != [] && s.starting[|s.starting| - 1] == id
    then s.(running := Some(id), starting := s.starting[..|s.starting| - 1])
    else s
  }

  function Apply(s: System, step: Step): System
    requires Enabled(s, step)
  {
    match step
    case Call(code) =>
      if s.running.Some? then s
      else s.(runs := s.runs + [Started(code)], starting := s.starting + [|s.runs|])
    case Begins(id, ok) =>
      var t := With(s, id, BeginDrain(s.runs[id], ok, s.drain));
      if s.drain then Returned(t, id) else t
    case DrainOver(id) => With(s, id, s.runs[id].(phase := Stopping))
    case StopCalled(id, how) => With(s, id, CallStop(s.runs[id], how))
    case AppCalled(id) => Returned(With(s, id, s.runs[id].(phase := AwaitingApp)), id)
    case ServerSettles(id, ok) => With(s, id, s.runs[id].(stop := Settled(ok)))
    case AppSettles(id, ok) => With(s, id, SettleApp(s.runs[id], ok))
    case Closes(id, ok) => With(s, id, Close(s.runs[id], ok))
    case Timeout(id) => With(s, id, FireTimer(s.runs[id]))
  }

  ghost predicate Legal(s: System, steps: seq<Step>)
    decreases |steps|
  {
    steps == [] || (Enabled(s, steps[0]) && Legal(Apply(s, steps[0]), steps[1..]))
  }

  ghost function After(s: System, steps: seq<Step>): System
    requires Legal(s, steps)
    decreases |steps|
  {
    if steps == [] then s else After(Apply(s, steps[0]), steps[1..])
  }

  // ---------- What every run keeps ----------

  /** A requested failure stands; a failed step turns success into 1. */
  function CodeOf(r: Run): int { if r.requested != 0 then r.requested else if r.failed then 1 else 0 }

  predicate Late(p: Phase) { p == AwaitingServer || p == Closed }

  ghost predicate RunOk(r: Run) {
    && r.code == CodeOf(r)
    && (r.finished <==> r.timedOut || r.phase == Closed)
    && (r.armed <==> !r.timedOut && r.phase != Closed)
    && (if r.finished then |r.exits| == 1 else r.exits == [])
    && r.closes == (if r.phase == Closed then 1 else 0)
    && (Late(r.phase) <==> r.app.Some?)
    && (r.stop == NotCalled <==> r.phase in {Begin, Draining, Stopping})
    && (r.phase == Closed ==> r.stop != Pending)
    && (r.stop in {Settled(false), Threw} && r.phase == Closed ==> r.failed)
    && (r.app == Some(false) ==> r.failed) && (r.stop == Threw ==> r.failed)
    && (r.timedOut ==> r.exits == [if r.requested == 0 then 1 else r.requested])
    && (r.phase == Closed && !r.timedOut ==> r.exits == [r.code])
    && (r.finished && r.requested != 0 ==> r.exits == [r.requested])
  }

  ghost predicate RunsOk(s: System) {
    forall i :: 0 <= i < |s.runs| ==> RunOk(s.runs[i])
  }

  lemma SegmentsKeepOk(r: Run, ok: bool, drain: bool, how: StopCall)
    requires RunOk(r)
    ensures r.phase == Begin ==> RunOk(BeginDrain(r, ok, drain))
    ensures r.phase == Stopping ==> RunOk(CallStop(r, how))
    ensures r.phase == AwaitingApp ==> RunOk(SettleApp(r, ok))
  {
  }

  lemma TurnsKeepOk(r: Run, ok: bool)
    requires RunOk(r)
    ensures r.phase == Draining ==> RunOk(r.(phase := Stopping))
    ensures r.phase == CallingApp ==> RunOk(r.(phase := AwaitingApp))
    ensures r.stop == Pending ==> RunOk(r.(stop := Settled(ok)))
  {
  }

  lemma CloseKeepsOk(r: Run, ok: bool)
    requires RunOk(r) && r.phase == AwaitingServer && r.stop != Pending
    ensures RunOk(Close(r, ok))
  {
  }

  lemma TimerKeepsOk(r: Run)
    requires RunOk(r) && r.armed
    ensures RunOk(FireTimer(r))
  {
    assert FireTimer(r).exits[0] != 0;
  }

  lemma StepKeepsRuns(s: System, step: Step)
    requires RunsOk(s) && Enabled(s, step)
    ensures RunsOk(Apply(s, step))
  {
    match step
    case Call(code) => assert RunOk(Started(code));
    case Begins(id, ok) => SegmentsKeepOk(s.runs[id], ok, s.drain, Returns);
    case StopCalled(id, how) => SegmentsKeepOk(s.runs[id], true, s.drain, how);
    case AppSettles(id, ok) => SegmentsKeepOk(s.runs[id], ok, s.drain, Returns);
    case DrainOver(id) => TurnsKeepOk(s.runs[id], true);
    case AppCalled(id) => TurnsKeepOk(s.runs[id], true);
    case ServerSettles(id, ok) => TurnsKeepOk(s.runs[id], ok);
    case Closes(id, ok) => CloseKeepsOk(s.runs[id], ok);
    case Timeout(id) => TimerKeepsOk(s.runs[id]);
  }

  lemma {:induction false} RunsStayOk(s: System, steps: seq<Step>)
    requires RunsOk(s) && Legal(s, steps)
    ensures RunsOk(After(s, steps))
    decreases |steps|
  {
    if steps != [] {
      StepKeepsRuns(s, steps[0]);
      RunsStayOk(Apply(s, steps[0]), steps[1..]);
    }
  }

  /** Whatever happens, a run closes the store only once the server stop and the planner both settled. */
  lemma StoreClosesLast(drain: bool, steps: seq<Step>, id: nat)
    requires Legal(Start(drain), steps) && id < |After(Start(drain), steps).runs|
    ensures var r := After(Start(drain), steps).runs[id];
            && r.closes <= 1
            && (r.closes > 0 ==> r.app.Some? && (r.stop.Settled? || r.stop.Threw?))
  {
    RunsStayOk(Start(drain), steps);
    assert RunOk(After(Start(drain), steps).runs[id]);
  }

  /** A run exits once: when it closed the store or when the timer fired, whichever is first. */
  lemma RunExitsOnce(drain: bool, steps: seq<Step>, id: nat)
    requires Legal(Start(drain), steps) && id < |After(Start(drain), steps).runs|
    ensures var r := After(Start(drain), steps).runs[id];
            |r.exits| == (if r.timedOut || r.closes > 0 then 1 else 0)
  {
    RunsStayOk(Start(drain), steps);
    assert RunOk(After(Start(drain), steps).runs[id]);
  }

  // ---------- A run told from the steps ----------

  lemma {:induction false} LastStep(s: System, steps: seq<Step>)
    requires Legal(s, steps) && steps != []
    ensures var before, last := steps[..|steps| - 1], steps[|steps| - 1];
            Legal(s, before) && Enabled(After(s, before), last) && After(s, steps) == Apply(After(s, before), last)
    decreases |steps|
  {
    var before := steps[..|steps| - 1];
    if |steps| == 1 {
      assert before == [] && steps[1..] == [];
    } else {
      LastStep(Apply(s, steps[0]), steps[1..]);
      assert before[1..] == steps[1..][..|steps| - 2];
    }
  }

  predicate Happened(steps: seq<Step>, step: Step) { exists i :: 0 <= i < |steps| && steps[i] == step }

  lemma HappenedSoFar(steps: seq<Step>)
    requires steps != []
    ensures forall step :: Happened(steps, step) <==> Happened(steps[..|steps| - 1], step) || step == steps[|steps| - 1]
  {
    var before := steps[..|steps| - 1];
    forall step ensures Happened(steps, step) <==> Happened(before, step) || step == steps[|steps| - 1] {
      if Happened(before, step) {
        var i :| 0 <= i < |before| && before[i] == step;
        assert steps[i] == step;
      }
      if Happened(steps, step) && step != steps[|steps| - 1] {
        var i :| 0 <= i < |steps| && steps[i] == step;
        assert before[i] == step;
      }
    }
  }

  /** Something went wrong before the store was closed, or while it was. */
  predicate WentWrong(steps: seq<Step>, id: nat) {
    || Happened(steps, Begins(id, false)) || Happened(steps, StopCalled(id, Throws)) || Happened(steps, AppSettles(id, false))
    || Happened(steps, Closes(id, false))
  }

  predicate WasClosed(steps: seq<Step>, id: nat) { Happened(steps, Closes(id, true)) || Happened(steps, Closes(id, false)) }

  predicate StopWasCalled(steps: seq<Step>, id: nat) {
    Happened(steps, StopCalled(id, Returns)) || Happened(steps, StopCalled(id, Promises)) || Happened(steps, StopCalled(id, Throws))
  }

  /** What the closure of run id holds, told from what happened. */
  ghost predicate Told(r: Run, steps: seq<Step>, id: nat, drain: bool) {
    && (r.timedOut <==> Happened(steps, Timeout(id)))
    && (r.phase == Closed <==> WasClosed(steps, id))
    && (r.stop == Settled(false) <==> Happened(steps, ServerSettles(id, false)))
    && (r.failed <==> WentWrong(steps, id) || (WasClosed(steps, id) && Happened(steps, ServerSettles(id, false))))
    && (r.stop != NotCalled <==> StopWasCalled(steps, id))
    && (r.phase == Draining ==> drain)
    && (drain && r.phase !in {Begin, Draining} ==> Happened(steps, DrainOver(id)))
  }

  /** Nothing has happened to a run that has not started. */
  ghost predicate Untold(steps: seq<Step>, id: nat) {
    forall step :: Happened(steps, step) && !step.Call? ==> step.id < id
  }

  lemma OtherStepIsTold(r: Run, steps: seq<Step>, id: nat, drain: bool)
    requires steps != [] && Told(r, steps[..|steps| - 1], id, drain)
    requires var last := steps[|steps| - 1]; last.Call? || last.id != id
    ensures Told(r, steps, id, drain)
  {
    HappenedSoFar(steps);
    hide Happened;
  }

  lemma BeginningIsTold(s: System, steps: seq<Step>, id: nat)
    requires steps != [] && id < |s.runs| && RunOk(s.runs[id]) && Told(s.runs[id], steps[..|steps| - 1], id, s.drain)
    requires var last := steps[|steps| - 1]; (last.Begins? || last.DrainOver? || last.AppCalled?) && last.id == id && Enabled(s, last)
    ensures Told(Apply(s, steps[|steps| - 1]).runs[id], steps, id, s.drain)
  {
    HappenedSoFar(steps);
    hide Happened, Finish;
  }

  lemma StopIsTold(s: System, steps: seq<Step>, id: nat)
    requires steps != [] && id < |s.runs| && RunOk(s.runs[id]) && Told(s.runs[id], steps[..|steps| - 1], id, s.drain)
    requires var last := steps[|steps| - 1]; (last.StopCalled? || last.ServerSettles?) && last.id == id && Enabled(s, last)
    ensures Told(Apply(s, steps[|steps| - 1]).runs[id], steps, id, s.drain)
  {
    HappenedSoFar(steps);
    hide Happened, Finish;
  }

  lemma AppIsTold(s: System, steps: seq<Step>, id: nat)
    requires steps != [] && id < |s.runs| && RunOk(s.runs[id]) && Told(s.runs[id], steps[..|steps| - 1], id, s.drain)
    requires var last := steps[|steps| - 1]; (last.AppSettles? || last.Timeout?) && last.id == id && Enabled(s, last)
    ensures Told(Apply(s, steps[|steps| - 1]).runs[id], steps, id, s.drain)
  {
    HappenedSoFar(steps);
    hide Happened;
  }

  lemma CloseIsTold(s: System, steps: seq<Step>, id: nat)
    requires steps != [] && id < |s.runs| && RunOk(s.runs[id]) && Told(s.runs[id], steps[..|steps| - 1], id, s.drain)
    requires var last := steps[|steps| - 1]; last.Closes? && last.id == id && Enabled(s, last)
    ensures Told(Apply(s, steps[|steps| - 1]).runs[id], steps, id, s.drain)
  {
    HappenedSoFar(steps);
    hide Happened;
  }

  lemma OwnStepIsTold(s: System, steps: seq<Step>, id: nat)
    requires steps != [] && id < |s.runs| && RunOk(s.runs[id]) && Told(s.runs[id], steps[..|steps| - 1], id, s.drain)
    requires var last := steps[|steps| - 1]; !last.Call? && last.id == id && Enabled(s, last)
    ensures Told(Apply(s, steps[|steps| - 1]).runs[id], steps, id, s.drain)
  {
    hide Told, RunOk, Enabled, Apply;
    match steps[|steps| - 1]
    case Begins(_, _) | DrainOver(_) | AppCalled(_) => BeginningIsTold(s, steps, id);
    case StopCalled(_, _) | ServerSettles(_, _) => StopIsTold(s, steps, id);
    case AppSettles(_, _) | Timeout(_) => AppIsTold(s, steps, id);
    case Closes(_, _) => CloseIsTold(s, steps, id);
  }

  lemma NewRunIsTold(steps: seq<Step>, id: nat, code: int, drain: bool)
    requires steps != [] && steps[|steps| - 1].Call? && Untold(steps[..|steps| - 1], id)
    ensures Told(Started(code), steps, id, drain)
  {
    HappenedSoFar(steps);
    hide Happened;
  }

  lemma StepIsTold(s: System, steps: seq<Step>, id: nat)
    requires steps != [] && Enabled(s, steps[|steps| - 1]) && RunsOk(s)
    requires id < |s.runs| ==> Told(s.runs[id], steps[..|steps| - 1], id, s.drain)
    requires Untold(steps[..|steps| - 1], |s.runs|)
    ensures var t := Apply(s, steps[|steps| - 1]);
            t.drain == s.drain && (id < |t.runs| ==> Told(t.runs[id], steps, id, t.drain)) && Untold(steps, |t.runs|)
  {
    var last := steps[|steps| - 1];
    HappenedSoFar(steps);
    hide Happened, Told, RunOk, Started, BeginDrain, CallStop, SettleApp, Close, FireTimer;
    if id < |s.runs| {
      if last.Call? || last.id != id {
        OtherStepIsTold(s.runs[id], steps, id, s.drain);
      } else {
        assert RunOk(s.runs[id]);
        OwnStepIsTold(s, steps, id);
      }
    } else if last.Call? && id == |s.runs| {
      NewRunIsTold(steps, id, last.code, s.drain);
    }
  }

  lemma NothingHappened(id: nat)
    ensures Untold([], id)
  {
  }

  lemma {:induction false} RunIsTold(drain: bool, steps: seq<Step>, id: nat)
    requires Legal(Start(drain), steps)
    ensures var s := After(Start(drain), steps);
            && s.drain == drain && Untold(steps, |s.runs|)
            && (id < |s.runs| ==> Told(s.runs[id], steps, id, drain))
    decreases |steps|
  {
    hide Told, RunOk, Apply;
    if steps == [] {
      NothingHappened(id);
    } else {
      LastStep(Start(drain), steps);
      RunIsTold(drain, steps[..|steps| - 1], id);
      RunsStayOk(Start(drain), steps[..|steps| - 1]);
      StepIsTold(After(Start(drain), steps[..|steps| - 1]), steps, id);
    }
  }

  /** The server is only asked to stop when the drain time, if there is one, is over. */
  lemma StopWaitsForDrain(steps: seq<Step>, id: nat)
    requires Legal(Start(true), steps) && id < |After(Start(true), steps).runs| && StopWasCalled(steps, id)
    ensures Happened(steps, DrainOver(id))
  {
    RunIsTold(true, steps, id);
    RunsStayOk(Start(true), steps);
    assert RunOk(After(Start(true), steps).runs[id]);
  }

  /**
   The exit code is 0 exactly when 0 was asked for, the store was closed and no step of the run went
   wrong, a rejected stop included, before the timer could fire; a code asked for is never replaced,
   and any other end of a run is 1.
   */
  lemma ExitCodeIsZeroIff(drain: bool, steps: seq<Step>, id: nat)
    requires Legal(Start(drain), steps) && id < |After(Start(drain), steps).runs|
    ensures var r := After(Start(drain), steps).runs[id];
            && (r.exits == [0] <==>
                  && r.requested == 0 && WasClosed(steps, id) && !Happened(steps, Timeout(id))
                  && !WentWrong(steps, id) && !Happened(steps, ServerSettles(id, false)))
            && (r.exits != [] && r.requested != 0 ==> r.exits == [r.requested])
            && (r.exits == [] || r.requested != 0 || r.exits == [0] || r.exits == [1])
  {
    RunIsTold(drain, steps, id);
    RunsStayOk(Start(drain), steps);
    assert RunOk(After(Start(drain), steps).runs[id]);
  }

  /** A run is asked for the code of the call that starts it. */
  lemma CallStartsWithItsCode(drain: bool, steps: seq<Step>, code: int)
    requires Legal(Start(drain), steps) && After(Start(drain), steps).running.None?
    ensures var s := After(Start(drain), steps);
            var t := Apply(s, Call(code));
            |t.runs| == |s.runs| + 1 && t.runs[..|s.runs|] == s.runs && t.runs[|s.runs|].requested == code
  {
  }

  function OrderlySteps(drain: bool, code: int): seq<Step> {
    [Call(code), Begins(0, true)] + (if drain then [DrainOver(0)] else [])
    + [StopCalled(0, Promises), AppCalled(0), ServerSettles(0, true), AppSettles(0, true), Closes(0, true)]
  }

  /** An undisturbed shutdown comes to its end, with the code it was asked for. */
  lemma OrderlyShutdownEnds(drain: bool, code: int)
    ensures Legal(Start(drain), OrderlySteps(drain, code))
    ensures var s := After(Start(drain), OrderlySteps(drain, code));
            |s.runs| == 1 && s.runs[0].exits == [code] && s.runs[0].closes == 1 && s.running == Some(0)
  {
    hide Legal, After;
    var s1 := System([Started(code)], None, [0], drain);
    var begun := System([Started(code).(phase := if drain then Draining else Stopping)],
                        if drain then Some(0) else None, if drain then [] else [0], drain);
    var drained := begun.(runs := [Started(code).(phase := Stopping)]);
    assert Apply(Start(drain), Call(code)) == s1;
    assert Apply(s1, Begins(0, true)) == begun;
    assert if drain then Enabled(begun, DrainOver(0)) && Apply(begun, DrainOver(0)) == drained else begun == drained;
    var last := StopsAndCloses(drained, code);
    var rest := [StopCalled(0, Promises), AppCalled(0), ServerSettles(0, true), AppSettles(0, true), Closes(0, true)];
    if drain {
      FirstStep(begun, DrainOver(0), rest);
    }
    var tail := (if drain then [DrainOver(0)] else []) + rest;
    assert !drain ==> tail == rest;
    FirstStep(s1, Begins(0, true), tail);
    FirstStep(Start(drain), Call(code), [Begins(0, true)] + tail);
    assert OrderlySteps(drain, code) == [Call(code)] + ([Begins(0, true)] + tail);
  }

  lemma FirstStep(s: System, step: Step, rest: seq<Step>)
    requires Enabled(s, step) && Legal(Apply(s, step), rest)
    ensures Legal(s, [step] + rest) && After(s, [step] + rest) == After(Apply(s, step), rest)
  {
    assert ([step] + rest)[1..] == rest;
  }

  function FinalSteps(): seq<Step> { [ServerSettles(0, true)] + ([AppSettles(0, true)] + ([Closes(0, true)] + [])) }

  lemma StopsAndCloses(s: System, code: int) returns (t: System)
    requires s.runs == [Started(code).(phase := Stopping)]
    requires (s.running == Some(0) && s.starting == []) || (s.running == None && s.starting == [0])
    ensures var steps := [StopCalled(0, Promises), AppCalled(0), ServerSettles(0, true), AppSettles(0, true), Closes(0, true)];
            Legal(s, steps) && After(s, steps) == t
    ensures |t.runs| == 1 && t.runs[0].exits == [code] && t.runs[0].closes == 1 && t.running == Some(0)
  {
    hide Legal, After;
    var r := Started(code).(phase := CallingApp, stop := Pending);
    var s1 := s.(runs := [r]);
    var s2 := s1.(runs := [r.(phase := AwaitingApp)], running := Some(0), starting := []);
    assert Apply(s, StopCalled(0, Promises)) == s1;
    assert Apply(s1, AppCalled(0)) == s2;
    t := SettlesAndCloses(s2, code);
    FirstStep(s1, AppCalled(0), FinalSteps());
    FirstStep(s, StopCalled(0, Promises), [AppCalled(0)] + FinalSteps());
    assert [StopCalled(0, Promises)] + ([AppCalled(0)] + FinalSteps())
        == [StopCalled(0, Promises), AppCalled(0), ServerSettles(0, true), AppSettles(0, true), Closes(0, true)];
  }

  lemma SettlesAndCloses(s: System, code: int) returns (t: System)
    requires s.runs == [Started(code).(phase := AwaitingApp, stop := Pending)] && s.running == Some(0) && s.starting == []
    ensures Legal(s, FinalSteps()) && After(s, FinalSteps()) == t
    ensures |t.runs| == 1 && t.runs[0].exits == [code] && t.runs[0].closes == 1 && t.running == Some(0)
  {
    hide Legal, After;
    var r := Started(code).(phase := AwaitingApp, stop := Settled(true));
    var s3 := s.(runs := [r]);
    var s4 := s.(runs := [r.(phase := AwaitingServer, app := Some(true))]);
    t := Apply(s4, Closes(0, true));
    NoStep(t);
    FirstStep(s4, Closes(0, true), []);
    assert Apply(s3, AppSettles(0, true)) == s4;
    FirstStep(s3, AppSettles(0, true), [Closes(0, true)] + []);
    assert Apply(s, ServerSettles(0, true)) == s3;
    FirstStep(s, ServerSettles(0, true), [AppSettles(0, true)] + ([Closes(0, true)] + []));
  }

  lemma NoStep(s: System)
    ensures Legal(s, []) && After(s, []) == s
  {
  }

  // ---------- One run, or more ----------

  /** No call of shutdown comes from inside the first stretch of a run. */
  ghost predicate NoReentry(s: System, steps: seq<Step>)
    requires Legal(s, steps)
    decreases |steps|
  {
    steps == [] || (&& (steps[0].Call? ==> s.starting == [])
                    && NoReentry(Apply(s, steps[0]), steps[1..]))
  }

  /** Before any re-entrant call: nothing started, the one run starting, or the one run remembered. */
  predicate Single(s: System) {
    || (s.runs == [] && s.starting == [] && s.running == None)
    || (|s.runs| == 1 && s.starting == [0] && s.running == None && s.runs[0].phase in {Begin, Stopping, CallingApp})
    || (|s.runs| == 1 && s.starting == [] && s.running == Some(0) && s.runs[0].phase != Begin)
  }

  lemma StepKeepsSingle(s: System, step: Step)
    requires Single(s) && Enabled(s, step)
    ensures step.Call? && s.starting != [] ==> |Apply(s, step).runs| == 2
    ensures !(step.Call? && s.starting != []) ==> Single(Apply(s, step))
  {
  }

  lemma {:induction false} RunsNeverShrink(s: System, steps: seq<Step>)
    requires Legal(s, steps)
    ensures |After(s, steps).runs| >= |s.runs|
    decreases |steps|
  {
    if steps != [] {
      RunsNeverShrink(Apply(s, steps[0]), steps[1..]);
    }
  }

  lemma {:induction false} SingleIff(s: System, steps: seq<Step>)
    requires Single(s) && Legal(s, steps)
    ensures NoReentry(s, steps) <==> |After(s, steps).runs| <= 1
    decreases |steps|
  {
    if steps != [] {
      StepKeepsSingle(s, steps[0]);
      var t := Apply(s, steps[0]);
      if steps[0].Call? && s.starting != [] {
        RunsNeverShrink(t, steps[1..]);
      } else {
        SingleIff(t, steps[1..]);
      }
    }
  }

  function AllExits(runs: seq<Run>): seq<int> {
    if runs == [] then [] else AllExits(runs[..|runs| - 1]) + runs[|runs| - 1].exits
  }

  /** Only one shutdown runs exactly when none is asked for from inside the first stretch of the first. */
  lemma OneRunIff(drain: bool, steps: seq<Step>)
    requires Legal(Start(drain), steps)
    ensures NoReentry(Start(drain), steps) <==> |After(Start(drain), steps).runs| <= 1
  {
    SingleIff(Start(drain), steps);
  }

  /** Then the process exits at most once and the store closes at most once, in every interleaving. */
  lemma ExitAtMostOnce(drain: bool, steps: seq<Step>)
    requires Legal(Start(drain), steps) && NoReentry(Start(drain), steps)
    ensures |AllExits(After(Start(drain), steps).runs)| <= 1
    ensures forall i :: 0 <= i < |After(Start(drain), steps).runs| ==> i == 0 && After(Start(drain), steps).runs[i].closes <= 1
  {
    OneRunIff(drain, steps);
    RunsStayOk(Start(drain), steps);
    var runs := After(Start(drain), steps).runs;
    if runs != [] {
      assert runs[..|runs| - 1] == [] && RunOk(runs[0]);
    }
  }

  /** A call of shutdown from inside beginDrain, and then both timers. */
  const REENTRANT := [Call(0), Call(0), Begins(1, true), Begins(0, true), Timeout(1), Timeout(0)]

  /** Such a call starts a second run, and the process exits twice. */
  lemma ReentryExitsTwice()
    ensures Legal(Start(true), REENTRANT) && AllExits(After(Start(true), REENTRANT).runs) == [1, 1]
  {
    hide Legal, After, AllExits;
    var one, draining, out := Started(0), Started(0).(phase := Draining), FireTimer(Started(0).(phase := Draining));
    var s2, s4 := System([one, one], None, [0, 1], true), System([draining, draining], Some(0), [], true);
    var last := System([out, out], Some(0), [], true);
    assert Apply(s4.(runs := [draining, out]), Timeout(0)) == last;
    TwoSteps(s4, Timeout(1), Timeout(0), [], last);
    assert Apply(s2, Begins(1, true)) == System([one, draining], Some(1), [0], true);
    TwoSteps(s2, Begins(1, true), Begins(0, true), [Timeout(1), Timeout(0)], s4);
    assert Apply(Start(true), Call(0)) == System([one], None, [0], true);
    TwoSteps(Start(true), Call(0), Call(0), [Begins(1, true), Begins(0, true), Timeout(1), Timeout(0)], s2);
    assert REENTRANT == [Call(0), Call(0)] + [Begins(1, true), Begins(0, true), Timeout(1), Timeout(0)];
    assert [Begins(1, true), Begins(0, true), Timeout(1), Timeout(0)] == [Begins(1, true), Begins(0, true)] + [Timeout(1), Timeout(0)];
    assert [Timeout(1), Timeout(0)] == [Timeout(1), Timeout(0)] + [];
    EmptyRun(last);
    TwoExits(out);
  }

  lemma EmptyRun(s: System)
    ensures Legal(s, []) && After(s, []) == s
  {
  }

  lemma TwoExits(r: Run)
    requires r.exits == [1]
    ensures AllExits([r, r]) == [1, 1]
  {
    assert [r, r][..1] == [r] && [r][..0] == [];
    assert AllExits([r]) == AllExits([]) + r.exits;
  }

  lemma TwoSteps(s: System, a: Step, b: Step, rest: seq<Step>, t: System)
    requires Enabled(s, a) && Enabled(Apply(s, a), b) && Apply(Apply(s, a), b) == t
    ensures Legal(t, rest) ==> Legal(s, [a, b] + rest) && After(s, [a, b] + rest) == After(t, rest)
  {
    if Legal(t, rest) {
      assert [a] + ([b] + rest) == [a, b] + rest;
    }
  }
}
