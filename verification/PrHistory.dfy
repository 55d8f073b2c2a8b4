/** Which events the pull-request nudges of hosts/hermes/bridge.py accept, told from the calls alone. */
module PrHistory {
  // The state of the bridge does not occur in these definitions: a child's parent is the last one
  // noted, and a child's proof is a call of that child whose record was read.

  import opened Base
  import opened PrNudges

  /** The parent that was last noted for a session. */
  function ParentOf(steps: seq<Step>, child: string): Option<string> {
    if steps == [] then None
    else
      var last := steps[|steps| - 1];
      if last.Note? && last.child == child != "" && last.parent != "" then Some(last.parent)
      else ParentOf(steps[..|steps| - 1], child)
  }

  /** Step i is a call naming a session and a URL, and by step j its thread has not read the owner's record. */
  predicate Calls(steps: seq<Step>, i: nat, j: nat, t: nat, hook: Hook, call: Call) {
    && i < j <= |steps| && steps[i] == Open(t, hook, call) && call.session != "" && call.url != ""
    && forall m :: i < m < j ==> !(steps[m].Read? && steps[m].t == t)
  }

  /** A session noted as working for `owner` opened the URL while the owner's plan had that graph. */
  ghost predicate ChildOpened(steps: seq<Step>, owner: string, graph: string, url: string) {
    exists i: nat, j: nat, t: nat, hook: Hook, call: Call :: OpenedBy(steps, i, j, t, hook, call, owner, graph, url)
  }

  predicate OpenedBy(steps: seq<Step>, i: nat, j: nat, t: nat, hook: Hook, call: Call, owner: string, graph: string, url: string) {
    && j < |steps| && Calls(steps, i, j, t, hook, call) && steps[j] == Read(t, Some(graph))
    && !call.delegate && ParentOf(steps[..i], call.session) == Some(owner) && call.url == url
  }

  /** Whose PR a call names, and what opened it, after the steps before it. */
  function Names(before: seq<Step>, call: Call): Opened {
    var parent := ParentOf(before, call.session);
    if call.delegate then Opened(call.session, call.url, ByDelegate)
    else if parent.Some? then Opened(parent.value, call.url, ByChild)
    else Opened(call.session, call.url, Own)
  }

  // ---------- Runs, by their last step ----------

  lemma {:induction false} LegalPrefix(y: System, steps: seq<Step>, n: nat)
    requires Legal(y, steps) && n <= |steps|
    ensures Legal(y, steps[..n])
    decreases |steps|
  {
    if n > 0 {
      LegalPrefix(Apply(y, steps[0]), steps[1..], n - 1);
      assert steps[..n][1..] == steps[1..][..n - 1];
    }
  }

  lemma {:induction false} LastStep(y: System, steps: seq<Step>)
    requires Legal(y, steps) && steps != []
    ensures var before, last := steps[..|steps| - 1], steps[|steps| - 1];
            Legal(y, before) && Enabled(After(y, before), last) && After(y, steps) == Apply(After(y, before), last)
    decreases |steps|
  {
    var before := steps[..|steps| - 1];
    if |steps| == 1 {
      assert before == [] && steps[1..] == [];
    } else {
      LastStep(Apply(y, steps[0]), steps[1..]);
      assert before[1..] == steps[1..][..|steps| - 2];
    }
  }

  // ---------- The bridge's state, told from the calls ----------

  lemma {:induction false} ParentsAreNoted(steps: seq<Step>, child: string)
    requires Legal(START, steps)
    ensures var parents := After(START, steps).bridge.childParent;
            ParentOf(steps, child) == if child in parents then Some(parents[child]) else None
  {
    if steps != [] {
      LastStep(START, steps);
      ParentsAreNoted(steps[..|steps| - 1], child);
    }
  }

  lemma CallIsNamed(steps: seq<Step>, call: Call)
    requires Legal(START, steps) && call.session != "" && call.url != ""
    ensures OpenedPr(After(START, steps).bridge, call) == Some(Names(steps, call))
  {
    ParentsAreNoted(steps, call.session);
  }

  /** A call's thread waits for its owner's record, knowing whose PR it is. */
  lemma {:induction false} CallWaits(steps: seq<Step>, i: nat, t: nat, hook: Hook, call: Call)
    requires Legal(START, steps) && Calls(steps, i, |steps|, t, hook, call)
    ensures var y := After(START, steps); t in y.threads && y.threads[t] == AtRecord(hook, Names(steps[..i], call))
    decreases |steps|
  {
    LastStep(START, steps);
    var before := steps[..|steps| - 1];
    if i == |steps| - 1 {
      CallIsNamed(before, call);
    } else {
      assert before[..i] == steps[..i];
      assert Calls(before, i, |before|, t, hook, call);
      CallWaits(before, i, t, hook, call);
    }
  }

  lemma {:induction false} WaitingWasCalled(steps: seq<Step>, t: nat) returns (i: nat, hook: Hook, call: Call)
    requires Legal(START, steps)
    requires var y := After(START, steps); t in y.threads && y.threads[t].AtRecord?
    ensures Calls(steps, i, |steps|, t, hook, call)
    decreases |steps|
  {
    LastStep(START, steps);
    var before, last := steps[..|steps| - 1], steps[|steps| - 1];
    if last.Open? && last.t == t {
      return |steps| - 1, last.hook, last.call;
    }
    i, hook, call := WaitingWasCalled(before, t);
  }

  lemma OpenedStays(steps: seq<Step>, more: seq<Step>, owner: string, graph: string, url: string)
    requires ChildOpened(steps, owner, graph, url)
    ensures ChildOpened(steps + more, owner, graph, url)
  {
    var i: nat, j: nat, t: nat, hook: Hook, call: Call :| OpenedBy(steps, i, j, t, hook, call, owner, graph, url);
    assert (steps + more)[..i] == steps[..i];
    assert OpenedBy(steps + more, i, j, t, hook, call, owner, graph, url);
  }

  lemma ProofsChange(y: System, step: Step, owner: string, graph: string, url: string)
    requires Enabled(y, step)
    ensures url in ProvenUrls(Apply(y, step).bridge, owner, graph) <==>
            || url in ProvenUrls(y.bridge, owner, graph)
            || (step.Read? && step.plan == Some(graph) && y.threads[step.t].pr == Opened(owner, url, ByChild))
  {
  }

  /** What a read adds to the proofs is a call that was waiting for it. */
  lemma NewProofWasCalled(before: seq<Step>, last: Step, owner: string, graph: string, url: string)
    requires Legal(START, before) && last.Read? && last.plan == Some(graph) && last.t in After(START, before).threads
    requires var thread := After(START, before).threads[last.t]; thread.AtRecord? && thread.pr == Opened(owner, url, ByChild)
    ensures ChildOpened(before + [last], owner, graph, url)
  {
    hide Apply, Enabled, Legal, After;
    var steps := before + [last];
    var i, hook, call := WaitingWasCalled(before, last.t);
    CallWaits(before, i, last.t, hook, call);
    assert before[..i] == steps[..i];
    assert OpenedBy(steps, i, |before|, last.t, hook, call, owner, graph, url);
  }

  lemma OpenedBeforeOrNow(before: seq<Step>, last: Step, owner: string, graph: string, url: string)
    requires Legal(START, before) && Enabled(After(START, before), last)
    requires ChildOpened(before + [last], owner, graph, url)
    ensures || ChildOpened(before, owner, graph, url)
            || (last.Read? && last.plan == Some(graph)
                && After(START, before).threads[last.t].pr == Opened(owner, url, ByChild))
  {
    hide Apply, Legal, After, ParentOf;
    var steps := before + [last];
    var i: nat, j: nat, t: nat, hook: Hook, call: Call :| OpenedBy(steps, i, j, t, hook, call, owner, graph, url);
    assert before[..i] == steps[..i] && forall m :: 0 <= m < |before| ==> steps[m] == before[m];
    if j < |before| {
      assert OpenedBy(before, i, j, t, hook, call, owner, graph, url);
    } else {
      assert Calls(before, i, |before|, t, hook, call);
      CallWaits(before, i, t, hook, call);
    }
  }

  /** The proven URLs are exactly those a child opened. */
  lemma {:induction false} ProofsAreOpened(steps: seq<Step>, owner: string, graph: string, url: string)
    requires Legal(START, steps)
    ensures url in ProvenUrls(After(START, steps).bridge, owner, graph) <==> ChildOpened(steps, owner, graph, url)
    decreases |steps|
  {
    hide Apply, ProvenUrls;
    if steps == [] {
      NothingIsProven(owner, graph);
    } else {
      hide Legal, After, ChildOpened;
      LastStep(START, steps);
      var before, last := steps[..|steps| - 1], steps[|steps| - 1];
      assert before + [last] == steps;
      ProofsAreOpened(before, owner, graph, url);
      ProofsChange(After(START, before), last, owner, graph, url);
      if ChildOpened(before, owner, graph, url) {
        OpenedStays(before, [last], owner, graph, url);
      } else if ChildOpened(steps, owner, graph, url) {
        OpenedBeforeOrNow(before, last, owner, graph, url);
      } else if last.Read? && last.plan == Some(graph) {
        if After(START, before).threads[last.t].pr == Opened(owner, url, ByChild) {
          NewProofWasCalled(before, last, owner, graph, url);
        }
      }
    }
  }

  lemma NothingIsProven(owner: string, graph: string)
    ensures ProvenUrls(START.bridge, owner, graph) == {}
  {
  }

  // ---------- What is accepted, and what becomes of it ----------

  /**
   A call is accepted when its owner's record is read, exactly when that has a planned graph and the
   call is not a delegate result, or a child opened that URL under that graph.  The event is then the
   owner's, and its nudge names the call's URL and that graph.
   */
  lemma AcceptedIff(steps: seq<Step>, i: nat, t: nat, hook: Hook, call: Call, plan: Option<string>)
    requires Legal(START, steps) && Calls(steps, i, |steps|, t, hook, call)
    ensures Enabled(After(START, steps), Read(t, plan))
    ensures var y, names := Apply(After(START, steps), Read(t, plan)), Names(steps[..i], call);
            && (t in y.threads <==>
                  plan.Some? && (!call.delegate || ChildOpened(steps, call.session, plan.value, call.url)))
            && (t in y.threads ==>
                  y.threads[t] == AtAction(hook, Event(names.owner, Nudge(call.url, plan.value, names.origin))))
  {
    hide ChildOpened;
    CallWaits(steps, i, t, hook, call);
    if plan.Some? {
      ProofsAreOpened(steps, call.session, plan.value, call.url);
    }
  }

  /** An accepted own event is shown at once, unless that (session, URL) was shown before. */
  lemma OwnEventIsShown(steps: seq<Step>, t: nat, e: Event)
    requires Legal(START, steps) && t in After(START, steps).threads
    requires After(START, steps).threads[t] == AtAction(ToolResult, e) && !e.nudge.origin.ByChild?
    ensures var x := After(START, steps);
            var y := Apply(x, Act(t));
            if exists i :: 0 <= i < |x.shown| && Key(x.shown[i]) == (e.owner, e.nudge.url) then y.shown == x.shown
            else y.shown == x.shown + [Shown(e.owner, e.nudge)]
  {
    RunKeepsInv(START, steps);
  }

  /** Any other accepted event waits for the next turn with its own nudge, unless it was shown before. */
  lemma OtherEventWaits(steps: seq<Step>, t: nat, hook: Hook, e: Event)
    requires Legal(START, steps) && t in After(START, steps).threads
    requires After(START, steps).threads[t] == AtAction(hook, e) && (hook.PostTool? || e.nudge.origin.ByChild?)
    ensures var x := After(START, steps);
            var y := Apply(x, Act(t));
            && y.shown == x.shown
            && ((exists i :: 0 <= i < |x.shown| && Key(x.shown[i]) == (e.owner, e.nudge.url))
                || e.nudge in PendingFor(y.bridge, e.owner))
  {
    RunKeepsInv(START, steps);
    var x := After(START, steps);
    PutEffect(PendingFor(x.bridge, e.owner), e.nudge);
  }

  /** The one-call form of the event is the machine's two sections without anybody between them. */
  lemma EventIsTwoSteps(y: System, t: nat, hook: Hook, call: Call, plan: Option<string>)
    requires t !in y.threads
    ensures var begun := Apply(y, Open(t, hook, call));
            var (left, e) := PrEvent(y.bridge, call, plan);
            if t !in begun.threads then e.None? && left == y.bridge == begun.bridge
            else
              var read := Apply(begun, Read(t, plan));
              && read.bridge == left
              && (t in read.threads <==> e.Some?)
              && (e.Some? ==> read.threads[t] == AtAction(hook, e.value))
  {
  }

  // ---------- The sync nudge ----------

  /** The URL last named for the session's plan: by a queued event, or by one that was shown at once. */
  ghost function LastNamed(steps: seq<Step>, session: string, graph: string): Option<string>
    requires Legal(START, steps)
    decreases |steps|
  {
    if steps == [] then None
    else
      var last := steps[|steps| - 1];
      LastStep(START, steps);
      var x := After(START, steps[..|steps| - 1]);
      if last.Act? && Renames(x, last.t, session, graph) then Some(x.threads[last.t].event.nudge.url)
      else LastNamed(steps[..|steps| - 1], session, graph)
  }

  /** The thread's event is of that plan, and was not simply shown before. */
  ghost predicate Renames(y: System, t: nat, session: string, graph: string)
    requires Enabled(y, Act(t))
  {
    var thread := y.threads[t];
    var e := thread.event;
    && e.owner == session && e.nudge.graph == graph
    && (thread.hook.PostTool? || e.nudge.origin.ByChild?
        || forall i :: 0 <= i < |y.shown| ==> Key(y.shown[i]) != (e.owner, e.nudge.url))
  }

  lemma {:induction false} LatestIsLastNamed(steps: seq<Step>, session: string, graph: string)
    requires Legal(START, steps)
    ensures var latest := After(START, steps).bridge.latest;
            LastNamed(steps, session, graph) == if (session, graph) in latest then Some(latest[(session, graph)]) else None
    decreases |steps|
  {
    if steps != [] {
      var before := steps[..|steps| - 1];
      LastStep(START, steps);
      LatestIsLastNamed(before, session, graph);
      RunKeepsInv(START, before);
      LatestChanges(After(START, before), steps[|steps| - 1], session, graph);
    }
  }

  ghost predicate SetsLatest(old': map<(string, string), string>, new': map<(string, string), string>, k: (string, string),
                             url: Option<string>) {
    if url.Some? then k in new' && new'[k] == url.value
    else (k in new' <==> k in old') && (k in old' ==> new'[k] == old'[k])
  }

  lemma ActSetsLatest(y: System, t: nat, session: string, graph: string)
    requires ShownOnce(y) && Enabled(y, Act(t))
    ensures SetsLatest(y.bridge.latest, Apply(y, Act(t)).bridge.latest, (session, graph),
                       if Renames(y, t, session, graph) then Some(y.threads[t].event.nudge.url) else None)
  {
    var e := y.threads[t].event;
    assert (e.owner, e.nudge.url) in y.bridge.delivered <==>
           exists i :: 0 <= i < |y.shown| && Key(y.shown[i]) == (e.owner, e.nudge.url);
    hide ShownOnce, PendingFor, Put;
  }

  lemma LatestChanges(y: System, step: Step, session: string, graph: string)
    requires ShownOnce(y) && Enabled(y, step)
    ensures SetsLatest(y.bridge.latest, Apply(y, step).bridge.latest, (session, graph),
                       if step.Act? && Renames(y, step.t, session, graph) then Some(y.threads[step.t].event.nudge.url) else None)
  {
    if step.Act? {
      ActSetsLatest(y, step.t, session, graph);
    } else {
      hide ShownOnce, Renames, Undelivered, Proven, OpenedPr, ProvenUrls;
    }
  }

  lemma {:induction false} SyncedAreNudged(steps: seq<Step>, session: string, graph: string)
    requires Legal(START, steps)
    ensures (session, graph) in After(START, steps).bridge.syncNudged <==>
            exists i :: 0 <= i < |steps| && steps[i] == Sync(session, graph)
    decreases |steps|
  {
    if steps != [] {
      var before := steps[..|steps| - 1];
      LastStep(START, steps);
      SyncedAreNudged(before, session, graph);
      assert forall i :: 0 <= i < |before| ==> before[i] == steps[i];
    }
  }

  /** pre_verify nudges exactly the first time for a plan, with the URL last named for it, or with none. */
  lemma SyncNudgesFirstTime(steps: seq<Step>, session: string, graph: string)
    requires Legal(START, steps)
    ensures var y := After(START, steps);
            var url, named := SyncNudge(y.bridge, session, graph).1, LastNamed(steps, session, graph);
            && (url.Some? <==> forall i :: 0 <= i < |steps| ==> steps[i] != Sync(session, graph))
            && (url.Some? ==> url.value == if named.Some? then named.value else "")
            && Apply(y, Sync(session, graph)).synced == if url.Some? then y.synced + [(session, graph)] else y.synced
  {
    LatestIsLastNamed(steps, session, graph);
    SyncedAreNudged(steps, session, graph);
  }
}
