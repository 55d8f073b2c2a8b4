/** The pull-request nudges of hosts/hermes/bridge.py. */
module PrNudges {
  // Hooks fire from many threads; each section under `_pr_lock` is one step, and the threads'
  // hooks interleave in any order.  Session ids, URLs and graph ids are already extracted and
  // stripped; the plan a session record holds when a hook reads it comes from outside.

  import opened Base

  /** What proved that the PR was opened. */
  datatype Origin = Own | ByChild | ByDelegate

  /** A nudge names the PR and the graph of the plan it was opened under. */
  datatype Nudge = Nudge(url: string, graph: string, origin: Origin)

  /** A tool call that names a PR URL: `gh pr create` or a PR tool, or a delegate_task result. */
  datatype Call = Call(session: string, url: string, delegate: bool)

  datatype State = State(
    delivered: set<(string, string)>,
    pending: map<string, seq<Nudge>>,
    latest: map<(string, string), string>,
    childParent: map<string, string>,
    childOpened: map<(string, string), set<string>>,
    syncNudged: set<(string, string)>)

  const INITIAL := State({}, map[], map[], map[], map[], {})

  /** (owner, URL) of an opened PR and what opened it: a child's PR belongs to its parent. */
  datatype Opened = Opened(owner: string, url: string, origin: Origin)

  datatype Event = Event(owner: string, nudge: Nudge)

  // ---------- The sections under the lock ----------

  function NoteSubagent(s: State, child: string, parent: string): State {
    if child == "" || parent == "" then s else s.(childParent := s.childParent[child := parent])
  }

  function OpenedPr(s: State, call: Call): Option<Opened> {
    if call.session == "" || call.url == "" then None
    else if call.delegate then Some(Opened(call.session, call.url, ByDelegate))
    else if call.session in s.childParent then Some(Opened(s.childParent[call.session], call.url, ByChild))
    else Some(Opened(call.session, call.url, Own))
  }

  function ProvenUrls(s: State, owner: string, graph: string): set<string> {
    if (owner, graph) in s.childOpened then s.childOpened[(owner, graph)] else {}
  }

  /** The proof section of _pr_event, for the graph of the owner's plan. */
  function NoteProof(s: State, o: Opened, graph: string): State {
    if o.origin.ByChild?
    then s.(childOpened := s.childOpened[(o.owner, graph) := ProvenUrls(s, o.owner, graph) + {o.url}])
    else s
  }

  predicate Proven(s: State, o: Opened, graph: string) {
    o.origin.ByDelegate? ==> o.url in ProvenUrls(s, o.owner, graph)
  }

  /** Assignment to a key of a Python dict: an existing key keeps its place. */
  function Put(queue: seq<Nudge>, n: Nudge): seq<Nudge> {
    if queue == [] then [n]
    else if queue[0].url == n.url then [n] + queue[1..]
    else [queue[0]] + Put(queue[1..], n)
  }

  function PendingFor(s: State, session: string): seq<Nudge> {
    if session in s.pending then s.pending[session] else []
  }

  function Queue(s: State, e: Event): State {
    var s' := s.(latest := s.latest[(e.owner, e.nudge.graph) := e.nudge.url]);
    if (e.owner, e.nudge.url) in s.delivered then s'
    else s'.(pending := s.pending[e.owner := Put(PendingFor(s, e.owner), e.nudge)])
  }

  /** The delivery section of pr_tool_result: shown now, unless it was shown before. */
  function Deliver(s: State, e: Event): (r: (State, bool)) {
    if (e.owner, e.nudge.url) in s.delivered then (s, false)
    else (s.(delivered := s.delivered + {(e.owner, e.nudge.url)},
             latest := s.latest[(e.owner, e.nudge.graph) := e.nudge.url]), true)
  }

  function Undelivered(delivered: set<(string, string)>, session: string, queue: seq<Nudge>): seq<Nudge> {
    if queue == [] then []
    else (if (session, queue[0].url) in delivered then [] else [queue[0]]) + Undelivered(delivered, session, queue[1..])
  }

  function TakePrNudges(s: State, session: string): (State, seq<Nudge>) {
    var queued := PendingFor(s, session);
    (s.(pending := s.pending - {session},
        delivered := s.delivered + set n | n in queued :: (session, n.url)),
     Undelivered(s.delivered, session, queued))
  }

  /** The section of sync_nudge, for a session whose record is tracked and not synced. */
  function SyncNudge(s: State, session: string, graph: string): (State, Option<string>) {
    if (session, graph) in s.syncNudged then (s, None)
    else (s.(syncNudged := s.syncNudged + {(session, graph)}),
          Some(if (session, graph) in s.latest then s.latest[(session, graph)] else ""))
  }

  /** _pr_event: the state it leaves and the event it accepts; `graph` is the owner's planned graph, if any. */
  function PrEvent(s: State, call: Call, graph: Option<string>): (State, Option<Event>) {
    match OpenedPr(s, call)
    case None => (s, None)
    case Some(o) =>
      if graph.None? then (s, None)
      else if !Proven(s, o, graph.value) then (s, None)
      else (NoteProof(s, o, graph.value), Some(Event(o.owner, Nudge(o.url, graph.value, o.origin))))
  }

  // ---------- The module's state, changed in place ----------

  class Bridge {
    var delivered: set<(string, string)>
    var pending: map<string, seq<Nudge>>
    var latest: map<(string, string), string>
    var childParent: map<string, string>
    var childOpened: map<(string, string), set<string>>
    var syncNudged: set<(string, string)>

    function Model(): State
      reads this
    {
      State(delivered, pending, latest, childParent, childOpened, syncNudged)
    }

    constructor ()
      ensures Model() == INITIAL
    {
      delivered, pending, latest, childParent, childOpened, syncNudged := {}, map[], map[], map[], map[], {};
    }

    method NoteSubagentHook(child: string, parent: string)
      modifies this
      ensures Model() == NoteSubagent(old(Model()), child, parent)
    {
      if child != "" && parent != "" {
        childParent := childParent[child := parent];
      }
    }

    method Accept(call: Call, graph: Option<string>) returns (e: Option<Event>)
      modifies this
      ensures Model() == PrEvent(old(Model()), call, graph).0
      ensures e == PrEvent(old(Model()), call, graph).1
    {
      if call.session == "" || call.url == "" || graph.None? {
        return None;
      }
      var owner, origin := call.session, ByDelegate;
      if !call.delegate {
        if call.session in childParent {
          owner, origin := childParent[call.session], ByChild;
        } else {
          origin := Own;
        }
      }
      var key := (owner, graph.value);
      if origin == ByChild {
        childOpened := childOpened[key := (if key in childOpened then childOpened[key] else {}) + {call.url}];
      } else if origin == ByDelegate {
        if !(key in childOpened && call.url in childOpened[key]) {
          return None;
        }
      }
      e := Some(Event(owner, Nudge(call.url, graph.value, origin)));
    }

    method Hold(e: Event)
      modifies this
      ensures Model() == Queue(old(Model()), e)
    {
      if (e.owner, e.nudge.url) !in delivered {
        var queue := if e.owner in pending then pending[e.owner] else [];
        pending := pending[e.owner := Put(queue, e.nudge)];
      }
      latest := latest[(e.owner, e.nudge.graph) := e.nudge.url];
    }

    /** pr_tool_result: whether the nudge is appended to the text result the model reads. */
    method PrToolResult(call: Call, isText: bool, graph: Option<string>) returns (shown: Option<Nudge>)
      modifies this
      ensures !isText ==> Model() == old(Model()) && shown == None
      ensures isText ==>
                var (s, e) := PrEvent(old(Model()), call, graph);
                if e.None? then Model() == s && shown == None
                else if e.value.nudge.origin.ByChild? then Model() == Queue(s, e.value) && shown == None
                else Model() == Deliver(s, e.value).0
                     && shown == if Deliver(s, e.value).1 then Some(e.value.nudge) else None
    {
      if !isText {
        return None;
      }
      var e := Accept(call, graph);
      if e.None? {
        return None;
      }
      if e.value.nudge.origin.ByChild? {
        Hold(e.value);
        return None;
      }
      var key := (e.value.owner, e.value.nudge.url);
      if key in delivered {
        return None;
      }
      delivered := delivered + {key};
      latest := latest[(e.value.owner, e.value.nudge.graph) := e.value.nudge.url];
      shown := Some(e.value.nudge);
    }

    /** queue_pr_nudge */
    method QueuePrNudge(call: Call, graph: Option<string>)
      modifies this
      ensures var (s, e) := PrEvent(old(Model()), call, graph);
              Model() == if e.None? then s else Queue(s, e.value)
    {
      var e := Accept(call, graph);
      if e.Some? {
        Hold(e.value);
      }
    }

    /** take_pr_nudges: the nudges added to the session's next turn. */
    method TakeNudges(session: string) returns (nudges: seq<Nudge>)
      modifies this
      ensures Model() == TakePrNudges(old(Model()), session).0
      ensures nudges == TakePrNudges(old(Model()), session).1
    {
      var queued := if session in pending then pending[session] else [];
      pending := pending - {session};
      nudges := Undelivered(delivered, session, queued);
      delivered := delivered + set n | n in queued :: (session, n.url);
    }

    /** sync_nudge past its record checks: the URL the message names, or nothing. */
    method SyncNudgeHook(session: string, graph: string) returns (url: Option<string>)
      modifies this
      ensures Model() == SyncNudge(old(Model()), session, graph).0
      ensures url == SyncNudge(old(Model()), session, graph).1
    {
      if (session, graph) in syncNudged {
        return None;
      }
      syncNudged := syncNudged + {(session, graph)};
      url := Some(if (session, graph) in latest then latest[(session, graph)] else "");
    }
  }

  // ---------- Any interleaving of the hooks ----------

  datatype Hook = ToolResult | PostTool

  /** A hook between its sections. */
  datatype Thread =
    | AtRecord(hook: Hook, pr: Opened)   // _opened_pr returned; the record read and the proof section come next
    | AtAction(hook: Hook, event: Event)     // _pr_event accepted the event

  /** A nudge the model read, and in which session. */
  datatype Shown = Shown(session: string, nudge: Nudge)

  /** The module's state, the hooks under way, and what happened so far. */
  datatype System = System(
    bridge: State,
    threads: map<nat, Thread>,
    shown: seq<Shown>,
    synced: seq<(string, string)>,
    accepted: set<(string, string)>,
    childPrs: set<(string, string, string)>)   // (session, graph, URL) that a child opened

  datatype Step =
    | Note(child: string, parent: string)
    | Open(t: nat, hook: Hook, call: Call)
    | Read(t: nat, plan: Option<string>)
    | Act(t: nat)
    | Take(session: string)
    | Sync(session: string, graph: string)

  const START := System(INITIAL, map[], [], [], {}, {})

  predicate Enabled(y: System, step: Step) {
    match step
    case Open(t, _, _) => t !in y.threads
    case Read(t, _) => t in y.threads && y.threads[t].AtRecord?
    case Act(t) => t in y.threads && y.threads[t].AtAction?
    case _ => true
  }

  function ShownAll(session: string, nudges: seq<Nudge>): (r: seq<Shown>)
    ensures |r| == |nudges|
  {
    seq(|nudges|, i requires 0 <= i < |nudges| => Shown(session, nudges[i]))
  }

  function Apply(y: System, step: Step): System
    requires Enabled(y, step)
  {
    match step
    case Note(child, parent) => y.(bridge := NoteSubagent(y.bridge, child, parent))
    case Open(t, hook, call) =>
      (match OpenedPr(y.bridge, call)
       case None => y
       case Some(o) => y.(threads := y.threads[t := AtRecord(hook, o)]))
    case Read(t, graph) =>
      var o := y.threads[t].pr;
      if graph.None? || !Proven(y.bridge, o, graph.value) then y.(threads := y.threads - {t})
      else
        y.(bridge := NoteProof(y.bridge, o, graph.value),
           threads := y.threads[t := AtAction(y.threads[t].hook, Event(o.owner, Nudge(o.url, graph.value, o.origin)))],
           childPrs := if o.origin.ByChild? then y.childPrs + {(o.owner, graph.value, o.url)} else y.childPrs)
    case Act(t) =>
      var e := y.threads[t].event;
      var done := y.(threads := y.threads - {t}, accepted := y.accepted + {(e.owner, e.nudge.url)});
      if y.threads[t].hook.PostTool? || e.nudge.origin.ByChild? then done.(bridge := Queue(y.bridge, e))
      else
        var (b, now) := Deliver(y.bridge, e);
        done.(bridge := b, shown := if now then y.shown + [Shown(e.owner, e.nudge)] else y.shown)
    case Take(session) =>
      var (b, nudges) := TakePrNudges(y.bridge, session);
      y.(bridge := b, shown := y.shown + ShownAll(session, nudges))
    case Sync(session, graph) =>
      var (b, url) := SyncNudge(y.bridge, session, graph);
      y.(bridge := b, synced := if url.Some? then y.synced + [(session, graph)] else y.synced)
  }

  ghost predicate Legal(y: System, steps: seq<Step>)
    decreases |steps|
  {
    steps == [] || (Enabled(y, steps[0]) && Legal(Apply(y, steps[0]), steps[1..]))
  }

  ghost function After(y: System, steps: seq<Step>): System
    requires Legal(y, steps)
    decreases |steps|
  {
    if steps == [] then y else After(Apply(y, steps[0]), steps[1..])
  }

  // ---------- The invariant ----------

  function Key(x: Shown): (string, string) { (x.session, x.nudge.url) }

  ghost predicate DistinctUrls(queue: seq<Nudge>) {
    forall i, j :: 0 <= i < j < |queue| ==> queue[i].url != queue[j].url
  }

  predicate InQueue(s: State, session: string, url: string) {
    exists n :: n in PendingFor(s, session) && n.url == url
  }

  /** Each (session, URL) was shown at most once, and the delivered set is exactly what was shown. */
  ghost predicate ShownOnce(y: System) {
    && (forall i, j :: 0 <= i < j < |y.shown| ==> Key(y.shown[i]) != Key(y.shown[j]))
    && (forall i :: 0 <= i < |y.shown| ==> Key(y.shown[i]) in y.bridge.delivered)
    && (forall k :: k in y.bridge.delivered ==> exists i :: 0 <= i < |y.shown| && Key(y.shown[i]) == k)
    && (forall session :: DistinctUrls(PendingFor(y.bridge, session)))
  }

  /** An accepted event was delivered or is pending. */
  ghost predicate NothingLost(y: System) {
    forall a :: a in y.accepted ==> a in y.bridge.delivered || InQueue(y.bridge, a.0, a.1)
  }

  /** A nudge that a child's PR or a delegate result gave rise to names a PR a child opened under that graph. */
  predicate Backed(y: System, session: string, n: Nudge) {
    n.origin.Own? || (session, n.graph, n.url) in y.childPrs
  }

  ghost predicate Scoped(y: System) {
    && (forall k, u :: k in y.bridge.childOpened && u in y.bridge.childOpened[k] ==> (k.0, k.1, u) in y.childPrs)
    && (forall t :: t in y.threads && y.threads[t].AtAction? ==> Backed(y, y.threads[t].event.owner, y.threads[t].event.nudge))
    && (forall session, n :: n in PendingFor(y.bridge, session) ==> Backed(y, session, n))
    && (forall i :: 0 <= i < |y.shown| ==> Backed(y, y.shown[i].session, y.shown[i].nudge))
  }

  /** Sync nudges are given once per plan. */
  ghost predicate SyncedOnce(y: System) {
    && (forall i, j :: 0 <= i < j < |y.synced| ==> y.synced[i] != y.synced[j])
    && (forall i :: 0 <= i < |y.synced| ==> y.synced[i] in y.bridge.syncNudged)
  }

  ghost predicate LatestAccepted(y: System) {
    forall k :: k in y.bridge.latest ==> (k.0, y.bridge.latest[k]) in y.accepted
  }

  // ---------- Queues ----------

  lemma {:induction false} PutEffect(queue: seq<Nudge>, n: Nudge)
    requires DistinctUrls(queue)
    ensures DistinctUrls(Put(queue, n))
    ensures forall m :: m in Put(queue, n) <==> m == n || (m in queue && m.url != n.url)
  {
    if queue != [] {
      assert DistinctUrls(queue[1..]);
      PutEffect(queue[1..], n);
      assert queue == [queue[0]] + queue[1..];
      if queue[0].url == n.url {
        assert forall m :: m in queue[1..] ==> m.url != n.url;
      } else {
        var rest := Put(queue[1..], n);
        assert Put(queue, n) == [queue[0]] + rest;
        assert forall m :: m in rest ==> m.url != queue[0].url;
      }
    }
  }

  lemma {:induction false} UndeliveredEffect(delivered: set<(string, string)>, session: string, queue: seq<Nudge>)
    requires DistinctUrls(queue)
    ensures DistinctUrls(Undelivered(delivered, session, queue))
    ensures forall m :: m in Undelivered(delivered, session, queue) <==> m in queue && (session, m.url) !in delivered
  {
    if queue != [] {
      assert DistinctUrls(queue[1..]);
      UndeliveredEffect(delivered, session, queue[1..]);
      assert queue == [queue[0]] + queue[1..];
      assert forall m :: m in queue[1..] ==> m.url != queue[0].url;
    }
  }

  /** A URL that waits already keeps its place, with the new nudge; another one joins at the end. */
  lemma {:induction false} PutKeepsPlaces(queue: seq<Nudge>, n: Nudge)
    requires DistinctUrls(queue)
    ensures forall i :: 0 <= i < |queue| && queue[i].url == n.url ==> Put(queue, n) == queue[i := n]
    ensures (forall i :: 0 <= i < |queue| ==> queue[i].url != n.url) ==> Put(queue, n) == queue + [n]
  {
    if queue != [] && queue[0].url != n.url {
      assert DistinctUrls(queue[1..]);
      PutKeepsPlaces(queue[1..], n);
      forall i | 0 <= i < |queue| && queue[i].url == n.url ensures Put(queue, n) == queue[i := n] {
        assert queue[1..][i - 1] == queue[i];
        assert queue[i := n] == [queue[0]] + queue[1..][i - 1 := n];
      }
      if forall i :: 0 <= i < |queue| ==> queue[i].url != n.url {
        assert forall i :: 0 <= i < |queue[1..]| ==> queue[1..][i] == queue[i + 1];
        assert queue + [n] == [queue[0]] + (queue[1..] + [n]);
      }
    }
  }

  /** What is handed out stands in the order of the queue: queues are gone through one nudge at a time. */
  lemma {:induction false} UndeliveredInOrder(delivered: set<(string, string)>, session: string, a: seq<Nudge>, b: seq<Nudge>)
    ensures Undelivered(delivered, session, a + b) == Undelivered(delivered, session, a) + Undelivered(delivered, session, b)
    ensures |a| == 1 ==> Undelivered(delivered, session, a) == if (session, a[0].url) in delivered then [] else a
  {
    if a == [] {
      assert a + b == b;
    } else {
      assert (a + b)[1..] == a[1..] + b;
      UndeliveredInOrder(delivered, session, a[1..], b);
    }
  }

  // ---------- Each step ----------

  lemma QueueKeepsDistinct(s: State, e: Event)
    requires forall session :: DistinctUrls(PendingFor(s, session))
    ensures forall session :: DistinctUrls(PendingFor(Queue(s, e), session))
    ensures forall session, n :: n in PendingFor(Queue(s, e), session) ==>
              n in PendingFor(s, session) || (session == e.owner && n == e.nudge)
    ensures forall session, n :: n in PendingFor(s, session) ==> InQueue(Queue(s, e), session, n.url)
    ensures (e.owner, e.nudge.url) in s.delivered || InQueue(Queue(s, e), e.owner, e.nudge.url)
  {
    var queue := PendingFor(s, e.owner);
    PutEffect(queue, e.nudge);
    forall session ensures DistinctUrls(PendingFor(Queue(s, e), session)) {
      assert DistinctUrls(PendingFor(s, session));
    }
    forall session, n | n in PendingFor(s, session) ensures InQueue(Queue(s, e), session, n.url) {
      if session == e.owner && (e.owner, e.nudge.url) !in s.delivered {
        if n.url == e.nudge.url {
          assert e.nudge in PendingFor(Queue(s, e), session);
        } else {
          assert n in PendingFor(Queue(s, e), session);
        }
      } else {
        assert n in PendingFor(Queue(s, e), session);
      }
    }
    if (e.owner, e.nudge.url) !in s.delivered {
      assert e.nudge in PendingFor(Queue(s, e), e.owner);
    }
  }

  lemma TakeKeepsShown(y: System, session: string)
    requires ShownOnce(y)
    ensures ShownOnce(Apply(y, Take(session)))
  {
    var z := Apply(y, Take(session));
    var queued := PendingFor(y.bridge, session);
    assert DistinctUrls(queued);
    UndeliveredEffect(y.bridge.delivered, session, queued);
    var nudges := Undelivered(y.bridge.delivered, session, queued);
    var n := |y.shown|;
    forall i | n <= i < |z.shown| ensures z.shown[i] == Shown(session, nudges[i - n]) && Key(z.shown[i]) !in y.bridge.delivered {
      assert nudges[i - n] in nudges;
    }
    forall i, j | 0 <= i < j < |z.shown| ensures Key(z.shown[i]) != Key(z.shown[j]) {
      if i < n {
        assert Key(y.shown[i]) in y.bridge.delivered;
      }
    }
    forall i | 0 <= i < |z.shown| ensures Key(z.shown[i]) in z.bridge.delivered {
      if i >= n {
        assert nudges[i - n] in queued;
      }
    }
    forall k | k in z.bridge.delivered ensures exists i :: 0 <= i < |z.shown| && Key(z.shown[i]) == k {
      if k in y.bridge.delivered {
        var i :| 0 <= i < |y.shown| && Key(y.shown[i]) == k;
        assert z.shown[i] == y.shown[i];
      } else {
        var m :| m in queued && (session, m.url) == k;
        assert m in nudges;
        var i :| 0 <= i < |nudges| && nudges[i] == m;
        assert z.shown[n + i] == Shown(session, m);
      }
    }
    forall s ensures DistinctUrls(PendingFor(z.bridge, s)) {
      assert DistinctUrls(PendingFor(y.bridge, s));
    }
  }

  lemma DeliverKeepsShown(y: System, t: nat)
    requires ShownOnce(y) && Enabled(y, Act(t)) && Apply(y, Act(t)).shown != y.shown
    ensures ShownOnce(Apply(y, Act(t)))
  {
    hide Queue, Put;
    var z := Apply(y, Act(t));
    forall k | k in z.bridge.delivered ensures exists i :: 0 <= i < |z.shown| && Key(z.shown[i]) == k {
      if k in y.bridge.delivered {
        var i :| 0 <= i < |y.shown| && Key(y.shown[i]) == k;
        assert z.shown[i] == y.shown[i];
      } else {
        assert Key(z.shown[|y.shown|]) == k;
      }
    }
    forall s ensures DistinctUrls(PendingFor(z.bridge, s)) {
      assert PendingFor(z.bridge, s) == PendingFor(y.bridge, s);
    }
  }

  lemma QueueKeepsShown(y: System, t: nat)
    requires ShownOnce(y) && Enabled(y, Act(t)) && Apply(y, Act(t)).shown == y.shown
    ensures ShownOnce(Apply(y, Act(t)))
  {
    var z := Apply(y, Act(t));
    var e := y.threads[t].event;
    QueueKeepsDistinct(y.bridge, e);
    assert z.bridge == y.bridge || z.bridge == Queue(y.bridge, e);
    assert z.bridge.delivered == y.bridge.delivered;
  }

  lemma StepKeepsShown(y: System, step: Step)
    requires ShownOnce(y) && Enabled(y, step)
    ensures ShownOnce(Apply(y, step))
  {
    var z := Apply(y, step);
    match step
    case Take(session) => TakeKeepsShown(y, session);
    case Act(t) =>
      if z.shown != y.shown {
        DeliverKeepsShown(y, t);
      } else {
        QueueKeepsShown(y, t);
      }
    case _ =>
      forall s ensures DistinctUrls(PendingFor(z.bridge, s)) {
        assert PendingFor(z.bridge, s) == PendingFor(y.bridge, s);
      }
  }

  lemma StepLosesNothing(y: System, step: Step)
    requires ShownOnce(y) && NothingLost(y) && Enabled(y, step)
    ensures NothingLost(Apply(y, step))
  {
    var z := Apply(y, step);
    forall a | a in z.accepted ensures a in z.bridge.delivered || InQueue(z.bridge, a.0, a.1) {
      if step.Act? {
        var e := y.threads[step.t].event;
        QueueKeepsDistinct(y.bridge, e);
        if a in y.accepted && a !in y.bridge.delivered {
          var n :| n in PendingFor(y.bridge, a.0) && n.url == a.1;
          assert n in PendingFor(y.bridge, a.0);
        }
      } else {
        assert a in y.accepted;
        if a !in y.bridge.delivered {
          var n :| n in PendingFor(y.bridge, a.0) && n.url == a.1;
          if step.Take? && step.session == a.0 {
            assert (a.0, n.url) in z.bridge.delivered;
          } else {
            assert n in PendingFor(z.bridge, a.0);
          }
        }
      }
    }
  }

  lemma ActKeepsScope(y: System, t: nat)
    requires ShownOnce(y) && Scoped(y) && Enabled(y, Act(t))
    ensures Scoped(Apply(y, Act(t)))
  {
    var z, e := Apply(y, Act(t)), y.threads[t].event;
    assert Backed(y, e.owner, e.nudge);
    QueueKeepsDistinct(y.bridge, e);
    forall session, n | n in PendingFor(z.bridge, session) ensures Backed(z, session, n) {
      assert n in PendingFor(y.bridge, session) || (session == e.owner && n == e.nudge);
    }
    forall i | 0 <= i < |z.shown| ensures Backed(z, z.shown[i].session, z.shown[i].nudge) {
      assert i < |y.shown| ==> Backed(y, y.shown[i].session, y.shown[i].nudge);
    }
  }

  lemma TakeKeepsScope(y: System, session: string)
    requires ShownOnce(y) && Scoped(y)
    ensures Scoped(Apply(y, Take(session)))
  {
    var z, queued := Apply(y, Take(session)), PendingFor(y.bridge, session);
    assert DistinctUrls(queued);
    UndeliveredEffect(y.bridge.delivered, session, queued);
    var nudges := Undelivered(y.bridge.delivered, session, queued);
    forall s, n | n in PendingFor(z.bridge, s) ensures Backed(z, s, n) {
      assert n in PendingFor(y.bridge, s);
    }
    forall i | 0 <= i < |z.shown| ensures Backed(z, z.shown[i].session, z.shown[i].nudge) {
      if i < |y.shown| {
        assert Backed(y, y.shown[i].session, y.shown[i].nudge);
      } else {
        assert nudges[i - |y.shown|] in queued;
      }
    }
  }

  lemma ReadKeepsScope(y: System, t: nat, graph: Option<string>)
    requires Scoped(y) && Enabled(y, Read(t, graph))
    ensures Scoped(Apply(y, Read(t, graph)))
  {
    var z := Apply(y, Read(t, graph));
    forall session, n | n in PendingFor(z.bridge, session) ensures Backed(z, session, n) {
      assert n in PendingFor(y.bridge, session);
    }
    forall i | 0 <= i < |z.shown| ensures Backed(z, z.shown[i].session, z.shown[i].nudge) {
      assert Backed(y, y.shown[i].session, y.shown[i].nudge);
    }
  }

  lemma StepKeepsScope(y: System, step: Step)
    requires ShownOnce(y) && Scoped(y) && Enabled(y, step)
    ensures Scoped(Apply(y, step))
  {
    match step
    case Act(t) => ActKeepsScope(y, t);
    case Take(session) => TakeKeepsScope(y, session);
    case Read(t, graph) => ReadKeepsScope(y, t, graph);
    case _ =>
      var z := Apply(y, step);
      forall session, n | n in PendingFor(z.bridge, session) ensures Backed(z, session, n) {
        assert n in PendingFor(y.bridge, session);
      }
      forall i | 0 <= i < |z.shown| ensures Backed(z, z.shown[i].session, z.shown[i].nudge) {
        assert Backed(y, y.shown[i].session, y.shown[i].nudge);
      }
  }

  lemma StepKeepsSync(y: System, step: Step)
    requires SyncedOnce(y) && Enabled(y, step)
    ensures SyncedOnce(Apply(y, step))
  {
    if step.Sync? {
    } else {
      assert Apply(y, step).synced == y.synced && Apply(y, step).bridge.syncNudged == y.bridge.syncNudged;
    }
  }

  lemma StepKeepsLatest(y: System, step: Step)
    requires LatestAccepted(y) && Enabled(y, step)
    ensures LatestAccepted(Apply(y, step))
  {
    if step.Act? {
    } else {
      assert Apply(y, step).accepted == y.accepted && Apply(y, step).bridge.latest == y.bridge.latest;
    }
  }

  ghost predicate Inv(y: System) {
    ShownOnce(y) && NothingLost(y) && Scoped(y) && SyncedOnce(y) && LatestAccepted(y)
  }

  lemma {:induction false} RunKeepsInv(y: System, steps: seq<Step>)
    requires Inv(y) && Legal(y, steps)
    ensures Inv(After(y, steps))
    decreases |steps|
  {
    if steps != [] {
      StepKeepsShown(y, steps[0]);
      StepLosesNothing(y, steps[0]);
      StepKeepsScope(y, steps[0]);
      StepKeepsSync(y, steps[0]);
      StepKeepsLatest(y, steps[0]);
      RunKeepsInv(Apply(y, steps[0]), steps[1..]);
    }
  }

  // ---------- What every interleaving keeps ----------

  /** The model is shown each (session, URL) at most once. */
  lemma ShownAtMostOnce(steps: seq<Step>, i: nat, j: nat)
    requires Legal(START, steps)
    requires i < |After(START, steps).shown| && j < |After(START, steps).shown|
    requires Key(After(START, steps).shown[i]) == Key(After(START, steps).shown[j])
    ensures i == j
  {
    RunKeepsInv(START, steps);
  }

  /** Every accepted event was shown, or still waits in its session's queue. */
  lemma AcceptedIsShownOrPending(steps: seq<Step>, session: string, url: string)
    requires Legal(START, steps) && (session, url) in After(START, steps).accepted
    ensures var y := After(START, steps);
            (exists i :: 0 <= i < |y.shown| && Key(y.shown[i]) == (session, url)) || InQueue(y.bridge, session, url)
  {
    RunKeepsInv(START, steps);
  }

  /** The session's next turn drains it: then every accepted event of that session was shown exactly once. */
  lemma NextTurnDrains(steps: seq<Step>, session: string, url: string)
    requires Legal(START, steps) && (session, url) in After(START, steps).accepted
    ensures var y := Apply(After(START, steps), Take(session));
            && PendingFor(y.bridge, session) == []
            && exists i :: 0 <= i < |y.shown| && Key(y.shown[i]) == (session, url)
                           && forall j :: 0 <= j < |y.shown| && Key(y.shown[j]) == (session, url) ==> j == i
  {
    RunKeepsInv(START, steps);
    var x := After(START, steps);
    var y := Apply(x, Take(session));
    StepKeepsShown(x, Take(session));
    StepLosesNothing(x, Take(session));
    assert PendingFor(y.bridge, session) == [];
    assert (session, url) in y.bridge.delivered;
    var i :| 0 <= i < |y.shown| && Key(y.shown[i]) == (session, url);
  }

  /** A delegate result, or a child's PR, is shown only for a URL a child opened under the same graph. */
  lemma DelegateNudgesAreProven(steps: seq<Step>, i: nat)
    requires Legal(START, steps) && i < |After(START, steps).shown|
    requires !After(START, steps).shown[i].nudge.origin.Own?
    ensures var x := After(START, steps).shown[i];
            (x.session, x.nudge.graph, x.nudge.url) in After(START, steps).childPrs
  {
    RunKeepsInv(START, steps);
    assert Backed(After(START, steps), After(START, steps).shown[i].session, After(START, steps).shown[i].nudge);
  }

  /** pre_verify continues a turn once per plan, and names only a URL accepted for that session. */
  lemma SyncNudgeOncePerPlan(steps: seq<Step>, session: string, graph: string)
    requires Legal(START, steps)
    ensures var y := After(START, steps);
            var url := SyncNudge(y.bridge, session, graph).1;
            && (forall i, j :: 0 <= i < j < |y.synced| ==> y.synced[i] != y.synced[j])
            && ((session, graph) in y.synced ==> url == None)
            && (url.Some? && url.value != "" ==> (session, url.value) in y.accepted)
  {
    RunKeepsInv(START, steps);
  }
}
