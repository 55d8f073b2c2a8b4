/**
 /ultrathink-quick of hosts/hermes/bridge.py: a marker for each message handed to Hermes as the
 next turn, which that turn takes and so stays unplanned.  Sections under `_quick_lock` are single
 steps of any number of threads.
 */
module QuickMarkers {

  /** `_take_quick` for a stripped prompt: its own marker first, then that of the prompt without its sender tag. */
  function KeyFor(pending: multiset<string>, prompt: string, untagged: string): seq<string> {
    if prompt in pending then [prompt] else if untagged in pending then [untagged] else []
  }

  function Take(pending: multiset<string>, prompt: string, untagged: string): (multiset<string>, bool) {
    var key := KeyFor(pending, prompt, untagged);
    if key == [] then (pending, false) else (pending - multiset{key[0]}, true)
  }

  class Markers {
    var pending: map<string, nat>

    /** No zero counts are kept. */
    ghost predicate Valid()
      reads this
    {
      forall k :: k in pending ==> pending[k] > 0
    }

    ghost predicate Shows(m: multiset<string>)
      reads this
    {
      forall k: string :: m[k] == if k in pending then pending[k] else 0
    }

    constructor ()
      ensures Valid() && Shows(multiset{})
    {
      pending := map[];
    }

    /** The arming section of quick. */
    method Arm(text: string, ghost m: multiset<string>)
      requires Valid() && Shows(m)
      modifies this
      ensures Valid() && Shows(m + multiset{text})
    {
      pending := pending[text := (if text in pending then pending[text] else 0) + 1];
    }

    method Pop(key: string, ghost m: multiset<string>) returns (found: bool)
      requires Valid() && Shows(m)
      modifies this
      ensures found <==> key in m
      ensures Valid() && Shows(if found then m - multiset{key} else m)
    {
      var count := if key in pending then pending[key] else 0;
      pending := pending - {key};
      if count > 1 {
        pending := pending[key := count - 1];
      }
      found := count > 0;
    }

    /** _take_quick */
    method TakeQuick(prompt: string, untagged: string, ghost m: multiset<string>) returns (taken: bool)
      requires Valid() && Shows(m)
      modifies this
      ensures taken == Take(m, prompt, untagged).1
      ensures Valid() && Shows(Take(m, prompt, untagged).0)
    {
      taken := Pop(prompt, m);
      if !taken && untagged != prompt {
        taken := Pop(untagged, m);
      }
    }
  }

  // ---------- Any interleaving of commands and turns ----------

  /** Markers, commands between arming and the answer of inject, and accepted messages whose turn is to come. */
  datatype State = State(pending: multiset<string>, asking: multiset<string>, coming: multiset<string>)

  datatype Step =
    | Arm(text: string)
    | Accepted(text: string)                                    // Hermes took the message; inject may return later
    | Refused(text: string, untagged: string)                   // inject failed: the command takes its marker back
    | InjectedTurn(text: string, prompt: string, untagged: string)
    | OwnTurn(prompt: string, untagged: string)                 // a message somebody typed, not blank

  const START := State(multiset{}, multiset{}, multiset{})

  predicate Enabled(s: State, step: Step) {
    match step
    case Arm(_) => true
    case Accepted(text) => text in s.asking
    case Refused(text, _) => text in s.asking
    case InjectedTurn(text, prompt, untagged) => text in s.coming && (prompt == text || untagged == text)
    case OwnTurn(_, _) => true
  }

  /** The state a step leaves, and whether its turn stays unplanned. */
  function Apply(s: State, step: Step): (State, bool)
    requires Enabled(s, step)
  {
    match step
    case Arm(text) => (s.(pending := s.pending + multiset{text}, asking := s.asking + multiset{text}), false)
    case Accepted(text) => (s.(asking := s.asking - multiset{text}, coming := s.coming + multiset{text}), false)
    case Refused(text, untagged) => (s.(pending := Take(s.pending, text, untagged).0, asking := s.asking - multiset{text}), false)
    case InjectedTurn(text, prompt, untagged) =>
      var (pending, taken) := Take(s.pending, prompt, untagged);
      (s.(pending := pending, coming := s.coming - multiset{text}), taken)
    case OwnTurn(prompt, untagged) =>
      var (pending, taken) := Take(s.pending, prompt, untagged);
      (s.(pending := pending), taken)
  }

  ghost predicate Legal(s: State, steps: seq<Step>)
    decreases |steps|
  {
    steps == [] || (Enabled(s, steps[0]) && Legal(Apply(s, steps[0]).0, steps[1..]))
  }

  ghost function After(s: State, steps: seq<Step>): State
    requires Legal(s, steps)
    decreases |steps|
  {
    if steps == [] then s else After(Apply(s, steps[0]).0, steps[1..])
  }

  /** A message somebody typed that is itself waiting as a quick one, with or without its sender tag. */
  predicate TypesAWaiting(s: State, step: Step) {
    step.OwnTurn? && (step.prompt in s.pending || step.untagged in s.pending)
  }

  /** An injected message that arrives under a sender tag, as a prompt that waits as another quick message. */
  predicate ArrivesAsAnother(s: State, step: Step) {
    step.InjectedTurn? && step.prompt != step.text && step.prompt in s.pending
  }

  /** A step is judged rightly when it leaves its turn unplanned exactly if the turn was injected. */
  predicate Right(s: State, step: Step)
    requires Enabled(s, step)
  {
    Apply(s, step).1 <==> step.InjectedTurn?
  }

  /** One marker for each message still to be answered or still to come. */
  predicate Balanced(s: State) { s.pending == s.asking + s.coming }

  ghost predicate NoneTypesAWaiting(s: State, steps: seq<Step>)
    requires Legal(s, steps)
    decreases |steps|
  {
    steps == [] || (!TypesAWaiting(s, steps[0]) && NoneTypesAWaiting(Apply(s, steps[0]).0, steps[1..]))
  }

  ghost predicate NoneArrivesAsAnother(s: State, steps: seq<Step>)
    requires Legal(s, steps)
    decreases |steps|
  {
    steps == [] || (!ArrivesAsAnother(s, steps[0]) && NoneArrivesAsAnother(Apply(s, steps[0]).0, steps[1..]))
  }

  ghost predicate AllRight(s: State, steps: seq<Step>)
    requires Legal(s, steps)
    decreases |steps|
  {
    steps == [] || (Right(s, steps[0]) && AllRight(Apply(s, steps[0]).0, steps[1..]))
  }

  ghost predicate AlwaysBalanced(s: State, steps: seq<Step>)
    requires Legal(s, steps)
    decreases |steps|
  {
    Balanced(s) && (steps == [] || AlwaysBalanced(Apply(s, steps[0]).0, steps[1..]))
  }

  lemma MoveOne(all: multiset<string>, a: multiset<string>, b: multiset<string>, x: string)
    requires all == a + b
    ensures all + multiset{x} == a + multiset{x} + b
    ensures x in a ==> all == (a - multiset{x}) + (b + multiset{x}) && all - multiset{x} == (a - multiset{x}) + b
  {
  }

  lemma CommandsBalance(s: State, step: Step)
    requires Balanced(s) && Enabled(s, step) && (step.Arm? || step.Accepted? || step.Refused?)
    ensures Balanced(Apply(s, step).0)
  {
    MoveOne(s.pending, s.asking, s.coming, step.text);
    assert !step.Arm? ==> step.text in s.pending;
  }

  lemma ArrivalBalancesIff(s: State, step: Step)
    requires Balanced(s) && Enabled(s, step) && step.InjectedTurn?
    ensures Balanced(Apply(s, step).0) <==> !ArrivesAsAnother(s, step)
  {
    var t := Apply(s, step).0;
    MoveOne(s.pending, s.coming, s.asking, step.text);
    assert step.text in s.pending;
    if ArrivesAsAnother(s, step) {
      assert t.pending[step.prompt] < (t.asking + t.coming)[step.prompt];
    }
  }

  lemma TypedBalancesIff(s: State, step: Step)
    requires Balanced(s) && Enabled(s, step) && step.OwnTurn?
    ensures Balanced(Apply(s, step).0) <==> !TypesAWaiting(s, step)
  {
    if TypesAWaiting(s, step) {
      assert |Apply(s, step).0.pending| < |s.pending|;
    }
  }

  lemma StepBalancesIff(s: State, step: Step)
    requires Balanced(s) && Enabled(s, step)
    ensures Balanced(Apply(s, step).0) <==> !TypesAWaiting(s, step) && !ArrivesAsAnother(s, step)
  {
    hide Apply, Balanced, Enabled;
    if step.OwnTurn? {
      TypedBalancesIff(s, step);
    } else if step.InjectedTurn? {
      ArrivalBalancesIff(s, step);
    } else {
      CommandsBalance(s, step);
    }
  }

  /**
   Over every run whatever: at every moment there is one marker for each message still asked for or
   still to come, exactly when nobody types a waiting message and none arrives as another.
   */
  lemma {:induction false} MarkersAreConservedIff(s: State, steps: seq<Step>)
    requires Balanced(s) && Legal(s, steps)
    ensures AlwaysBalanced(s, steps) <==> NoneTypesAWaiting(s, steps) && NoneArrivesAsAnother(s, steps)
    decreases |steps|
  {
    if steps != [] {
      StepBalancesIff(s, steps[0]);
      if Balanced(Apply(s, steps[0]).0) {
        MarkersAreConservedIff(Apply(s, steps[0]).0, steps[1..]);
      }
    }
  }

  /** A turn takes a marker exactly when one waits for its prompt or for that without the tag, and its own goes first. */
  lemma TurnTakesItsOwnFirst(s: State, prompt: string, untagged: string)
    ensures var (t, taken) := Apply(s, OwnTurn(prompt, untagged));
            && (taken <==> prompt in s.pending || untagged in s.pending)
            && (prompt in s.pending ==> s.pending == t.pending + multiset{prompt})
            && (taken && prompt !in s.pending ==> s.pending == t.pending + multiset{untagged})
            && (!taken ==> t == s) && (t.asking, t.coming) == (s.asking, s.coming)
  {
    assert prompt in s.pending ==> s.pending == s.pending - multiset{prompt} + multiset{prompt};
  }

  /** A refused command takes its own marker back, and is no longer asking. */
  lemma RefusedTakesItsMarkerBack(s: State, text: string, untagged: string)
    requires Balanced(s) && Enabled(s, Refused(text, untagged))
    ensures var t := Apply(s, Refused(text, untagged)).0;
            t.pending == s.pending - multiset{text} && t.asking == s.asking - multiset{text} && t.coming == s.coming
  {
    assert text in s.pending;
  }

  /** On every run, a typed waiting message is judged wrongly. */
  lemma {:induction false} RightRunsTypeNoWaiting(s: State, steps: seq<Step>)
    requires Legal(s, steps) && AllRight(s, steps)
    ensures NoneTypesAWaiting(s, steps)
    decreases |steps|
  {
    if steps != [] {
      RightRunsTypeNoWaiting(Apply(s, steps[0]).0, steps[1..]);
    }
  }

  /**
   On every run in which no message arrives as another, all turns are judged rightly exactly when
   nobody types a waiting message.
   */
  lemma {:induction false} RunIsRightIff(s: State, steps: seq<Step>)
    requires Balanced(s) && Legal(s, steps) && NoneArrivesAsAnother(s, steps)
    ensures AllRight(s, steps) <==> NoneTypesAWaiting(s, steps)
    decreases |steps|
  {
    if steps != [] && !TypesAWaiting(s, steps[0]) {
      StepBalancesIff(s, steps[0]);
      RunIsRightIff(Apply(s, steps[0]).0, steps[1..]);
    }
  }

  /** A typed copy of a waiting message takes its marker, and the injected one is then planned. */
  lemma TypedCopyTakesTheMarker(text: string)
    ensures var s := Apply(Apply(START, Arm(text)).0, Accepted(text)).0;
            var (t, skipped) := Apply(s, OwnTurn(text, text));
            skipped && !Apply(t, InjectedTurn(text, text, text)).1
  {
    var s := Apply(Apply(START, Arm(text)).0, Accepted(text)).0;
    assert s.pending == multiset{text};
    assert s.coming == multiset{text};
  }

  lemma OneMoreStep(s: State, step: Step, rest: seq<Step>)
    requires Enabled(s, step) && !TypesAWaiting(s, step) && Legal(Apply(s, step).0, rest)
    requires NoneTypesAWaiting(Apply(s, step).0, rest) && !AllRight(Apply(s, step).0, rest)
    ensures Legal(s, [step] + rest) && NoneTypesAWaiting(s, [step] + rest) && !AllRight(s, [step] + rest)
  {
    assert ([step] + rest)[1..] == rest;
  }

  /** Both messages are to come; the first one's turn takes the second one's marker, and the second is planned. */
  lemma SecondIsPlanned(text: string, tagged: string, twice: string)
    requires text != tagged && twice != text && twice != tagged
    ensures var s := State(multiset{text, tagged}, multiset{}, multiset{text, tagged});
            var turns := [InjectedTurn(text, tagged, text)] + [InjectedTurn(tagged, twice, tagged)];
            Legal(s, turns) && NoneTypesAWaiting(s, turns) && !AllRight(s, turns)
  {
    var s := State(multiset{text, tagged}, multiset{}, multiset{text, tagged});
    var first, last := InjectedTurn(text, tagged, text), [InjectedTurn(tagged, twice, tagged)];
    var t := State(multiset{text}, multiset{}, multiset{tagged});
    assert Apply(s, first).0 == t;
    assert Legal(t, last) && NoneTypesAWaiting(t, last) && !AllRight(t, last);
    OneMoreStep(s, first, last);
  }

  lemma BothAreArmed(text: string, tagged: string, turns: seq<Step>)
    requires text != tagged
    requires var s := State(multiset{text, tagged}, multiset{}, multiset{text, tagged});
             Legal(s, turns) && NoneTypesAWaiting(s, turns) && !AllRight(s, turns)
    ensures var steps := [Arm(text)] + ([Accepted(text)] + ([Arm(tagged)] + ([Accepted(tagged)] + turns)));
            Legal(START, steps) && NoneTypesAWaiting(START, steps) && !AllRight(START, steps)
  {
    hide Legal, NoneTypesAWaiting, AllRight;
    var s1 := State(multiset{text}, multiset{text}, multiset{});
    var s2 := State(multiset{text}, multiset{}, multiset{text});
    var s3 := State(multiset{text, tagged}, multiset{tagged}, multiset{text});
    var s4 := State(multiset{text, tagged}, multiset{}, multiset{text, tagged});
    assert Apply(START, Arm(text)).0 == s1 && Apply(s1, Accepted(text)).0 == s2;
    assert Apply(s2, Arm(tagged)).0 == s3 && Apply(s3, Accepted(tagged)).0 == s4;
    OneMoreStep(s3, Accepted(tagged), turns);
    OneMoreStep(s2, Arm(tagged), [Accepted(tagged)] + turns);
    OneMoreStep(s1, Accepted(text), [Arm(tagged)] + ([Accepted(tagged)] + turns));
    OneMoreStep(START, Arm(text), [Accepted(text)] + ([Arm(tagged)] + ([Accepted(tagged)] + turns)));
  }

  function ArrivalRun(text: string): seq<Step> {
    var tagged := "[bob] " + text;
    [Arm(text), Accepted(text), Arm(tagged), Accepted(tagged),
     InjectedTurn(text, tagged, text), InjectedTurn(tagged, "[bob] " + tagged, tagged)]
  }

  /**
   Nobody types anything: `hi` arrives as `[bob] hi` and takes the marker of a quick message of that
   text, which then arrives under a tag of its own and is planned.
   */
  lemma ArrivalTakesAnothersMarker(text: string)
    ensures var steps := ArrivalRun(text);
            Legal(START, steps) && NoneTypesAWaiting(START, steps) && !AllRight(START, steps)
  {
    hide Legal, NoneTypesAWaiting, AllRight;
    var tagged := "[bob] " + text;
    var twice := "[bob] " + tagged;
    assert |text| < |tagged| < |twice|;
    var turns := [InjectedTurn(text, tagged, text)] + [InjectedTurn(tagged, twice, tagged)];
    SecondIsPlanned(text, tagged, twice);
    BothAreArmed(text, tagged, turns);
    assert ArrivalRun(text) == [Arm(text)] + ([Accepted(text)] + ([Arm(tagged)] + ([Accepted(tagged)] + turns)));
  }
}
