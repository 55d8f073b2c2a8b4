/** The clarify pass of src/hitl/pipeline.ts. */
module Clarifications {
  // normalizeClarifications, reopenRejected and checkClarifications.  The clarifier's items are
  // already parsed; the verdicts of the decision service come from outside.

  import opened Base
  import opened Hitl

  /** The text functions of the source, fixed but not modelled. */
  datatype Text = Text(
    norm: string -> string,               // normalizeQuestion
    question: string -> string,           // normalizeQuestionText
    header: (string, string) -> string,   // normalizeHeader, with its fallback
    lower: string -> string,              // toLowerCase
    claimed: string -> string)            // the collapsed claim shown as a description

  /** normalizeQuestion of nothing is nothing. */
  ghost predicate Plausible(t: Text) {
    t.norm([]) == []
  }

  datatype Claim = Claim(answer: string, source: string)

  datatype Raw =
    | Junk
    | Item(question: string, header: string, why: string, options: seq<Choice>, default: string, blocking: bool,
           knowledge: Option<Claim>)

  const MIN_OPTIONS := 2
  const MAX_ANSWER := 500

  /** knowledgeClaim: a non-empty answer of at most 500 characters citing a document that was read. */
  predicate ValidClaim(k: Claim, docs: set<string>) {
    k.answer != [] && |k.answer| <= MAX_ANSWER && k.source != [] && k.source in docs
  }

  function ClaimedOptions(claimed: string): seq<Choice> {
    [if claimed != [] then Choice("As stated", Some(claimed)) else Choice("Proceed with the default", None),
     Choice("Something else", None)]
  }

  function FindLabel(t: Text, options: seq<Choice>, wanted: string): Option<string> {
    if options == [] then None
    else if t.lower(options[0].name) == wanted then Some(options[0].name)
    else FindLabel(t, options[1..], wanted)
  }

  function OpenId(index: nat): string { "q" + Digits(index + 1) }

  function SettledId(index: nat): string { "k" + Digits(index + 1) }

  /** normalizeItem: an open question, or nothing without text or, absent a claim, without two options. */
  function NormalizeItem(t: Text, raw: Raw, index: nat, claimed: Option<string>): (r: Option<Clarification>)
    ensures r.Some? ==>
              && raw.Item? && r.value.id == OpenId(index) && r.value.question == t.question(raw.question) != []
              && r.value.blocking == raw.blocking && !IsSettled(r.value) && |r.value.options| >= MIN_OPTIONS
  {
    if raw.Junk? || t.question(raw.question) == [] then None
    else if |raw.options| < MIN_OPTIONS && claimed.None? then None
    else
      var short := |raw.options| < MIN_OPTIONS;
      var options := if short then ClaimedOptions(claimed.value) else raw.options;
      var wanted := if short then [] else t.lower(raw.default);
      var match' := if wanted == [] then None else FindLabel(t, options, wanted);
      Some(Clarification(OpenId(index), t.question(raw.question), t.header(raw.header, "Q" + Digits(index + 1)), raw.why,
                         options, Some(if match'.Some? then match'.value else options[0].name),
                         raw.blocking, None, None, None, None))
  }

  /** normalizeSettledItem: a question a knowledge-base document answered. */
  function SettleItem(t: Text, raw: Raw, index: nat, claim: Claim): (r: Option<Clarification>)
    requires raw.Item?
    ensures r.Some? ==>
              && r.value.id == SettledId(index) && r.value.question == t.question(raw.question) != []
              && !r.value.blocking && IsSettled(r.value)
              && r.value.answer == Some(claim.answer) && r.value.evidence == Some(claim.source)
  {
    if t.question(raw.question) == [] then None
    else
      var wanted := t.lower(raw.default);
      Some(Clarification(SettledId(index), t.question(raw.question), t.header(raw.header, "KB"), raw.why, raw.options,
                         if wanted == [] then None else FindLabel(t, raw.options, wanted),
                         false, Some(claim.answer), None, Some(Knowledge), Some(claim.source)))
  }

  // ---------- Pass 1 ----------

  datatype Pass = Pass(seen: set<string>, open: seq<Clarification>, settled: seq<Clarification>)

  function KeyOf(t: Text, c: Clarification): string { t.norm(c.question) }

  /** The knowledge object of an item, looked at only when documents were read. */
  function KnowledgeOf(raw: Raw, docs: set<string>): Option<Claim> {
    if docs != {} && raw.Item? then raw.knowledge else None
  }

  /** An item that a document may settle: not blocking, with a valid claim. */
  predicate Settles(raw: Raw, docs: set<string>) {
    KnowledgeOf(raw, docs).Some? && !raw.blocking && ValidClaim(KnowledgeOf(raw, docs).value, docs)
  }

  /** One item of the clarifier's list. */
  function Step(t: Text, p: Pass, raw: Raw, max: nat, docs: set<string>): Pass {
    var k := KnowledgeOf(raw, docs);
    var claims := Settles(raw, docs) && |p.settled| < MAX_SETTLED;
    var c :=
      if claims then SettleItem(t, raw, |p.settled|, k.value)
      else if |p.open| < max then NormalizeItem(t, raw, |p.open|, if k.Some? then Some(t.claimed(k.value.answer)) else None)
      else None;
    if c.None? then p
    else
      var key := KeyOf(t, c.value);
      if key == [] || key in p.seen then p
      else if claims then p.(seen := p.seen + {key}, settled := p.settled + [c.value])
      else p.(seen := p.seen + {key}, open := p.open + [c.value])
  }

  function Steps(t: Text, p: Pass, items: seq<Raw>, max: nat, docs: set<string>): Pass
    decreases |items|
  {
    if items == [] then p else Steps(t, Step(t, p, items[0], max, docs), items[1..], max, docs)
  }

  const EMPTY := Pass({}, [], [])

  /** The loop stops early when neither kind can grow; that changes nothing. */
  predicate Full(p: Pass, max: nat, docs: set<string>) {
    |p.open| >= max && (docs == {} || |p.settled| >= MAX_SETTLED)
  }

  lemma {:induction false} FullStays(t: Text, p: Pass, items: seq<Raw>, max: nat, docs: set<string>)
    requires Full(p, max, docs)
    ensures Steps(t, p, items, max, docs) == p
    decreases |items|
  {
    if items != [] {
      FullStays(t, p, items[1..], max, docs);
    }
  }

  /** normalizeClarifications */
  method Normalize(t: Text, items: seq<Raw>, max: nat, docs: set<string>) returns (list: seq<Clarification>)
    ensures var p := Steps(t, EMPTY, items, max, docs); list == p.open + p.settled
  {
    var p := EMPTY;
    var i := 0;
    while i < |items|
      invariant 0 <= i <= |items|
      invariant Steps(t, p, items[i..], max, docs) == Steps(t, EMPTY, items, max, docs)
    {
      if Full(p, max, docs) {
        FullStays(t, p, items[i..], max, docs);
        break;
      }
      assert items[i..][1..] == items[i + 1..];
      p := Step(t, p, items[i], max, docs);
      i := i + 1;
    }
    list := p.open + p.settled;
  }

  // ---------- What pass 1 gives ----------

  ghost predicate DistinctKeys(t: Text, list: seq<Clarification>) {
    forall i, j :: 0 <= i < j < |list| ==> KeyOf(t, list[i]) != KeyOf(t, list[j])
  }

  ghost predicate Apart(t: Text, a: seq<Clarification>, b: seq<Clarification>) {
    forall i, j :: 0 <= i < |a| && 0 <= j < |b| ==> KeyOf(t, a[i]) != KeyOf(t, b[j])
  }

  ghost predicate OpenOk(t: Text, c: Clarification, index: nat) {
    c.id == OpenId(index) && !IsSettled(c) && |c.options| >= MIN_OPTIONS && KeyOf(t, c) != []
  }

  ghost predicate SettledOk(t: Text, c: Clarification, index: nat, docs: set<string>) {
    && c.id == SettledId(index) && IsSettled(c) && !c.blocking && KeyOf(t, c) != []
    && c.answer.Some? && c.evidence.Some? && ValidClaim(Claim(c.answer.value, c.evidence.value), docs)
  }

  /** Bounded, gap-free ids, pairwise distinct questions, nothing blocking settled. */
  ghost predicate WellFormed(t: Text, open: seq<Clarification>, settled: seq<Clarification>, max: nat, docs: set<string>) {
    && |open| <= max && |settled| <= MAX_SETTLED
    && DistinctKeys(t, open) && DistinctKeys(t, settled) && Apart(t, open, settled)
    && (forall i :: 0 <= i < |open| ==> OpenOk(t, open[i], i))
    && (forall i :: 0 <= i < |settled| ==> SettledOk(t, settled[i], i, docs))
  }

  ghost predicate Seen(t: Text, list: seq<Clarification>, seen: set<string>) {
    forall i :: 0 <= i < |list| ==> KeyOf(t, list[i]) in seen
  }

  ghost predicate PassOk(t: Text, p: Pass, max: nat, docs: set<string>) {
    WellFormed(t, p.open, p.settled, max, docs) && Seen(t, p.open, p.seen) && Seen(t, p.settled, p.seen)
  }

  /** A step appends one new question to one of the two lists, or changes nothing. */
  lemma StepAppends(t: Text, p: Pass, raw: Raw, max: nat, docs: set<string>)
    ensures var q := Step(t, p, raw, max, docs);
            || q == p
            || (exists c :: && KeyOf(t, c) !in p.seen && q == Pass(p.seen + {KeyOf(t, c)}, p.open + [c], p.settled)
                            && OpenOk(t, c, |p.open|) && |p.open| < max)
            || (exists c :: && KeyOf(t, c) !in p.seen && q == Pass(p.seen + {KeyOf(t, c)}, p.open, p.settled + [c])
                            && SettledOk(t, c, |p.settled|, docs) && |p.settled| < MAX_SETTLED)
  {
    var q := Step(t, p, raw, max, docs);
    if q != p {
      if q.open != p.open {
        var c := q.open[|p.open|];
        assert q == Pass(p.seen + {KeyOf(t, c)}, p.open + [c], p.settled);
      } else {
        var c := q.settled[|p.settled|];
        assert q == Pass(p.seen + {KeyOf(t, c)}, p.open, p.settled + [c]);
      }
    }
  }

  /** A question not yet seen stays apart from every listed one. */
  lemma NewQuestion(t: Text, p: Pass, c: Clarification)
    requires Seen(t, p.open, p.seen) && Seen(t, p.settled, p.seen) && KeyOf(t, c) !in p.seen
    requires DistinctKeys(t, p.open) && DistinctKeys(t, p.settled) && Apart(t, p.open, p.settled)
    ensures DistinctKeys(t, p.open + [c]) && DistinctKeys(t, p.settled + [c])
    ensures Apart(t, p.open + [c], p.settled) && Apart(t, p.open, p.settled + [c])
    ensures Seen(t, p.open, p.seen + {KeyOf(t, c)}) && Seen(t, p.settled, p.seen + {KeyOf(t, c)})
    ensures Seen(t, p.open + [c], p.seen + {KeyOf(t, c)}) && Seen(t, p.settled + [c], p.seen + {KeyOf(t, c)})
  {
  }

  lemma StepKeepsOk(t: Text, p: Pass, raw: Raw, max: nat, docs: set<string>)
    requires PassOk(t, p, max, docs)
    ensures PassOk(t, Step(t, p, raw, max, docs), max, docs)
  {
    StepAppends(t, p, raw, max, docs);
    var q := Step(t, p, raw, max, docs);
    if q == p {
    } else if q.open != p.open {
      var c := q.open[|p.open|];
      assert q.open == p.open + [c] && KeyOf(t, c) !in p.seen;
      NewQuestion(t, p, c);
    } else {
      var c := q.settled[|p.settled|];
      assert q.settled == p.settled + [c] && KeyOf(t, c) !in p.seen;
      NewQuestion(t, p, c);
    }
  }

  lemma {:induction false} StepsKeepOk(t: Text, p: Pass, items: seq<Raw>, max: nat, docs: set<string>)
    requires PassOk(t, p, max, docs)
    ensures PassOk(t, Steps(t, p, items, max, docs), max, docs)
    decreases |items|
  {
    if items != [] {
      StepKeepsOk(t, p, items[0], max, docs);
      StepsKeepOk(t, Step(t, p, items[0], max, docs), items[1..], max, docs);
    }
  }

  /**
   Pass 1, for every clarifier output: at most max open and MAX_SETTLED settled questions,
   gap-free ids, distinct questions, and every settled one non-blocking with a valid claim.
   */
  lemma PassOneIsWellFormed(t: Text, items: seq<Raw>, max: nat, docs: set<string>)
    ensures var p := Steps(t, EMPTY, items, max, docs); WellFormed(t, p.open, p.settled, max, docs)
  {
    StepsKeepOk(t, EMPTY, items, max, docs);
  }

  // ---------- Where each item goes ----------

  /** The first option with that name, in any letter case. */
  ghost predicate NamedFirst(t: Text, options: seq<Choice>, wanted: string, i: nat) {
    && wanted != [] && i < |options| && t.lower(options[i].name) == wanted
    && forall j :: 0 <= j < i ==> t.lower(options[j].name) != wanted
  }

  ghost predicate DefaultIs(t: Text, default': Option<string>, options: seq<Choice>, wanted: string, otherwise': Option<string>) {
    || (exists i: nat :: NamedFirst(t, options, wanted, i) && default' == Some(options[i].name))
    || (default' == otherwise' && (wanted == [] || forall i :: 0 <= i < |options| ==> t.lower(options[i].name) != wanted))
  }

  /** The two options of a question whose claim is not taken for an answer. */
  ghost predicate OffersClaim(options: seq<Choice>, claimed: string) {
    && |options| == 2 && options[1] == Choice("Something else", None)
    && (claimed != [] ==> options[0] == Choice("As stated", Some(claimed)))
    && (claimed == [] ==> options[0] == Choice("Proceed with the default", None))
  }

  predicate SaysSomething(t: Text, raw: Raw) {
    raw.Item? && t.question(raw.question) != [] && t.norm(t.question(raw.question)) != []
  }

  /** A document that was read settles it: never for a blocking question. */
  predicate Answerable(raw: Raw, docs: set<string>) {
    && raw.Item? && docs != {} && !raw.blocking && raw.knowledge.Some?
    && 1 <= |raw.knowledge.value.answer| <= 500 && raw.knowledge.value.source != [] && raw.knowledge.value.source in docs
  }

  predicate Askable(raw: Raw, docs: set<string>) {
    raw.Item? && (|raw.options| >= 2 || (docs != {} && raw.knowledge.Some?))
  }

  /** The question as it is asked at place i. */
  ghost predicate AskedAs(t: Text, c: Clarification, raw: Raw, i: nat) {
    && raw.Item? && c.id == "q" + Digits(i + 1) && c.question == t.question(raw.question)
    && c.header == t.header(raw.header, "Q" + Digits(i + 1)) && c.why == raw.why && c.blocking == raw.blocking
    && c.answer.None? && c.answeredAt.None? && c.source.None? && c.evidence.None?
    && if |raw.options| >= 2 then
         c.options == raw.options && DefaultIs(t, c.default, raw.options, t.lower(raw.default), Some(raw.options[0].name))
       else
         && raw.knowledge.Some? && OffersClaim(c.options, t.claimed(raw.knowledge.value.answer))
         && c.default == Some(c.options[0].name)
  }

  /** The question as it is settled at place i. */
  ghost predicate SettledAs(t: Text, c: Clarification, raw: Raw, i: nat) {
    && raw.Item? && raw.knowledge.Some? && c.id == "k" + Digits(i + 1) && c.question == t.question(raw.question)
    && c.header == t.header(raw.header, "KB") && c.why == raw.why && !c.blocking && c.options == raw.options
    && DefaultIs(t, c.default, raw.options, t.lower(raw.default), None)
    && c.answer == Some(raw.knowledge.value.answer) && c.evidence == Some(raw.knowledge.value.source)
    && c.answeredAt.None? && c.source == Some(Knowledge)
  }

  /**
   What becomes of one item when o questions were asked and s settled before it, and o', s' with it:
   a new question is settled when a document answers it and fewer than four are settled; else asked
   when fewer than max are and it has its options, or a claim to offer; anything else is dropped.
   */
  ghost predicate Goes(t: Text, open: seq<Clarification>, settled: seq<Clarification>, raw: Raw, max: nat, docs: set<string>,
                       o: nat, s: nat, o': nat, s': nat)
    requires o <= |open| && s <= |settled|
  {
    var isNew := && SaysSomething(t, raw)
                 && (forall i :: 0 <= i < o ==> t.norm(open[i].question) != t.norm(t.question(raw.question)))
                 && (forall i :: 0 <= i < s ==> t.norm(settled[i].question) != t.norm(t.question(raw.question)));
    var settles := Answerable(raw, docs) && s < 4;
    if isNew && settles then o' == o && s' == s + 1 <= |settled| && SettledAs(t, settled[s], raw, s)
    else if isNew && Askable(raw, docs) && o < max then o' == o + 1 <= |open| && s' == s && AskedAs(t, open[o], raw, o)
    else o' == o && s' == s
  }

  lemma {:induction false} FindsTheFirst(t: Text, options: seq<Choice>, wanted: string)
    ensures match FindLabel(t, options, wanted)
            case Some(name) => exists i: nat :: i < |options| && t.lower(options[i].name) == wanted && name == options[i].name
                                 && forall j :: 0 <= j < i ==> t.lower(options[j].name) != wanted
            case None => forall i :: 0 <= i < |options| ==> t.lower(options[i].name) != wanted
  {
    if options != [] && t.lower(options[0].name) != wanted {
      FindsTheFirst(t, options[1..], wanted);
      if FindLabel(t, options[1..], wanted).Some? {
        var i: nat :| i < |options[1..]| && t.lower(options[1..][i].name) == wanted
          && FindLabel(t, options[1..], wanted).value == options[1..][i].name
          && forall j :: 0 <= j < i ==> t.lower(options[1..][j].name) != wanted;
        assert options[1..][i] == options[i + 1];
        assert forall j :: 0 < j < i + 1 ==> options[j] == options[1..][j - 1];
      } else {
        assert forall i :: 0 < i < |options| ==> options[i] == options[1..][i - 1];
      }
    } else if options != [] {
      assert t.lower(options[0].name) == wanted;
    }
  }

  lemma LabelIsDefault(t: Text, options: seq<Choice>, wanted: string, otherwise': Option<string>)
    ensures var found := if wanted == [] then None else FindLabel(t, options, wanted);
            DefaultIs(t, if found.Some? then found else otherwise', options, wanted, otherwise')
  {
    FindsTheFirst(t, options, wanted);
    if wanted != [] && FindLabel(t, options, wanted).Some? {
      var i: nat :| i < |options| && t.lower(options[i].name) == wanted
        && FindLabel(t, options, wanted).value == options[i].name
        && forall j :: 0 <= j < i ==> t.lower(options[j].name) != wanted;
      assert NamedFirst(t, options, wanted, i);
    }
  }

  ghost predicate SeenExactly(t: Text, p: Pass) {
    forall key :: key in p.seen <==>
      (exists i :: 0 <= i < |p.open| && t.norm(p.open[i].question) == key)
      || (exists i :: 0 <= i < |p.settled| && t.norm(p.settled[i].question) == key)
  }

  lemma AskedAsGiven(t: Text, raw: Raw, i: nat, docs: set<string>)
    ensures var k := KnowledgeOf(raw, docs);
            var c := NormalizeItem(t, raw, i, if k.Some? then Some(t.claimed(k.value.answer)) else None);
            && (c.Some? <==> raw.Item? && t.question(raw.question) != [] && Askable(raw, docs))
            && (c.Some? ==> AskedAs(t, c.value, raw, i))
  {
    if raw.Item? && |raw.options| >= 2 {
      hide FindLabel, DefaultIs;
      LabelIsDefault(t, raw.options, t.lower(raw.default), Some(raw.options[0].name));
    }
  }

  lemma SettledAsGiven(t: Text, raw: Raw, i: nat, docs: set<string>)
    requires Settles(raw, docs)
    ensures var c := SettleItem(t, raw, i, KnowledgeOf(raw, docs).value);
            && (c.Some? <==> t.question(raw.question) != [])
            && (c.Some? ==> SettledAs(t, c.value, raw, i))
  {
    hide FindLabel, DefaultIs;
    LabelIsDefault(t, raw.options, t.lower(raw.default), None);
  }

  lemma NewKeyIsSeen(t: Text, p: Pass, c: Clarification)
    requires SeenExactly(t, p)
    ensures SeenExactly(t, Pass(p.seen + {KeyOf(t, c)}, p.open + [c], p.settled))
    ensures SeenExactly(t, Pass(p.seen + {KeyOf(t, c)}, p.open, p.settled + [c]))
  {
    assert (p.open + [c])[|p.open|] == c && (p.settled + [c])[|p.settled|] == c;
    assert forall i :: 0 <= i < |p.open| ==> (p.open + [c])[i] == p.open[i];
    assert forall i :: 0 <= i < |p.settled| ==> (p.settled + [c])[i] == p.settled[i];
  }

  lemma StepGoes(t: Text, p: Pass, raw: Raw, max: nat, docs: set<string>)
    requires SeenExactly(t, p)
    ensures var q := Step(t, p, raw, max, docs);
            && SeenExactly(t, q) && p.open <= q.open && p.settled <= q.settled
            && Goes(t, q.open, q.settled, raw, max, docs, |p.open|, |p.settled|, |q.open|, |q.settled|)
  {
    hide AskedAs, SettledAs, NormalizeItem, SettleItem, SeenExactly, Askable;
    assert Settles(raw, docs) <==> Answerable(raw, docs);
    AskedAsGiven(t, raw, |p.open|, docs);
    if Settles(raw, docs) {
      SettledAsGiven(t, raw, |p.settled|, docs);
    }
    KeysAreSeen(t, p);
    var q := Step(t, p, raw, max, docs);
    if q.open != p.open {
      NewKeyIsSeen(t, p, q.open[|p.open|]);
    } else if q.settled != p.settled {
      NewKeyIsSeen(t, p, q.settled[|p.settled|]);
    }
  }

  lemma KeysAreSeen(t: Text, p: Pass)
    requires SeenExactly(t, p)
    ensures forall key :: key in p.seen <==>
              !((forall i :: 0 <= i < |p.open| ==> t.norm(p.open[i].question) != key)
                && (forall i :: 0 <= i < |p.settled| ==> t.norm(p.settled[i].question) != key))
  {
  }

  /** What came before is not touched later. */
  lemma GoesStays(t: Text, p: Pass, q: Pass, raw: Raw, max: nat, docs: set<string>, o: nat, s: nat, o': nat, s': nat)
    requires p.open <= q.open && p.settled <= q.settled && o <= |p.open| && s <= |p.settled|
    requires Goes(t, p.open, p.settled, raw, max, docs, o, s, o', s')
    ensures Goes(t, q.open, q.settled, raw, max, docs, o, s, o', s')
  {
    hide AskedAs, SettledAs, Askable, Answerable;
  }

  /** Pass 1, item by item: where each question goes, and what is asked or settled there. */
  lemma {:induction false} WhereItemsGo(t: Text, p: Pass, items: seq<Raw>, max: nat, docs: set<string>)
    returns (o: seq<nat>, s: seq<nat>)
    requires SeenExactly(t, p)
    ensures var q := Steps(t, p, items, max, docs);
            && p.open <= q.open && p.settled <= q.settled && |o| == |s| == |items| + 1
            && (o[0], s[0]) == (|p.open|, |p.settled|) && (o[|items|], s[|items|]) == (|q.open|, |q.settled|)
            && (forall x :: 0 <= x <= |items| ==> o[x] <= |q.open| && s[x] <= |q.settled|)
            && forall x :: 0 <= x < |items| ==> Goes(t, q.open, q.settled, items[x], max, docs, o[x], s[x], o[x + 1], s[x + 1])
    decreases |items|
  {
    hide Step, Goes, SeenExactly;
    if items == [] {
      return [|p.open|], [|p.settled|];
    }
    var next, q := Step(t, p, items[0], max, docs), Steps(t, p, items, max, docs);
    StepGoes(t, p, items[0], max, docs);
    var o', s' := WhereItemsGo(t, next, items[1..], max, docs);
    GoesStays(t, next, q, items[0], max, docs, |p.open|, |p.settled|, |next.open|, |next.settled|);
    o, s := [|p.open|] + o', [|p.settled|] + s';
    forall x | 0 < x < |items| ensures Goes(t, q.open, q.settled, items[x], max, docs, o[x], s[x], o[x + 1], s[x + 1]) {
      assert items[1..][x - 1] == items[x] && o'[x - 1] == o[x] && o'[x] == o[x + 1];
    }
  }

  // ---------- Pass 2 ----------

  function OpenOf(list: seq<Clarification>): seq<Clarification> {
    if list == [] then []
    else OpenOf(list[..|list| - 1]) + (if IsSettled(list[|list| - 1]) then [] else [list[|list| - 1]])
  }

  function SettledOf(list: seq<Clarification>): seq<Clarification> {
    if list == [] then []
    else SettledOf(list[..|list| - 1]) + (if IsSettled(list[|list| - 1]) then [list[|list| - 1]] else [])
  }

  function WithId(c: Clarification, id: string): Clarification { c.(id := id) }

  /** The settled items no verdict rejected, renumbered. */
  function Kept(t: Text, settled: seq<Clarification>, rejected: set<string>): (kept: seq<Clarification>)
    ensures |kept| <= |settled|
  {
    if settled == [] then []
    else
      var before, c := Kept(t, settled[..|settled| - 1], rejected), settled[|settled| - 1];
      if KeyOf(t, c) in rejected then before else before + [WithId(c, SettledId(|before|))]
  }

  /** The rejected questions, in the clarifier's order. */
  function RejectedKeys(t: Text, settled: seq<Clarification>, rejected: set<string>): (keys: seq<string>)
    ensures forall k :: k in keys ==> k in rejected
  {
    if settled == [] then []
    else
      var before, c := RejectedKeys(t, settled[..|settled| - 1], rejected), settled[|settled| - 1];
      if KeyOf(t, c) in rejected then before + [KeyOf(t, c)] else before
  }

  datatype Reopening = Reopening(open: seq<Clarification>, pending: set<string>)

  /** One item of the clarifier's list, met again by pass 2. */
  function Reopen(t: Text, r: Reopening, raw: Raw, docs: set<string>): Reopening {
    if raw.Junk? || raw.knowledge.None? || raw.blocking then r
    else
      var key := t.norm(t.question(raw.question));
      if key !in r.pending || !ValidClaim(raw.knowledge.value, docs) then r
      else
        var c := NormalizeItem(t, raw, |r.open|, Some(t.claimed(raw.knowledge.value.answer)));
        Reopening(if c.Some? then r.open + [c.value] else r.open, r.pending - {key})
  }

  function Reopens(t: Text, r: Reopening, items: seq<Raw>, max: nat, docs: set<string>): Reopening
    decreases |items|
  {
    if items == [] || |r.open| >= max || r.pending == {} then r
    else Reopens(t, Reopen(t, r, items[0], docs), items[1..], max, docs)
  }

  function Reopened(t: Text, items: seq<Raw>, list: seq<Clarification>, rejected: set<string>, max: nat,
                    docs: set<string>): seq<Clarification> {
    Reopens(t, Reopening(OpenOf(list), rejected), items, max, docs).open + Kept(t, SettledOf(list), rejected)
  }

  /** reopenRejected */
  method ReopenRejected(t: Text, items: seq<Raw>, list: seq<Clarification>, rejected: set<string>, max: nat,
                        docs: set<string>) returns (checked: seq<Clarification>)
    ensures checked == Reopened(t, items, list, rejected, max, docs)
  {
    var r := Reopening(OpenOf(list), rejected);
    var i := 0;
    while i < |items| && |r.open| < max && r.pending != {}
      invariant 0 <= i <= |items|
      invariant Reopens(t, r, items[i..], max, docs) == Reopens(t, Reopening(OpenOf(list), rejected), items, max, docs)
    {
      assert items[i..][1..] == items[i + 1..];
      r := Reopen(t, r, items[i], docs);
      i := i + 1;
    }
    checked := r.open + Kept(t, SettledOf(list), rejected);
  }

  /** What the decision service answers: claims found unsupported, and risky defaults in either round. */
  datatype Verdicts = Verdicts(knowledgeOn: bool, blockingOn: bool, unsupported: set<string>, risky: set<string>,
                               riskyAgain: set<string>)

  function KeysOf(t: Text, list: seq<Clarification>): set<string> {
    set c | c in list :: KeyOf(t, c)
  }

  /** The keys of the questions whose default is checked: open and not yet blocking. */
  function Promotable(t: Text, list: seq<Clarification>): set<string> {
    set c | c in list && !IsSettled(c) && !c.blocking :: KeyOf(t, c)
  }

  function Promote(t: Text, list: seq<Clarification>, promote: set<string>): (r: seq<Clarification>)
    ensures |r| == |list|
    ensures forall i :: 0 <= i < |list| ==>
              r[i] == list[i].(blocking := list[i].blocking || (!IsSettled(list[i]) && KeyOf(t, list[i]) in promote))
  {
    if list == [] then []
    else
      var c := list[0];
      [if !IsSettled(c) && !c.blocking && KeyOf(t, c) in promote then c.(blocking := true) else c]
      + Promote(t, list[1..], promote)
  }

  function Rejected(t: Text, list: seq<Clarification>, v: Verdicts): set<string> {
    if v.knowledgeOn then KeysOf(t, SettledOf(list)) * v.unsupported else {}
  }

  function Promoted(t: Text, list: seq<Clarification>, checked: seq<Clarification>, rejected: set<string>,
                    v: Verdicts): set<string> {
    if v.blockingOn then Promotable(t, list) * v.risky + Promotable(t, checked) * rejected * v.riskyAgain else {}
  }

  /** The same question, unless it became blocking. */
  ghost predicate AtMostPromoted(before: Clarification, after: Clarification) {
    after == before.(blocking := after.blocking) && (before.blocking ==> after.blocking)
  }

  /**
   What pass 2 and the promotions leave: the questions stay well formed, the open ones of pass 1
   keep their place and content, the rejected claims follow in the clarifier's order until the
   limit is full, and the claims nobody rejected stay settled, only renumbered.
   */
  ghost predicate Outcome(t: Text, first: Pass, rejected: set<string>, list: seq<Clarification>, max: nat,
                          docs: set<string>) {
    var refused, kept := RejectedKeys(t, first.settled, rejected), Kept(t, first.settled, rejected);
    var n, again := |first.open|, Least(|refused|, max - |first.open|);
    && |first.open| <= max && |list| == n + again + |kept|
    && WellFormed(t, list[..n + again], list[n + again..], max, docs)
    && list[n + again..] == kept
    && (forall i :: 0 <= i < n ==> AtMostPromoted(first.open[i], list[i]))
    && (forall i :: 0 <= i < again ==> KeyOf(t, list[n + i]) == refused[i])
  }

  /** A question becomes blocking only when its own round found its default risky. */
  ghost predicate Promotions(t: Text, first: Pass, list: seq<Clarification>, v: Verdicts) {
    && |first.open| <= |list|
    && (forall i :: 0 <= i < |first.open| ==>
          list[i].blocking == (first.open[i].blocking || (v.blockingOn && KeyOf(t, list[i]) in v.risky)))
    && (forall i :: |first.open| <= i < |list| && !IsSettled(list[i]) ==>
          list[i].blocking == (v.blockingOn && KeyOf(t, list[i]) in v.riskyAgain))
  }

  // ---------- Pass 2 reopens the rejected claims in order, until the limit ----------

  lemma {:induction false} SplitOpen(open: seq<Clarification>)
    requires forall i :: 0 <= i < |open| ==> !IsSettled(open[i])
    ensures OpenOf(open) == open && SettledOf(open) == []
    decreases |open|
  {
    if open != [] {
      SplitOpen(open[..|open| - 1]);
      assert open == open[..|open| - 1] + [open[|open| - 1]];
    }
  }

  lemma {:induction false} Split(open: seq<Clarification>, settled: seq<Clarification>)
    requires forall i :: 0 <= i < |open| ==> !IsSettled(open[i])
    requires forall i :: 0 <= i < |settled| ==> IsSettled(settled[i])
    ensures OpenOf(open + settled) == open && SettledOf(open + settled) == settled
    decreases |settled|
  {
    var list := open + settled;
    if settled == [] {
      SplitOpen(open);
      assert list == open;
    } else {
      var before, last := settled[..|settled| - 1], settled[|settled| - 1];
      Split(open, before);
      assert list[..|list| - 1] == open + before && list[|list| - 1] == last;
      assert settled == before + [last];
    }
  }

  ghost predicate SettledKey(t: Text, p: Pass, key: string) {
    exists c :: c in p.settled && KeyOf(t, c) == key
  }

  /** A question still to be settled has not been seen, and there is room for it. */
  lemma {:induction false} StillToSettle(t: Text, p: Pass, items: seq<Raw>, max: nat, docs: set<string>, key: string)
    requires SettledKey(t, Steps(t, p, items, max, docs), key) && !SettledKey(t, p, key)
    ensures key !in p.seen && |p.settled| < MAX_SETTLED
    decreases |items|
  {
    if items != [] {
      var q := Step(t, p, items[0], max, docs);
      if SettledKey(t, q, key) {
        var c :| c in q.settled && KeyOf(t, c) == key;
        assert c !in p.settled;
      } else {
        StillToSettle(t, q, items[1..], max, docs, key);
      }
    }
  }

  function Keys(t: Text, list: seq<Clarification>): (keys: seq<string>)
    ensures |keys| == |list| && forall i :: 0 <= i < |list| ==> keys[i] == KeyOf(t, list[i])
  {
    seq(|list|, i requires 0 <= i < |list| => KeyOf(t, list[i]))
  }

  function SetOf(keys: seq<string>): set<string> { set k | k in keys }

  /** The first claims of a list that fit in the free slots. */
  function Fitting(refused: seq<string>, room: int): seq<string> {
    if room <= 0 then [] else if |refused| <= room then refused else refused[..room]
  }

  /** The reopened questions: gap-free ids, open, answerable and not blocking. */
  ghost predicate AgainOk(open: seq<Clarification>, n: nat) {
    forall i :: n <= i < |open| ==>
      open[i].id == OpenId(i) && !IsSettled(open[i]) && |open[i].options| >= MIN_OPTIONS && !open[i].blocking
  }

  /** Pass 2, in step with the part of pass 1 already replayed. */
  ghost predicate InStep(t: Text, p: Pass, open0: seq<Clarification>, r: Reopening, rejected: set<string>, max: nat) {
    && |open0| <= |r.open| && r.open[..|open0|] == open0
    && Keys(t, r.open[|open0|..]) == Fitting(RejectedKeys(t, p.settled, rejected), max - |open0|)
    && r.pending == rejected - SetOf(Keys(t, r.open[|open0|..]))
    && AgainOk(r.open, |open0|)
  }

  lemma {:induction false} RejectedKeysAreSettled(t: Text, settled: seq<Clarification>, rejected: set<string>, key: string)
    ensures key in RejectedKeys(t, settled, rejected) <==>
            key in rejected && exists c :: c in settled && KeyOf(t, c) == key
    decreases |settled|
  {
    if settled != [] {
      var before, last := settled[..|settled| - 1], settled[|settled| - 1];
      RejectedKeysAreSettled(t, before, rejected, key);
      assert settled == before + [last];
      if c :| c in settled && KeyOf(t, c) == key {
        assert c in before || c == last;
      }
    }
  }

  predicate Rejects(t: Text, p: Pass, raw: Raw, rejected: set<string>, docs: set<string>) {
    && Settles(raw, docs) && t.norm(t.question(raw.question)) in rejected
    && t.norm(t.question(raw.question)) !in RejectedKeys(t, p.settled, rejected)
  }

  /** What pass 1 did at an item: it settled a rejected question exactly when the item meets it first. */
  lemma PassOneAt(t: Text, p: Pass, items: seq<Raw>, rejected: set<string>, max: nat, docs: set<string>)
    requires Plausible(t) && items != [] && PassOk(t, p, max, docs)
    requires forall k :: k in rejected ==> k != [] && SettledKey(t, Steps(t, p, items, max, docs), k)
    ensures var q := Step(t, p, items[0], max, docs);
            RejectedKeys(t, q.settled, rejected)
            == RejectedKeys(t, p.settled, rejected)
               + if Rejects(t, p, items[0], rejected, docs) then [t.norm(t.question(items[0].question))] else []
  {
    var raw, q := items[0], Step(t, p, items[0], max, docs);
    if Rejects(t, p, raw, rejected, docs) {
      var key := t.norm(t.question(raw.question));
      RejectedKeysAreSettled(t, p.settled, rejected, key);
      StillToSettle(t, p, items, max, docs, key);
      assert q.settled[..|p.settled|] == p.settled && KeyOf(t, q.settled[|p.settled|]) == key;
    } else if q.settled != p.settled {
      var key := KeyOf(t, q.settled[|p.settled|]);
      assert q.settled[..|p.settled|] == p.settled && key !in p.seen;
      RejectedKeysAreSettled(t, p.settled, rejected, key);
    }
  }

  lemma PassTwoAt(t: Text, r: Reopening, raw: Raw, n: nat, docs: set<string>)
    requires Plausible(t) && [] !in r.pending && n <= |r.open| && AgainOk(r.open, n)
    ensures var r' := Reopen(t, r, raw, docs);
            if Settles(raw, docs) && t.norm(t.question(raw.question)) in r.pending then
              var key := t.norm(t.question(raw.question));
              && r'.pending == r.pending - {key} && |r'.open| == |r.open| + 1 && r'.open[..n] == r.open[..n]
              && AgainOk(r'.open, n) && Keys(t, r'.open[n..]) == Keys(t, r.open[n..]) + [key]
            else r' == r
  {
    hide ClaimedOptions, FindLabel;
    var r' := Reopen(t, r, raw, docs);
    if r' != r {
      assert r'.open == r.open + [r'.open[|r.open|]];
      assert r'.open[n..] == r.open[n..] + [r'.open[|r.open|]];
    }
  }

  lemma OneItem(t: Text, p: Pass, open0: seq<Clarification>, r: Reopening, items: seq<Raw>, rejected: set<string>,
                max: nat, docs: set<string>)
    requires Plausible(t) && items != [] && PassOk(t, p, max, docs)
    requires InStep(t, p, open0, r, rejected, max) && |r.open| < max
    requires forall k :: k in rejected ==> k != [] && SettledKey(t, Steps(t, p, items, max, docs), k)
    ensures InStep(t, Step(t, p, items[0], max, docs), open0, Reopen(t, r, items[0], docs), rejected, max)
  {
    hide Step, Steps, Reopen, PassOk, AgainOk;
    var raw := items[0];
    PassOneAt(t, p, items, rejected, max, docs);
    PassTwoAt(t, r, raw, |open0|, docs);
    assert Keys(t, r.open[|open0|..]) == RejectedKeys(t, p.settled, rejected);
    if Settles(raw, docs) {
      var key, again := t.norm(t.question(raw.question)), Keys(t, r.open[|open0|..]);
      assert Rejects(t, p, raw, rejected, docs) <==> key in r.pending;
      if Rejects(t, p, raw, rejected, docs) {
        assert SetOf(again + [key]) == SetOf(again) + {key};
      }
    }
  }

  lemma {:induction false} Finished(t: Text, p: Pass, open0: seq<Clarification>, r: Reopening, items: seq<Raw>,
                                    rejected: set<string>, max: nat, docs: set<string>)
    requires PassOk(t, p, max, docs) && |open0| <= max && InStep(t, p, open0, r, rejected, max)
    requires |r.open| >= max || r.pending == {}
    ensures InStep(t, Steps(t, p, items, max, docs), open0, r, rejected, max)
    decreases |items|
  {
    if items != [] {
      var q := Step(t, p, items[0], max, docs);
      if q.settled != p.settled {
        var key := KeyOf(t, q.settled[|p.settled|]);
        assert q.settled[..|p.settled|] == p.settled;
        assert key in rejected ==> key in r.pending || key in SetOf(Keys(t, r.open[|open0|..]));
        if key in rejected && |r.open| < max {
          RejectedKeysAreSettled(t, p.settled, rejected, key);
          assert false;
        }
      }
      StepKeepsOk(t, p, items[0], max, docs);
      Finished(t, q, open0, r, items[1..], rejected, max, docs);
    }
  }

  lemma {:induction false} Lockstep(t: Text, p: Pass, open0: seq<Clarification>, r: Reopening, items: seq<Raw>,
                                    rejected: set<string>, max: nat, docs: set<string>)
    requires Plausible(t) && PassOk(t, p, max, docs) && |open0| <= max
    requires InStep(t, p, open0, r, rejected, max)
    requires forall k :: k in rejected ==> k != [] && SettledKey(t, Steps(t, p, items, max, docs), k)
    ensures InStep(t, Steps(t, p, items, max, docs), open0, Reopens(t, r, items, max, docs), rejected, max)
    decreases |items|
  {
    if items == [] {
    } else if |r.open| < max && r.pending != {} {
      OneItem(t, p, open0, r, items, rejected, max, docs);
      StepKeepsOk(t, p, items[0], max, docs);
      Lockstep(t, Step(t, p, items[0], max, docs), open0, Reopen(t, r, items[0], docs), items[1..], rejected, max, docs);
    } else {
      Finished(t, p, open0, r, items, rejected, max, docs);
    }
  }

  // ---------- The whole list ----------

  /** The kept claims are settled ones, in their order, renumbered: from says where each was. */
  lemma {:induction false} KeptInOrder(t: Text, settled: seq<Clarification>, rejected: set<string>) returns (from: seq<nat>)
    ensures var kept := Kept(t, settled, rejected);
            && |from| == |kept|
            && (forall i :: 0 <= i < |from| ==> from[i] < |settled|)
            && (forall i, j :: 0 <= i < j < |from| ==> from[i] < from[j])
            && (forall i :: 0 <= i < |from| ==>
                  kept[i] == WithId(settled[from[i]], SettledId(i)) && KeyOf(t, settled[from[i]]) !in rejected)
    decreases |settled|
  {
    if settled == [] {
      from := [];
    } else {
      from := KeptInOrder(t, settled[..|settled| - 1], rejected);
      if KeyOf(t, settled[|settled| - 1]) !in rejected {
        from := from + [|settled| - 1];
      }
    }
  }

  lemma {:induction false} RefusedAreDistinct(t: Text, settled: seq<Clarification>, rejected: set<string>)
    requires forall i, j :: 0 <= i < j < |settled| ==> KeyOf(t, settled[i]) != KeyOf(t, settled[j])
    ensures var keys := RejectedKeys(t, settled, rejected);
            forall i, j :: 0 <= i < j < |keys| ==> keys[i] != keys[j]
    decreases |settled|
  {
    if settled != [] {
      var before := settled[..|settled| - 1];
      RefusedAreDistinct(t, before, rejected);
      RejectedKeysAreSettled(t, before, rejected, KeyOf(t, settled[|settled| - 1]));
    }
  }

  /** Nobody lost: a settled claim is either kept, with only its id changed, or among the rejected ones. */
  lemma {:induction false} EveryClaimIsKeptOrRefused(t: Text, settled: seq<Clarification>, rejected: set<string>, c: Clarification)
    requires c in settled
    ensures if KeyOf(t, c) in rejected then KeyOf(t, c) in RejectedKeys(t, settled, rejected)
            else exists d :: d in Kept(t, settled, rejected) && d == WithId(c, d.id)
    ensures |Kept(t, settled, rejected)| + |RejectedKeys(t, settled, rejected)| == |settled|
    decreases |settled|
  {
    var before, last := settled[..|settled| - 1], settled[|settled| - 1];
    var kept := Kept(t, settled, rejected);
    if c in before {
      EveryClaimIsKeptOrRefused(t, before, rejected, c);
    } else {
      if before != [] {
        EveryClaimIsKeptOrRefused(t, before, rejected, before[0]);
      }
      if KeyOf(t, c) !in rejected {
        assert kept[|kept| - 1] == WithId(c, kept[|kept| - 1].id);
      }
    }
  }

  lemma {:induction false} NothingRejected(t: Text, settled: seq<Clarification>, docs: set<string>)
    requires forall i :: 0 <= i < |settled| ==> SettledOk(t, settled[i], i, docs)
    ensures Kept(t, settled, {}) == settled && RejectedKeys(t, settled, {}) == []
    decreases |settled|
  {
    if settled != [] {
      var before, last := settled[..|settled| - 1], settled[|settled| - 1];
      NothingRejected(t, before, docs);
      assert settled == before + [last] && SettledOk(t, last, |before|, docs);
    }
  }

  /** Where each open question of pass 2 comes from. */
  lemma WhereFrom(t: Text, first: Pass, open0: seq<Clarification>, r: Reopening, rejected: set<string>, max: nat)
    requires InStep(t, first, open0, r, rejected, max)
    ensures forall i :: 0 <= i < |open0| ==> r.open[i] == open0[i]
    ensures var refused := RejectedKeys(t, first.settled, rejected);
            forall i :: |open0| <= i < |r.open| ==>
              i - |open0| < |refused| && KeyOf(t, r.open[i]) == refused[i - |open0|] && KeyOf(t, r.open[i]) in rejected
    ensures |open0| <= max ==> |r.open| == |open0| + Least(|RejectedKeys(t, first.settled, rejected)|, max - |open0|)
  {
    var n := |open0|;
    var again := Keys(t, r.open[n..]);
    assert forall i :: 0 <= i < n ==> r.open[i] == r.open[..n][i];
    forall i | n <= i < |r.open|
      ensures var refused := RejectedKeys(t, first.settled, rejected);
              i - n < |refused| && KeyOf(t, r.open[i]) == refused[i - n] && KeyOf(t, r.open[i]) in rejected
    {
      assert again[i - n] == KeyOf(t, r.open[i]);
    }
  }

  lemma KeptIsWellFormed(t: Text, open: seq<Clarification>, settled: seq<Clarification>, rejected: set<string>, max: nat,
                         docs: set<string>)
    requires WellFormed(t, open, settled, max, docs)
    ensures WellFormed(t, open, Kept(t, settled, rejected), max, docs)
    ensures forall c :: c in Kept(t, settled, rejected) ==> KeyOf(t, c) !in rejected
  {
    var kept := Kept(t, settled, rejected);
    hide Kept, ValidClaim, OpenOk;
    var from := KeptInOrder(t, settled, rejected);
    forall j | 0 <= j < |kept| ensures SettledOk(t, kept[j], j, docs) && KeyOf(t, kept[j]) == KeyOf(t, settled[from[j]]) {
      assert SettledOk(t, settled[from[j]], from[j], docs);
    }
  }

  lemma SettledKeysAreApart(t: Text, first: Pass, rejected: set<string>, max: nat, docs: set<string>)
    requires WellFormed(t, first.open, first.settled, max, docs) && rejected <= KeysOf(t, first.settled)
    ensures [] !in rejected && forall i :: 0 <= i < |first.open| ==> KeyOf(t, first.open[i]) !in rejected
    ensures forall k :: k in rejected ==> SettledKey(t, first, k)
  {
    forall k | k in rejected
      ensures k != [] && SettledKey(t, first, k) && forall i :: 0 <= i < |first.open| ==> KeyOf(t, first.open[i]) != k
    {
      var c :| c in first.settled && KeyOf(t, c) == k;
      var j :| 0 <= j < |first.settled| && first.settled[j] == c;
      assert SettledOk(t, first.settled[j], j, docs);
    }
  }

  /** Pass 2 keeps the list well formed. */
  lemma ReopenedIsWellFormed(t: Text, first: Pass, r: Reopening, rejected: set<string>, max: nat, docs: set<string>)
    requires WellFormed(t, first.open, first.settled, max, docs) && InStep(t, first, first.open, r, rejected, max)
    requires rejected <= KeysOf(t, first.settled)
    ensures WellFormed(t, r.open, Kept(t, first.settled, rejected), max, docs)
  {
    var n, kept, refused := |first.open|, Kept(t, first.settled, rejected), RejectedKeys(t, first.settled, rejected);
    WhereFrom(t, first, first.open, r, rejected, max);
    RefusedAreDistinct(t, first.settled, rejected);
    KeptIsWellFormed(t, first.open, first.settled, rejected, max, docs);
    SettledKeysAreApart(t, first, rejected, max, docs);
    forall i | 0 <= i < |r.open| ensures OpenOk(t, r.open[i], i) {
      if i < n {
        assert OpenOk(t, first.open[i], i);
      }
    }
    forall i, j | 0 <= i < |r.open| && 0 <= j < |kept| ensures KeyOf(t, r.open[i]) != KeyOf(t, kept[j]) {
      assert kept[j] in kept;
    }
  }

  lemma PartsOf(t: Text, first: Pass, max: nat, docs: set<string>)
    requires WellFormed(t, first.open, first.settled, max, docs)
    ensures OpenOf(first.open + first.settled) == first.open && SettledOf(first.open + first.settled) == first.settled
  {
    assert forall i :: 0 <= i < |first.open| ==> OpenOk(t, first.open[i], i);
    assert forall i :: 0 <= i < |first.settled| ==> SettledOk(t, first.settled[i], i, docs);
    Split(first.open, first.settled);
  }

  lemma PromoteKeepsWellFormed(t: Text, open: seq<Clarification>, kept: seq<Clarification>, promote: set<string>, max: nat,
                               docs: set<string>)
    requires WellFormed(t, open, kept, max, docs)
    ensures var list := Promote(t, open + kept, promote);
            && |list| == |open| + |kept| && list[|open|..] == kept
            && WellFormed(t, list[..|open|], kept, max, docs)
            && forall i :: 0 <= i < |open| ==>
                 list[i] == open[i].(blocking := open[i].blocking || KeyOf(t, open[i]) in promote)
  {
    var list := Promote(t, open + kept, promote);
    forall i | 0 <= i < |open| ensures list[i] == open[i].(blocking := open[i].blocking || KeyOf(t, open[i]) in promote) {
      assert OpenOk(t, open[i], i);
    }
    forall i | 0 <= i < |kept| ensures list[|open| + i] == kept[i] {
      assert SettledOk(t, kept[i], i, docs);
    }
    var open' := list[..|open|];
    forall i | 0 <= i < |open| ensures KeyOf(t, open'[i]) == KeyOf(t, open[i]) && OpenOk(t, open'[i], i) {
      assert OpenOk(t, open[i], i);
    }
  }

  /** What pass 2 leaves before any promotion. */
  lemma ReopenedInStep(t: Text, items: seq<Raw>, rejected: set<string>, max: nat, docs: set<string>)
    requires Plausible(t)
    requires rejected <= KeysOf(t, Steps(t, EMPTY, items, max, docs).settled)
    ensures var first := Steps(t, EMPTY, items, max, docs);
            var r := Reopens(t, Reopening(first.open, rejected), items, max, docs);
            && WellFormed(t, first.open, first.settled, max, docs) && InStep(t, first, first.open, r, rejected, max)
            && WellFormed(t, r.open, Kept(t, first.settled, rejected), max, docs)
            && Reopened(t, items, first.open + first.settled, rejected, max, docs)
               == r.open + Kept(t, first.settled, rejected)
            && OpenOf(first.open + first.settled) == first.open && SettledOf(first.open + first.settled) == first.settled
            && (rejected == {} ==> r.open + Kept(t, first.settled, rejected) == first.open + first.settled)
  {
    var first := Steps(t, EMPTY, items, max, docs);
    PassOneIsWellFormed(t, items, max, docs);
    SettledKeysAreApart(t, first, rejected, max, docs);
    PartsOf(t, first, max, docs);
    Lockstep(t, EMPTY, first.open, Reopening(first.open, rejected), items, rejected, max, docs);
    ReopenedIsWellFormed(t, first, Reopens(t, Reopening(first.open, rejected), items, max, docs), rejected, max, docs);
    if rejected == {} {
      NothingRejected(t, first.settled, docs);
    }
  }

  /** checkClarifications, on the list of pass 1. */
  function Checked(t: Text, items: seq<Raw>, list: seq<Clarification>, max: nat, docs: set<string>, v: Verdicts)
    : seq<Clarification>
  {
    var rejected := Rejected(t, list, v);
    var checked := if rejected != {} then Reopened(t, items, list, rejected, max, docs) else list;
    Promote(t, checked, Promoted(t, list, checked, rejected, v))
  }

  /** runClarify, once the clarifier's text is parsed: both passes, unless no question may be asked. */
  method RunClarify(t: Text, items: seq<Raw>, max: nat, docs: set<string>, v: Verdicts) returns (list: seq<Clarification>)
    ensures var first := Steps(t, EMPTY, items, max, docs);
            list == if max == 0 then [] else Checked(t, items, first.open + first.settled, max, docs, v)
  {
    if max == 0 {
      return [];
    }
    var parsed := Normalize(t, items, max, docs);
    var rejected := Rejected(t, parsed, v);
    var checked := parsed;
    if rejected != {} {
      checked := ReopenRejected(t, items, parsed, rejected, max, docs);
    }
    list := Promote(t, checked, Promoted(t, parsed, checked, rejected, v));
  }

  /** Which questions the verdicts can promote: each round only the questions it checked. */
  lemma WhoIsPromoted(t: Text, first: Pass, r: Reopening, rejected: set<string>, max: nat, docs: set<string>, v: Verdicts)
    requires WellFormed(t, first.open, first.settled, max, docs) && InStep(t, first, first.open, r, rejected, max)
    requires rejected <= KeysOf(t, first.settled)
    ensures var kept := Kept(t, first.settled, rejected);
            var promote := Promoted(t, first.open + first.settled, r.open + kept, rejected, v);
            forall i :: 0 <= i < |r.open| && !r.open[i].blocking ==>
              (KeyOf(t, r.open[i]) in promote <==>
               v.blockingOn && KeyOf(t, r.open[i]) in (if i < |first.open| then v.risky else v.riskyAgain))
  {
    var n, parsed, checked := |first.open|, first.open + first.settled, r.open + Kept(t, first.settled, rejected);
    SettledKeysAreApart(t, first, rejected, max, docs);
    WhereFrom(t, first, first.open, r, rejected, max);
    forall k | k in Promotable(t, parsed) ensures k !in rejected {
      var c :| c in parsed && !IsSettled(c) && !c.blocking && KeyOf(t, c) == k;
      assert forall j :: 0 <= j < |first.settled| ==> SettledOk(t, first.settled[j], j, docs);
    }
    forall i | 0 <= i < |r.open| && !r.open[i].blocking
      ensures KeyOf(t, r.open[i]) in Promoted(t, parsed, checked, rejected, v) <==>
              v.blockingOn && KeyOf(t, r.open[i]) in (if i < n then v.risky else v.riskyAgain)
    {
      var c := r.open[i];
      if i < n {
        assert OpenOk(t, first.open[i], i) && c == parsed[i] && c in parsed;
        assert KeyOf(t, c) in Promotable(t, parsed);
      } else {
        assert c == checked[i] && c in checked;
        assert KeyOf(t, c) in Promotable(t, checked);
      }
    }
  }

  lemma OutcomeOf(t: Text, first: Pass, open: seq<Clarification>, rejected: set<string>, list: seq<Clarification>,
                  max: nat, docs: set<string>)
    requires |first.open| <= max
    requires |open| == |first.open| + Least(|RejectedKeys(t, first.settled, rejected)|, max - |first.open|)
    requires forall i :: 0 <= i < |first.open| ==> open[i] == first.open[i]
    requires forall i :: |first.open| <= i < |open| ==>
               KeyOf(t, open[i]) == RejectedKeys(t, first.settled, rejected)[i - |first.open|]
    requires var kept := Kept(t, first.settled, rejected);
             && |list| == |open| + |kept| && list[|open|..] == kept && WellFormed(t, list[..|open|], kept, max, docs)
    requires forall i :: 0 <= i < |open| ==> AtMostPromoted(open[i], list[i])
    ensures Outcome(t, first, rejected, list, max, docs)
  {
    forall i | 0 <= i < |open| ensures KeyOf(t, list[i]) == KeyOf(t, open[i]) {
      assert AtMostPromoted(open[i], list[i]);
    }
  }

  lemma PromotionsOf(t: Text, first: Pass, r: Reopening, rejected: set<string>, list: seq<Clarification>,
                     promote: set<string>, max: nat, docs: set<string>, v: Verdicts)
    requires InStep(t, first, first.open, r, rejected, max)
    requires var kept := Kept(t, first.settled, rejected);
             && |list| == |r.open| + |kept| && list[|r.open|..] == kept && WellFormed(t, r.open, kept, max, docs)
    requires forall i :: 0 <= i < |r.open| ==>
               list[i] == r.open[i].(blocking := r.open[i].blocking || KeyOf(t, r.open[i]) in promote)
    requires forall i :: 0 <= i < |r.open| && !r.open[i].blocking ==>
               (KeyOf(t, r.open[i]) in promote <==>
                v.blockingOn && KeyOf(t, r.open[i]) in (if i < |first.open| then v.risky else v.riskyAgain))
    ensures Promotions(t, first, list, v)
  {
    WhereFrom(t, first, first.open, r, rejected, max);
    var n, kept := |first.open|, Kept(t, first.settled, rejected);
    forall i | |r.open| <= i < |list| ensures IsSettled(list[i]) {
      assert list[i] == list[|r.open|..][i - |r.open|];
      assert SettledOk(t, kept[i - |r.open|], i - |r.open|, docs);
    }
    forall i | n <= i < |r.open| ensures list[i].blocking == (v.blockingOn && KeyOf(t, list[i]) in v.riskyAgain) {
      assert KeyOf(t, list[i]) == KeyOf(t, r.open[i]);
    }
  }

  lemma PromotedOutcome(t: Text, first: Pass, r: Reopening, rejected: set<string>, promote: set<string>, max: nat,
                        docs: set<string>)
    requires WellFormed(t, first.open, first.settled, max, docs) && InStep(t, first, first.open, r, rejected, max)
    requires WellFormed(t, r.open, Kept(t, first.settled, rejected), max, docs)
    ensures var list := Promote(t, r.open + Kept(t, first.settled, rejected), promote);
            Outcome(t, first, rejected, list, max, docs)
  {
    var kept := Kept(t, first.settled, rejected);
    var list := Promote(t, r.open + kept, promote);
    PromoteKeepsWellFormed(t, r.open, kept, promote, max, docs);
    WhereFrom(t, first, first.open, r, rejected, max);
    forall i | 0 <= i < |r.open| ensures AtMostPromoted(r.open[i], list[i]) {
    }
    OutcomeOf(t, first, r.open, rejected, list, max, docs);
  }

  /** The whole clarify pass, for every clarifier output and every verdict. */
  lemma {:induction false} ClarifyIsSound(t: Text, items: seq<Raw>, max: nat, docs: set<string>, v: Verdicts)
    requires Plausible(t)
    ensures var first := Steps(t, EMPTY, items, max, docs);
            var list := Checked(t, items, first.open + first.settled, max, docs, v);
            Outcome(t, first, Rejected(t, first.open + first.settled, v), list, max, docs) && Promotions(t, first, list, v)
  {
    var first := Steps(t, EMPTY, items, max, docs);
    var parsed := first.open + first.settled;
    var rejected := Rejected(t, parsed, v);
    PassOneIsWellFormed(t, items, max, docs);
    PartsOf(t, first, max, docs);
    ReopenedInStep(t, items, rejected, max, docs);
    var r := Reopens(t, Reopening(first.open, rejected), items, max, docs);
    var kept := Kept(t, first.settled, rejected);
    var promote := Promoted(t, parsed, r.open + kept, rejected, v);
    PromotedOutcome(t, first, r, rejected, promote, max, docs);
    PromoteKeepsWellFormed(t, r.open, kept, promote, max, docs);
    WhoIsPromoted(t, first, r, rejected, max, docs, v);
    PromotionsOf(t, first, r, rejected, Promote(t, r.open + kept, promote), promote, max, docs, v);
  }

  /** A claim of pass 1 stays settled, with only its id changed, exactly when the check is off or does not reject it. */
  lemma ClaimStaysIff(t: Text, items: seq<Raw>, max: nat, docs: set<string>, v: Verdicts, c: Clarification)
    requires Plausible(t) && c in Steps(t, EMPTY, items, max, docs).settled
    ensures var first := Steps(t, EMPTY, items, max, docs);
            (exists d :: d in Checked(t, items, first.open + first.settled, max, docs, v) && d == WithId(c, d.id))
            <==> !(v.knowledgeOn && t.norm(c.question) in v.unsupported)
  {
    hide WellFormed, Kept, Checked, Promotions, RejectedKeys;
    var first := Steps(t, EMPTY, items, max, docs);
    var rejected := Rejected(t, first.open + first.settled, v);
    PassOneIsWellFormed(t, items, max, docs);
    PartsOf(t, first, max, docs);
    assert KeyOf(t, c) in rejected <==> v.knowledgeOn && t.norm(c.question) in v.unsupported;
    ClarifyIsSound(t, items, max, docs, v);
    var list, kept := Checked(t, items, first.open + first.settled, max, docs, v), Kept(t, first.settled, rejected);
    var n := |list| - |kept|;
    assert list[n..] == kept && WellFormed(t, list[..n], kept, max, docs);
    EveryClaimIsKeptOrRefused(t, first.settled, rejected, c);
    KeptIsWellFormed(t, first.open, first.settled, rejected, max, docs);
    SettledAreLast(t, list, n, kept, max, docs);
    IsSettledClaim(t, first, c, max, docs);
    assert forall d :: d in kept ==> d in list;
  }

  lemma IsSettledClaim(t: Text, first: Pass, c: Clarification, max: nat, docs: set<string>)
    requires WellFormed(t, first.open, first.settled, max, docs) && c in first.settled
    ensures IsSettled(c)
  {
    var i :| 0 <= i < |first.settled| && first.settled[i] == c;
    assert SettledOk(t, first.settled[i], i, docs);
  }

  lemma SettledAreLast(t: Text, list: seq<Clarification>, n: nat, kept: seq<Clarification>, max: nat, docs: set<string>)
    requires n <= |list| && list[n..] == kept && WellFormed(t, list[..n], kept, max, docs)
    ensures forall d :: d in list && IsSettled(d) ==> d in kept
  {
    assert list == list[..n] + kept;
    forall d | d in list[..n] ensures !IsSettled(d) {
      var i :| 0 <= i < n && list[..n][i] == d;
      assert OpenOk(t, list[..n][i], i);
    }
  }
}
