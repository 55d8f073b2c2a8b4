/** applyAnswers of src/hitl/answers.ts. */
module UserAnswers {
  // It folds an answered tool call into the stored clarifications.  normalizeQuestion and
  // String.trim are parameters.

  import opened Base
  import opened Hitl

  datatype Text = Text(norm: string -> string, trim: string -> string)

  datatype Asked = Asked(question: string, header: string, options: seq<Choice>)

  datatype Response =
    | NoResponse
    | FreeText(text: string)
    | Answers(entries: seq<(string, string)>, response: string)

  /** The first item whose normalized question is `wanted`. */
  function FindExact(t: Text, list: seq<Clarification>, wanted: string, from: nat): (r: Option<nat>)
    requires from <= |list|
    ensures r.Some? ==> from <= r.value < |list| && t.norm(list[r.value].question) == wanted
    ensures r.None? ==> forall i :: from <= i < |list| ==> t.norm(list[i].question) != wanted
    decreases |list| - from
  {
    if from == |list| then None
    else if t.norm(list[from].question) == wanted then Some(from)
    else FindExact(t, list, wanted, from + 1)
  }

  predicate Resembles(t: Text, c: Clarification, wanted: string) {
    var have := t.norm(c.question);
    have != [] && (Contains(have, wanted) || Contains(wanted, have))
  }

  function FindLike(t: Text, list: seq<Clarification>, wanted: string, from: nat): (r: Option<nat>)
    requires from <= |list|
    ensures r.Some? ==> from <= r.value < |list| && Resembles(t, list[r.value], wanted)
    decreases |list| - from
  {
    if from == |list| then None
    else if Resembles(t, list[from], wanted) then Some(from)
    else FindLike(t, list, wanted, from + 1)
  }

  function FindMatch(t: Text, list: seq<Clarification>, key: string): (r: Option<nat>)
    ensures r.Some? ==> r.value < |list|
  {
    var wanted := t.norm(key);
    if wanted == [] then None
    else
      var exact := FindExact(t, list, wanted, 0);
      if exact.Some? then exact else FindLike(t, list, wanted, 0)
  }

  function NewItem(position: nat, asked: Option<Asked>, question: string, answer: string, now: int): Clarification {
    Clarification("q" + Digits(position + 1), question,
                  if asked.Some? then asked.value.header else "Asked",
                  "Asked by the agent during execution",
                  if asked.Some? then asked.value.options else [],
                  None, false, Some(answer), Some(now), Some(User), None)
  }

  function Recorded(c: Clarification, answer: string, now: int): Clarification {
    c.(answer := Some(answer), answeredAt := Some(now), source := Some(User), evidence := None)
  }

  /** The working list and the positions whose answer this call set, in the order they were first set. */
  datatype Folding = Folding(list: seq<Clarification>, matched: seq<nat>)

  function Record(f: Folding, at: nat, answer: string, now: int): Folding
    requires at < |f.list|
  {
    Folding(f.list[at := Recorded(f.list[at], answer, now)], if at in f.matched then f.matched else f.matched + [at])
  }

  function Append(f: Folding, asked: Option<Asked>, question: string, answer: string, now: int): Folding {
    Folding(f.list + [NewItem(|f.list|, asked, question, answer, now)], f.matched + [|f.list|])
  }

  function FindAsked(t: Text, asked: seq<Asked>, key: string): Option<Asked> {
    if asked == [] then None
    else if t.norm(asked[0].question) == t.norm(key) then Some(asked[0])
    else FindAsked(t, asked[1..], key)
  }

  function Settle(t: Text, asked: seq<Asked>, now: int, f: Folding, key: string, answer: string): Folding {
    var text := t.trim(answer);
    if text == [] then f
    else
      match FindMatch(t, f.list, key)
      case Some(at) => Record(f, at, text, now)
      case None =>
        var item := FindAsked(t, asked, key);
        Append(f, item, if item.Some? then item.value.question else t.trim(key), text, now)
  }

  function SettleAll(t: Text, asked: seq<Asked>, now: int, f: Folding, entries: seq<(string, string)>): Folding {
    if entries == [] then f
    else
      var last := entries[|entries| - 1];
      Settle(t, asked, now, SettleAll(t, asked, now, f, entries[..|entries| - 1]), last.0, last.1)
  }

  /** Asked questions with no match in the list, or whose match has no answer yet. */
  function Unanswered(t: Text, list: seq<Clarification>, asked: seq<Asked>): seq<Asked> {
    if asked == [] then []
    else
      var m := FindMatch(t, list, asked[0].question);
      (if m.None? || list[m.value].answer.None? then [asked[0]] else []) + Unanswered(t, list, asked[1..])
  }

  /** The match of the first asked question that has one and is not answered. */
  function FirstPending(t: Text, list: seq<Clarification>, asked: seq<Asked>): (r: Option<nat>)
    ensures r.Some? ==> r.value < |list| && list[r.value].answer.None?
  {
    if asked == [] then None
    else
      var m := FindMatch(t, list, asked[0].question);
      if m.Some? && list[m.value].answer.None? then m else FirstPending(t, list, asked[1..])
  }

  const FREE_FORM := "Free-form response"

  function Freeform(t: Text, asked: seq<Asked>, now: int, f: Folding, response: string): Folding {
    var text := t.trim(response);
    if text == [] then f
    else
      match FirstPending(t, f.list, asked)
      case Some(at) => Record(f, at, text, now)
      case None => Append(f, None, FREE_FORM, text, now)
  }

  function Folded(t: Text, list: seq<Clarification>, asked: seq<Asked>, response: Response, now: int): Folding {
    var start := Folding(list, []);
    match response
    case NoResponse => start
    case FreeText(raw) =>
      var text := t.trim(raw);
      if text == [] then start
      else
        var open := Unanswered(t, list, asked);
        if |open| == 1 then Settle(t, asked, now, start, open[0].question, text)
        else Append(start, None, FREE_FORM, text, now)
    case Answers(entries, text) => Freeform(t, asked, now, SettleAll(t, asked, now, start, entries), text)
  }

  /** applyAnswers; the matched items are returned as they are in the final list. */
  method ApplyAnswers(t: Text, list: seq<Clarification>, asked: seq<Asked>, response: Response, now: int)
    returns (next: seq<Clarification>, matched: seq<Clarification>)
    ensures next == Folded(t, list, asked, response, now).list
    ensures |matched| == |Folded(t, list, asked, response, now).matched|
    ensures forall i :: 0 <= i < |matched| ==>
              && Folded(t, list, asked, response, now).matched[i] < |next|
              && matched[i] == next[Folded(t, list, asked, response, now).matched[i]]
  {
    var f := Folding(list, []);
    match response {
      case NoResponse =>
      case FreeText(raw) =>
        var text := t.trim(raw);
        if text != [] {
          var open := Unanswered(t, f.list, asked);
          f := if |open| == 1 then Settle(t, asked, now, f, open[0].question, text)
               else Append(f, None, FREE_FORM, text, now);
        }
      case Answers(entries, text) =>
        var i := 0;
        while i < |entries|
          invariant 0 <= i <= |entries|
          invariant f == SettleAll(t, asked, now, Folding(list, []), entries[..i])
        {
          f := Settle(t, asked, now, f, entries[i].0, entries[i].1);
          i := i + 1;
          assert entries[..i][..i - 1] == entries[..i - 1];
        }
        assert entries[..i] == entries;
        f := Freeform(t, asked, now, f, text);
    }
    FoldedIsSound(t, list, asked, response, now);
    next := f.list;
    matched := seq(|f.matched|, i requires 0 <= i < |f.matched| && f.matched[i] < |f.list| => f.list[f.matched[i]]);
  }

  // ---------- What applyAnswers keeps ----------

  /** Everything but the answer and what belongs to it. */
  predicate SameQuestion(a: Clarification, b: Clarification) {
    a.(answer := None, answeredAt := None, source := None, evidence := None)
    == b.(answer := None, answeredAt := None, source := None, evidence := None)
  }

  /** `g` continues `f`: items keep their place and question, and only matched ones changed. */
  ghost predicate Continues(f: Folding, g: Folding, now: int) {
    && |f.list| <= |g.list|
    && f.matched <= g.matched
    && (forall i :: 0 <= i < |f.list| ==> SameQuestion(f.list[i], g.list[i]))
    && (forall i :: 0 <= i < |f.list| && i !in g.matched ==> g.list[i] == f.list[i])
    && (forall i :: |f.list| <= i < |g.list| ==> i in g.matched && g.list[i].id == "q" + Digits(i + 1))
    && (forall k :: |f.matched| <= k < |g.matched| ==> g.matched[k] < |g.list|)
  }

  /** Matched positions are distinct, and each holds a user's non-empty answer from this call. */
  ghost predicate Sound(f: Folding, now: int) {
    && (forall i, j :: 0 <= i < j < |f.matched| ==> f.matched[i] != f.matched[j])
    && (forall k :: 0 <= k < |f.matched| ==>
          && f.matched[k] < |f.list|
          && var c := f.list[f.matched[k]];
             c.answer.Some? && c.answer.value != [] && c.answeredAt == Some(now) && c.source == Some(User) && c.evidence.None?)
  }

  lemma RecordContinues(f: Folding, at: nat, answer: string, now: int)
    requires Sound(f, now) && at < |f.list| && answer != []
    ensures var g := Record(f, at, answer, now); Continues(f, g, now) && Sound(g, now)
  {
    var g := Record(f, at, answer, now);
    assert at in g.matched;
    if at !in f.matched {
      assert g.matched[|f.matched|] == at;
    }
  }

  lemma AppendContinues(f: Folding, asked: Option<Asked>, question: string, answer: string, now: int)
    requires Sound(f, now) && answer != []
    ensures var g := Append(f, asked, question, answer, now); Continues(f, g, now) && Sound(g, now)
  {
    var g := Append(f, asked, question, answer, now);
    assert g.matched[|f.matched|] == |f.list|;
  }

  lemma SettleContinues(t: Text, asked: seq<Asked>, now: int, f: Folding, key: string, answer: string)
    requires Sound(f, now)
    ensures var g := Settle(t, asked, now, f, key, answer); Continues(f, g, now) && Sound(g, now)
  {
    var text := t.trim(answer);
    if text != [] {
      match FindMatch(t, f.list, key)
      case Some(at) => RecordContinues(f, at, text, now);
      case None =>
        var item := FindAsked(t, asked, key);
        AppendContinues(f, item, if item.Some? then item.value.question else t.trim(key), text, now);
    }
  }

  lemma {:induction false} SettleAllContinues(t: Text, asked: seq<Asked>, now: int, f: Folding, entries: seq<(string, string)>)
    requires Sound(f, now)
    ensures var g := SettleAll(t, asked, now, f, entries); Continues(f, g, now) && Sound(g, now)
  {
    if entries != [] {
      var init := entries[..|entries| - 1];
      SettleAllContinues(t, asked, now, f, init);
      var mid := SettleAll(t, asked, now, f, init);
      var last := entries[|entries| - 1];
      SettleContinues(t, asked, now, mid, last.0, last.1);
    }
  }

  lemma FreeformContinues(t: Text, asked: seq<Asked>, now: int, f: Folding, response: string)
    requires Sound(f, now)
    ensures var g := Freeform(t, asked, now, f, response); Continues(f, g, now) && Sound(g, now)
  {
    var text := t.trim(response);
    if text != [] {
      match FirstPending(t, f.list, asked)
      case Some(at) => RecordContinues(f, at, text, now);
      case None => AppendContinues(f, None, FREE_FORM, text, now);
    }
  }

  /**
   No answer call drops, moves or rewords a stored question; it changes exactly the matched
   items, each once, to a non-empty user answer; what it appends is numbered by its place.
   */
  lemma FoldedIsSound(t: Text, list: seq<Clarification>, asked: seq<Asked>, response: Response, now: int)
    ensures var g := Folded(t, list, asked, response, now);
            Continues(Folding(list, []), g, now) && Sound(g, now)
  {
    var start := Folding(list, []);
    match response
    case NoResponse =>
    case FreeText(raw) =>
      var text := t.trim(raw);
      if text != [] {
        var open := Unanswered(t, list, asked);
        if |open| == 1 {
          SettleContinues(t, asked, now, start, open[0].question, text);
        } else {
          AppendContinues(start, None, FREE_FORM, text, now);
        }
      }
    case Answers(entries, text) =>
      SettleAllContinues(t, asked, now, start, entries);
      var mid := SettleAll(t, asked, now, start, entries);
      FreeformContinues(t, asked, now, mid, text);
  }

  // ---------- Which question gets which text ----------

  /** The first question that says the same up to normalization, or else the first that contains it or is contained in it. */
  ghost predicate IsTarget(t: Text, list: seq<Clarification>, key: string, at: nat) {
    && t.norm(key) != [] && at < |list|
    && (|| (&& t.norm(list[at].question) == t.norm(key)
            && forall i :: 0 <= i < at ==> t.norm(list[i].question) != t.norm(key))
        || (&& (forall i :: 0 <= i < |list| ==> t.norm(list[i].question) != t.norm(key))
            && Related(t, list[at].question, key)
            && forall i :: 0 <= i < at ==> !Related(t, list[i].question, key)))
  }

  /** One of two questions, normalized, contains the other. */
  predicate Related(t: Text, have: string, key: string) {
    t.norm(have) != [] && (Contains(t.norm(have), t.norm(key)) || Contains(t.norm(key), t.norm(have)))
  }

  ghost predicate NoTarget(t: Text, list: seq<Clarification>, key: string) {
    t.norm(key) == [] ||
    forall i :: 0 <= i < |list| ==> t.norm(list[i].question) != t.norm(key) && !Related(t, list[i].question, key)
  }

  /** A question the agent asked, in the words of the first asked one that matches, or else its own. */
  ghost predicate AsksAnew(t: Text, c: Clarification, at: nat, asked: seq<Asked>, key: string) {
    && c.id == "q" + Digits(at + 1) && c.why == "Asked by the agent during execution" && c.default.None? && !c.blocking
    && (|| (exists i: nat :: FirstAsked(t, asked, key, i)
              && (c.question, c.header, c.options) == (asked[i].question, asked[i].header, asked[i].options))
        || (&& (forall i :: 0 <= i < |asked| ==> t.norm(asked[i].question) != t.norm(key))
            && (c.question, c.header, c.options) == (t.trim(key), "Asked", [])))
  }

  ghost predicate FirstAsked(t: Text, asked: seq<Asked>, key: string, i: nat) {
    && i < |asked| && t.norm(asked[i].question) == t.norm(key)
    && forall j :: 0 <= j < i ==> t.norm(asked[j].question) != t.norm(key)
  }

  /** Where an answer to `key` goes when the list has n items: to its target, or to a new item. */
  ghost predicate GoesTo(t: Text, list: seq<Clarification>, n: nat, asked: seq<Asked>, key: string, at: nat)
    requires n <= |list|
  {
    || IsTarget(t, list[..n], key, at)
    || (at == n < |list| && NoTarget(t, list[..n], key) && AsksAnew(t, list[n], n, asked, key))
  }

  /** An asked question that is matched and has no answer yet. */
  ghost predicate Awaits(t: Text, list: seq<Clarification>, key: string, at: nat) {
    IsTarget(t, list, key, at) && list[at].answer.None?
  }

  /** The free-form reply's place: the first asked question that awaits an answer, or a new item. */
  ghost predicate ReplyGoesTo(t: Text, before: seq<Clarification>, after: seq<Clarification>, asked: seq<Asked>, at: nat) {
    || (exists i: nat :: i < |asked| && Awaits(t, before, asked[i].question, at)
          && forall j, p :: 0 <= j < i ==> !Awaits(t, before, asked[j].question, p))
    || ((forall j, p :: 0 <= j < |asked| ==> !Awaits(t, before, asked[j].question, p))
        && at == |before| < |after| && IsFreeForm(after[at], at))
  }

  predicate IsFreeForm(c: Clarification, at: nat) {
    && c.id == "q" + Digits(at + 1) && c.question == "Free-form response" && c.header == "Asked" && c.options == []
    && c.why == "Asked by the agent during execution" && c.default.None? && !c.blocking
  }

  /** The item holds a user's answer given now. */
  predicate Holds(c: Clarification, text: string, now: int) {
    c.answer == Some(text) && c.answeredAt == Some(now) && c.source == Some(User) && c.evidence.None?
  }

  lemma {:induction false} ExactIsFirst(t: Text, list: seq<Clarification>, wanted: string, from: nat)
    requires from <= |list|
    ensures var r := FindExact(t, list, wanted, from);
            r.Some? ==> forall i :: from <= i < r.value ==> t.norm(list[i].question) != wanted
    decreases |list| - from
  {
    if from < |list| && t.norm(list[from].question) != wanted {
      ExactIsFirst(t, list, wanted, from + 1);
    }
  }

  lemma {:induction false} LikeIsFirst(t: Text, list: seq<Clarification>, wanted: string, from: nat)
    requires from <= |list|
    ensures var r := FindLike(t, list, wanted, from);
            forall i :: from <= i < (if r.Some? then r.value else |list|) ==> !Resembles(t, list[i], wanted)
    decreases |list| - from
  {
    hide Resembles;
    if from < |list| && !Resembles(t, list[from], wanted) {
      LikeIsFirst(t, list, wanted, from + 1);
    }
  }

  lemma MatchIsTarget(t: Text, list: seq<Clarification>, key: string)
    ensures match FindMatch(t, list, key)
            case Some(at) => IsTarget(t, list, key, at) && forall p :: IsTarget(t, list, key, p) ==> p == at
            case None => NoTarget(t, list, key) && forall p :: !IsTarget(t, list, key, p)
  {
    hide Contains;
    ExactIsFirst(t, list, t.norm(key), 0);
    LikeIsFirst(t, list, t.norm(key), 0);
    assert forall i :: 0 <= i < |list| ==> (Resembles(t, list[i], t.norm(key)) <==> Related(t, list[i].question, key));
  }

  lemma {:induction false} AskedIsFirst(t: Text, asked: seq<Asked>, key: string)
    ensures match FindAsked(t, asked, key)
            case Some(item) => exists i: nat :: FirstAsked(t, asked, key, i) && item == asked[i]
            case None => forall i :: 0 <= i < |asked| ==> t.norm(asked[i].question) != t.norm(key)
  {
    if asked != [] && t.norm(asked[0].question) == t.norm(key) {
      assert FirstAsked(t, asked, key, 0);
    } else if asked != [] {
      AskedIsFirst(t, asked[1..], key);
      if FindAsked(t, asked[1..], key).Some? {
        var i: nat :| FirstAsked(t, asked[1..], key, i) && FindAsked(t, asked[1..], key).value == asked[1..][i];
        assert forall j :: 0 < j < i + 1 ==> asked[j] == asked[1..][j - 1];
        assert FirstAsked(t, asked, key, i + 1);
      } else {
        assert forall j :: 0 < j < |asked| ==> asked[j] == asked[1..][j - 1];
      }
    }
  }

  /** One answered entry: its place, and nothing else changes. */
  lemma SettlePlaces(t: Text, asked: seq<Asked>, now: int, f: Folding, key: string, answer: string) returns (at: nat)
    requires t.trim(answer) != []
    ensures var g := Settle(t, asked, now, f, key, answer).list;
            && GoesTo(t, g, |f.list|, asked, key, at) && |g| == (if at == |f.list| then |f.list| + 1 else |f.list|)
            && at < |g| && Holds(g[at], t.trim(answer), now) && (at < |f.list| ==> SameQuestion(f.list[at], g[at]))
            && (forall p :: 0 <= p < |f.list| && p != at ==> g[p] == f.list[p])
            && at == match FindMatch(t, f.list, key) case Some(found) => found case None => |f.list|
  {
    hide FindMatch, FindAsked, IsTarget, NoTarget;
    MatchIsTarget(t, f.list, key);
    AskedIsFirst(t, asked, key);
    at := if FindMatch(t, f.list, key).Some? then FindMatch(t, f.list, key).value else |f.list|;
    var g := Settle(t, asked, now, f, key, answer).list;
    if at < |f.list| {
      TargetByQuestion(t, f.list, g[..|f.list|], key, at);
    } else {
      assert g[..|f.list|] == f.list;
    }
  }

  /** Targets depend on the questions only. */
  lemma TargetByQuestion(t: Text, a: seq<Clarification>, b: seq<Clarification>, key: string, at: nat)
    requires |a| == |b| && forall i :: 0 <= i < |a| ==> a[i].question == b[i].question
    ensures IsTarget(t, a, key, at) <==> IsTarget(t, b, key, at)
    ensures NoTarget(t, a, key) <==> NoTarget(t, b, key)
  {
    hide Related;
  }

  lemma GoesToStays(t: Text, a: seq<Clarification>, b: seq<Clarification>, n: nat, asked: seq<Asked>, key: string, at: nat)
    requires n <= |a| <= |b| && forall i :: 0 <= i < |a| ==> SameQuestion(a[i], b[i])
    requires GoesTo(t, a, n, asked, key, at)
    ensures GoesTo(t, b, n, asked, key, at)
  {
    hide IsTarget, NoTarget;
    TargetByQuestion(t, a[..n], b[..n], key, at);
  }

  /** Entry x is not blank and goes to place p. */
  predicate EntryAt(t: Text, entries: seq<(string, string)>, at: seq<nat>, x: nat, p: nat)
    requires |at| == |entries|
  {
    x < |entries| && t.trim(entries[x].1) != [] && at[x] == p
  }

  predicate LastAt(t: Text, entries: seq<(string, string)>, at: seq<nat>, x: nat, p: nat)
    requires |at| == |entries|
  {
    EntryAt(t, entries, at, x, p) && forall y :: x < y < |entries| ==> !EntryAt(t, entries, at, y, p)
  }

  /**
   The entries' places: n[x] items stood before entry x, which went to at[x].  An item holds the text
   of the last entry that went to it, and is as it was when none did.
   */
  ghost predicate Placed(t: Text, list: seq<Clarification>, mid: seq<Clarification>, asked: seq<Asked>,
                         entries: seq<(string, string)>, now: int, at: seq<nat>, n: seq<nat>) {
    && |at| == |entries| && |n| == |entries| + 1 && n[0] == |list| && n[|entries|] == |mid| >= |list|
    && (forall x :: 0 <= x <= |entries| ==> n[x] <= |mid|)
    && (forall x :: 0 <= x < |entries| && t.trim(entries[x].1) == [] ==> n[x + 1] == n[x])
    && (forall x :: 0 <= x < |entries| && t.trim(entries[x].1) != [] ==>
          GoesTo(t, mid, n[x], asked, entries[x].0, at[x]) && n[x + 1] == (if at[x] == n[x] then n[x] + 1 else n[x]))
    && (forall x: nat, p: nat :: x < |entries| && LastAt(t, entries, at, x, p) ==>
          p < |mid| && Holds(mid[p], t.trim(entries[x].1), now))
    && (forall p: nat :: p < |list| && (forall x: nat :: !EntryAt(t, entries, at, x, p)) ==> mid[p] == list[p])
  }

  /** The matched places are those that some entry went to. */
  ghost predicate MatchedAre(t: Text, matched: seq<nat>, entries: seq<(string, string)>, at: seq<nat>)
    requires |at| == |entries|
  {
    forall p: nat :: p in matched <==> exists x: nat :: EntryAt(t, entries, at, x, p)
  }

  lemma {:induction false} EntriesArePlaced(t: Text, list: seq<Clarification>, asked: seq<Asked>, entries: seq<(string, string)>,
                                            now: int) returns (at: seq<nat>, n: seq<nat>)
    ensures var f := SettleAll(t, asked, now, Folding(list, []), entries);
            Placed(t, list, f.list, asked, entries, now, at, n) && MatchedAre(t, f.matched, entries, at)
  {
    if entries == [] {
      return [], [|list|];
    }
    var init, last := entries[..|entries| - 1], entries[|entries| - 1];
    var f, g := SettleAll(t, asked, now, Folding(list, []), init), SettleAll(t, asked, now, Folding(list, []), entries);
    var at', n' := EntriesArePlaced(t, list, asked, init, now);
    var a := 0;
    if t.trim(last.1) != [] {
      a := SettlePlaces(t, asked, now, f, last.0, last.1);
    }
    at, n := at' + [a], n' + [|g.list|];
    NextIsPlaced(t, list, f.list, g.list, asked, entries, now, at', n', a);
    NextIsMatched(t, f, asked, entries, now, at', a);
  }

  /** What one entry does to the working list: its text at place a, if it has one. */
  ghost predicate Writes(t: Text, f: seq<Clarification>, g: seq<Clarification>, asked: seq<Asked>, entry: (string, string),
                         now: int, a: nat) {
    && (t.trim(entry.1) == [] ==> g == f)
    && (t.trim(entry.1) != [] ==>
          && a < |g| && |g| == (if a == |f| then |f| + 1 else |f|)
          && GoesTo(t, g, |f|, asked, entry.0, a) && Holds(g[a], t.trim(entry.1), now)
          && (a < |f| ==> SameQuestion(f[a], g[a]))
          && forall p :: 0 <= p < |f| && p != a ==> g[p] == f[p])
  }

  lemma NextGoes(t: Text, f: seq<Clarification>, g: seq<Clarification>, asked: seq<Asked>, entries: seq<(string, string)>,
                 now: int, at: seq<nat>, n: seq<nat>, a: nat, x: nat)
    requires entries != [] && |at| == |entries| - 1 && |n| == |entries| && n[|entries| - 1] == |f|
    requires Writes(t, f, g, asked, entries[|entries| - 1], now, a)
    requires x < |entries| && t.trim(entries[x].1) != []
    requires x < |at| ==> n[x] <= |f| && GoesTo(t, f, n[x], asked, entries[x].0, at[x])
    ensures n[x] <= |g| && GoesTo(t, g, n[x], asked, entries[x].0, (at + [a])[x])
  {
    hide GoesTo, Holds;
    if x < |at| {
      GoesToStays(t, f, g, n[x], asked, entries[x].0, at[x]);
    }
  }

  lemma NextHolds(t: Text, list: seq<Clarification>, f: seq<Clarification>, g: seq<Clarification>, asked: seq<Asked>,
                  entries: seq<(string, string)>, now: int, at: seq<nat>, n: seq<nat>, a: nat)
    requires entries != [] && Placed(t, list, f, asked, entries[..|entries| - 1], now, at, n)
    requires Writes(t, f, g, asked, entries[|entries| - 1], now, a)
    ensures forall x: nat, p: nat :: x < |entries| && LastAt(t, entries, at + [a], x, p) ==>
              p < |g| && Holds(g[p], t.trim(entries[x].1), now)
    ensures forall p: nat :: p < |list| && (forall x: nat :: !EntryAt(t, entries, at + [a], x, p)) ==> g[p] == list[p]
  {
    hide GoesTo, Holds;
    var init, k := entries[..|entries| - 1], |entries| - 1;
    forall x: nat, p: nat | x < |entries| && LastAt(t, entries, at + [a], x, p)
      ensures p < |g| && Holds(g[p], t.trim(entries[x].1), now)
    {
      if x < k {
        assert !EntryAt(t, entries, at + [a], k, p);
        assert forall y: nat :: y < k ==> (EntryAt(t, init, at, y, p) <==> EntryAt(t, entries, at + [a], y, p));
        assert LastAt(t, init, at, x, p);
      }
    }
    forall p: nat | p < |list| && (forall x: nat :: !EntryAt(t, entries, at + [a], x, p)) ensures g[p] == list[p] {
      assert !EntryAt(t, entries, at + [a], k, p);
      forall x: nat ensures !EntryAt(t, init, at, x, p) {
        assert !EntryAt(t, entries, at + [a], x, p);
      }
    }
  }

  lemma NextIsPlaced(t: Text, list: seq<Clarification>, f: seq<Clarification>, g: seq<Clarification>, asked: seq<Asked>,
                     entries: seq<(string, string)>, now: int, at: seq<nat>, n: seq<nat>, a: nat)
    requires entries != [] && Placed(t, list, f, asked, entries[..|entries| - 1], now, at, n)
    requires Writes(t, f, g, asked, entries[|entries| - 1], now, a)
    ensures Placed(t, list, g, asked, entries, now, at + [a], n + [|g|])
  {
    NextHolds(t, list, f, g, asked, entries, now, at, n, a);
    hide GoesTo, Holds, LastAt, EntryAt;
    var init := entries[..|entries| - 1];
    forall x | 0 <= x < |entries| && t.trim(entries[x].1) != []
      ensures n[x] <= |g| && GoesTo(t, g, (n + [|g|])[x], asked, entries[x].0, (at + [a])[x])
    {
      assert x < |init| ==> init[x] == entries[x];
      NextGoes(t, f, g, asked, entries, now, at, n, a, x);
    }
  }

  lemma NextIsMatched(t: Text, f: Folding, asked: seq<Asked>, entries: seq<(string, string)>, now: int, at: seq<nat>, a: nat)
    requires entries != [] && |at| == |entries| - 1 && MatchedAre(t, f.matched, entries[..|entries| - 1], at)
    requires var last := entries[|entries| - 1];
             t.trim(last.1) != [] ==>
               a == match FindMatch(t, f.list, last.0) case Some(found) => found case None => |f.list|
    ensures var last := entries[|entries| - 1];
            MatchedAre(t, Settle(t, asked, now, f, last.0, last.1).matched, entries, at + [a])
  {
    hide FindMatch;
    var init, k := entries[..|entries| - 1], |entries| - 1;
    var g := Settle(t, asked, now, f, entries[k].0, entries[k].1);
    forall p: nat ensures p in g.matched <==> exists x: nat :: EntryAt(t, entries, at + [a], x, p) {
      assert forall x: nat :: x < k ==> (EntryAt(t, init, at, x, p) <==> EntryAt(t, entries, at + [a], x, p));
      assert (exists x: nat :: EntryAt(t, entries, at + [a], x, p)) <==>
             (exists x: nat :: EntryAt(t, init, at, x, p)) || EntryAt(t, entries, at + [a], k, p);
    }
  }

  /** The free-form reply: its place, and nothing else changes. */
  lemma ReplyIsPlaced(t: Text, asked: seq<Asked>, now: int, f: Folding, reply: string) returns (at: nat)
    requires t.trim(reply) != []
    ensures var g := Freeform(t, asked, now, f, reply);
            && ReplyGoesTo(t, f.list, g.list, asked, at) && |g.list| == (if at == |f.list| then |f.list| + 1 else |f.list|)
            && at < |g.list| && Holds(g.list[at], t.trim(reply), now)
            && (forall p :: 0 <= p < |f.list| && p != at ==> g.list[p] == f.list[p])
            && forall p :: p in g.matched <==> p in f.matched || p == at
  {
    hide IsTarget, FindMatch;
    PendingIsFirst(t, f.list, asked);
    var pending := FirstPending(t, f.list, asked);
    at := if pending.Some? then pending.value else |f.list|;
  }

  lemma {:induction false} PendingIsFirst(t: Text, list: seq<Clarification>, asked: seq<Asked>)
    ensures match FirstPending(t, list, asked)
            case Some(at) => exists i: nat :: i < |asked| && Awaits(t, list, asked[i].question, at)
                               && forall j, p :: 0 <= j < i ==> !Awaits(t, list, asked[j].question, p)
            case None => forall j, p :: 0 <= j < |asked| ==> !Awaits(t, list, asked[j].question, p)
  {
    hide IsTarget, FindMatch;
    if asked != [] {
      MatchIsTarget(t, list, asked[0].question);
      var m := FindMatch(t, list, asked[0].question);
      if m.Some? && list[m.value].answer.None? {
        assert Awaits(t, list, asked[0].question, m.value);
      } else {
        assert forall p :: !Awaits(t, list, asked[0].question, p);
        PendingIsFirst(t, list, asked[1..]);
        if FirstPending(t, list, asked[1..]).Some? {
          var at := FirstPending(t, list, asked[1..]).value;
          var i: nat :| i < |asked[1..]| && Awaits(t, list, asked[1..][i].question, at)
            && forall j, p :: 0 <= j < i ==> !Awaits(t, list, asked[1..][j].question, p);
          assert asked[1..][i] == asked[i + 1];
          forall j, p | 0 <= j < i + 1 ensures !Awaits(t, list, asked[j].question, p) {
            if j > 0 {
              assert asked[1..][j - 1] == asked[j];
            }
          }
        } else {
          forall j, p | 0 <= j < |asked| ensures !Awaits(t, list, asked[j].question, p) {
            if j > 0 {
              assert asked[1..][j - 1] == asked[j];
            }
          }
        }
      }
    }
  }

  /**
   What an answered call stores.  `mid` is the list after its entries: each entry that is not blank
   went to its target, or to a new item.  The free-form reply then goes to the first asked question
   that still awaits an answer, or to a new item of its own.
   */
  lemma AnswersAreStored(t: Text, list: seq<Clarification>, asked: seq<Asked>, entries: seq<(string, string)>, reply: string,
                         now: int) returns (at: seq<nat>, n: seq<nat>, mid: seq<Clarification>, last: nat)
    ensures Placed(t, list, mid, asked, entries, now, at, n)
    ensures var g := Folded(t, list, asked, Answers(entries, reply), now);
            && (t.trim(reply) == [] ==> g.list == mid)
            && (t.trim(reply) != [] ==>
                  && ReplyGoesTo(t, mid, g.list, asked, last) && |g.list| == (if last == |mid| then |mid| + 1 else |mid|)
                  && last < |g.list| && Holds(g.list[last], t.trim(reply), now)
                  && forall p :: 0 <= p < |mid| && p != last ==> g.list[p] == mid[p])
            && forall p: nat :: p in g.matched <==>
                 (exists x: nat :: EntryAt(t, entries, at, x, p)) || (t.trim(reply) != [] && p == last)
  {
    hide Placed, ReplyGoesTo, SettleAll, Holds;
    at, n := EntriesArePlaced(t, list, asked, entries, now);
    var f := SettleAll(t, asked, now, Folding(list, []), entries);
    mid, last := f.list, 0;
    if t.trim(reply) != [] {
      last := ReplyIsPlaced(t, asked, now, f, reply);
    }
  }

  /** An asked question with no match, or whose match has no answer. */
  ghost predicate Open(t: Text, list: seq<Clarification>, item: Asked) {
    NoTarget(t, list, item.question) || exists p: nat :: Awaits(t, list, item.question, p)
  }

  ghost predicate OnlyOpen(t: Text, list: seq<Clarification>, asked: seq<Asked>, i: nat) {
    i < |asked| && forall j :: 0 <= j < |asked| ==> (Open(t, list, asked[j]) <==> j == i)
  }

  lemma OpenIff(t: Text, list: seq<Clarification>, item: Asked)
    ensures Open(t, list, item) <==>
            var m := FindMatch(t, list, item.question); m.None? || list[m.value].answer.None?
  {
    hide IsTarget, FindMatch;
    MatchIsTarget(t, list, item.question);
    var m := FindMatch(t, list, item.question);
    if m.Some? {
      assert IsTarget(t, list, item.question, m.value);
      assert !NoTarget(t, list, item.question) by { TargetExcludes(t, list, item.question, m.value); }
      assert list[m.value].answer.None? ==> Awaits(t, list, item.question, m.value);
    }
  }

  lemma TargetExcludes(t: Text, list: seq<Clarification>, key: string, at: nat)
    requires IsTarget(t, list, key, at)
    ensures !NoTarget(t, list, key)
  {
  }

  lemma {:induction false} OneUnanswered(t: Text, list: seq<Clarification>, asked: seq<Asked>)
    ensures var open := Unanswered(t, list, asked);
            && (open == [] <==> forall j :: 0 <= j < |asked| ==> !Open(t, list, asked[j]))
            && (|open| == 1 ==> exists i: nat :: OnlyOpen(t, list, asked, i) && open[0] == asked[i])
            && (|open| != 1 ==> forall i: nat :: !OnlyOpen(t, list, asked, i))
  {
    hide Open, FindMatch;
    if asked != [] {
      var rest := asked[1..];
      OpenIff(t, list, asked[0]);
      OneUnanswered(t, list, rest);
      assert forall j :: 0 < j < |asked| ==> asked[j] == rest[j - 1];
      assert forall j :: 0 <= j < |rest| ==> rest[j] == asked[j + 1];
      var open := Unanswered(t, list, asked);
      if Open(t, list, asked[0]) {
        if |open| == 1 {
          assert OnlyOpen(t, list, asked, 0);
        } else {
          var j: nat :| j < |rest| && Open(t, list, rest[j]);
          assert Open(t, list, asked[j + 1]);
        }
      } else if |open| == 1 {
        var i: nat :| OnlyOpen(t, list, rest, i) && Unanswered(t, list, rest)[0] == rest[i];
        assert OnlyOpen(t, list, asked, i + 1);
      } else {
        forall i: nat ensures !OnlyOpen(t, list, asked, i) {
          if i > 0 {
            assert !OnlyOpen(t, list, rest, i - 1);
          }
        }
      }
    }
  }

  /**
   What a plain text answer stores: it answers the one asked question that is still open, at that
   question's place; when none or several are open it becomes a new item.
   */
  lemma TextIsStored(t: Text, list: seq<Clarification>, asked: seq<Asked>, raw: string, now: int) returns (at: nat)
    requires t.trim(t.trim(raw)) == t.trim(raw)
    ensures var g := Folded(t, list, asked, FreeText(raw), now);
            && (t.trim(raw) == [] ==> g == Folding(list, []))
            && (t.trim(raw) != [] ==>
                  && at < |g.list| && |g.list| == (if at == |list| then |list| + 1 else |list|)
                  && (|| (exists i: nat :: OnlyOpen(t, list, asked, i) && GoesTo(t, g.list, |list|, asked, asked[i].question, at))
                      || ((forall i: nat :: !OnlyOpen(t, list, asked, i)) && at == |list| && IsFreeForm(g.list[at], at)))
                  && Holds(g.list[at], t.trim(raw), now) && g.matched == [at]
                  && forall p :: 0 <= p < |list| && p != at ==> g.list[p] == list[p])
  {
    hide IsTarget, FindMatch, OnlyOpen, GoesTo;
    at := |list|;
    var open := Unanswered(t, list, asked);
    OneUnanswered(t, list, asked);
    if t.trim(raw) != [] && |open| == 1 {
      at := SettlePlaces(t, asked, now, Folding(list, []), open[0].question, t.trim(raw));
    }
  }
}
