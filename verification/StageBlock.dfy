/**
 buildBlock of src/cursor/pstack.ts: the capped block that names the skills to run alongside a
 workflow step.  Which skills resolve in the plugin cache, and to which path, comes from outside,
 and so does the table of purposes.
 */
module StageBlock {
  import opened Base

  datatype StageKey = Discuss | Plan | Execute | Review

  datatype Stage = One(key: StageKey) | Orchestrate

  const ALL_STAGES := [Discuss, Plan, Execute, Review]

  /** What skillPath answers: a path, or why there is none. */
  datatype Lookup = Found(path: string) | Unusable(reason: string)

  datatype Entry = Entry(stage: StageKey, name: string, path: string)

  /** The table of purposes, and the lookup of a skill in the resolved cache. */
  datatype Context = Context(mapping: map<StageKey, seq<string>>, resolve: string -> Lookup, purpose: string -> string)

  datatype Result = Block(block: string, skills: nat) | NoSkill(dropped: seq<string>) | CapTooSmall(needed: nat)

  function StageName(s: StageKey): string {
    match s
    case Discuss => "discuss"
    case Plan => "plan"
    case Execute => "execute"
    case Review => "review"
  }

  function Moment(s: StageKey): string {
    match s
    case Discuss => "while gathering context, before proposing the design"
    case Plan => "while designing the phase, before the plan is finalized"
    case Execute => "while writing the change, test first"
    case Review => "while verifying and reviewing the completed change"
  }

  // ---------- Lines ----------

  function Header(stage: Stage): string {
    "pstack alongside GSD (" + (if stage == Orchestrate then "orchestrate: apply each at its moment" else StageName(stage.key)) + ")"
  }

  const INTRO :=
    "Run these pstack skills alongside the GSD step, by reading each SKILL.md, then continue the GSD workflow unchanged:"

  function SkillLine(c: Context, e: Entry): string {
    "- [" + StageName(e.stage) + "] " + e.name + " \U{2014} read " + e.path + " \U{2014} " + c.purpose(e.name)
    + " (" + Moment(e.stage) + ")"
  }

  function DropLine(s: StageKey, name: string, reason: string): string { StageName(s) + "/" + name + ": " + reason }

  function SkillLines(c: Context, list: seq<Entry>): (lines: seq<string>)
    ensures |lines| == |list| && forall i :: 0 <= i < |list| ==> lines[i] == SkillLine(c, list[i])
  {
    seq(|list|, i requires 0 <= i < |list| => SkillLine(c, list[i]))
  }

  /** How the missing skills are mentioned: in full, as a count, or not at all. */
  datatype Detail = Full | Short | Hidden

  function Note(dropped: seq<string>, d: Detail): seq<string> {
    match d
    case Full => ["- skipped: " + Join(dropped, "; ")]
    case Short => ["- skipped: " + Digits(|dropped|) + " missing skill(s)"]
    case Hidden => []
  }

  function Truncation(omitted: nat): seq<string> {
    if omitted == 0 then [] else ["- (truncated by cap; " + Digits(omitted) + " more skill(s) omitted)"]
  }

  function Render(c: Context, stage: Stage, list: seq<Entry>, note: seq<string>, truncation: seq<string>): string {
    Join([Header(stage), INTRO] + SkillLines(c, list) + note + truncation, "\n")
  }

  // ---------- Which skills ----------

  function StagesOf(stage: Stage): seq<StageKey> {
    if stage == Orchestrate then ALL_STAGES else [stage.key]
  }

  function NamesAt(c: Context, s: StageKey): seq<string> {
    if s in c.mapping then c.mapping[s] else []
  }

  datatype Split = Split(entries: seq<Entry>, dropped: seq<string>)

  function Place(c: Context, a: Split, s: StageKey, name: string): Split {
    match c.resolve(name)
    case Found(path) => a.(entries := a.entries + [Entry(s, name, path)])
    case Unusable(reason) => a.(dropped := a.dropped + [DropLine(s, name, reason)])
  }

  function PlaceNames(c: Context, a: Split, s: StageKey, names: seq<string>): Split {
    if names == [] then a else Place(c, PlaceNames(c, a, s, names[..|names| - 1]), s, names[|names| - 1])
  }

  function PlaceStages(c: Context, stages: seq<StageKey>): Split {
    if stages == [] then Split([], [])
    else
      var s := stages[|stages| - 1];
      PlaceNames(c, PlaceStages(c, stages[..|stages| - 1]), s, NamesAt(c, s))
  }

  function Candidates(c: Context, stage: Stage): Split { PlaceStages(c, StagesOf(stage)) }

  /** Every mapped skill is placed once, resolvable ones as entries and the others in the note. */
  lemma {:induction false} NamesArePlaced(c: Context, a: Split, s: StageKey, names: seq<string>, i: nat)
    requires i < |names|
    ensures match c.resolve(names[i])
            case Found(path) => Entry(s, names[i], path) in PlaceNames(c, a, s, names).entries
            case Unusable(reason) => DropLine(s, names[i], reason) in PlaceNames(c, a, s, names).dropped
    ensures var p := PlaceNames(c, a, s, names);
            && |p.entries| + |p.dropped| == |a.entries| + |a.dropped| + |names|
            && a.entries <= p.entries && a.dropped <= p.dropped
    decreases |names|
  {
    var before := names[..|names| - 1];
    if before != [] {
      NamesArePlaced(c, a, s, before, if i < |before| then i else 0);
    }
    var p, q := PlaceNames(c, a, s, before), PlaceNames(c, a, s, names);
    assert p.entries <= q.entries && p.dropped <= q.dropped;
  }

  // ---------- Building ----------

  /** The text with every skill, at one detail of the note. */
  function WithAll(c: Context, stage: Stage, a: Split, d: Detail): string { Render(c, stage, a.entries, Note(a.dropped, d), []) }

  /** The text with the first k skills only; the note is gone and the omission is counted. */
  function Cut(c: Context, stage: Stage, a: Split, k: nat): string
    requires k <= |a.entries|
  {
    Render(c, stage, a.entries[..k], [], Truncation(|a.entries| - k))
  }

  function First(a: Split): Detail { if a.dropped == [] then Hidden else Full }

  function Rank(d: Detail): nat {
    match d
    case Full => 0
    case Short => 1
    case Hidden => 2
  }

  /**
   What the block promises, for any cap: it fits; it names the longest prefix of the resolvable
   skills that fits; no skill is given up while the note is shown in any form, and the note is
   shown in the fullest form that fits; and without a block not even one skill fits.
   */
  ghost predicate Fitted(c: Context, stage: Stage, a: Split, cap: int, r: Result) {
    var n := |a.entries|;
    match r
    case NoSkill(dropped) => n == 0 && dropped == a.dropped
    case CapTooSmall(needed) =>
      && n > 0 && needed == |Cut(c, stage, a, 1)| > cap
      && (forall k :: 1 <= k <= n ==> |Cut(c, stage, a, k)| > cap)
      && (forall d :: Rank(First(a)) <= Rank(d) ==> |WithAll(c, stage, a, d)| > cap)
    case Block(block, skills) =>
      && |block| <= cap && 1 <= skills <= n
      && (forall k :: skills < k <= n ==> |Cut(c, stage, a, k)| > cap)
      && if skills < n then
           && block == Cut(c, stage, a, skills)
           && (forall d :: Rank(First(a)) <= Rank(d) ==> |WithAll(c, stage, a, d)| > cap)
         else
           exists d ::
             && Rank(First(a)) <= Rank(d) && block == WithAll(c, stage, a, d)
             && forall e :: Rank(First(a)) <= Rank(e) < Rank(d) ==> |WithAll(c, stage, a, e)| > cap
  }

  /** The loops that look every mapped skill up. */
  method Gather(c: Context, stage: Stage) returns (a: Split)
    ensures a == Candidates(c, stage)
  {
    a := Split([], []);
    var stages := StagesOf(stage);
    var i := 0;
    while i < |stages|
      invariant 0 <= i <= |stages| && a == PlaceStages(c, stages[..i])
    {
      var names := NamesAt(c, stages[i]);
      ghost var before := a;
      var j := 0;
      while j < |names|
        invariant 0 <= j <= |names| && a == PlaceNames(c, before, stages[i], names[..j])
      {
        assert names[..j + 1][..j] == names[..j];
        a := Place(c, a, stages[i], names[j]);
        j := j + 1;
      }
      assert names[..|names|] == names && stages[..i + 1][..i] == stages[..i];
      i := i + 1;
    }
    assert stages[..|stages|] == stages;
  }

  /** What is known of the forms already found too long. */
  ghost predicate TooLong(c: Context, stage: Stage, a: Split, cap: int, kept: nat, d: Detail) {
    && 1 <= kept <= |a.entries| && Rank(First(a)) <= Rank(d)
    && (kept < |a.entries| ==> d == Hidden && |WithAll(c, stage, a, Hidden)| > cap)
    && (forall e :: Rank(First(a)) <= Rank(e) < Rank(d) ==> |WithAll(c, stage, a, e)| > cap)
    && (forall k :: kept < k <= |a.entries| ==> |Cut(c, stage, a, k)| > cap)
  }

  /** The block at one point of the loop. */
  function Now(c: Context, stage: Stage, a: Split, kept: nat, d: Detail): string
    requires kept <= |a.entries|
  {
    Render(c, stage, a.entries[..kept], Note(a.dropped, d), Truncation(|a.entries| - kept))
  }

  lemma NowIs(c: Context, stage: Stage, a: Split, kept: nat, d: Detail)
    requires kept <= |a.entries|
    ensures d == Hidden ==> Now(c, stage, a, kept, d) == Cut(c, stage, a, kept)
    ensures kept == |a.entries| ==> Now(c, stage, a, kept, d) == WithAll(c, stage, a, d)
  {
    assert a.entries[..|a.entries|] == a.entries;
  }

  function Shorter(d: Detail): Detail { if d == Full then Short else Hidden }

  /** The note is shortened while any form of it is left. */
  lemma ShorterNote(c: Context, stage: Stage, a: Split, cap: int, kept: nat, d: Detail)
    requires TooLong(c, stage, a, cap, kept, d) && |Now(c, stage, a, kept, d)| > cap && d != Hidden
    ensures TooLong(c, stage, a, cap, kept, Shorter(d))
  {
    NowIs(c, stage, a, kept, d);
  }

  /** With no note left, the last skill goes, or there is no block at all. */
  lemma FewerSkills(c: Context, stage: Stage, a: Split, cap: int, kept: nat)
    requires TooLong(c, stage, a, cap, kept, Hidden) && |Now(c, stage, a, kept, Hidden)| > cap
    ensures kept > 1 ==> TooLong(c, stage, a, cap, kept - 1, Hidden)
    ensures kept == 1 ==> Fitted(c, stage, a, cap, CapTooSmall(|Now(c, stage, a, kept, Hidden)|))
  {
    hide Now, WithAll, Cut;
    NowIs(c, stage, a, kept, Hidden);
  }

  lemma LastTurn(c: Context, stage: Stage, a: Split, cap: int, kept: nat, d: Detail)
    requires TooLong(c, stage, a, cap, kept, d) && |Now(c, stage, a, kept, d)| <= cap
    ensures Fitted(c, stage, a, cap, Block(Now(c, stage, a, kept, d), kept))
  {
    NowIs(c, stage, a, kept, d);
  }

  /** The lines of a block: what it is about, one line for each skill in order, then the note and the omission. */
  lemma LinesOfABlock(c: Context, stage: Stage, list: seq<Entry>, note: seq<string>, truncation: seq<string>)
    returns (lines: seq<string>)
    ensures Render(c, stage, list, note, truncation) == Join(lines, "\n")
    ensures |lines| == 2 + |list| + |note| + |truncation| && lines[0] == Header(stage) && lines[1] == INTRO
    ensures forall i :: 0 <= i < |list| ==> lines[2 + i] == SkillLine(c, list[i])
    ensures lines[2 + |list|..] == note + truncation
  {
    hide Header, SkillLine, Join;
    var front, skills := [Header(stage), INTRO], SkillLines(c, list);
    lines := front + skills + note + truncation;
    InOrder(front, skills, note, truncation);
  }

  /** What stands in the beginning of a line stands in the line. */
  lemma Placed(before: string, part: string, after: string, line: string)
    requires before + part + after <= line
    ensures OccursAt(line, part, |before|)
  {
    assert (before + part + after)[|before|..|before| + |part|] == part;
    assert line[..|before + part + after|] == before + part + after;
  }

  /** What a skill's line names, and where: its stage, its name, its path, its purpose and its moment. */
  lemma LineNamesTheSkill(c: Context, e: Entry)
    ensures var line, n := SkillLine(c, e), 5 + |StageName(e.stage)| + |e.name|;
            && "- [" <= line && OccursAt(line, StageName(e.stage), 3)
            && OccursAt(line, e.name, n - |e.name|) && OccursAt(line, e.path, n + 8)
            && OccursAt(line, c.purpose(e.name), n + 11 + |e.path|)
            && OccursAt(line, Moment(e.stage), n + 13 + |e.path| + |c.purpose(e.name)|)
            && |line| == n + 14 + |e.path| + |c.purpose(e.name)| + |Moment(e.stage)|
  {
    hide OccursAt, StageName, Moment;
    var line, stage, purpose, moment := SkillLine(c, e), StageName(e.stage), c.purpose(e.name), Moment(e.stage);
    var staged := "- [" + stage + "] ";
    var named := staged + e.name + " \U{2014} read ";
    var found := named + e.path + " \U{2014} ";
    var meant := found + purpose + " (";
    assert line == meant + moment + ")";
    Placed("- [", stage, "] ", line);
    Placed(staged, e.name, " \U{2014} read ", line);
    Placed(named, e.path, " \U{2014} ", line);
    Placed(found, purpose, " (", line);
    Placed(meant, moment, ")", line);
  }

  /** What is said of a missing skill: its stage, its name and the reason, in this order. */
  lemma LineNamesTheMissing(s: StageKey, name: string, reason: string)
    ensures var line, n := DropLine(s, name, reason), |StageName(s)| + 1 + |name|;
            && OccursAt(line, StageName(s), 0) && OccursAt(line, name, n - |name|)
            && |line| == n + 2 + |reason| && line[n + 2..] == reason
  {
    hide OccursAt, StageName;
    var line := DropLine(s, name, reason);
    Placed("", StageName(s), "/", line) by {
      assert "" + StageName(s) + "/" == StageName(s) + "/";
    }
    Placed(StageName(s) + "/", name, ": ", line);
  }

  /** The short note and the omission say how many skills they stand for. */
  lemma CountsAreShown(dropped: seq<string>, omitted: nat)
    ensures |Note(dropped, Short)| == 1 && OccursAt(Note(dropped, Short)[0], Digits(|dropped|), |"- skipped: "|)
    ensures |Truncation(omitted)| == if omitted == 0 then 0 else 1
    ensures omitted > 0 ==> OccursAt(Truncation(omitted)[0], Digits(omitted), |"- (truncated by cap; "|)
  {
    hide OccursAt, Digits;
    Placed("- skipped: ", Digits(|dropped|), " missing skill(s)", Note(dropped, Short)[0]);
    if omitted > 0 {
      Placed("- (truncated by cap; ", Digits(omitted), " more skill(s) omitted)", Truncation(omitted)[0]);
    }
  }

  lemma InOrder(a: seq<string>, b: seq<string>, c: seq<string>, d: seq<string>)
    ensures var all := a + b + c + d;
            && |all| == |a| + |b| + |c| + |d| && (forall i :: 0 <= i < |a| ==> all[i] == a[i])
            && (forall i :: 0 <= i < |b| ==> all[|a| + i] == b[i]) && all[|a| + |b|..] == c + d
  {
  }

  lemma AllShown(c: Context, stage: Stage, a: Split, d: Detail)
    ensures WithAll(c, stage, a, d) == Render(c, stage, a.entries, Note(a.dropped, d), [])
  {
  }

  /** The note of missing skills is first tried in full, and there is none to try without missing skills. */
  lemma NoteStartsInFull(c: Context, stage: Stage, cap: int)
    requires var a := Candidates(c, stage);
             a.entries != [] && |Render(c, stage, a.entries, Note(a.dropped, if a.dropped == [] then Hidden else Full), [])| <= cap
    ensures var a := Candidates(c, stage);
            forall r :: Fitted(c, stage, a, cap, r) ==>
              r == Block(Render(c, stage, a.entries, Note(a.dropped, if a.dropped == [] then Hidden else Full), []), |a.entries|)
  {
    hide Render, Note, Candidates;
    var a := Candidates(c, stage);
    hide WithAll, Cut;
    var first := First(a);
    assert WithAll(c, stage, a, first) == Render(c, stage, a.entries, Note(a.dropped, first), []) by { AllShown(c, stage, a, first); }
    assert forall d :: Rank(first) <= Rank(d) && !(Rank(first) < Rank(d)) ==> d == first;
  }

  /** buildBlock */
  method BuildBlock(c: Context, stage: Stage, cap: int) returns (r: Result)
    ensures Fitted(c, stage, Candidates(c, stage), cap, r)
  {
    var a := Gather(c, stage);
    if a.entries == [] {
      return NoSkill(a.dropped);
    }
    var n := |a.entries|;
    var list, detail := a.entries, First(a);
    assert a.entries[..n] == a.entries;
    var block := Now(c, stage, a, |list|, detail);
    while |block| > cap
      invariant 1 <= |list| <= n && list == a.entries[..|list|]
      invariant block == Now(c, stage, a, |list|, detail)
      invariant TooLong(c, stage, a, cap, |list|, detail)
      decreases |list|, 2 - Rank(detail)
    {
      if detail != Hidden {
        ShorterNote(c, stage, a, cap, |list|, detail);
        detail := Shorter(detail);
      } else if |list| > 1 {
        FewerSkills(c, stage, a, cap, |list|);
        list := list[..|list| - 1];
      } else {
        FewerSkills(c, stage, a, cap, |list|);
        return CapTooSmall(|block|);
      }
      block := Now(c, stage, a, |list|, detail);
    }
    LastTurn(c, stage, a, cap, |list|, detail);
    r := Block(block, |list|);
  }

  /** A larger cap never yields fewer skills. */
  lemma MoreRoomMoreSkills(c: Context, stage: Stage, cap: int, more: int, r: Result, s: Result)
    requires cap <= more
    requires Fitted(c, stage, Candidates(c, stage), cap, r) && Fitted(c, stage, Candidates(c, stage), more, s)
    requires r.Block?
    ensures s.Block? && r.skills <= s.skills
  {
    var a := Candidates(c, stage);
    var n := |a.entries|;
    assert a.entries[..n] == a.entries;
    if r.skills == n {
      var d :| Rank(First(a)) <= Rank(d) && r.block == WithAll(c, stage, a, d);
      assert |WithAll(c, stage, a, d)| <= more;
    } else {
      assert |Cut(c, stage, a, r.skills)| <= more;
    }
  }
}
