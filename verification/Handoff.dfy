/**
 fitHandoff, cutSection and truncateXml of src/claude/output.ts: what a prompt context gives up,
 and in which order, when it is too long.  The sections are already written; the regular
 expressions over the specification are parameters.
 */
module Handoff {
  import opened Base

  const DOCS_MIN := 300
  const LESSONS_MIN := 600
  const BRIEF_MIN := 200
  const DOCS_CUT := "\n(documents truncated)"
  const LESSONS_CUT := "\n(lessons truncated)"
  const BRIEF_CUT := "\n(brief truncated)"
  const SEP := "\n\n"

  // ---------- Joined sections ----------

  function JoinedLength(sections: seq<string>): nat {
    if sections == [] then 0 else |sections[0]| + (if |sections| == 1 then 0 else 2) + JoinedLength(sections[1..])
  }

  lemma {:induction false} JoinLength(sections: seq<string>)
    ensures |Join(sections, SEP)| == JoinedLength(sections)
  {
    if |sections| > 1 {
      JoinLength(sections[1..]);
    }
  }

  /** One more section costs its length and a separator. */
  lemma {:induction false} OneMoreLength(a: seq<string>, x: string, b: seq<string>)
    requires a + b != []
    ensures JoinedLength(a + [x] + b) == JoinedLength(a + b) + |x| + 2
    decreases |a|
  {
    if a == [] {
      assert a + [x] + b == [x] + b && ([x] + b)[1..] == b && a + b == b;
    } else {
      var more, less := a + [x] + b, a + b;
      assert more[0] == less[0] == a[0] && more[1..] == a[1..] + [x] + b && less[1..] == a[1..] + b;
      if less[1..] == [] {
        assert more[1..] == [x];
      } else {
        OneMoreLength(a[1..], x, b);
      }
    }
  }

  /** Where the sections of a text start. */
  ghost predicate StandsAt(text: string, sections: seq<string>, at: seq<nat>) {
    && |at| == |sections|
    && (forall i :: 0 <= i < |at| ==> OccursAt(text, sections[i], at[i]))
    && (forall i, j :: 0 <= i < j < |at| ==> at[i] + |sections[i]| <= at[j])
  }

  /** Joined sections all stand in the text, in order. */
  lemma {:induction false} JoinStands(sections: seq<string>) returns (at: seq<nat>)
    ensures StandsAt(Join(sections, SEP), sections, at)
  {
    if sections == [] {
      at := [];
    } else if |sections| == 1 {
      at := [0];
    } else {
      var rest := sections[1..];
      var after := JoinStands(rest);
      at := StandsAfter(sections[0], rest, Join(rest, SEP), after);
    }
  }

  lemma StandsAfter(first: string, rest: seq<string>, text: string, after: seq<nat>) returns (at: seq<nat>)
    requires StandsAt(text, rest, after)
    ensures StandsAt(first + SEP + text, [first] + rest, at)
  {
    var all, sections, shift := first + SEP + text, [first] + rest, |first| + 2;
    at := [0] + seq(|rest|, i requires 0 <= i < |rest| => after[i] + shift);
    assert all[..|first|] == first;
    forall i | 0 < i < |at| ensures OccursAt(all, sections[i], at[i]) {
      Shifted(first + SEP, text, rest[i - 1], after[i - 1]);
    }
    forall i, j | 0 <= i < j < |at| ensures at[i] + |sections[i]| <= at[j] {
      if i > 0 {
        assert after[i - 1] + |rest[i - 1]| <= after[j - 1];
      }
    }
  }

  lemma Shifted(head: string, text: string, part: string, i: nat)
    requires OccursAt(text, part, i)
    ensures OccursAt(head + text, part, |head| + i)
  {
    assert (head + text)[|head| + i..|head| + i + |part|] == text[i..i + |part|];
  }

  // ---------- What a handoff is made of ----------

  /**
   The fixed sections before and after the evidence (the second form of the tail has the Linked
   issues list replaced by its pointer), and the evidence itself.
   */
  datatype Input = Input(parts: seq<string>, tail: seq<string>, linked: Option<string>, pointer: string,
                         brief: Option<(string, string)>, lessons: Option<string>, docs: Option<string>,
                         skills: Option<string>)

  /** The header always leads, and trimmed evidence is never empty. */
  predicate WellFormed(h: Input) {
    && h.parts != []
    && (h.brief.Some? ==> h.brief.value.0 != [] && h.brief.value.1 != [])
    && (h.lessons.Some? ==> h.lessons.value != []) && (h.docs.Some? ==> h.docs.value != [])
    && (h.skills.Some? ==> h.skills.value != [])
  }

  function Pointed(tail: seq<string>, linked: string, pointer: string): (r: seq<string>)
    ensures |r| == |tail| && forall i :: 0 <= i < |tail| ==> r[i] == if tail[i] == linked then pointer else tail[i]
  {
    seq(|tail|, i requires 0 <= i < |tail| => if tail[i] == linked then pointer else tail[i])
  }

  function BodyOf(h: Input): seq<string> {
    if h.linked.Some? then Pointed(h.tail, h.linked.value, h.pointer) else h.tail
  }

  function List(x: Option<string>): seq<string> { if x.Some? then [x.value] else [] }

  function BriefList(x: Option<(string, string)>): seq<string> { if x.Some? then [x.value.0, x.value.1] else [] }

  /** What is left of the evidence. */
  datatype Kept = Kept(list: bool, brief: Option<(string, string)>, lessons: Option<string>, docs: Option<string>,
                       skills: Option<string>)

  function Evidence(k: Kept): seq<string> { BriefList(k.brief) + List(k.lessons) + List(k.docs) + List(k.skills) }

  function Sections(h: Input, k: Kept): seq<string> {
    h.parts + Evidence(k) + (if k.list then h.tail else BodyOf(h))
  }

  function Compose(h: Input, k: Kept): string { Join(Sections(h, k), SEP) }

  function CutSection(section: string, room: nat, marker: string): (r: string)
    requires |marker| <= room <= |section| + |marker|
    ensures |r| == room
  {
    section[..room - |marker|] + marker
  }

  // The ladder of sacrifice.

  function Everything(h: Input): Kept { Kept(true, h.brief, h.lessons, h.docs, h.skills) }

  function NoList(h: Input): Kept { Kept(false, h.brief, h.lessons, h.docs, h.skills) }

  function NoSkills(h: Input): Kept { NoList(h).(skills := None) }

  function NoDocs(h: Input): Kept { NoSkills(h).(docs := None) }

  function NoLessons(h: Input): Kept { NoDocs(h).(lessons := None) }

  function Bare(h: Input): Kept { NoLessons(h).(brief := None) }

  /** A section shortened to its beginning, with the mark of the cut. */
  predicate Shortened(whole: Option<string>, cut: Option<string>, marker: string, least: nat) {
    && whole.Some? && cut.Some? && least <= |cut.value| < |whole.value|
    && |marker| <= |cut.value| && cut.value == whole.value[..|cut.value| - |marker|] + marker
  }

  predicate Fits(h: Input, k: Kept, limit: int) { |Compose(h, k)| <= limit }

  /** Nothing before the documents is left to give up, and the text is still too long. */
  predicate DocsMustGo(h: Input, limit: int) {
    !Fits(h, Everything(h), limit) && !Fits(h, NoList(h), limit) && !Fits(h, NoSkills(h), limit)
  }

  /** A section is dropped only when less than its smallest useful slice would remain. */
  predicate NoRoomFor(h: Input, k: Kept, least: nat, limit: int) { |Compose(h, k)| + 2 + least > limit }

  predicate LessonsMustGo(h: Input, limit: int) {
    && DocsMustGo(h, limit) && !Fits(h, NoDocs(h), limit)
    && (h.docs.Some? ==> NoRoomFor(h, NoDocs(h), 300, limit))
  }

  predicate BriefMustGo(h: Input, limit: int) {
    && LessonsMustGo(h, limit) && !Fits(h, NoLessons(h), limit)
    && (h.lessons.Some? ==> NoRoomFor(h, NoLessons(h), 600, limit))
  }

  /**
   The order of sacrifice: the linked list, the skills, the documents, the lessons, the brief;
   each is touched only when everything before it is gone and the text still does not fit, and a
   shortened section fills the limit exactly.
   */
  ghost predicate InOrder(h: Input, k: Kept, limit: int) {
    || (k == Everything(h) && Fits(h, k, limit))
    || (k == NoList(h) && Fits(h, k, limit) && !Fits(h, Everything(h), limit))
    || (k == NoSkills(h) && Fits(h, k, limit) && !Fits(h, Everything(h), limit) && !Fits(h, NoList(h), limit))
    || (&& DocsMustGo(h, limit) && k == NoDocs(h).(docs := k.docs) && |Compose(h, k)| <= limit
        && if k.docs.Some? then Shortened(h.docs, k.docs, DOCS_CUT, 300) && |Compose(h, k)| == limit
           else h.docs.Some? ==> NoRoomFor(h, NoDocs(h), 300, limit))
    || (&& LessonsMustGo(h, limit) && k == NoLessons(h).(lessons := k.lessons) && |Compose(h, k)| <= limit
        && if k.lessons.Some? then Shortened(h.lessons, k.lessons, LESSONS_CUT, 600) && |Compose(h, k)| == limit
           else h.lessons.Some? ==> NoRoomFor(h, NoLessons(h), 600, limit))
    || (&& BriefMustGo(h, limit) && h.brief.Some? && k.brief.Some? && k == Bare(h).(brief := k.brief)
        && k.brief.value.0 == h.brief.value.0 && |Compose(h, k)| == limit
        && Shortened(Some(h.brief.value.1), Some(k.brief.value.1), BRIEF_CUT, 200 + 1 + |BRIEF_CUT|))
    || (&& BriefMustGo(h, limit) && k == Bare(h)
        && (h.brief.Some? ==>
              |Compose(h, Bare(h))| + |h.brief.value.0| + 200 + 1 + |BRIEF_CUT| + 4 > limit))
  }

  /** The texts of the ladder, from everything there is down to the fixed sections. */
  lemma LadderOfTexts(h: Input)
    ensures var brief, lessons, docs, skills := BriefList(h.brief), List(h.lessons), List(h.docs), List(h.skills);
            && Compose(h, Everything(h)) == Join(h.parts + brief + lessons + docs + skills + h.tail, "\n\n")
            && Compose(h, NoList(h)) == Join(h.parts + brief + lessons + docs + skills + BodyOf(h), "\n\n")
            && Compose(h, NoSkills(h)) == Join(h.parts + brief + lessons + docs + BodyOf(h), "\n\n")
            && Compose(h, NoDocs(h)) == Join(h.parts + brief + lessons + BodyOf(h), "\n\n")
            && Compose(h, NoLessons(h)) == Join(h.parts + brief + BodyOf(h), "\n\n")
            && Compose(h, Bare(h)) == Join(h.parts + BodyOf(h), "\n\n")
  {
    hide Join, BodyOf;
    var p, brief, lessons, docs, skills := h.parts, BriefList(h.brief), List(h.lessons), List(h.docs), List(h.skills);
    assert p + (brief + lessons + docs + skills) == p + brief + lessons + docs + skills;
    assert p + (brief + lessons + docs + []) == p + brief + lessons + docs;
    assert p + (brief + lessons + [] + []) == p + brief + lessons;
    assert p + (brief + [] + [] + []) == p + brief;
    assert p + ([] + [] + [] + []) == p;
  }

  /** The pointer takes the place of the linked list, wherever that is, and nothing else moves. */
  lemma PointerReplacesTheList(h: Input, i: nat)
    requires i < |h.tail|
    ensures |BodyOf(h)| == |h.tail|
    ensures BodyOf(h)[i] != h.tail[i] ==> Some(h.tail[i]) == h.linked && BodyOf(h)[i] == h.pointer
    ensures Some(h.tail[i]) == h.linked ==> BodyOf(h)[i] == h.pointer
  {
  }

  lemma ComposeLength(h: Input, k: Kept)
    requires h.parts != []
    ensures |Compose(h, k)| == JoinedLength(Sections(h, k))
  {
    JoinLength(Sections(h, k));
  }

  /** The room a section has is what is left of the limit after the rest and one separator. */
  lemma DocsLength(h: Input, k: Kept)
    requires h.parts != [] && k.docs.Some? && k.skills.None?
    ensures |Compose(h, k)| == |Compose(h, k.(docs := None))| + |k.docs.value| + 2
  {
    var less := k.(docs := None);
    var before, after := h.parts + BriefList(k.brief) + List(k.lessons), if k.list then h.tail else BodyOf(h);
    assert Sections(h, k) == before + [k.docs.value] + after;
    assert Sections(h, less) == before + after;
    OneMoreLength(before, k.docs.value, after);
    ComposeLength(h, k);
    ComposeLength(h, less);
  }

  lemma LessonsLength(h: Input, k: Kept)
    requires h.parts != [] && k.lessons.Some? && k.docs.None? && k.skills.None?
    ensures |Compose(h, k)| == |Compose(h, k.(lessons := None))| + |k.lessons.value| + 2
  {
    var less := k.(lessons := None);
    var before, after := h.parts + BriefList(k.brief), if k.list then h.tail else BodyOf(h);
    assert Sections(h, k) == before + [k.lessons.value] + after;
    assert Sections(h, less) == before + after;
    OneMoreLength(before, k.lessons.value, after);
    ComposeLength(h, k);
    ComposeLength(h, less);
  }

  lemma BriefLength(h: Input, k: Kept)
    requires h.parts != [] && k.brief.Some? && k.lessons.None? && k.docs.None? && k.skills.None?
    ensures |Compose(h, k)| == |Compose(h, k.(brief := None))| + |k.brief.value.0| + |k.brief.value.1| + 4
  {
    var less := k.(brief := None);
    var (title, text) := k.brief.value;
    var after := if k.list then h.tail else BodyOf(h);
    assert Sections(h, k) == (h.parts + [title]) + [text] + after;
    assert Sections(h, less) == h.parts + after;
    OneMoreLength(h.parts + [title], text, after);
    OneMoreLength(h.parts, title, after);
    ComposeLength(h, k);
    ComposeLength(h, less);
  }

  /** fitHandoff */
  method FitHandoff(h: Input, limit: int) returns (text: string, kept: Kept)
    requires WellFormed(h)
    ensures text == Compose(h, kept) && InOrder(h, kept, limit)
    ensures |text| <= limit || kept == Bare(h)
    ensures Fits(h, Everything(h), limit) ==> kept == Everything(h)
  {
    hide Compose, BodyOf, List, BriefList, Sections, Evidence, Join;
    kept := Everything(h);
    text := Compose(h, Everything(h));
    if |text| <= limit {
      return;
    }
    kept, text := NoList(h), Compose(h, NoList(h));
    if |text| <= limit {
      return;
    }
    kept, text := NoSkills(h), Compose(h, NoSkills(h));
    if |text| <= limit {
      return;
    }
    var noDocs := Compose(h, NoDocs(h));
    if h.docs.Some? {
      DocsLength(h, NoSkills(h));
      var room := limit - |noDocs| - 2;
      if room >= DOCS_MIN {
        var docs := CutSection(h.docs.value, room, DOCS_CUT);
        kept := NoDocs(h).(docs := Some(docs));
        text := Compose(h, NoDocs(h).(docs := Some(docs)));
        DocsLength(h, kept);
        return;
      }
    }
    kept, text := NoDocs(h), noDocs;
    if |text| <= limit {
      return;
    }
    var noLessons := Compose(h, NoLessons(h));
    if h.lessons.Some? {
      LessonsLength(h, NoDocs(h));
      var room := limit - |noLessons| - 2;
      if room >= LESSONS_MIN {
        var lessons := CutSection(h.lessons.value, room, LESSONS_CUT);
        kept := NoLessons(h).(lessons := Some(lessons));
        text := Compose(h, NoLessons(h).(lessons := Some(lessons)));
        LessonsLength(h, kept);
        return;
      }
    }
    kept, text := NoLessons(h), noLessons;
    if |text| <= limit {
      return;
    }
    var bare := Compose(h, Bare(h));
    if h.brief.Some? {
      BriefLength(h, NoLessons(h));
      var (title, brief) := h.brief.value;
      var room := limit - |bare| - |title| - |BRIEF_CUT| - 4;
      if room > BRIEF_MIN {
        var cut := CutSection(brief, room + |BRIEF_CUT|, BRIEF_CUT);
        kept := Bare(h).(brief := Some((title, cut)));
        text := Compose(h, Bare(h).(brief := Some((title, cut))));
        BriefLength(h, kept);
        return;
      }
    }
    kept, text := Bare(h), bare;
  }

  lemma SkipMiddle(text: string, a: seq<string>, middle: seq<string>, b: seq<string>, all: seq<nat>)
    returns (at: seq<nat>)
    requires StandsAt(text, a + middle + b, all)
    ensures StandsAt(text, a + b, at)
  {
    hide OccursAt;
    var n, shift := |a|, |middle|;
    at := all[..n] + all[n + shift..];
    forall i | 0 <= i < |at| ensures OccursAt(text, (a + b)[i], at[i]) {
      var j := if i < n then i else i + shift;
      assert at[i] == all[j] && (a + b)[i] == (a + middle + b)[j];
    }
    forall i, j | 0 <= i < j < |at| ensures at[i] + |(a + b)[i]| <= at[j] {
      var i', j' := if i < n then i else i + shift, if j < n then j else j + shift;
      assert at[i] == all[i'] && at[j] == all[j'] && (a + b)[i] == (a + middle + b)[i'];
    }
  }

  /** Whatever is shed, every fixed section stands in the handoff, in its order. */
  lemma FixedSectionsStand(h: Input, k: Kept) returns (at: seq<nat>)
    ensures StandsAt(Compose(h, k), h.parts + (if k.list then h.tail else BodyOf(h)), at)
  {
    hide Join, StandsAt, Evidence, BodyOf;
    var all := JoinStands(Sections(h, k));
    at := SkipMiddle(Compose(h, k), h.parts, Evidence(k), if k.list then h.tail else BodyOf(h), all);
  }

  // ---------- truncateXml ----------

  /**
   The regular expressions of the specification: the elision of RATIONALE bodies, the ISSUES
   block, and the closing tag of the root.
   */
  datatype Patterns = Patterns(elide: string -> string, issues: string -> Option<string>, rootClose: string -> string)

  /** The ISSUES block, when there is one, holds more than white space: its own tags. */
  predicate Plausible(t: Patterns, text: string) {
    t.issues(text).Some? ==> Trim(t.issues(text).value) != []
  }

  function Without(text: string, part: string): (r: string)
    ensures |r| <= |text|
  {
    match IndexOf(text, part, 0)
    case None => text
    case Some(i) => text[..i] + text[i + |part|..]
  }

  /** Taking a part out leaves what is before and after its first place. */
  lemma WithoutTakesTheFirst(text: string, part: string, at: nat)
    requires OccursAt(text, part, at) && forall j :: 0 <= j < at ==> !OccursAt(text, part, j)
    ensures Without(text, part) == text[..at] + text[at + |part|..]
  {
  }

  /** The last line break at or before a position. */
  function LastBreak(text: string, from: nat): (r: int)
    ensures -1 <= r <= from && r < |text|
    ensures r >= 0 ==> text[r] == '\n'
    ensures forall i :: r < i <= from && i < |text| ==> text[i] != '\n'
    decreases from
  {
    if from < |text| && text[from] == '\n' then from else if from == 0 then -1 else LastBreak(text, from - 1)
  }

  function NonEmpty(sections: seq<string>): (r: seq<string>)
    ensures forall x :: x in r <==> x in sections && x != []
    ensures |r| <= |sections|
  {
    if sections == [] then []
    else (if sections[0] == [] then [] else [sections[0]]) + NonEmpty(sections[1..])
  }

  /** The beginning of a text up to its last line break within the limit, or up to the limit. */
  predicate EndsALine(rest: string, limit: nat, head: string) {
    && head <= rest && |head| <= limit
    && (forall i :: |head| < i <= limit && i < |rest| ==> rest[i] != '\n')
    && ((0 < |head| < |rest| && rest[|head|] == '\n')
        || (|head| == Least(|rest|, limit) && forall i :: 0 < i <= limit && i < |rest| ==> rest[i] != '\n'))
  }

  function Head(rest: string, limit: nat): (head: string)
    ensures head <= rest && |head| <= limit
    ensures limit < |rest| ==> |head| == limit || rest[|head|] == '\n'
    ensures EndsALine(rest, limit, head)
  {
    var cut := LastBreak(rest, limit);
    rest[..Least(|rest|, if cut > 0 then cut else limit)]
  }

  /** What the cut must keep: the marker, and the ISSUES block with the closing tag of the root. */
  function KeepLength(t: Patterns, elided: string, marker: string): nat {
    match t.issues(elided)
    case None => |marker| + 1
    case Some(issues) => |issues| + |t.rootClose(Without(elided, issues))| + |marker| + 3
  }

  function TruncateXml(t: Patterns, xml: string, max: int, marker: string): string {
    if |xml| <= max then xml
    else
      var elided := t.elide(xml);
      if |elided| <= max then elided
      else
        var room := max - KeepLength(t, elided, marker);
        var limit := if room > 0 then room else 0;
        match t.issues(elided)
        case None => Head(elided, limit) + "\n" + marker
        case Some(issues) =>
          var rest := Without(elided, issues);
          Join(NonEmpty([Head(rest, limit), marker, Trim(issues), t.rootClose(rest)]), "\n")
  }

  lemma {:induction false} LinesLength(lines: seq<string>)
    ensures |Join(NonEmpty(lines), "\n")| <= Total(lines) + (if lines == [] then 0 else |lines| - 1)
  {
    if lines != [] {
      LinesLength(lines[1..]);
      var rest := NonEmpty(lines[1..]);
      assert NonEmpty(lines) == if lines[0] == [] then rest else [lines[0]] + rest;
      assert ([lines[0]] + rest)[1..] == rest;
    }
  }

  function Total(lines: seq<string>): nat {
    if lines == [] then 0 else |lines[0]| + Total(lines[1..])
  }

  lemma FourLines(a: string, b: string, c: string, d: string)
    ensures Total([a, b, c, d]) == |a| + |b| + |c| + |d|
  {
    assert [a, b, c, d][1..] == [b, c, d] && [b, c, d][1..] == [c, d] && [c, d][1..] == [d] && [d][1..] == [];
    assert Total([d]) == |d|;
    assert Total([c, d]) == |c| + |d|;
    assert Total([b, c, d]) == |b| + |c| + |d|;
  }

  /** The result is over the bound only when the bound does not cover the parts that must stay. */
  lemma TruncatedFits(t: Patterns, xml: string, max: int, marker: string)
    ensures var r, keep := TruncateXml(t, xml, max, marker), KeepLength(t, t.elide(xml), marker);
            |r| <= max || |r| <= keep
    ensures max >= KeepLength(t, t.elide(xml), marker) ==> |TruncateXml(t, xml, max, marker)| <= max
  {
    var elided := t.elide(xml);
    if |xml| > max && |elided| > max && t.issues(elided).Some? {
      var issues := t.issues(elided).value;
      var rest := Without(elided, issues);
      var room := max - KeepLength(t, elided, marker);
      var lines := [Head(rest, if room > 0 then room else 0), marker, Trim(issues), t.rootClose(rest)];
      LinesLength(lines);
      FourLines(lines[0], marker, Trim(issues), t.rootClose(rest));
    }
  }

  /** The length of what a cut keeps when nothing of the specification itself is left. */
  function LeastLength(t: Patterns, elided: string, marker: string): nat {
    match t.issues(elided)
    case None => |marker| + 1
    case Some(issues) =>
      var root := t.rootClose(Without(elided, issues));
      |marker| + 1 + |Trim(issues)| + if root == [] then 0 else 1 + |root|
  }

  lemma BareLines(a: string, b: string, c: string)
    requires a != [] && b != []
    ensures |Join(NonEmpty([[], a, b, c]), "\n")| == |a| + 1 + |b| + if c == [] then 0 else 1 + |c|
  {
    assert [[], a, b, c][1..] == [a, b, c] && [a, b, c][1..] == [b, c] && [b, c][1..] == [c] && [c][1..] == [];
    var tail := if c == [] then [] else [c];
    assert NonEmpty([c]) == tail;
    assert NonEmpty([b, c]) == [b] + tail;
    assert NonEmpty([a, b, c]) == [a] + ([b] + tail);
    assert NonEmpty([[], a, b, c]) == [a] + ([b] + tail);
    var last := [b] + tail;
    assert last[1..] == tail && ([a] + last)[1..] == last;
    assert Join(last, "\n") == if c == [] then b else b + "\n" + c;
    assert Join([a] + last, "\n") == a + "\n" + Join(last, "\n");
  }

  /**
   The bound is kept exactly when the specification fits, fits without its RATIONALE bodies, or
   leaves room for the parts that are never cut.
   */
  lemma TruncateKeepsTheBoundIff(t: Patterns, xml: string, max: int, marker: string)
    requires Plausible(t, t.elide(xml)) && marker != []
    ensures |TruncateXml(t, xml, max, marker)| <= max <==>
            |xml| <= max || |t.elide(xml)| <= max || LeastLength(t, t.elide(xml), marker) <= max
  {
    var elided := t.elide(xml);
    if |xml| > max && |elided| > max {
      var room := max - KeepLength(t, elided, marker);
      TruncatedFits(t, xml, max, marker);
      if room <= 0 && t.issues(elided).Some? {
        var issues := t.issues(elided).value;
        var rest := Without(elided, issues);
        assert [Head(rest, 0), marker, Trim(issues), t.rootClose(rest)] == [[], marker, Trim(issues), t.rootClose(rest)];
        BareLines(marker, Trim(issues), t.rootClose(rest));
      }
    }
  }

  /** A bound that does not even cover the marker is exceeded. */
  lemma SmallBoundIsExceeded(xml: string, max: nat)
    requires |xml| > max && max <= 36
    ensures var t := Patterns(x => x, _ => None, _ => "");
            |TruncateXml(t, xml, max, "<!-- truncated by Prompt Uplift. -->")| > max
  {
    var t := Patterns(x => x, _ => None, _ => "");
    TruncateKeepsTheBoundIff(t, xml, max, "<!-- truncated by Prompt Uplift. -->");
  }

  lemma {:induction false} LineStands(lines: seq<string>, x: string) returns (at: nat)
    requires x in lines
    ensures OccursAt(Join(lines, "\n"), x, at)
  {
    if lines[0] == x {
      at := 0;
      assert Join(lines, "\n")[..|x|] == x;
    } else {
      var rest := lines[1..];
      var after := LineStands(rest, x);
      at := |lines[0]| + 1 + after;
      Shifted(lines[0] + "\n", Join(rest, "\n"), x, after);
    }
  }

  /**
   What a cut specification consists of: as much of it as there is room for, to the end of a line, and
   then the marker, with the ISSUES block and the closing tag of the root if it has one.
   */
  lemma CutUsesTheRoom(t: Patterns, xml: string, max: int, marker: string) returns (head: string)
    requires |xml| > max && |t.elide(xml)| > max
    ensures var elided, r := t.elide(xml), TruncateXml(t, xml, max, marker);
            match t.issues(elided)
            case None =>
              && r == head + "\n" + marker
              && EndsALine(elided, if max > |marker| + 1 then max - |marker| - 1 else 0, head)
            case Some(issues) =>
              var rest := Without(elided, issues);
              var room := max - |issues| - |t.rootClose(rest)| - |marker| - 3;
              && r == Join(NonEmpty([head, marker, Trim(issues), t.rootClose(rest)]), "\n")
              && EndsALine(rest, if room > 0 then room else 0, head)
  {
    hide EndsALine, Join, NonEmpty, Without, LastBreak;
    var elided := t.elide(xml);
    var room := max - KeepLength(t, elided, marker);
    head := Head(if t.issues(elided).Some? then Without(elided, t.issues(elided).value) else elided, if room > 0 then room else 0);
  }

  /** A cut specification still holds the whole ISSUES block and says that it was cut. */
  lemma IssuesSurviveTheCut(t: Patterns, xml: string, max: int, marker: string)
    requires Plausible(t, t.elide(xml)) && marker != []
    requires |xml| > max && |t.elide(xml)| > max && t.issues(t.elide(xml)).Some?
    ensures var r := TruncateXml(t, xml, max, marker);
            && (exists at: nat :: OccursAt(r, Trim(t.issues(t.elide(xml)).value), at))
            && (exists at: nat :: OccursAt(r, marker, at))
  {
    var elided := t.elide(xml);
    var issues := t.issues(elided).value;
    var rest := Without(elided, issues);
    var room := max - KeepLength(t, elided, marker);
    var lines := [Head(rest, if room > 0 then room else 0), marker, Trim(issues), t.rootClose(rest)];
    assert lines[2] in lines && lines[1] in lines;
    hide Join, LastBreak, Head, NonEmpty, Without;
    var i := LineStands(NonEmpty(lines), Trim(issues));
    var j := LineStands(NonEmpty(lines), marker);
    assert TruncateXml(t, xml, max, marker) == Join(NonEmpty(lines), "\n");
  }
}
