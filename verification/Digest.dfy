/**
 The knowledge digest: written by buildDigest of src/greptile/knowledge.ts, and read back one
 document at a time by extractDigestDocument of src/decisions/questions.ts.  The documents are
 already read and their paths accepted; the header is the text that names the repository and
 calls the summaries untrusted evidence.
 */
module Digest {
  import opened Base

  const INDEX := "index.md"
  const INDEX_MAX_CHARS := 8000
  const MAX_PATH := 200
  const TRUNCATED := "\n\U{2026}(truncated)"

  // ---------- One line ----------

  /** Every run of white space as one space. */
  function Collapse(s: string): string {
    if s == [] then []
    else if !IsSpace(s[0]) then [s[0]] + Collapse(s[1..])
    else if |s| > 1 && IsSpace(s[1]) then Collapse(s[1..])
    else " " + Collapse(s[1..])
  }

  function OneLine(text: string, max: nat): string
    requires max > 0
  {
    var line := Trim(Collapse(text));
    if |line| > max then line[..max - 1] + "\U{2026}" else line
  }

  /** The paths a lookup accepts: word characters, dots, slashes and dashes, ending in ".md". */
  predicate IsDocPath(path: string) {
    && 3 < |path| <= MAX_PATH && path[|path| - 3..] == ".md"
    && forall i :: 0 <= i < |path| ==>
         IsDigit(path[i]) || 'a' <= path[i] <= 'z' || 'A' <= path[i] <= 'Z' || path[i] in ['_', '.', '/', '-']
  }

  lemma {:induction false} NothingToCollapse(s: string)
    requires forall i :: 0 <= i < |s| ==> !IsSpace(s[i])
    ensures Collapse(s) == s && Trim(s) == s
  {
    if s != [] {
      NothingToCollapse(s[1..]);
    }
  }

  lemma {:induction false} OneSpace(s: string)
    requires s != [] && forall i :: 0 <= i < |s| ==> IsSpace(s[i])
    ensures Collapse(s) == " "
  {
    if |s| > 1 {
      OneSpace(s[1..]);
    }
  }

  /** Collapsing goes run by run: with the two lemmas above, each run of white space becomes one space and nothing else changes. */
  lemma {:induction false} CollapseByRuns(a: string, b: string)
    requires a == [] || b == [] || !IsSpace(a[|a| - 1]) || !IsSpace(b[0])
    ensures Collapse(a + b) == Collapse(a) + Collapse(b)
  {
    if a == [] {
      assert a + b == b;
    } else {
      assert (a + b)[1..] == a[1..] + b;
      CollapseByRuns(a[1..], b);
    }
  }

  lemma DocPathIsOneLine(path: string)
    requires IsDocPath(path)
    ensures OneLine(path, MAX_PATH) == path
  {
    NothingToCollapse(path);
  }

  // ---------- The closing tag ----------

  const TAG := "</knowledge_base"
  const SAFE := "</knowledge-base"

  predicate TagHere(s: string) {
    |s| >= |TAG| && forall k :: 0 <= k < |TAG| ==> LowerAscii(s[k]) == TAG[k]
  }

  /** The replacement, case-insensitive and everywhere. */
  function Swap(s: string): (r: string)
    ensures |r| == |s|
  {
    if s == [] then [] else if TagHere(s) then SAFE + Swap(s[|TAG|..]) else [s[0]] + Swap(s[1..])
  }

  lemma TagShows(s: string)
    ensures TagHere(s) ==> Swap(s) != [] && Swap(s)[0] == '<'
  {
    assert SAFE[0] == '<';
  }

  lemma {:induction false} CopiedBefore(s: string, n: nat)
    requires n <= |s| && forall i :: 0 <= i < n ==> Swap(s)[i] != '<'
    ensures forall i :: 0 <= i < n ==> Swap(s)[i] == s[i]
  {
    if n > 0 {
      TagShows(s);
      assert Swap(s) == [s[0]] + Swap(s[1..]);
      forall i | 0 <= i < n - 1 ensures Swap(s[1..])[i] == Swap(s)[i + 1] {
      }
      CopiedBefore(s[1..], n - 1);
      forall i | 1 <= i < n ensures Swap(s)[i] == s[i] {
        assert Swap(s[1..])[i - 1] == s[1..][i - 1];
      }
    }
  }

  lemma OpensOnce(ch: char, i: nat)
    requires 0 < i < |TAG| && LowerAscii(ch) == TAG[i]
    ensures ch != '<'
  {
  }

  /** A tag that starts at a copied character was there before the swap. */
  lemma TagIsCopied(ch: char, rest: string)
    requires TagHere([ch] + Swap(rest))
    ensures TagHere([ch] + rest)
  {
    hide Swap, LowerAscii;
    var r, t := [ch] + Swap(rest), [ch] + rest;
    forall i | 0 <= i < |TAG| - 1 ensures Swap(rest)[i] != '<' {
      assert r[i + 1] == Swap(rest)[i];
      OpensOnce(r[i + 1], i + 1);
    }
    CopiedBefore(rest, |TAG| - 1);
    forall i | 0 <= i < |TAG| ensures t[i] == r[i] {
    }
  }

  lemma InsideSafe(rest: string, k: nat)
    requires k < |SAFE|
    ensures !TagHere((SAFE + rest)[k..])
  {
    var t := (SAFE + rest)[k..];
    assert t[0] == SAFE[k];
    if k == 0 {
      assert t[11] == SAFE[11] == '-' && TAG[11] == '_';
    } else {
      assert SAFE[k] != '<' && TAG[0] == '<' && LowerAscii(SAFE[k]) == SAFE[k];
    }
  }

  /** No text can close the element it is wrapped in. */
  lemma {:induction false} NoTagLeft(s: string, k: nat)
    requires k <= |s|
    ensures !TagHere(Swap(s)[k..])
    decreases |s|
  {
    var r := Swap(s);
    if s == [] {
    } else if TagHere(s) {
      var rest := Swap(s[|TAG|..]);
      if k < |TAG| {
        InsideSafe(rest, k);
      } else {
        NoTagLeft(s[|TAG|..], k - |TAG|);
        assert r[k..] == rest[k - |TAG|..];
      }
    } else if k > 0 {
      NoTagLeft(s[1..], k - 1);
      assert r == [s[0]] + Swap(s[1..]);
      assert r[k..] == Swap(s[1..])[k - 1..];
    } else {
      if TagHere([s[0]] + Swap(s[1..])) {
        TagIsCopied(s[0], s[1..]);
      }
      assert s == [s[0]] + s[1..] && r[k..] == [s[0]] + Swap(s[1..]);
    }
  }

  lemma NoTagAnywhere(s: string)
    ensures forall k :: 0 <= k <= |s| ==> !TagHere(Swap(s)[k..])
  {
    forall k | 0 <= k <= |s| ensures !TagHere(Swap(s)[k..]) {
      NoTagLeft(s, k);
    }
  }

  lemma TagIsLong(s: string)
    ensures TagHere(s) ==> |s| >= |TAG|
  {
  }

  /** The tag has no line break, so it never spans the start of a line. */
  lemma {:induction false} SwapAtLine(a: string, b: string)
    requires b == [] || b[0] == '\n'
    ensures Swap(a + b) == Swap(a) + Swap(b)
    decreases |a|
  {
    hide TagHere;
    var s := a + b;
    if a == [] {
      assert s == b;
    } else {
      SameTag(a, b);
      TagIsLong(a);
      if TagHere(a) {
        SwapAtLine(a[|TAG|..], b);
        assert s[|TAG|..] == a[|TAG|..] + b;
        Regroup(SAFE, Swap(a[|TAG|..]), Swap(b));
      } else {
        SwapAtLine(a[1..], b);
        assert s[1..] == a[1..] + b;
        Regroup([a[0]], Swap(a[1..]), Swap(b));
      }
    }
  }

  lemma SameTag(a: string, b: string)
    requires b == [] || b[0] == '\n'
    ensures TagHere(a + b) <==> TagHere(a)
  {
    assert b != [] ==> (a + b)[|a|] == '\n';
    assert forall k :: 0 <= k < |TAG| ==> TAG[k] != '\n';
    assert forall k :: 0 <= k < |a| ==> (a + b)[k] == a[k];
  }

  lemma {:induction false} NothingToSwap(s: string)
    requires forall i :: 0 <= i < |s| ==> s[i] != '<'
    ensures Swap(s) == s
  {
    if s != [] {
      assert TAG[0] == '<';
      NothingToSwap(s[1..]);
    }
  }

  // ---------- Sections ----------

  datatype Doc = Doc(path: string, content: string)

  /** What a digest holds of one document. */
  datatype Section = Section(path: string, text: string)

  function Heading(path: string): string { "\n\n### " + path + "\n\n" }

  function Body(sections: seq<Section>): string {
    if sections == [] then []
    else
      var last := sections[|sections| - 1];
      Body(sections[..|sections| - 1]) + (Heading(last.path) + last.text)
  }

  function Swapped(sections: seq<Section>): (r: seq<Section>)
    ensures |r| == |sections|
    ensures forall i :: 0 <= i < |r| ==> r[i] == Section(sections[i].path, Swap(sections[i].text))
  {
    seq(|sections|, i requires 0 <= i < |sections| => Section(sections[i].path, Swap(sections[i].text)))
  }

  lemma SwapSection(path: string, text: string)
    requires forall i :: 0 <= i < |path| ==> path[i] != '<'
    ensures Swap(Heading(path) + text) == Heading(path) + Swap(text)
  {
    var head := "\n\n### " + path + "\n";
    assert Heading(path) + text == head + ("\n" + text);
    SwapAtLine(head, "\n" + text);
    NothingToSwap(head);
    assert !TagHere("\n" + text) by {
      assert TAG[0] == '<';
    }
    assert ("\n" + text)[1..] == text;
    assert head + ("\n" + Swap(text)) == Heading(path) + Swap(text);
  }

  /** The swap acts on each section's text alone. */
  lemma {:induction false} SwapSections(head: string, sections: seq<Section>)
    requires forall i, j :: 0 <= i < |sections| && 0 <= j < |sections[i].path| ==> sections[i].path[j] != '<'
    ensures Swap(head + Body(sections)) == Swap(head) + Body(Swapped(sections))
    decreases |sections|
  {
    if sections == [] {
      assert head + Body(sections) == head;
    } else {
      var before, last := sections[..|sections| - 1], sections[|sections| - 1];
      SwapSections(head, before);
      var tail := Heading(last.path) + last.text;
      SwapSection(last.path, last.text);
      SwapAtLine(head + Body(before), tail);
      Regroup(head, Body(before), tail);
      assert Swapped(sections)[..|before|] == Swapped(before);
      Regroup(Swap(head), Body(Swapped(before)), Swap(tail));
    }
  }

  // ---------- Writing ----------

  function Cut(text: string, budget: int): (r: string)
    ensures r == [] || |r| <= budget
    ensures |text| <= budget ==> r == text
  {
    if |text| <= budget then text
    else if budget > |TRUNCATED| then text[..budget - |TRUNCATED|] + TRUNCATED
    else []
  }

  /** The digest so far, with the sections it is made of. */
  datatype Progress = Progress(head: string, sections: seq<Section>)

  function Text(p: Progress): string { p.head + Body(p.sections) }

  function Append(p: Progress, doc: Doc, budget: int, max: nat): (q: Progress)
    ensures q.head == p.head
  {
    var path := OneLine(doc.path, MAX_PATH);
    var content := Cut(doc.content, Least(budget, max - |Text(p)|) - |Heading(path)|);
    if content == [] then p else p.(sections := p.sections + [Section(path, content)])
  }

  lemma AppendBounded(p: Progress, doc: Doc, budget: int, max: nat)
    requires |Text(p)| <= max && 0 <= budget
    ensures var q := Append(p, doc, budget, max);
            |Text(p)| <= |Text(q)| <= max && |Text(q)| - |Text(p)| <= budget
    ensures var q := Append(p, doc, budget, max); p.sections <= q.sections
  {
    var q := Append(p, doc, budget, max);
    if q != p {
      var last := q.sections[|p.sections|];
      assert q.sections[..|p.sections|] == p.sections;
      assert Body(q.sections) == Body(p.sections) + (Heading(last.path) + last.text);
    }
  }

  /** The share of each remaining document: what is left, split evenly. */
  function Share(p: Progress, left: nat, max: nat): (share: nat)
    requires left > 0 && |Text(p)| <= max
    ensures share <= max - |Text(p)|
  {
    QuotientFits(max - |Text(p)|, left);
    (max - |Text(p)|) / left
  }

  lemma QuotientFits(room: nat, left: nat)
    requires left > 0
    ensures 0 <= room / left <= room
  {
    var d, r := room / left, room % left;
    assert room == left * d + r && 0 <= r;
    Multiple(left, d);
  }

  lemma {:induction false} Multiple(n: nat, d: int)
    requires n > 0
    ensures d >= 0 ==> n * d >= d
    ensures d < 0 ==> n * d <= d
    decreases n
  {
    if n > 1 {
      Multiple(n - 1, d);
      assert n * d == (n - 1) * d + d;
    }
  }

  function AppendAll(p: Progress, others: seq<Doc>, max: nat): Progress
    requires |Text(p)| <= max
    decreases |others|
  {
    if others == [] then p
    else
      AppendBounded(p, others[0], Share(p, |others|, max), max);
      AppendAll(Append(p, others[0], Share(p, |others|, max), max), others[1..], max)
  }

  function FindIndex(docs: seq<Doc>): Option<Doc> {
    if docs == [] then None else if docs[0].path == INDEX then Some(docs[0]) else FindIndex(docs[1..])
  }

  function Others(docs: seq<Doc>): seq<Doc> {
    if docs == [] then [] else if docs[0].path == INDEX then Others(docs[1..]) else [docs[0]] + Others(docs[1..])
  }

  /** The digest once index.md had its turn. */
  function Started(header: string, docs: seq<Doc>, max: nat): Progress {
    var p := Progress(if |header| <= max then header else header[..max], []);
    var index := FindIndex(docs);
    if index.None? then p else Append(p, index.value, Least(INDEX_MAX_CHARS, max / 3), max)
  }

  function Built(header: string, docs: seq<Doc>, max: nat): Progress {
    StartedBounded(header, docs, max);
    AppendAll(Started(header, docs, max), Others(docs), max)
  }

  /** buildDigest */
  method BuildDigest(header: string, docs: seq<Doc>, max: nat) returns (digest: string)
    ensures digest == Swap(Text(Built(header, docs, max)))
    ensures |digest| <= max
    ensures forall k :: 0 <= k <= |digest| ==> !TagHere(digest[k..])
  {
    hide Append, Text, Swap, TagHere, Started, Others;
    var p := Started(header, docs, max);
    var others := Others(docs);
    StartedBounded(header, docs, max);
    var i := 0;
    while i < |others|
      invariant 0 <= i <= |others| && |Text(p)| <= max
      invariant AppendAll(p, others[i..], max) == Built(header, docs, max)
    {
      assert others[i..][1..] == others[i + 1..] && |others[i..]| == |others| - i && others[i..][0] == others[i];
      var share := Share(p, |others| - i, max);
      AppendBounded(p, others[i], share, max);
      p := Append(p, others[i], share, max);
      i := i + 1;
    }
    assert others[i..] == [];
    digest := Swap(Text(p));
    NoTagAnywhere(Text(p));
  }

  lemma StartedBounded(header: string, docs: seq<Doc>, max: nat)
    ensures |Text(Started(header, docs, max))| <= max
  {
    var p := Progress(if |header| <= max then header else header[..max], []);
    var index := FindIndex(docs);
    if index.Some? {
      AppendBounded(p, index.value, Least(INDEX_MAX_CHARS, max / 3), max);
    }
  }

  // ---------- Fair shares ----------

  /** What one document leaves of its share goes to the others: shares only grow. */
  lemma ShareGrows(room: nat, used: nat, left: nat)
    requires left > 1 && used <= room / left
    ensures room / left <= (room - used) / (left - 1)
  {
    var share := room / left;
    assert room >= left * share;
    assert room - used >= (left - 1) * share;
    Quotient(room - used, left - 1, share);
  }

  lemma Quotient(a: nat, b: nat, q: nat)
    requires b > 0 && a >= b * q
    ensures a / b >= q
  {
    var d := a / b;
    assert a < b * (d + 1);
    assert d < q ==> b * (d + 1) <= b * q;
  }

  function Whole(doc: Doc): Section { Section(OneLine(doc.path, MAX_PATH), doc.content) }

  function SizeOf(doc: Doc): nat { |Heading(Whole(doc).path)| + |doc.content| }

  /** A section that fits is written whole. */
  lemma AppendWhole(p: Progress, doc: Doc, budget: int, max: nat)
    requires SizeOf(doc) <= Least(budget, max - |Text(p)|) && doc.content != []
    ensures Append(p, doc, budget, max).sections == p.sections + [Whole(doc)]
  {
  }

  lemma {:induction false} SectionsStay(p: Progress, others: seq<Doc>, max: nat)
    requires |Text(p)| <= max
    ensures p.sections <= AppendAll(p, others, max).sections && |Text(AppendAll(p, others, max))| <= max
    decreases |others|
  {
    if others != [] {
      AppendBounded(p, others[0], Share(p, |others|, max), max);
      SectionsStay(Append(p, others[0], Share(p, |others|, max), max), others[1..], max);
    }
  }

  lemma NextShare(p: Progress, doc: Doc, left: nat, max: nat)
    requires |Text(p)| <= max && left > 1
    ensures var q := Append(p, doc, Share(p, left, max), max);
            |Text(q)| <= max && Share(p, left, max) <= Share(q, left - 1, max)
  {
    var share := Share(p, left, max);
    AppendBounded(p, doc, share, max);
    ShareGrows(max - |Text(p)|, |Text(Append(p, doc, share, max))| - |Text(p)|, left);
  }

  lemma {:induction false} FirstIsWhole(p: Progress, others: seq<Doc>, max: nat)
    requires |Text(p)| <= max && others != [] && others[0].content != []
    requires SizeOf(others[0]) <= Share(p, |others|, max)
    ensures Whole(others[0]) in AppendAll(p, others, max).sections
  {
    var share := Share(p, |others|, max);
    var q := Append(p, others[0], share, max);
    AppendWhole(p, others[0], share, max);
    AppendBounded(p, others[0], share, max);
    SectionsStay(q, others[1..], max);
    var all := AppendAll(q, others[1..], max).sections;
    assert all[|p.sections|] == q.sections[|p.sections|];
  }

  lemma {:induction false} AppendAllStep(p: Progress, others: seq<Doc>, max: nat) returns (q: Progress)
    requires |Text(p)| <= max && others != []
    ensures |Text(q)| <= max && AppendAll(p, others, max) == AppendAll(q, others[1..], max)
    ensures |others| > 1 ==> Share(p, |others|, max) <= Share(q, |others| - 1, max)
  {
    hide Append, Text;
    q := Append(p, others[0], Share(p, |others|, max), max);
    AppendBounded(p, others[0], Share(p, |others|, max), max);
    if |others| > 1 {
      NextShare(p, others[0], |others|, max);
    }
  }

  /** A document whose section fits an even split of the room is written whole. */
  lemma {:induction false} FairShareIsWhole(p: Progress, others: seq<Doc>, max: nat, i: nat)
    requires |Text(p)| <= max && i < |others| && others[i].content != []
    requires SizeOf(others[i]) <= Share(p, |others|, max)
    ensures Whole(others[i]) in AppendAll(p, others, max).sections
    decreases |others|
  {
    hide *;
    if i == 0 {
      FirstIsWhole(p, others, max);
    } else {
      var q := AppendAllStep(p, others, max);
      FairShareIsWhole(q, others[1..], max, i - 1);
    }
  }

  // ---------- Where sections come from ----------

  /** A section holds its document whole, or its beginning with the mark of the cut. */
  predicate FromDoc(s: Section, d: Doc) {
    && s.path == OneLine(d.path, 200) && s.text != []
    && (|| s.text == d.content
        || (&& |TRUNCATED| < |s.text| < |d.content|
            && s.text == d.content[..|s.text| - |TRUNCATED|] + TRUNCATED))
  }

  /** A document of which as many as there are left would fit is written whole. */
  lemma EvenSplitIsWhole(p: Progress, others: seq<Doc>, max: nat, i: nat)
    requires |Text(p)| <= max && i < |others| && others[i].content != []
    requires SizeOf(others[i]) * |others| <= max - |Text(p)|
    ensures Whole(others[i]) in AppendAll(p, others, max).sections
  {
    hide Text, AppendAll, SizeOf;
    Quotient(max - |Text(p)|, |others|, SizeOf(others[i]));
    FairShareIsWhole(p, others, max, i);
  }

  lemma AppendFrom(p: Progress, doc: Doc, budget: int, max: nat)
    ensures var q := Append(p, doc, budget, max);
            q == p || exists s :: q.sections == p.sections + [s] && FromDoc(s, doc)
  {
    var q := Append(p, doc, budget, max);
    if q != p {
      assert FromDoc(q.sections[|p.sections|], doc);
    }
  }

  /** Sections n.. of a list come from the documents named by from, in order. */
  ghost predicate ComeFrom(all: seq<Section>, n: nat, others: seq<Doc>, from: seq<nat>) {
    && |all| == n + |from|
    && (forall i :: 0 <= i < |from| ==> from[i] < |others| && FromDoc(all[n + i], others[from[i]]))
    && (forall i, j :: 0 <= i < j < |from| ==> from[i] < from[j])
  }

  lemma {:induction false} OneMore(all: seq<Section>, n: nat, others: seq<Doc>, rest: seq<nat>, written: bool) returns (from: seq<nat>)
    requires others != [] && ComeFrom(all, if written then n + 1 else n, others[1..], rest)
    requires written ==> FromDoc(all[n], others[0])
    ensures ComeFrom(all, n, others, from)
  {
    hide FromDoc;
    var shifted := seq(|rest|, i requires 0 <= i < |rest| => rest[i] + 1);
    forall i | 0 <= i < |shifted|
      ensures shifted[i] < |others| && FromDoc(all[if written then n + 1 + i else n + i], others[shifted[i]])
    {
      assert others[1..][rest[i]] == others[shifted[i]];
    }
    if written {
      from := [0] + shifted;
      forall i | 0 <= i < |from| ensures from[i] < |others| && FromDoc(all[n + i], others[from[i]]) {
        if i > 0 {
          assert from[i] == shifted[i - 1];
        }
      }
    } else {
      from := shifted;
    }
  }

  /** The sections follow the order of the documents, each from a document of its own. */
  lemma {:induction false} InOrder(p: Progress, others: seq<Doc>, max: nat) returns (from: seq<nat>)
    requires |Text(p)| <= max
    ensures ComeFrom(AppendAll(p, others, max).sections, |p.sections|, others, from)
    decreases |others|
  {
    if others == [] {
      from := [];
    } else {
      var share := Share(p, |others|, max);
      var q := Append(p, others[0], share, max);
      AppendBounded(p, others[0], share, max);
      AppendFrom(p, others[0], share, max);
      SectionsStay(q, others[1..], max);
      var all := AppendAll(q, others[1..], max).sections;
      var rest := InOrder(q, others[1..], max);
      assert q != p ==> |q.sections| == |p.sections| + 1 && all[|p.sections|] == q.sections[|p.sections|];
      from := OneMore(all, |p.sections|, others, rest, q != p);
    }
  }

  // ---------- Reading ----------

  predicate IsSectionEnd(digest: string, path: string, docs: seq<string>, start: nat, end: nat) {
    && start <= end <= |digest|
    && (forall q :: q in docs && q != path ==> FreeOf(digest, Heading(q), start, end))
    && (end == |digest| || exists q :: q in docs && q != path && OccursAt(digest, Heading(q), end))
  }

  /** The trimmed text from a heading to the next listed heading, or nothing without the heading. */
  ghost predicate Extracted(digest: string, path: string, docs: seq<string>, r: string) {
    match IndexOf(digest, Heading(path), 0)
    case None => r == []
    case Some(at) => ExtractedFrom(digest, path, docs, at + |Heading(path)|, r)
  }

  ghost predicate ExtractedFrom(digest: string, path: string, docs: seq<string>, start: nat, r: string) {
    exists end: nat :: IsSectionEnd(digest, path, docs, start, end) && r == Trim(digest[start..end])
  }

  /** extractDigestDocument */
  method ExtractDigestDocument(digest: string, path: string, docs: seq<string>) returns (r: string)
    ensures Extracted(digest, path, docs, r)
  {
    var heading := Heading(path);
    var at := IndexOf(digest, heading, 0);
    if at.None? {
      return [];
    }
    var start := at.value + |heading|;
    var end := |digest|;
    var i := 0;
    while i < |docs|
      invariant 0 <= i <= |docs| && start <= end <= |digest|
      invariant forall q :: q in docs[..i] && q != path ==> FreeOf(digest, Heading(q), start, end)
      invariant end == |digest| || exists q :: q in docs && q != path && OccursAt(digest, Heading(q), end)
    {
      if docs[i] != path {
        var next := IndexOf(digest, Heading(docs[i]), start);
        if next.Some? && next.value < end {
          end := next.value;
        }
      }
      assert docs[..i + 1] == docs[..i] + [docs[i]];
      i := i + 1;
    }
    assert docs[..i] == docs;
    assert IsSectionEnd(digest, path, docs, start, end);
    r := Trim(digest[start..end]);
    assert ExtractedFrom(digest, path, docs, start, r);
  }

  // ---------- Reading back what was written ----------

  function StartOf(head: string, sections: seq<Section>, i: nat): nat
    requires i <= |sections|
  {
    |head| + |Body(sections[..i])|
  }

  lemma {:induction false} BodyPrefix(sections: seq<Section>, i: nat)
    requires i <= |sections|
    ensures Body(sections[..i]) <= Body(sections)
    decreases |sections|
  {
    if i < |sections| {
      var before := sections[..|sections| - 1];
      BodyPrefix(before, i);
      assert sections[..i] == before[..i];
    } else {
      assert sections[..i] == sections;
    }
  }

  /** A section stands at its start: the heading, then the text up to the next section. */
  lemma {:induction false} SectionAt(head: string, sections: seq<Section>, i: nat)
    requires i < |sections|
    ensures var digest, s := head + Body(sections), sections[i];
            var at, next := StartOf(head, sections, i), StartOf(head, sections, i + 1);
            && next == at + |Heading(s.path)| + |s.text| <= |digest|
            && OccursAt(digest, Heading(s.path), at)
            && digest[at + |Heading(s.path)|..next] == s.text
  {
    var upto, s := sections[..i + 1], sections[i];
    assert upto[..i] == sections[..i] && upto[i] == s;
    BodyPrefix(sections, i + 1);
    var piece := Body(upto[..i]) + (Heading(s.path) + s.text);
    assert Body(upto) == piece;
    var digest, at, next := head + Body(sections), StartOf(head, sections, i), StartOf(head, sections, i + 1);
    assert digest[..next] == head + piece;
    assert digest[at..at + |Heading(s.path)|] == (head + piece)[at..at + |Heading(s.path)|] == Heading(s.path);
    assert digest[at + |Heading(s.path)|..next] == (head + piece)[at + |Heading(s.path)|..next] == s.text;
  }

  lemma {:induction false} StartsGrow(head: string, sections: seq<Section>, i: nat, j: nat)
    requires i < j <= |sections|
    ensures StartOf(head, sections, i) < StartOf(head, sections, j)
    decreases j - i
  {
    SectionAt(head, sections, j - 1);
    if i < j - 1 {
      StartsGrow(head, sections, i, j - 1);
    }
  }

  /** No listed heading stands anywhere but at the start of its own section. */
  ghost predicate NoStray(head: string, sections: seq<Section>, docs: seq<string>) {
    forall q, k: nat :: q in docs && OccursAt(head + Body(sections), Heading(q), k) ==>
      StartsSection(head, sections, q, k)
  }

  ghost predicate StartsSection(head: string, sections: seq<Section>, path: string, k: nat) {
    exists i :: 0 <= i < |sections| && sections[i].path == path && k == StartOf(head, sections, i)
  }

  ghost predicate DistinctPaths(sections: seq<Section>) {
    forall i, j :: 0 <= i < j < |sections| ==> sections[i].path != sections[j].path
  }

  lemma HeadingIsFound(head: string, sections: seq<Section>, docs: seq<string>, i: nat)
    requires NoStray(head, sections, docs) && DistinctPaths(sections) && i < |sections| && sections[i].path in docs
    ensures IndexOf(head + Body(sections), Heading(sections[i].path), 0) == Some(StartOf(head, sections, i))
  {
    var digest, path, at := head + Body(sections), sections[i].path, StartOf(head, sections, i);
    SectionAt(head, sections, i);
    var found := IndexOf(digest, Heading(path), 0);
    assert OccursAt(digest, Heading(path), at) && at < |digest|;
    if found.Some? {
      assert OccursAt(digest, Heading(path), found.value);
    }
  }

  /** The next listed heading after a section's own is where its text ends. */
  lemma SectionEndsAt(head: string, sections: seq<Section>, docs: seq<string>, i: nat, end: nat)
    requires NoStray(head, sections, docs) && DistinctPaths(sections) && i < |sections|
    requires forall k :: 0 <= k < |sections| ==> sections[k].path in docs
    requires var path := sections[i].path;
             IsSectionEnd(head + Body(sections), path, docs, StartOf(head, sections, i) + |Heading(path)|, end)
    ensures end == StartOf(head, sections, i + 1)
  {
    var digest, path := head + Body(sections), sections[i].path;
    var next := StartOf(head, sections, i + 1);
    SectionAt(head, sections, i);
    if end < next {
      var q :| q in docs && q != path && OccursAt(digest, Heading(q), end);
      NoEarlierEnd(head, sections, i, q, end);
    } else if i + 1 < |sections| {
      SectionAt(head, sections, i + 1);
      assert OccursAt(digest, Heading(sections[i + 1].path), next) && sections[i + 1].path in docs;
    } else {
      assert sections[..i + 1] == sections;
    }
  }

  lemma NoEarlierEnd(head: string, sections: seq<Section>, i: nat, path: string, end: nat)
    requires i < |sections| && StartsSection(head, sections, path, end) && StartOf(head, sections, i) < end
    ensures end >= StartOf(head, sections, i + 1)
  {
    var k :| 0 <= k < |sections| && sections[k].path == path && end == StartOf(head, sections, k);
    StartsInOrder(head, sections, k, i);
    StartsInOrder(head, sections, i + 1, k);
  }

  lemma StartsInOrder(head: string, sections: seq<Section>, i: nat, j: nat)
    requires i <= |sections| && j <= |sections|
    ensures i <= j ==> StartOf(head, sections, i) <= StartOf(head, sections, j)
  {
    if i < j {
      StartsGrow(head, sections, i, j);
    }
  }

  /** The section of a written document runs from its heading to the next one. */
  lemma {:induction false} SectionIsRead(head: string, sections: seq<Section>, docs: seq<string>, i: nat, r: string)
    requires NoStray(head, sections, docs) && DistinctPaths(sections) && i < |sections|
    requires forall k :: 0 <= k < |sections| ==> sections[k].path in docs
    requires Extracted(head + Body(sections), sections[i].path, docs, r)
    ensures r == Trim(sections[i].text)
  {
    var digest, path := head + Body(sections), sections[i].path;
    var start := StartOf(head, sections, i) + |Heading(path)|;
    HeadingIsFound(head, sections, docs, i);
    assert ExtractedFrom(digest, path, docs, start, r);
    ReadFrom(head, sections, docs, i, digest, start, r);
  }

  lemma ReadFrom(head: string, sections: seq<Section>, docs: seq<string>, i: nat, digest: string,
                                    start: nat, r: string)
    requires NoStray(head, sections, docs) && DistinctPaths(sections) && i < |sections|
    requires forall k :: 0 <= k < |sections| ==> sections[k].path in docs
    requires digest == head + Body(sections) && start == StartOf(head, sections, i) + |Heading(sections[i].path)|
    requires ExtractedFrom(digest, sections[i].path, docs, start, r)
    ensures r == Trim(sections[i].text)
  {
    var end: nat :| IsSectionEnd(digest, sections[i].path, docs, start, end) && r == Trim(digest[start..end]);
    SectionEndsAt(head, sections, docs, i, end);
    TextOf(head, sections, i, digest, start, end);
  }

  lemma TextOf(head: string, sections: seq<Section>, i: nat, digest: string, start: nat, end: nat)
    requires i < |sections| && digest == head + Body(sections)
    requires start == StartOf(head, sections, i) + |Heading(sections[i].path)| && end == StartOf(head, sections, i + 1)
    ensures start <= end <= |digest| && digest[start..end] == sections[i].text
  {
    SectionAt(head, sections, i);
  }

  /** A listed document that was not written reads as nothing. */
  lemma UnwrittenIsEmpty(head: string, sections: seq<Section>, docs: seq<string>, path: string, r: string)
    requires NoStray(head, sections, docs) && path in docs
    requires forall k :: 0 <= k < |sections| ==> sections[k].path != path
    requires Extracted(head + Body(sections), path, docs, r)
    ensures r == []
  {
    var digest := head + Body(sections);
    var found := IndexOf(digest, Heading(path), 0);
    assert forall k: nat :: OccursAt(digest, Heading(path), k) ==> false;
  }

  // ---------- The round trip ----------

  ghost predicate DistinctDocs(docs: seq<Doc>) {
    forall i, j :: 0 <= i < j < |docs| ==> docs[i].path != docs[j].path
  }

  lemma {:induction false} OthersOf(docs: seq<Doc>)
    ensures forall d :: d in Others(docs) <==> d in docs && d.path != INDEX
    ensures DistinctDocs(docs) ==> DistinctDocs(Others(docs))
    ensures FindIndex(docs).Some? ==> FindIndex(docs).value in docs && FindIndex(docs).value.path == INDEX
  {
    if docs != [] {
      OthersOf(docs[1..]);
      assert forall d :: d in docs <==> d == docs[0] || d in docs[1..];
      if DistinctDocs(docs) {
        var rest := Others(docs[1..]);
        forall i | 0 <= i < |rest| ensures rest[i].path != docs[0].path {
          assert rest[i] in docs[1..];
        }
      }
    }
  }

  ghost predicate Origin(s: Section, docs: seq<Doc>) {
    exists d :: d in docs && d.path == s.path && FromDoc(s, d)
  }

  lemma DistinctNames(all: seq<Section>, n: nat, others: seq<Doc>, from: seq<nat>)
    requires n <= 1 && |all| == n + |from| && (n == 1 ==> all[0].path == INDEX)
    requires forall d :: d in others ==> d.path != INDEX
    requires DistinctDocs(others)
    requires forall i, j :: 0 <= i < j < |from| ==> from[i] < from[j]
    requires forall i :: 0 <= i < |from| ==> from[i] < |others| && all[n + i].path == others[from[i]].path
    ensures DistinctPaths(all)
  {
    forall i, j | 0 <= i < j < |all| ensures all[i].path != all[j].path {
      assert all[n + (j - n)].path == others[from[j - n]].path;
      if i < n {
        assert others[from[j - n]] in others;
      } else {
        assert all[n + (i - n)].path == others[from[i - n]].path;
      }
    }
  }

  /** Each section is named after a document of its own. */
  lemma SectionNames(header: string, docs: seq<Doc>, max: nat)
    requires DistinctDocs(docs) && forall d :: d in docs ==> IsDocPath(d.path)
    ensures var all := Built(header, docs, max).sections;
            DistinctPaths(all) && forall i :: 0 <= i < |all| ==> Origin(all[i], docs)
  {
    hide Append, AppendAll, OneLine, FromDoc, IsDocPath, Started, FindIndex, Others;
    var p, others := Started(header, docs, max), Others(docs);
    var n := |p.sections|;
    StartedBounded(header, docs, max);
    StartedSections(header, docs, max);
    OthersOf(docs);
    var from := InOrder(p, others, max);
    SectionsStay(p, others, max);
    var all := AppendAll(p, others, max).sections;
    assert n > 0 ==> all[0] == p.sections[0];
    forall i | 0 <= i < |from| ensures all[n + i].path == others[from[i]].path && Origin(all[n + i], docs) {
      assert others[from[i]] in others;
      NamedAfter(all[n + i], others[from[i]]);
    }
    DistinctNames(all, n, others, from);
    forall i | 0 <= i < |all| ensures Origin(all[i], docs) {
      if i >= n {
        var j := i - n;
        assert all[n + j].path == others[from[j]].path;
      }
    }
  }

  lemma NamedAfter(s: Section, d: Doc)
    requires FromDoc(s, d)
    ensures IsDocPath(d.path) ==> s.path == d.path
  {
    if IsDocPath(d.path) {
      DocPathIsOneLine(d.path);
    }
  }

  lemma StartedSections(header: string, docs: seq<Doc>, max: nat)
    requires forall d :: d in docs ==> IsDocPath(d.path)
    ensures var first := Started(header, docs, max).sections;
            |first| <= 1 && (|first| == 1 ==> Origin(first[0], docs) && first[0].path == INDEX)
  {
    hide Append, OneLine, FromDoc, IsDocPath;
    var p := Progress(if |header| <= max then header else header[..max], []);
    OthersOf(docs);
    var index := FindIndex(docs);
    if index.Some? {
      AppendFrom(p, index.value, Least(INDEX_MAX_CHARS, max / 3), max);
      var first := Started(header, docs, max).sections;
      if |first| > 0 {
        NamedAfter(first[0], index.value);
      }
    }
  }

  ghost predicate FirstIndexDoc(docs: seq<Doc>, i: nat) {
    i < |docs| && docs[i].path == INDEX && forall j :: 0 <= j < i ==> docs[j].path != INDEX
  }

  lemma {:induction false} FindsTheIndex(docs: seq<Doc>)
    ensures match FindIndex(docs)
            case Some(d) => exists i: nat :: FirstIndexDoc(docs, i) && docs[i] == d
            case None => forall i :: 0 <= i < |docs| ==> docs[i].path != INDEX
  {
    if docs != [] && docs[0].path == INDEX {
      assert FirstIndexDoc(docs, 0);
    } else if docs != [] {
      FindsTheIndex(docs[1..]);
      if FindIndex(docs[1..]).Some? {
        var i: nat :| FirstIndexDoc(docs[1..], i) && docs[1..][i] == FindIndex(docs[1..]).value;
        assert forall j :: 0 < j < i + 1 ==> docs[j] == docs[1..][j - 1];
        assert FirstIndexDoc(docs, i + 1);
      } else {
        assert forall j :: 0 < j < |docs| ==> docs[j] == docs[1..][j - 1];
      }
    }
  }

  /** The list holds documents of another one, in order, at these places. */
  ghost predicate StandsAt(list: seq<Doc>, docs: seq<Doc>, at: seq<nat>) {
    && |at| == |list| && (forall i, j :: 0 <= i < j < |at| ==> at[i] < at[j])
    && forall i :: 0 <= i < |at| ==> at[i] < |docs| && list[i] == docs[at[i]]
  }

  lemma OneDocMore(d: Doc, list: seq<Doc>, docs: seq<Doc>, at: seq<nat>) returns (shifted: seq<nat>)
    requires StandsAt(list, docs, at)
    ensures StandsAt(list, [d] + docs, shifted) && StandsAt([d] + list, [d] + docs, [0] + shifted)
  {
    shifted := seq(|at|, i requires 0 <= i < |at| => at[i] + 1);
    assert forall i :: 0 <= i < |at| ==> ([d] + docs)[shifted[i]] == docs[at[i]];
  }

  /** The documents beside index.md, with their places. */
  lemma {:induction false} OthersAt(docs: seq<Doc>) returns (at: seq<nat>)
    ensures StandsAt(Others(docs), docs, at) && forall d :: d in Others(docs) ==> d.path != INDEX
  {
    if docs == [] {
      return [];
    }
    var rest := OthersAt(docs[1..]);
    var shifted := OneDocMore(docs[0], Others(docs[1..]), docs[1..], rest);
    assert [docs[0]] + docs[1..] == docs;
    hide StandsAt;
    at := if docs[0].path == INDEX then shifted else [0] + shifted;
  }

  /** The section of index.md: in its place, from its document, and no longer than its part of the digest. */
  predicate IndexSection(s: Section, d: Doc, max: nat) {
    FromDoc(s, d) && |Heading(s.path)| + |s.text| <= 8000 && 3 * (|Heading(s.path)| + |s.text|) <= max
  }

  predicate IndexFits(header: string, d: Doc, max: nat) {
    && d.content != [] && |header| + SizeOf(d) <= max
    && SizeOf(d) <= 8000 && 3 * SizeOf(d) <= max
  }

  lemma StartsWithIndex(header: string, docs: seq<Doc>, max: nat, i: nat)
    requires FirstIndexDoc(docs, i)
    ensures var first := Started(header, docs, max).sections;
            && |first| <= 1 && (|first| == 1 ==> IndexSection(first[0], docs[i], max))
            && (IndexFits(header, docs[i], max) ==> first == [Whole(docs[i])])
  {
    FindsTheIndex(docs);
    var d := FindIndex(docs).value;
    assert d == docs[i];
    var p := Progress(if |header| <= max then header else header[..max], []);
    var budget := Least(INDEX_MAX_CHARS, max / 3);
    AppendFrom(p, d, budget, max);
    AppendBounded(p, d, budget, max);
    if IndexFits(header, d, max) {
      AppendWhole(p, d, budget, max);
    }
  }

  /**
   The sections of a digest: that of the first index.md, if it was written, comes first and takes at
   most 8000 characters and a third of the limit, whole when it fits those; the others follow in the
   documents' order, each from a document of its own.
   */
  lemma IndexComesFirst(header: string, docs: seq<Doc>, max: nat) returns (n: nat, from: seq<nat>)
    ensures var all := Built(header, docs, max).sections;
            && n <= 1 && |all| == n + |from|
            && (n == 1 ==> exists i: nat :: FirstIndexDoc(docs, i) && IndexSection(all[0], docs[i], max))
            && (forall i: nat :: FirstIndexDoc(docs, i) && IndexFits(header, docs[i], max) ==> n == 1 && all[0] == Whole(docs[i]))
            && (forall k :: 0 <= k < |from| ==>
                  from[k] < |docs| && docs[from[k]].path != INDEX && FromDoc(all[n + k], docs[from[k]]))
            && forall j, k :: 0 <= j < k < |from| ==> from[j] < from[k]
  {
    hide Append, AppendAll, FromDoc, Started, IndexFits, Others, FindIndex, IndexSection, Whole;
    var p, others := Started(header, docs, max), Others(docs);
    StartedBounded(header, docs, max);
    FindsTheIndex(docs);
    NoIndexNoSection(header, docs, max);
    if FindIndex(docs).Some? {
      var i: nat :| FirstIndexDoc(docs, i) && docs[i] == FindIndex(docs).value;
      StartsWithIndex(header, docs, max, i);
      assert forall j: nat :: FirstIndexDoc(docs, j) ==> j == i;
    }
    n := |p.sections|;
    SectionsStay(p, others, max);
    var at := OthersAt(docs);
    var order := InOrder(p, others, max);
    from := seq(|order|, k requires 0 <= k < |order| && order[k] < |at| => at[order[k]]);
  }

  lemma NoIndexNoSection(header: string, docs: seq<Doc>, max: nat)
    ensures FindIndex(docs).None? ==> Started(header, docs, max).sections == []
  {
  }

  /**
   Reading back a digest: each written document gives its text, up to trimming and the swap of the
   closing tag, and each document that did not fit gives nothing, as long as no listed heading
   stands anywhere else in the digest.
   */
  lemma DigestReadsBack(header: string, docs: seq<Doc>, max: nat, listed: seq<string>, path: string, r: string)
    requires DistinctDocs(docs) && forall d :: d in docs ==> IsDocPath(d.path) && d.path in listed
    requires var p := Built(header, docs, max); NoStray(Swap(p.head), Swapped(p.sections), listed)
    requires path in listed && Extracted(Swap(Text(Built(header, docs, max))), path, listed, r)
    ensures var all := Built(header, docs, max).sections;
            && (forall i :: 0 <= i < |all| && all[i].path == path ==> r == Trim(Swap(all[i].text)))
            && ((forall i :: 0 <= i < |all| ==> all[i].path != path) ==> r == [])
  {
    hide Built, Extracted, IsDocPath, FromDoc, NoStray, Swap, Trim;
    var p := Built(header, docs, max);
    var all, swapped, head := p.sections, Swapped(p.sections), Swap(p.head);
    SectionNames(header, docs, max);
    forall i | 0 <= i < |all| ensures all[i].path in listed && forall j :: 0 <= j < |all[i].path| ==> all[i].path[j] != '<' {
      assert Origin(all[i], docs);
      var d :| d in docs && d.path == all[i].path && FromDoc(all[i], d);
      PathHasNoTag(d.path);
    }
    SwapSections(p.head, all);
    assert Swap(Text(p)) == head + Body(swapped);
    if i :| 0 <= i < |all| && all[i].path == path {
      SectionIsRead(head, swapped, listed, i, r);
    } else {
      UnwrittenIsEmpty(head, swapped, listed, path, r);
    }
  }

  lemma PathHasNoTag(path: string)
    requires IsDocPath(path)
    ensures forall j :: 0 <= j < |path| ==> path[j] != '<'
  {
  }
}
