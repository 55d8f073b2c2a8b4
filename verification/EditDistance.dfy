/** The spelling help of src/doctor/config-check.ts. */
module EditDistance {
  // editDistance, sharedPrefix and suggestName.  Strings are sequences of the units charAt
  // returns; toLowerCase is a parameter.

  import opened Base

  function Min(a: nat, b: nat): nat { if a < b then a else b }

  // ---------- The recursive distance ----------

  /** Levenshtein's recursion on the last characters. */
  function Lev(a: string, b: string): nat
    decreases |a| + |b|
  {
    if a == [] then |b|
    else if b == [] then |a|
    else
      var a', b' := a[..|a| - 1], b[..|b| - 1];
      Min(Min(Lev(a', b) + 1, Lev(a, b') + 1),
          Lev(a', b') + if a[|a| - 1] == b[|b| - 1] then 0 else 1)
  }

  /** The distance of the first i characters of a from the first j of b. */
  function Cell(a: string, b: string, i: nat, j: nat): nat
    requires i <= |a| && j <= |b|
  {
    Lev(a[..i], b[..j])
  }

  lemma CellStep(a: string, b: string, i: nat, j: nat)
    requires 1 <= i <= |a| && 1 <= j <= |b|
    ensures Cell(a, b, i, j) == Min(Min(Cell(a, b, i - 1, j) + 1, Cell(a, b, i, j - 1) + 1),
                                    Cell(a, b, i - 1, j - 1) + if a[i - 1] == b[j - 1] then 0 else 1)
  {
    assert a[..i][..i - 1] == a[..i - 1] && b[..j][..j - 1] == b[..j - 1];
  }

  /** A cell read from a row, or nothing when the row is too short. */
  function At(row: seq<nat>, j: int): Option<nat> {
    if 0 <= j < |row| then Some(row[j]) else None
  }

  /**
   The two-row loop.  `builtShort` records whether a missing cell was ever met: it never is.
   */
  method Distance(a: string, b: string) returns (d: int, builtShort: bool)
    ensures d == Lev(a, b)
    ensures !builtShort
  {
    var unrelated: int := |a| + |b|;
    builtShort := false;
    var previous := seq(|b| + 1, j => j);
    assert forall j :: 0 <= j <= |b| ==> Cell(a, b, 0, j) == j;
    var i := 1;
    while i <= |a| && !builtShort
      invariant 1 <= i <= |a| + 1
      invariant !builtShort
      invariant |previous| == |b| + 1
      invariant forall j :: 0 <= j <= |b| ==> previous[j] == Cell(a, b, i - 1, j)
    {
      var current := [i];
      var aChar := a[i - 1];
      var j := 1;
      assert Cell(a, b, i, 0) == i;
      while j <= |b| && !builtShort
        invariant 1 <= j <= |b| + 1
        invariant !builtShort
        invariant |current| == j
        invariant forall k :: 0 <= k < j ==> current[k] == Cell(a, b, i, k)
      {
        var diagonal, above, left := At(previous, j - 1), At(previous, j), At(current, j - 1);
        if diagonal.Some? && above.Some? && left.Some? {
          var substitution := diagonal.value + if aChar == b[j - 1] then 0 else 1;
          CellStep(a, b, i, j);
          current := current + [Min(Min(above.value + 1, left.value + 1), substitution)];
          j := j + 1;
        } else {
          builtShort := true;
        }
      }
      previous := current;
      i := i + 1;
    }
    assert a[..|a|] == a && b[..|b|] == b;
    var last := At(previous, |b|);
    d := if last.Some? && !builtShort then last.value else unrelated;
  }

  // ---------- What the recursion means: the fewest single-character edits ----------

  datatype Edit =
    | Insert(at: nat, ch: char)
    | Delete(at: nat)
    | Replace(at: nat, ch: char)

  predicate Fits(e: Edit, s: string) {
    if e.Insert? then e.at <= |s| else e.at < |s|
  }

  function Apply(e: Edit, s: string): string
    requires Fits(e, s)
  {
    match e
    case Insert(at, ch) => s[..at] + [ch] + s[at..]
    case Delete(at) => s[..at] + s[at + 1..]
    case Replace(at, ch) => s[..at] + [ch] + s[at + 1..]
  }

  /** The edits, one after another, turn a into b. */
  ghost predicate Leads(a: string, edits: seq<Edit>, b: string)
    decreases |edits|
  {
    if edits == [] then a == b else Fits(edits[0], a) && Leads(Apply(edits[0], a), edits[1..], b)
  }

  lemma {:induction false} LevSame(a: string)
    ensures Lev(a, a) == 0
  {
    if a != [] {
      LevSame(a[..|a| - 1]);
    }
  }

  lemma {:induction false} LevIsSymmetric(a: string, b: string)
    ensures Lev(a, b) == Lev(b, a)
    decreases |a| + |b|
  {
    if a != [] && b != [] {
      var a', b' := a[..|a| - 1], b[..|b| - 1];
      LevIsSymmetric(a', b);
      LevIsSymmetric(a, b');
      LevIsSymmetric(a', b');
    }
  }

  /** Dropping the last character changes the distance by at most one. */
  lemma {:induction false} LevDropLast(a: string, b: string)
    requires a != []
    ensures Lev(a[..|a| - 1], b) <= Lev(a, b) + 1
    ensures Lev(a, b) <= Lev(a[..|a| - 1], b) + 1
    decreases |b|
  {
    if b != [] {
      LevDropLast(a, b[..|b| - 1]);
    }
  }

  /** Changing the last character changes the distance by at most one. */
  lemma {:induction false} LevReplaceLast(s: string, x: char, y: char, b: string)
    ensures Lev(s + [x], b) <= Lev(s + [y], b) + 1
    decreases |b|
  {
    assert (s + [x])[..|s|] == s && (s + [y])[..|s|] == s;
    if b != [] {
      LevReplaceLast(s, x, y, b[..|b| - 1]);
    }
  }

  /** Appending the same character to strings one edit apart. */
  predicate Near(a: string, c: string, b: string) { Lev(a, b) <= Lev(c, b) + 1 }

  lemma NearAppend(a: string, c: string, x: char, b: string)
    requires forall k :: 0 <= k <= |b| ==> Near(a, c, b[..k])
    ensures Near(a + [x], c + [x], b)
    decreases |b|
  {
    assert (a + [x])[..|a|] == a && (c + [x])[..|c|] == c;
    if b != [] {
      var b' := b[..|b| - 1];
      forall k | 0 <= k <= |b'| ensures Near(a, c, b'[..k]) {
        assert b'[..k] == b[..k];
        assert Near(a, c, b[..k]);
      }
      NearAppend(a, c, x, b');
      assert b[..|b|] == b;
      assert Near(a, c, b[..|b|]) && Near(a, c, b[..|b| - 1]);
    } else {
      assert Near(a, c, b[..0]);
      assert b[..0] == [];
    }
  }

  lemma ApplyBefore(e: Edit, a: string, x: char)
    requires Fits(e, a)
    ensures Fits(e, a + [x]) && Apply(e, a + [x]) == Apply(e, a) + [x]
  {
    var s := a + [x];
    assert s[..e.at] == a[..e.at] && s[e.at..] == a[e.at..] + [x];
    if !e.Insert? {
      assert s[e.at + 1..] == a[e.at + 1..] + [x];
    }
  }

  /** The prefixes of b, all at once: strings one edit apart are near for every target. */
  lemma {:induction false} OneEditIsNear(e: Edit, a: string, b: string)
    requires Fits(e, a)
    ensures Near(a, Apply(e, a), b)
    decreases |a|
  {
    var c := Apply(e, a);
    if e.Insert? && e.at == |a| {
      assert c == a + [e.ch];
      LevDropLast(c, b);
      assert c[..|c| - 1] == a;
    } else {
      var a', x := a[..|a| - 1], a[|a| - 1];
      assert a == a' + [x];
      if !e.Insert? && e.at == |a| - 1 {
        if e.Delete? {
          assert c == a';
          LevDropLast(a, b);
        } else {
          assert c == a' + [e.ch];
          LevReplaceLast(a', x, e.ch, b);
        }
      } else {
        ApplyBefore(e, a', x);
        forall k | 0 <= k <= |b| ensures Near(a', Apply(e, a'), b[..k]) {
          OneEditIsNear(e, a', b[..k]);
        }
        NearAppend(a', Apply(e, a'), x, b);
      }
    }
  }

  /** No sequence of edits is shorter than the distance. */
  lemma {:induction false} NoFewerEdits(a: string, edits: seq<Edit>, b: string)
    requires Leads(a, edits, b)
    ensures Lev(a, b) <= |edits|
    decreases |edits|
  {
    if edits == [] {
      LevSame(a);
    } else {
      NoFewerEdits(Apply(edits[0], a), edits[1..], b);
      OneEditIsNear(edits[0], a, b);
    }
  }

  lemma {:induction false} LeadsTrans(a: string, first: seq<Edit>, b: string, second: seq<Edit>, c: string)
    requires Leads(a, first, b) && Leads(b, second, c)
    ensures Leads(a, first + second, c)
    decreases |first|
  {
    if first == [] {
      assert first + second == second;
    } else {
      LeadsTrans(Apply(first[0], a), first[1..], b, second, c);
      assert (first + second)[1..] == first[1..] + second;
    }
  }

  /** Edits that work on a string work in front of a suffix. */
  lemma {:induction false} LeadsAppend(a: string, edits: seq<Edit>, b: string, x: char)
    requires Leads(a, edits, b)
    ensures Leads(a + [x], edits, b + [x])
    decreases |edits|
  {
    if edits != [] {
      assert Apply(edits[0], a + [x]) == Apply(edits[0], a) + [x];
      LeadsAppend(Apply(edits[0], a), edits[1..], b, x);
    }
  }

  lemma InsertLast(a: string, edits: seq<Edit>, b: string, y: char)
    requires Leads(a, edits, b)
    ensures Leads(a, edits + [Insert(|b|, y)], b + [y])
  {
    assert Apply(Insert(|b|, y), b) == b + [y];
    LeadsTrans(a, edits, b, [Insert(|b|, y)], b + [y]);
  }

  lemma DeleteLast(a: string, x: char, edits: seq<Edit>, b: string)
    requires Leads(a, edits, b)
    ensures Leads(a + [x], [Delete(|a|)] + edits, b)
  {
    assert Apply(Delete(|a|), a + [x]) == a;
    LeadsTrans(a + [x], [Delete(|a|)], a, edits, b);
  }

  lemma ReplaceLast(a: string, x: char, y: char, edits: seq<Edit>, b: string)
    requires Leads(a, edits, b)
    ensures Leads(a + [x], [Replace(|a|, y)] + edits, b + [y])
  {
    assert Apply(Replace(|a|, y), a + [x]) == a + [y];
    LeadsAppend(a, edits, b, y);
    LeadsTrans(a + [x], [Replace(|a|, y)], a + [y], edits, b + [y]);
  }

  lemma SplitLast(s: string)
    requires s != []
    ensures s == s[..|s| - 1] + [s[|s| - 1]]
  {
  }

  /** The distance is reached: some sequence of exactly that many edits turns a into b. */
  lemma {:induction false} ShortestScript(a: string, b: string) returns (edits: seq<Edit>)
    ensures |edits| == Lev(a, b) && Leads(a, edits, b)
    decreases |a| + |b|
  {
    if a == [] && b == [] {
      edits := [];
    } else if a == [] {
      var rest := ShortestScript(a, b[..|b| - 1]);
      SplitLast(b);
      InsertLast(a, rest, b[..|b| - 1], b[|b| - 1]);
      edits := rest + [Insert(|b| - 1, b[|b| - 1])];
    } else if b == [] {
      var rest := ShortestScript(a[..|a| - 1], b);
      SplitLast(a);
      DeleteLast(a[..|a| - 1], a[|a| - 1], rest, b);
      edits := [Delete(|a| - 1)] + rest;
    } else {
      edits := ShortestScriptBoth(a, b);
    }
  }

  lemma ShortestScriptBoth(a: string, b: string) returns (edits: seq<Edit>)
    requires a != [] && b != []
    ensures |edits| == Lev(a, b) && Leads(a, edits, b)
    decreases |a| + |b|, 0
  {
    var a', x, b', y := a[..|a| - 1], a[|a| - 1], b[..|b| - 1], b[|b| - 1];
    SplitLast(a);
    SplitLast(b);
    var d := Lev(a, b);
    if d == Lev(a', b) + 1 {
      var rest := ShortestScript(a', b);
      DeleteLast(a', x, rest, b);
      edits := [Delete(|a'|)] + rest;
    } else if d == Lev(a, b') + 1 {
      var rest := ShortestScript(a, b');
      InsertLast(a, rest, b', y);
      edits := rest + [Insert(|b'|, y)];
    } else if x == y {
      edits := ShortestScript(a', b');
      LeadsAppend(a', edits, b', y);
    } else {
      var rest := ShortestScript(a', b');
      ReplaceLast(a', x, y, rest, b');
      edits := [Replace(|a'|, y)] + rest;
    }
  }

  /**
   The recursive distance is the least number of single-character insertions, deletions and
   replacements that turn one string into the other.
   */
  lemma LevIsLeast(a: string, b: string)
    ensures exists edits :: Leads(a, edits, b) && |edits| == Lev(a, b)
    ensures forall edits :: Leads(a, edits, b) ==> Lev(a, b) <= |edits|
  {
    var shortest := ShortestScript(a, b);
    forall edits | Leads(a, edits, b) ensures Lev(a, b) <= |edits| {
      NoFewerEdits(a, edits, b);
    }
  }

  /** Only equal strings have distance nothing. */
  lemma {:induction false} LevIsZeroIff(a: string, b: string)
    ensures Lev(a, b) == 0 <==> a == b
  {
    LevSame(a);
    if Lev(a, b) == 0 {
      var script := ShortestScript(a, b);
    }
  }

  /** The triangle inequality: with LevIsZeroIff and LevIsSymmetric, the distance is a metric. */
  lemma {:induction false} LevTriangle(a: string, b: string, c: string)
    ensures Lev(a, c) <= Lev(a, b) + Lev(b, c)
  {
    var first := ShortestScript(a, b);
    var second := ShortestScript(b, c);
    LeadsTrans(a, first, b, second, c);
    NoFewerEdits(a, first + second, c);
  }

  // ---------- suggestName ----------

  function Shared(a: string, b: string): nat {
    if a != [] && b != [] && a[0] == b[0] then 1 + Shared(a[1..], b[1..]) else 0
  }

  method SharedPrefix(a: string, b: string) returns (length: nat)
    ensures length <= |a| && length <= |b| && a[..length] == b[..length]
    ensures length < |a| && length < |b| ==> a[length] != b[length]
    ensures length == Shared(a, b)
  {
    length := 0;
    while length < |a| && length < |b| && a[length] == b[length]
      invariant length <= |a| && length <= |b| && a[..length] == b[..length]
      invariant Shared(a, b) == length + Shared(a[length..], b[length..])
    {
      length := length + 1;
    }
  }

  /** A candidate's distance and shared prefix with the name. */
  datatype Score = Score(distance: nat, prefix: nat)

  function ScoreOf(lower: string -> string, name: string, candidate: string): Score {
    Score(Lev(lower(name), lower(candidate)), Shared(lower(name), lower(candidate)))
  }

  /** At most two edits and fewer than either length, or at least four shared first characters. */
  predicate Eligible(lower: string -> string, name: string, candidate: string) {
    var s := ScoreOf(lower, name, candidate);
    (s.distance <= 2 && s.distance < Min(|lower(name)|, |lower(candidate)|)) || s.prefix >= 4
  }

  method Rate(lower: string -> string, name: string, candidate: string) returns (s: Score, eligible: bool)
    ensures s == ScoreOf(lower, name, candidate)
    ensures eligible == Eligible(lower, name, candidate)
  {
    var other := lower(candidate);
    var distance, _ := Distance(lower(name), other);
    var prefix := SharedPrefix(lower(name), other);
    s := Score(distance, prefix);
    eligible := (distance <= 2 && distance < Min(|lower(name)|, |other|)) || prefix >= 4;
  }

  predicate Better(s: Score, t: Score) {
    s.distance < t.distance || (s.distance == t.distance && s.prefix > t.prefix)
  }

  /**
   The suggestion is the eligible candidate least by distance, then greatest by shared
   prefix, then first in the list; there is none exactly when no candidate is eligible.
   */
  method SuggestName(lower: string -> string, name: string, candidates: seq<string>)
    returns (best: Option<string>, ghost at: nat)
    ensures best == None <==> forall i :: 0 <= i < |candidates| ==> !Eligible(lower, name, candidates[i])
    ensures best.Some? ==> at < |candidates| && candidates[at] == best.value && Eligible(lower, name, candidates[at])
    ensures best.Some? ==> forall i :: 0 <= i < |candidates| && Eligible(lower, name, candidates[i]) ==>
              !Better(ScoreOf(lower, name, candidates[i]), ScoreOf(lower, name, best.value))
    ensures best.Some? ==> forall i :: 0 <= i < at && Eligible(lower, name, candidates[i]) ==>
              Better(ScoreOf(lower, name, best.value), ScoreOf(lower, name, candidates[i]))
  {
    best, at := None, 0;
    var score := Score(0, 0);
    for n := 0 to |candidates|
      invariant best == None <==> forall i :: 0 <= i < n ==> !Eligible(lower, name, candidates[i])
      invariant best.Some? ==> at < n && candidates[at] == best.value && Eligible(lower, name, candidates[at])
      invariant best.Some? ==> score == ScoreOf(lower, name, best.value)
      invariant best.Some? ==> forall i :: 0 <= i < n && Eligible(lower, name, candidates[i]) ==>
                  !Better(ScoreOf(lower, name, candidates[i]), score)
      invariant best.Some? ==> forall i :: 0 <= i < at && Eligible(lower, name, candidates[i]) ==>
                  Better(score, ScoreOf(lower, name, candidates[i]))
    {
      var rated, eligible := Rate(lower, name, candidates[n]);
      if eligible && (best == None || Better(rated, score)) {
        best, at, score := Some(candidates[n]), n, rated;
      }
    }
  }
}
