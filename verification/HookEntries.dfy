/** The two installers that share hooks.json. */
module HookEntries {
  // They are the pstack bridge (scripts/cursor-hooks.ts) and the planner (scripts/cursor-plugin.ts).
  // Their merges are the same code over different markers and file names, so they are modelled
  // once, with the installer as a parameter.

  import opened Base

  datatype Installer = Pstack | Planner

  const HOOK_FILE := "ultrathink-cursor-pstack.js"
  const PLAN_HOOK_FILE := "ultrathink-cursor-plan.js"

  function FileOf(who: Installer): string {
    if who.Pstack? then HOOK_FILE else PLAN_HOOK_FILE
  }

  function Other(who: Installer): Installer {
    if who.Pstack? then Planner else Pstack
  }

  /** One element of the event's array: an object with the fields the installers look at, or anything else. */
  datatype Entry =
    | Object(marker: bool, planMarker: bool, command: Option<string>, rest: nat)
    | NotObject(value: nat)

  datatype Slot = NoList | BadList | List(entries: seq<Entry>)
  datatype Hooks = NoHooks | BadHooks | Hooks(slot: Slot, otherEvents: nat)

  /** The parsed file. */
  datatype Config = Missing | BadTop | Top(hooks: Hooks, otherKeys: nat)

  /** isOwned and isPlanOwned. */
  predicate Owned(who: Installer, e: Entry) {
    e.Object? && ((if who.Pstack? then e.marker else e.planMarker)
                  || (e.command.Some? && Contains(e.command.value, FileOf(who))))
  }

  /** Which entries to look at. */
  datatype Pick = OwnedBy(who: Installer) | NotOwnedBy(who: Installer) | OwnedByNeither

  predicate Picks(p: Pick, e: Entry) {
    match p
    case OwnedBy(who) => Owned(who, e)
    case NotOwnedBy(who) => !Owned(who, e)
    case OwnedByNeither => !Owned(Pstack, e) && !Owned(Planner, e)
  }

  function Filter(p: Pick, list: seq<Entry>): seq<Entry> {
    if list == [] then []
    else if Picks(p, list[0]) then [list[0]] + Filter(p, list[1..])
    else Filter(p, list[1..])
  }

  /** An installer's own entries, and everybody else's, in order. */
  function Mine(who: Installer, list: seq<Entry>): seq<Entry> {
    Filter(OwnedBy(who), list)
  }

  function Foreign(who: Installer, list: seq<Entry>): seq<Entry> {
    Filter(NotOwnedBy(who), list)
  }

  // ---------- The merges ----------

  datatype Merge =
    | Refused                    // the file cannot be shaped safely
    | Keep(present: bool)        // nothing to write: "unchanged" or "not present"
    | Write(next: Config)

  predicate Shapeable(c: Config) {
    !c.BadTop? && (c.Top? ==> !c.hooks.BadHooks? && (c.hooks.Hooks? ==> !c.hooks.slot.BadList?))
  }

  /** The event's entries; a missing file, `hooks` object or event reads as empty. */
  function Entries(c: Config): seq<Entry>
    requires Shapeable(c)
  {
    if c.Top? && c.hooks.Hooks? && c.hooks.slot.List? then c.hooks.slot.entries else []
  }

  /** The value with the event's entries replaced and every other key as it was. */
  function WithEntries(c: Config, list: seq<Entry>): Config
    requires Shapeable(c)
  {
    Top(Hooks(List(list), if c.Top? && c.hooks.Hooks? then c.hooks.otherEvents else 0), if c.Top? then c.otherKeys else 0)
  }

  /** The index of the first owned entry, or the length of the list. */
  function FirstOwned(who: Installer, list: seq<Entry>): (i: nat)
    ensures i <= |list|
    ensures forall k :: 0 <= k < i ==> !Owned(who, list[k])
    ensures i < |list| ==> Owned(who, list[i])
  {
    if list == [] then 0 else if Owned(who, list[0]) then 0 else 1 + FirstOwned(who, list[1..])
  }

  /** Owned entries collapse into `wanted` at the first owned place; without one it is appended. */
  function Upserted(who: Installer, list: seq<Entry>, wanted: Entry): seq<Entry> {
    var first := FirstOwned(who, list);
    if first == |list| then list + [wanted]
    else list[..first] + [wanted] + Foreign(who, list[first + 1..])
  }

  /** A single owned entry that is already the wanted one. */
  predicate Current(who: Installer, list: seq<Entry>, wanted: Entry) {
    var first := FirstOwned(who, list);
    first < |list| && Mine(who, list[first + 1..]) == [] && list[first] == wanted
  }

  function Upsert(who: Installer, c: Config, wanted: Entry): Merge {
    if !Shapeable(c) then Refused
    else if Current(who, Entries(c), wanted) then Keep(true)
    else Write(WithEntries(c, Upserted(who, Entries(c), wanted)))
  }

  function Remove(who: Installer, c: Config): Merge {
    if !Shapeable(c) then Refused
    else if Mine(who, Entries(c)) == [] then Keep(false)
    else Write(WithEntries(c, Foreign(who, Entries(c))))
  }

  datatype Op = Install(who: Installer, wanted: Entry) | Uninstall(who: Installer)

  function MergeOf(op: Op, c: Config): Merge {
    match op
    case Install(who, wanted) => Upsert(who, c, wanted)
    case Uninstall(who) => Remove(who, c)
  }

  /** The file after a merge is committed. */
  function Result(op: Op, c: Config): Config {
    match MergeOf(op, c)
    case Write(next) => next
    case _ => c
  }

  // ---------- Filters ----------

  lemma {:induction false} FilterAppend(p: Pick, a: seq<Entry>, b: seq<Entry>)
    ensures Filter(p, a + b) == Filter(p, a) + Filter(p, b)
  {
    if a == [] {
      assert a + b == b;
    } else {
      FilterAppend(p, a[1..], b);
      assert (a + b)[1..] == a[1..] + b;
    }
  }

  lemma FilterOne(p: Pick, e: Entry)
    ensures Filter(p, [e]) == if Picks(p, e) then [e] else []
  {
  }

  /** The filter of a list split around one entry. */
  lemma FilterAround(p: Pick, a: seq<Entry>, e: Entry, b: seq<Entry>)
    ensures Filter(p, a + [e] + b) == Filter(p, a) + (if Picks(p, e) then [e] else []) + Filter(p, b)
  {
    FilterAppend(p, a + [e], b);
    FilterAppend(p, a, [e]);
    FilterOne(p, e);
  }

  /** Picking among the entries an installer does not own. */
  lemma {:induction false} FilterForeign(p: Pick, who: Installer, list: seq<Entry>)
    ensures (forall e :: Picks(p, e) ==> !Owned(who, e)) ==> Filter(p, Foreign(who, list)) == Filter(p, list)
    ensures Mine(who, Foreign(who, list)) == []
  {
    if list != [] {
      FilterForeign(p, who, list[1..]);
    }
  }

  lemma {:induction false} FilterNone(p: Pick, list: seq<Entry>)
    ensures Filter(p, list) == [] <==> forall i :: 0 <= i < |list| ==> !Picks(p, list[i])
  {
    if list != [] {
      FilterNone(p, list[1..]);
      assert forall i :: 1 <= i < |list| ==> list[i] == list[1..][i - 1];
    }
  }

  // ---------- One operation ----------

  /** A pick that shows nothing of the installer's own. */
  ghost predicate Disjoint(p: Pick, who: Installer) {
    forall e :: Picks(p, e) ==> !Owned(who, e)
  }

  lemma SplitAtFirst(who: Installer, list: seq<Entry>)
    requires FirstOwned(who, list) < |list|
    ensures var first := FirstOwned(who, list);
            list == list[..first] + [list[first]] + list[first + 1..] && Mine(who, list[..first]) == []
  {
    FilterNone(OwnedBy(who), list[..FirstOwned(who, list)]);
  }

  lemma UpsertedEffect(who: Installer, list: seq<Entry>, w: Entry, p: Pick)
    requires Owned(who, w) && Disjoint(p, who)
    ensures Filter(p, Upserted(who, list, w)) == Filter(p, list)
    ensures Mine(who, Upserted(who, list, w)) == [w]
  {
    var first := FirstOwned(who, list);
    assert Picks(OwnedBy(who), w) && !Picks(p, w);
    if first == |list| {
      FilterNone(OwnedBy(who), list);
      FilterAround(p, list, w, []);
      FilterAround(OwnedBy(who), list, w, []);
      assert list + [w] + [] == list + [w];
    } else {
      var head, rest := list[..first], list[first + 1..];
      SplitAtFirst(who, list);
      FilterAround(p, head, list[first], rest);
      FilterAround(p, head, w, Foreign(who, rest));
      FilterAround(OwnedBy(who), head, w, Foreign(who, rest));
      FilterForeign(p, who, rest);
    }
  }

  lemma {:induction false} ForeignOnly(who: Installer, list: seq<Entry>)
    requires Mine(who, list) == []
    ensures Foreign(who, list) == list
  {
    if list != [] {
      ForeignOnly(who, list[1..]);
    }
  }

  /** A current file already is what the upsert would write. */
  lemma CurrentIsUpserted(who: Installer, list: seq<Entry>, w: Entry)
    requires Current(who, list, w)
    ensures Upserted(who, list, w) == list
  {
    SplitAtFirst(who, list);
    ForeignOnly(who, list[FirstOwned(who, list) + 1..]);
  }

  lemma OnlyOneIsCurrent(who: Installer, list: seq<Entry>, w: Entry)
    requires Mine(who, list) == [w]
    ensures Current(who, list, w)
  {
    FilterNone(OwnedBy(who), list);
    var first := FirstOwned(who, list);
    SplitAtFirst(who, list);
    FilterAround(OwnedBy(who), list[..first], list[first], list[first + 1..]);
    assert Mine(who, list) == [list[first]] + Mine(who, list[first + 1..]);
    assert Mine(who, list)[0] == list[first];
  }

  /**
   What one operation leaves: the entries the installer does not own stay with their order,
   and its own are exactly the wanted one, or none.
   */
  lemma OpEffect(op: Op, c: Config, p: Pick)
    requires Shapeable(c) && (op.Install? ==> Owned(op.who, op.wanted)) && Disjoint(p, op.who)
    ensures Shapeable(Result(op, c))
    ensures Filter(p, Entries(Result(op, c))) == Filter(p, Entries(c))
    ensures Mine(op.who, Entries(Result(op, c))) == if op.Install? then [op.wanted] else []
  {
    if op.Install? {
      UpsertedEffect(op.who, Entries(c), op.wanted, p);
      if Current(op.who, Entries(c), op.wanted) {
        CurrentIsUpserted(op.who, Entries(c), op.wanted);
      }
    } else {
      FilterForeign(p, op.who, Entries(c));
    }
  }

  /** The installer's first entry in a list. */
  ghost predicate FirstOwnedAt(who: Installer, list: seq<Entry>, i: nat) {
    i < |list| && Owned(who, list[i]) && forall j :: 0 <= j < i ==> !Owned(who, list[j])
  }

  ghost predicate InPlace(who: Installer, list: seq<Entry>, next: seq<Entry>, wanted: Entry) {
    && ((forall i :: 0 <= i < |list| ==> !Owned(who, list[i])) ==> next == list + [wanted])
    && forall i: nat :: FirstOwnedAt(who, list, i) ==> i < |next| && next[i] == wanted && next[..i] == list[..i]
  }

  lemma UpsertedInPlace(who: Installer, list: seq<Entry>, wanted: Entry)
    ensures InPlace(who, list, Upserted(who, list, wanted), wanted)
  {
    var first := FirstOwned(who, list);
    forall i: nat | FirstOwnedAt(who, list, i) ensures i == first {
      assert !(first < i) && !(i < first);
    }
    hide Owned, Foreign;
  }

  /**
   Where an install writes: over the installer's first entry, with everything before it untouched, or
   at the end when it has none.
   */
  lemma InstallKeepsItsPlace(who: Installer, wanted: Entry, c: Config)
    requires Shapeable(c)
    ensures InPlace(who, Entries(c), Entries(Result(Install(who, wanted), c)), wanted)
  {
    hide InPlace, Current;
    UpsertedInPlace(who, Entries(c), wanted);
    if Current(who, Entries(c), wanted) {
      CurrentIsUpserted(who, Entries(c), wanted);
    }
  }

  /** Every other key of the file and every other event's hooks are as they were, in a file that was there. */
  lemma OtherKeysStay(op: Op, c: Config)
    requires c.Top?
    ensures Result(op, c).Top? && Result(op, c).otherKeys == c.otherKeys
    ensures c.hooks.Hooks? ==> Result(op, c).hooks.Hooks? && Result(op, c).hooks.otherEvents == c.hooks.otherEvents
  {
    hide Shapeable, Current, Mine, Upserted;
  }

  lemma {:induction false} MineIsOwned(who: Installer, list: seq<Entry>)
    ensures Mine(who, list) != [] <==> exists e :: e in list && Owned(who, e)
  {
    if list != [] {
      MineIsOwned(who, list[1..]);
      assert forall e :: e in list <==> e == list[0] || e in list[1..];
    }
  }

  /** Without a file the first install makes one that holds its entry and nothing else. */
  lemma NewFileHoldsTheEntry(who: Installer, wanted: Entry)
    ensures Result(Install(who, wanted), Missing) == Top(Hooks(List([wanted]), 0), 0)
  {
    assert Entries(Missing) + [wanted] == [wanted];
  }

  /**
   Repeating an operation writes nothing, and an operation is refused exactly for a file whose top, hooks
   object or event is of the wrong kind.  One that writes nothing says whether its entry is there.
   */
  lemma RepeatWritesNothing(op: Op, c: Config)
    requires op.Install? ==> Owned(op.who, op.wanted)
    ensures MergeOf(op, c).Refused? <==>
            c.BadTop? || (c.Top? && (c.hooks.BadHooks? || (c.hooks.Hooks? && c.hooks.slot.BadList?)))
    ensures MergeOf(op, c).Keep? ==> (MergeOf(op, c).present <==> exists e :: e in Entries(c) && Owned(op.who, e))
    ensures Shapeable(c) ==> MergeOf(op, Result(op, c)).Keep?
  {
    if Shapeable(c) {
      MineIsOwned(op.who, Entries(c));
      OpEffect(op, c, NotOwnedBy(op.who));
      if op.Install? {
        OnlyOneIsCurrent(op.who, Entries(Result(op, c)), op.wanted);
      }
    }
  }

  // ---------- Sequences of operations by both installers ----------

  /** No entry is owned by both installers. */
  predicate Separate(list: seq<Entry>) {
    forall i :: 0 <= i < |list| ==> !(Owned(Pstack, list[i]) && Owned(Planner, list[i]))
  }

  /** The entry an installer writes is its own and not the other's. */
  predicate Clean(op: Op) {
    op.Install? ==> Owned(op.who, op.wanted) && !Owned(Other(op.who), op.wanted)
  }

  function RunOps(ops: seq<Op>, c: Config): Config {
    if ops == [] then c else RunOps(ops[1..], Result(ops[0], c))
  }

  /** What an installer's own operations alone leave of its entries. */
  function Effect(who: Installer, ops: seq<Op>, mine: seq<Entry>): seq<Entry> {
    if ops == [] then mine
    else Effect(who, ops[1..], if ops[0].who != who then mine else if ops[0].Install? then [ops[0].wanted] else [])
  }

  lemma {:induction false} MineOfSeparate(who: Installer, list: seq<Entry>)
    requires Separate(list)
    ensures Mine(who, Foreign(Other(who), list)) == Mine(who, list)
  {
    if list != [] {
      assert forall i :: 1 <= i < |list| ==> list[i] == list[1..][i - 1];
      MineOfSeparate(who, list[1..]);
    }
  }

  /** An operation with a clean entry on a list without shared entries leaves none. */
  lemma OpKeepsSeparate(op: Op, c: Config)
    requires Shapeable(c) && Separate(Entries(c)) && Clean(op)
    ensures Shapeable(Result(op, c)) && Separate(Entries(Result(op, c)))
  {
    var list, after := Entries(c), Entries(Result(op, c));
    forall i | 0 <= i < |after| ensures !(Owned(Pstack, after[i]) && Owned(Planner, after[i])) {
      if !(op.Install? && after[i] == op.wanted) {
        FromTheList(op, c, after[i]);
      }
    }
  }

  lemma {:induction false} FilterMembers(p: Pick, list: seq<Entry>, e: Entry)
    ensures e in Filter(p, list) <==> e in list && Picks(p, e)
  {
    if list != [] {
      FilterMembers(p, list[1..], e);
      assert list == [list[0]] + list[1..];
    }
  }

  lemma FromTheList(op: Op, c: Config, e: Entry)
    requires Shapeable(c) && e in Entries(Result(op, c))
    ensures e in Entries(c) || (op.Install? && e == op.wanted)
  {
    var list := Entries(c);
    if op.Install? {
      var first := FirstOwned(op.who, list);
      if first < |list| {
        FilterMembers(NotOwnedBy(op.who), list[first + 1..], e);
      }
    } else {
      FilterMembers(NotOwnedBy(op.who), list, e);
    }
  }

  /** One installer's operation on a separate list leaves the other's entries as they are. */
  lemma OtherIsUntouched(op: Op, c: Config)
    requires Shapeable(c) && Separate(Entries(c)) && Clean(op)
    ensures Mine(Other(op.who), Entries(Result(op, c))) == Mine(Other(op.who), Entries(c))
  {
    OpKeepsSeparate(op, c);
    OpEffect(op, c, NotOwnedBy(op.who));
    MineOfSeparate(Other(op.who), Entries(c));
    MineOfSeparate(Other(op.who), Entries(Result(op, c)));
  }

  /**
   Any sequence of installs and removes by both installers: entries of neither keep their
   content and order, and each installer's entries are what its own operations alone leave:
   exactly the entry of its last install, or none after its last remove.
   */
  lemma {:induction false} AnySequence(ops: seq<Op>, c: Config)
    requires Shapeable(c) && Separate(Entries(c)) && forall i :: 0 <= i < |ops| ==> Clean(ops[i])
    ensures Shapeable(RunOps(ops, c))
    ensures Filter(OwnedByNeither, Entries(RunOps(ops, c))) == Filter(OwnedByNeither, Entries(c))
    ensures Mine(Pstack, Entries(RunOps(ops, c))) == Effect(Pstack, ops, Mine(Pstack, Entries(c)))
    ensures Mine(Planner, Entries(RunOps(ops, c))) == Effect(Planner, ops, Mine(Planner, Entries(c)))
  {
    if ops != [] {
      OpKeepsSeparate(ops[0], c);
      OpEffect(ops[0], c, OwnedByNeither);
      OtherIsUntouched(ops[0], c);
      AnySequence(ops[1..], Result(ops[0], c));
    }
  }

  /** A malformed file is never written. */
  lemma {:induction false} MalformedStays(ops: seq<Op>, c: Config)
    requires !Shapeable(c)
    ensures RunOps(ops, c) == c
  {
    if ops != [] {
      MalformedStays(ops[1..], c);
    }
  }

  // ---------- When entries are shared ----------

  /**
   An install or remove by one installer leaves the other's entries as they are exactly when no
   entry is shared.
   */
  lemma OpSparesTheOtherIff(op: Op, c: Config)
    requires Shapeable(c) && Clean(op)
    ensures Mine(Other(op.who), Entries(Result(op, c))) == Mine(Other(op.who), Entries(c)) <==> Separate(Entries(c))
  {
    var list := Entries(c);
    if Separate(list) {
      OtherIsUntouched(op, c);
    } else {
      var i :| 0 <= i < |list| && Owned(Pstack, list[i]) && Owned(Planner, list[i]);
      OpEffect(op, c, NotOwnedBy(op.who));
      var after := Entries(Result(op, c));
      FilterMembers(OwnedBy(Other(op.who)), list, list[i]);
      FilterMembers(OwnedBy(Other(op.who)), after, list[i]);
      FilterMembers(OwnedBy(op.who), after, list[i]);
      assert list[i] !in after;
    }
  }

  // ---------- The entries the installers write ----------

  /** Single quotes inside a quoted path. */
  function Escape(s: string): string {
    if s == [] then [] else (if s[0] == '\'' then "'\\''" else [s[0]]) + Escape(s[1..])
  }

  /** shellQuote */
  function Quote(s: string): string { "'" + Escape(s) + "'" }

  /** hookCommand */
  function HookCommand(node: string, script: string): string { Quote(node) + " " + Quote(script) }

  /** The staged script under an absolute Cursor directory. */
  function Script(who: Installer, cursorDir: string): string {
    (if cursorDir == "/" then [] else cursorDir) + "/hooks/" + FileOf(who)
  }

  function WantedEntry(who: Installer, node: string, cursorDir: string): Entry {
    Object(who.Pstack?, who.Planner?, Some(HookCommand(node, Script(who, cursorDir))), 0)
  }

  lemma Spanned(a: string, ch: char, b: string, name: string, i: nat)
    requires OccursAt(a + [ch] + b, name, i) && i <= |a| < i + |name|
    ensures ch in name
  {
    assert (a + [ch] + b)[i..i + |name|][|a| - i] == ch;
  }

  /** A name does not span a character it does not have. */
  lemma ContainsSplit(a: string, ch: char, b: string, name: string)
    requires name != [] && ch !in name
    ensures Contains(a + [ch] + b, name) <==> Contains(a, name) || Contains(b, name)
  {
    var s := a + [ch] + b;
    if i: nat :| i <= |s| && OccursAt(s, name, i) {
      if i + |name| <= |a| {
        assert a[i..i + |name|] == s[i..i + |name|];
        assert OccursAt(a, name, i);
      } else if |a| < i {
        var j := i - |a| - 1;
        assert b[j..j + |name|] == s[i..i + |name|];
        assert OccursAt(b, name, j);
      } else {
        Spanned(a, ch, b, name, i);
      }
    }
    if i: nat :| i <= |a| && OccursAt(a, name, i) {
      assert s[i..i + |name|] == a[i..i + |name|];
      assert OccursAt(s, name, i);
    }
    if i: nat :| i <= |b| && OccursAt(b, name, i) {
      var j := i + |a| + 1;
      assert s[j..j + |name|] == b[i..i + |name|];
      assert OccursAt(s, name, j);
    }
  }

  lemma {:induction false} EscapeAppend(a: string, b: string)
    ensures Escape(a + b) == Escape(a) + Escape(b)
  {
    if a == [] {
      assert a + b == b;
    } else {
      EscapeAppend(a[1..], b);
      assert (a + b)[1..] == a[1..] + b;
      Regroup(if a[0] == '\'' then "'\\''" else [a[0]], Escape(a[1..]), Escape(b));
    }
  }

  lemma {:induction false} NothingToEscape(s: string)
    requires '\'' !in s
    ensures Escape(s) == s
  {
    if s != [] {
      NothingToEscape(s[1..]);
    }
  }

  lemma AcrossAQuote(a: string, b: string, name: string)
    requires name != [] && '\'' !in name && '\\' !in name
    ensures Contains(a + ("'\\''" + b), name) <==> Contains(a, name) || Contains(b, name)
  {
    assert a + ("'\\''" + b) == a + ['\''] + ("\\''" + b);
    ContainsSplit(a, '\'', "\\''" + b, name);
    assert "\\''" + b == [] + ['\\'] + ("''" + b);
    ContainsSplit([], '\\', "''" + b, name);
    assert "''" + b == [] + ['\''] + ("'" + b);
    ContainsSplit([], '\'', "'" + b, name);
    assert "'" + b == [] + ['\''] + b;
    ContainsSplit([], '\'', b, name);
    NothingContains(name);
  }

  /** Quoting hides no file name and makes none up. */
  lemma {:induction false} EscapeKeepsNames(s: string, name: string)
    requires name != [] && '\'' !in name && '\\' !in name
    ensures Contains(Escape(s), name) <==> Contains(s, name)
    decreases |s|
  {
    if i :| 0 <= i < |s| && s[i] == '\'' {
      var a, b := s[..i], s[i + 1..];
      EscapeKeepsNames(a, name);
      EscapeKeepsNames(b, name);
      assert s == a + ("'" + b) == a + ['\''] + b;
      ContainsSplit(a, '\'', b, name);
      EscapeAppend(a, "'" + b);
      assert ("'" + b)[1..] == b;
      assert Escape("'" + b) == "'\\''" + Escape(b);
      AcrossAQuote(Escape(a), Escape(b), name);
    } else {
      NothingToEscape(s);
    }
  }

  lemma NothingContains(name: string)
    requires name != []
    ensures !Contains([], name)
  {
  }

  lemma QuoteKeepsNames(s: string, name: string)
    requires name != [] && '\'' !in name && '\\' !in name
    ensures Contains(Quote(s), name) <==> Contains(s, name)
  {
    EscapeKeepsNames(s, name);
    NothingContains(name);
    assert Quote(s) == [] + ['\''] + (Escape(s) + ['\''] + []);
    ContainsSplit([], '\'', Escape(s) + ['\''] + [], name);
    ContainsSplit(Escape(s), '\'', [], name);
  }

  lemma PstackChars(ch: char)
    requires ch in HOOK_FILE
    ensures 'a' <= ch <= 'z' || ch == '-' || ch == '.'
  {
  }

  lemma PlanChars(ch: char)
    requires ch in PLAN_HOOK_FILE
    ensures 'a' <= ch <= 'z' || ch == '-' || ch == '.'
  {
  }

  /** The file names have no separator in them. */
  lemma FileNameChars(who: Installer)
    ensures var name := FileOf(who); '\'' !in name && '\\' !in name && ' ' !in name && '/' !in name && name != []
  {
    forall ch | ch in FileOf(who) ensures 'a' <= ch <= 'z' || ch == '-' || ch == '.' {
      if who.Pstack? {
        PstackChars(ch);
      } else {
        PlanChars(ch);
      }
    }
  }

  lemma TooShort(text: string, name: string)
    requires |text| < |name|
    ensures !Contains(text, name)
  {
  }

  lemma PlanIsNotInPstack()
    ensures !Contains(HOOK_FILE, PLAN_HOOK_FILE)
  {
    hide OccursAt;
    NotAt(HOOK_FILE, PLAN_HOOK_FILE, 0, 19);
    NotAt(HOOK_FILE, PLAN_HOOK_FILE, 1, 0);
    NotAt(HOOK_FILE, PLAN_HOOK_FILE, 2, 0);
    forall i: nat | i > 2 ensures !OccursAt(HOOK_FILE, PLAN_HOOK_FILE, i) {
      TooLate(HOOK_FILE, PLAN_HOOK_FILE, i);
    }
  }

  lemma TooLate(text: string, name: string, i: nat)
    requires i + |name| > |text|
    ensures !OccursAt(text, name, i)
  {
  }

  /** Neither file name is part of the other's, or of the directory between. */
  lemma FileNamesAreApart(who: Installer)
    ensures !Contains(FileOf(Other(who)), FileOf(who)) && !Contains("hooks", FileOf(who)) && !Contains("/", FileOf(who))
  {
    hide Contains;
    PlanIsNotInPstack();
    TooShort(PLAN_HOOK_FILE, HOOK_FILE);
    TooShort("hooks", FileOf(who));
    TooShort("/", FileOf(who));
  }

  lemma NotAt(text: string, name: string, i: nat, k: nat)
    requires i + |name| <= |text| && k < |name| && text[i + k] != name[k]
    ensures !OccursAt(text, name, i)
  {
    assert text[i..i + |name|][k] == text[i + k];
  }

  lemma CommandNamesIff(who: Installer, node: string, cursorDir: string)
    ensures var name := FileOf(Other(who));
            Contains(HookCommand(node, Script(who, cursorDir)), name) <==> Contains(node, name) || Contains(cursorDir, name)
  {
    var name := FileOf(Other(who));
    var dir, script := if cursorDir == "/" then [] else cursorDir, Script(who, cursorDir);
    hide Contains, Escape;
    FileNameChars(Other(who));
    FileNamesAreApart(Other(who));
    QuoteKeepsNames(node, name);
    QuoteKeepsNames(script, name);
    assert HookCommand(node, script) == Quote(node) + [' '] + Quote(script);
    ContainsSplit(Quote(node), ' ', Quote(script), name);
    assert script == dir + ['/'] + ("hooks" + ['/'] + FileOf(who));
    ContainsSplit(dir, '/', "hooks" + ['/'] + FileOf(who), name);
    ContainsSplit("hooks", '/', FileOf(who), name);
    NothingContains(name);
  }

  /** An installed entry is its installer's, and clean exactly when neither path names the other's file. */
  lemma WantedIsCleanIff(who: Installer, node: string, cursorDir: string)
    ensures var w, name := WantedEntry(who, node, cursorDir), FileOf(Other(who));
            Owned(who, w) && (Clean(Install(who, w)) <==> !Contains(node, name) && !Contains(cursorDir, name))
  {
    CommandNamesIff(who, node, cursorDir);
  }

  /** The file after one installer's install and then the other's, for one Cursor directory, starting from no file. */
  function BothInstalled(first: Installer, node: string, cursorDir: string): Config {
    var alone := Result(Install(first, WantedEntry(first, node, cursorDir)), Missing);
    Result(Install(Other(first), WantedEntry(Other(first), node, cursorDir)), alone)
  }

  /** The second install keeps the first one's entry exactly when neither path names the second one's file. */
  lemma SecondInstallKeepsTheFirstIff(first: Installer, node: string, cursorDir: string)
    ensures var name := FileOf(Other(first));
            WantedEntry(first, node, cursorDir) in Entries(BothInstalled(first, node, cursorDir)) <==>
            !Contains(node, name) && !Contains(cursorDir, name)
  {
    var second := Other(first);
    var mine, theirs := WantedEntry(first, node, cursorDir), WantedEntry(second, node, cursorDir);
    var alone := Result(Install(first, mine), Missing);
    var both := Entries(Result(Install(second, theirs), alone));
    CommandNamesIff(first, node, cursorDir);
    OpEffect(Install(first, mine), Missing, NotOwnedBy(first));
    OpEffect(Install(second, theirs), alone, NotOwnedBy(second));
    FilterMembers(OwnedBy(first), Entries(alone), mine);
    FilterMembers(NotOwnedBy(second), Entries(alone), mine);
    FilterMembers(NotOwnedBy(second), both, mine);
    FilterMembers(OwnedBy(second), both, mine);
  }

  /** A Cursor directory named after the planner's hook file: the planner's install takes the pstack entry away. */
  lemma SharedNameLosesAnEntry(node: string)
    ensures var cursorDir := "/home/u/" + PLAN_HOOK_FILE;
            WantedEntry(Pstack, node, cursorDir) !in Entries(BothInstalled(Pstack, node, cursorDir))
  {
    var cursorDir := "/home/u/" + PLAN_HOOK_FILE;
    assert OccursAt(cursorDir, PLAN_HOOK_FILE, 8);
    SecondInstallKeepsTheFirstIff(Pstack, node, cursorDir);
  }
}
