/** What every run of LastMachine keeps: the pid lock of last.json. */
module LastLock {
  import opened Base
  import opened LastMachine
  import G = Guard

  /** Bodies of live clients never overlap, whatever the delays. */
  lemma BodiesNeverOverlap(steps: seq<Step>, a: nat, b: nat)
    requires Legal(Initial(), steps)
    requires var s := After(Initial(), steps);
             s.Live(a) && s.Live(b) && s.PcOf(a).Body? && s.PcOf(b).Body?
    ensures a == b
  {
    InitialInv();
    RunKeepsInv(Initial(), steps);
    var s := After(Initial(), steps);
    assert ClientOk(s, a) && ClientOk(s, b);
  }

  /** Throughout its body a live client owns the lock: the name refers to its inode and names its pid. */
  lemma BodyOwnsTheLock(steps: seq<Step>, c: nat)
    requires Legal(Initial(), steps)
    requires After(Initial(), steps).Live(c) && After(Initial(), steps).PcOf(c).Body?
    ensures var s := After(Initial(), steps);
            var ino := s.PcOf(c).ino;
            && s.path == Some(ino) && ino in s.files && ino in s.creators && s.creators[ino] == c
            && ParsePid(s.files[ino].text) == Some(s.clients[c].pid)
  {
    InitialInv();
    RunKeepsInv(Initial(), steps);
    var s := After(Initial(), steps);
    assert ClientOk(s, c);
    DigitsNameThePid(s.clients[c].pid);
  }

  /**
   The lock name leaves an inode only by the creator's own unlink, or by a reclaim of an
   inode that protects nobody.  A successor's inode is never the creator's.
   */
  lemma OnlyUnheldIsUnlinked(steps: seq<Step>, step: Step)
    requires Legal(Initial(), steps) && Enabled(After(Initial(), steps), step)
    requires var s := After(Initial(), steps); s.path.Some? && Apply(s, step).path != s.path
    ensures var s := After(Initial(), steps);
            var ino := s.path.value;
            && ino in s.creators && ino in s.files
            && (|| (step.UnlinkOwn? && s.creators[ino] == step.c)
                || (step.UnlinkUndo? && s.creators[ino] == step.c)
                || (step.UnlinkOld? && Unheld(s, s.files[ino].text)))
  {
    InitialInv();
    RunKeepsInv(Initial(), steps);
    var s := After(Initial(), steps);
    assert IsLockStep(step);
    assert ClientOk(s, step.c);
  }

  // ---------- The completion marker ----------

  /** The inode carries the completion marker. */
  predicate Marked(s: State, ino: nat) {
    ino in s.files && s.files[ino].text != [] && s.files[ino].text[0] == '!'
  }

  /** A client past its marker: it never writes to its inode again. */
  predicate Finished(pc: Pc) {
    pc.Pausing? || pc.Cleaning? || pc.Same? || pc.Cleaned? || pc.Ended?
  }

  /** The inode is marked, and its creator is past the marker. */
  ghost predicate LeftOver(s: State, h: nat, ino: nat) {
    Marked(s, ino) && ino in s.creators && s.creators[ino] == h && h in s.clients && Finished(s.PcOf(h))
  }

  lemma StepKeepsLeftOver(s: State, step: Step, h: nat, ino: nat)
    requires Inv(s) && Enabled(s, step) && LeftOver(s, h, ino)
    ensures LeftOver(Apply(s, step), h, ino)
  {
    hide Value, G.Apply, G.Enabled, G.Inv;
    assert ClientOk(s, h);
    if IsClientStep(step) {
      assert ClientOk(s, step.c);
    }
  }

  lemma {:induction false} LeftOverStays(s: State, steps: seq<Step>, h: nat, ino: nat)
    requires Inv(s) && Legal(s, steps) && LeftOver(s, h, ino)
    ensures Inv(After(s, steps)) && LeftOver(After(s, steps), h, ino)
    decreases |steps|
  {
    if steps != [] {
      StepKeepsInv(s, steps[0]);
      StepKeepsLeftOver(s, steps[0], h, ino);
      LeftOverStays(Apply(s, steps[0]), steps[1..], h, ino);
    }
  }

  /** A holder's marker stays on its inode in every run from then on. */
  lemma MarkerStays(pre: seq<Step>, h: nat, post: seq<Step>)
    requires Legal(Initial(), pre) && Enabled(After(Initial(), pre), Mark(h))
    requires Legal(Apply(After(Initial(), pre), Mark(h)), post)
    ensures var s := After(Initial(), pre);
            LeftOver(After(Apply(s, Mark(h)), post), h, s.PcOf(h).ino)
  {
    InitialInv();
    RunKeepsInv(Initial(), pre);
    var s := After(Initial(), pre);
    assert ClientOk(s, h);
    StepKeepsInv(s, Mark(h));
    MarkedNamesNobody(s.files[s.PcOf(h).ino].text);
    LeftOverStays(Apply(s, Mark(h)), post, h, s.PcOf(h).ino);
  }

  /** No step of the run is client c's own. */
  predicate Without(steps: seq<Step>, c: nat) {
    forall i :: 0 <= i < |steps| && IsClientStep(steps[i]) ==> steps[i].c != c
  }

  lemma {:induction false} OthersLeaveItsPlace(s: State, steps: seq<Step>, c: nat)
    requires Legal(s, steps) && Without(steps, c) && c in s.clients
    ensures c in After(s, steps).clients && After(s, steps).PcOf(c) == s.PcOf(c)
    decreases |steps|
  {
    if steps != [] {
      assert IsClientStep(steps[0]) ==> steps[0].c != c;
      OthersLeaveItsPlace(Apply(s, steps[0]), steps[1..], c);
    }
  }

  /**
   A finished holder's leftover lock is never judged held: whoever reads it at any time after the
   marker, whatever happens before it judges what it read, finds it free.
   */
  lemma MarkedIsNeverHeld(pre: seq<Step>, h: nat, mid: seq<Step>, d: nat, post: seq<Step>)
    requires Legal(Initial(), pre) && Enabled(After(Initial(), pre), Mark(h))
    requires Legal(Apply(After(Initial(), pre), Mark(h)), mid)
    requires var s := After(Initial(), pre);
             var u := After(Apply(s, Mark(h)), mid);
             && Enabled(u, ReadLock(d)) && u.path == Some(s.PcOf(h).ino)
             && Legal(Apply(u, ReadLock(d)), post) && Without(post, d)
             && Enabled(After(Apply(u, ReadLock(d)), post), JudgeText(d))
    ensures var u := After(Apply(After(Initial(), pre), Mark(h)), mid);
            var w := After(Apply(u, ReadLock(d)), post);
            Apply(w, JudgeText(d)).PcOf(d).Free?
  {
    var s := After(Initial(), pre);
    var u := After(Apply(s, Mark(h)), mid);
    MarkerStays(pre, h, mid);
    var v := Apply(u, ReadLock(d));
    assert v.PcOf(d) == Read(u.PcOf(d).o, u.files[s.PcOf(h).ino].text);
    OthersLeaveItsPlace(v, post, d);
    assert ParsePid(v.PcOf(d).text) == None by {
      assert !IsDigit(v.PcOf(d).text[0]);
    }
  }

  /** And such a read always comes to that judgement: a marked text is not empty. */
  lemma MarkedIsRead(pre: seq<Step>, h: nat, mid: seq<Step>, d: nat)
    requires Legal(Initial(), pre) && Enabled(After(Initial(), pre), Mark(h))
    requires Legal(Apply(After(Initial(), pre), Mark(h)), mid)
    requires var s := After(Initial(), pre);
             var u := After(Apply(s, Mark(h)), mid);
             Enabled(u, ReadLock(d)) && u.path == Some(s.PcOf(h).ino)
    ensures var u := After(Apply(After(Initial(), pre), Mark(h)), mid);
            Apply(u, ReadLock(d)).PcOf(d).Read?
  {
    MarkerStays(pre, h, mid);
  }

  /** What was read before the marker may still be judged held after it, for as long as the process lives. */
  lemma EarlierReadMayBeHeld(pre: seq<Step>, h: nat, d: nat)
    requires Legal(Initial(), pre) && Enabled(After(Initial(), pre), Mark(h))
    requires var s := After(Initial(), pre);
             && Enabled(s, JudgeText(d)) && s.PcOf(d).text == Digits(s.clients[h].pid)
    ensures var t := Apply(After(Initial(), pre), Mark(h));
            Enabled(t, JudgeText(d)) && Apply(t, JudgeText(d)).PcOf(d).Missed?
  {
    InitialInv();
    RunKeepsInv(Initial(), pre);
    var s := After(Initial(), pre);
    assert ClientOk(s, h);
    DigitsNameThePid(s.clients[h].pid);
  }

  /** While its creator is live and has not finished, a complete lock is judged held. */
  lemma LiveHolderIsHeld(steps: seq<Step>, c: nat, holder: nat)
    requires Legal(Initial(), steps) && Enabled(After(Initial(), steps), JudgeText(c))
    requires After(Initial(), steps).Live(holder) && Holds(After(Initial(), steps).PcOf(holder))
    ensures Apply(After(Initial(), steps), JudgeText(c)).PcOf(c).Missed?
  {
    InitialInv();
    RunKeepsInv(Initial(), steps);
    var s := After(Initial(), steps);
    assert ClientOk(s, c) && ClientOk(s, holder);
    MarkedNamesNobody(s.PcOf(c).text);
    DigitsNameThePid(s.clients[holder].pid);
  }
}
