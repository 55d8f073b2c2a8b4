/**
 Stage detection of src/cursor/pstack.ts: quoted examples are blanked before the commands of
 a prompt are read.  The prompt is the one already lower-cased, and a command counts only at the
 start of a line, with nothing but blanks or blanked examples before it.
 */
module QuoteScanner {
  import opened Base
  import S = StageBlock

  const FENCE := "```"
  const COMMAND := "/gsd-"

  predicate IsBreak(ch: char) { ch == '\r' || ch == '\n' }

  /** A single quote opens only at the start, after white space or after an opening mark. */
  predicate IsOpeningQuote(text: string, i: nat)
    requires i < |text|
  {
    && (text[i] == '\'' || text[i] == '\U{2018}')
    && (i == 0 || IsSpace(text[i - 1]) || text[i - 1] in ['(', '[', '{', '\"', '-'])
  }

  predicate IsInchMark(text: string, i: nat)
    requires i < |text|
  {
    text[i] == '\"' && i > 0 && IsDigit(text[i - 1])
  }

  predicate IsOpeningDoubleQuote(text: string, i: nat)
    requires i < |text|
  {
    text[i] == '\U{201C}' || (text[i] == '\"' && !IsInchMark(text, i))
  }

  function Closer(opener: char): char {
    if opener == '\U{201C}' then '\U{201D}' else if opener == '\U{2018}' then '\U{2019}' else opener
  }

  predicate Opens(text: string, i: nat)
    requires i < |text|
  {
    text[i] == '`' || IsOpeningDoubleQuote(text, i) || IsOpeningQuote(text, i)
  }

  predicate IsTokenChar(ch: char) { 'a' <= ch <= 'z' || IsDigit(ch) || ch == '-' }

  predicate MentionAt(span: string, i: nat) {
    && i + |COMMAND| < |span|
    && (forall k :: 0 <= k < |COMMAND| ==> LowerAscii(span[i + k]) == COMMAND[k])
    && IsTokenChar(LowerAscii(span[i + |COMMAND|]))
  }

  /** Whether the span names a slash command, in either case. */
  predicate MentionsCommand(span: string) {
    exists i: nat :: i < |span| && MentionAt(span, i)
  }

  // ---------- What the text is made of ----------

  /** A stretch of the prompt, and whether it is blanked. */
  datatype Piece = Piece(start: nat, end: nat, blank: bool)

  /** A fence runs to the end of the next fence mark, or to the end of the prompt. */
  predicate IsFence(text: string, p: Piece) {
    && p.blank && OccursAt(text, FENCE, p.start)
    && if p.end == |text| && FreeOf(text, FENCE, p.start + 3, |text|) then true
       else p.start + 6 <= p.end <= |text| && OccursAt(text, FENCE, p.end - 3) && FreeOf(text, FENCE, p.start + 3, p.end - 3)
  }

  predicate NoCloser(text: string, i: nat, upto: nat)
    requires i < |text| && upto <= |text|
  {
    forall j :: i < j < upto ==> text[j] != Closer(text[i])
  }

  /** A closed quote or backtick span; a quote is blanked only when it mentions a command. */
  predicate IsQuoted(text: string, p: Piece)
    requires p.start < |text|
  {
    && Opens(text, p.start) && p.start + 2 <= p.end <= |text|
    && text[p.end - 1] == Closer(text[p.start]) && NoCloser(text, p.start, p.end - 1)
    && p.blank == (text[p.start] == '`' || MentionsCommand(text[p.start..p.end]))
  }

  /** One character outside every fence and quote. */
  predicate IsPlain(text: string, p: Piece)
    requires p.start < |text|
  {
    p.end == p.start + 1 && !p.blank && (!Opens(text, p.start) || NoCloser(text, p.start, |text|))
  }

  predicate IsPiece(text: string, p: Piece) {
    && p.start < p.end <= |text|
    && if OccursAt(text, FENCE, p.start) then IsFence(text, p) else IsQuoted(text, p) || IsPlain(text, p)
  }

  /** The pieces fill the text from its start, without gap or overlap. */
  predicate Covers(text: string, pieces: seq<Piece>, upto: nat) {
    && (forall k :: 0 <= k < |pieces| ==> IsPiece(text, pieces[k]))
    && (forall k :: 0 < k < |pieces| ==> pieces[k].start == pieces[k - 1].end)
    && if pieces == [] then upto == 0 else pieces[0].start == 0 && pieces[|pieces| - 1].end == upto
  }

  lemma FenceIsDetermined(text: string, p: Piece, q: Piece)
    requires p.start == q.start && p.end <= |text| && q.end <= |text| && IsFence(text, p) && IsFence(text, q)
    ensures p == q
  {
  }

  lemma PieceIsDetermined(text: string, p: Piece, q: Piece)
    requires p.start == q.start && IsPiece(text, p) && IsPiece(text, q)
    ensures p == q
  {
    hide OccursAt, MentionsCommand, IsFence;
    if OccursAt(text, FENCE, p.start) {
      FenceIsDetermined(text, p, q);
    }
  }

  /** There is only one way to read a prompt. */
  lemma OneReading(text: string, a: seq<Piece>, b: seq<Piece>)
    requires Covers(text, a, |text|) && Covers(text, b, |text|)
    ensures a == b
  {
    hide IsPiece;
    var k := 0;
    while k < |a| && k < |b|
      invariant k <= |a| && k <= |b| && (forall j :: 0 <= j < k ==> a[j] == b[j])
    {
      assert k > 0 ==> a[k - 1] == b[k - 1];
      PieceIsDetermined(text, a[k], b[k]);
      k := k + 1;
    }
    assert k > 0 ==> a[k - 1] == b[k - 1];
    NotLast(text, a);
    NotLast(text, b);
  }

  /** Only the last piece reaches the end. */
  lemma NotLast(text: string, pieces: seq<Piece>)
    requires Covers(text, pieces, |text|)
    ensures forall k :: 0 <= k < |pieces| - 1 ==> pieces[k].end < |text|
    ensures pieces == [] <==> text == []
  {
    forall k | 0 <= k < |pieces| - 1 ensures pieces[k].end < |text| {
      assert IsPiece(text, pieces[k + 1]);
    }
  }

  // ---------- Blanking ----------

  function Blank(span: string): (r: string)
    ensures |r| == |span| && forall k :: 0 <= k < |span| ==> r[k] == if IsBreak(span[k]) then span[k] else ' '
  {
    seq(|span|, k requires 0 <= k < |span| => if IsBreak(span[k]) then span[k] else ' ')
  }

  /** What the pieces up to a position come out as. */
  predicate Shows(text: string, pieces: seq<Piece>, out: string) {
    && |out| <= |text|
    && forall k, j :: 0 <= k < |pieces| && pieces[k].start <= j < pieces[k].end && j < |out| ==>
         out[j] == if pieces[k].blank && !IsBreak(text[j]) then ' ' else text[j]
  }

  lemma {:induction false} PiecesEndBy(text: string, pieces: seq<Piece>, upto: nat)
    requires Covers(text, pieces, upto)
    ensures forall k :: 0 <= k < |pieces| ==> pieces[k].end <= upto
    decreases |pieces|
  {
    if |pieces| > 1 {
      var before := pieces[..|pieces| - 1];
      PiecesEndBy(text, before, before[|before| - 1].end);
      assert forall k :: 0 <= k < |before| ==> pieces[k] == before[k];
    }
  }

  function Shown(text: string, p: Piece): string
    requires p.start <= p.end <= |text|
  {
    if p.blank then Blank(text[p.start..p.end]) else text[p.start..p.end]
  }

  lemma ShowMore(text: string, pieces: seq<Piece>, out: string, p: Piece)
    requires Shows(text, pieces, out) && p.start == |out| && p.start < p.end <= |text|
    requires forall k :: 0 <= k < |pieces| ==> pieces[k].end <= |out|
    ensures |out + Shown(text, p)| == p.end && Shows(text, pieces + [p], out + Shown(text, p))
  {
    var longer, more := out + Shown(text, p), pieces + [p];
    forall k, j | 0 <= k < |more| && more[k].start <= j < more[k].end && j < |longer|
      ensures longer[j] == if more[k].blank && !IsBreak(text[j]) then ' ' else text[j]
    {
      if k < |pieces| {
        assert more[k] == pieces[k] && longer[j] == out[j];
      } else {
        assert longer[j] == Shown(text, p)[j - p.start] && text[p.start..p.end][j - p.start] == text[j];
      }
    }
  }

  lemma NextPiece(text: string, pieces: seq<Piece>, out: string, p: Piece)
    requires Covers(text, pieces, |out|) && Shows(text, pieces, out) && IsPiece(text, p) && p.start == |out|
    ensures |out + Shown(text, p)| == p.end
    ensures Covers(text, pieces + [p], p.end) && Shows(text, pieces + [p], out + Shown(text, p))
  {
    PiecesEndBy(text, pieces, |out|);
    ShowMore(text, pieces, out, p);
  }

  lemma FencePiece(text: string, i: nat, end: Option<nat>)
    requires OccursAt(text, FENCE, i)
    requires match end
             case Some(j) => i + 3 <= j && OccursAt(text, FENCE, j) && FreeOf(text, FENCE, i + 3, j)
             case None => FreeOf(text, FENCE, i + 3, |text|)
    ensures IsPiece(text, Piece(i, if end.None? then |text| else end.value + 3, true))
  {
  }

  lemma QuotePiece(text: string, i: nat, end: nat)
    requires i < end && i < |text| && !OccursAt(text, FENCE, i) && Opens(text, i)
    requires OccursAt(text, [Closer(text[i])], end) && FreeOf(text, [Closer(text[i])], i + 1, end)
    ensures end < |text| && IsPiece(text, Piece(i, end + 1, text[i] == '`' || MentionsCommand(text[i..end + 1])))
  {
    FirstOccurrence(text, i, end);
  }

  lemma PlainPiece(text: string, i: nat)
    requires i < |text| && !OccursAt(text, FENCE, i)
    requires Opens(text, i) ==> FreeOf(text, [Closer(text[i])], i + 1, |text|)
    ensures IsPiece(text, Piece(i, i + 1, false))
  {
    NoOccurrenceNoCloser(text, i);
  }

  /** One turn of the loop: the stretch that starts here. */
  method NextStretch(prompt: string, i: nat) returns (p: Piece)
    requires i < |prompt|
    ensures p.start == i && IsPiece(prompt, p)
  {
    if OccursAt(prompt, FENCE, i) {
      var end := IndexOf(prompt, FENCE, i + 3);
      FencePiece(prompt, i, end);
      return Piece(i, if end.None? then |prompt| else end.value + 3, true);
    }
    if Opens(prompt, i) {
      var end := IndexOf(prompt, [Closer(prompt[i])], i + 1);
      if end.Some? {
        QuotePiece(prompt, i, end.value);
        return Piece(i, end.value + 1, prompt[i] == '`' || MentionsCommand(prompt[i..end.value + 1]));
      }
    }
    PlainPiece(prompt, i);
    p := Piece(i, i + 1, false);
  }

  /** withoutQuotedCommands */
  method WithoutQuotedCommands(prompt: string) returns (out: string, ghost pieces: seq<Piece>)
    ensures |out| == |prompt| && Covers(prompt, pieces, |prompt|) && Shows(prompt, pieces, out)
  {
    out, pieces := "", [];
    var i := 0;
    while i < |prompt|
      invariant i <= |prompt| && |out| == i && Covers(prompt, pieces, i) && Shows(prompt, pieces, out)
    {
      var p := NextStretch(prompt, i);
      NextPiece(prompt, pieces, out, p);
      out, pieces, i := out + Shown(prompt, p), pieces + [p], p.end;
    }
  }

  lemma NoOccurrenceNoCloser(text: string, i: nat)
    requires i < |text|
    ensures FreeOf(text, [Closer(text[i])], i + 1, |text|) ==> NoCloser(text, i, |text|)
  {
    forall j | i < j < |text| && text[j] == Closer(text[i]) ensures OccursAt(text, [Closer(text[i])], j) {
    }
  }

  lemma FirstOccurrence(text: string, i: nat, end: nat)
    requires i < |text| && i < end && OccursAt(text, [Closer(text[i])], end) && FreeOf(text, [Closer(text[i])], i + 1, end)
    ensures end < |text| && text[end] == Closer(text[i]) && NoCloser(text, i, end)
  {
    assert text[end..end + 1][0] == text[end];
    forall j | i < j < end && text[j] == Closer(text[i]) ensures OccursAt(text, [Closer(text[i])], j) {
    }
  }

  /** Every position lies in a piece. */
  lemma {:induction false} PieceAt(text: string, pieces: seq<Piece>, upto: nat, j: nat) returns (k: nat)
    requires Covers(text, pieces, upto) && j < upto
    ensures k < |pieces| && pieces[k].start <= j < pieces[k].end
    decreases |pieces|
  {
    k := |pieces| - 1;
    if j < pieces[k].start {
      var before := pieces[..k];
      k := PieceAt(text, before, before[|before| - 1].end, j);
    }
  }

  ghost predicate Blanked(pieces: seq<Piece>, j: nat) {
    exists k :: 0 <= k < |pieces| && pieces[k].blank && pieces[k].start <= j < pieces[k].end
  }

  /** A character is only ever changed to a space, inside a blanked piece, and never a line break. */
  lemma OnlyBlanks(text: string, pieces: seq<Piece>, out: string, j: nat)
    requires |out| == |text| && Covers(text, pieces, |text|) && Shows(text, pieces, out) && j < |text|
    ensures out[j] == if Blanked(pieces, j) && !IsBreak(text[j]) then ' ' else text[j]
  {
    if !Blanked(pieces, j) {
      var k := PieceAt(text, pieces, |text|, j);
    }
  }

  // ---------- Commands ----------

  predicate IsBlank(ch: char) { ch == ' ' || ch == '\t' }

  predicate LineStart(text: string, line: nat) {
    line == 0 || (line <= |text| && IsBreak(text[line - 1]))
  }

  /** A whole command token: "/gsd-" and at least one more token character, as long as it goes. */
  predicate IsToken(text: string, at: nat, end: nat) {
    && at + |COMMAND| < end <= |text| && text[at..at + |COMMAND|] == COMMAND
    && (forall k :: at + |COMMAND| <= k < end ==> IsTokenChar(text[k]))
    && (end < |text| ==> !IsTokenChar(text[end]))
  }

  /** A command at the start of a line: only blanks stand before it. */
  predicate Invoked(text: string, line: nat, at: nat, end: nat) {
    && line <= at && IsToken(text, at, end) && LineStart(text, line)
    && (forall k :: line <= k < at ==> IsBlank(text[k]))
  }

  datatype Invocation = Invocation(line: nat, at: nat, end: nat)

  function SkipBlanks(text: string, i: nat): (r: nat)
    requires i <= |text|
    ensures i <= r <= |text| && (forall k :: i <= k < r ==> IsBlank(text[k])) && (r < |text| ==> !IsBlank(text[r]))
    decreases |text| - i
  {
    if i < |text| && IsBlank(text[i]) then SkipBlanks(text, i + 1) else i
  }

  function SkipToken(text: string, i: nat): (r: nat)
    requires i <= |text|
    ensures i <= r <= |text| && (forall k :: i <= k < r ==> IsTokenChar(text[k])) && (r < |text| ==> !IsTokenChar(text[r]))
    decreases |text| - i
  {
    if i < |text| && IsTokenChar(text[i]) then SkipToken(text, i + 1) else i
  }

  /** The regular expression, once its line start is fixed. */
  function MatchLine(text: string, line: nat): (r: Option<Invocation>)
    requires line <= |text| && LineStart(text, line)
    ensures match r
            case Some(m) => m.line == line && Invoked(text, line, m.at, m.end)
            case None => forall at: nat, end: nat :: !Invoked(text, line, at, end)
  {
    var at := SkipBlanks(text, line);
    var end := if OccursAt(text, COMMAND, at) then SkipToken(text, at + |COMMAND|) else at;
    if end > at + |COMMAND| then Some(Invocation(line, at, end))
    else
      assert forall a: nat, e: nat :: Invoked(text, line, a, e) ==> a == at by {
        forall a: nat, e: nat | Invoked(text, line, a, e) ensures a == at {
          OneToken(text, line, a, e, at);
        }
      }
      None
  }

  lemma OneToken(text: string, line: nat, a: nat, e: nat, at: nat)
    requires Invoked(text, line, a, e) && line <= at <= |text|
    requires (forall k :: line <= k < at ==> IsBlank(text[k])) && (at < |text| ==> !IsBlank(text[at]))
    ensures a == at
  {
    assert text[a] == text[a..a + |COMMAND|][0];
    assert !IsBlank(text[a]);
  }

  lemma SameEnd(text: string, at: nat, e: nat, f: nat)
    requires IsToken(text, at, e) && IsToken(text, at, f)
    ensures e == f
  {
  }

  ghost predicate AllFound(text: string, found: seq<Invocation>, upto: nat) {
    forall line: nat, at: nat, end: nat :: Invoked(text, line, at, end) && (if line == 0 then upto > 0 else line <= upto) ==>
      Invocation(line, at, end) in found
  }

  ghost predicate Ordered(found: seq<Invocation>) {
    forall i, j :: 0 <= i < j < |found| ==> found[i].end <= found[j].at
  }

  /** commandInvocations, on the blanked text: every command at the start of a line, in order. */
  method Invocations(visible: string) returns (found: seq<Invocation>)
    ensures forall m :: m in found ==> Invoked(visible, m.line, m.at, m.end)
    ensures forall line: nat, at: nat, end: nat :: Invoked(visible, line, at, end) ==> Invocation(line, at, end) in found
    ensures Ordered(found)
  {
    found := [];
    var p := 0;
    while p < |visible|
      invariant p <= |visible|
      invariant forall m :: m in found ==> Invoked(visible, m.line, m.at, m.end) && m.end <= p
      invariant AllFound(visible, found, p) && Ordered(found)
    {
      var m: Option<Invocation> := None;
      if p == 0 {
        m := MatchLine(visible, 0);
      }
      if m.None? && IsBreak(visible[p]) {
        m := MatchLine(visible, p + 1);
      }
      if m.Some? {
        MatchCovers(visible, found, p, m.value);
        found := found + [m.value];
        p := m.value.end;
      } else {
        p := p + 1;
      }
    }
  }

  lemma TokenChars(text: string, at: nat, end: nat, j: nat)
    requires at + |COMMAND| < end <= |text| && text[at..at + |COMMAND|] == COMMAND && at <= j < end
    requires forall k :: at + |COMMAND| <= k < end ==> IsTokenChar(text[k])
    ensures text[j] == '/' || IsTokenChar(text[j])
  {
    if j < at + |COMMAND| {
      assert text[j] == text[at..at + |COMMAND|][j - at] == COMMAND[j - at];
    }
  }

  /** A command stands on one line. */
  lemma NoBreakInside(text: string, line: nat, at: nat, end: nat)
    requires Invoked(text, line, at, end)
    ensures forall j :: line <= j < end ==> !IsBreak(text[j])
  {
    forall j | line <= j < end ensures !IsBreak(text[j]) {
      if j >= at {
        TokenChars(text, at, end, j);
      }
    }
  }

  lemma MatchCovers(text: string, found: seq<Invocation>, p: nat, m: Invocation)
    requires Invoked(text, m.line, m.at, m.end) && AllFound(text, found, p)
    requires m.line == p + 1 || (m.line == 0 && p == 0)
    ensures AllFound(text, found + [m], m.end)
  {
    NoBreakInside(text, m.line, m.at, m.end);
    forall line: nat, at: nat, end: nat | Invoked(text, line, at, end) && (if line == 0 then m.end > 0 else line <= m.end)
      ensures Invocation(line, at, end) in found + [m]
    {
      if line == m.line {
        OneToken(text, line, at, end, m.at);
        SameEnd(text, at, end, m.end);
      } else if line < m.line {
        assert Invocation(line, at, end) in found;
      }
    }
  }

  // ---------- What a detected command is ----------

  /**
   A command the user typed: a whole token outside every fence, backtick span and
   command-bearing quote, preceded on its line only by blanks or such spans.
   */
  ghost predicate Typed(text: string, pieces: seq<Piece>, line: nat, at: nat, end: nat) {
    && line <= at && IsToken(text, at, end) && LineStart(text, line)
    && (forall j :: at <= j < end ==> !Blanked(pieces, j))
    && (forall j :: line <= j < at ==> IsBlank(text[j]) || (Blanked(pieces, j) && !IsBreak(text[j])))
  }

  /** A blanked piece opens with a quote or backtick. */
  lemma BlankedOpens(text: string, pieces: seq<Piece>, j: nat)
    requires Covers(text, pieces, |text|) && Blanked(pieces, j) && 0 < j < |text| && !Blanked(pieces, j - 1)
    ensures !IsTokenChar(text[j])
  {
    var k :| 0 <= k < |pieces| && pieces[k].blank && pieces[k].start <= j < pieces[k].end;
    assert IsPiece(text, pieces[k]) && pieces[k].start == j;
    if OccursAt(text, FENCE, j) {
      assert text[j] == text[j..j + 3][0];
    }
  }

  lemma SameLineStart(text: string, pieces: seq<Piece>, out: string, line: nat)
    requires |out| == |text| && Covers(text, pieces, |text|) && Shows(text, pieces, out)
    ensures LineStart(out, line) <==> LineStart(text, line)
  {
    if 0 < line <= |text| {
      OnlyBlanks(text, pieces, out, line - 1);
    }
  }

  /** Every detected command is one the user typed, at the same place. */
  lemma DetectedIsTyped(text: string, pieces: seq<Piece>, out: string, line: nat, at: nat, end: nat)
    requires |out| == |text| && Covers(text, pieces, |text|) && Shows(text, pieces, out)
    requires Invoked(out, line, at, end)
    ensures Typed(text, pieces, line, at, end) && out[at..end] == text[at..end]
  {
    forall j | at <= j < end ensures !Blanked(pieces, j) && out[j] == text[j] {
      TokenChars(out, at, end, j);
      OnlyBlanks(text, pieces, out, j);
    }
    forall j | line <= j < at ensures IsBlank(text[j]) || (Blanked(pieces, j) && !IsBreak(text[j])) {
      OnlyBlanks(text, pieces, out, j);
    }
    assert text[at..at + |COMMAND|] == out[at..at + |COMMAND|];
    SameLineStart(text, pieces, out, line);
    if end < |text| {
      OnlyBlanks(text, pieces, out, end);
      if Blanked(pieces, end) {
        BlankedOpens(text, pieces, end);
      }
    }
  }

  /** And every command the user typed is detected. */
  lemma TypedIsDetected(text: string, pieces: seq<Piece>, out: string, line: nat, at: nat, end: nat)
    requires |out| == |text| && Covers(text, pieces, |text|) && Shows(text, pieces, out)
    requires Typed(text, pieces, line, at, end)
    ensures Invoked(out, line, at, end) && out[at..end] == text[at..end]
  {
    forall j | at <= j < end ensures out[j] == text[j] {
      OnlyBlanks(text, pieces, out, j);
    }
    forall j | line <= j < at ensures IsBlank(out[j]) {
      OnlyBlanks(text, pieces, out, j);
    }
    assert text[at..at + |COMMAND|] == out[at..at + |COMMAND|];
    SameLineStart(text, pieces, out, line);
    if end < |text| {
      OnlyBlanks(text, pieces, out, end);
    }
  }

  /** commandInvocations: exactly the commands the user typed, in order, as their original text. */
  method CommandInvocations(prompt: string) returns (tokens: seq<string>, found: seq<Invocation>,
                                                     ghost pieces: seq<Piece>)
    ensures Covers(prompt, pieces, |prompt|) && Ordered(found) && |tokens| == |found|
    ensures forall line: nat, at: nat, end: nat ::
              Invocation(line, at, end) in found <==> Typed(prompt, pieces, line, at, end)
    ensures forall i :: 0 <= i < |found| ==>
              found[i].at <= found[i].end <= |prompt| && tokens[i] == prompt[found[i].at..found[i].end]
  {
    var visible, cover := WithoutQuotedCommands(prompt);
    var matches := Invocations(visible);
    pieces, found := cover, matches;
    forall line: nat, at: nat, end: nat
      ensures Invocation(line, at, end) in found <==> Typed(prompt, pieces, line, at, end)
    {
      if Invoked(visible, line, at, end) {
        DetectedIsTyped(prompt, pieces, visible, line, at, end);
      }
      if Typed(prompt, pieces, line, at, end) {
        TypedIsDetected(prompt, pieces, visible, line, at, end);
      }
    }
    tokens := [];
    var i := 0;
    while i < |matches|
      invariant 0 <= i <= |matches| && |tokens| == i
      invariant forall k :: 0 <= k < i ==>
                  found[k].at <= found[k].end <= |prompt| && tokens[k] == prompt[found[k].at..found[k].end]
    {
      var m := matches[i];
      assert m in matches;
      DetectedIsTyped(prompt, pieces, visible, m.line, m.at, m.end);
      tokens := tokens + [visible[m.at..m.end]];
      i := i + 1;
    }
  }

  // ---------- The stage ----------

  function StageOf(command: string): Option<S.Stage> {
    if command == "gsd-discuss-phase" then Some(S.One(S.Discuss))
    else if command in ["gsd-plan-phase", "gsd-ultraplan-phase", "gsd-spec-phase"] then Some(S.One(S.Plan))
    else if command in ["gsd-execute-phase", "gsd-fast", "gsd-quick", "gsd-quick-batch"] then Some(S.One(S.Execute))
    else if command in ["gsd-verify-work", "gsd-code-review", "gsd-ui-review", "gsd-audit-uat", "gsd-audit-fix",
                        "gsd-audit-milestone", "gsd-ship"] then Some(S.One(S.Review))
    else if command == "gsd-autonomous" then Some(S.Orchestrate)
    else None
  }

  /** The commands of each stage; any other is of none. */
  lemma StagesOfCommands(command: string)
    ensures StageOf(command) == Some(S.One(S.Discuss)) <==> command == "gsd-discuss-phase"
    ensures StageOf(command) == Some(S.One(S.Plan)) <==>
            command in {"gsd-plan-phase", "gsd-ultraplan-phase", "gsd-spec-phase"}
    ensures StageOf(command) == Some(S.One(S.Execute)) <==>
            command in {"gsd-execute-phase", "gsd-fast", "gsd-quick", "gsd-quick-batch"}
    ensures StageOf(command) == Some(S.One(S.Review)) <==>
            command in {"gsd-verify-work", "gsd-code-review", "gsd-ui-review", "gsd-audit-uat", "gsd-audit-fix",
                        "gsd-audit-milestone", "gsd-ship"}
    ensures StageOf(command) == Some(S.Orchestrate) <==> command == "gsd-autonomous"
  {
  }

  predicate Mapped(token: string) { token != [] && StageOf(token[1..]).Some? }

  /** The stages of the tokens, each once, in order of first mention; and the first mapped command. */
  method DetectStage(tokens: seq<string>) returns (stage: Option<S.Stage>, matched: Option<string>)
    requires forall i :: 0 <= i < |tokens| ==> tokens[i] != []
    ensures stage.None? <==> forall i :: 0 <= i < |tokens| ==> !Mapped(tokens[i])
    ensures stage == Some(S.Orchestrate) <==>
            exists i :: 0 <= i < |tokens| && StageOf(tokens[i][1..]) == Some(S.Orchestrate)
    ensures stage.Some? ==> exists i :: && 0 <= i < |tokens| && Mapped(tokens[i]) && matched == Some(tokens[i][1..])
                                        && (forall j :: 0 <= j < i ==> !Mapped(tokens[j]))
                                        && (stage != Some(S.Orchestrate) ==> stage == StageOf(tokens[i][1..]))
  {
    var stages: seq<S.Stage> := [];
    matched := None;
    ghost var first := 0;
    var i := 0;
    while i < |tokens|
      invariant 0 <= i <= |tokens|
      invariant stages == [] <==> forall j :: 0 <= j < i ==> !Mapped(tokens[j])
      invariant S.Orchestrate in stages <==> exists j :: 0 <= j < i && StageOf(tokens[j][1..]) == Some(S.Orchestrate)
      invariant stages != [] ==> && 0 <= first < i && Mapped(tokens[first]) && matched == Some(tokens[first][1..])
                                 && StageOf(tokens[first][1..]) == Some(stages[0])
                                 && forall j :: 0 <= j < first ==> !Mapped(tokens[j])
      invariant stages == [] ==> matched == None
    {
      var command := tokens[i][1..];
      var found := StageOf(command);
      if found.Some? {
        if stages == [] {
          first := i;
        }
        if found.value !in stages {
          stages := stages + [found.value];
        }
        if matched.None? {
          matched := Some(command);
        }
      }
      i := i + 1;
    }
    stage := if stages == [] then None else if S.Orchestrate in stages then Some(S.Orchestrate) else Some(stages[0]);
  }
}
