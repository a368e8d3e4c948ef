// The simplified style chunker: a dialogue test by counting markers,
// paragraph packing that keeps the text's order, the merge of short chunks
// into their predecessor, and the identifier built from a file name.

module SimplifiedChunker {
  import opened Text
  import Transliteration

  const MinChunkSize: nat := 300
  const IdealChunkSize: nat := 800
  const MaxChunkSize: nat := 1500

  // ---------------------------------------------------------------------
  // Dialogue markers

  /** `\s*[А-ЯЁ]` at the start of `u`. */
  predicate CapitalAfterSpaces(u: string) {
    var n := LeadingRun(u, IsSpace);
    n < |u| && IsUpperCyrillic(u[n])
  }

  /** `[а-яё]*:` at the start of `u`. */
  predicate ColonAfterLower(u: string) {
    var n := LeadingRun(u, IsLowerCyrillic);
    n < |u| && u[n] == ':'
  }

  /** `—\s*[А-ЯЁ]`: a dash of direct speech before a capital. */
  predicate DashMarker(t: string) {
    exists i :: 0 <= i < |t| && t[i] == '—' && CapitalAfterSpaces(t[i + 1..])
  }

  /** `[А-ЯЁ][а-яё]*:`: a capitalised word followed by a colon, as a speaker's name. */
  predicate SpeakerMarker(t: string) {
    exists i :: 0 <= i < |t| && IsUpperCyrillic(t[i]) && ColonAfterLower(t[i + 1..])
  }

  /** How many of the four dialogue markers occur in `t`. */
  function MarkerCount(t: string): (n: nat)
    ensures n <= 4
  {
    (if DashMarker(t) then 1 else 0)
    + (if SpeakerMarker(t) then 1 else 0)
    + (if Contains(t, "Директор:") then 1 else 0)
    + (if Contains(t, "Костоглазов:") then 1 else 0)
  }

  /**
   * `is_dialogue`: at least two of the markers. Since `Директор:` is itself
   * a speaker's name, every dialogue has a dash line or a speaker's name.
   */
  function IsDialogue(t: string): (b: bool)
    ensures b ==> DashMarker(t) || SpeakerMarker(t)
  {
    DirectorIsSpeaker(t);
    MarkerCount(t) >= 2
  }

  /** A speaker's name starting at `k`: a capital, lower-case letters, a colon. */
  lemma SpeakerAt(t: string, k: nat, name: string)
    requires |name| >= 2 && IsUpperCyrillic(name[0]) && name[|name| - 1] == ':'
    requires forall j :: 1 <= j < |name| - 1 ==> IsLowerCyrillic(name[j])
    requires k <= |t| && name <= t[k..]
    ensures SpeakerMarker(t)
  {
    var u := t[k + 1..];
    assert forall j :: 0 <= j < |name| - 1 ==> u[j] == name[j + 1];
    assert LeadingRun(u, IsLowerCyrillic) == |name| - 2;
    assert t[k] == name[0];
  }

  /**
   * The name `Директор:` is itself a speaker marker, so a paragraph that
   * names the director counts two markers and is a dialogue.
   */
  lemma DirectorMakesDialogue(t: string)
    requires Contains(t, "Директор:")
    ensures IsDialogue(t)
  {
    DirectorIsSpeaker(t);
  }

  /** The director's name is a speaker marker. */
  lemma DirectorIsSpeaker(t: string)
    ensures Contains(t, "Директор:") ==> SpeakerMarker(t)
  {
    if Contains(t, "Директор:") {
      ContainsIffOccurs(t, "Директор:");
      var k :| OccursAt(t, "Директор:", k);
      SpeakerAt(t, k, "Директор:");
    }
  }

  // ---------------------------------------------------------------------
  // Packing

  /** A dialogue short enough to be kept whole. */
  predicate ShortDialogue(p: string) {
    IsDialogue(p) && |p| <= MaxChunkSize
  }

  /** The loop state: the chunks closed so far, as paragraph groups, and the pending group with its size. */
  datatype Packing = Packing(groups: seq<seq<string>>, current: seq<string>, currentSize: nat)

  /** One turn of the paragraph loop of `create_chunks`. */
  function PackStep(st: Packing, p: string): Packing {
    if ShortDialogue(p) then
      if st.current != [] then Packing(st.groups + [st.current, [p]], [], 0)
      else Packing(st.groups + [[p]], st.current, st.currentSize)
    else
      var potential := st.currentSize + |p| + 2;
      if potential > IdealChunkSize && st.currentSize >= MinChunkSize then Packing(st.groups + [st.current], [p], |p|)
      else Packing(st.groups, st.current + [p], potential)
  }

  function Pack(ps: seq<string>): Packing {
    if ps == [] then Packing([], [], 0) else PackStep(Pack(ps[..|ps| - 1]), ps[|ps| - 1])
  }

  /** The paragraph groups of the chunks, after the final flush. */
  function Groups(ps: seq<string>): seq<seq<string>> {
    var st := Pack(ps);
    if st.current != [] then st.groups + [st.current] else st.groups
  }

  predicate DialogueGroup(g: seq<string>) {
    |g| == 1 && ShortDialogue(g[0])
  }

  /** The group `g` was closed by the size rule before `next`: 300 reached, 800 exceeded. */
  predicate SizeClosed(g: seq<string>, next: string) {
    |Join(g, "\n\n")| + 2 >= MinChunkSize && |Join(g, "\n\n")| + 4 + |next| > IdealChunkSize
  }

  /** Two neighbouring groups, neither a kept dialogue, were split by the size rule. */
  predicate PairClosed(g: seq<string>, h: seq<string>) {
    h != [] && !DialogueGroup(g) && !ShortDialogue(h[0]) ==> SizeClosed(g, h[0])
  }

  /** Every pair of neighbouring groups is closed so. */
  predicate ClosedBySize(gs: seq<seq<string>>) {
    |gs| < 2 || (ClosedBySize(gs[..|gs| - 1]) && PairClosed(gs[|gs| - 2], gs[|gs| - 1]))
  }

  /** A group holding a kept dialogue holds nothing else. */
  predicate DialoguesAlone(gs: seq<seq<string>>) {
    forall i :: 0 <= i < |gs| ==> gs[i] != [] && forall j :: 0 <= j < |gs[i]| && ShortDialogue(gs[i][j]) ==> gs[i] == [gs[i][j]]
  }

  predicate NoDialogue(g: seq<string>) {
    forall j :: 0 <= j < |g| ==> !ShortDialogue(g[j])
  }

  /** The pending size counts the separators, and one more after a flush. */
  predicate SizeTracks(current: seq<string>, size: nat) {
    if current == [] then size == 0
    else |Join(current, "\n\n")| <= size <= |Join(current, "\n\n")| + 2
  }

  /** What the loop keeps. */
  predicate WellPacked(st: Packing) {
    && SizeTracks(st.current, st.currentSize)
    && DialoguesAlone(st.groups)
    && NoDialogue(st.current)
    && ClosedBySize(st.groups)
    && (st.current != [] && st.groups != [] && !DialogueGroup(st.groups[|st.groups| - 1]) ==>
          SizeClosed(st.groups[|st.groups| - 1], st.current[0]))
    && (st.current == [] && st.groups != [] ==> DialogueGroup(st.groups[|st.groups| - 1]))
  }

  lemma DialoguesAloneAppend(gs: seq<seq<string>>, g: seq<string>)
    requires DialoguesAlone(gs) && g != []
    requires NoDialogue(g) || |g| == 1
    ensures DialoguesAlone(gs + [g])
  {
    var hs := gs + [g];
    forall i | 0 <= i < |hs|
      ensures hs[i] != [] && forall j :: 0 <= j < |hs[i]| && ShortDialogue(hs[i][j]) ==> hs[i] == [hs[i][j]]
    {
      if i < |gs| { assert hs[i] == gs[i]; } else { assert hs[i] == g; }
    }
  }

  lemma ClosedBySizeAppend(gs: seq<seq<string>>, g: seq<string>)
    requires ClosedBySize(gs) && g != []
    requires gs != [] ==> PairClosed(gs[|gs| - 1], g)
    ensures ClosedBySize(gs + [g])
  {
    assert (gs + [g])[..|gs|] == gs;
  }

  lemma NoDialogueAppend(g: seq<string>, p: string)
    requires NoDialogue(g) && !ShortDialogue(p)
    ensures NoDialogue(g + [p])
  {
    assert forall j :: 0 <= j < |g| ==> (g + [p])[j] == g[j];
  }

  lemma DialogueStepKeeps(st: Packing, p: string)
    requires WellPacked(st) && ShortDialogue(p)
    ensures WellPacked(PackStep(st, p))
  {
    if st.current != [] {
      DialoguesAloneAppend(st.groups, st.current);
      ClosedBySizeAppend(st.groups, st.current);
      DialoguesAloneAppend(st.groups + [st.current], [p]);
      ClosedBySizeAppend(st.groups + [st.current], [p]);
      assert st.groups + [st.current, [p]] == st.groups + [st.current] + [[p]];
    } else {
      DialoguesAloneAppend(st.groups, [p]);
      ClosedBySizeAppend(st.groups, [p]);
    }
  }

  lemma PlainStepKeeps(st: Packing, p: string)
    requires WellPacked(st) && !ShortDialogue(p)
    ensures WellPacked(PackStep(st, p))
  {
    var potential := st.currentSize + |p| + 2;
    if potential > IdealChunkSize && st.currentSize >= MinChunkSize {
      assert st.current != [];
      DialoguesAloneAppend(st.groups, st.current);
      ClosedBySizeAppend(st.groups, st.current);
      NoDialogueAppend([], p);
      assert [] + [p] == [p];
      assert SizeClosed(st.current, p);
    } else {
      JoinAppend(st.current, p, "\n\n");
      NoDialogueAppend(st.current, p);
      if st.current != [] {
        assert (st.current + [p])[0] == st.current[0];
      }
    }
  }

  lemma PackStepKeeps(st: Packing, p: string)
    requires WellPacked(st)
    ensures WellPacked(PackStep(st, p))
  {
    if ShortDialogue(p) {
      DialogueStepKeeps(st, p);
    } else {
      PlainStepKeeps(st, p);
    }
  }

  lemma {:induction false} PackWellPacked(ps: seq<string>)
    ensures WellPacked(Pack(ps))
    decreases |ps|
  {
    if ps != [] {
      PackWellPacked(ps[..|ps| - 1]);
      PackStepKeeps(Pack(ps[..|ps| - 1]), ps[|ps| - 1]);
    }
  }

  lemma PackStepOrder(st: Packing, p: string)
    ensures Flatten(PackStep(st, p).groups) + PackStep(st, p).current == Flatten(st.groups) + st.current + [p]
  {
    if ShortDialogue(p) && st.current != [] {
      assert st.groups + [st.current, [p]] == st.groups + [st.current] + [[p]];
      FlattenAppend(st.groups, st.current);
      FlattenAppend(st.groups + [st.current], [p]);
    } else if ShortDialogue(p) {
      FlattenAppend(st.groups, [p]);
    } else if st.currentSize + |p| + 2 > IdealChunkSize && st.currentSize >= MinChunkSize {
      FlattenAppend(st.groups, st.current);
    }
  }

  lemma {:induction false} PackOrder(ps: seq<string>)
    ensures Flatten(Pack(ps).groups) + Pack(ps).current == ps
    decreases |ps|
  {
    if ps != [] {
      var init := ps[..|ps| - 1];
      PackOrder(init);
      PackStepOrder(Pack(init), ps[|ps| - 1]);
      assert ps == init + [ps[|ps| - 1]];
    }
  }

  /**
   * Packing keeps the paragraphs in order, leaves no group empty, keeps each
   * short dialogue alone, and splits two ordinary groups only where the
   * first had reached 300 characters and the next paragraph would have
   * taken it past 800.
   */
  lemma GroupsShape(ps: seq<string>)
    ensures Flatten(Groups(ps)) == ps
    ensures NoEmptyGroup(Groups(ps))
    ensures DialoguesAlone(Groups(ps))
    ensures ClosedBySize(Groups(ps))
  {
    var st := Pack(ps);
    PackWellPacked(ps);
    PackOrder(ps);
    if st.current != [] {
      DialoguesAloneAppend(st.groups, st.current);
      ClosedBySizeAppend(st.groups, st.current);
    }
  }

  // ---------------------------------------------------------------------
  // Merging short chunks

  /** One turn of the merge loop: a chunk under 300 joins its predecessor when the result stays within 1500. */
  function MergeStep(processed: seq<string>, chunk: string): seq<string> {
    if |chunk| < MinChunkSize && processed != []
       && |processed[|processed| - 1] + "\n\n" + chunk| <= MaxChunkSize
    then processed[..|processed| - 1] + [processed[|processed| - 1] + "\n\n" + chunk]
    else processed + [chunk]
  }

  function Merged(chunks: seq<string>): seq<string> {
    if chunks == [] then [] else MergeStep(Merged(chunks[..|chunks| - 1]), chunks[|chunks| - 1])
  }

  /** Every chunk is one of `from` or at most 1500 characters long. */
  predicate FromOrBounded(out: seq<string>, from: seq<string>) {
    forall k :: 0 <= k < |out| ==> out[k] in from || |out[k]| <= MaxChunkSize
  }

  predicate NoEmptyChunk(cs: seq<string>) {
    forall k :: 0 <= k < |cs| ==> cs[k] != []
  }

  lemma MergeStepBound(prev: seq<string>, chunk: string, from: seq<string>)
    requires FromOrBounded(prev, from) && NoEmptyChunk(prev) && chunk != []
    ensures var out := MergeStep(prev, chunk);
      && 0 < |out| <= |prev| + 1
      && FromOrBounded(out, from + [chunk])
      && NoEmptyChunk(out)
  {
    var out := MergeStep(prev, chunk);
    var from' := from + [chunk];
    forall k | 0 <= k < |out| ensures (out[k] in from' || |out[k]| <= MaxChunkSize) && out[k] != [] {
      if k < |prev| && out[k] == prev[k] {
        assert prev[k] in from || |prev[k]| <= MaxChunkSize;
      } else if out == prev + [chunk] {
        assert out[k] == from'[|from|];
      } else {
        assert |out[k]| <= MaxChunkSize;
      }
    }
  }

  lemma MergeStepJoin(prev: seq<string>, chunk: string)
    ensures var out := MergeStep(prev, chunk);
      && Join(out, "\n\n") == (if prev == [] then chunk else Join(prev, "\n\n") + "\n\n" + chunk)
      && (prev != [] ==> prev[0] <= out[0])
  {
    var out := MergeStep(prev, chunk);
    if out == prev + [chunk] {
      JoinAppend(prev, chunk, "\n\n");
    } else {
      var init := prev[..|prev| - 1];
      var last := prev[|prev| - 1];
      assert prev == init + [last];
      assert out == init + [last + "\n\n" + chunk];
      JoinGlued(init, last, chunk, "\n\n");
      if init != [] {
        assert out[0] == prev[0];
      }
    }
  }

  /**
   * Merging keeps the text: joined by blank lines the output is the input.
   * It never adds chunks, keeps none empty, never merges the first chunk
   * into anything, and every chunk it outputs is an input chunk or, having
   * absorbed short ones, at most 1500 characters long.
   */
  lemma {:induction false} MergedShape(chunks: seq<string>)
    requires NoEmptyChunk(chunks)
    ensures var out := Merged(chunks);
      && Join(out, "\n\n") == Join(chunks, "\n\n")
      && |out| <= |chunks|
      && NoEmptyChunk(out)
      && (chunks != [] ==> out != [] && chunks[0] <= out[0])
      && FromOrBounded(out, chunks)
    decreases |chunks|
  {
    if chunks != [] {
      var init := chunks[..|chunks| - 1];
      var last := chunks[|chunks| - 1];
      assert NoEmptyChunk(init) by {
        forall k | 0 <= k < |init| ensures init[k] != [] { assert init[k] == chunks[k]; }
      }
      MergedShape(init);
      var prev := Merged(init);
      assert Merged(chunks) == MergeStep(prev, last);
      MergeStepBound(prev, last, init);
      assert init + [last] == chunks;
      MergeStepJoin(prev, last);
      JoinAppend(init, last, "\n\n");
      if init != [] {
        assert init[0] == chunks[0];
      }
    }
  }

  /** `create_chunks` as a function of the text. */
  function CreateChunksSpec(content: string): seq<string> {
    Merged(JoinEach(Groups(Paragraphs(content)), "\n\n"))
  }

  lemma JoinedGroupsNotEmpty(gs: seq<seq<string>>)
    requires NoEmptyGroup(gs)
    requires forall i, j :: 0 <= i < |gs| && 0 <= j < |gs[i]| ==> gs[i][j] != []
    ensures NoEmptyChunk(JoinEach(gs, "\n\n"))
  {
    forall k | 0 <= k < |gs| ensures Join(gs[k], "\n\n") != [] {
      JoinLength(gs[k], "\n\n");
      if |gs[k]| == 1 {
        assert SumLengths(gs[k]) == |gs[k][0]|;
      } else {
        assert (|gs[k]| - 1) * 2 > 0;
      }
    }
  }

  lemma FlattenMember(gs: seq<seq<string>>, i: nat, j: nat)
    requires i < |gs| && j < |gs[i]|
    ensures gs[i][j] in Flatten(gs)
    decreases |gs|
  {
    var init := gs[..|gs| - 1];
    if i < |gs| - 1 {
      FlattenMember(init, i, j);
      assert init[i] == gs[i];
    } else {
      assert Flatten(gs) == Flatten(init) + gs[i];
      assert Flatten(gs)[|Flatten(init)| + j] == gs[i][j];
    }
  }

  /**
   * The round trip: joined by blank lines, the chunks of a text give back
   * its stripped non-blank paragraphs joined the same way, and no chunk is
   * empty.
   */
  lemma CreateChunksRoundTrip(content: string)
    ensures Join(CreateChunksSpec(content), "\n\n") == Join(Paragraphs(content), "\n\n")
    ensures NoEmptyChunk(CreateChunksSpec(content))
  {
    var ps := Paragraphs(content);
    var gs := Groups(ps);
    GroupsShape(ps);
    forall i, j | 0 <= i < |gs| && 0 <= j < |gs[i]| ensures gs[i][j] != [] {
      FlattenMember(gs, i, j);
    }
    JoinedGroupsNotEmpty(gs);
    MergedShape(JoinEach(gs, "\n\n"));
    JoinFlatten(gs, "\n\n");
  }

  method CreateChunks(content: string) returns (processedChunks: seq<string>)
    ensures processedChunks == CreateChunksSpec(content)
  {
    var paragraphs := Paragraphs(content);
    var chunks := [];
    var currentChunk: seq<string> := [];
    var currentSize := 0;
    var i := 0;
    while i < |paragraphs|
      invariant 0 <= i <= |paragraphs|
      invariant chunks == JoinEach(Pack(paragraphs[..i]).groups, "\n\n")
      invariant currentChunk == Pack(paragraphs[..i]).current
      invariant currentSize == Pack(paragraphs[..i]).currentSize
    {
      assert paragraphs[..i + 1][..i] == paragraphs[..i];
      chunks, currentChunk, currentSize := PackTurn(chunks, currentChunk, currentSize, paragraphs[i], Pack(paragraphs[..i]));
      i := i + 1;
    }
    assert paragraphs[..i] == paragraphs;
    if currentChunk != [] {
      JoinEachAppend(Pack(paragraphs).groups, currentChunk, "\n\n");
      chunks := chunks + [Join(currentChunk, "\n\n")];
    }

    processedChunks := MergeShortChunks(chunks);
  }

  /** The second loop of `create_chunks`: a short chunk joins the one before it when the result fits. */
  method MergeShortChunks(chunks: seq<string>) returns (processedChunks: seq<string>)
    ensures processedChunks == Merged(chunks)
  {
    processedChunks := [];
    var i := 0;
    while i < |chunks|
      invariant 0 <= i <= |chunks|
      invariant processedChunks == Merged(chunks[..i])
    {
      assert chunks[..i + 1][..i] == chunks[..i];
      var chunk := chunks[i];
      i := i + 1;
      if |chunk| < MinChunkSize && processedChunks != [] {
        if |processedChunks[|processedChunks| - 1] + "\n\n" + chunk| <= MaxChunkSize {
          processedChunks := processedChunks[..|processedChunks| - 1]
                             + [processedChunks[|processedChunks| - 1] + "\n\n" + chunk];
          continue;
        }
      }
      processedChunks := processedChunks + [chunk];
    }
    assert chunks[..i] == chunks;
  }

  /** One turn of the paragraph loop on the concrete state that `st` describes. */
  method PackTurn(chunks: seq<string>, currentChunk: seq<string>, currentSize: nat, paragraph: string, ghost st: Packing)
    returns (chunks': seq<string>, currentChunk': seq<string>, currentSize': nat)
    requires chunks == JoinEach(st.groups, "\n\n") && currentChunk == st.current && currentSize == st.currentSize
    ensures var st' := PackStep(st, paragraph);
      chunks' == JoinEach(st'.groups, "\n\n") && currentChunk' == st'.current && currentSize' == st'.currentSize
  {
    chunks', currentChunk', currentSize' := chunks, currentChunk, currentSize;
    if IsDialogue(paragraph) && |paragraph| <= MaxChunkSize {
      ghost var groups := st.groups;
      if currentChunk != [] {
        JoinEachAppend(groups, currentChunk, "\n\n");
        chunks' := chunks' + [Join(currentChunk, "\n\n")];
        groups := groups + [currentChunk];
        currentChunk', currentSize' := [], 0;
        assert groups + [[paragraph]] == st.groups + [st.current, [paragraph]];
      }
      JoinEachAppend(groups, [paragraph], "\n\n");
      chunks' := chunks' + [paragraph];
    } else {
      var potentialSize := currentSize + |paragraph| + 2;
      if potentialSize > IdealChunkSize && currentSize >= MinChunkSize {
        JoinEachAppend(st.groups, currentChunk, "\n\n");
        chunks' := chunks' + [Join(currentChunk, "\n\n")];
        currentChunk', currentSize' := [paragraph], |paragraph|;
      } else {
        currentChunk' := currentChunk + [paragraph];
        currentSize' := potentialSize;
      }
    }
  }

  // ---------------------------------------------------------------------
  // Identifiers

  /**
   * What one character of the file name contributes: its Latin spelling,
   * itself when alphanumeric or `-`/`_`, a hyphen for spaces, dots and
   * brackets, else nothing. `isAlnum` is Python's `str.isalnum`.
   */
  function IdPiece(c: char, isAlnum: char -> bool): string {
    match Transliteration.Latin(c)
    case Some(l) => l
    case None =>
      if isAlnum(c) || c in "-_" then [c]
      else if c in " .()[]{}" then "-"
      else ""
  }

  function IdPieces(s: string, isAlnum: char -> bool): string {
    if s == [] then [] else IdPieces(s[..|s| - 1], isAlnum) + IdPiece(s[|s| - 1], isAlnum)
  }

  /** `re.sub(r'-+', '-', t).strip('-')[:50]`. */
  function NormalizedName(filename: string, isAlnum: char -> bool): string {
    Take(StripChars(CapRuns(IdPieces(SplitExt(filename).0, isAlnum), '-', 1), {'-'}), 50)
  }

  function SafeId(indexName: string, filename: string, chunkIdx: nat, isAlnum: char -> bool): string {
    indexName + "-" + NormalizedName(filename, isAlnum) + "-" + NatToString(chunkIdx)
  }

  method GenerateSafeId(indexName: string, filename: string, chunkIdx: nat, isAlnum: char -> bool)
    returns (id: string)
    ensures id == SafeId(indexName, filename, chunkIdx, isAlnum)
  {
    var cleanFilename := SplitExt(filename).0;
    var transliterated := "";
    var i := 0;
    while i < |cleanFilename|
      invariant 0 <= i <= |cleanFilename|
      invariant transliterated == IdPieces(cleanFilename[..i], isAlnum)
    {
      transliterated := AppendIdPiece(transliterated, cleanFilename[i], isAlnum);
      IdPiecesStep(cleanFilename, i, isAlnum);
      i := i + 1;
    }
    assert cleanFilename[..i] == cleanFilename;
    var normalized := Take(StripChars(CapRuns(transliterated, '-', 1), {'-'}), 50);
    id := indexName + "-" + normalized + "-" + NatToString(chunkIdx);
  }

  /** One turn of the character loop of `generate_safe_id`. */
  method AppendIdPiece(acc: string, c: char, isAlnum: char -> bool) returns (next: string)
    ensures next == acc + IdPiece(c, isAlnum)
  {
    next := acc;
    match Transliteration.Latin(c) {
      case Some(l) => next := next + l;
      case None =>
        if isAlnum(c) || c in "-_" {
          next := next + [c];
        } else if c in " .()[]{}" {
          next := next + "-";
        }
    }
  }

  lemma IdPiecesStep(s: string, i: nat, isAlnum: char -> bool)
    requires i < |s|
    ensures IdPieces(s[..i + 1], isAlnum) == IdPieces(s[..i], isAlnum) + IdPiece(s[i], isAlnum)
  {
    assert s[..i + 1][..i] == s[..i];
  }

  predicate AnyChar(c: char) { true }

  lemma StrippedNoDouble(t: string)
    requires !Contains(t, "--")
    ensures var u := StripChars(t, {'-'});
      !Contains(u, "--") && (u == [] || u[0] != '-')
  {
    assert AllChars(t, AnyChar);
    TrimmedSlice(t, {'-'}, "--", AnyChar);
    TrimmedSlice(TrimLeft(t, {'-'}), {'-'}, "--", AnyChar);
  }

  lemma TakeNoDouble(u: string)
    requires !Contains(u, "--") && (u == [] || u[0] != '-')
    ensures var n := Take(u, 50);
      !Contains(n, "--") && (n == [] || n[0] != '-') && |n| <= 50
  {
    var n := Take(u, 50);
    assert AllChars(u, AnyChar);
    SliceKeeps(u, 0, |n|, "--", AnyChar);
    assert u[0..|n|] == n;
  }

  /**
   * The name part has no doubled hyphen, does not start with one, and is at
   * most 50 long; the cut after stripping may leave a trailing hyphen.
   */
  lemma NormalizedNameShape(filename: string, isAlnum: char -> bool)
    ensures var n := NormalizedName(filename, isAlnum);
      && !Contains(n, "--") && (n == [] || n[0] != '-') && |n| <= 50
  {
    var pieces := IdPieces(SplitExt(filename).0, isAlnum);
    SqueezedNoDouble(pieces, '-', 0);
    StrippedNoDouble(CapRuns(pieces, '-', 1));
    TakeNoDouble(StripChars(CapRuns(pieces, '-', 1), {'-'}));
  }
}
