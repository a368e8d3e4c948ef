/**
 * The semantic chunker: a text is split into sentences at runs of `.`, `!`
 * and `?`, short or purely numeric sentences are dropped, and the sentences
 * are gathered into chunks that close at a size limit or where the given
 * similarity between neighbouring sentences drops.
 */
module ImprovedChunker {
  import opened Text

  // ---------------------------------------------------------------------
  // split_into_sentences
  // ---------------------------------------------------------------------

  predicate IsTerminator(c: char) { c == '.' || c == '!' || c == '?' }

  /**
   * `[.!?]+(?:\s|$)` matches at the start of `t`. The greedy run of
   * terminators can only be followed by whitespace or the end once it is
   * maximal: a shorter run is followed by another terminator.
   */
  predicate BreakHere(t: string) {
    var n := LeadingRun(t, IsTerminator);
    n > 0 && (n == |t| || IsSpace(t[n]))
  }

  /** The length of that match: the run, and the whitespace character after it if any. */
  function BreakLength(t: string): (k: nat)
    requires BreakHere(t)
    ensures 0 < k <= |t|
  {
    var n := LeadingRun(t, IsTerminator);
    if n == |t| then n else n + 1
  }

  /** Where the leftmost match starts, if there is one. */
  function FirstBreak(s: string): (r: Option<nat>)
    ensures r.Some? ==> r.value < |s| && BreakHere(s[r.value..])
    decreases |s|
  {
    if BreakHere(s) then Some(0)
    else if |s| == 0 then None
    else
      match FirstBreak(s[1..])
      case None => None
      case Some(i) =>
        assert s[1..][i..] == s[i + 1..];
        Some(i + 1)
  }

  /** No match starts before the one found, and none at all when none is found. */
  lemma {:induction false} FirstBreakLeftmost(s: string)
    ensures FirstBreak(s).Some? ==> forall j :: 0 <= j < FirstBreak(s).value ==> !BreakHere(s[j..])
    ensures FirstBreak(s).None? ==> forall j :: 0 <= j <= |s| ==> !BreakHere(s[j..])
    decreases |s|
  {
    if !BreakHere(s) && |s| > 0 {
      FirstBreakLeftmost(s[1..]);
      forall j | 1 <= j <= |s| ensures s[j..] == s[1..][j - 1..] {
      }
    }
  }

  /** Where the match starting at `p` ends. */
  function BreakEnd(s: string, p: nat): (e: nat)
    requires p < |s| && BreakHere(s[p..])
    ensures p < e <= |s|
  {
    p + BreakLength(s[p..])
  }

  /** `re.split(r'[.!?]+(?:\s|$)', text)`: the text between matches. */
  function SentencePieces(s: string): (r: seq<string>)
    ensures |r| >= 1
    decreases |s|
  {
    match FirstBreak(s)
    case None => [s]
    case Some(p) => [s[..p]] + SentencePieces(s[BreakEnd(s, p)..])
  }

  /** The matches the split consumes, in order. */
  function SentenceBreaks(s: string): seq<string>
    decreases |s|
  {
    match FirstBreak(s)
    case None => []
    case Some(p) => [s[p..BreakEnd(s, p)]] + SentenceBreaks(s[BreakEnd(s, p)..])
  }

  /** Pieces and separators put back one after another. */
  function Interleave(pieces: seq<string>, seps: seq<string>): string
    requires |pieces| == |seps| + 1
    decreases |seps|
  {
    if seps == [] then pieces[0] else pieces[0] + seps[0] + Interleave(pieces[1..], seps[1..])
  }

  lemma InterleaveCons(p: string, b: string, ps: seq<string>, bs: seq<string>)
    requires |ps| == |bs| + 1
    ensures Interleave([p] + ps, [b] + bs) == p + b + Interleave(ps, bs)
  {
    assert ([p] + ps)[1..] == ps && ([b] + bs)[1..] == bs;
  }

  /** The pieces with the matches between them give back the text. */
  lemma {:induction false} SplitRoundTrip(s: string)
    ensures |SentencePieces(s)| == |SentenceBreaks(s)| + 1
    ensures Interleave(SentencePieces(s), SentenceBreaks(s)) == s
    decreases |s|
  {
    match FirstBreak(s)
    case None =>
    case Some(p) =>
      var e := BreakEnd(s, p);
      var rest := s[e..];
      assert SentencePieces(s) == [s[..p]] + SentencePieces(rest);
      assert SentenceBreaks(s) == [s[p..e]] + SentenceBreaks(rest);
      SplitRoundTrip(rest);
      InterleaveCons(s[..p], s[p..e], SentencePieces(rest), SentenceBreaks(rest));
      ThreeSlices(s, p, e);
  }

  lemma ThreeSlices(s: string, p: nat, e: nat)
    requires p <= e <= |s|
    ensures s[..p] + s[p..e] + s[e..] == s
  {
  }

  /** Every match is a run of terminators, ended by one whitespace character or by the text's end. */
  lemma {:induction false} BreaksAreRuns(s: string)
    ensures forall k :: 0 <= k < |SentenceBreaks(s)| ==> TerminatorRun(SentenceBreaks(s)[k])
    decreases |s|
  {
    match FirstBreak(s)
    case None =>
    case Some(p) =>
      var e := BreakEnd(s, p);
      var rest := s[e..];
      var b := s[p..e];
      assert SentenceBreaks(s) == [b] + SentenceBreaks(rest);
      BreakIsRun(s, p);
      BreaksAreRuns(rest);
      RunsCons(b, SentenceBreaks(rest));
  }

  predicate TerminatorRun(b: string) {
    && |b| > 0 && IsTerminator(b[0])
    && (forall i :: 0 <= i < |b| - 1 ==> IsTerminator(b[i]))
    && (IsTerminator(b[|b| - 1]) || IsSpace(b[|b| - 1]))
  }

  lemma BreakIsRun(s: string, p: nat)
    requires p < |s| && BreakHere(s[p..])
    ensures TerminatorRun(s[p..BreakEnd(s, p)])
  {
    var t := s[p..];
    assert s[p..BreakEnd(s, p)] == t[..BreakLength(t)];
  }

  lemma RunsCons(b: string, bs: seq<string>)
    requires TerminatorRun(b) && forall k :: 0 <= k < |bs| ==> TerminatorRun(bs[k])
    ensures forall k :: 0 <= k < |[b] + bs| ==> TerminatorRun(([b] + bs)[k])
  {
    forall k | 0 <= k < |[b] + bs| ensures TerminatorRun(([b] + bs)[k]) {
      if k > 0 {
        assert ([b] + bs)[k] == bs[k - 1];
      }
    }
  }

  const MinSentence: nat := 25

  /** `str.isdigit` on ASCII digits: non-empty and digits only. */
  predicate IsDigitString(s: string) {
    |s| > 0 && AllChars(s, IsAsciiDigit)
  }

  predicate KeptSentence(s: string) {
    |s| > MinSentence && !IsDigitString(s)
  }

  /** The pieces cleaned by `clean`, keeping those `keep` accepts, in order. */
  function Filtered(pieces: seq<string>, clean: string -> string, keep: string -> bool): seq<string> {
    if pieces == [] then []
    else Filtered(pieces[..|pieces| - 1], clean, keep) + Kept(clean(pieces[|pieces| - 1]), keep)
  }

  function Kept(t: string, keep: string -> bool): seq<string> {
    if keep(t) then [t] else []
  }

  /** The pieces stripped, keeping those over 25 characters that are not all digits. */
  function CleanSentences(pieces: seq<string>): seq<string> {
    Filtered(pieces, Strip, KeptSentence)
  }

  function Sentences(text: string): seq<string> {
    CleanSentences(SentencePieces(text))
  }

  method SplitIntoSentences(text: string) returns (cleanSentences: seq<string>)
    ensures cleanSentences == Sentences(text)
  {
    var sentences := SentencePieces(text);
    cleanSentences := [];
    var i := 0;
    while i < |sentences|
      invariant 0 <= i <= |sentences|
      invariant cleanSentences == CleanSentences(sentences[..i])
    {
      assert sentences[..i + 1][..i] == sentences[..i];
      assert CleanSentences(sentences[..i + 1]) == CleanSentences(sentences[..i]) + Kept(Strip(sentences[i]), KeptSentence);
      var sentence := Strip(sentences[i]);
      if |sentence| > MinSentence && !IsDigitString(sentence) {
        cleanSentences := cleanSentences + [sentence];
      }
      i := i + 1;
    }
    assert sentences[..i] == sentences;
  }

  /** A piece survives exactly when some piece, cleaned, is it and it is accepted. */
  lemma {:induction false} FilteredMembers(pieces: seq<string>, clean: string -> string, keep: string -> bool, x: string)
    ensures x in Filtered(pieces, clean, keep) <==> keep(x) && exists i :: 0 <= i < |pieces| && clean(pieces[i]) == x
    decreases |pieces|
  {
    if pieces != [] {
      var init := pieces[..|pieces| - 1];
      FilteredMembers(init, clean, keep, x);
      if exists i :: 0 <= i < |init| && clean(init[i]) == x {
        var i :| 0 <= i < |init| && clean(init[i]) == x;
        assert pieces[i] == init[i];
      }
      if exists i :: 0 <= i < |pieces| && clean(pieces[i]) == x {
        var i :| 0 <= i < |pieces| && clean(pieces[i]) == x;
        if i < |init| {
          assert init[i] == pieces[i];
        }
      }
    }
  }

  /** A sentence is kept exactly when it is a piece, stripped, over 25 characters and not all digits. */
  lemma CleanSentencesMembers(pieces: seq<string>, x: string)
    ensures x in CleanSentences(pieces) <==> KeptSentence(x) && exists i :: 0 <= i < |pieces| && Strip(pieces[i]) == x
  {
    FilteredMembers(pieces, Strip, KeptSentence, x);
  }

  /** A sentence is over 25 characters and neither starts nor ends with whitespace. */
  predicate CleanSentence(x: string) {
    |x| > MinSentence && !IsSpace(x[0]) && !IsSpace(x[|x| - 1])
  }

  predicate AllClean(xs: seq<string>) {
    forall k :: 0 <= k < |xs| ==> CleanSentence(xs[k])
  }

  lemma CleanSentencesShape(pieces: seq<string>)
    ensures AllClean(CleanSentences(pieces))
  {
    var r := CleanSentences(pieces);
    forall k | 0 <= k < |r| ensures CleanSentence(r[k]) {
      CleanSentencesMembers(pieces, r[k]);
      var i :| 0 <= i < |pieces| && Strip(pieces[i]) == r[k];
      StripEnds(pieces[i]);
    }
  }

  lemma StripEnds(s: string)
    ensures var t := Strip(s); |t| > 0 ==> !IsSpace(t[0]) && !IsSpace(t[|t| - 1])
  {
  }

  // ---------------------------------------------------------------------
  // create_semantic_chunks
  // ---------------------------------------------------------------------

  const MinChunkSize: nat := 800
  const MaxChunkSize: nat := 2200
  const TargetChunkSize: nat := 1400
  const SimilarityThreshold: real := 0.72
  const TopicShift: real := 0.45

  /**
   * The split rule after sentence `i` with `size` characters buffered:
   * the maximum size, the target size at a weak link, or the minimum size
   * at a change of topic; `sims[i]` is consulted only when it exists.
   */
  predicate ShouldSplit(size: nat, i: nat, sims: seq<real>) {
    || size >= MaxChunkSize
    || (size >= TargetChunkSize && i < |sims| && sims[i] < SimilarityThreshold)
    || (i < |sims| && sims[i] < TopicShift && size >= MinChunkSize)
  }

  /** The text a closed buffer becomes: `". ".join(current_chunk).strip()`. */
  function ChunkText(current: seq<string>): string {
    Strip(Join(current, ". "))
  }

  /** The loop's state: the chunks so far, the buffered sentences and their total length. */
  datatype Buffer = Buffer(chunks: seq<string>, current: seq<string>, size: nat)

  /**
   * One sentence: buffer it, then close the buffer if the rule says so,
   * keeping its text `close(current)` if long enough.
   */
  function Step(b: Buffer, i: nat, sentence: string, sims: seq<real>, close: seq<string> -> string): Buffer {
    if ShouldSplit(b.size + |sentence|, i, sims) then Buffer(Closed(b.chunks, close(b.current + [sentence])), [], 0)
    else Buffer(b.chunks, b.current + [sentence], b.size + |sentence|)
  }

  /** The chunks after closing a buffer whose text is `chunkText`. */
  function Closed(chunks: seq<string>, chunkText: string): seq<string> {
    if |chunkText| >= MinChunkSize then chunks + [chunkText] else chunks
  }

  /** The sentence loop over `sentences`, closing buffers with `close`. */
  function Fold(sentences: seq<string>, sims: seq<real>, close: seq<string> -> string): Buffer
    decreases |sentences|
  {
    if sentences == [] then Buffer([], [], 0)
    else Step(Fold(sentences[..|sentences| - 1], sims, close), |sentences| - 1, sentences[|sentences| - 1], sims, close)
  }

  /** The final chunk, kept when long enough. */
  function Flush(b: Buffer, close: seq<string> -> string): seq<string> {
    if b.current != [] && |close(b.current)| >= MinChunkSize then b.chunks + [close(b.current)] else b.chunks
  }

  /** `create_semantic_chunks` for the similarities `sims` of neighbouring sentences. */
  function SemanticChunks(text: string, sims: seq<real>): seq<string> {
    var sentences := Sentences(text);
    if |sentences| < 2 then (if |text| > MinChunkSize then [text] else [])
    else Flush(Fold(sentences, sims, ChunkText), ChunkText)
  }

  method CreateSemanticChunks(text: string, similarities: seq<real>) returns (chunks: seq<string>)
    ensures chunks == SemanticChunks(text, similarities)
  {
    var sentences := SplitIntoSentences(text);
    assert SemanticChunks(text, similarities) == if |sentences| < 2 then (if |text| > MinChunkSize then [text] else [])
      else Flush(Fold(sentences, similarities, ChunkText), ChunkText);
    if |sentences| < 2 {
      return if |text| > MinChunkSize then [text] else [];
    }
    var currentChunk, currentSize;
    chunks, currentChunk, currentSize := FoldSentences(sentences, similarities);
    chunks := FlushChunks(chunks, currentChunk, currentSize);
  }

  /** The sentence loop. */
  method FoldSentences(sentences: seq<string>, similarities: seq<real>) returns (chunks: seq<string>, currentChunk: seq<string>, currentSize: nat)
    ensures Buffer(chunks, currentChunk, currentSize) == Fold(sentences, similarities, ChunkText)
  {
    chunks, currentChunk, currentSize := [], [], 0;
    var i := 0;
    while i < |sentences|
      invariant 0 <= i <= |sentences|
      invariant Buffer(chunks, currentChunk, currentSize) == Fold(sentences[..i], similarities, ChunkText)
    {
      assert sentences[..i + 1][..i] == sentences[..i];
      assert Fold(sentences[..i + 1], similarities, ChunkText) == Step(Fold(sentences[..i], similarities, ChunkText), i, sentences[i], similarities, ChunkText);
      chunks, currentChunk, currentSize := ChunkStep(chunks, currentChunk, currentSize, i, sentences[i], similarities);
      i := i + 1;
    }
    assert sentences[..i] == sentences;
  }

  /** The final buffer after the loop. */
  method FlushChunks(chunks: seq<string>, currentChunk: seq<string>, currentSize: nat) returns (chunks': seq<string>)
    ensures chunks' == Flush(Buffer(chunks, currentChunk, currentSize), ChunkText)
  {
    chunks' := chunks;
    if currentChunk != [] {
      var chunkText := ChunkText(currentChunk);
      if |chunkText| >= MinChunkSize {
        chunks' := chunks' + [chunkText];
      }
    }
  }

  /** The body of the sentence loop. */
  method ChunkStep(chunks: seq<string>, currentChunk: seq<string>, currentSize: nat, i: nat, sentence: string, similarities: seq<real>)
    returns (chunks': seq<string>, currentChunk': seq<string>, currentSize': nat)
    ensures Buffer(chunks', currentChunk', currentSize') == Step(Buffer(chunks, currentChunk, currentSize), i, sentence, similarities, ChunkText)
  {
    chunks', currentChunk', currentSize' := chunks, currentChunk + [sentence], currentSize + |sentence|;
    var shouldSplit := false;
    if currentSize' >= MaxChunkSize {
      shouldSplit := true;
    } else if currentSize' >= TargetChunkSize && i < |similarities| && similarities[i] < SimilarityThreshold {
      shouldSplit := true;
    } else if i < |similarities| && similarities[i] < TopicShift && currentSize' >= MinChunkSize {
      shouldSplit := true;
    }
    if shouldSplit {
      var chunkText := ChunkText(currentChunk');
      if |chunkText| >= MinChunkSize {
        chunks' := chunks' + [chunkText];
      }
      currentChunk', currentSize' := [], 0;
    }
  }

  // ---------------------------------------------------------------------
  // What the chunks are
  // ---------------------------------------------------------------------

  /** Sentences that neither start nor end with whitespace join into a text that does neither. */
  lemma {:induction false} JoinStripped(xs: seq<string>)
    requires xs != [] && AllClean(xs)
    ensures var j := Join(xs, ". "); |j| > 0 && !IsSpace(j[0]) && !IsSpace(j[|j| - 1])
    decreases |xs|
  {
    if |xs| > 1 {
      assert AllClean(xs[1..]) by {
        forall k | 0 <= k < |xs[1..]| ensures CleanSentence(xs[1..][k]) {
          assert xs[1..][k] == xs[k + 1];
        }
      }
      JoinStripped(xs[1..]);
      var rest := Join(xs[1..], ". ");
      var j := xs[0] + ". " + rest;
      assert j[0] == xs[0][0];
      assert j[|j| - 1] == rest[|rest| - 1];
    } else {
      assert CleanSentence(xs[0]);
    }
  }

  /** A text that neither starts nor ends with whitespace strips to itself. */
  lemma StripUnpadded(s: string)
    requires |s| > 0 && !IsSpace(s[0]) && !IsSpace(s[|s| - 1])
    ensures Strip(s) == s
  {
    assert s[0] !in Whitespace && s[|s| - 1] !in Whitespace;
  }

  /** The closing function keeps clean sentences as they are joined. */
  ghost predicate JoinsClean(close: seq<string> -> string) {
    forall xs {:trigger close(xs)} :: xs != [] && AllClean(xs) ==> close(xs) == Join(xs, ". ")
  }

  /** Stripping cannot shorten a join of clean sentences: the chunk text is that join. */
  lemma ChunkTextJoinsClean()
    ensures JoinsClean(ChunkText)
  {
    forall xs | xs != [] && AllClean(xs) ensures ChunkText(xs) == Join(xs, ". ") {
      JoinStripped(xs);
      StripUnpadded(Join(xs, ". "));
    }
  }

  lemma JoinAtLeast(xs: seq<string>, sep: string)
    requires xs != []
    ensures |Join(xs, sep)| >= SumLengths(xs)
  {
    JoinLength(xs, sep);
    assert (|xs| - 1) * |sep| >= 0;
  }

  /** Non-empty groups of sentences, each at least 800 characters when joined by `. `. */
  predicate LongGroups(groups: seq<seq<string>>) {
    forall k :: 0 <= k < |groups| ==> groups[k] != [] && |Join(groups[k], ". ")| >= MinChunkSize
  }

  /**
   * The loop state `b` after `sentences` with closed groups `groups`: the
   * sentences are the groups followed by the buffer, the chunks are the
   * groups joined, and the size is the buffer's length.
   */
  predicate Partition(sentences: seq<string>, groups: seq<seq<string>>, b: Buffer) {
    && Flatten(groups) + b.current == sentences
    && b.chunks == JoinEach(groups, ". ")
    && b.size == SumLengths(b.current)
    && AllClean(b.current)
    && LongGroups(groups)
  }

  /**
   * The loop loses nothing: the sentences are the closed groups followed by
   * the buffer, every closed group was long enough to be kept, and the
   * chunks are exactly the closed groups joined by `. `.
   */
  lemma {:induction false} FoldPartition(sentences: seq<string>, sims: seq<real>, close: seq<string> -> string) returns (groups: seq<seq<string>>)
    requires AllClean(sentences) && JoinsClean(close)
    ensures Partition(sentences, groups, Fold(sentences, sims, close))
    decreases |sentences|
  {
    if sentences == [] {
      groups := [];
      return;
    }
    var init := sentences[..|sentences| - 1];
    var s := sentences[|sentences| - 1];
    assert AllClean(init) by {
      forall k | 0 <= k < |init| ensures CleanSentence(init[k]) {
        assert init[k] == sentences[k];
      }
    }
    var g0 := FoldPartition(init, sims, close);
    assert sentences == init + [s];
    groups := PartitionStep(init, s, g0, Fold(init, sims, close), sims, close);
  }

  /** One sentence more keeps the partition. */
  lemma PartitionStep(init: seq<string>, s: string, g0: seq<seq<string>>, b0: Buffer, sims: seq<real>, close: seq<string> -> string)
    returns (groups: seq<seq<string>>)
    requires CleanSentence(s) && JoinsClean(close)
    requires Partition(init, g0, b0)
    ensures Partition(init + [s], groups, Step(b0, |init|, s, sims, close))
  {
    var current := b0.current + [s];
    SumLengthsAppend(b0.current, s);
    assert AllClean(current) by {
      forall k | 0 <= k < |current| ensures CleanSentence(current[k]) {
        if k < |b0.current| {
          assert current[k] == b0.current[k];
        }
      }
    }
    assert Flatten(g0) + current == init + [s];
    if ShouldSplit(b0.size + |s|, |init|, sims) {
      groups := CloseStep(init + [s], g0, b0.chunks, current, close);
    } else {
      groups := g0;
    }
  }

  /** Closing a buffer of at least 800 characters adds it as a group. */
  lemma CloseStep(sentences: seq<string>, g0: seq<seq<string>>, chunks: seq<string>, current: seq<string>, close: seq<string> -> string)
    returns (groups: seq<seq<string>>)
    requires JoinsClean(close) && current != [] && AllClean(current)
    requires Flatten(g0) + current == sentences && chunks == JoinEach(g0, ". ") && LongGroups(g0)
    requires SumLengths(current) >= MinChunkSize
    ensures Partition(sentences, groups, Buffer(Closed(chunks, close(current)), [], 0))
  {
    JoinAtLeast(current, ". ");
    assert close(current) == Join(current, ". ");
    groups := g0 + [current];
    LongGroupsAppend(g0, current);
    ClosedJoins(g0, chunks, current, close(current));
    FlattenAppend(g0, current);
    assert Flatten(groups) + [] == Flatten(groups);
  }

  lemma LongGroupsAppend(g0: seq<seq<string>>, current: seq<string>)
    requires LongGroups(g0) && current != [] && |Join(current, ". ")| >= MinChunkSize
    ensures LongGroups(g0 + [current])
  {
    var groups := g0 + [current];
    forall k | 0 <= k < |groups| ensures groups[k] != [] && |Join(groups[k], ". ")| >= MinChunkSize {
      if k < |g0| {
        assert groups[k] == g0[k];
      }
    }
  }

  lemma ClosedJoins(g0: seq<seq<string>>, chunks: seq<string>, current: seq<string>, chunkText: string)
    requires chunks == JoinEach(g0, ". ") && chunkText == Join(current, ". ") && |chunkText| >= MinChunkSize
    ensures Closed(chunks, chunkText) == JoinEach(g0 + [current], ". ")
  {
    JoinEachAppend(g0, current, ". ");
  }

  /**
   * With two or more sentences, the chunks are consecutive groups of the
   * sentences joined by `. `, each at least 800 characters; the sentences
   * left over, if any, are the last ones, and they joined are shorter than
   * 800 characters.
   */
  lemma SemanticChunksCover(text: string, sims: seq<real>) returns (groups: seq<seq<string>>, rest: seq<string>)
    requires |Sentences(text)| >= 2
    ensures Flatten(groups) + rest == Sentences(text)
    ensures SemanticChunks(text, sims) == JoinEach(groups, ". ")
    ensures LongGroups(groups)
    ensures rest == [] || |Join(rest, ". ")| < MinChunkSize
  {
    var sentences := Sentences(text);
    CleanSentencesShape(SentencePieces(text));
    ChunkTextJoinsClean();
    var g := FoldPartition(sentences, sims, ChunkText);
    groups, rest := FlushPartition(sentences, g, Fold(sentences, sims, ChunkText), ChunkText);
  }

  lemma FlushPartition(sentences: seq<string>, g: seq<seq<string>>, b: Buffer, close: seq<string> -> string)
    returns (groups: seq<seq<string>>, rest: seq<string>)
    requires JoinsClean(close)
    requires Partition(sentences, g, b)
    ensures Flatten(groups) + rest == sentences
    ensures Flush(b, close) == JoinEach(groups, ". ")
    ensures LongGroups(groups)
    ensures rest == [] || |Join(rest, ". ")| < MinChunkSize
  {
    if b.current != [] && |close(b.current)| >= MinChunkSize {
      groups, rest := g + [b.current], [];
      FlattenAppend(g, b.current);
      JoinEachAppend(g, b.current, ". ");
      assert Flatten(groups) + [] == Flatten(groups);
    } else {
      groups, rest := g, b.current;
    }
  }

  /** Every chunk has at least 800 characters, on both paths. */
  lemma ChunksLongEnough(text: string, sims: seq<real>)
    ensures forall c :: c in SemanticChunks(text, sims) ==> |c| >= MinChunkSize
  {
    if |Sentences(text)| >= 2 {
      var groups, rest := SemanticChunksCover(text, sims);
      var cs := SemanticChunks(text, sims);
      forall c | c in cs ensures |c| >= MinChunkSize {
        var k :| 0 <= k < |cs| && cs[k] == c;
        assert c == Join(groups[k], ". ");
      }
    }
  }
}
