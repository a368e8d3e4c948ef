// The style chunker for the humour corpus: ASCII vector identifiers built
// from file names, paragraph packing that keeps aphorisms and dialogues
// whole, the post-processing merge of short pieces, the decision whether a
// chunk goes to the relevance filter, and the retry policy around API
// calls.

module EnhancedChunker {
  import opened Text
  import Transliteration

  // ---------------------------------------------------------------------
  // Vector identifiers

  /** `string.ascii_letters + string.digits + '-_'`. */
  predicate IsSafeChar(c: char) {
    IsAsciiLetter(c) || IsAsciiDigit(c) || c == '-' || c == '_'
  }

  /** Characters that become a hyphen instead of being dropped. */
  const HyphenChars: string := " .()[]{}"

  const MaxNameLength: nat := 50

  /** Step 2 for one character: its Latin spelling, or the character itself. */
  function TransliterateChar(c: char): string {
    match Transliteration.Latin(c)
    case Some(l) => l
    case None => [c]
  }

  function Transliterated(s: string): string {
    if s == [] then [] else Transliterated(s[..|s| - 1]) + TransliterateChar(s[|s| - 1])
  }

  /** Step 3 for one character: kept when safe, a hyphen for spaces, dots and brackets, else dropped. */
  function SanitizeChar(c: char): (r: string)
    ensures forall i :: 0 <= i < |r| ==> IsSafeChar(r[i])
  {
    if IsSafeChar(c) then [c] else if c in HyphenChars then "-" else ""
  }

  function Sanitized(s: string): (r: string)
    ensures AllChars(r, IsSafeChar)
  {
    if s == [] then [] else Sanitized(s[..|s| - 1]) + SanitizeChar(s[|s| - 1])
  }

  /** Step 5: names longer than 50 are cut and lose the hyphens the cut exposes. */
  function Shortened(n: string): string {
    if |n| > MaxNameLength then TrimRight(n[..MaxNameLength], {'-'}) else n
  }

  /** The file-name part of the identifier: steps 1 to 5. */
  function NormalizedName(filename: string): string {
    var squeezed := CapRuns(Sanitized(Transliterated(SplitExt(filename).0)), '-', 1);
    Shortened(StripChars(squeezed, {'-'}))
  }

  predicate IsAscii(s: string) {
    forall i :: 0 <= i < |s| ==> s[i] as int < 128
  }

  /**
   * `generate_safe_vector_id`; `md5Hex` is the hexadecimal MD5 digest of
   * the UTF-8 bytes of its argument.
   */
  function SafeVectorId(indexName: string, filename: string, chunkIdx: nat, md5Hex: string -> string): string {
    var id := indexName + "-" + NormalizedName(filename) + "-" + NatToString(chunkIdx);
    if IsAscii(id) then id
    else indexName + "-file-" + Take(md5Hex(SplitExt(filename).0), 8) + "-" + NatToString(chunkIdx)
  }

  method GenerateSafeVectorId(indexName: string, filename: string, chunkIdx: nat, md5Hex: string -> string)
    returns (safeId: string)
    ensures safeId == SafeVectorId(indexName, filename, chunkIdx, md5Hex)
  {
    var cleanFilename := SplitExt(filename).0;
    var transliterated := TransliterateName(cleanFilename);
    var normalized := SanitizeName(transliterated);

    ghost var sanitized := normalized;
    while Contains(normalized, "--")
      invariant CapRuns(normalized, '-', 1) == CapRuns(sanitized, '-', 1)
      decreases |normalized|
    {
      ReplaceDoubledShrinks(normalized, '-');
      ReplaceDoubledKeepsSqueeze(normalized, '-', 0);
      normalized := ReplaceAll(normalized, "--", "-");
    }
    SqueezeFixed(normalized, '-', 0);
    normalized := StripChars(normalized, {'-'});

    if |normalized| > MaxNameLength {
      normalized := TrimRight(normalized[..MaxNameLength], {'-'});
    }

    safeId := indexName + "-" + normalized + "-" + NatToString(chunkIdx);
    if !IsAscii(safeId) {
      var hashPart := Take(md5Hex(cleanFilename), 8);
      safeId := indexName + "-file-" + hashPart + "-" + NatToString(chunkIdx);
    }
  }

  /** Step 2: the loop over the characters of the name through the table. */
  method TransliterateName(cleanFilename: string) returns (transliterated: string)
    ensures transliterated == Transliterated(cleanFilename)
  {
    transliterated := "";
    var i := 0;
    while i < |cleanFilename|
      invariant 0 <= i <= |cleanFilename|
      invariant transliterated == Transliterated(cleanFilename[..i])
    {
      var c := cleanFilename[i];
      match Transliteration.Latin(c) {
        case Some(l) => transliterated := transliterated + l;
        case None => transliterated := transliterated + [c];
      }
      assert cleanFilename[..i + 1][..i] == cleanFilename[..i];
      i := i + 1;
    }
    assert cleanFilename[..i] == cleanFilename;
  }

  /** Step 3: the loop that keeps safe characters and turns separators into hyphens. */
  method SanitizeName(transliterated: string) returns (normalized: string)
    ensures normalized == Sanitized(transliterated)
  {
    normalized := "";
    var i := 0;
    while i < |transliterated|
      invariant 0 <= i <= |transliterated|
      invariant normalized == Sanitized(transliterated[..i])
    {
      var c := transliterated[i];
      if IsSafeChar(c) {
        normalized := normalized + [c];
      } else if c in HyphenChars {
        normalized := normalized + "-";
      }
      assert transliterated[..i + 1][..i] == transliterated[..i];
      i := i + 1;
    }
    assert transliterated[..i] == transliterated;
  }

  /** What one character of the file name contributes to the name part of the identifier. */
  function IdPiece(c: char): string {
    match Transliteration.Latin(c)
    case Some(l) => l
    case None => SanitizeChar(c)
  }

  function IdPieces(s: string): string {
    if s == [] then [] else IdPieces(s[..|s| - 1]) + IdPiece(s[|s| - 1])
  }

  lemma {:induction false} SanitizedConcat(a: string, b: string)
    ensures Sanitized(a + b) == Sanitized(a) + Sanitized(b)
    decreases |b|
  {
    if b != [] {
      var b' := b[..|b| - 1];
      assert (a + b)[..|a + b| - 1] == a + b';
      SanitizedConcat(a, b');
    } else {
      assert a + b == a;
    }
  }

  lemma {:induction false} SanitizedSafe(s: string)
    requires AllChars(s, IsSafeChar)
    ensures Sanitized(s) == s
    decreases |s|
  {
    if s != [] {
      var init := s[..|s| - 1];
      assert AllChars(init, IsSafeChar) by {
        forall i | 0 <= i < |init| ensures IsSafeChar(init[i]) { assert init[i] == s[i]; }
      }
      SanitizedSafe(init);
      assert s == init + [s[|s| - 1]];
    }
  }

  /**
   * Russian letters become their Latin spelling, spaces, dots and brackets
   * become hyphens, other safe characters stay and all else is dropped,
   * character by character.
   */
  lemma {:induction false} SanitizedTransliteration(s: string)
    ensures Sanitized(Transliterated(s)) == IdPieces(s)
    decreases |s|
  {
    if s != [] {
      var init := s[..|s| - 1];
      var c := s[|s| - 1];
      SanitizedTransliteration(init);
      SanitizedConcat(Transliterated(init), TransliterateChar(c));
      match Transliteration.Latin(c) {
        case Some(l) =>
          assert AllChars(l, IsSafeChar);
          SanitizedSafe(l);
        case None =>
          assert Sanitized([c]) == Sanitized([]) + SanitizeChar(c) by {
            assert [c][..0] == [];
          }
      }
    }
  }

  /** A safe string without doubled hyphens. */
  predicate SafeSqueezed(s: string) {
    AllChars(s, IsSafeChar) && !Contains(s, "--")
  }

  lemma StrippedSafe(squeezed: string)
    requires SafeSqueezed(squeezed)
    ensures var t := StripChars(squeezed, {'-'});
      SafeSqueezed(t) && (t == [] || (t[0] != '-' && t[|t| - 1] != '-'))
  {
    TrimmedSlice(squeezed, {'-'}, "--", IsSafeChar);
    TrimmedSlice(TrimLeft(squeezed, {'-'}), {'-'}, "--", IsSafeChar);
  }

  lemma ShortenedSafe(t: string)
    requires SafeSqueezed(t) && (t == [] || (t[0] != '-' && t[|t| - 1] != '-'))
    ensures var n := Shortened(t);
      SafeSqueezed(n) && (n == [] || (n[0] != '-' && n[|n| - 1] != '-')) && |n| <= MaxNameLength
  {
    if |t| > MaxNameLength {
      var cut := t[..MaxNameLength];
      SliceKeeps(t, 0, MaxNameLength, "--", IsSafeChar);
      assert t[0..MaxNameLength] == cut;
      TrimmedSlice(cut, {'-'}, "--", IsSafeChar);
      var n := TrimRight(cut, {'-'});
      assert n == cut[..|n|];
      assert Shortened(t) == n;
      if n != [] {
        assert n[0] == cut[0] == t[0];
      }
    }
  }

  /** Stripping the hyphens and shortening keep a safe string without doubled hyphens so. */
  lemma StrippedShape(squeezed: string)
    requires SafeSqueezed(squeezed)
    ensures var n := Shortened(StripChars(squeezed, {'-'}));
      SafeSqueezed(n) && (n == [] || (n[0] != '-' && n[|n| - 1] != '-')) && |n| <= MaxNameLength
  {
    StrippedSafe(squeezed);
    ShortenedSafe(StripChars(squeezed, {'-'}));
  }

  /**
   * The name part holds only ASCII letters, digits, `-` and `_`, has no
   * doubled hyphen, neither starts nor ends with one, and is at most 50 long.
   */
  lemma NormalizedNameShape(filename: string)
    ensures var n := NormalizedName(filename);
      && AllChars(n, IsSafeChar)
      && !Contains(n, "--")
      && (n == [] || (n[0] != '-' && n[|n| - 1] != '-'))
      && |n| <= MaxNameLength
  {
    var sanitized := Sanitized(Transliterated(SplitExt(filename).0));
    var squeezed := CapRuns(sanitized, '-', 1);
    SqueezedNoDouble(sanitized, '-', 0);
    assert AllChars(squeezed, IsSafeChar) by {
      forall i | 0 <= i < |squeezed| ensures IsSafeChar(squeezed[i]) {
        var j :| 0 <= j < |sanitized| && sanitized[j] == squeezed[i];
      }
    }
    StrippedShape(squeezed);
  }

  lemma AsciiId(indexName: string, n: string, d: string)
    requires IsAscii(indexName) && AllChars(n, IsSafeChar)
    requires forall i :: 0 <= i < |d| ==> IsAsciiDigit(d[i])
    ensures IsAscii(indexName + "-" + n + "-" + d)
  {
    var id := indexName + "-" + n + "-" + d;
    forall i | 0 <= i < |id| ensures id[i] as int < 128 {
      if i < |indexName| {
        assert id[i] == indexName[i];
      } else if i == |indexName| {
      } else if i < |indexName| + 1 + |n| {
        assert id[i] == n[i - |indexName| - 1];
        assert IsSafeChar(n[i - |indexName| - 1]);
      } else if i == |indexName| + 1 + |n| {
      } else {
        assert id[i] == d[i - |indexName| - 2 - |n|];
      }
    }
  }

  /** For an ASCII index name the identifier is `{index}-{name}-{chunk}`. */
  lemma SafeVectorIdFormat(indexName: string, filename: string, chunkIdx: nat, md5Hex: string -> string)
    requires IsAscii(indexName)
    ensures SafeVectorId(indexName, filename, chunkIdx, md5Hex)
            == indexName + "-" + NormalizedName(filename) + "-" + NatToString(chunkIdx)
  {
    NormalizedNameShape(filename);
    AsciiId(indexName, NormalizedName(filename), NatToString(chunkIdx));
  }

  // ---------------------------------------------------------------------
  // Style-aware packing

  /** The `StyleChunkingConfig` sizes. */
  const MinChunkSize: nat := 300
  const IdealChunkSize: nat := 800
  const MaxChunkSize: nat := 1500

  /** A paragraph that always becomes a chunk of its own. */
  predicate Standalone(p: string, aphorism: string -> bool, dialogue: string -> bool) {
    aphorism(p) || (dialogue(p) && |p| <= MaxChunkSize)
  }

  /** The loop state: the chunks closed so far, as paragraph groups, and the pending group with its size. */
  datatype Packing = Packing(groups: seq<seq<string>>, current: seq<string>, currentSize: nat)

  /** One turn of the loop of `create_style_aware_chunks`; `aphorism` and `dialogue` are the analyser's detectors. */
  function PackStep(st: Packing, p: string, aphorism: string -> bool, dialogue: string -> bool): Packing {
    if aphorism(p) then
      if st.current != [] && st.currentSize >= MinChunkSize then Packing(st.groups + [st.current, [p]], [], 0)
      else Packing(st.groups + [[p]], st.current, st.currentSize)
    else if dialogue(p) && |p| <= MaxChunkSize then
      if st.current != [] then Packing(st.groups + [st.current, [p]], [], 0)
      else Packing(st.groups + [[p]], st.current, st.currentSize)
    else
      var potential := if st.current != [] then st.currentSize + |p| + 2 else |p|;
      if potential > IdealChunkSize && st.currentSize >= MinChunkSize then Packing(st.groups + [st.current], [p], |p|)
      else Packing(st.groups, st.current + [p], if st.current == [] then |p| else st.currentSize + |p| + 2)
  }

  function Pack(ps: seq<string>, aphorism: string -> bool, dialogue: string -> bool): Packing {
    if ps == [] then Packing([], [], 0)
    else PackStep(Pack(ps[..|ps| - 1], aphorism, dialogue), ps[|ps| - 1], aphorism, dialogue)
  }

  /** The paragraph groups of the chunks, after the final flush. */
  function StyleGroups(ps: seq<string>, aphorism: string -> bool, dialogue: string -> bool): seq<seq<string>> {
    var st := Pack(ps, aphorism, dialogue);
    if st.current != [] then st.groups + [st.current] else st.groups
  }

  /** Every paragraph the state holds, closed groups first. */
  function Held(st: Packing): seq<string> {
    Flatten(st.groups) + st.current
  }

  /** A group holding a standalone paragraph holds nothing else. */
  predicate GroupOk(g: seq<string>, aphorism: string -> bool, dialogue: string -> bool) {
    g != [] && forall j :: 0 <= j < |g| && Standalone(g[j], aphorism, dialogue) ==> g == [g[j]]
  }

  predicate GroupsOk(gs: seq<seq<string>>, aphorism: string -> bool, dialogue: string -> bool) {
    forall i :: 0 <= i < |gs| ==> GroupOk(gs[i], aphorism, dialogue)
  }

  predicate NoStandalone(g: seq<string>, aphorism: string -> bool, dialogue: string -> bool) {
    forall j :: 0 <= j < |g| ==> !Standalone(g[j], aphorism, dialogue)
  }

  /** What the loop keeps: the size of the pending group, good closed groups, no standalone paragraph pending. */
  predicate WellPacked(st: Packing, aphorism: string -> bool, dialogue: string -> bool) {
    && st.currentSize == |Join(st.current, "\n\n")|
    && GroupsOk(st.groups, aphorism, dialogue)
    && NoStandalone(st.current, aphorism, dialogue)
  }

  lemma GroupsOkAppend(gs: seq<seq<string>>, g: seq<string>, aphorism: string -> bool, dialogue: string -> bool)
    requires GroupsOk(gs, aphorism, dialogue) && GroupOk(g, aphorism, dialogue)
    ensures GroupsOk(gs + [g], aphorism, dialogue)
  {
    assert forall i :: 0 <= i < |gs| ==> (gs + [g])[i] == gs[i];
  }

  lemma PendingGroupOk(g: seq<string>, aphorism: string -> bool, dialogue: string -> bool)
    requires g != [] && NoStandalone(g, aphorism, dialogue)
    ensures GroupOk(g, aphorism, dialogue)
  {
  }

  lemma NoStandaloneAppend(g: seq<string>, p: string, aphorism: string -> bool, dialogue: string -> bool)
    requires NoStandalone(g, aphorism, dialogue) && !Standalone(p, aphorism, dialogue)
    ensures NoStandalone(g + [p], aphorism, dialogue)
  {
    assert forall j :: 0 <= j < |g| ==> (g + [p])[j] == g[j];
  }

  /** Closing the pending group and then a standalone paragraph. */
  lemma CloseTwo(st: Packing, p: string, aphorism: string -> bool, dialogue: string -> bool)
    requires WellPacked(st, aphorism, dialogue) && st.current != []
    ensures GroupsOk(st.groups + [st.current, [p]], aphorism, dialogue)
    ensures multiset(Flatten(st.groups + [st.current, [p]])) == multiset(Held(st)) + multiset{p}
  {
    PendingGroupOk(st.current, aphorism, dialogue);
    GroupsOkAppend(st.groups, st.current, aphorism, dialogue);
    assert GroupOk([p], aphorism, dialogue);
    GroupsOkAppend(st.groups + [st.current], [p], aphorism, dialogue);
    assert st.groups + [st.current, [p]] == (st.groups + [st.current]) + [[p]];
    FlattenAppend(st.groups, st.current);
    FlattenAppend(st.groups + [st.current], [p]);
  }

  lemma PackStepKeeps(st: Packing, p: string, aphorism: string -> bool, dialogue: string -> bool)
    requires WellPacked(st, aphorism, dialogue)
    ensures WellPacked(PackStep(st, p, aphorism, dialogue), aphorism, dialogue)
    ensures multiset(Held(PackStep(st, p, aphorism, dialogue))) == multiset(Held(st)) + multiset{p}
  {
    if Standalone(p, aphorism, dialogue) {
      StandaloneStepKeeps(st, p, aphorism, dialogue);
    } else {
      PlainStepKeeps(st, p, aphorism, dialogue);
    }
  }

  lemma StandaloneStepKeeps(st: Packing, p: string, aphorism: string -> bool, dialogue: string -> bool)
    requires WellPacked(st, aphorism, dialogue) && Standalone(p, aphorism, dialogue)
    ensures WellPacked(PackStep(st, p, aphorism, dialogue), aphorism, dialogue)
    ensures multiset(Held(PackStep(st, p, aphorism, dialogue))) == multiset(Held(st)) + multiset{p}
  {
    if st.current != [] && (st.currentSize >= MinChunkSize || !aphorism(p)) {
      CloseTwo(st, p, aphorism, dialogue);
    } else {
      assert GroupOk([p], aphorism, dialogue);
      GroupsOkAppend(st.groups, [p], aphorism, dialogue);
      FlattenAppend(st.groups, [p]);
    }
  }

  lemma PlainStepKeeps(st: Packing, p: string, aphorism: string -> bool, dialogue: string -> bool)
    requires WellPacked(st, aphorism, dialogue) && !Standalone(p, aphorism, dialogue)
    ensures WellPacked(PackStep(st, p, aphorism, dialogue), aphorism, dialogue)
    ensures multiset(Held(PackStep(st, p, aphorism, dialogue))) == multiset(Held(st)) + multiset{p}
  {
    var potential := if st.current != [] then st.currentSize + |p| + 2 else |p|;
    if potential > IdealChunkSize && st.currentSize >= MinChunkSize {
      assert st.current != [];
      PendingGroupOk(st.current, aphorism, dialogue);
      GroupsOkAppend(st.groups, st.current, aphorism, dialogue);
      FlattenAppend(st.groups, st.current);
      NoStandaloneAppend([], p, aphorism, dialogue);
      assert [] + [p] == [p];
    } else {
      JoinAppend(st.current, p, "\n\n");
      NoStandaloneAppend(st.current, p, aphorism, dialogue);
    }
  }

  lemma {:induction false} PackWellPacked(ps: seq<string>, aphorism: string -> bool, dialogue: string -> bool)
    ensures WellPacked(Pack(ps, aphorism, dialogue), aphorism, dialogue)
    ensures multiset(Held(Pack(ps, aphorism, dialogue))) == multiset(ps)
    decreases |ps|
  {
    if ps != [] {
      var init, p := ps[..|ps| - 1], ps[|ps| - 1];
      PackWellPacked(init, aphorism, dialogue);
      var st := Pack(init, aphorism, dialogue);
      PackStepKeeps(st, p, aphorism, dialogue);
      SplitLast(ps);
    }
  }

  /**
   * Before post-processing every paragraph lands in exactly one chunk, no
   * chunk is empty, and aphorisms and dialogues of at most 1500 characters
   * are chunks of their own.
   */
  lemma StyleGroupsCover(ps: seq<string>, aphorism: string -> bool, dialogue: string -> bool)
    ensures multiset(Flatten(StyleGroups(ps, aphorism, dialogue))) == multiset(ps)
    ensures GroupsOk(StyleGroups(ps, aphorism, dialogue), aphorism, dialogue)
  {
    var st := Pack(ps, aphorism, dialogue);
    PackWellPacked(ps, aphorism, dialogue);
    if st.current != [] {
      FlattenAppend(st.groups, st.current);
      PendingGroupOk(st.current, aphorism, dialogue);
      GroupsOkAppend(st.groups, st.current, aphorism, dialogue);
    }
  }

  /** The pending size is the length of the pending group joined by blank lines. */
  lemma PendingSize(ps: seq<string>, aphorism: string -> bool, dialogue: string -> bool)
    ensures var st := Pack(ps, aphorism, dialogue);
      st.currentSize == |Join(st.current, "\n\n")|
  {
    PackWellPacked(ps, aphorism, dialogue);
  }

  /** `re.sub(r'\n{3,}', '\n\n', s)` followed by `re.sub(r' {2,}', ' ', s)`. */
  function Tidy(s: string): string {
    CapRuns(CapRuns(s, '\n', 2), ' ', 1)
  }

  /** One turn of `_post_process_style_chunks`. */
  function PostStep(processed: seq<string>, chunk: string, aphorism: string -> bool): seq<string> {
    var cleaned := Strip(chunk);
    if |cleaned| < MinChunkSize && !aphorism(cleaned) && processed != []
       && |processed[|processed| - 1] + "\n\n" + cleaned| <= MaxChunkSize
    then processed[..|processed| - 1] + [processed[|processed| - 1] + "\n\n" + cleaned]
    else processed + [Tidy(cleaned)]
  }

  function PostProcessed(chunks: seq<string>, aphorism: string -> bool): seq<string> {
    if chunks == [] then []
    else PostStep(PostProcessed(chunks[..|chunks| - 1], aphorism), chunks[|chunks| - 1], aphorism)
  }

  /** Each input chunk, stripped and tidied, as it is when nothing merges. */
  function TidiedEach(chunks: seq<string>): (r: seq<string>)
    ensures |r| == |chunks|
    ensures forall i :: 0 <= i < |r| ==> r[i] == Tidy(Strip(chunks[i]))
  {
    seq(|chunks|, i requires 0 <= i < |chunks| => Tidy(Strip(chunks[i])))
  }

  lemma TidiedEachStep(chunks: seq<string>)
    requires chunks != []
    ensures TidiedEach(chunks) == TidiedEach(chunks[..|chunks| - 1]) + [Tidy(Strip(chunks[|chunks| - 1]))]
  {
    var init := chunks[..|chunks| - 1];
    var r := TidiedEach(init) + [Tidy(Strip(chunks[|chunks| - 1]))];
    forall i | 0 <= i < |chunks| ensures TidiedEach(chunks)[i] == r[i] {
      if i < |init| { assert init[i] == chunks[i]; }
    }
  }

  /** Every chunk is one of `from` or at most 1500 characters long. */
  predicate FromOrBounded(out: seq<string>, from: seq<string>) {
    forall k :: 0 <= k < |out| ==> out[k] in from || |out[k]| <= MaxChunkSize
  }

  lemma PostStepShape(prev: seq<string>, chunk: string, aphorism: string -> bool, from: seq<string>)
    requires FromOrBounded(prev, from)
    ensures var out := PostStep(prev, chunk, aphorism);
      && 0 < |out| <= |prev| + 1
      && FromOrBounded(out, from + [Tidy(Strip(chunk))])
  {
    var out := PostStep(prev, chunk, aphorism);
    var from' := from + [Tidy(Strip(chunk))];
    forall k | 0 <= k < |out| ensures out[k] in from' || |out[k]| <= MaxChunkSize {
      if k < |prev| && out[k] == prev[k] {
        assert prev[k] in from || |prev[k]| <= MaxChunkSize;
      } else {
        assert |out[k]| <= MaxChunkSize || out[k] == from'[|from|];
      }
    }
  }

  /**
   * Post-processing never adds chunks and keeps at least one, and every
   * chunk it outputs is either an input chunk stripped and tidied or, having
   * absorbed short pieces, at most 1500 characters long.
   */
  lemma {:induction false} PostProcessedShape(chunks: seq<string>, aphorism: string -> bool)
    ensures var out := PostProcessed(chunks, aphorism);
      && |out| <= |chunks|
      && (chunks != [] ==> out != [])
      && FromOrBounded(out, TidiedEach(chunks))
    decreases |chunks|
  {
    if chunks != [] {
      var init := chunks[..|chunks| - 1];
      PostProcessedShape(init, aphorism);
      PostStepShape(PostProcessed(init, aphorism), chunks[|chunks| - 1], aphorism, TidiedEach(init));
      TidiedEachStep(chunks);
    }
  }

  /** Where no chunk is short (or every short one is an aphorism), post-processing only strips and tidies. */
  lemma {:induction false} PostProcessedNoMerge(chunks: seq<string>, aphorism: string -> bool)
    requires forall i :: 0 <= i < |chunks| ==> |Strip(chunks[i])| >= MinChunkSize || aphorism(Strip(chunks[i]))
    ensures PostProcessed(chunks, aphorism) == TidiedEach(chunks)
    decreases |chunks|
  {
    if chunks != [] {
      PostProcessedNoMerge(chunks[..|chunks| - 1], aphorism);
      TidiedEachStep(chunks);
    }
  }

  method PostProcessStyleChunks(chunks: seq<string>, aphorism: string -> bool) returns (processed: seq<string>)
    ensures processed == PostProcessed(chunks, aphorism)
  {
    processed := [];
    var i := 0;
    while i < |chunks|
      invariant 0 <= i <= |chunks|
      invariant processed == PostProcessed(chunks[..i], aphorism)
    {
      assert chunks[..i + 1][..i] == chunks[..i];
      var cleaned := Strip(chunks[i]);
      i := i + 1;
      if |cleaned| < MinChunkSize && !aphorism(cleaned) {
        if processed != [] && |processed[|processed| - 1] + "\n\n" + cleaned| <= MaxChunkSize {
          processed := processed[..|processed| - 1] + [processed[|processed| - 1] + "\n\n" + cleaned];
          continue;
        }
      }
      cleaned := CapRuns(cleaned, '\n', 2);
      cleaned := CapRuns(cleaned, ' ', 1);
      processed := processed + [cleaned];
    }
    assert chunks[..i] == chunks;
  }

  /** `create_style_aware_chunks`: pack the paragraphs, then post-process the joined groups. */
  method CreateStyleAwareChunks(content: string, aphorism: string -> bool, dialogue: string -> bool)
    returns (processed: seq<string>)
    ensures processed
            == PostProcessed(JoinEach(StyleGroups(Paragraphs(content), aphorism, dialogue), "\n\n"), aphorism)
  {
    var paragraphs := Paragraphs(content);
    var chunks := PackParagraphs(paragraphs, aphorism, dialogue);
    processed := PostProcessStyleChunks(chunks, aphorism);
  }

  /** The packing loop of `create_style_aware_chunks`, up to the final flush. */
  method PackParagraphs(paragraphs: seq<string>, aphorism: string -> bool, dialogue: string -> bool)
    returns (chunks: seq<string>)
    ensures chunks == JoinEach(StyleGroups(paragraphs, aphorism, dialogue), "\n\n")
  {
    chunks := [];
    var currentChunk: seq<string> := [];
    var currentSize := 0;
    var i := 0;
    while i < |paragraphs|
      invariant 0 <= i <= |paragraphs|
      invariant chunks == JoinEach(Pack(paragraphs[..i], aphorism, dialogue).groups, "\n\n")
      invariant currentChunk == Pack(paragraphs[..i], aphorism, dialogue).current
      invariant currentSize == Pack(paragraphs[..i], aphorism, dialogue).currentSize
    {
      assert paragraphs[..i + 1][..i] == paragraphs[..i];
      chunks, currentChunk, currentSize :=
        PackTurn(chunks, currentChunk, currentSize, paragraphs[i], aphorism, dialogue, Pack(paragraphs[..i], aphorism, dialogue));
      i := i + 1;
    }
    assert paragraphs[..i] == paragraphs;
    if currentChunk != [] {
      JoinEachAppend(Pack(paragraphs, aphorism, dialogue).groups, currentChunk, "\n\n");
      chunks := chunks + [Join(currentChunk, "\n\n")];
    }
  }

  /** One turn of the packing loop on the concrete state that `st` describes. */
  method PackTurn(chunks: seq<string>, currentChunk: seq<string>, currentSize: nat, paragraph: string,
                  aphorism: string -> bool, dialogue: string -> bool, ghost st: Packing)
    returns (chunks': seq<string>, currentChunk': seq<string>, currentSize': nat)
    requires chunks == JoinEach(st.groups, "\n\n") && currentChunk == st.current && currentSize == st.currentSize
    ensures var st' := PackStep(st, paragraph, aphorism, dialogue);
      chunks' == JoinEach(st'.groups, "\n\n") && currentChunk' == st'.current && currentSize' == st'.currentSize
  {
    chunks', currentChunk', currentSize' := chunks, currentChunk, currentSize;
    ghost var groups := st.groups;
    if aphorism(paragraph) || (dialogue(paragraph) && |paragraph| <= MaxChunkSize) {
      // An aphorism closes the pending chunk only once it is large enough;
      // a dialogue of at most `MaxChunkSize` always closes it.
      if currentChunk != [] && (!aphorism(paragraph) || currentSize >= MinChunkSize) {
        JoinEachAppend(groups, currentChunk, "\n\n");
        chunks' := chunks' + [Join(currentChunk, "\n\n")];
        groups := groups + [currentChunk];
        currentChunk', currentSize' := [], 0;
        assert groups + [[paragraph]] == st.groups + [st.current, [paragraph]];
      }
      JoinEachAppend(groups, [paragraph], "\n\n");
      chunks' := chunks' + [paragraph];
    } else {
      var potentialSize := if currentChunk != [] then currentSize + |paragraph| + 2 else |paragraph|;
      if potentialSize > IdealChunkSize && currentSize >= MinChunkSize {
        JoinEachAppend(groups, currentChunk, "\n\n");
        chunks' := chunks' + [Join(currentChunk, "\n\n")];
        currentChunk', currentSize' := [paragraph], |paragraph|;
      } else {
        currentChunk' := currentChunk + [paragraph];
        if |currentChunk'| == 1 {
          currentSize' := |paragraph|;
        } else {
          currentSize' := currentSize + |paragraph| + 2;
        }
      }
    }
  }

  // ---------------------------------------------------------------------
  // Relevance filter routing

  /**
   * Whether `filter_chunk_if_needed` hands the chunk to the relevance
   * filter; the filter object exists exactly when filtering is enabled.
   */
  predicate GoesToFilter(sourceFile: string, enableFiltering: bool) {
    Lower(SplitExt(sourceFile).1) == ".pdf" && enableFiltering
  }

  const TextFileReason: string := "Текстовый файл - фильтрация не применяется"
  const FilterOffReason: string := "Фильтрация отключена"

  /** `filter_chunk_if_needed`; `evaluate` is the filter's verdict on a chunk. */
  function FilterChunkIfNeeded(chunk: string, sourceFile: string, enableFiltering: bool,
                               evaluate: string -> (bool, string)): (r: (bool, string))
    ensures !GoesToFilter(sourceFile, enableFiltering) ==> r.0
    ensures GoesToFilter(sourceFile, enableFiltering) ==> r == evaluate(chunk)
  {
    var ext := Lower(SplitExt(sourceFile).1);
    if ext == ".txt" then (true, TextFileReason)
    else if ext == ".pdf" && enableFiltering then evaluate(chunk)
    else (true, FilterOffReason)
  }

  /** Plain-text files are accepted without consulting the filter, whatever their extension's case. */
  lemma TextFilesAccepted(chunk: string, sourceFile: string, enableFiltering: bool, evaluate: string -> (bool, string))
    requires Lower(SplitExt(sourceFile).1) == ".txt"
    ensures !GoesToFilter(sourceFile, enableFiltering)
    ensures FilterChunkIfNeeded(chunk, sourceFile, enableFiltering, evaluate) == (true, TextFileReason)
  {
    assert ".txt"[1] != ".pdf"[1];
  }

  /** With filtering off every chunk is accepted as unfiltered. */
  lemma DisabledAccepts(chunk: string, sourceFile: string, evaluate: string -> (bool, string))
    ensures FilterChunkIfNeeded(chunk, sourceFile, false, evaluate).0
  {
  }

  // ---------------------------------------------------------------------
  // Retry policy

  /** What the wrapped API call does on a given attempt. */
  datatype Outcome<T> = Succeeded(value: T) | Failed(message: string)

  /** How `retry_api_call` ends: a value, a re-raised error, or `raise None` when no attempt was made. */
  datatype CallResult<T> = Returned(value: T) | Raised(message: string) | RaisedNothing

  /** The `retry_stats` counters. */
  datatype RetryStats = RetryStats(totalRetries: nat, successfulRetries: nat, failedOperations: nat, rateLimitHits: nat)

  /** A rate-limit error: `429` in the message or `quota` in its lower-case form. */
  predicate IsRateLimit(message: string) {
    Contains(message, "429") || Contains(Lower(message), "quota")
  }

  /** A server error: a `5` among the first three characters. */
  predicate IsServerError(message: string) {
    Contains(Take(message, 3), "5")
  }

  predicate IsRecoverable(message: string) {
    IsRateLimit(message) || IsServerError(message)
  }

  /** How a run of the loop ends: the result, the number of calls made, the counters afterwards. */
  datatype RetryRun<T> = RetryRun(result: CallResult<T>, calls: nat, stats: RetryStats)

  /** The fall-through after the loop: one more failed operation, then `raise last_exception`. */
  function Exhausted<T>(last: Option<string>, calls: nat, stats: RetryStats): RetryRun<T> {
    var stats' := stats.(failedOperations := stats.failedOperations + 1);
    match last
    case Some(m) => RetryRun(Raised(m), calls, stats')
    case None => RetryRun(RaisedNothing, calls, stats')
  }

  /** The loop from attempt `attempt` on; `outcome(k)` is what the k-th call does. */
  function RetryFrom<T>(outcome: nat -> Outcome<T>, maxRetries: nat, attempt: nat, stats: RetryStats): RetryRun<T>
    requires 1 <= attempt <= maxRetries
    decreases maxRetries - attempt
  {
    match outcome(attempt)
    case Succeeded(v) =>
      RetryRun(Returned(v), attempt,
               if attempt > 1 then stats.(successfulRetries := stats.successfulRetries + 1) else stats)
    case Failed(m) =>
      if IsRateLimit(m) then
        var hit := stats.(rateLimitHits := stats.rateLimitHits + 1);
        if attempt == maxRetries then Exhausted(Some(m), attempt, hit)
        else RetryFrom(outcome, maxRetries, attempt + 1, hit.(totalRetries := hit.totalRetries + 1))
      else if IsServerError(m) then
        if attempt == maxRetries then Exhausted(Some(m), attempt, stats)
        else RetryFrom(outcome, maxRetries, attempt + 1, stats.(totalRetries := stats.totalRetries + 1))
      else RetryRun(Raised(m), attempt, stats)
  }

  /** `retry_api_call` as a whole. */
  function RetryCall<T>(outcome: nat -> Outcome<T>, maxRetries: nat, stats: RetryStats): RetryRun<T> {
    if maxRetries == 0 then Exhausted(None, 0, stats) else RetryFrom(outcome, maxRetries, 1, stats)
  }

  /** Attempts `from` up to `to` (exclusive) all failed with a recoverable error. */
  predicate RecoverableFailures<T>(outcome: nat -> Outcome<T>, from: nat, to: nat) {
    forall k :: from <= k < to ==> outcome(k).Failed? && IsRecoverable(outcome(k).message)
  }

  /** The function is called at most `max_retries` times, and at least once when it may be. */
  lemma {:induction false} RetryFromCalls<T>(outcome: nat -> Outcome<T>, maxRetries: nat, attempt: nat, stats: RetryStats)
    requires 1 <= attempt <= maxRetries
    ensures attempt <= RetryFrom(outcome, maxRetries, attempt, stats).calls <= maxRetries
    ensures RetryFrom(outcome, maxRetries, attempt, stats).stats.failedOperations <= stats.failedOperations + 1
    decreases maxRetries - attempt
  {
    if outcome(attempt).Failed? && IsRecoverable(outcome(attempt).message) && attempt < maxRetries {
      var m := outcome(attempt).message;
      var hit := if IsRateLimit(m) then stats.(rateLimitHits := stats.rateLimitHits + 1) else stats;
      RetryFromCalls(outcome, maxRetries, attempt + 1, hit.(totalRetries := hit.totalRetries + 1));
    }
  }

  lemma RetryCallCalls<T>(outcome: nat -> Outcome<T>, maxRetries: nat, stats: RetryStats)
    ensures RetryCall(outcome, maxRetries, stats).calls <= maxRetries
    ensures maxRetries > 0 ==> RetryCall(outcome, maxRetries, stats).calls >= 1
    ensures RetryCall(outcome, maxRetries, stats).stats.failedOperations <= stats.failedOperations + 1
  {
    if maxRetries > 0 {
      RetryFromCalls(outcome, maxRetries, 1, stats);
    }
  }

  /**
   * A non-recoverable error on attempt `k`, after recoverable ones only, is
   * re-raised at once: `k` calls, no failed operation counted.
   */
  lemma {:induction false} FatalReraisedFrom<T>(outcome: nat -> Outcome<T>, maxRetries: nat, attempt: nat, k: nat, stats: RetryStats)
    requires 1 <= attempt <= k <= maxRetries
    requires RecoverableFailures(outcome, attempt, k)
    requires outcome(k).Failed? && !IsRecoverable(outcome(k).message)
    ensures var run := RetryFrom(outcome, maxRetries, attempt, stats);
      run.result == Raised(outcome(k).message) && run.calls == k
      && run.stats.failedOperations == stats.failedOperations
    decreases k - attempt
  {
    if attempt < k {
      var m := outcome(attempt).message;
      var hit := if IsRateLimit(m) then stats.(rateLimitHits := stats.rateLimitHits + 1) else stats;
      FatalReraisedFrom(outcome, maxRetries, attempt + 1, k, hit.(totalRetries := hit.totalRetries + 1));
    }
  }

  /** A success on attempt `k`, after recoverable failures only, is returned after `k` calls. */
  lemma {:induction false} SuccessReturnedFrom<T>(outcome: nat -> Outcome<T>, maxRetries: nat, attempt: nat, k: nat, stats: RetryStats)
    requires 1 <= attempt <= k <= maxRetries
    requires RecoverableFailures(outcome, attempt, k)
    requires outcome(k).Succeeded?
    ensures var run := RetryFrom(outcome, maxRetries, attempt, stats);
      run.result == Returned(outcome(k).value) && run.calls == k
      && run.stats.failedOperations == stats.failedOperations
      && run.stats.totalRetries == stats.totalRetries + (k - attempt)
    decreases k - attempt
  {
    if attempt < k {
      var m := outcome(attempt).message;
      var hit := if IsRateLimit(m) then stats.(rateLimitHits := stats.rateLimitHits + 1) else stats;
      SuccessReturnedFrom(outcome, maxRetries, attempt + 1, k, hit.(totalRetries := hit.totalRetries + 1));
    }
  }

  /**
   * When every attempt fails recoverably, all `max_retries` calls are made,
   * `failed_operations` grows by one and the last error is re-raised.
   */
  lemma {:induction false} ExhaustedFrom<T>(outcome: nat -> Outcome<T>, maxRetries: nat, attempt: nat, stats: RetryStats)
    requires 1 <= attempt <= maxRetries
    requires RecoverableFailures(outcome, attempt, maxRetries + 1)
    ensures var run := RetryFrom(outcome, maxRetries, attempt, stats);
      run.result == Raised(outcome(maxRetries).message) && run.calls == maxRetries
      && run.stats.failedOperations == stats.failedOperations + 1
      && run.stats.totalRetries == stats.totalRetries + (maxRetries - attempt)
    decreases maxRetries - attempt
  {
    if attempt < maxRetries {
      var m := outcome(attempt).message;
      var hit := if IsRateLimit(m) then stats.(rateLimitHits := stats.rateLimitHits + 1) else stats;
      ExhaustedFrom(outcome, maxRetries, attempt + 1, hit.(totalRetries := hit.totalRetries + 1));
    }
  }

  lemma FatalReraised<T>(outcome: nat -> Outcome<T>, maxRetries: nat, k: nat, stats: RetryStats)
    requires 1 <= k <= maxRetries
    requires RecoverableFailures(outcome, 1, k)
    requires outcome(k).Failed? && !IsRecoverable(outcome(k).message)
    ensures var run := RetryCall(outcome, maxRetries, stats);
      run.result == Raised(outcome(k).message) && run.calls == k
      && run.stats.failedOperations == stats.failedOperations
  {
    FatalReraisedFrom(outcome, maxRetries, 1, k, stats);
  }

  lemma SuccessReturned<T>(outcome: nat -> Outcome<T>, maxRetries: nat, k: nat, stats: RetryStats)
    requires 1 <= k <= maxRetries
    requires RecoverableFailures(outcome, 1, k)
    requires outcome(k).Succeeded?
    ensures var run := RetryCall(outcome, maxRetries, stats);
      run.result == Returned(outcome(k).value) && run.calls == k
      && run.stats.failedOperations == stats.failedOperations
  {
    SuccessReturnedFrom(outcome, maxRetries, 1, k, stats);
  }

  lemma ExhaustedReraisesLast<T>(outcome: nat -> Outcome<T>, maxRetries: nat, stats: RetryStats)
    requires 1 <= maxRetries
    requires RecoverableFailures(outcome, 1, maxRetries + 1)
    ensures var run := RetryCall(outcome, maxRetries, stats);
      run.result == Raised(outcome(maxRetries).message) && run.calls == maxRetries
      && run.stats.failedOperations == stats.failedOperations + 1
      && run.stats.totalRetries == stats.totalRetries + (maxRetries - 1)
  {
    ExhaustedFrom(outcome, maxRetries, 1, stats);
  }

  /** `SmartRetryHandler`: the attempt limit and the statistics it keeps across calls. */
  class SmartRetryHandler {
    const maxRetries: nat
    var stats: RetryStats

    constructor(maxRetries: nat)
      ensures this.maxRetries == maxRetries && stats == RetryStats(0, 0, 0, 0)
    {
      this.maxRetries := maxRetries;
      stats := RetryStats(0, 0, 0, 0);
    }

    /**
     * `retry_api_call`; `outcome(k)` is what the wrapped call does on its
     * k-th invocation, `calls` how many invocations were made.
     */
    method RetryApiCall<T>(outcome: nat -> Outcome<T>) returns (r: CallResult<T>, ghost calls: nat)
      modifies this
      ensures var run := RetryCall(outcome, maxRetries, old(stats));
        r == run.result && calls == run.calls && stats == run.stats
    {
      var lastException: Option<string> := None;
      var attempt := 1;
      while attempt <= maxRetries
        invariant 1 <= attempt <= maxRetries + 1
        invariant attempt > maxRetries ==> maxRetries == 0 && attempt == 1 && stats == old(stats)
        invariant attempt <= maxRetries ==>
          RetryCall(outcome, maxRetries, old(stats)) == RetryFrom(outcome, maxRetries, attempt, stats)
        invariant lastException.None?
        decreases maxRetries + 1 - attempt
      {
        ghost var run := RetryFrom(outcome, maxRetries, attempt, stats);
        match outcome(attempt) {
          case Succeeded(v) =>
            if attempt > 1 {
              stats := stats.(successfulRetries := stats.successfulRetries + 1);
            }
            return Returned(v), attempt;
          case Failed(errorMessage) =>
            if IsRateLimit(errorMessage) {
              stats := stats.(rateLimitHits := stats.rateLimitHits + 1);
              if attempt == maxRetries {
                lastException := Some(errorMessage);
                assert run == Exhausted(lastException, attempt, stats);
                break;
              }
              stats := stats.(totalRetries := stats.totalRetries + 1);
              attempt := attempt + 1;
            } else if IsServerError(errorMessage) {
              if attempt == maxRetries {
                lastException := Some(errorMessage);
                assert run == Exhausted(lastException, attempt, stats);
                break;
              }
              stats := stats.(totalRetries := stats.totalRetries + 1);
              attempt := attempt + 1;
            } else {
              return Raised(errorMessage), attempt;
            }
        }
      }
      calls := attempt - 1;
      if lastException.Some? {
        calls := attempt;
      }
      stats := stats.(failedOperations := stats.failedOperations + 1);
      r := if lastException.Some? then Raised(lastException.value) else RaisedNothing;
    }
  }

  // ---------------------------------------------------------------------
  // Recommended delays

  /** `(\d+)` at the start of `t`, greedy: the digits and what follows them. */
  function Digits(t: string): (r: Option<(string, string)>)
    ensures r.Some? ==> r.value.0 != [] && r.value.0 + r.value.1 == t
                        && (forall i :: 0 <= i < |r.value.0| ==> IsAsciiDigit(r.value.0[i]))
                        && (r.value.1 == [] || !IsAsciiDigit(r.value.1[0]))
    ensures r.None? <==> t == [] || !IsAsciiDigit(t[0])
  {
    var n := LeadingRun(t, IsAsciiDigit);
    if n == 0 then None else Some((t[..n], t[n..]))
  }

  /** `\s*` then the literal `p` at the start of `t`: what follows it. */
  function SpacedLit(t: string, p: string): Option<string> {
    var u := TrimLeft(t, Whitespace);
    if p <= u then Some(u[|p|..]) else None
  }

  /**
   * `retry_delay\s*{\s*seconds:\s*(\d+)` anchored at the start of `t`:
   * the captured digits. Greedy `\s*` needs no backtracking, since the
   * pieces after it do not start with whitespace.
   */
  function DelayFieldAt(t: string): Option<string> {
    if "retry_delay" <= t then DelayBraceAt(t[|"retry_delay"|..]) else None
  }

  function DelayBraceAt(u: string): Option<string> {
    match SpacedLit(u, "{")
    case Some(a) => DelaySecondsAt(a)
    case None => None
  }

  function DelaySecondsAt(a: string): Option<string> {
    match SpacedLit(a, "seconds:")
    case Some(b) => DelayNumberAt(b)
    case None => None
  }

  function DelayNumberAt(b: string): Option<string> {
    match Digits(TrimLeft(b, Whitespace))
    case Some(d) => Some(d.0)
    case None => None
  }

  /**
   * `<lead>(\d+) seconds?` anchored at the start of `t`; the optional `s`
   * never changes whether it matches.
   */
  function PhraseAt(t: string, lead: string): Option<string> {
    if !(lead <= t) then None
    else match Digits(t[|lead|..])
      case None => None
      case Some(d) => if " second" <= d.1 then Some(d.0) else None
  }

  /** `re.search` with the anchored matcher `at`: the capture at the leftmost position that matches. */
  function Search(t: string, at: string -> Option<string>): (r: Option<string>)
    ensures r.Some? <==> exists i :: 0 <= i <= |t| && at(t[i..]).Some?
    ensures r.Some? ==> exists i :: 0 <= i <= |t| && at(t[i..]) == r
                                    && forall j :: 0 <= j < i ==> at(t[j..]).None?
    decreases |t|
  {
    match at(t)
    case Some(d) => assert t[0..] == t; Some(d)
    case None =>
      if t == [] then None
      else
        var r := Search(t[1..], at);
        assert forall i :: 1 <= i <= |t| ==> t[i..] == t[1..][i - 1..];
        assert t[0..] == t;
        r
  }

  /** The three fallback phrases, in the order they are tried. */
  const GeneralDelayLeads: seq<string> := ["retry after ", "try again in ", "wait "]

  /** The first fallback phrase that occurs in `t`, read as a number. */
  function FirstPhraseDelay(t: string, leads: seq<string>): (r: Option<nat>)
    ensures r.None? <==> forall i :: 0 <= i < |leads| ==> Search(t, u => PhraseAt(u, leads[i])).None?
  {
    if leads == [] then None
    else match Search(t, u => PhraseAt(u, leads[0]))
      case Some(d) => Some(ParseNat(d))
      case None => FirstPhraseDelay(t, leads[1..])
  }

  /** `extract_retry_delay_from_error`: the structured field first, then the phrases in lower case. */
  function ExtractRetryDelay(errorMessage: string): (r: Option<nat>)
    ensures Search(errorMessage, DelayFieldAt).Some? ==> r == Some(ParseNat(Search(errorMessage, DelayFieldAt).value))
  {
    match Search(errorMessage, DelayFieldAt)
    case Some(d) => Some(ParseNat(d))
    case None => FirstPhraseDelay(Lower(errorMessage), GeneralDelayLeads)
  }

  /** No delay is recommended exactly when neither the field nor any fallback phrase occurs. */
  lemma NoRetryDelay(errorMessage: string)
    ensures ExtractRetryDelay(errorMessage).None?
            <==> Search(errorMessage, DelayFieldAt).None?
                 && forall i :: 0 <= i < |GeneralDelayLeads| ==> Search(Lower(errorMessage), u => PhraseAt(u, GeneralDelayLeads[i])).None?
  {
  }

  lemma TrimSpaceBefore(w: string)
    requires w != [] && w[0] !in Whitespace
    ensures TrimLeft(" " + w, Whitespace) == w
  {
    assert (" " + w)[1..] == w;
  }

  lemma PrefixStep(p: string, w: string)
    ensures p <= p + w && (p + w)[|p|..] == w
  {
  }

  lemma SpacedLitStep(p: string, w: string)
    requires p != [] && p[0] !in Whitespace
    ensures SpacedLit(" " + (p + w), p) == Some(w)
  {
    TrimSpaceBefore(p + w);
    PrefixStep(p, w);
  }

  lemma DigitsOf(d: string, rest: string)
    requires d != [] && forall i :: 0 <= i < |d| ==> IsAsciiDigit(d[i])
    requires rest == [] || !IsAsciiDigit(rest[0])
    ensures Digits(d + rest) == Some((d, rest))
  {
    DigitRunPrefix(d, rest);
    assert (d + rest)[..|d|] == d && (d + rest)[|d|..] == rest;
  }

  lemma DelayFieldNested(d: string, rest: string)
    requires d != [] && forall i :: 0 <= i < |d| ==> IsAsciiDigit(d[i])
    requires rest == [] || !IsAsciiDigit(rest[0])
    ensures DelayFieldAt("retry_delay" + (" " + ("{" + (" " + ("seconds:" + (" " + (d + rest))))))) == Some(d)
  {
    var z := " " + (d + rest);
    var y := " " + ("seconds:" + z);
    var x := " " + ("{" + y);
    TrimSpaceBefore(d + rest);
    DigitsOf(d, rest);
    assert DelayNumberAt(z) == Some(d);
    SpacedLitStep("seconds:", z);
    assert DelaySecondsAt(y) == Some(d);
    SpacedLitStep("{", y);
    assert DelayBraceAt(x) == Some(d);
    PrefixStep("retry_delay", x);
  }

  lemma DelayFieldMatch(d: string, rest: string)
    requires d != [] && forall i :: 0 <= i < |d| ==> IsAsciiDigit(d[i])
    requires rest == [] || !IsAsciiDigit(rest[0])
    ensures DelayFieldAt("retry_delay { seconds: " + (d + rest)) == Some(d)
  {
    var w := d + rest;
    assert "retry_delay { seconds: " + w == "retry_delay" + (" " + ("{" + (" " + ("seconds:" + (" " + w)))));
    DelayFieldNested(d, rest);
  }

  /** Google's structured field `retry_delay { seconds: N }` at the start of a message yields N. */
  lemma DelayFieldRead(n: nat, rest: string)
    requires rest == [] || !IsAsciiDigit(rest[0])
    ensures ExtractRetryDelay("retry_delay { seconds: " + NatToString(n) + rest) == Some(n)
  {
    var d := NatToString(n);
    var t := "retry_delay { seconds: " + d + rest;
    assert t == "retry_delay { seconds: " + (d + rest);
    DelayFieldMatch(d, rest);
    assert Search(t, DelayFieldAt) == Some(d);
    ParseNatToString(n);
  }

  lemma {:induction false} DigitRunPrefix(d: string, rest: string)
    requires forall i :: 0 <= i < |d| ==> IsAsciiDigit(d[i])
    requires rest == [] || !IsAsciiDigit(rest[0])
    ensures LeadingRun(d + rest, IsAsciiDigit) == |d|
    decreases |d|
  {
    if d != [] {
      assert (d + rest)[1..] == d[1..] + rest;
      DigitRunPrefix(d[1..], rest);
    } else {
      assert d + rest == rest;
    }
  }

  // ---------------------------------------------------------------------
  // Natural breaks

  /** `\s+[А-ЯЁ]` at the start of `t`. */
  predicate SpacesThenCapital(t: string) {
    var n := LeadingRun(t, IsSpace);
    1 <= n < |t| && IsUpperCyrillic(t[n])
  }

  /**
   * Position `i` is a natural break: the start of a run of two or more
   * newlines, or the position just after a `.`, `!` or `?` that is followed
   * by whitespace and a capital Russian letter.
   */
  predicate IsNaturalBreak(text: string, i: nat) {
    || (i + 1 < |text| && text[i] == '\n' && text[i + 1] == '\n' && (i == 0 || text[i - 1] != '\n'))
    || (1 <= i <= |text| && text[i - 1] in {'.', '!', '?'} && SpacesThenCapital(text[i..]))
  }

  function BreaksFrom(text: string, i: nat): (r: seq<nat>)
    requires i <= |text| + 1
    ensures forall k :: 0 <= k < |r| ==> i <= r[k] <= |text| && IsNaturalBreak(text, r[k])
    ensures forall k, l :: 0 <= k < l < |r| ==> r[k] < r[l]
    ensures forall j :: i <= j <= |text| && IsNaturalBreak(text, j) ==> j in r
    decreases |text| + 1 - i
  {
    if i > |text| then []
    else if IsNaturalBreak(text, i) then [i] + BreaksFrom(text, i + 1)
    else BreaksFrom(text, i + 1)
  }

  /**
   * `find_natural_breaks`: the sorted, duplicate-free positions of every
   * natural break, and only those.
   */
  function FindNaturalBreaks(text: string): (r: seq<nat>)
    ensures forall k, l :: 0 <= k < l < |r| ==> r[k] < r[l]
    ensures forall j: nat :: j in r <==> j <= |text| && IsNaturalBreak(text, j)
  {
    BreaksFrom(text, 0)
  }
}
