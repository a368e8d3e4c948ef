/**
 * The facts-index updater: sections of a knowledge file are cut into
 * chunks (whole sections up to 1200 characters, longer ones packed
 * paragraph by paragraph up to 1000), each chunk is shown to an AI
 * analyser for a completeness verdict that is only logged, and the chunks
 * that embed and upload successfully get consecutive vector ids.
 */
module UpdateFacts {
  import opened Text
  import U = UkidoChunker

  const Separator: string := "\n---\n"
  const MinSection: nat := 100
  const WholeSection: nat := 1200
  const MinUpload: nat := 50
  const StatusMark: string := "СТАТУС:"
  const ChunkingMethod: string := "intelligent_semantic"

  /** The AI analyser: its reply to a chunk shown with a context line. */
  type Analyser = (string, string) -> string

  /** The context line of a whole section: `Раздел {n} из файла {filename}`, counting from 1. */
  function SectionContext(idx: nat, filename: string): string {
    "Раздел " + NatToString(idx + 1) + " из файла " + filename
  }

  // ---------------------------------------------------------------------
  // create_intelligent_chunks
  // ---------------------------------------------------------------------

  /** The pieces of a long section: its non-blank paragraphs, stripped and packed, then the last piece. */
  function LongPieces(s: string): seq<string> {
    var st := U.PackSection(Paragraphs(s));
    if st.current != "" then st.pieces + [st.current] else st.pieces
  }

  /** The chunks of one section: none under 100 characters, the whole up to 1200, else packed. */
  function SectionPieces(section: string): seq<string> {
    var s := Strip(section);
    if |s| == 0 || |s| < MinSection then []
    else if |s| <= WholeSection then [s]
    else LongPieces(s)
  }

  function PiecesOf(sections: seq<string>): seq<string> {
    if sections == [] then []
    else PiecesOf(sections[..|sections| - 1]) + SectionPieces(sections[|sections| - 1])
  }

  /** `create_intelligent_chunks` when the analyser's replies are only logged. */
  function IntelligentChunks(content: string): seq<string> {
    PiecesOf(Split(content, Separator))
  }

  lemma PiecesOfStep(sections: seq<string>, i: nat)
    requires i < |sections|
    ensures PiecesOf(sections[..i + 1]) == PiecesOf(sections[..i]) + SectionPieces(sections[i])
  {
    assert sections[..i + 1][..i] == sections[..i];
  }

  method CreateIntelligentChunks(content: string) returns (chunks: seq<string>)
    ensures chunks == IntelligentChunks(content)
  {
    var primarySections := Split(content, Separator);
    chunks := [];
    var i := 0;
    while i < |primarySections|
      invariant 0 <= i <= |primarySections|
      invariant chunks == PiecesOf(primarySections[..i])
    {
      PiecesOfStep(primarySections, i);
      var section := Strip(primarySections[i]);
      i := i + 1;
      if |section| == 0 || |section| < MinSection {
        continue;
      }
      if |section| <= WholeSection {
        chunks := chunks + [section];
      } else {
        var pieces := PackLongSection(section);
        chunks := chunks + pieces;
      }
    }
    assert primarySections[..i] == primarySections;
  }

  /** The paragraph loop of a long section, with its final flush. */
  method PackLongSection(section: string) returns (pieces: seq<string>)
    ensures pieces == LongPieces(section)
  {
    var paragraphs := Split(section, "\n\n");
    pieces := [];
    var currentChunk := "";
    var j := 0;
    while j < |paragraphs|
      invariant 0 <= j <= |paragraphs|
      invariant U.SectionPack(pieces, currentChunk) == U.PackSection(StrippedNonBlank(paragraphs[..j]))
    {
      PackBlankStep(paragraphs, j);
      var paragraph := Strip(paragraphs[j]);
      if |paragraph| > 0 {
        pieces, currentChunk := PackStep(pieces, currentChunk, paragraph);
      }
      j := j + 1;
    }
    assert paragraphs[..j] == paragraphs;
    if currentChunk != "" {
      pieces := pieces + [currentChunk];
    }
  }

  /** One paragraph: glue it on, or close the pending piece when that would pass 1000 characters. */
  method PackStep(pieces: seq<string>, currentChunk: string, paragraph: string) returns (pieces': seq<string>, currentChunk': string)
    ensures U.SectionPack(pieces', currentChunk') == U.PackParagraph(U.SectionPack(pieces, currentChunk), paragraph)
  {
    var potentialChunk := if currentChunk != "" then currentChunk + "\n\n" + paragraph else paragraph;
    if |potentialChunk| > U.MaxPiece && currentChunk != "" {
      pieces', currentChunk' := pieces + [currentChunk], paragraph;
    } else {
      pieces', currentChunk' := pieces, potentialChunk;
    }
  }

  /** The packing state one raw paragraph further: a blank paragraph changes nothing. */
  lemma PackBlankStep(paragraphs: seq<string>, j: nat)
    requires j < |paragraphs|
    ensures var before := U.PackSection(StrippedNonBlank(paragraphs[..j]));
      var p := Strip(paragraphs[j]);
      U.PackSection(StrippedNonBlank(paragraphs[..j + 1])) == if |p| > 0 then U.PackParagraph(before, p) else before
  {
    StrippedNonBlankStep(paragraphs, j);
    var p := Strip(paragraphs[j]);
    if |p| > 0 {
      PackSectionSnoc(StrippedNonBlank(paragraphs[..j]), p);
    } else {
      assert StrippedNonBlank(paragraphs[..j]) + [] == StrippedNonBlank(paragraphs[..j]);
    }
  }

  lemma StrippedNonBlankStep(xs: seq<string>, j: nat)
    requires j < |xs|
    ensures StrippedNonBlank(xs[..j + 1])
            == StrippedNonBlank(xs[..j]) + if |Strip(xs[j])| > 0 then [Strip(xs[j])] else []
  {
    assert xs[..j + 1][..j] == xs[..j];
  }

  lemma PackSectionSnoc(ps: seq<string>, p: string)
    ensures U.PackSection(ps + [p]) == U.PackParagraph(U.PackSection(ps), p)
  {
    assert (ps + [p])[..|ps|] == ps;
  }

  /**
   * A section under 100 characters gives nothing, one up to 1200 gives
   * itself stripped, and a longer one gives non-empty pieces, each at most
   * 1000 characters or a single paragraph, which joined by blank lines give
   * back its paragraphs joined by blank lines.
   */
  lemma SectionPiecesShape(section: string)
    ensures var s := Strip(section);
      var r := SectionPieces(section);
      && (|s| < MinSection ==> r == [])
      && (MinSection <= |s| <= WholeSection ==> r == [s])
      && (|s| > WholeSection ==>
            && Join(r, "\n\n") == Join(Paragraphs(s), "\n\n")
            && forall i :: 0 <= i < |r| ==> r[i] != "" && (|r[i]| <= U.MaxPiece || r[i] in Paragraphs(s)))
  {
    var s := Strip(section);
    if |s| > WholeSection {
      LongPiecesShape(s);
    }
  }

  lemma LongPiecesShape(s: string)
    ensures var r := LongPieces(s);
      && Join(r, "\n\n") == Join(Paragraphs(s), "\n\n")
      && forall i :: 0 <= i < |r| ==> r[i] != "" && (|r[i]| <= U.MaxPiece || r[i] in Paragraphs(s))
  {
    var ps := Paragraphs(s);
    U.PackSectionShape(ps);
    var st := U.PackSection(ps);
    if ps != [] {
      U.PackSectionJoin(ps);
      U.PiecesOkAppend(st.pieces, st.current, ps, ps);
    }
  }

  // ---------------------------------------------------------------------
  // The whole-section log line as written
  // ---------------------------------------------------------------------

  /**
   * `analysis.split('СТАТУС:')[1]` in the log line of a whole section: it
   * exists only when the reply holds the status mark, otherwise the index
   * is out of range (`None`).
   */
  function StatusPart(analysis: string): Option<string> {
    var parts := Split(analysis, StatusMark);
    if |parts| < 2 then None else Some(parts[1])
  }

  /** The section loop as written: `None` is the `IndexError` of a reply without the status mark. */
  function PiecesAsWritten(sections: seq<string>, filename: string, analyse: Analyser): Option<seq<string>> {
    if sections == [] then Some([])
    else
      match PiecesAsWritten(sections[..|sections| - 1], filename, analyse)
      case None => None
      case Some(init) =>
        var k := |sections| - 1;
        var s := Strip(sections[k]);
        if MinSection <= |s| <= WholeSection && StatusPart(analyse(s, SectionContext(k, filename))).None? then None
        else Some(init + SectionPieces(sections[k]))
  }

  function IntelligentChunksAsWritten(content: string, filename: string, analyse: Analyser): Option<seq<string>> {
    PiecesAsWritten(Split(content, Separator), filename, analyse)
  }

  /** The status part exists exactly when the reply holds the status mark. */
  lemma StatusPartIff(analysis: string)
    ensures StatusPart(analysis).Some? <==> Contains(analysis, StatusMark)
  {
    IndexOfContains(analysis, StatusMark);
  }

  /**
   * As written, a whole section of 100 to 1200 characters whose reply lacks
   * the status mark stops the whole file with an exception.
   */
  lemma {:induction false} AsWrittenFailsWithoutStatus(sections: seq<string>, filename: string, analyse: Analyser, k: nat)
    requires k < |sections|
    requires MinSection <= |Strip(sections[k])| <= WholeSection
    requires !Contains(analyse(Strip(sections[k]), SectionContext(k, filename)), StatusMark)
    ensures PiecesAsWritten(sections, filename, analyse) == None
    decreases |sections|
  {
    StatusPartIff(analyse(Strip(sections[k]), SectionContext(k, filename)));
    var init := sections[..|sections| - 1];
    if k < |sections| - 1 {
      assert init[k] == sections[k];
      AsWrittenFailsWithoutStatus(init, filename, analyse, k);
    }
  }

  /**
   * Whatever the analyser replies, the loop as written either stops or
   * gives exactly the chunks that never look at the replies.
   */
  lemma {:induction false} AsWrittenIgnoresReplies(sections: seq<string>, filename: string, analyse: Analyser)
    ensures var r := PiecesAsWritten(sections, filename, analyse);
      r.None? || r.value == PiecesOf(sections)
    decreases |sections|
  {
    if sections != [] {
      AsWrittenIgnoresReplies(sections[..|sections| - 1], filename, analyse);
    }
  }

  /** When every reply holds the status mark, the loop as written gives the chunks. */
  lemma {:induction false} AsWrittenWithStatus(sections: seq<string>, filename: string, analyse: Analyser)
    requires forall k :: 0 <= k < |sections| ==> Contains(analyse(Strip(sections[k]), SectionContext(k, filename)), StatusMark)
    ensures PiecesAsWritten(sections, filename, analyse) == Some(PiecesOf(sections))
    decreases |sections|
  {
    if sections != [] {
      var init := sections[..|sections| - 1];
      var k := |sections| - 1;
      forall j | 0 <= j < |init|
        ensures Contains(analyse(Strip(init[j]), SectionContext(j, filename)), StatusMark)
      {
        assert init[j] == sections[j];
      }
      AsWrittenWithStatus(init, filename, analyse);
      StatusPartIff(analyse(Strip(sections[k]), SectionContext(k, filename)));
    }
  }

  // ---------------------------------------------------------------------
  // process_and_upload_updated_data
  // ---------------------------------------------------------------------

  /** A vector as upserted: its id and its metadata. */
  datatype Vector = Vector(id: string, text: string, source: string, chunkIndex: nat, chunkLength: nat, chunkingMethod: string)

  /** A chunk worth uploading: non-empty, at least 50 characters once stripped. */
  predicate Uploadable(chunk: string) {
    chunk != "" && |Strip(chunk)| >= MinUpload
  }

  /**
   * The chunks of one file that upload, as `(source, index, text)`: those
   * that pass the filter `keep` (in the file loop, `Uploadable`) and for
   * which `uploads(filename, index)`, the success of embedding and upsert,
   * holds.
   */
  function FileUploads(filename: string, chunks: seq<string>, keep: string -> bool, uploads: (string, nat) -> bool): seq<(string, nat, string)>
    decreases |chunks|
  {
    if chunks == [] then []
    else
      var k := |chunks| - 1;
      FileUploads(filename, chunks[..k], keep, uploads)
      + if keep(chunks[k]) && uploads(filename, k) then [(filename, k, chunks[k])] else []
  }

  /** The uploads of one `(name, content)` entry: none unless a non-empty `.txt` file. */
  function EntryUploads(entry: (string, string), uploads: (string, nat) -> bool): seq<(string, nat, string)> {
    var content := Strip(entry.1);
    if !EndsWith(entry.0, ".txt") || content == "" then []
    else FileUploads(entry.0, IntelligentChunks(content), Uploadable, uploads)
  }

  /** The uploads of a directory listing of `(name, content)` entries, in listing order. */
  function ListingUploads(entries: seq<(string, string)>, uploads: (string, nat) -> bool): seq<(string, nat, string)> {
    ListingOf(entries, EntryUploader(uploads))
  }

  function EntryUploader(uploads: (string, nat) -> bool): ((string, string)) -> seq<(string, nat, string)> {
    entry => EntryUploads(entry, uploads)
  }

  function ListingOf(entries: seq<(string, string)>, f: ((string, string)) -> seq<(string, nat, string)>): seq<(string, nat, string)> {
    if entries == [] then []
    else ListingOf(entries[..|entries| - 1], f) + f(entries[|entries| - 1])
  }

  function UploadVector(indexName: string, u: (string, nat, string), n: nat): Vector {
    Vector(indexName + "-" + NatToString(n), u.2, u.0, u.1, |u.2|, ChunkingMethod)
  }

  /** The uploaded vectors numbered on from `start`. */
  function Numbered(indexName: string, us: seq<(string, nat, string)>, start: nat): (r: seq<Vector>)
    ensures |r| == |us|
    ensures forall i :: 0 <= i < |us| ==> r[i] == UploadVector(indexName, us[i], start + i)
  {
    seq(|us|, i requires 0 <= i < |us| => UploadVector(indexName, us[i], start + i))
  }

  function Vectors(entries: seq<(string, string)>, indexName: string, uploads: (string, nat) -> bool): seq<Vector> {
    Numbered(indexName, ListingUploads(entries, uploads), 0)
  }

  lemma NumberedConcat(indexName: string, a: seq<(string, nat, string)>, b: seq<(string, nat, string)>, start: nat)
    ensures Numbered(indexName, a + b, start) == Numbered(indexName, a, start) + Numbered(indexName, b, start + |a|)
  {
    var l := Numbered(indexName, a + b, start);
    var r := Numbered(indexName, a, start) + Numbered(indexName, b, start + |a|);
    forall i | 0 <= i < |l| ensures l[i] == r[i] {
      if i >= |a| {
        assert (a + b)[i] == b[i - |a|];
      }
    }
  }

  lemma VectorsStep(entries: seq<(string, string)>, e: nat, indexName: string, f: ((string, string)) -> seq<(string, nat, string)>)
    requires e < |entries|
    ensures var a := ListingOf(entries[..e], f);
      var b := f(entries[e]);
      && |ListingOf(entries[..e + 1], f)| == |a| + |b|
      && Numbered(indexName, ListingOf(entries[..e + 1], f), 0) == Numbered(indexName, a, 0) + Numbered(indexName, b, |a|)
  {
    var a := ListingOf(entries[..e], f);
    var b := f(entries[e]);
    ListingOfStep(entries, e, f);
    NumberedConcat(indexName, a, b, 0);
  }

  lemma ListingOfStep(entries: seq<(string, string)>, e: nat, f: ((string, string)) -> seq<(string, nat, string)>)
    requires e < |entries|
    ensures ListingOf(entries[..e + 1], f) == ListingOf(entries[..e], f) + f(entries[e])
  {
    assert entries[..e + 1][..e] == entries[..e];
  }

  /** The file loop; the returned counter is `vector_id_counter`. */
  method ProcessAndUpload(entries: seq<(string, string)>, indexName: string, uploads: (string, nat) -> bool)
    returns (vectors: seq<Vector>, vectorIdCounter: nat)
    ensures vectors == Vectors(entries, indexName, uploads)
    ensures vectorIdCounter == |vectors|
  {
    vectors := [];
    vectorIdCounter := 0;
    var e := 0;
    while e < |entries|
      invariant 0 <= e <= |entries|
      invariant vectorIdCounter == |ListingOf(entries[..e], EntryUploader(uploads))|
      invariant vectors == Numbered(indexName, ListingOf(entries[..e], EntryUploader(uploads)), 0)
    {
      VectorsStep(entries, e, indexName, EntryUploader(uploads));
      vectors, vectorIdCounter := UploadEntry(vectors, vectorIdCounter, indexName, entries[e], uploads);
      e := e + 1;
    }
    assert entries[..e] == entries;
  }

  /** One file: skipped unless a non-empty `.txt`, else chunked and its chunks uploaded. */
  method UploadEntry(vectors: seq<Vector>, counter: nat, indexName: string, entry: (string, string), uploads: (string, nat) -> bool)
    returns (vectors': seq<Vector>, counter': nat)
    ensures counter' == counter + |EntryUploads(entry, uploads)|
    ensures vectors' == vectors + Numbered(indexName, EntryUploads(entry, uploads), counter)
  {
    var (filename, raw) := entry;
    var content := Strip(raw);
    if !EndsWith(filename, ".txt") || content == "" {
      return vectors, counter;
    }
    var chunks := CreateIntelligentChunks(content);
    vectors', counter' := UploadChunks(vectors, counter, indexName, filename, chunks, Uploadable, uploads);
  }

  lemma FileUploadsStep(filename: string, chunks: seq<string>, j: nat, keep: string -> bool, uploads: (string, nat) -> bool)
    requires j < |chunks|
    ensures FileUploads(filename, chunks[..j + 1], keep, uploads)
            == FileUploads(filename, chunks[..j], keep, uploads)
               + if keep(chunks[j]) && uploads(filename, j) then [(filename, j, chunks[j])] else []
  {
    assert chunks[..j + 1][..j] == chunks[..j];
  }

  /** The chunk loop: the counter moves on only after a successful upload. */
  method UploadChunks(vectors: seq<Vector>, counter: nat, indexName: string, filename: string, chunks: seq<string>,
                      keep: string -> bool, uploads: (string, nat) -> bool)
    returns (vectors': seq<Vector>, counter': nat)
    ensures counter' == counter + |FileUploads(filename, chunks, keep, uploads)|
    ensures vectors' == vectors + Numbered(indexName, FileUploads(filename, chunks, keep, uploads), counter)
  {
    vectors', counter' := vectors, counter;
    var j := 0;
    while j < |chunks|
      invariant 0 <= j <= |chunks|
      invariant counter' == counter + |FileUploads(filename, chunks[..j], keep, uploads)|
      invariant vectors' == vectors + Numbered(indexName, FileUploads(filename, chunks[..j], keep, uploads), counter)
    {
      UploadStep(indexName, filename, chunks, j, keep, uploads, counter);
      ghost var done := Numbered(indexName, FileUploads(filename, chunks[..j], keep, uploads), counter);
      ghost var next := if keep(chunks[j]) && uploads(filename, j)
        then [UploadVector(indexName, (filename, j, chunks[j]), counter')] else [];
      U.ConcatAssoc(vectors, done, next);
      vectors', counter' := UploadOne(vectors', counter', indexName, filename, j, chunks[j], keep, uploads(filename, j));
      j := j + 1;
    }
    assert chunks[..j] == chunks;
  }

  /** One chunk: skipped when short, otherwise given the next id if its upload succeeds. */
  method UploadOne(vectors: seq<Vector>, counter: nat, indexName: string, filename: string, chunkIdx: nat, chunk: string,
                   keep: string -> bool, uploaded: bool)
    returns (vectors': seq<Vector>, counter': nat)
    ensures var up := keep(chunk) && uploaded;
      && counter' == counter + (if up then 1 else 0)
      && vectors' == vectors + if up then [UploadVector(indexName, (filename, chunkIdx, chunk), counter)] else []
  {
    if !keep(chunk) {
      return vectors, counter;
    }
    if uploaded {
      vectors' := vectors + [UploadVector(indexName, (filename, chunkIdx, chunk), counter)];
      counter' := counter + 1;
    } else {
      vectors', counter' := vectors, counter;
    }
  }

  /** The numbered uploads one chunk further: the chunk's vector, if it uploads, comes last. */
  lemma UploadStep(indexName: string, filename: string, chunks: seq<string>, j: nat, keep: string -> bool, uploads: (string, nat) -> bool, counter: nat)
    requires j < |chunks|
    ensures var a := FileUploads(filename, chunks[..j], keep, uploads);
      var up := keep(chunks[j]) && uploads(filename, j);
      && |FileUploads(filename, chunks[..j + 1], keep, uploads)| == |a| + (if up then 1 else 0)
      && Numbered(indexName, FileUploads(filename, chunks[..j + 1], keep, uploads), counter)
         == Numbered(indexName, a, counter) + if up then [UploadVector(indexName, (filename, j, chunks[j]), counter + |a|)] else []
  {
    var a := FileUploads(filename, chunks[..j], keep, uploads);
    FileUploadsStep(filename, chunks, j, keep, uploads);
    if keep(chunks[j]) && uploads(filename, j) {
      NumberedConcat(indexName, a, [(filename, j, chunks[j])], counter);
    }
  }

  /** Every upload of a file is an uploadable chunk at its index that uploaded. */
  lemma {:induction false} FileUploadsFrom(filename: string, chunks: seq<string>, keep: string -> bool, uploads: (string, nat) -> bool)
    ensures forall u :: u in FileUploads(filename, chunks, keep, uploads) ==>
      u.0 == filename && u.1 < |chunks| && chunks[u.1] == u.2 && keep(u.2) && uploads(filename, u.1)
    decreases |chunks|
  {
    if chunks != [] {
      var k := |chunks| - 1;
      FileUploadsFrom(filename, chunks[..k], keep, uploads);
    }
  }

  predicate IncreasingIndices(us: seq<(string, nat, string)>) {
    forall i, j :: 0 <= i < j < |us| ==> us[i].1 < us[j].1
  }

  /** The uploads keep the order of the chunks: indices strictly increase. */
  lemma {:induction false} FileUploadsOrdered(filename: string, chunks: seq<string>, keep: string -> bool, uploads: (string, nat) -> bool)
    ensures IncreasingIndices(FileUploads(filename, chunks, keep, uploads))
    decreases |chunks|
  {
    if chunks != [] {
      var k := |chunks| - 1;
      var a := FileUploads(filename, chunks[..k], keep, uploads);
      FileUploadsOrdered(filename, chunks[..k], keep, uploads);
      FileUploadsFrom(filename, chunks[..k], keep, uploads);
      var us := FileUploads(filename, chunks, keep, uploads);
      var b := if keep(chunks[k]) && uploads(filename, k) then [(filename, k, chunks[k])] else [];
      assert us == a + b;
      forall i, j | 0 <= i < j < |us| ensures us[i].1 < us[j].1 {
        if j < |a| {
          assert us[i] == a[i] && us[j] == a[j];
          assert a[i].1 < a[j].1;
        } else {
          var u := a[i];
          assert us[j] == b[0] && us[i] == u;
          assert u in a;
          assert u.1 < |chunks[..k]| == k;
        }
      }
    }
  }

  /** An uploadable chunk that uploads is in the file's uploads. */
  lemma {:induction false} FileUploadsComplete(filename: string, chunks: seq<string>, keep: string -> bool, uploads: (string, nat) -> bool, k: nat)
    requires k < |chunks| && keep(chunks[k]) && uploads(filename, k)
    ensures (filename, k, chunks[k]) in FileUploads(filename, chunks, keep, uploads)
    decreases |chunks|
  {
    var last := |chunks| - 1;
    if k < last {
      assert chunks[..last][k] == chunks[k];
      FileUploadsComplete(filename, chunks[..last], keep, uploads, k);
    }
  }

  /**
   * The vector ids are `{index}-0`, `{index}-1`, ... over the successful
   * uploads only, no two alike; each vector records its text's length and
   * the chunking method.
   */
  lemma VectorsShape(entries: seq<(string, string)>, indexName: string, uploads: (string, nat) -> bool)
    ensures var r := Vectors(entries, indexName, uploads);
      && |r| == |ListingUploads(entries, uploads)|
      && (forall i :: 0 <= i < |r| ==>
            r[i].id == indexName + "-" + NatToString(i) && r[i].chunkLength == |r[i].text|
            && r[i].chunkingMethod == ChunkingMethod)
      && (forall i, j :: 0 <= i < j < |r| ==> r[i].id != r[j].id)
  {
    var r := Vectors(entries, indexName, uploads);
    forall i, j | 0 <= i < j < |r| ensures r[i].id != r[j].id {
      NumberedDistinct(indexName + "-", i, j);
    }
  }

  /**
   * Every upload is a chunk of a listed `.txt` file, at its index among the
   * file's chunks, that passed the length filter and uploaded.
   */
  lemma ListingUploadsFrom(entries: seq<(string, string)>, uploads: (string, nat) -> bool)
    ensures forall u :: u in ListingUploads(entries, uploads) ==> FromListing(entries, uploads, u)
  {
    ListingOfFrom(entries, uploads);
  }

  lemma {:induction false} ListingOfFrom(entries: seq<(string, string)>, uploads: (string, nat) -> bool)
    ensures forall u :: u in ListingOf(entries, EntryUploader(uploads)) ==> FromListing(entries, uploads, u)
    decreases |entries|
  {
    if entries != [] {
      var init := entries[..|entries| - 1];
      var last := entries[|entries| - 1];
      ListingOfFrom(init, uploads);
      assert ListingOf(entries, EntryUploader(uploads)) == ListingOf(init, EntryUploader(uploads)) + EntryUploads(last, uploads);
      forall u | u in ListingOf(entries, EntryUploader(uploads)) ensures FromListing(entries, uploads, u) {
        if u in ListingOf(init, EntryUploader(uploads)) {
          var e :| 0 <= e < |init| && FromEntry(init[e], uploads, u);
          assert entries[e] == init[e];
        } else {
          assert u in EntryUploads(last, uploads);
          FileUploadsFrom(last.0, IntelligentChunks(Strip(last.1)), Uploadable, uploads);
          assert FromEntry(entries[|entries| - 1], uploads, u);
        }
      }
    }
  }

  predicate FromEntry(entry: (string, string), uploads: (string, nat) -> bool, u: (string, nat, string)) {
    var chunks := IntelligentChunks(Strip(entry.1));
    && EndsWith(entry.0, ".txt") && u.0 == entry.0
    && u.1 < |chunks| && chunks[u.1] == u.2 && Uploadable(u.2) && uploads(u.0, u.1)
  }

  predicate FromListing(entries: seq<(string, string)>, uploads: (string, nat) -> bool, u: (string, nat, string)) {
    exists e :: 0 <= e < |entries| && FromEntry(entries[e], uploads, u)
  }
}
