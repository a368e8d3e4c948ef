/** The Pinecone index profiler: given the index statistics and a sample of
    records (id, score, metadata), it counts metadata keys, records the type
    names and a few example values per key, tallies records per `source` and
    per `chunk_type`, measures the `content` field and lays out a text
    report. The index itself is not contacted: statistics and sample are
    inputs. */
module IndexProfiler {
  import opened Text

  // ---------------------------------------------------------------------
  // Data model

  /** A metadata value, known by its Python type. `Other` covers the types
      the profiler never looks inside (float, list, dict): their type name
      and their `str()` text are given. */
  datatype Value =
    | Str(s: string)
    | Int(i: int)
    | Bool(b: bool)
    | Null
    | Other(typeName: string, text: string)

  /** `type(value).__name__` */
  function TypeName(v: Value): string
  {
    match v
    case Str(_) => "str"
    case Int(_) => "int"
    case Bool(_) => "bool"
    case Null => "NoneType"
    case Other(t, _) => t
  }

  /** `str(value)` */
  function ToStr(v: Value): string
  {
    match v
    case Str(s) => s
    case Int(i) => IntToString(i)
    case Bool(b) => if b then "True" else "False"
    case Null => "None"
    case Other(_, t) => t
  }

  type Entry = (string, Value)

  /** A metadata dictionary in insertion order; a missing `metadata` key of a
      record is the empty dictionary, as `vector.get('metadata', {})` reads it. */
  predicate DistinctKeys(md: seq<Entry>)
  {
    forall i, j :: 0 <= i < j < |md| ==> md[i].0 != md[j].0
  }

  datatype Record = Record(id: string, score: Option<real>, metadata: seq<Entry>)

  predicate WellFormedSample(vs: seq<Record>)
  {
    forall i :: 0 <= i < |vs| ==> DistinctKeys(vs[i].metadata)
  }

  function Keys(md: seq<Entry>): (ks: seq<string>)
    ensures |ks| == |md| && forall i :: 0 <= i < |md| ==> ks[i] == md[i].0
  {
    seq(|md|, i requires 0 <= i < |md| => md[i].0)
  }

  predicate HasKey(md: seq<Entry>, k: string)
  {
    exists i :: 0 <= i < |md| && md[i].0 == k
  }

  /** `metadata.get(key, default)` */
  function Get(md: seq<Entry>, key: string, default: Value): (v: Value)
    ensures !HasKey(md, key) ==> v == default
    ensures HasKey(md, key) ==> exists i :: 0 <= i < |md| && md[i] == (key, v)
  {
    if |md| == 0 then default
    else if md[0].0 == key then md[0].1
    else
      var v := Get(md[1..], key, default);
      assert forall i :: 1 <= i < |md| ==> md[i] == md[1..][i - 1];
      v
  }

  // ---------------------------------------------------------------------
  // analyze_metadata_structure

  /** Every (key, value) pair of the sample, record after record. */
  function Pairs(vs: seq<Record>): seq<Entry>
  {
    if |vs| == 0 then [] else Pairs(vs[..|vs| - 1]) + vs[|vs| - 1].metadata
  }

  /** Keys in first-seen order: the iteration order of `metadata_fields`. */
  function FieldOrder(ps: seq<Entry>): seq<string>
  {
    if |ps| == 0 then []
    else
      var prev := FieldOrder(ps[..|ps| - 1]);
      var k := ps[|ps| - 1].0;
      if k in prev then prev else prev + [k]
  }

  /** `metadata_fields`: one increment per pair. */
  function CountMap(ps: seq<Entry>): map<string, nat>
  {
    if |ps| == 0 then map[]
    else
      var m := CountMap(ps[..|ps| - 1]);
      var k := ps[|ps| - 1].0;
      m[k := (if k in m then m[k] else 0) + 1]
  }

  /** `field_types`: the type names per key. Python keeps a set whose
      iteration order is unspecified; the model lists it in first-seen order. */
  function TypeMap(ps: seq<Entry>): map<string, seq<string>>
  {
    if |ps| == 0 then map[]
    else
      var m := TypeMap(ps[..|ps| - 1]);
      var (k, v) := ps[|ps| - 1];
      var ts := if k in m then m[k] else [];
      m[k := if TypeName(v) in ts then ts else ts + [TypeName(v)]]
  }

  /** One example value as the profiler stores it: `str(value)[:100]`. */
  function SampleText(v: Value): string
  {
    Take(ToStr(v), 100)
  }

  /** `field_samples`: values appended while fewer than 3 are kept. */
  function SampleMap(ps: seq<Entry>): map<string, seq<string>>
  {
    if |ps| == 0 then map[]
    else
      var m := SampleMap(ps[..|ps| - 1]);
      var (k, v) := ps[|ps| - 1];
      var ss := if k in m then m[k] else [];
      m[k := if |ss| < 3 then ss + [SampleText(v)] else ss]
  }

  datatype MetadataAnalysis = MetadataAnalysis(
    totalVectorsAnalyzed: nat,
    fields: seq<string>,
    counts: map<string, nat>,
    types: map<string, seq<string>>,
    samples: map<string, seq<string>>)

  /** Number of records whose metadata has key `k`. */
  function RecordsWithKey(vs: seq<Record>, k: string): (n: nat)
    ensures n <= |vs|
  {
    if |vs| == 0 then 0
    else RecordsWithKey(vs[..|vs| - 1], k) + (if HasKey(vs[|vs| - 1].metadata, k) then 1 else 0)
  }

  /** The four accumulators of `analyze_metadata_structure` after the
      pairs `ps` have been seen. */
  datatype Accumulators = Accumulators(
    fields: seq<string>,
    counts: map<string, nat>,
    types: map<string, seq<string>>,
    samples: map<string, seq<string>>)

  function Summary(ps: seq<Entry>): Accumulators
  {
    Accumulators(FieldOrder(ps), CountMap(ps), TypeMap(ps), SampleMap(ps))
  }

  /** The body of the inner loop: one (field, value) pair. */
  method CountPair(acc: Accumulators, ghost done: seq<Entry>, field: string, value: Value)
    returns (next: Accumulators)
    requires acc == Summary(done)
    ensures next == Summary(done + [(field, value)])
  {
    ghost var ps := done + [(field, value)];
    assert ps[..|ps| - 1] == done;
    var counts := acc.counts[field := (if field in acc.counts then acc.counts[field] else 0) + 1];
    var fields := acc.fields;
    if field !in fields {
      fields := fields + [field];
    }
    var ts := if field in acc.types then acc.types[field] else [];
    if TypeName(value) !in ts {
      ts := ts + [TypeName(value)];
    }
    var ss := if field in acc.samples then acc.samples[field] else [];
    if |ss| < 3 {
      ss := ss + [SampleText(value)];
    }
    next := Accumulators(fields, counts, acc.types[field := ts], acc.samples[field := ss]);
  }

  /** One record: `for field, value in metadata.items()`. */
  method CountRecord(acc: Accumulators, ghost done: seq<Entry>, metadata: seq<Entry>)
    returns (next: Accumulators)
    requires acc == Summary(done)
    ensures next == Summary(done + metadata)
  {
    next := acc;
    var j := 0;
    assert done + metadata[..0] == done;
    while j < |metadata|
      invariant 0 <= j <= |metadata|
      invariant next == Summary(done + metadata[..j])
    {
      var (field, value) := metadata[j];
      next := CountPair(next, done + metadata[..j], field, value);
      AppendSliceStep(done, metadata, j);
      j := j + 1;
    }
    assert metadata[..j] == metadata;
  }

  /** `PineconeAnalyzer.analyze_metadata_structure`. */
  method AnalyzeMetadataStructure(vectors: seq<Record>) returns (a: MetadataAnalysis)
    requires WellFormedSample(vectors)
    ensures a.totalVectorsAnalyzed == |vectors|
    ensures a.fields == FieldOrder(Pairs(vectors))
    ensures a.counts == CountMap(Pairs(vectors))
    ensures a.types == TypeMap(Pairs(vectors))
    ensures a.samples == SampleMap(Pairs(vectors))
    ensures forall k :: k in a.counts <==> k in a.fields
    ensures forall k :: k in a.counts ==> 1 <= a.counts[k] == RecordsWithKey(vectors, k) <= |vectors|
    ensures forall k :: k in a.samples ==> |a.samples[k]| <= 3
  {
    var acc := Accumulators([], map[], map[], map[]);
    var i := 0;
    while i < |vectors|
      invariant 0 <= i <= |vectors|
      invariant acc == Summary(Pairs(vectors[..i]))
    {
      acc := CountRecord(acc, Pairs(vectors[..i]), vectors[i].metadata);
      assert vectors[..i + 1][..i] == vectors[..i];
      i := i + 1;
    }
    assert vectors[..i] == vectors;
    a := MetadataAnalysis(|vectors|, acc.fields, acc.counts, acc.types, acc.samples);
    MetadataFacts(vectors);
  }

  lemma MetadataFacts(vectors: seq<Record>)
    requires WellFormedSample(vectors)
    ensures forall k :: k in CountMap(Pairs(vectors)) <==> k in FieldOrder(Pairs(vectors))
    ensures forall k :: k in CountMap(Pairs(vectors)) ==>
      1 <= CountMap(Pairs(vectors))[k] == RecordsWithKey(vectors, k) <= |vectors|
    ensures forall k :: k in SampleMap(Pairs(vectors)) ==> |SampleMap(Pairs(vectors))[k]| <= 3
  {
    var ps := Pairs(vectors);
    MetadataMapsAgree(ps);
    forall k | k in CountMap(ps) ensures 1 <= CountMap(ps)[k] == RecordsWithKey(vectors, k) {
      CountIsRecordsWithKey(vectors, k);
    }
    forall k | k in SampleMap(ps) ensures |SampleMap(ps)[k]| <= 3 {
      SamplesAreFirstThree(ps, k);
    }
  }

  /** `metadata_fields[k]` read as a `defaultdict(int)`. */
  function Count(ps: seq<Entry>, k: string): nat
  {
    var m := CountMap(ps);
    if k in m then m[k] else 0
  }

  /** All values seen for `k`, in order, as stored example texts. */
  function ValuesOf(ps: seq<Entry>, k: string): seq<string>
  {
    if |ps| == 0 then []
    else ValuesOf(ps[..|ps| - 1], k) + (if ps[|ps| - 1].0 == k then [SampleText(ps[|ps| - 1].1)] else [])
  }

  /** The four views of the metadata agree on their key set, which is the
      set of keys that occur, and `FieldOrder` lists it without repetition. */
  lemma MetadataMapsAgree(ps: seq<Entry>)
    ensures forall k :: k in CountMap(ps) <==> k in FieldOrder(ps)
    ensures forall k :: k in TypeMap(ps) <==> k in FieldOrder(ps)
    ensures forall k :: k in SampleMap(ps) <==> k in FieldOrder(ps)
    ensures forall k :: k in FieldOrder(ps) <==> exists i :: 0 <= i < |ps| && ps[i].0 == k
    ensures forall i, j :: 0 <= i < j < |FieldOrder(ps)| ==> FieldOrder(ps)[i] != FieldOrder(ps)[j]
    ensures forall k :: k in CountMap(ps) ==> CountMap(ps)[k] >= 1
  {
    MapKeysAgree(ps);
    FieldOrderOccurs(ps);
    FieldOrderDistinct(ps);
  }

  lemma {:induction false} MapKeysAgree(ps: seq<Entry>)
    ensures forall k :: k in CountMap(ps) <==> k in FieldOrder(ps)
    ensures forall k :: k in TypeMap(ps) <==> k in FieldOrder(ps)
    ensures forall k :: k in SampleMap(ps) <==> k in FieldOrder(ps)
    ensures forall k :: k in CountMap(ps) ==> CountMap(ps)[k] >= 1
  {
    if |ps| > 0 {
      MapKeysAgree(ps[..|ps| - 1]);
    }
  }

  lemma {:induction false} FieldOrderOccurs(ps: seq<Entry>)
    ensures forall k :: k in FieldOrder(ps) <==> exists i :: 0 <= i < |ps| && ps[i].0 == k
  {
    if |ps| > 0 {
      var init := ps[..|ps| - 1];
      FieldOrderOccurs(init);
      forall k | k in FieldOrder(ps) ensures exists i :: 0 <= i < |ps| && ps[i].0 == k {
        if k in FieldOrder(init) {
          var i :| 0 <= i < |init| && init[i].0 == k;
          assert ps[i] == init[i];
        } else {
          assert ps[|ps| - 1].0 == k;
        }
      }
      forall k | (exists i :: 0 <= i < |ps| && ps[i].0 == k) ensures k in FieldOrder(ps) {
        var i :| 0 <= i < |ps| && ps[i].0 == k;
        if i < |init| {
          assert init[i] == ps[i];
        }
      }
    }
  }

  lemma {:induction false} FieldOrderDistinct(ps: seq<Entry>)
    ensures forall i, j :: 0 <= i < j < |FieldOrder(ps)| ==> FieldOrder(ps)[i] != FieldOrder(ps)[j]
  {
    if |ps| > 0 {
      FieldOrderDistinct(ps[..|ps| - 1]);
    }
  }

  lemma CountSnoc(ps: seq<Entry>, e: Entry, k: string)
    ensures Count(ps + [e], k) == Count(ps, k) + (if e.0 == k then 1 else 0)
  {
    assert (ps + [e])[..|ps|] == ps;
  }

  lemma {:induction false} CountConcat(ps: seq<Entry>, qs: seq<Entry>, k: string)
    ensures Count(ps + qs, k) == Count(ps, k) + Count(qs, k)
    decreases |qs|
  {
    if |qs| == 0 {
      assert ps + qs == ps;
    } else {
      var init := qs[..|qs| - 1];
      var e := qs[|qs| - 1];
      assert ps + qs == (ps + init) + [e];
      CountConcat(ps, init, k);
      CountSnoc(ps + init, e, k);
      CountSnoc(init, e, k);
      assert init + [e] == qs;
    }
  }

  /** Within one dictionary a key occurs at most once. */
  lemma {:induction false} CountInDictionary(md: seq<Entry>, k: string)
    requires DistinctKeys(md)
    ensures Count(md, k) == if HasKey(md, k) then 1 else 0
    decreases |md|
  {
    if |md| > 0 {
      var init := md[..|md| - 1];
      var e := md[|md| - 1];
      assert md == init + [e];
      CountInDictionary(init, k);
      CountSnoc(init, e, k);
      if HasKey(init, k) {
        var i :| 0 <= i < |init| && init[i].0 == k;
        assert md[i].0 == k;
      }
    }
  }

  /** A key's count is the number of records whose metadata holds the key,
      null values included; so it never exceeds the sample size. */
  lemma {:induction false} CountIsRecordsWithKey(vs: seq<Record>, k: string)
    requires WellFormedSample(vs)
    ensures Count(Pairs(vs), k) == RecordsWithKey(vs, k) <= |vs|
    decreases |vs|
  {
    if |vs| > 0 {
      var init := vs[..|vs| - 1];
      CountIsRecordsWithKey(init, k);
      CountConcat(Pairs(init), vs[|vs| - 1].metadata, k);
      CountInDictionary(vs[|vs| - 1].metadata, k);
    }
  }

  /** The stored examples of a key are the first three values seen for it,
      each `str(value)` cut to 100 characters. */
  lemma {:induction false} SamplesAreFirstThree(ps: seq<Entry>, k: string)
    ensures (if k in SampleMap(ps) then SampleMap(ps)[k] else []) == Take(ValuesOf(ps, k), 3)
    ensures forall s :: s in ValuesOf(ps, k) ==> |s| <= 100
    decreases |ps|
  {
    SamplesAreTaken(ps, k);
    ValuesAreShort(ps, k);
  }

  lemma {:induction false} SamplesAreTaken(ps: seq<Entry>, k: string)
    ensures (if k in SampleMap(ps) then SampleMap(ps)[k] else []) == Take(ValuesOf(ps, k), 3)
    decreases |ps|
  {
    if |ps| > 0 {
      var init := ps[..|ps| - 1];
      SamplesAreTaken(init, k);
      if ps[|ps| - 1].0 == k {
        TakeSnoc(ValuesOf(init, k), SampleText(ps[|ps| - 1].1), 3);
      }
    }
  }

  lemma {:induction false} ValuesAreShort(ps: seq<Entry>, k: string)
    ensures forall s :: s in ValuesOf(ps, k) ==> |s| <= 100
    decreases |ps|
  {
    if |ps| > 0 {
      ValuesAreShort(ps[..|ps| - 1], k);
    }
  }

  /** The type names kept for a key are exactly those of its values, each
      listed once; a key is heterogeneous exactly when more than one name is
      kept. */
  lemma TypesAreObserved(ps: seq<Entry>, k: string)
    requires k in TypeMap(ps)
    ensures var ts := TypeMap(ps)[k];
      (forall t :: t in ts <==> exists i :: 0 <= i < |ps| && ps[i].0 == k && TypeName(ps[i].1) == t)
      && (forall i, j :: 0 <= i < j < |ts| ==> ts[i] != ts[j])
  {
    TypesSound(ps, k);
    forall t | (exists i :: 0 <= i < |ps| && ps[i].0 == k && TypeName(ps[i].1) == t) ensures t in TypeMap(ps)[k] {
      var i :| 0 <= i < |ps| && ps[i].0 == k && TypeName(ps[i].1) == t;
      TypesComplete(ps, k, i);
    }
  }

  /** Every kept type name is that of a value of the key, and none is kept twice. */
  lemma {:induction false} TypesSound(ps: seq<Entry>, k: string)
    requires k in TypeMap(ps)
    ensures var ts := TypeMap(ps)[k];
      (forall t :: t in ts ==> exists i :: 0 <= i < |ps| && ps[i].0 == k && TypeName(ps[i].1) == t)
      && (forall i, j :: 0 <= i < j < |ts| ==> ts[i] != ts[j])
    decreases |ps|
  {
    var init := ps[..|ps| - 1];
    if k in TypeMap(init) {
      TypesSound(init, k);
    }
    var ts := TypeMap(ps)[k];
    forall t | t in ts ensures exists i :: 0 <= i < |ps| && ps[i].0 == k && TypeName(ps[i].1) == t {
      if k in TypeMap(init) && t in TypeMap(init)[k] {
        var i :| 0 <= i < |init| && init[i].0 == k && TypeName(init[i].1) == t;
        assert ps[i] == init[i];
      } else {
        assert ps[|ps| - 1].0 == k && TypeName(ps[|ps| - 1].1) == t;
      }
    }
  }

  /** The type name of every value of the key is kept. */
  lemma {:induction false} TypesComplete(ps: seq<Entry>, k: string, i: nat)
    requires i < |ps| && ps[i].0 == k
    ensures k in TypeMap(ps) && TypeName(ps[i].1) in TypeMap(ps)[k]
    decreases |ps|
  {
    var init := ps[..|ps| - 1];
    if i < |init| {
      assert init[i] == ps[i];
      TypesComplete(init, k, i);
    }
  }

  lemma HeterogeneousField(ps: seq<Entry>, k: string)
    requires k in TypeMap(ps)
    ensures |TypeMap(ps)[k]| > 1 <==>
      exists i, j :: 0 <= i < |ps| && 0 <= j < |ps| && ps[i].0 == k && ps[j].0 == k
        && TypeName(ps[i].1) != TypeName(ps[j].1)
  {
    TypesAreObserved(ps, k);
    var ts := TypeMap(ps)[k];
    if |ts| > 1 {
      assert ts[0] in ts && ts[1] in ts;
    }
    if exists i, j :: 0 <= i < |ps| && 0 <= j < |ps| && ps[i].0 == k && ps[j].0 == k
        && TypeName(ps[i].1) != TypeName(ps[j].1) {
      var i, j :| 0 <= i < |ps| && 0 <= j < |ps| && ps[i].0 == k && ps[j].0 == k
        && TypeName(ps[i].1) != TypeName(ps[j].1);
      assert TypeName(ps[i].1) in ts && TypeName(ps[j].1) in ts;
    }
  }

  // ---------------------------------------------------------------------
  // analyze_content_patterns

  /** A `Counter` in insertion order: distinct keys with their counts. */
  type Tally = seq<(Value, nat)>

  function KeyIndex(c: Tally, k: Value): (r: Option<nat>)
    ensures r.Some? ==> r.value < |c| && c[r.value].0 == k
    ensures r.None? ==> forall i :: 0 <= i < |c| ==> c[i].0 != k
  {
    if |c| == 0 then None
    else if c[0].0 == k then Some(0)
    else match KeyIndex(c[1..], k)
      case None => None
      case Some(i) => Some(i + 1)
  }

  /** `counter[k] += 1` */
  function Bump(c: Tally, k: Value): Tally
  {
    match KeyIndex(c, k)
    case Some(i) => c[i := (k, c[i].1 + 1)]
    case None => c + [(k, 1)]
  }

  /** The counter after counting `ks` in order. */
  function Tallied(ks: seq<Value>): Tally
  {
    if |ks| == 0 then [] else Bump(Tallied(ks[..|ks| - 1]), ks[|ks| - 1])
  }

  function Total(c: Tally): nat
  {
    if |c| == 0 then 0 else c[0].1 + Total(c[1..])
  }

  /** `counter[k]`, zero for an absent key. */
  function CountOfKey(c: Tally, k: Value): nat
  {
    match KeyIndex(c, k)
    case Some(i) => c[i].1
    case None => 0
  }

  function Occurrences(ks: seq<Value>, k: Value): nat
  {
    if |ks| == 0 then 0 else Occurrences(ks[..|ks| - 1], k) + (if ks[|ks| - 1] == k then 1 else 0)
  }

  lemma {:induction false} TotalUpdate(c: Tally, i: nat, k: Value)
    requires i < |c|
    ensures Total(c[i := (k, c[i].1 + 1)]) == Total(c) + 1
    decreases |c|
  {
    if i > 0 {
      TotalUpdate(c[1..], i - 1, k);
      assert c[i := (k, c[i].1 + 1)][1..] == c[1..][i - 1 := (k, c[i].1 + 1)];
    }
  }

  lemma {:induction false} TotalAppend(c: Tally, e: (Value, nat))
    ensures Total(c + [e]) == Total(c) + e.1
    decreases |c|
  {
    if |c| > 0 {
      assert (c + [e])[1..] == c[1..] + [e];
      TotalAppend(c[1..], e);
    }
  }

  /** Every counted key lands in exactly one bucket: the buckets sum to the
      number of keys counted, each bucket holds the key's number of
      occurrences, and no key has two buckets. */
  lemma {:induction false} TalliedCounts(ks: seq<Value>)
    ensures Total(Tallied(ks)) == |ks|
    ensures forall k :: CountOfKey(Tallied(ks), k) == Occurrences(ks, k)
    ensures forall i, j :: 0 <= i < j < |Tallied(ks)| ==> Tallied(ks)[i].0 != Tallied(ks)[j].0
    decreases |ks|
  {
    if |ks| > 0 {
      var init := ks[..|ks| - 1];
      TalliedCounts(init);
      BumpCounts(Tallied(init), ks[|ks| - 1]);
    }
  }

  /** `counter[k] += 1` adds one to the total and to the bucket of `k`, and
      nothing else. */
  lemma BumpCounts(c: Tally, k: Value)
    requires forall i, j :: 0 <= i < j < |c| ==> c[i].0 != c[j].0
    ensures Total(Bump(c, k)) == Total(c) + 1
    ensures forall k' :: CountOfKey(Bump(c, k), k') == CountOfKey(c, k') + (if k' == k then 1 else 0)
    ensures forall i, j :: 0 <= i < j < |Bump(c, k)| ==> Bump(c, k)[i].0 != Bump(c, k)[j].0
  {
    match KeyIndex(c, k)
    case Some(i) => BumpExisting(c, k, i);
    case None => BumpNew(c, k);
  }

  lemma BumpExisting(c: Tally, k: Value, i: nat)
    requires forall i, j :: 0 <= i < j < |c| ==> c[i].0 != c[j].0
    requires KeyIndex(c, k) == Some(i)
    ensures Total(Bump(c, k)) == Total(c) + 1
    ensures forall k' :: CountOfKey(Bump(c, k), k') == CountOfKey(c, k') + (if k' == k then 1 else 0)
    ensures forall i, j :: 0 <= i < j < |Bump(c, k)| ==> Bump(c, k)[i].0 != Bump(c, k)[j].0
  {
    TotalUpdate(c, i, k);
    var c' := c[i := (k, c[i].1 + 1)];
    assert Bump(c, k) == c';
    forall k' ensures CountOfKey(c', k') == CountOfKey(c, k') + (if k' == k then 1 else 0) {
      if k' != k {
        match KeyIndex(c, k')
        case Some(j) => KeyIndexUnique(c', j, k');
        case None => KeyIndexAbsent(c', k');
      } else {
        KeyIndexUnique(c', i, k);
      }
    }
  }

  lemma BumpNew(c: Tally, k: Value)
    requires forall i, j :: 0 <= i < j < |c| ==> c[i].0 != c[j].0
    requires KeyIndex(c, k).None?
    ensures Total(Bump(c, k)) == Total(c) + 1
    ensures forall k' :: CountOfKey(Bump(c, k), k') == CountOfKey(c, k') + (if k' == k then 1 else 0)
    ensures forall i, j :: 0 <= i < j < |Bump(c, k)| ==> Bump(c, k)[i].0 != Bump(c, k)[j].0
  {
    TotalAppend(c, (k, 1));
    var c' := c + [(k, 1)];
    assert Bump(c, k) == c';
    forall k' ensures CountOfKey(c', k') == CountOfKey(c, k') + (if k' == k then 1 else 0) {
      if k' != k {
        match KeyIndex(c, k')
        case Some(j) => KeyIndexUnique(c', j, k');
        case None => KeyIndexAbsent(c', k');
      } else {
        KeyIndexUnique(c', |c|, k);
      }
    }
  }

  lemma KeyIndexUnique(c: Tally, i: nat, k: Value)
    requires i < |c| && c[i].0 == k
    requires forall j :: 0 <= j < i ==> c[j].0 != k
    ensures KeyIndex(c, k) == Some(i)
  {
    if i > 0 {
      KeyIndexUnique(c[1..], i - 1, k);
    }
  }

  lemma KeyIndexAbsent(c: Tally, k: Value)
    requires forall j :: 0 <= j < |c| ==> c[j].0 != k
    ensures KeyIndex(c, k).None?
  {
  }

  /** Length of the `content` value when it is a non-empty string, as
      `if content: content_lengths.append(len(content))` uses it. */
  function ContentLength(md: seq<Entry>): Option<nat>
  {
    match Get(md, "content", Str(""))
    case Str(s) => if |s| > 0 then Some(|s|) else None
    case _ => None
  }

  function ContentLengths(vs: seq<Record>): seq<nat>
  {
    if |vs| == 0 then []
    else
      var prev := ContentLengths(vs[..|vs| - 1]);
      match ContentLength(vs[|vs| - 1].metadata)
      case Some(n) => prev + [n]
      case None => prev
  }

  const Unknown: Value := Str("Unknown")

  /** `metadata.get(key, 'Unknown')` for each record in turn. */
  function FieldValues(vs: seq<Record>, key: string): (ks: seq<Value>)
    ensures |ks| == |vs|
  {
    if |vs| == 0 then [] else FieldValues(vs[..|vs| - 1], key) + [Get(vs[|vs| - 1].metadata, key, Unknown)]
  }

  function SourcesOf(vs: seq<Record>): (ks: seq<Value>)
    ensures |ks| == |vs|
  {
    FieldValues(vs, "source")
  }

  function ChunkTypesOf(vs: seq<Record>): (ks: seq<Value>)
    ensures |ks| == |vs|
  {
    FieldValues(vs, "chunk_type")
  }

  datatype LengthStats = LengthStats(min: nat, max: nat, avg: real)

  function MinOf(xs: seq<nat>): (m: nat)
    requires |xs| > 0
    ensures forall i :: 0 <= i < |xs| ==> m <= xs[i]
    ensures m in xs
  {
    if |xs| == 1 then xs[0] else var r := MinOf(xs[1..]); if xs[0] <= r then xs[0] else r
  }

  function MaxOf(xs: seq<nat>): (m: nat)
    requires |xs| > 0
    ensures forall i :: 0 <= i < |xs| ==> xs[i] <= m
    ensures m in xs
  {
    if |xs| == 1 then xs[0] else var r := MaxOf(xs[1..]); if xs[0] >= r then xs[0] else r
  }

  function SumOf(xs: seq<nat>): nat
  {
    if |xs| == 0 then 0 else xs[0] + SumOf(xs[1..])
  }

  /** The `content_length_stats` dictionary; all zero when nothing was measured. */
  function Stats(xs: seq<nat>): LengthStats
  {
    if |xs| == 0 then LengthStats(0, 0, 0.0)
    else LengthStats(MinOf(xs), MaxOf(xs), SumOf(xs) as real / |xs| as real)
  }

  lemma {:induction false} SumBounds(xs: seq<nat>, lo: nat, hi: nat)
    requires forall i :: 0 <= i < |xs| ==> lo <= xs[i] <= hi
    ensures |xs| * lo <= SumOf(xs) <= |xs| * hi
    decreases |xs|
  {
    if |xs| > 0 {
      SumBounds(xs[1..], lo, hi);
      assert |xs| * lo == (|xs| - 1) * lo + lo;
      assert |xs| * hi == (|xs| - 1) * hi + hi;
    }
  }

  /** Minimum, average and maximum are ordered. */
  lemma StatsOrdered(xs: seq<nat>)
    ensures Stats(xs).min as real <= Stats(xs).avg <= Stats(xs).max as real
  {
    if |xs| > 0 {
      var lo, hi := MinOf(xs), MaxOf(xs);
      SumBounds(xs, lo, hi);
      DivBounds(SumOf(xs), |xs|, lo, hi);
    }
  }

  lemma DivBounds(s: nat, n: nat, lo: nat, hi: nat)
    requires n > 0 && n * lo <= s <= n * hi
    ensures lo as real <= s as real / n as real <= hi as real
  {
    assert (n * lo) as real == n as real * lo as real;
    assert (n * hi) as real == n as real * hi as real;
    RealDivAtLeast(s as real, n as real, lo as real);
    RealDivAtMost(s as real, n as real, hi as real);
  }

  lemma RealDivAtLeast(s: real, n: real, lo: real)
    requires n > 0.0 && n * lo <= s
    ensures lo <= s / n
  {
    var a := s / n;
    assert a * n == s;
    if lo > a {
      assert n * lo > n * a;
    }
  }

  lemma RealDivAtMost(s: real, n: real, hi: real)
    requires n > 0.0 && s <= n * hi
    ensures s / n <= hi
  {
    var a := s / n;
    assert a * n == s;
    if a > hi {
      assert n * a > n * hi;
    }
  }

  /** `Counter.most_common(n)`: counts in non-increasing order, equal counts
      in first-seen order (Python's sort is stable), cut to `n`. */
  function MostCommon(c: Tally, n: nat): Tally
  {
    Take(SortByCount(c), n)
  }

  function SortByCount(c: Tally): Tally
  {
    if |c| == 0 then [] else InsertByCount(SortByCount(c[..|c| - 1]), c[|c| - 1])
  }

  /** Places `x` after every entry whose count is at least its own. */
  function InsertByCount(s: Tally, x: (Value, nat)): Tally
  {
    if |s| == 0 then [x]
    else if s[0].1 >= x.1 then [s[0]] + InsertByCount(s[1..], x)
    else [x] + s
  }

  predicate NonIncreasing(s: Tally)
  {
    forall i, j :: 0 <= i < j < |s| ==> s[i].1 >= s[j].1
  }

  /** The entries with count `n`, in order. */
  function WithCount(s: Tally, n: nat): Tally
  {
    if |s| == 0 then [] else (if s[0].1 == n then [s[0]] else []) + WithCount(s[1..], n)
  }

  lemma {:induction false} InsertBounded(s: Tally, x: (Value, nat), b: nat)
    requires forall i :: 0 <= i < |s| ==> s[i].1 <= b
    requires x.1 <= b
    ensures forall i :: 0 <= i < |InsertByCount(s, x)| ==> InsertByCount(s, x)[i].1 <= b
    decreases |s|
  {
    if |s| > 0 && s[0].1 >= x.1 {
      InsertBounded(s[1..], x, b);
    }
  }

  lemma {:induction false} InsertKeepsOrder(s: Tally, x: (Value, nat))
    requires NonIncreasing(s)
    ensures NonIncreasing(InsertByCount(s, x))
    decreases |s|
  {
    if |s| > 0 && s[0].1 >= x.1 {
      var rest := InsertByCount(s[1..], x);
      InsertKeepsOrder(s[1..], x);
      InsertBounded(s[1..], x, s[0].1);
      var r := [s[0]] + rest;
      assert r[1..] == rest;
    }
  }

  lemma {:induction false} InsertPermutes(s: Tally, x: (Value, nat))
    ensures multiset(InsertByCount(s, x)) == multiset(s) + multiset{x}
    decreases |s|
  {
    if |s| > 0 && s[0].1 >= x.1 {
      InsertPermutes(s[1..], x);
      assert s == [s[0]] + s[1..];
    }
  }

  lemma {:induction false} InsertTotal(s: Tally, x: (Value, nat))
    ensures Total(InsertByCount(s, x)) == Total(s) + x.1
    decreases |s|
  {
    if |s| > 0 && s[0].1 >= x.1 {
      InsertTotal(s[1..], x);
      assert ([s[0]] + InsertByCount(s[1..], x))[1..] == InsertByCount(s[1..], x);
    } else if |s| > 0 {
      assert ([x] + s)[1..] == s;
    }
  }

  lemma {:induction false} InsertWithCount(s: Tally, x: (Value, nat), n: nat)
    requires NonIncreasing(s)
    ensures WithCount(InsertByCount(s, x), n) == WithCount(s, n) + (if x.1 == n then [x] else [])
    decreases |s|
  {
    if |s| > 0 && s[0].1 >= x.1 {
      InsertWithCount(s[1..], x, n);
      assert ([s[0]] + InsertByCount(s[1..], x))[1..] == InsertByCount(s[1..], x);
    } else if |s| > 0 {
      assert ([x] + s)[1..] == s;
      if x.1 == n {
        NoneWithCount(s, n);
      }
    }
  }

  lemma {:induction false} NoneWithCount(s: Tally, n: nat)
    requires NonIncreasing(s) && (|s| == 0 || s[0].1 < n)
    ensures WithCount(s, n) == []
    decreases |s|
  {
    if |s| > 0 {
      assert |s| == 1 || s[1].1 <= s[0].1;
      NoneWithCount(s[1..], n);
    }
  }

  lemma {:induction false} WithCountSnoc(s: Tally, x: (Value, nat), n: nat)
    ensures WithCount(s + [x], n) == WithCount(s, n) + (if x.1 == n then [x] else [])
    decreases |s|
  {
    if |s| > 0 {
      assert (s + [x])[1..] == s[1..] + [x];
      WithCountSnoc(s[1..], x, n);
    }
  }

  /** `most_common` ordering: counts never increase along the result, it
      is a rearrangement of the counter, and entries of equal count keep
      their first-seen order. */
  lemma {:induction false} SortByCountProperties(c: Tally)
    ensures NonIncreasing(SortByCount(c))
    ensures multiset(SortByCount(c)) == multiset(c)
    ensures Total(SortByCount(c)) == Total(c)
    ensures forall n :: WithCount(SortByCount(c), n) == WithCount(c, n)
    decreases |c|
  {
    if |c| > 0 {
      var init := c[..|c| - 1];
      var x := c[|c| - 1];
      assert c == init + [x];
      SortByCountProperties(init);
      InsertKeepsOrder(SortByCount(init), x);
      InsertPermutes(SortByCount(init), x);
      InsertTotal(SortByCount(init), x);
      TotalAppend(init, x);
      forall n ensures WithCount(SortByCount(c), n) == WithCount(c, n) {
        InsertWithCount(SortByCount(init), x, n);
        WithCountSnoc(init, x, n);
      }
    }
  }

  datatype ContentAnalysis = ContentAnalysis(
    lengthStats: LengthStats,
    topSources: Tally,
    chunkTypes: Tally)

  /** `PineconeAnalyzer.analyze_content_patterns`. */
  method AnalyzeContentPatterns(vectors: seq<Record>) returns (a: ContentAnalysis)
    ensures a.lengthStats == Stats(ContentLengths(vectors))
    ensures a.topSources == MostCommon(Tallied(SourcesOf(vectors)), 10)
    ensures a.chunkTypes == Tallied(ChunkTypesOf(vectors))
    ensures Total(a.chunkTypes) == |vectors|
    ensures |a.topSources| <= 10
    ensures NonIncreasing(a.topSources)
    ensures |Tallied(SourcesOf(vectors))| <= 10 ==> Total(a.topSources) == |vectors|
  {
    var contentLengths, sources, chunkTypes := CountPatterns(vectors);
    a := ContentAnalysis(Stats(contentLengths), MostCommon(sources, 10), chunkTypes);
    TalliedCounts(ChunkTypesOf(vectors));
    TalliedCounts(SourcesOf(vectors));
    TopTenShape(sources);
  }

  /** The scan of `analyze_content_patterns` over the sample. */
  method CountPatterns(vectors: seq<Record>) returns (contentLengths: seq<nat>, sources: Tally, chunkTypes: Tally)
    ensures contentLengths == ContentLengths(vectors)
    ensures sources == Tallied(SourcesOf(vectors))
    ensures chunkTypes == Tallied(ChunkTypesOf(vectors))
  {
    contentLengths := [];
    sources := [];
    chunkTypes := [];
    var i := 0;
    while i < |vectors|
      invariant 0 <= i <= |vectors|
      invariant contentLengths == ContentLengths(vectors[..i])
      invariant sources == Tallied(SourcesOf(vectors[..i]))
      invariant chunkTypes == Tallied(ChunkTypesOf(vectors[..i]))
    {
      assert vectors[..i + 1][..i] == vectors[..i];
      var metadata := vectors[i].metadata;
      var content := ContentLength(metadata);
      if content.Some? {
        contentLengths := contentLengths + [content.value];
      }
      sources := Bump(sources, Get(metadata, "source", Unknown));
      chunkTypes := Bump(chunkTypes, Get(metadata, "chunk_type", Unknown));
      i := i + 1;
      assert SourcesOf(vectors[..i])[..i - 1] == SourcesOf(vectors[..i - 1]);
      assert ChunkTypesOf(vectors[..i])[..i - 1] == ChunkTypesOf(vectors[..i - 1]);
    }
    assert vectors[..i] == vectors;
  }

  /** The ten most common entries are ordered by count, and are the whole
      tally when it has at most ten entries. */
  lemma TopTenShape(t: Tally)
    ensures |MostCommon(t, 10)| <= 10
    ensures NonIncreasing(MostCommon(t, 10))
    ensures |t| <= 10 ==> Total(MostCommon(t, 10)) == Total(t)
  {
    SortByCountProperties(t);
    var sorted := SortByCount(t);
    var top := MostCommon(t, 10);
    forall p, q | 0 <= p < q < |top| ensures top[p].1 >= top[q].1 {
      assert top[p] == sorted[p] && top[q] == sorted[q];
    }
    if |t| <= 10 {
      assert |sorted| == |t| by {
        assert |multiset(sorted)| == |multiset(t)|;
      }
    }
  }

  /** Records in the LlamaIndex layout (`_node_content`, `doc_id`,
      `file_name`, ...) carry none of `source`, `chunk_type`, `content`:
      both counters then hold the single bucket `Unknown` with the whole
      sample, and the length statistics are all zero. */
  lemma {:induction false} NoSourceKeys(vs: seq<Record>)
    requires |vs| > 0
    requires forall i :: 0 <= i < |vs| ==>
      !HasKey(vs[i].metadata, "source") && !HasKey(vs[i].metadata, "chunk_type")
      && !HasKey(vs[i].metadata, "content")
    ensures Tallied(SourcesOf(vs)) == [(Unknown, |vs|)]
    ensures Tallied(ChunkTypesOf(vs)) == [(Unknown, |vs|)]
    ensures Stats(ContentLengths(vs)) == LengthStats(0, 0, 0.0)
  {
    FieldValuesAbsent(vs, "source");
    TalliedConstant(SourcesOf(vs), Unknown);
    FieldValuesAbsent(vs, "chunk_type");
    TalliedConstant(ChunkTypesOf(vs), Unknown);
    AllEmptyContent(vs);
  }

  /** Records without the key all read as `Unknown`. */
  lemma {:induction false} FieldValuesAbsent(vs: seq<Record>, key: string)
    requires forall i :: 0 <= i < |vs| ==> !HasKey(vs[i].metadata, key)
    ensures forall i :: 0 <= i < |vs| ==> FieldValues(vs, key)[i] == Unknown
    decreases |vs|
  {
    if |vs| > 0 {
      var init := vs[..|vs| - 1];
      assert forall i :: 0 <= i < |init| ==> init[i] == vs[i];
      FieldValuesAbsent(init, key);
    }
  }

  /** Counting one key over and over gives one bucket holding all of them. */
  lemma {:induction false} TalliedConstant(ks: seq<Value>, k: Value)
    requires |ks| > 0 && forall i :: 0 <= i < |ks| ==> ks[i] == k
    ensures Tallied(ks) == [(k, |ks|)]
    decreases |ks|
  {
    var init := ks[..|ks| - 1];
    if |init| > 0 {
      TalliedConstant(init, k);
      assert KeyIndex([(k, |init|)], k) == Some(0);
    } else {
      assert Tallied(init) == [];
      assert KeyIndex([], k) == None;
    }
  }

  lemma {:induction false} AllEmptyContent(vs: seq<Record>)
    requires forall i :: 0 <= i < |vs| ==> !HasKey(vs[i].metadata, "content")
    ensures ContentLengths(vs) == []
    decreases |vs|
  {
    if |vs| > 0 {
      AllEmptyContent(vs[..|vs| - 1]);
    }
  }

  // ---------------------------------------------------------------------
  // run_full_analysis: the sample_vectors projection

  datatype SampleVector = SampleVector(id: string, score: real, metadataKeys: seq<string>)

  /** The first five records as (id, score or 0, metadata keys in order). */
  function SampleVectors(vs: seq<Record>): (r: seq<SampleVector>)
    ensures |r| == if |vs| < 5 then |vs| else 5
    ensures forall i :: 0 <= i < |r| ==>
      r[i].id == vs[i].id
      && r[i].score == (if vs[i].score.Some? then vs[i].score.value else 0.0)
      && r[i].metadataKeys == Keys(vs[i].metadata)
  {
    var first := Take(vs, 5);
    seq(|first|, i requires 0 <= i < |first| =>
      SampleVector(first[i].id, if first[i].score.Some? then first[i].score.value else 0.0, Keys(first[i].metadata)))
  }

  // ---------------------------------------------------------------------
  // save_report

  /** The index statistics as `describe_index_stats` reports them; every
      figure is already its printed text, absent ones print as `N/A`. */
  datatype IndexStats = IndexStats(
    totalVectorCount: Option<string>,
    dimension: Option<string>,
    indexFullness: Option<string>,
    namespaces: seq<(string, Option<nat>)>)

  function Repeat(c: char, n: nat): (r: string)
    ensures |r| == n
  {
    seq(n, _ => c)
  }

  function OrNA(o: Option<string>): string
  {
    if o.Some? then o.value else "N/A"
  }

  const TitleHeader := "🔍 АНАЛИЗ PINECONE ИНДЕКСА 'UKIDO'\n"
  const StatsHeader := "📊 ОБЩАЯ СТАТИСТИКА ИНДЕКСА\n"
  const MetadataHeader := "🏷️ АНАЛИЗ МЕТАДАННЫХ\n"
  const ContentHeader := "📝 АНАЛИЗ СОДЕРЖИМОГО\n"
  const SourcesHeader := "📚 Топ источников данных:\n"
  const ChunkTypesHeader := "🧩 Типы чанков:\n"
  const ExamplesHeader := "🎯 ПРИМЕРЫ ВЕКТОРОВ\n"
  const ClosingLine := "✅ Анализ завершен. Отчет создан автоматически.\n"

  /** The section headers in the order the report writes them. */
  const SectionHeaders := [TitleHeader, StatsHeader, MetadataHeader, ContentHeader,
                           SourcesHeader, ChunkTypesHeader, ExamplesHeader, ClosingLine]

  function Rule(): string { Repeat('-', 40) + "\n" }
  function DoubleRule(): string { Repeat('=', 80) + "\n" }

  function NamespaceLines(ns: seq<(string, Option<nat>)>): seq<string>
  {
    if |ns| == 0 then []
    else
      var (name, count) := ns[|ns| - 1];
      NamespaceLines(ns[..|ns| - 1])
        + ["  - " + name + ": " + NatToString(if count.Some? then count.value else 0) + " векторов\n"]
  }

  /** The statistics block; `stats == None` is the empty dictionary returned
      when the statistics call failed. */
  function StatsLines(stats: Option<IndexStats>): seq<string>
  {
    [StatsHeader, Rule()]
    + (if stats.None? then []
       else
         var st := stats.value;
         ["• Всего векторов: " + OrNA(st.totalVectorCount) + "\n",
          "• Размерность: " + OrNA(st.dimension) + "\n",
          "• Заполненность: " + OrNA(st.indexFullness) + "\n"]
         + (if |st.namespaces| == 0 then []
            else ["• Количество неймспейсов: " + NatToString(|st.namespaces|) + "\n"]
                 + NamespaceLines(st.namespaces)))
    + ["\n"]
  }

  function FieldLines(m: MetadataAnalysis, field: string): seq<string>
  {
    var count := if field in m.counts then m.counts[field] else 0;
    var types := if field in m.types then m.types[field] else [];
    var samples := if field in m.samples then m.samples[field] else [];
    ["  • " + field + ": " + NatToString(count) + " векторов (тип: " + Join(types, ", ") + ")\n"]
    + (if |samples| > 0 then ["    Примеры: " + Join(Take(samples, 2), ", ") + "\n"] else [])
  }

  function FieldsLines(m: MetadataAnalysis, fields: seq<string>): seq<string>
  {
    if |fields| == 0 then [] else FieldsLines(m, fields[..|fields| - 1]) + FieldLines(m, fields[|fields| - 1])
  }

  function MetadataIntro(m: MetadataAnalysis): seq<string>
  {
    [MetadataHeader, Rule(),
     "• Проанализировано векторов: " + NatToString(m.totalVectorsAnalyzed) + "\n",
     "• Найдено полей метаданных: " + NatToString(|m.counts|) + "\n\n",
     "📋 Поля метаданных:\n"]
  }

  function TallyLines(c: Tally): seq<string>
  {
    if |c| == 0 then []
    else
      var (k, n) := c[|c| - 1];
      TallyLines(c[..|c| - 1]) + ["  • " + ToStr(k) + ": " + NatToString(n) + " векторов\n"]
  }

  function ContentIntro(c: ContentAnalysis, fmt1: real -> string): seq<string>
  {
    [ContentHeader, Rule(),
     "• Длина контента:\n",
     "  - Минимум: " + NatToString(c.lengthStats.min) + " символов\n",
     "  - Максимум: " + NatToString(c.lengthStats.max) + " символов\n",
     "  - Среднее: " + fmt1(c.lengthStats.avg) + " символов\n\n",
     SourcesHeader]
  }

  function ExampleLines(number: nat, v: SampleVector, fmt4: real -> string): seq<string>
  {
    [NatToString(number) + ". ID: " + v.id + "\n",
     "   Score: " + fmt4(v.score) + "\n",
     "   Поля метаданных: " + Join(v.metadataKeys, ", ") + "\n\n"]
  }

  /** `enumerate(sample_vectors, 1)`: the examples numbered from 1. */
  function ExamplesLines(vs: seq<SampleVector>, fmt4: real -> string): seq<string>
  {
    if |vs| == 0 then [] else ExamplesLines(vs[..|vs| - 1], fmt4) + ExampleLines(|vs|, vs[|vs| - 1], fmt4)
  }

  function TitleLines(timestamp: string): seq<string>
  {
    [DoubleRule(), TitleHeader, Repeat('=', 80) + "\n\n", "📅 Время анализа: " + timestamp + "\n\n"]
  }

  function MetadataLines(m: MetadataAnalysis): seq<string>
  {
    MetadataIntro(m) + FieldsLines(m, m.fields) + ["\n"]
  }

  function SourcesLines(c: ContentAnalysis, fmt1: real -> string): seq<string>
  {
    ContentIntro(c, fmt1) + TallyLines(c.topSources) + ["\n", ChunkTypesHeader]
  }

  function ChunkTypeLines(c: ContentAnalysis): seq<string>
  {
    TallyLines(c.chunkTypes) + ["\n", ExamplesHeader, Rule()]
  }

  function FooterLines(): seq<string>
  {
    [DoubleRule(), ClosingLine, DoubleRule()]
  }

  /** Everything `save_report` writes, one `f.write` per element;
      `fmt1`/`fmt4` stand for the `:.1f`/`:.4f` float formats. */
  function ReportLines(timestamp: string, stats: Option<IndexStats>, m: MetadataAnalysis,
                       c: ContentAnalysis, samples: seq<SampleVector>,
                       fmt1: real -> string, fmt4: real -> string): seq<string>
  {
    TitleLines(timestamp) + StatsLines(stats) + MetadataLines(m) + SourcesLines(c, fmt1)
    + ChunkTypeLines(c) + ExamplesLines(samples, fmt4) + FooterLines()
  }

  method WriteNamespaces(ns: seq<(string, Option<nat>)>) returns (out: seq<string>)
    ensures out == NamespaceLines(ns)
  {
    out := [];
    var i := 0;
    while i < |ns|
      invariant 0 <= i <= |ns|
      invariant out == NamespaceLines(ns[..i])
    {
      var (name, count) := ns[i];
      assert ns[..i + 1][..i] == ns[..i];
      out := out + ["  - " + name + ": " + NatToString(if count.Some? then count.value else 0) + " векторов\n"];
      i := i + 1;
    }
    assert ns[..i] == ns;
  }

  method WriteFields(m: MetadataAnalysis) returns (out: seq<string>)
    ensures out == FieldsLines(m, m.fields)
  {
    out := [];
    var i := 0;
    while i < |m.fields|
      invariant 0 <= i <= |m.fields|
      invariant out == FieldsLines(m, m.fields[..i])
    {
      assert m.fields[..i + 1][..i] == m.fields[..i];
      out := out + FieldLines(m, m.fields[i]);
      i := i + 1;
    }
    assert m.fields[..i] == m.fields;
  }

  method WriteTally(c: Tally) returns (out: seq<string>)
    ensures out == TallyLines(c)
  {
    out := [];
    var i := 0;
    while i < |c|
      invariant 0 <= i <= |c|
      invariant out == TallyLines(c[..i])
    {
      var (k, n) := c[i];
      assert c[..i + 1][..i] == c[..i];
      out := out + ["  • " + ToStr(k) + ": " + NatToString(n) + " векторов\n"];
      i := i + 1;
    }
    assert c[..i] == c;
  }

  method WriteExamples(samples: seq<SampleVector>, fmt4: real -> string) returns (out: seq<string>)
    ensures out == ExamplesLines(samples, fmt4)
  {
    out := [];
    var i := 0;
    while i < |samples|
      invariant 0 <= i <= |samples|
      invariant out == ExamplesLines(samples[..i], fmt4)
    {
      assert samples[..i + 1][..i] == samples[..i];
      out := out + ExampleLines(i + 1, samples[i], fmt4);
      i := i + 1;
    }
    assert samples[..i] == samples;
  }

  method WriteStats(stats: Option<IndexStats>) returns (out: seq<string>)
    ensures out == StatsLines(stats)
  {
    out := [StatsHeader, Rule()];
    if stats.Some? {
      var st := stats.value;
      out := out + ["• Всего векторов: " + OrNA(st.totalVectorCount) + "\n",
                    "• Размерность: " + OrNA(st.dimension) + "\n",
                    "• Заполненность: " + OrNA(st.indexFullness) + "\n"];
      if |st.namespaces| > 0 {
        out := out + ["• Количество неймспейсов: " + NatToString(|st.namespaces|) + "\n"];
        var nsLines := WriteNamespaces(st.namespaces);
        out := out + nsLines;
      }
    }
    out := out + ["\n"];
  }

  /** `PineconeAnalyzer.save_report`, the file's writes collected in order. */
  method SaveReport(timestamp: string, stats: Option<IndexStats>, m: MetadataAnalysis,
                    c: ContentAnalysis, samples: seq<SampleVector>,
                    fmt1: real -> string, fmt4: real -> string) returns (out: seq<string>)
    ensures out == ReportLines(timestamp, stats, m, c, samples, fmt1, fmt4)
    ensures IsSubsequence(SectionHeaders, out)
  {
    var title := TitleLines(timestamp);
    var statsPart := WriteStats(stats);
    var fieldLines := WriteFields(m);
    var metadataPart := MetadataIntro(m) + fieldLines + ["\n"];
    var sourceLines := WriteTally(c.topSources);
    var sourcesPart := ContentIntro(c, fmt1) + sourceLines + ["\n", ChunkTypesHeader];
    var typeLines := WriteTally(c.chunkTypes);
    var typesPart := typeLines + ["\n", ExamplesHeader, Rule()];
    var exampleLines := WriteExamples(samples, fmt4);
    out := title + statsPart + metadataPart + sourcesPart + typesPart + exampleLines + FooterLines();
    ReportSectionOrder(timestamp, stats, m, c, samples, fmt1, fmt4);
  }

  /** `xs` occurs in `ys` in order, possibly with other elements between. */
  predicate IsSubsequence(xs: seq<string>, ys: seq<string>)
    decreases |ys|
  {
    |xs| == 0 || (|ys| > 0 && (if xs[0] == ys[0] then IsSubsequence(xs[1..], ys[1..]) else IsSubsequence(xs, ys[1..])))
  }

  lemma {:induction false} SubsequenceConcat(xs: seq<string>, ys: seq<string>, xs': seq<string>, ys': seq<string>)
    requires IsSubsequence(xs, ys) && IsSubsequence(xs', ys')
    ensures IsSubsequence(xs + xs', ys + ys')
    decreases |ys|
  {
    if |xs| == 0 {
      SubsequenceSuffix(xs', ys', ys);
      assert xs + xs' == xs';
    } else {
      assert (ys + ys')[1..] == ys[1..] + ys';
      assert (xs + xs')[0] == xs[0];
      if xs[0] == ys[0] {
        SubsequenceConcat(xs[1..], ys[1..], xs', ys');
        assert (xs + xs')[1..] == xs[1..] + xs';
      } else {
        SubsequenceConcat(xs, ys[1..], xs', ys');
      }
    }
  }

  lemma {:induction false} SubsequenceSuffix(xs: seq<string>, ys: seq<string>, zs: seq<string>)
    requires IsSubsequence(xs, ys)
    ensures IsSubsequence(xs, zs + ys)
    decreases |zs|
  {
    if |zs| == 0 {
      assert zs + ys == ys;
    } else {
      SubsequenceSuffix(xs, ys, zs[1..]);
      assert zs + ys == [zs[0]] + (zs[1..] + ys);
      SubsequenceCons(xs, zs[0], zs[1..] + ys);
    }
  }

  lemma SubsequenceCons(xs: seq<string>, y: string, ys: seq<string>)
    requires IsSubsequence(xs, ys)
    ensures IsSubsequence(xs, [y] + ys)
  {
    assert ([y] + ys)[1..] == ys;
    if |xs| > 0 && xs[0] == y {
      SubsequenceWeaken(xs, ys);
    }
  }

  lemma {:induction false} SubsequenceWeaken(xs: seq<string>, ys: seq<string>)
    requires |xs| > 0 && IsSubsequence(xs, ys)
    ensures IsSubsequence(xs[1..], ys)
    decreases |ys|
  {
    if |xs| > 1 {
      if xs[0] == ys[0] {
        if xs[1] == ys[0] {
          SubsequenceWeaken(xs[1..], ys[1..]);
          assert xs[1..][1..] == xs[2..];
        }
      } else {
        SubsequenceWeaken(xs, ys[1..]);
        if xs[1] == ys[0] {
          SubsequenceWeaken(xs[1..], ys[1..]);
          assert xs[1..][1..] == xs[2..];
        }
      }
    }
  }

  lemma ListHeadSubsequence(h: string, rest: seq<string>)
    ensures IsSubsequence([h], [h] + rest)
  {
  }

  lemma ListContainsSubsequence(h: string, ys: seq<string>, i: nat)
    requires i < |ys| && ys[i] == h
    ensures IsSubsequence([h], ys)
  {
    if i > 0 {
      ListContainsSubsequence(h, ys[1..], i - 1);
    }
  }

  lemma BlocksInOrder(title: seq<string>, st: seq<string>, md: seq<string>, ci: seq<string>,
                      ct: seq<string>, ex: seq<string>, footer: seq<string>)
    requires |title| > 1 && title[1] == TitleHeader
    requires |st| > 0 && st[0] == StatsHeader
    requires |md| > 0 && md[0] == MetadataHeader
    requires |ci| > 7 && ci[0] == ContentHeader && ci[6] == SourcesHeader && ci[|ci| - 1] == ChunkTypesHeader
    requires |ct| > 1 && ct[|ct| - 2] == ExamplesHeader
    requires |footer| > 1 && footer[1] == ClosingLine
    ensures IsSubsequence(SectionHeaders, title + st + md + ci + ct + ex + footer)
  {
    ListContainsSubsequence(TitleHeader, title, 1);
    ListContainsSubsequence(StatsHeader, st, 0);
    ListContainsSubsequence(MetadataHeader, md, 0);
    ListContainsSubsequence(ContentHeader, ci[..1], 0);
    ListContainsSubsequence(SourcesHeader, ci[1..7], 5);
    ListContainsSubsequence(ChunkTypesHeader, ci[7..], |ci| - 8);
    assert [ContentHeader] + [SourcesHeader] == [ContentHeader, SourcesHeader];
    assert [ContentHeader, SourcesHeader] + [ChunkTypesHeader] == [ContentHeader, SourcesHeader, ChunkTypesHeader];
    SubsequenceConcat([ContentHeader], ci[..1], [SourcesHeader], ci[1..7]);
    SubsequenceConcat([ContentHeader, SourcesHeader], ci[..1] + ci[1..7], [ChunkTypesHeader], ci[7..]);
    assert ci[..1] + ci[1..7] + ci[7..] == ci;
    assert IsSubsequence([ContentHeader, SourcesHeader, ChunkTypesHeader], ci);
    ListContainsSubsequence(ExamplesHeader, ct, |ct| - 2);
    ListContainsSubsequence(ClosingLine, footer, 1);
    var h2 := [TitleHeader, StatsHeader];
    var h3 := h2 + [MetadataHeader];
    var h6 := h3 + [ContentHeader, SourcesHeader, ChunkTypesHeader];
    var h7 := h6 + [ExamplesHeader];
    SubsequenceConcat([TitleHeader], title, [StatsHeader], st);
    SubsequenceConcat(h2, title + st, [MetadataHeader], md);
    SubsequenceConcat(h3, title + st + md, [ContentHeader, SourcesHeader, ChunkTypesHeader], ci);
    SubsequenceConcat(h6, title + st + md + ci, [ExamplesHeader], ct);
    SubsequenceConcat(h7, title + st + md + ci + ct, [], ex);
    assert h7 + [] == h7;
    SubsequenceConcat(h7, title + st + md + ci + ct + ex, [ClosingLine], footer);
    assert h7 + [ClosingLine] == SectionHeaders;
  }

  /** The report's sections come in a fixed order: title, (timestamp,)
      index statistics, metadata fields, content, sources, chunk types,
      examples, closing line. */
  lemma ReportSectionOrder(timestamp: string, stats: Option<IndexStats>, m: MetadataAnalysis,
                           c: ContentAnalysis, samples: seq<SampleVector>,
                           fmt1: real -> string, fmt4: real -> string)
    ensures IsSubsequence(SectionHeaders, ReportLines(timestamp, stats, m, c, samples, fmt1, fmt4))
  {
    BlocksInOrder(TitleLines(timestamp), StatsLines(stats), MetadataLines(m), SourcesLines(c, fmt1),
                  ChunkTypeLines(c), ExamplesLines(samples, fmt4), FooterLines());
  }

  /** The examples are numbered from 1: the block of the `i`-th sample
      opens with `i+1`. */
  lemma {:induction false} ExamplesNumbered(vs: seq<SampleVector>, fmt4: real -> string, i: nat)
    requires i < |vs|
    ensures |ExamplesLines(vs, fmt4)| == 3 * |vs|
    ensures ExamplesLines(vs, fmt4)[3 * i] == NatToString(i + 1) + ". ID: " + vs[i].id + "\n"
    decreases |vs|
  {
    var init := vs[..|vs| - 1];
    if i < |init| {
      ExamplesNumbered(init, fmt4, i);
    } else if |init| > 0 {
      ExamplesNumbered(init, fmt4, 0);
    }
  }

  /** A field's example line lists the first two values seen for the field. */
  lemma PrintedSamples(vs: seq<Record>, a: MetadataAnalysis, k: string)
    requires a.samples == SampleMap(Pairs(vs)) && k in a.samples
    ensures Take(a.samples[k], 2) == Take(ValuesOf(Pairs(vs), k), 2)
  {
    SamplesAreFirstThree(Pairs(vs), k);
    var all := ValuesOf(Pairs(vs), k);
    if |all| > 3 {
      assert all[..3][..2] == all[..2];
    }
  }
}
