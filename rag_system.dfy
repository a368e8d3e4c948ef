// Retrieval layer: a circuit breaker in front of the vector index, a TTL
// result cache with first-in-first-out eviction keyed by the query digest,
// and the relevance filter that turns index matches into a context string.

module RagSystem {
  import opened Text
  import Config

  // ---------------------------------------------------------------------
  // Circuit breaker

  datatype BreakerState = Closed | Open | HalfOpen

  /** What the protected function would do if it were invoked now. */
  datatype Outcome<T> = Succeeds(value: T) | Fails

  /** What `call` hands back: the function's value, `None`, or the exception re-raised. */
  datatype CallResult<T> = Returned(value: T) | ReturnedNone | Raised

  /** The mutable part of a breaker. */
  datatype Breaker = Breaker(state: BreakerState, failureCount: nat, lastFailureTime: Option<real>)

  datatype Step<T> = Step(after: Breaker, result: CallResult<T>, invoked: bool)

  const InitialBreaker: Breaker := Breaker(Closed, 0, None)

  /** Settings of the two breakers the retrieval layer creates. */
  const PineconeThreshold: nat := 3
  const PineconeTimeout: real := 120.0
  const PineconeTestTimeout: real := 30.0
  const GeminiThreshold: nat := 5
  const GeminiTimeout: real := 60.0
  const GeminiTestTimeout: real := 15.0

  /**
   * One call through the breaker at time `now`. An OPEN breaker with no
   * recorded failure time cannot subtract it from the clock and raises,
   * which `Consistent` below rules out.
   */
  function CallStep<T>(b: Breaker, threshold: nat, timeout: real, now: real, outcome: Outcome<T>): (t: Step<T>)
    ensures !t.invoked ==> t.after == b && !t.result.Returned?
    ensures t.after.state != HalfOpen
  {
    if b.state == Open && b.lastFailureTime.None? then Step(b, Raised, false)
    else if b.state == Open && now - b.lastFailureTime.value < timeout then Step(b, ReturnedNone, false)
    else if b.state != Closed then
      match outcome
      case Succeeds(v) => Step(Breaker(Closed, 0, b.lastFailureTime), Returned(v), true)
      case Fails => Step(Breaker(Open, b.failureCount, Some(now)), ReturnedNone, true)
    else
      match outcome
      case Succeeds(v) => Step(b.(failureCount := 0), Returned(v), true)
      case Fails =>
        if b.failureCount + 1 >= threshold then Step(Breaker(Open, b.failureCount + 1, Some(now)), Raised, true)
        else Step(b.(failureCount := b.failureCount + 1), Raised, true)
  }

  lemma ClosedSuccess<T>(b: Breaker, threshold: nat, timeout: real, now: real, v: T)
    requires b.state == Closed
    ensures CallStep(b, threshold, timeout, now, Succeeds(v)) == Step(b.(failureCount := 0), Returned(v), true)
  {
  }

  lemma ClosedFailure<T>(b: Breaker, threshold: nat, timeout: real, now: real)
    requires b.state == Closed
    ensures var t := CallStep<T>(b, threshold, timeout, now, Fails);
      && t.result == Raised && t.invoked
      && t.after.failureCount == b.failureCount + 1
      && (t.after.state == Open <==> b.failureCount + 1 >= threshold)
      && (t.after.state == Open ==> t.after.lastFailureTime == Some(now))
      && (t.after.state == Closed ==> t.after.lastFailureTime == b.lastFailureTime)
  {
  }

  lemma OpenBlocks<T>(b: Breaker, threshold: nat, timeout: real, now: real, outcome: Outcome<T>)
    requires b.state == Open && b.lastFailureTime.Some? && now - b.lastFailureTime.value < timeout
    ensures CallStep(b, threshold, timeout, now, outcome) == Step(b, ReturnedNone, false)
  {
  }

  /** After the timeout an OPEN breaker makes one trial call; a failing trial returns None instead of raising. */
  lemma OpenTrial<T>(b: Breaker, threshold: nat, timeout: real, now: real, outcome: Outcome<T>)
    requires b.state == Open && b.lastFailureTime.Some? && now - b.lastFailureTime.value >= timeout
    ensures var t := CallStep(b, threshold, timeout, now, outcome);
      && t.invoked
      && (outcome.Succeeds? ==> t.after.state == Closed && t.after.failureCount == 0 && t.result == Returned(outcome.value))
      && (outcome.Fails? ==> t.after == Breaker(Open, b.failureCount, Some(now)) && t.result == ReturnedNone)
  {
  }

  /** Invariant of every breaker reachable from a fresh one. */
  predicate Consistent(b: Breaker, threshold: nat) {
    && b.state != HalfOpen
    && (b.state == Closed ==> b.failureCount < threshold)
    && (b.state == Open ==> b.lastFailureTime.Some?)
  }

  datatype Request<T> = Request(now: real, outcome: Outcome<T>)

  /** The breaker after a sequence of calls. */
  function Run<T>(b: Breaker, threshold: nat, timeout: real, calls: seq<Request<T>>): Breaker
    decreases |calls|
  {
    if calls == [] then b
    else Run(CallStep(b, threshold, timeout, calls[0].now, calls[0].outcome).after, threshold, timeout, calls[1..])
  }

  lemma {:induction false} RunConsistent<T>(b: Breaker, threshold: nat, timeout: real, calls: seq<Request<T>>)
    requires threshold >= 1 && Consistent(b, threshold)
    ensures Consistent(Run(b, threshold, timeout, calls), threshold)
    decreases |calls|
  {
    if calls != [] {
      var t := CallStep(b, threshold, timeout, calls[0].now, calls[0].outcome);
      assert Consistent(t.after, threshold);
      RunConsistent(t.after, threshold, timeout, calls[1..]);
    }
  }

  /** A breaker reachable from a fresh one never takes the failure-time-missing path. */
  lemma FreshBreakerConsistent<T>(threshold: nat, timeout: real, calls: seq<Request<T>>)
    requires threshold >= 1
    ensures Consistent(Run(InitialBreaker, threshold, timeout, calls), threshold)
  {
    RunConsistent(InitialBreaker, threshold, timeout, calls);
  }

  predicate AllFail<T>(calls: seq<Request<T>>) {
    forall i :: 0 <= i < |calls| ==> calls[i].outcome.Fails?
  }

  /** Once OPEN, failing calls keep the breaker OPEN, whatever the clock says. */
  lemma {:induction false} FailuresKeepOpen<T>(b: Breaker, threshold: nat, timeout: real, calls: seq<Request<T>>)
    requires b.state == Open && b.lastFailureTime.Some? && AllFail(calls)
    ensures Run(b, threshold, timeout, calls).state == Open
    ensures Run(b, threshold, timeout, calls).lastFailureTime.Some?
    decreases |calls|
  {
    if calls != [] {
      var t := CallStep(b, threshold, timeout, calls[0].now, calls[0].outcome);
      assert t.after.state == Open && t.after.lastFailureTime.Some?;
      FailuresKeepOpen(t.after, threshold, timeout, calls[1..]);
    }
  }

  /** `threshold - failureCount` consecutive failures open a CLOSED breaker, and further failures keep it open. */
  lemma {:induction false} ConsecutiveFailuresOpen<T>(b: Breaker, threshold: nat, timeout: real, calls: seq<Request<T>>)
    requires b.state == Closed && AllFail(calls)
    requires b.failureCount + |calls| >= threshold && |calls| > 0
    ensures Run(b, threshold, timeout, calls).state == Open
    decreases |calls|
  {
    var t := CallStep(b, threshold, timeout, calls[0].now, calls[0].outcome);
    if t.after.state == Open {
      FailuresKeepOpen(t.after, threshold, timeout, calls[1..]);
    } else {
      assert t.after == b.(failureCount := b.failureCount + 1);
      ConsecutiveFailuresOpen(t.after, threshold, timeout, calls[1..]);
    }
  }

  class CircuitBreaker {
    const failureThreshold: nat
    const timeout: real
    const testRequestTimeout: real
    var failureCount: nat
    var lastFailureTime: Option<real>
    var state: BreakerState

    function Snapshot(): Breaker
      reads this
    {
      Breaker(state, failureCount, lastFailureTime)
    }

    constructor (failureThreshold: nat, timeout: real, testRequestTimeout: real)
      ensures this.failureThreshold == failureThreshold && this.timeout == timeout
      ensures this.testRequestTimeout == testRequestTimeout
      ensures Snapshot() == InitialBreaker
    {
      this.failureThreshold := failureThreshold;
      this.timeout := timeout;
      this.testRequestTimeout := testRequestTimeout;
      failureCount := 0;
      lastFailureTime := None;
      state := Closed;
    }

    /**
     * `call(func)`: `outcome` is what `func` does if it is invoked; `invoked`
     * reports whether it was.
     */
    method Call<T>(now: real, outcome: Outcome<T>) returns (r: CallResult<T>, invoked: bool)
      modifies this
      ensures var t := CallStep(old(Snapshot()), failureThreshold, timeout, now, outcome);
        Snapshot() == t.after && r == t.result && invoked == t.invoked
    {
      invoked := false;
      if state == Open {
        if lastFailureTime.None? {
          r := Raised;
          return;
        }
        if now - lastFailureTime.value >= timeout {
          state := HalfOpen;
        } else {
          r := ReturnedNone;
          return;
        }
      }
      if state == HalfOpen {
        invoked := true;
        match outcome {
          case Succeeds(v) =>
            failureCount := 0;
            state := Closed;
            r := Returned(v);
          case Fails =>
            lastFailureTime := Some(now);
            state := Open;
            r := ReturnedNone;
        }
        return;
      }
      invoked := true;
      match outcome {
        case Succeeds(v) =>
          failureCount := 0;
          r := Returned(v);
        case Fails =>
          failureCount := failureCount + 1;
          if failureCount >= failureThreshold {
            state := Open;
            lastFailureTime := Some(now);
          }
          r := Raised;
      }
    }
  }

  // ---------------------------------------------------------------------
  // Search results and the relevance filter

  /** One index match: its score and the `text` metadata value, if any. */
  datatype Match = Match(score: real, text: Option<string>)

  datatype Metrics =
    | SearchMetrics(searchTime: real, chunksFound: nat, maxScore: real, pineconeAvailable: bool)
    | FallbackMetrics(searchTime: real, fallbackReason: string)

  function ChunksFound(m: Metrics): nat {
    if m.SearchMetrics? then m.chunksFound else 0
  }

  datatype SearchResult = SearchResult(context: string, metrics: Metrics)

  const RelevanceThreshold: real := 0.3
  const ChunkSeparator: string := "\n\n"
  const NothingRelevant: string := "Релевантная информация не найдена."
  const EmbeddingUnavailable: string := "Информация временно недоступна. Используйте общие знания о развитии детей."
  const PineconeUnavailable: string := "База знаний временно недоступна. Отвечайте на основе общих принципов детской психологии."
  const BreakerBlocked: string := "Поиск в базе знаний временно недоступен."
  const SearchCrashed: string := "Система поиска временно недоступна. Используйте базовые знания о детском развитии."

  predicate Relevant(m: Match) { m.score > RelevanceThreshold }

  function TextOf(m: Match): string {
    if m.text.Some? then m.text.value else ""
  }

  /** The texts of the relevant matches, in match order. */
  function RelevantChunks(ms: seq<Match>): (r: seq<string>)
    ensures |r| <= |ms|
  {
    if ms == [] then []
    else
      var last := ms[|ms| - 1];
      RelevantChunks(ms[..|ms| - 1]) + (if Relevant(last) then [TextOf(last)] else [])
  }

  /** Positions of the relevant matches, in increasing order. */
  function RelevantPositions(ms: seq<Match>): seq<nat>
  {
    if ms == [] then []
    else RelevantPositions(ms[..|ms| - 1]) + (if Relevant(ms[|ms| - 1]) then [|ms| - 1] else [])
  }

  /**
   * The filter keeps exactly the matches scoring above 0.3, in their order:
   * the kept positions increase, each one is relevant, every relevant
   * position is kept, and the i-th chunk is the text at the i-th position.
   */
  lemma {:induction false} RelevantChunksAreFiltered(ms: seq<Match>)
    ensures var ps := RelevantPositions(ms);
      && |ps| == |RelevantChunks(ms)|
      && (forall i :: 0 <= i < |ps| ==> ps[i] < |ms| && Relevant(ms[ps[i]]) && RelevantChunks(ms)[i] == TextOf(ms[ps[i]]))
      && (forall i, j :: 0 <= i < j < |ps| ==> ps[i] < ps[j])
      && (forall k :: 0 <= k < |ms| && Relevant(ms[k]) ==> k in ps)
  {
    if ms != [] {
      var init := ms[..|ms| - 1];
      RelevantChunksAreFiltered(init);
      var ps0 := RelevantPositions(init);
      assert forall i :: 0 <= i < |ps0| ==> ms[ps0[i]] == init[ps0[i]];
      forall k | 0 <= k < |ms| && Relevant(ms[k]) ensures k in RelevantPositions(ms) {
        if k < |ms| - 1 {
          assert init[k] == ms[k];
        }
      }
    }
  }

  /** Largest score, 0 when there are no matches. */
  function MaxScore(ms: seq<Match>): (r: real)
    ensures ms == [] ==> r == 0.0
    ensures ms != [] ==> (exists i :: 0 <= i < |ms| && r == ms[i].score)
    ensures forall i :: 0 <= i < |ms| ==> ms[i].score <= r
  {
    if ms == [] then 0.0
    else if |ms| == 1 then ms[0].score
    else
      var rest := MaxScore(ms[1..]);
      assert forall i :: 1 <= i < |ms| ==> ms[i] == ms[1..][i - 1];
      if ms[0].score >= rest then ms[0].score else rest
  }

  /** Context handed to the language model: the chunks separated by blank lines, or the placeholder. */
  function Context(chunks: seq<string>): string {
    if chunks == [] then NothingRelevant else Join(chunks, ChunkSeparator)
  }

  /** Every kept chunk appears in the context, and nothing else but the separators is added. */
  lemma ContextHoldsChunks(chunks: seq<string>)
    requires chunks != []
    ensures forall i :: 0 <= i < |chunks| ==> Contains(Context(chunks), chunks[i])
    ensures |Context(chunks)| == SumLengths(chunks) + 2 * (|chunks| - 1)
  {
    JoinContainsPieces(chunks, ChunkSeparator);
    JoinLength(chunks, ChunkSeparator);
  }

  /** The `for match in matches` loop. */
  method FilterMatches(ms: seq<Match>) returns (chunks: seq<string>)
    ensures chunks == RelevantChunks(ms)
  {
    chunks := [];
    var i := 0;
    while i < |ms|
      invariant 0 <= i <= |ms|
      invariant chunks == RelevantChunks(ms[..i])
    {
      assert ms[..i + 1][..i] == ms[..i];
      if ms[i].score > RelevanceThreshold {
        chunks := chunks + [TextOf(ms[i])];
      }
      i := i + 1;
    }
    assert ms[..i] == ms;
  }

  // ---------------------------------------------------------------------
  // Result cache

  datatype CacheEntry = CacheEntry(result: SearchResult, timestamp: real)

  /** The cache dictionary: its keys in insertion order, and the entries. */
  datatype Cache = Cache(order: seq<string>, entries: map<string, CacheEntry>)

  ghost predicate CacheValid(c: Cache) {
    Distinct(c.order) && forall k :: k in c.entries <==> k in c.order
  }

  function Without(s: seq<string>, k: string): (r: seq<string>)
    ensures forall x :: x in r <==> x in s && x != k
    ensures Distinct(s) ==> Distinct(r)
    ensures |r| <= |s|
  {
    if s == [] then []
    else
      var rest := Without(s[..|s| - 1], k);
      var last := s[|s| - 1];
      assert Distinct(s) ==> Distinct(s[..|s| - 1]) && last !in s[..|s| - 1];
      if last == k then rest else rest + [last]
  }

  datatype Lookup = Lookup(found: Option<SearchResult>, cache: Cache, hit: bool)

  /** Reading the cache at time `now`: a live entry is returned, an expired one is deleted. */
  function LookupAt(c: Cache, key: string, now: real, ttl: real): Lookup {
    if key in c.entries then
      if now - c.entries[key].timestamp < ttl then Lookup(Some(c.entries[key].result), c, true)
      else Lookup(None, Cache(Without(c.order, key), c.entries - {key}), false)
    else Lookup(None, c, false)
  }

  lemma LookupProperties(c: Cache, key: string, now: real, ttl: real)
    requires CacheValid(c)
    ensures var l := LookupAt(c, key, now, ttl);
      && CacheValid(l.cache)
      && (l.found.Some? <==> key in c.entries && now - c.entries[key].timestamp < ttl)
      && (l.hit <==> l.found.Some?)
      && (l.found.Some? ==> l.found.value == c.entries[key].result && l.cache == c)
      && (l.found.None? ==> key !in l.cache.entries)
      && (forall k :: k != key ==> (k in l.cache.entries <==> k in c.entries))
      && (forall k :: k != key && k in c.entries ==> l.cache.entries[k] == c.entries[k])
  {
  }

  /** Deleting the `n` oldest keys. */
  function EvictOldest(c: Cache, n: nat): Cache {
    var m := if n <= |c.order| then n else |c.order|;
    Cache(c.order[m..], c.entries - set k | k in c.order[..m])
  }

  /** Writing an entry: a full cache first loses its `maxSize / 4` oldest keys. */
  function Store(c: Cache, key: string, e: CacheEntry, maxSize: nat): Cache {
    var c1 := if |c.order| >= maxSize then EvictOldest(c, maxSize / 4) else c;
    if key in c1.entries then Cache(c1.order, c1.entries[key := e])
    else Cache(c1.order + [key], c1.entries[key := e])
  }

  lemma EvictValid(c: Cache, n: nat)
    requires CacheValid(c)
    ensures CacheValid(EvictOldest(c, n))
    ensures |EvictOldest(c, n).order| == if n <= |c.order| then |c.order| - n else 0
  {
    var m := if n <= |c.order| then n else |c.order|;
    var r := EvictOldest(c, n);
    forall k ensures k in r.entries <==> k in r.order {
      if k in c.order[m..] {
        var j :| m <= j < |c.order| && c.order[j] == k;
        assert forall i :: 0 <= i < m ==> c.order[..m][i] != k;
      }
      if k in c.order {
        var j :| 0 <= j < |c.order| && c.order[j] == k;
        if j >= m { assert c.order[m..][j - m] == k; }
      }
    }
  }

  /** Eviction removes exactly the `n` oldest keys. */
  lemma EvictDropsOldest(c: Cache, n: nat)
    requires CacheValid(c) && n <= |c.order|
    ensures forall i :: 0 <= i < |c.order| ==> (c.order[i] in EvictOldest(c, n).entries <==> i >= n)
  {
    var r := EvictOldest(c, n);
    forall i | 0 <= i < |c.order| ensures c.order[i] in r.entries <==> i >= n {
      if i >= n {
        assert forall j :: 0 <= j < n ==> c.order[..n][j] != c.order[i];
      } else {
        assert c.order[..n][i] == c.order[i];
      }
    }
  }

  /**
   * Storing keeps the dictionary well formed, records the new entry, and
   * keeps the cache within `maxSize` entries when `maxSize >= 4`; the keys
   * that disappear are exactly the evicted oldest ones.
   */
  lemma StoreProperties(c: Cache, key: string, e: CacheEntry, maxSize: nat)
    requires CacheValid(c)
    ensures var s := Store(c, key, e, maxSize);
      && CacheValid(s)
      && key in s.entries && s.entries[key] == e
      && (maxSize >= 4 && |c.order| <= maxSize ==> |s.order| <= maxSize)
      && (|c.order| < maxSize ==> forall k :: k in c.entries && k != key ==> k in s.entries && s.entries[k] == c.entries[k])
      && (|c.order| >= maxSize ==> forall i :: 0 <= i < |c.order| && c.order[i] != key ==>
            (c.order[i] in s.entries <==> i >= maxSize / 4))
  {
    var c1 := if |c.order| >= maxSize then EvictOldest(c, maxSize / 4) else c;
    if |c.order| >= maxSize {
      EvictValid(c, maxSize / 4);
      EvictDropsOldest(c, maxSize / 4);
    }
    var s := Store(c, key, e, maxSize);
    if key !in c1.entries {
      assert forall i :: 0 <= i < |c1.order| ==> c1.order[i] != key;
    }
  }

  // ---------------------------------------------------------------------
  // The two protected steps before a search

  /** The counters of `self.stats`. */
  datatype Stats = Stats(cacheHits: nat, cacheMisses: nat, successfulQueries: nat, failedQueries: nat,
                         circuitBreakerBlocks: nat, pineconeErrors: nat, geminiErrors: nat)

  const NoStats: Stats := Stats(0, 0, 0, 0, 0, 0, 0)

  /** One if `c` holds, else zero. */
  function Count(c: bool): nat { if c then 1 else 0 }

  /** `_get_embedding_with_circuit_breaker`: the embedding breaker after the call, the counters, and whether an embedding came back. */
  datatype EmbedStep = EmbedStep(breaker: Breaker, stats: Stats, found: bool)

  /**
   * The embedding request through breaker `b`: a call that returns gives the
   * embedding; one the breaker blocks counts a block and an embedding
   * error; one that raises counts an embedding error.
   */
  function GetEmbedding(b: Breaker, s: Stats, now: real, embedding: Outcome<()>): (t: EmbedStep)
    ensures var c := CallStep(b, GeminiThreshold, GeminiTimeout, now, embedding);
      && t.breaker == c.after
      && (t.found <==> c.result.Returned?)
      && (t.found ==> t.stats == s)
      && (c.result.ReturnedNone? ==> t.stats == s.(circuitBreakerBlocks := s.circuitBreakerBlocks + 1, geminiErrors := s.geminiErrors + 1))
      && (c.result.Raised? ==> t.stats == s.(geminiErrors := s.geminiErrors + 1))
  {
    var c := CallStep(b, GeminiThreshold, GeminiTimeout, now, embedding);
    EmbedStep(c.after,
              s.(circuitBreakerBlocks := s.circuitBreakerBlocks + Count(c.result.ReturnedNone?),
                 geminiErrors := s.geminiErrors + Count(!c.result.Returned?)),
              c.result.Returned?)
  }

  /**
   * The lazily created index: the one `lru_cache` slot of
   * `_get_pinecone_index` (the first answer, found or not), whether
   * `pinecone_index` is set, and `pinecone_available`.
   */
  datatype IndexSlot = IndexSlot(memo: Option<bool>, created: bool, available: bool)

  const NoIndex: IndexSlot := IndexSlot(None, false, false)

  /** What `_initialize_pinecone` does when invoked: it hands back the index it has, or creates one when `connects`. */
  function InitOutcome(created: bool, connects: bool): Outcome<()> {
    if created || connects then Succeeds(()) else Fails
  }

  datatype IndexStep = IndexStep(slot: IndexSlot, breaker: Breaker, stats: Stats, found: bool)

  /**
   * `_get_pinecone_index` with slot `x`, index breaker `b` and counters `s`.
   * A remembered answer is returned again without any call. Otherwise the
   * initializer runs through the breaker: success creates the index and
   * sets `pinecone_available`; a block clears it and counts a block; an
   * exception clears it and counts an index error. The answer is remembered.
   */
  function GetIndex(x: IndexSlot, b: Breaker, s: Stats, now: real, connects: bool): (t: IndexStep)
    ensures x.memo.Some? ==> t == IndexStep(x, b, s, x.memo.value)
    ensures x.memo.None? ==>
      var c := CallStep(b, PineconeThreshold, PineconeTimeout, now, InitOutcome(x.created, connects));
      && t.breaker == c.after
      && (t.found <==> c.result.Returned?)
      && t.slot.memo == Some(t.found)
      && t.slot.created == (x.created || t.found)
      && (!t.found ==> !t.slot.available)
      && (t.found && !x.created ==> t.slot.available)
      && t.stats == s.(circuitBreakerBlocks := s.circuitBreakerBlocks + Count(c.result.ReturnedNone?),
                       pineconeErrors := s.pineconeErrors + Count(c.result.Raised?))
  {
    if x.memo.Some? then IndexStep(x, b, s, x.memo.value)
    else
      var c := CallStep(b, PineconeThreshold, PineconeTimeout, now, InitOutcome(x.created, connects));
      var found := c.result.Returned?;
      IndexStep(IndexSlot(Some(found), x.created || found, found && (!x.created || x.available)),
                c.after,
                s.(circuitBreakerBlocks := s.circuitBreakerBlocks + Count(c.result.ReturnedNone?),
                   pineconeErrors := s.pineconeErrors + Count(c.result.Raised?)),
                found)
  }

  /**
   * `lru_cache(maxsize=1)`: after the first call, every later call gives the
   * same answer, even a missing index, and touches neither the breaker nor
   * the counters.
   */
  lemma IndexRemembered(x: IndexSlot, b: Breaker, s: Stats, now: real, connects: bool,
                        b2: Breaker, s2: Stats, later: real, connects2: bool)
    ensures var t := GetIndex(x, b, s, now, connects);
      GetIndex(t.slot, b2, s2, later, connects2) == IndexStep(t.slot, b2, s2, t.found)
  {
  }

  /** A first lookup made while the index breaker is inside its timeout leaves the retrieval layer without an index for good. */
  lemma BlockedIndexStaysMissing(x: IndexSlot, b: Breaker, s: Stats, now: real, connects: bool)
    requires x.memo.None? && b.state == Open && b.lastFailureTime.Some? && now - b.lastFailureTime.value < PineconeTimeout
    ensures var t := GetIndex(x, b, s, now, connects);
      && !t.found && t.slot.memo == Some(false) && t.breaker == b
      && t.stats.circuitBreakerBlocks == s.circuitBreakerBlocks + 1
  {
    OpenBlocks(b, PineconeThreshold, PineconeTimeout, now, InitOutcome(x.created, connects));
  }

  /** Five failed embedding requests in a row open a fresh embedding breaker. */
  lemma EmbeddingFailuresOpen(calls: seq<Request<()>>)
    requires AllFail(calls) && |calls| >= GeminiThreshold
    ensures Run(InitialBreaker, GeminiThreshold, GeminiTimeout, calls).state == Open
  {
    ConsecutiveFailuresOpen(InitialBreaker, GeminiThreshold, GeminiTimeout, calls);
  }

  // ---------------------------------------------------------------------
  // A search after a cache miss

  /** Everything a search reads and changes: the cache, the counters, the index slot and the two breakers. */
  datatype RagView = RagView(cache: Cache, stats: Stats, slot: IndexSlot, pinecone: Breaker, gemini: Breaker)

  function Fallback(text: string, searchTime: real, reason: string): SearchResult {
    SearchResult(text, FallbackMetrics(searchTime, reason))
  }

  /** The result of a search that reached the index, as `search_knowledge_base` builds it. */
  function Found(ms: seq<Match>, searchTime: real, available: bool): SearchResult {
    var chunks := RelevantChunks(ms);
    SearchResult(Context(chunks), SearchMetrics(searchTime, |chunks|, MaxScore(ms), available))
  }

  function Failed(s: Stats): Stats { s.(failedQueries := s.failedQueries + 1) }

  /**
   * The part of `search_knowledge_base` after a cache miss, on view `v`:
   * the embedding, the index, then the query through the index breaker.
   * `embedding`, `connects` and `query` say what the embedding service,
   * the index initializer and the index query would do.
   */
  function SearchAfterMiss(v: RagView, key: string, now: real, searchTime: real,
                           embedding: Outcome<()>, connects: bool, query: Outcome<seq<Match>>): (SearchResult, RagView)
  {
    var e := GetEmbedding(v.gemini, v.stats, now, embedding);
    if !e.found then
      (Fallback(EmbeddingUnavailable, searchTime, "embedding_api_unavailable"),
       v.(gemini := e.breaker, stats := Failed(e.stats)))
    else
      var i := GetIndex(v.slot, v.pinecone, e.stats, now, connects);
      if !i.found then
        (Fallback(PineconeUnavailable, searchTime, "pinecone_unavailable"),
         v.(gemini := e.breaker, slot := i.slot, pinecone := i.breaker, stats := Failed(i.stats)))
      else
        QueryStep(v.(gemini := e.breaker, slot := i.slot, pinecone := i.breaker, stats := i.stats), key, now, searchTime, query)
  }

  /**
   * The index query through the index breaker, once an embedding and an
   * index are at hand: a block and an exception fall back and count a
   * failed query (a block also counts a block); results are filtered,
   * cached and counted as a successful query.
   */
  function QueryStep(v: RagView, key: string, now: real, searchTime: real, query: Outcome<seq<Match>>): (SearchResult, RagView)
  {
    var q := CallStep(v.pinecone, PineconeThreshold, PineconeTimeout, now, query);
    var w := v.(pinecone := q.after);
    match q.result
    case ReturnedNone =>
      (Fallback(BreakerBlocked, searchTime, "circuit_breaker_open"),
       w.(stats := Failed(v.stats).(circuitBreakerBlocks := v.stats.circuitBreakerBlocks + 1)))
    case Raised =>
      (Fallback(SearchCrashed, searchTime, "critical_error"), w.(stats := Failed(v.stats)))
    case Returned(ms) =>
      var r := Found(ms, searchTime, v.slot.available);
      (r, w.(cache := Store(v.cache, key, CacheEntry(r, now), Config.MaxCacheSize),
             stats := v.stats.(successfulQueries := v.stats.successfulQueries + 1)))
  }

  /**
   * What a search after a miss promises: it reaches the index exactly when
   * the embedding, the index and the index breaker all let it through;
   * only then is the result cached and one successful query counted;
   * every fallback reports no chunks, leaves the cache alone and counts
   * one failed query; a query the breaker blocks also counts a block.
   */
  lemma SearchAfterMissOutcomes(v: RagView, key: string, now: real, searchTime: real,
                                embedding: Outcome<()>, connects: bool, query: Outcome<seq<Match>>)
    ensures var (r, w) := SearchAfterMiss(v, key, now, searchTime, embedding, connects, query);
      var e := GetEmbedding(v.gemini, v.stats, now, embedding);
      var i := GetIndex(v.slot, v.pinecone, e.stats, now, connects);
      var q := CallStep(i.breaker, PineconeThreshold, PineconeTimeout, now, query);
      && (r.metrics.SearchMetrics? <==> e.found && i.found && q.result.Returned?)
      && (r.metrics.SearchMetrics? ==>
            r == Found(query.value, searchTime, w.slot.available)
            && w.cache == Store(v.cache, key, CacheEntry(r, now), Config.MaxCacheSize)
            && w.stats.successfulQueries == v.stats.successfulQueries + 1
            && w.stats.failedQueries == v.stats.failedQueries)
      && (r.metrics.FallbackMetrics? ==>
            ChunksFound(r.metrics) == 0 && w.cache == v.cache
            && w.stats.failedQueries == v.stats.failedQueries + 1
            && w.stats.successfulQueries == v.stats.successfulQueries)
      && (e.found && i.found && q.result.ReturnedNone? ==>
            r.metrics.fallbackReason == "circuit_breaker_open" && w.stats.circuitBreakerBlocks == v.stats.circuitBreakerBlocks + 1)
      && w.stats.cacheHits == v.stats.cacheHits && w.stats.cacheMisses == v.stats.cacheMisses
  {
    var e := GetEmbedding(v.gemini, v.stats, now, embedding);
    var i := GetIndex(v.slot, v.pinecone, e.stats, now, connects);
    var q := CallStep(i.breaker, PineconeThreshold, PineconeTimeout, now, query);
    if e.found && i.found && q.result.Returned? {
      assert query.Succeeds? && q.result.value == query.value;
    }
  }

  /** The embedding breaker counts the failed embedding requests of the searches it serves: five failures in a row from CLOSED open it. */
  lemma SearchUsesEmbeddingBreaker(v: RagView, key: string, now: real, searchTime: real,
                                   connects: bool, query: Outcome<seq<Match>>)
    requires v.gemini.state == Closed
    ensures var (r, w) := SearchAfterMiss(v, key, now, searchTime, Fails, connects, query);
      && r == Fallback(EmbeddingUnavailable, searchTime, "embedding_api_unavailable")
      && w.gemini.failureCount == v.gemini.failureCount + 1
      && (w.gemini.state == Open <==> v.gemini.failureCount + 1 >= GeminiThreshold)
      && w.stats.geminiErrors == v.stats.geminiErrors + 1
      && w.pinecone == v.pinecone && w.slot == v.slot && w.cache == v.cache
  {
    ClosedFailure<()>(v.gemini, GeminiThreshold, GeminiTimeout, now);
  }

  // ---------------------------------------------------------------------
  // The retrieval object

  class RagSystem {
    const pineconeBreaker: CircuitBreaker
    const geminiBreaker: CircuitBreaker
    var order: seq<string>
    var entries: map<string, CacheEntry>
    var stats: Stats
    var slot: IndexSlot

    function CacheState(): Cache
      reads this
    {
      Cache(order, entries)
    }

    function View(): RagView
      reads this, pineconeBreaker, geminiBreaker
    {
      RagView(CacheState(), stats, slot, pineconeBreaker.Snapshot(), geminiBreaker.Snapshot())
    }

    ghost predicate Valid()
      reads this
    {
      && CacheValid(CacheState()) && |order| <= Config.MaxCacheSize
      && pineconeBreaker != geminiBreaker
      && pineconeBreaker.failureThreshold == PineconeThreshold && pineconeBreaker.timeout == PineconeTimeout
      && geminiBreaker.failureThreshold == GeminiThreshold && geminiBreaker.timeout == GeminiTimeout
    }

    /** Only results of searches that reached the index are ever cached. */
    ghost predicate OnlySuccessesCached()
      reads this
    {
      forall k :: k in entries ==> entries[k].result.metrics.SearchMetrics?
    }

    constructor ()
      ensures Valid() && CacheState() == Cache([], map[])
      ensures stats == NoStats && slot == NoIndex
      ensures fresh(pineconeBreaker) && fresh(geminiBreaker)
      ensures pineconeBreaker.testRequestTimeout == PineconeTestTimeout && geminiBreaker.testRequestTimeout == GeminiTestTimeout
      ensures pineconeBreaker.Snapshot() == InitialBreaker && geminiBreaker.Snapshot() == InitialBreaker
    {
      pineconeBreaker := new CircuitBreaker(PineconeThreshold, PineconeTimeout, PineconeTestTimeout);
      geminiBreaker := new CircuitBreaker(GeminiThreshold, GeminiTimeout, GeminiTestTimeout);
      order := [];
      entries := map[];
      stats := NoStats;
      slot := NoIndex;
    }

    /** `_get_cached_result`; every call counts exactly one hit or one miss. */
    method GetCachedResult(key: string, now: real) returns (r: Option<SearchResult>)
      requires Valid()
      modifies this
      ensures Valid()
      ensures var l := LookupAt(old(CacheState()), key, now, Config.RagCacheTtl);
        r == l.found && CacheState() == l.cache
      ensures r.Some? ==> stats == old(stats).(cacheHits := old(stats).cacheHits + 1)
      ensures r.None? ==> stats == old(stats).(cacheMisses := old(stats).cacheMisses + 1)
      ensures slot == old(slot)
    {
      LookupProperties(CacheState(), key, now, Config.RagCacheTtl);
      if key in entries {
        var cached := entries[key];
        if now - cached.timestamp < Config.RagCacheTtl {
          stats := stats.(cacheHits := stats.cacheHits + 1);
          return Some(cached.result);
        } else {
          entries := entries - {key};
          order := Without(order, key);
        }
      }
      stats := stats.(cacheMisses := stats.cacheMisses + 1);
      r := None;
    }

    /** `_cache_result`. */
    method CacheResult(key: string, result: SearchResult, now: real)
      requires Valid()
      modifies this
      ensures Valid()
      ensures CacheState() == Store(old(CacheState()), key, CacheEntry(result, now), Config.MaxCacheSize)
      ensures old(OnlySuccessesCached()) && result.metrics.SearchMetrics? ==> OnlySuccessesCached()
      ensures stats == old(stats) && slot == old(slot)
    {
      StoreProperties(CacheState(), key, CacheEntry(result, now), Config.MaxCacheSize);
      if |order| >= Config.MaxCacheSize {
        var evicted := EvictOldest(CacheState(), Config.MaxCacheSize / 4);
        order, entries := evicted.order, evicted.entries;
      }
      if key !in entries {
        order := order + [key];
      }
      entries := entries[key := CacheEntry(result, now)];
    }

    /** `_get_embedding_with_circuit_breaker`, through the embedding breaker. */
    method GetQueryEmbedding(now: real, embedding: Outcome<()>) returns (found: bool)
      requires Valid()
      modifies this, geminiBreaker
      ensures Valid()
      ensures var t := GetEmbedding(old(geminiBreaker.Snapshot()), old(stats), now, embedding);
        found == t.found && geminiBreaker.Snapshot() == t.breaker && stats == t.stats
      ensures CacheState() == old(CacheState()) && slot == old(slot)
    {
      var outcome, _ := geminiBreaker.Call(now, embedding);
      match outcome {
        case Returned(_) =>
          found := true;
        case ReturnedNone =>
          stats := stats.(circuitBreakerBlocks := stats.circuitBreakerBlocks + 1, geminiErrors := stats.geminiErrors + 1);
          found := false;
        case Raised =>
          stats := stats.(geminiErrors := stats.geminiErrors + 1);
          found := false;
      }
    }

    /** `_get_pinecone_index`, remembered after its first call as `lru_cache(maxsize=1)` does. */
    method GetPineconeIndex(now: real, connects: bool) returns (found: bool)
      requires Valid()
      modifies this, pineconeBreaker
      ensures Valid()
      ensures var t := GetIndex(old(slot), old(pineconeBreaker.Snapshot()), old(stats), now, connects);
        found == t.found && slot == t.slot && pineconeBreaker.Snapshot() == t.breaker && stats == t.stats
      ensures CacheState() == old(CacheState())
    {
      if slot.memo.Some? {
        return slot.memo.value;
      }
      ghost var t := GetIndex(slot, pineconeBreaker.Snapshot(), stats, now, connects);
      var outcome, _ := pineconeBreaker.Call(now, InitOutcome(slot.created, connects));
      match outcome {
        case Returned(_) =>
          if !slot.created {
            slot := slot.(created := true, available := true);
          }
          found := true;
          assert stats == t.stats;
        case ReturnedNone =>
          slot := slot.(available := false);
          stats := stats.(circuitBreakerBlocks := stats.circuitBreakerBlocks + 1);
          found := false;
          assert stats == t.stats;
        case Raised =>
          slot := slot.(available := false);
          stats := stats.(pineconeErrors := stats.pineconeErrors + 1);
          found := false;
          assert stats == t.stats;
      }
      slot := slot.(memo := Some(found));
    }

    /**
     * `search_knowledge_base` for a query whose digest is `key`. What the
     * embedding service, the index initializer and the index query would do
     * are inputs; `searchTime` is the elapsed time reported in the metrics.
     */
    method SearchKnowledgeBase(key: string, now: real, searchTime: real,
                               embedding: Outcome<()>, connects: bool,
                               query: Outcome<seq<Match>>) returns (r: SearchResult)
      requires Valid()
      modifies this, pineconeBreaker, geminiBreaker
      ensures Valid()
      ensures old(OnlySuccessesCached()) ==> OnlySuccessesCached()
      ensures var l := LookupAt(old(CacheState()), key, now, Config.RagCacheTtl);
        && (l.found.Some? ==>
              r == l.found.value
              && View() == old(View()).(stats := old(stats).(cacheHits := old(stats).cacheHits + 1)))
        && (l.found.None? ==>
              (r, View()) == SearchAfterMiss(old(View()).(cache := l.cache, stats := old(stats).(cacheMisses := old(stats).cacheMisses + 1)),
                                             key, now, searchTime, embedding, connects, query))
    {
      ghost var l := LookupAt(CacheState(), key, now, Config.RagCacheTtl);
      LookupProperties(CacheState(), key, now, Config.RagCacheTtl);
      var cached := GetCachedResult(key, now);
      if cached.Some? {
        return cached.value;
      }
      r := SearchIndex(key, now, searchTime, embedding, connects, query);
    }

    /** The part of `search_knowledge_base` after a cache miss. */
    method SearchIndex(key: string, now: real, searchTime: real,
                       embedding: Outcome<()>, connects: bool,
                       query: Outcome<seq<Match>>) returns (r: SearchResult)
      requires Valid()
      modifies this, pineconeBreaker, geminiBreaker
      ensures Valid()
      ensures old(OnlySuccessesCached()) ==> OnlySuccessesCached()
      ensures (r, View()) == SearchAfterMiss(old(View()), key, now, searchTime, embedding, connects, query)
    {
      ghost var v := View();
      ghost var e := GetEmbedding(v.gemini, v.stats, now, embedding);
      var embedded := GetQueryEmbedding(now, embedding);
      assert View() == v.(gemini := e.breaker, stats := e.stats);
      if !embedded {
        stats := Failed(stats);
        return Fallback(EmbeddingUnavailable, searchTime, "embedding_api_unavailable");
      }
      ghost var i := GetIndex(v.slot, v.pinecone, e.stats, now, connects);
      var indexed := GetPineconeIndex(now, connects);
      assert View() == v.(gemini := e.breaker, slot := i.slot, pinecone := i.breaker, stats := i.stats);
      if !indexed {
        stats := Failed(stats);
        return Fallback(PineconeUnavailable, searchTime, "pinecone_unavailable");
      }
      r := QueryIndex(key, now, searchTime, query);
    }

    /** The index query of `search_knowledge_base`, through the index breaker. */
    method QueryIndex(key: string, now: real, searchTime: real, query: Outcome<seq<Match>>) returns (r: SearchResult)
      requires Valid()
      modifies this, pineconeBreaker
      ensures Valid()
      ensures old(OnlySuccessesCached()) ==> OnlySuccessesCached()
      ensures (r, View()) == QueryStep(old(View()), key, now, searchTime, query)
    {
      ghost var v := View();
      ghost var q := CallStep(v.pinecone, PineconeThreshold, PineconeTimeout, now, query);
      var outcome, _ := pineconeBreaker.Call(now, query);
      assert outcome == q.result && View() == v.(pinecone := q.after);
      match outcome {
        case ReturnedNone =>
          stats := Failed(stats).(circuitBreakerBlocks := stats.circuitBreakerBlocks + 1);
          r := Fallback(BreakerBlocked, searchTime, "circuit_breaker_open");
        case Raised =>
          stats := Failed(stats);
          r := Fallback(SearchCrashed, searchTime, "critical_error");
        case Returned(ms) =>
          r := BuildAndCache(key, now, searchTime, slot.available, ms);
          assert View() == v.(pinecone := q.after, cache := CacheState(), stats := stats);
      }
    }

    /** A search that reached the index: filter, build the context, cache the result. */
    method BuildAndCache(key: string, now: real, searchTime: real, pineconeAvailable: bool, ms: seq<Match>)
      returns (r: SearchResult)
      requires Valid()
      modifies this
      ensures Valid()
      ensures old(OnlySuccessesCached()) ==> OnlySuccessesCached()
      ensures r == Found(ms, searchTime, pineconeAvailable)
      ensures CacheState() == Store(old(CacheState()), key, CacheEntry(r, now), Config.MaxCacheSize)
      ensures stats == old(stats).(successfulQueries := old(stats).successfulQueries + 1) && slot == old(slot)
    {
      var chunks := FilterMatches(ms);
      var context := if chunks != [] then Join(chunks, ChunkSeparator) else NothingRelevant;
      r := SearchResult(context, SearchMetrics(searchTime, |chunks|, MaxScore(ms), pineconeAvailable));
      CacheResult(key, r, now);
      stats := stats.(successfulQueries := stats.successfulQueries + 1);
    }
  }
}
