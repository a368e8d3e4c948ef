// Question categorisation, lead-state detection and the "stuck on
// philosophy" detector, each behind a TTL cache so that repeated messages do
// not cost another language-model call.

module IntelligentAnalyzer {
  import opened Text

  // ---------------------------------------------------------------------
  // The three-map cache

  datatype Entry<V> = Entry(value: V, timestamp: real)

  const CategoryTtl: real := 86400.0
  const StateTtl: real := 14400.0
  const PhilosophyTtl: real := 7200.0

  /** `r` is `m` with exactly the entries older than `ttl` removed. */
  ghost predicate CleanedOf<V>(r: map<string, Entry<V>>, m: map<string, Entry<V>>, ttl: real, now: real) {
    && (forall k :: k in r <==> k in m && now - m[k].timestamp <= ttl)
    && (forall k :: k in r ==> r[k] == m[k])
  }

  /** The map the cleanup leaves: `m` without its entries older than `ttl`. */
  ghost function Cleaned<V>(m: map<string, Entry<V>>, ttl: real, now: real): (r: map<string, Entry<V>>)
    ensures CleanedOf(r, m, ttl, now)
  {
    map k | k in m && now - m[k].timestamp <= ttl :: m[k]
  }

  /** A cleanup result is determined by the map it cleans. */
  lemma CleanedUnique<V>(r: map<string, Entry<V>>, m: map<string, Entry<V>>, ttl: real, now: real)
    requires CleanedOf(r, m, ttl, now)
    ensures r == Cleaned(m, ttl, now)
  {
    var c := Cleaned(m, ttl, now);
    assert forall k :: k in r <==> k in c;
    assert forall k :: k in r ==> r[k] == c[k];
  }

  /** `_cleanup_expired_entries`: collect the expired keys, then delete them one by one. */
  method CleanupExpired<V>(m: map<string, Entry<V>>, ttl: real, now: real) returns (r: map<string, Entry<V>>)
    ensures forall k :: k in r <==> k in m && now - m[k].timestamp <= ttl
    ensures forall k :: k in r ==> r[k] == m[k]
  {
    var expired := set k | k in m && now - m[k].timestamp > ttl;
    ghost var deleted: set<string> := {};
    r := m;
    while expired != {}
      invariant forall k :: k in expired <==> k in m && now - m[k].timestamp > ttl && k !in deleted
      invariant forall k :: k in r <==> k in m && k !in deleted
      invariant forall k :: k in deleted ==> k in m && now - m[k].timestamp > ttl
      invariant forall k :: k in r ==> r[k] == m[k]
      decreases |expired|
    {
      var k :| k in expired;
      r := r - {k};
      expired := expired - {k};
      deleted := deleted + {k};
    }
  }

  /** Every value stored in `m` satisfies `p`. */
  ghost predicate AllValues<V>(m: map<string, Entry<V>>, p: V -> bool) {
    forall k :: k in m ==> p(m[k].value)
  }

  lemma CleanedKeeps<V>(r: map<string, Entry<V>>, m: map<string, Entry<V>>, ttl: real, now: real, p: V -> bool)
    requires CleanedOf(r, m, ttl, now) && AllValues(m, p)
    ensures AllValues(r, p)
  {
  }

  lemma StoreKeeps<V>(m: map<string, Entry<V>>, key: string, e: Entry<V>, p: V -> bool)
    requires AllValues(m, p) && p(e.value)
    ensures AllValues(m[key := e], p)
  {
  }

  datatype CacheStats = CacheStats(
    categoryHits: nat, categoryMisses: nat,
    stateHits: nat, stateMisses: nat,
    philosophyHits: nat, philosophyMisses: nat,
    totalAiCallsSaved: nat,
    totalRequests: nat,
    categorySize: nat, stateSize: nat, philosophySize: nat)

  /** Every field of the cache at once: the three maps, their counters and the saved calls. */
  datatype CacheState = CacheState(
    categoryCache: map<string, Entry<string>>,
    stateCache: map<string, Entry<string>>,
    philosophyCache: map<string, Entry<(bool, nat)>>,
    categoryHits: nat, categoryMisses: nat,
    stateHits: nat, stateMisses: nat,
    philosophyHits: nat, philosophyMisses: nat,
    totalAiCallsSaved: nat)

  class AdvancedCache {
    var categoryCache: map<string, Entry<string>>
    var stateCache: map<string, Entry<string>>
    var philosophyCache: map<string, Entry<(bool, nat)>>
    var categoryHits: nat
    var categoryMisses: nat
    var stateHits: nat
    var stateMisses: nat
    var philosophyHits: nat
    var philosophyMisses: nat
    var totalAiCallsSaved: nat

    function State(): CacheState
      reads this
    {
      CacheState(categoryCache, stateCache, philosophyCache, categoryHits, categoryMisses,
                 stateHits, stateMisses, philosophyHits, philosophyMisses, totalAiCallsSaved)
    }

    /** Only category and state hits save a language-model call. */
    ghost predicate Valid()
      reads this
    {
      totalAiCallsSaved == categoryHits + stateHits
    }

    constructor ()
      ensures Valid()
      ensures categoryCache == map[] && stateCache == map[] && philosophyCache == map[]
      ensures categoryHits == 0 && categoryMisses == 0 && stateHits == 0 && stateMisses == 0
      ensures philosophyHits == 0 && philosophyMisses == 0
    {
      categoryCache, stateCache, philosophyCache := map[], map[], map[];
      categoryHits, categoryMisses, stateHits, stateMisses := 0, 0, 0, 0;
      philosophyHits, philosophyMisses, totalAiCallsSaved := 0, 0, 0;
    }

    method GetCategoryCache(key: string, now: real) returns (r: Option<string>)
      requires Valid()
      modifies this
      ensures Valid()
      ensures CleanedOf(categoryCache, old(categoryCache), CategoryTtl, now)
      ensures stateCache == old(stateCache) && philosophyCache == old(philosophyCache)
      ensures r.Some? <==> key in old(categoryCache) && now - old(categoryCache)[key].timestamp < CategoryTtl
      ensures r.Some? ==> r.value == old(categoryCache)[key].value
      ensures categoryHits == old(categoryHits) + (if r.Some? then 1 else 0)
      ensures categoryMisses == old(categoryMisses) + (if r.Some? then 0 else 1)
      ensures stateHits == old(stateHits) && stateMisses == old(stateMisses)
      ensures philosophyHits == old(philosophyHits) && philosophyMisses == old(philosophyMisses)
    {
      categoryCache := CleanupExpired(categoryCache, CategoryTtl, now);
      if key in categoryCache && now - categoryCache[key].timestamp < CategoryTtl {
        categoryHits := categoryHits + 1;
        totalAiCallsSaved := totalAiCallsSaved + 1;
        return Some(categoryCache[key].value);
      }
      categoryMisses := categoryMisses + 1;
      r := None;
    }

    method SetCategoryCache(key: string, value: string, now: real)
      modifies this`categoryCache
      ensures categoryCache == old(categoryCache)[key := Entry(value, now)]
    {
      categoryCache := categoryCache[key := Entry(value, now)];
    }

    method GetStateCache(key: string, now: real) returns (r: Option<string>)
      requires Valid()
      modifies this
      ensures Valid()
      ensures CleanedOf(stateCache, old(stateCache), StateTtl, now)
      ensures categoryCache == old(categoryCache) && philosophyCache == old(philosophyCache)
      ensures r.Some? <==> key in old(stateCache) && now - old(stateCache)[key].timestamp < StateTtl
      ensures r.Some? ==> r.value == old(stateCache)[key].value
      ensures stateHits == old(stateHits) + (if r.Some? then 1 else 0)
      ensures stateMisses == old(stateMisses) + (if r.Some? then 0 else 1)
      ensures categoryHits == old(categoryHits) && categoryMisses == old(categoryMisses)
      ensures philosophyHits == old(philosophyHits) && philosophyMisses == old(philosophyMisses)
    {
      stateCache := CleanupExpired(stateCache, StateTtl, now);
      if key in stateCache && now - stateCache[key].timestamp < StateTtl {
        stateHits := stateHits + 1;
        totalAiCallsSaved := totalAiCallsSaved + 1;
        return Some(stateCache[key].value);
      }
      stateMisses := stateMisses + 1;
      r := None;
    }

    method SetStateCache(key: string, value: string, now: real)
      modifies this`stateCache
      ensures stateCache == old(stateCache)[key := Entry(value, now)]
    {
      stateCache := stateCache[key := Entry(value, now)];
    }

    /** Philosophy hits are counted but do not add to the saved-calls total. */
    method GetPhilosophyCache(key: string, now: real) returns (r: Option<(bool, nat)>)
      requires Valid()
      modifies this
      ensures Valid() && totalAiCallsSaved == old(totalAiCallsSaved)
      ensures CleanedOf(philosophyCache, old(philosophyCache), PhilosophyTtl, now)
      ensures categoryCache == old(categoryCache) && stateCache == old(stateCache)
      ensures r.Some? <==> key in old(philosophyCache) && now - old(philosophyCache)[key].timestamp < PhilosophyTtl
      ensures r.Some? ==> r.value == old(philosophyCache)[key].value
      ensures philosophyHits == old(philosophyHits) + (if r.Some? then 1 else 0)
      ensures philosophyMisses == old(philosophyMisses) + (if r.Some? then 0 else 1)
      ensures categoryHits == old(categoryHits) && categoryMisses == old(categoryMisses)
      ensures stateHits == old(stateHits) && stateMisses == old(stateMisses)
    {
      philosophyCache := CleanupExpired(philosophyCache, PhilosophyTtl, now);
      if key in philosophyCache && now - philosophyCache[key].timestamp < PhilosophyTtl {
        philosophyHits := philosophyHits + 1;
        return Some(philosophyCache[key].value);
      }
      philosophyMisses := philosophyMisses + 1;
      r := None;
    }

    method SetPhilosophyCache(key: string, value: (bool, nat), now: real)
      modifies this`philosophyCache
      ensures philosophyCache == old(philosophyCache)[key := Entry(value, now)]
    {
      philosophyCache := philosophyCache[key := Entry(value, now)];
    }

    /** `get_cache_stats` without the rounded hit-rate percentages. */
    method GetCacheStats() returns (s: CacheStats)
      requires Valid()
      ensures s.totalRequests == categoryHits + categoryMisses + stateHits + stateMisses
                                 + philosophyHits + philosophyMisses
      ensures s.totalAiCallsSaved == s.categoryHits + s.stateHits
      ensures s.categoryHits == categoryHits && s.categoryMisses == categoryMisses
      ensures s.stateHits == stateHits && s.stateMisses == stateMisses
      ensures s.philosophyHits == philosophyHits && s.philosophyMisses == philosophyMisses
      ensures s.categorySize == |categoryCache| && s.stateSize == |stateCache|
      ensures s.philosophySize == |philosophyCache|
    {
      var categoryTotal := categoryHits + categoryMisses;
      var stateTotal := stateHits + stateMisses;
      var philosophyTotal := philosophyHits + philosophyMisses;
      s := CacheStats(categoryHits, categoryMisses, stateHits, stateMisses,
                      philosophyHits, philosophyMisses, totalAiCallsSaved,
                      categoryTotal + stateTotal + philosophyTotal,
                      |categoryCache|, |stateCache|, |philosophyCache|);
    }
  }

  /** A cached value is returned only while it is younger than the TTL; an entry exactly `ttl` old survives cleanup but misses. */
  lemma CleanupKeepsLiveEntries<V>(r: map<string, Entry<V>>, m: map<string, Entry<V>>, ttl: real, now: real, key: string)
    requires CleanedOf(r, m, ttl, now)
    ensures key in m && now - m[key].timestamp < ttl ==> key in r && r[key] == m[key]
    ensures key in r ==> now - r[key].timestamp <= ttl
  {
  }

  // ---------------------------------------------------------------------
  // Normalisation of cache keys

  const StopWords: seq<string> := ["а", "и", "но", "да", "же", "ну", "вот", "это", "то"]

  function DropStopWords(ws: seq<string>): (r: seq<string>)
    ensures forall i :: 0 <= i < |r| ==> r[i] !in StopWords
    ensures forall i :: 0 <= i < |r| ==> r[i] in ws
  {
    if ws == [] then []
    else
      var init := DropStopWords(ws[..|ws| - 1]);
      var w := ws[|ws| - 1];
      if w in StopWords then init else init + [w]
  }

  /**
   * `_normalize_text_for_caching`: lower-case, collapse whitespace, drop the
   * stop words. The source splits and joins twice; `NormalizeMatchesSource`
   * shows that the single split used here gives the same string.
   */
  function NormalizeForCaching(text: string): (r: string)
    ensures IsLowered(r)
  {
    LoweredWords(text);
    JoinLowered(DropStopWords(Words(Lower(text))), " ");
    Join(DropStopWords(Words(Lower(text))), " ")
  }

  lemma NormalizeMatchesSource(text: string)
    ensures NormalizeForCaching(text) == Join(DropStopWords(Words(Join(Words(Lower(text)), " "))), " ")
  {
    var ws := Words(Lower(text));
    assert forall i :: 0 <= i < |ws| ==> IsWord(ws[i]) by {
      forall i | 0 <= i < |ws| ensures IsWord(ws[i]) { assert ws[i] in ws; }
    }
    WordsJoin(ws);
  }

  /** No character that `str.lower()` would change. */
  predicate IsLowered(s: string) {
    forall i :: 0 <= i < |s| ==> !('A' <= s[i] <= 'Z') && !IsUpperCyrillic(s[i])
  }

  lemma {:induction false} DropStopWordsIdempotent(ws: seq<string>)
    requires forall i :: 0 <= i < |ws| ==> ws[i] !in StopWords
    ensures DropStopWords(ws) == ws
  {
    if ws != [] {
      DropStopWordsIdempotent(ws[..|ws| - 1]);
      assert ws[..|ws| - 1] + [ws[|ws| - 1]] == ws;
    }
  }

  lemma LoweredSlice(s: string, i: nat, j: nat)
    requires IsLowered(s) && i <= j <= |s|
    ensures IsLowered(s[i..j])
  {
    forall k | 0 <= k < j - i ensures !('A' <= s[i..j][k] <= 'Z') && !IsUpperCyrillic(s[i..j][k]) {
      assert s[i..j][k] == s[i + k];
    }
  }

  /** Every string of `ws` is lower-case. */
  predicate AllLowered(ws: seq<string>) {
    forall i :: 0 <= i < |ws| ==> IsLowered(ws[i])
  }

  lemma {:induction false} WordsOfLowered(s: string)
    requires IsLowered(s)
    ensures AllLowered(Words(s))
    decreases |s|
  {
    var t := TrimLeft(s, Whitespace);
    LoweredSlice(s, |s| - |t|, |s|);
    if |t| > 0 {
      var n := WordLength(t);
      LoweredSlice(t, 0, n);
      LoweredSlice(t, n, |t|);
      WordsOfLowered(t[n..]);
      WordsStep(s);
      LoweredCons(t[..n], Words(t[n..]));
      assert Words(s) == [t[..n]] + Words(t[n..]);
    }
  }

  lemma LoweredCons(w: string, rest: seq<string>)
    requires IsLowered(w) && AllLowered(rest)
    ensures AllLowered([w] + rest)
  {
    forall i | 0 <= i < |[w] + rest| ensures IsLowered(([w] + rest)[i]) {
      if i > 0 { assert ([w] + rest)[i] == rest[i - 1]; }
    }
  }

  lemma {:induction false} JoinLowered(xs: seq<string>, sep: string)
    requires IsLowered(sep) && forall i :: 0 <= i < |xs| ==> IsLowered(xs[i])
    ensures IsLowered(Join(xs, sep))
  {
    if |xs| > 1 {
      JoinLowered(xs[1..], sep);
      var j := Join(xs[1..], sep);
      assert Join(xs, sep) == xs[0] + sep + j;
      forall i | 0 <= i < |Join(xs, sep)| ensures !('A' <= Join(xs, sep)[i] <= 'Z') && !IsUpperCyrillic(Join(xs, sep)[i]) {
        if i < |xs[0]| {
        } else if i < |xs[0]| + |sep| {
          assert Join(xs, sep)[i] == sep[i - |xs[0]|];
        } else {
          assert Join(xs, sep)[i] == j[i - |xs[0]| - |sep|];
        }
      }
    }
  }

  lemma LoweredIsFixed(s: string)
    requires IsLowered(s)
    ensures Lower(s) == s
  {
  }

  lemma DropKeepsWords(ws: seq<string>)
    requires forall i :: 0 <= i < |ws| ==> IsWord(ws[i])
    ensures forall i :: 0 <= i < |DropStopWords(ws)| ==> IsWord(DropStopWords(ws)[i])
  {
  }

  /**
   * The normalised text is lower-case, its words are the lower-cased
   * words of the input minus the stop words, in order and separated by
   * single spaces, and normalising it again changes nothing.
   */
  lemma NormalizeProperties(text: string)
    ensures var r := NormalizeForCaching(text);
      && IsLowered(r)
      && Words(r) == DropStopWords(Words(Lower(text)))
      && (forall i :: 0 <= i < |Words(r)| ==> Words(r)[i] !in StopWords)
      && NormalizeForCaching(r) == r
  {
    var ws := Words(Lower(text));
    var ds := DropStopWords(ws);
    var r := Join(ds, " ");
    WordsOfNormalized(ws);
    LoweredWords(text);
    JoinLowered(ds, " ");
    LoweredIsFixed(r);
    DropStopWordsIdempotent(ds);
  }

  /** Joining the kept words and splitting again gives the kept words back. */
  lemma WordsOfNormalized(ws: seq<string>)
    requires forall w :: w in ws ==> IsWord(w)
    ensures Words(Join(DropStopWords(ws), " ")) == DropStopWords(ws)
  {
    var ds := DropStopWords(ws);
    assert forall i :: 0 <= i < |ds| ==> IsWord(ds[i]) by {
      forall i | 0 <= i < |ds| ensures IsWord(ds[i]) { assert ds[i] in ws; }
    }
    WordsJoin(ds);
  }

  /** Every kept word of a lower-cased text is itself lower-case. */
  lemma LoweredWords(text: string)
    ensures forall i :: 0 <= i < |DropStopWords(Words(Lower(text)))| ==> IsLowered(DropStopWords(Words(Lower(text)))[i])
  {
    var ws := Words(Lower(text));
    var ds := DropStopWords(ws);
    LowerIsLowered(text);
    WordsOfLowered(Lower(text));
    forall i | 0 <= i < |ds| ensures IsLowered(ds[i]) {
      var j :| 0 <= j < |ws| && ws[j] == ds[i];
    }
  }

  lemma LowerIsLowered(text: string)
    ensures IsLowered(Lower(text))
  {
  }

  /** The digest of `f"{text}|{context}"`; the string itself stands for its MD5. */
  function CacheKey(text: string, context: string): string {
    text + "|" + context
  }

  // ---------------------------------------------------------------------
  // Keyword tables

  const Factual := "factual"
  const Philosophical := "philosophical"
  const ProblemSolving := "problem_solving"
  const Sensitive := "sensitive"

  const FactualKeywords: seq<string> := [
    "цена", "стоимость", "сколько стоит", "расценки", "тарифы",
    "курс", "курсы", "занятия", "уроки", "программа", "программы",
    "преподаватель", "тренер", "учитель", "кто ведет", "кто учит",
    "расписание", "время", "когда", "во сколько", "график",
    "возраст", "сколько лет", "подходит ли", "можно ли в",
    "группа", "сколько детей", "размер группы", "индивидуально",
    "онлайн", "формат", "как проходят", "платформа",
    "пробный урок", "первое занятие", "записаться", "запись",
    "сертификат", "документ", "результат", "гарантии",
    "скидки", "акции", "льготы", "рассрочка", "оплата"]

  const PhilosophicalKeywords: seq<string> := [
    "как правильно", "что делать с", "как быть", "как жить",
    "почему дети", "зачем детям", "в наше время", "раньше было",
    "современные дети", "поколение", "молодежь сейчас",
    "принципы воспитания", "методики воспитания", "подходы к детям",
    "смысл", "важность", "нужно ли", "стоит ли развивать",
    "что такое правильное", "как понять ребенка",
    "философия воспитания", "глубинные причины"]

  const ProblemSolvingKeywords: seq<string> := [
    "не слушается", "капризничает", "плачет", "истерики",
    "агрессивный", "дерется", "кричит", "не говорит",
    "замкнутый", "стеснительный", "боится", "тревожный",
    "не хочет", "отказывается", "ленивый", "неуверенный",
    "проблема с", "как справиться", "что делать если"]

  const CategoryNames: seq<string> := [Factual, Philosophical, ProblemSolving]
  const CategoryKeywords: seq<seq<string>> := [FactualKeywords, PhilosophicalKeywords, ProblemSolvingKeywords]

  const HumorTabooKeywords: seq<string> := [
    "болезнь", "больной", "инвалид", "инвалидность", "диагноз",
    "смерть", "умер", "погиб", "похороны", "потеря",
    "развод", "расстались", "ушел от нас", "бросил",
    "избиение", "насилие", "бьет", "издевается",
    "депрессия", "суицид", "хочет покончить", "травма",
    "изнасилование", "домогательства", "приставания"]

  const Greeting := "greeting"
  const FactFinding := "fact_finding"
  const Closing := "closing"

  const StateNames: seq<string> := [Greeting, FactFinding, ProblemSolving, Closing]
  const StateKeywords: seq<seq<string>> := [
    ["привет", "здравствуйте", "добро пожаловать",
     "расскажите о школе", "что это за школа", "первый раз слышу"],
    ["узнать", "расскажите", "информация", "подробности",
     "как работает", "что включает", "условия"],
    ["помогите", "посоветуйте", "не знаю что делать",
     "проблема", "трудности", "как быть"],
    ["записаться", "попробовать", "начать", "готов",
     "согласен", "подходит", "цена устраивает", "хочу урок"]]

  const DirectLessonKeywords: seq<string> := [
    "записаться", "попробовать", "пробный урок", "хочу урок",
    "дайте ссылку", "начать заниматься", "готов попробовать"]

  /** `should_use_humor_taboo`: some taboo keyword occurs somewhere in the lower-cased message. */
  function ShouldUseHumorTaboo(userMessage: string): (b: bool)
    ensures b <==> exists i, k :: 0 <= i < |HumorTabooKeywords| && OccursAt(Lower(userMessage), HumorTabooKeywords[i], k)
  {
    ContainsAnyOccurs(Lower(userMessage), HumorTabooKeywords);
    ContainsAny(Lower(userMessage), HumorTabooKeywords)
  }

  lemma ContainsAnyOccurs(s: string, ps: seq<string>)
    ensures ContainsAny(s, ps) <==> exists i, k :: 0 <= i < |ps| && OccursAt(s, ps[i], k)
  {
    forall i | 0 <= i < |ps| ensures Contains(s, ps[i]) <==> exists k :: OccursAt(s, ps[i], k) {
      ContainsIffOccurs(s, ps[i]);
    }
  }

  /** The taboo check ignores case: a message and its lower-cased form get the same answer. */
  lemma TabooIgnoresCase(userMessage: string)
    ensures ShouldUseHumorTaboo(Lower(userMessage)) == ShouldUseHumorTaboo(userMessage)
  {
    LowerIdempotent(userMessage);
  }

  // ---------------------------------------------------------------------
  // Question category

  /** The model's reply after `.strip().lower()`, if it names a category; otherwise `factual`. */
  function ValidatedCategory(aiReply: Option<string>): (r: string)
    ensures r in CategoryNames
    ensures aiReply.Some? && Lower(Strip(aiReply.value)) in CategoryNames ==> r == Lower(Strip(aiReply.value))
    ensures aiReply.None? ==> r == Factual
  {
    if aiReply.Some? && Lower(Strip(aiReply.value)) in CategoryNames then Lower(Strip(aiReply.value)) else Factual
  }

  /** The uncached decision: taboo first, then the keyword table, then the model. */
  function CategoryDecision(userMessage: string, aiReply: Option<string>): (r: string)
    ensures ValidCategory(r)
  {
    var lower := Lower(userMessage);
    if ContainsAny(lower, HumorTabooKeywords) then Sensitive
    else match FirstHit(lower, CategoryKeywords)
      case Some(i) => CategoryNames[i]
      case None => ValidatedCategory(aiReply)
  }

  predicate ValidCategory(c: string) { c == Sensitive || c in CategoryNames }

  /**
   * A taboo word yields `sensitive` whatever category keywords the message
   * has; otherwise the first keyword group with a hit decides; the model is
   * consulted only when no keyword hits and can only yield a valid category.
   */
  lemma CategoryCascade(userMessage: string, aiReply: Option<string>)
    ensures var r := CategoryDecision(userMessage, aiReply);
      && ValidCategory(r)
      && (r == Sensitive <==> ShouldUseHumorTaboo(userMessage))
      && (!ShouldUseHumorTaboo(userMessage) && FirstHit(Lower(userMessage), CategoryKeywords).Some? ==>
            r == CategoryNames[FirstHit(Lower(userMessage), CategoryKeywords).value])
      && (!ShouldUseHumorTaboo(userMessage) && FirstHit(Lower(userMessage), CategoryKeywords).None? ==>
            r == ValidatedCategory(aiReply))
  {
  }

  /** A factual keyword wins over philosophical and problem keywords. */
  lemma FactualFirst(userMessage: string, aiReply: Option<string>)
    requires !ShouldUseHumorTaboo(userMessage) && ContainsAny(Lower(userMessage), FactualKeywords)
    ensures CategoryDecision(userMessage, aiReply) == Factual
  {
  }

  // ---------------------------------------------------------------------
  // Lead state

  function ValidatedState(aiReply: Option<string>, currentState: string): (r: string)
    ensures r in StateNames || r == currentState
    ensures aiReply.Some? && Lower(Strip(aiReply.value)) in StateNames ==> r == Lower(Strip(aiReply.value))
    ensures aiReply.None? ==> r == currentState
  {
    if aiReply.Some? && Lower(Strip(aiReply.value)) in StateNames then Lower(Strip(aiReply.value)) else currentState
  }

  /** The uncached decision of `analyze_lead_state`. */
  function LeadStateDecision(userMessage: string, currentState: string, aiReply: Option<string>): (r: string)
    ensures currentState in StateNames ==> r in StateNames
    ensures r != currentState ==>
      && r in StateNames
      && (|| ContainsAny(Lower(userMessage), DirectLessonKeywords)
          || FirstHit(Lower(userMessage), StateKeywords).Some?
          || (|Words(userMessage)| >= 5 && aiReply.Some? && Lower(Strip(aiReply.value)) == r))
  {
    var lower := Lower(userMessage);
    if ContainsAny(lower, DirectLessonKeywords) then Closing
    else match FirstHit(lower, StateKeywords)
      case Some(i) => StateNames[i]
      case None =>
        if |Words(userMessage)| < 5 then currentState
        else ValidatedState(aiReply, currentState)
  }

  /**
   * A direct lesson request means `closing` before anything else; a short
   * message with no keyword, or an answer the model gets wrong, keeps the
   * current state; nothing else can come out.
   */
  lemma LeadStateCascade(userMessage: string, currentState: string, aiReply: Option<string>)
    ensures var r := LeadStateDecision(userMessage, currentState, aiReply);
      && (r in StateNames || r == currentState)
      && (ContainsAny(Lower(userMessage), DirectLessonKeywords) ==> r == Closing)
      && (!ContainsAny(Lower(userMessage), DirectLessonKeywords) && FirstHit(Lower(userMessage), StateKeywords).None?
          && |Words(userMessage)| < 5
          ==> r == currentState)
      && (!ContainsAny(Lower(userMessage), DirectLessonKeywords) && FirstHit(Lower(userMessage), StateKeywords).None?
          && (aiReply.None? || Lower(Strip(aiReply.value)) !in StateNames)
          ==> r == currentState)
  {
  }

  // ---------------------------------------------------------------------
  // Philosophical loop

  /** `message.replace("Пользователь:", "").strip()`. */
  function UserText(line: string): string {
    Strip(ReplaceAll(line, UserPrefix, ""))
  }

  /** The test the loop applies to one user line. */
  function IsPhilosophicalLine(classify: string -> string): string -> bool {
    line => classify(UserText(line)) == Philosophical
  }

  /** Number of trailing lines, newest first, that the classifier calls philosophical. */
  function PhilosophicalRun(lines: seq<string>, classify: string -> string): (n: nat)
    ensures n <= |lines|
  {
    TrailingRun(lines, IsPhilosophicalLine(classify))
  }

  /** The run really is the maximal philosophical suffix: its lines all pass
      the test, and the line before it, if any, does not. */
  lemma PhilosophicalRunIsSuffix(lines: seq<string>, classify: string -> string)
    ensures var n := PhilosophicalRun(lines, classify);
      && (forall i :: |lines| - n <= i < |lines| ==> IsPhilosophicalLine(classify)(lines[i]))
      && (n < |lines| ==> !IsPhilosophicalLine(classify)(lines[|lines| - n - 1]))
  {
    TrailingRunIsMaximal(lines, IsPhilosophicalLine(classify));
  }

  /** The lines the detector looks at: the last ten user lines of the history. */
  function RecentUserLines(history: seq<string>): (r: seq<string>)
    ensures |r| <= 10
  {
    Last(UserLines(history), 10)
  }

  function PhilosophyKey(history: seq<string>): string {
    CacheKey(Join(Last(history, 10), "|"), "philosophy")
  }

  /** An entry of the philosophy cache is a pair the detector can produce. */
  predicate PhilosophyVerdict(v: (bool, nat)) {
    (v.0 <==> v.1 >= 3) && v.1 <= 10
  }

  /** The loop of `analyze_philosophical_loop`: newest line first, stop at the first non-philosophical one. */
  method CountPhilosophical(lines: seq<string>, classify: string -> string) returns (count: nat)
    ensures count == PhilosophicalRun(lines, classify)
  {
    var philosophical := IsPhilosophicalLine(classify);
    count := 0;
    var i := |lines|;
    assert lines[..i] == lines;
    while i > 0 && philosophical(lines[i - 1])
      invariant 0 <= i <= |lines|
      invariant count == |lines| - i
      invariant TrailingRun(lines, philosophical) == count + TrailingRun(lines[..i], philosophical)
    {
      assert lines[..i][..i - 1] == lines[..i - 1];
      count := count + 1;
      i := i - 1;
    }
  }

  // ---------------------------------------------------------------------
  // The analyzer

  class Analyzer {
    const cache: AdvancedCache

    /** Every cached answer is one the analyzer can give. */
    ghost predicate Valid()
      reads this, cache
    {
      && cache.Valid()
      && AllValues(cache.categoryCache, ValidCategory)
      && AllValues(cache.philosophyCache, PhilosophyVerdict)
    }

    constructor ()
      ensures Valid() && fresh(cache)
    {
      cache := new AdvancedCache();
    }

    function CategoryKey(userMessage: string): string {
      CacheKey(NormalizeForCaching(userMessage), "category")
    }

    /** `analyze_question_category`; `aiReply` is the model's answer, `None` when the call raises. */
    method AnalyzeQuestionCategory(userMessage: string, history: seq<string>, now: real, aiReply: Option<string>)
      returns (r: string)
      requires Valid()
      modifies cache
      ensures Valid()
      ensures ValidCategory(r)
      ensures var key := CategoryKey(userMessage);
        var live := key in old(cache.categoryCache) && now - old(cache.categoryCache)[key].timestamp < CategoryTtl;
        && (live && old(cache.categoryCache)[key].value != "" ==> r == old(cache.categoryCache)[key].value)
        && (!(live && old(cache.categoryCache)[key].value != "") ==>
              r == CategoryDecision(userMessage, aiReply) && key in cache.categoryCache
              && cache.categoryCache[key] == Entry(r, now))
      ensures var key := CategoryKey(userMessage);
        var o := old(cache.State());
        var live := key in o.categoryCache && now - o.categoryCache[key].timestamp < CategoryTtl;
        var cleaned := Cleaned(o.categoryCache, CategoryTtl, now);
        cache.State() == o.(categoryCache := if live && o.categoryCache[key].value != "" then cleaned
                                             else cleaned[key := Entry(r, now)],
                            categoryHits := o.categoryHits + (if live then 1 else 0),
                            categoryMisses := o.categoryMisses + (if live then 0 else 1),
                            totalAiCallsSaved := o.totalAiCallsSaved + (if live then 1 else 0))
    {
      var key := CategoryKey(userMessage);
      ghost var o := cache.State();
      ghost var live := key in o.categoryCache && now - o.categoryCache[key].timestamp < CategoryTtl;
      ghost var cleaned := Cleaned(o.categoryCache, CategoryTtl, now);
      var cached := cache.GetCategoryCache(key, now);
      CleanedUnique(cache.categoryCache, o.categoryCache, CategoryTtl, now);
      ghost var looked := o.(categoryCache := cleaned,
                             categoryHits := o.categoryHits + (if live then 1 else 0),
                             categoryMisses := o.categoryMisses + (if live then 0 else 1),
                             totalAiCallsSaved := o.totalAiCallsSaved + (if live then 1 else 0));
      assert cache.State() == looked;
      CleanedKeeps(cache.categoryCache, o.categoryCache, CategoryTtl, now, ValidCategory);
      if cached.Some? && cached.value != "" {
        assert live && cached.value == o.categoryCache[key].value;
        assert ValidCategory(o.categoryCache[key].value);
        return cached.value;
      }
      r := DecideCategory(userMessage, key, now, aiReply);
      assert cache.State() == looked.(categoryCache := cleaned[key := Entry(r, now)]);
    }

    /** The uncached path of `analyze_question_category`: decide, then store the decision. */
    method DecideCategory(userMessage: string, key: string, now: real, aiReply: Option<string>) returns (r: string)
      requires Valid()
      modifies cache`categoryCache
      ensures Valid()
      ensures r == CategoryDecision(userMessage, aiReply)
      ensures cache.categoryCache == old(cache.categoryCache)[key := Entry(r, now)]
    {
      r := CategoryDecision(userMessage, aiReply);
      StoreKeeps(cache.categoryCache, key, Entry(r, now), ValidCategory);
      cache.SetCategoryCache(key, r, now);
    }

    function StateKey(userMessage: string, currentState: string, history: seq<string>): string {
      CacheKey(NormalizeForCaching(userMessage), currentState + "|" + NatToString(|history|))
    }

    /** `analyze_lead_state`. */
    method AnalyzeLeadState(userMessage: string, currentState: string, history: seq<string>, now: real,
                            aiReply: Option<string>) returns (r: string)
      requires Valid()
      modifies cache
      ensures Valid()
      ensures var key := StateKey(userMessage, currentState, history);
        var live := key in old(cache.stateCache) && now - old(cache.stateCache)[key].timestamp < StateTtl;
        && (live && old(cache.stateCache)[key].value != "" ==> r == old(cache.stateCache)[key].value)
        && (!(live && old(cache.stateCache)[key].value != "") ==>
              r == LeadStateDecision(userMessage, currentState, aiReply) && key in cache.stateCache
              && cache.stateCache[key] == Entry(r, now))
      ensures var key := StateKey(userMessage, currentState, history);
        var live := key in old(cache.stateCache) && now - old(cache.stateCache)[key].timestamp < StateTtl;
        var cleaned := Cleaned(old(cache.stateCache), StateTtl, now);
        && cache.stateCache == (if live && old(cache.stateCache)[key].value != "" then cleaned
                                else cleaned[key := Entry(r, now)])
        && cache.stateHits == old(cache.stateHits) + (if live then 1 else 0)
        && cache.stateMisses == old(cache.stateMisses) + (if live then 0 else 1)
        && cache.totalAiCallsSaved == old(cache.totalAiCallsSaved) + (if live then 1 else 0)
      ensures cache.categoryCache == old(cache.categoryCache) && cache.philosophyCache == old(cache.philosophyCache)
      ensures cache.categoryHits == old(cache.categoryHits) && cache.categoryMisses == old(cache.categoryMisses)
      ensures cache.philosophyHits == old(cache.philosophyHits) && cache.philosophyMisses == old(cache.philosophyMisses)
    {
      var key := StateKey(userMessage, currentState, history);
      ghost var before := cache.stateCache;
      var cached := cache.GetStateCache(key, now);
      CleanedUnique(cache.stateCache, before, StateTtl, now);
      if cached.Some? && cached.value != "" {
        return cached.value;
      }
      r := LeadStateDecision(userMessage, currentState, aiReply);
      cache.SetStateCache(key, r, now);
    }

    /**
     * `analyze_philosophical_loop`; `classify` is the category the analyzer
     * gives a user line with an empty history.
     */
    method AnalyzePhilosophicalLoop(history: seq<string>, now: real, classify: string -> string)
      returns (needsBridge: bool, count: nat)
      requires Valid()
      modifies cache
      ensures Valid()
      ensures needsBridge <==> count >= 3
      ensures count <= 10
      ensures history == [] ==> !needsBridge && count == 0
      ensures var key := PhilosophyKey(history);
        var live := key in old(cache.philosophyCache) && now - old(cache.philosophyCache)[key].timestamp < PhilosophyTtl;
        && (history != [] && live ==> (needsBridge, count) == old(cache.philosophyCache)[key].value)
        && (history != [] && !live ==>
              (count == PhilosophicalRun(RecentUserLines(history), classify)
               && key in cache.philosophyCache && cache.philosophyCache[key] == Entry((needsBridge, count), now)))
      ensures var key := PhilosophyKey(history);
        var live := key in old(cache.philosophyCache) && now - old(cache.philosophyCache)[key].timestamp < PhilosophyTtl;
        && (history == [] ==> cache.philosophyHits == old(cache.philosophyHits) && cache.philosophyMisses == old(cache.philosophyMisses))
        && (history != [] && live ==> cache.philosophyHits == old(cache.philosophyHits) + 1 && cache.philosophyMisses == old(cache.philosophyMisses))
        && (history != [] && !live ==> cache.philosophyMisses == old(cache.philosophyMisses) + 1 && cache.philosophyHits == old(cache.philosophyHits))
      ensures var key := PhilosophyKey(history);
        var live := key in old(cache.philosophyCache) && now - old(cache.philosophyCache)[key].timestamp < PhilosophyTtl;
        var cleaned := Cleaned(old(cache.philosophyCache), PhilosophyTtl, now);
        && (history == [] ==> cache.philosophyCache == old(cache.philosophyCache))
        && (history != [] && live ==> cache.philosophyCache == cleaned)
        && (history != [] && !live ==> cache.philosophyCache == cleaned[key := Entry((needsBridge, count), now)])
      ensures cache.totalAiCallsSaved == old(cache.totalAiCallsSaved)
      ensures cache.stateCache == old(cache.stateCache)
      ensures cache.stateHits == old(cache.stateHits) && cache.stateMisses == old(cache.stateMisses)
    {
      if history == [] {
        return false, 0;
      }
      var key := PhilosophyKey(history);
      ghost var before := cache.philosophyCache;
      var cached := cache.GetPhilosophyCache(key, now);
      CleanedUnique(cache.philosophyCache, before, PhilosophyTtl, now);
      CleanedKeeps(cache.philosophyCache, before, PhilosophyTtl, now, PhilosophyVerdict);
      if cached.Some? {
        assert PhilosophyVerdict(before[key].value);
        return cached.value.0, cached.value.1;
      }
      count := CountPhilosophical(RecentUserLines(history), classify);
      needsBridge := count >= 3;
      StoreKeeps(cache.philosophyCache, key, Entry((needsBridge, count), now), PhilosophyVerdict);
      cache.SetPhilosophyCache(key, (needsBridge, count), now);
    }
  }
}
