/**
 * The flat metadata extractor for the school's documents: keyword tables
 * over the lower-cased text map to duplicate-free label lists, numeric
 * matches are filtered by range, and the first matching category names the
 * content.
 *
 * The regular expressions of the extractor are not modelled: what
 * `re.findall` / `re.search` return for each pattern is an input
 * (`Matches`); every keyword test is the literal containment `k in text_lower`.
 */
module ExtractMetadata {
  import opened Text

  // ---------------------------------------------------------------------
  // First-seen deduplication: `if x not in xs: xs.append(x)`

  function AddNew<T(==)>(xs: seq<T>, x: T): seq<T> {
    if x in xs then xs else xs + [x]
  }

  /** Every element of `xs` appended in order, behind the membership check. */
  function Dedup<T(==)>(xs: seq<T>): seq<T>
  {
    if xs == [] then [] else AddNew(Dedup(xs[..|xs| - 1]), xs[|xs| - 1])
  }

  lemma DedupSnoc<T>(xs: seq<T>, x: T)
    ensures Dedup(xs + [x]) == AddNew(Dedup(xs), x)
  {
    assert (xs + [x])[..|xs|] == xs;
  }

  /** Position of the first occurrence of `x` in `xs`. */
  function FirstIndex<T(==)>(xs: seq<T>, x: T): (r: nat)
    requires x in xs
    ensures r < |xs| && xs[r] == x
    ensures forall j :: 0 <= j < r ==> xs[j] != x
  {
    if xs[0] == x then 0 else 1 + FirstIndex(xs[1..], x)
  }

  lemma FirstIndexAppend<T>(xs: seq<T>, x: T, y: T)
    requires y in xs
    ensures FirstIndex(xs + [x], y) == FirstIndex(xs, y)
  {
    var a := FirstIndex(xs + [x], y);
    var b := FirstIndex(xs, y);
    assert (xs + [x])[b] == y;
    assert a <= b;
    assert xs[a] == (xs + [x])[a];
  }

  lemma FirstIndexNew<T>(xs: seq<T>, x: T)
    requires x !in xs
    ensures FirstIndex(xs + [x], x) == |xs|
  {
    var a := FirstIndex(xs + [x], x);
    assert (xs + [x])[a] == x;
  }

  /**
   * The deduplicated list holds each element of `xs` exactly once, and in
   * the order of the elements' first occurrences in `xs`.
   */
  lemma {:induction false} DedupShape<T>(xs: seq<T>)
    ensures Distinct(Dedup(xs))
    ensures forall x :: x in Dedup(xs) <==> x in xs
    ensures forall i, j :: 0 <= i < j < |Dedup(xs)| ==> FirstIndex(xs, Dedup(xs)[i]) < FirstIndex(xs, Dedup(xs)[j])
  {
    if xs != [] {
      var init := xs[..|xs| - 1];
      var x := xs[|xs| - 1];
      assert xs == init + [x];
      DedupShape(init);
      var r0 := Dedup(init);
      forall y | y in init ensures FirstIndex(xs, y) == FirstIndex(init, y) {
        FirstIndexAppend(init, x, y);
      }
      if x !in r0 {
        FirstIndexNew(init, x);
        assert Dedup(xs) == r0 + [x];
        forall i | 0 <= i < |r0| ensures FirstIndex(xs, r0[i]) < FirstIndex(xs, x) {
          assert r0[i] in r0;
        }
      } else {
        assert Dedup(xs) == r0;
      }
    }
  }

  lemma DedupEmpty<T>(xs: seq<T>)
    ensures Dedup(xs) == [] <==> xs == []
  {
    if xs != [] {
      DedupShape(xs);
      assert xs[0] in Dedup(xs);
    }
  }

  /** The dedup loop over a list of matches. */
  method DistinctInOrder<T(==)>(xs: seq<T>) returns (r: seq<T>)
    ensures r == Dedup(xs)
  {
    r := [];
    var i := 0;
    while i < |xs|
      invariant 0 <= i <= |xs|
      invariant r == Dedup(xs[..i])
    {
      DedupSnoc(xs[..i], xs[i]);
      assert xs[..i + 1] == xs[..i] + [xs[i]];
      if xs[i] !in r {
        r := r + [xs[i]];
      }
      i := i + 1;
    }
    assert xs[..i] == xs;
  }

  // ---------------------------------------------------------------------
  // Filtered and rewritten match lists

  /** `[f(x) for x in xs if keep(x)]`, built by appending. */
  function Kept<A, B>(xs: seq<A>, keep: A -> bool, f: A -> B): seq<B>
  {
    if xs == [] then []
    else Kept(xs[..|xs| - 1], keep, f) + (if keep(xs[|xs| - 1]) then [f(xs[|xs| - 1])] else [])
  }

  lemma KeptStep<A, B>(xs: seq<A>, keep: A -> bool, f: A -> B, i: nat)
    requires i < |xs|
    ensures Kept(xs[..i + 1], keep, f) == Kept(xs[..i], keep, f) + (if keep(xs[i]) then [f(xs[i])] else [])
  {
    assert xs[..i + 1][..i] == xs[..i];
  }

  lemma {:induction false} KeptMembers<A, B>(xs: seq<A>, keep: A -> bool, f: A -> B)
    ensures forall y :: y in Kept(xs, keep, f) <==> exists i :: 0 <= i < |xs| && keep(xs[i]) && y == f(xs[i])
  {
    if xs != [] {
      var init := xs[..|xs| - 1];
      KeptMembers(init, keep, f);
      forall y ensures y in Kept(xs, keep, f) <==> exists i :: 0 <= i < |xs| && keep(xs[i]) && y == f(xs[i]) {
        if y in Kept(init, keep, f) {
          var i :| 0 <= i < |init| && keep(init[i]) && y == f(init[i]);
          assert xs[i] == init[i];
        }
        if exists i :: 0 <= i < |xs| && keep(xs[i]) && y == f(xs[i]) {
          var i :| 0 <= i < |xs| && keep(xs[i]) && y == f(xs[i]);
          if i < |init| {
            assert init[i] == xs[i];
          }
        }
      }
    }
  }

  // ---------------------------------------------------------------------
  // Keyword tables

  /** A keyword dictionary: `(keyword, label)` pairs in insertion order. */
  type Table = seq<(string, string)>

  /** The labels of the keywords found in `t`, in table order, repetitions kept. */
  function Hits(t: string, table: Table): seq<string>
  {
    if table == [] then []
    else Hits(t, table[..|table| - 1])
         + (if Contains(t, table[|table| - 1].0) then [table[|table| - 1].1] else [])
  }

  /** The label list a table yields: `if keyword in t and label not in labels: labels.append(label)`. */
  function Labels(t: string, table: Table): seq<string>
  {
    Dedup(Hits(t, table))
  }

  /** Some keyword of the table is found in `t`. */
  predicate AnyKeyword(t: string, table: Table) {
    exists k :: 0 <= k < |table| && Contains(t, table[k].0)
  }

  /** `l` is the label of a keyword found in `t`. */
  predicate Labelled(t: string, table: Table, l: string) {
    exists k :: 0 <= k < |table| && Contains(t, table[k].0) && table[k].1 == l
  }

  lemma {:induction false} HitsMembers(t: string, table: Table)
    ensures forall l :: l in Hits(t, table) <==> Labelled(t, table, l)
  {
    if table != [] {
      var init := table[..|table| - 1];
      var last := table[|table| - 1];
      HitsMembers(t, init);
      forall l ensures l in Hits(t, table) <==> Labelled(t, table, l) {
        if Labelled(t, init, l) {
          var k :| 0 <= k < |init| && Contains(t, init[k].0) && init[k].1 == l;
          assert table[k] == init[k];
        }
        if Labelled(t, table, l) {
          var k :| 0 <= k < |table| && Contains(t, table[k].0) && table[k].1 == l;
          if k < |init| {
            assert init[k] == table[k];
          }
        }
      }
    }
  }

  /**
   * A table's labels are duplicate-free, are exactly the labels of the
   * keywords found, and are empty exactly when no keyword is found.
   */
  lemma LabelsShape(t: string, table: Table)
    ensures Distinct(Labels(t, table))
    ensures forall l :: l in Labels(t, table) <==> Labelled(t, table, l)
    ensures Labels(t, table) == [] <==> !AnyKeyword(t, table)
  {
    DedupShape(Hits(t, table));
    HitsMembers(t, table);
    if AnyKeyword(t, table) {
      var k :| 0 <= k < |table| && Contains(t, table[k].0);
      assert Labelled(t, table, table[k].1);
    } else if Labels(t, table) != [] {
      assert Labels(t, table)[0] in Labels(t, table);
    }
  }

  /**
   * One keyword loop of the extractor; `appended` is the flag the loop
   * raises whenever it appends a label.
   */
  method CollectLabels(t: string, table: Table) returns (labels: seq<string>, appended: bool)
    ensures labels == Labels(t, table)
    ensures appended <==> labels != []
  {
    labels := [];
    appended := false;
    var i := 0;
    while i < |table|
      invariant 0 <= i <= |table|
      invariant labels == Labels(t, table[..i])
      invariant appended <==> labels != []
    {
      var keyword := table[i].0;
      var name := table[i].1;
      LabelsStep(t, table, i);
      if Contains(t, keyword) {
        if name !in labels {
          labels := labels + [name];
          appended := true;
        }
      }
      i := i + 1;
    }
    assert table[..i] == table;
  }

  lemma LabelsStep(t: string, table: Table, i: nat)
    requires i < |table|
    ensures Labels(t, table[..i + 1])
            == if Contains(t, table[i].0) then AddNew(Labels(t, table[..i]), table[i].1) else Labels(t, table[..i])
  {
    assert table[..i + 1][..i] == table[..i];
    var h := Hits(t, table[..i]);
    if Contains(t, table[i].0) {
      assert Hits(t, table[..i + 1]) == h + [table[i].1];
      DedupSnoc(h, table[i].1);
    } else {
      assert Hits(t, table[..i + 1]) == h;
    }
  }

  /** The labels of a plain keyword list are the keywords the text contains. */
  lemma SameLabels(t: string, words: seq<string>)
    ensures forall w :: w in Labels(t, Same(words)) <==> w in words && Contains(t, w)
  {
    LabelsShape(t, Same(words));
    forall w ensures Labelled(t, Same(words), w) <==> w in words && Contains(t, w) {
      if w in words && Contains(t, w) {
        var k :| 0 <= k < |words| && words[k] == w;
        assert Same(words)[k] == (w, w);
      }
    }
  }

  /** The flag a keyword loop raises is whether some keyword was found. */
  lemma FlagIsAnyKeyword(t: string, table: Table, appended: bool)
    requires appended <==> Labels(t, table) != []
    ensures appended <==> AnyKeyword(t, table)
  {
    LabelsShape(t, table);
  }

  /** A plain keyword list, each keyword its own label. */
  function Same(words: seq<string>): (r: Table)
    ensures |r| == |words|
    ensures forall i :: 0 <= i < |r| ==> r[i] == (words[i], words[i])
  {
    if words == [] then [] else [(words[0], words[0])] + Same(words[1..])
  }

  // ---------------------------------------------------------------------
  // What the regular expressions find

  /**
   * The results of the extractor's regular expressions on one text, as
   * `re.findall` returns them (numeric groups already read by `int`):
   * - `prices`: group 1 of `(\d[\d,\s]*\d)\s*(?:грн|гривен)`;
   * - `ageRanges`: the `(min, max)` pairs of `(\d+)-(\d+)\s*(?:лет|года?)`
   *   followed by those of `(\d+)\s*-\s*(\d+)`;
   * - `singleAges`: `(\d+)\s*(?:лет|года?|летн)`;
   * - `lessonMinutes`: one list per pattern of `(\d+)\s*минут`, `(\d+)\s*мин`;
   * - `scheduleTimes`: `(\d{1,2}:\d{2}(?:-\d{1,2}:\d{2})?)` on the original text;
   * - `courseMonths`: one list per pattern of `(\d+)\s*месяц`, `(\d+)\s*мес`;
   * - `homework`: one list per pattern of `(\d+-\d+)\s*минут`, `(\d+-\d+)\s*мин`;
   * - `groupSizes`: the group-size pattern;
   * - `speed`: group 1 of the first match of `(\d+)[\+\s]*мбит`;
   * - `percentages`, `studentNumbers`: the success-rate and head-count patterns.
   */
  datatype Matches = Matches(
    prices: seq<string>,
    ageRanges: seq<(nat, nat)>,
    singleAges: seq<nat>,
    lessonMinutes: seq<seq<nat>>,
    scheduleTimes: seq<string>,
    courseMonths: seq<seq<nat>>,
    homework: seq<seq<string>>,
    groupSizes: seq<string>,
    speed: Option<string>,
    percentages: seq<string>,
    studentNumbers: seq<string>)

  // ---------------------------------------------------------------------
  // Prices and discounts

  const DiscountKeywords: Table := [
    ("поквартальная", "поквартальная_оплата_5%"),
    ("полная оплата", "полная_оплата_курса_10%"),
    ("семейная", "семейная_скидка_15%"),
    ("рекомендацию", "скидка_за_рекомендацию_1000грн"),
    ("социальная", "социальная_скидка_20%"),
    ("многодетн", "социальная_скидка_20%"),
    ("ато", "социальная_скидка_20%"),
    ("oos", "социальная_скидка_20%"),
    ("особыми потребностями", "социальная_скидка_20%"),
    ("стипенди", "стипендии"),
    ("скидка 5%", "поквартальная_оплата_5%"),
    ("скидка 10%", "полная_оплата_курса_10%"),
    ("скидка 15%", "семейная_скидка_15%"),
    ("скидка 20%", "социальная_скидка_20%")]

  const PaymentKeywords: Table := [
    ("рассрочка", "рассрочка"),
    ("банковская карта", "банковская_карта"),
    ("visa", "банковская_карта"),
    ("mastercard", "банковская_карта"),
    ("беспроцентная", "рассрочка_банк_3мес"),
    ("первый взнос", "внутренняя_рассрочка")]

  const RefundKeywords: Table := [
    ("7 дней", "7дней_100%"),
    ("первый месяц", "1месяц_70%"),
    ("второй месяц", "2месяц_50%"),
    ("медицинские показания", "мед_показания_100%"),
    ("100% возврат", "100%_возврат"),
    ("70%", "1месяц_70%"),
    ("50%", "2месяц_50%")]

  /** The characters `re.sub(r'[,\s]', '', s)` removes. */
  predicate Dropped(c: char) { c == ',' || c in Whitespace }

  /** `re.sub(r'[,\s]', '', s)`. */
  function CleanPrice(s: string): (r: string)
    ensures forall i :: 0 <= i < |r| ==> r[i] in s && !Dropped(r[i])
    ensures r == [] ==> forall i :: 0 <= i < |s| ==> Dropped(s[i])
  {
    if s == [] then []
    else (if Dropped(s[0]) then [] else [s[0]]) + CleanPrice(s[1..])
  }

  /** The shape of a price group `\d[\d,\s]*\d`. */
  predicate PriceGroup(s: string) {
    && |s| >= 2 && IsAsciiDigit(s[0]) && IsAsciiDigit(s[|s| - 1])
    && forall i :: 0 <= i < |s| ==> IsAsciiDigit(s[i]) || Dropped(s[i])
  }

  /** A cleaned price group is a number of at least two digits. */
  lemma PriceIsNumber(s: string)
    requires PriceGroup(s)
    ensures |CleanPrice(s)| >= 2 && AllChars(CleanPrice(s), IsAsciiDigit)
  {
    var rest := CleanPrice(s[1..]);
    assert CleanPrice(s) == [s[0]] + rest;
    assert s[1..][|s| - 2] == s[|s| - 1];
    forall i | 0 <= i < |CleanPrice(s)| ensures IsAsciiDigit(CleanPrice(s)[i]) {
      var c := CleanPrice(s)[i];
      var j :| 0 <= j < |s| && s[j] == c;
    }
  }

  function CleanPrices(ms: seq<string>): (r: seq<string>)
    ensures |r| == |ms|
  {
    if ms == [] then [] else CleanPrices(ms[..|ms| - 1]) + [CleanPrice(ms[|ms| - 1])]
  }

  datatype PricingInfo = PricingInfo(
    hasPricing: bool, prices: seq<string>,
    discounts: seq<string>, payments: seq<string>, refunds: seq<string>)

  /** `_extract_pricing_info`: a price was matched, the cleaned prices, and the three label lists. */
  function Pricing(t: string, m: Matches): PricingInfo
  {
    PricingInfo(
      m.prices != [], Dedup(CleanPrices(m.prices)),
      Labels(t, DiscountKeywords), Labels(t, PaymentKeywords), Labels(t, RefundKeywords))
  }

  /**
   * `has_pricing` holds exactly when `prices_mentioned` is non-empty; the
   * prices are duplicate-free and are exactly the cleaned matches, and each
   * is a number when its match has the price shape.
   */
  lemma PricingShape(t: string, m: Matches)
    ensures Pricing(t, m).hasPricing <==> Pricing(t, m).prices != []
    ensures Distinct(Pricing(t, m).prices)
    ensures forall p :: p in Pricing(t, m).prices <==> p in CleanPrices(m.prices)
    ensures (forall i :: 0 <= i < |m.prices| ==> PriceGroup(m.prices[i])) ==>
              forall p :: p in Pricing(t, m).prices ==> |p| >= 2 && AllChars(p, IsAsciiDigit)
  {
    DedupEmpty(CleanPrices(m.prices));
    DedupShape(CleanPrices(m.prices));
    if forall i :: 0 <= i < |m.prices| ==> PriceGroup(m.prices[i]) {
      CleanPricesNumbers(m.prices);
    }
  }

  lemma {:induction false} CleanPricesNumbers(ms: seq<string>)
    requires forall i :: 0 <= i < |ms| ==> PriceGroup(ms[i])
    ensures forall p :: p in CleanPrices(ms) ==> |p| >= 2 && AllChars(p, IsAsciiDigit)
  {
    if ms != [] {
      CleanPricesNumbers(ms[..|ms| - 1]);
      PriceIsNumber(ms[|ms| - 1]);
    }
  }

  method ExtractPricingInfo(t: string, m: Matches) returns (info: PricingInfo)
    ensures info == Pricing(t, m)
  {
    var prices := [];
    var i := 0;
    while i < |m.prices|
      invariant 0 <= i <= |m.prices|
      invariant prices == Dedup(CleanPrices(m.prices[..i]))
    {
      var price := CleanPrice(m.prices[i]);
      assert m.prices[..i + 1][..i] == m.prices[..i];
      DedupSnoc(CleanPrices(m.prices[..i]), price);
      if price !in prices {
        prices := prices + [price];
      }
      i := i + 1;
    }
    assert m.prices[..i] == m.prices;
    var hasPricing := false;
    DedupEmpty(CleanPrices(m.prices));
    if prices != [] {
      hasPricing := true;
    }
    var discounts, _ := CollectLabels(t, DiscountKeywords);
    var payments, _ := CollectLabels(t, PaymentKeywords);
    var refunds, _ := CollectLabels(t, RefundKeywords);
    info := PricingInfo(hasPricing, prices, discounts, payments, refunds);
  }

  // ---------------------------------------------------------------------
  // Special needs

  const ConditionKeywords: Table := [
    ("сдвг", "СДВГ"),
    ("рас", "РАС"),
    ("аутизм", "аутизм"),
    ("тревожн", "тревожность"),
    ("застенчив", "застенчивость"),
    ("эмоциональные нарушения", "эмоциональные_нарушения"),
    ("логопедические", "логопедические_проблемы"),
    ("нарушения слуха", "нарушения_слуха"),
    ("нарушения зрения", "нарушения_зрения"),
    ("речевые нарушения", "речевые_нарушения"),
    ("диабет", "медицинские_особенности"),
    ("аллерг", "медицинские_особенности"),
    ("особыми потребностями", "особые_потребности_общие")]

  const AdaptationKeywords: Table := [
    ("короткие блоки", "короткие_блоки_5-7мин"),
    ("3-5 минут", "короткие_блоки_3-5мин"),
    ("5-7 минут", "короткие_блоки_5-7мин"),
    ("частая смена", "частая_смена_деятельности"),
    ("предсказуемая структура", "предсказуемая_структура"),
    ("визуальные подсказки", "визуальные_подсказки"),
    ("камера выключена", "камера_выключена_при_перегрузке"),
    ("индивидуальные задания", "индивидуальные_задания"),
    ("техники релаксации", "техники_релаксации"),
    ("малых группах", "работа_в_малых_группах_2-3чел"),
    ("субтитры", "автоматические_субтитры"),
    ("аудио описания", "аудио_описания"),
    ("тактильные материалы", "тактильные_материалы"),
    ("дополнительное время", "дополнительное_время_на_ответы")]

  const LearningStyleKeywords: Table := [
    ("визуал", "визуалы_35%"),
    ("аудиал", "аудиалы_25%"),
    ("кинестетик", "кинестетики_40%"),
    ("холерик", "холерики"),
    ("сангвиник", "сангвиники"),
    ("флегматик", "флегматики"),
    ("меланхолик", "меланхолики")]

  datatype SpecialNeedsInfo = SpecialNeedsInfo(
    hasInfo: bool, conditions: seq<string>, adaptations: seq<string>, styles: seq<string>)

  /** `_extract_special_needs`: the flag is raised by a condition or adaptation keyword. */
  function SpecialNeeds(t: string): SpecialNeedsInfo
  {
    SpecialNeedsInfo(
      AnyKeyword(t, ConditionKeywords) || AnyKeyword(t, AdaptationKeywords),
      Labels(t, ConditionKeywords), Labels(t, AdaptationKeywords), Labels(t, LearningStyleKeywords))
  }

  /**
   * `has_special_needs_info` holds exactly when `conditions_supported` or
   * `adaptations` is non-empty; the learning styles play no part.
   */
  lemma SpecialNeedsFlag(t: string)
    ensures SpecialNeeds(t).hasInfo <==> SpecialNeeds(t).conditions != [] || SpecialNeeds(t).adaptations != []
  {
    LabelsShape(t, ConditionKeywords);
    LabelsShape(t, AdaptationKeywords);
  }

  method ExtractSpecialNeeds(t: string) returns (info: SpecialNeedsInfo)
    ensures info == SpecialNeeds(t)
  {
    var conditions, someCondition := CollectLabels(t, ConditionKeywords);
    var adaptations, someAdaptation := CollectLabels(t, AdaptationKeywords);
    var styles, _ := CollectLabels(t, LearningStyleKeywords);
    SpecialNeedsFlag(t);
    info := SpecialNeedsInfo(someCondition || someAdaptation, conditions, adaptations, styles);
  }

  // ---------------------------------------------------------------------
  // Skills

  const SkillKeywords: Table := [
    ("публичные выступления", "публичные_выступления"),
    ("выступления", "публичные_выступления"),
    ("ораторск", "публичные_выступления"),
    ("эмоциональная регуляция", "эмоциональная_регуляция"),
    ("эмоциональн", "эмоциональная_регуляция"),
    ("лидерство", "лидерство"),
    ("лидер", "лидерство"),
    ("проектное управление", "проектное_управление"),
    ("проект", "проектное_управление"),
    ("программирование", "проектное_управление"),
    ("коммуникац", "коммуникация"),
    ("общение", "коммуникация"),
    ("эмпатия", "эмпатия"),
    ("уверенность", "уверенность_в_себе"),
    ("конфликт", "разрешение_конфликтов"),
    ("командная работа", "командная_работа"),
    ("команда", "командная_работа"),
    ("креативность", "креативность"),
    ("творчество", "креативность")]

  const SkillCourseKeywords: Table := [
    ("юный оратор", "Юный Оратор"),
    ("эмоциональный компас", "Эмоциональный Компас"),
    ("капитан проектов", "Капитан Проектов"),
    ("профессии будущего", "Профессии будущего")]

  const SkillCategoryKeywords: Table := [
    ("коммуникативн", "коммуникативные"),
    ("эмоциональн", "эмоциональные"),
    ("лидерск", "лидерские"),
    ("проектн", "проектные"),
    ("социальн", "социальные")]

  datatype SkillsInfo = SkillsInfo(skills: seq<string>, courses: seq<string>, categories: seq<string>)

  /** `_extract_skills`. */
  function Skills(t: string): SkillsInfo
  {
    SkillsInfo(Labels(t, SkillKeywords), Labels(t, SkillCourseKeywords), Labels(t, SkillCategoryKeywords))
  }

  method ExtractSkills(t: string) returns (info: SkillsInfo)
    ensures info == Skills(t)
  {
    var skills, _ := CollectLabels(t, SkillKeywords);
    var courses, _ := CollectLabels(t, SkillCourseKeywords);
    var categories, _ := CollectLabels(t, SkillCategoryKeywords);
    info := SkillsInfo(skills, courses, categories);
  }

  // ---------------------------------------------------------------------
  // Age groups

  /** A range is recorded only when both ends are at most 18. */
  predicate KeptRange(r: (nat, nat)) { r.0 <= 18 && r.1 <= 18 }

  /** A single age counts only from 6 to 18. */
  predicate SingleAge(a: nat) { 6 <= a <= 18 }

  /** `f"{min_age}-{max_age}"`. */
  function RangeLabel(r: (nat, nat)): string {
    NatToString(r.0) + "-" + NatToString(r.1)
  }

  /** The labels of the kept ranges, in match order. */
  function RangeLabels(rs: seq<(nat, nat)>): seq<string>
  {
    Kept(rs, KeptRange, RangeLabel)
  }

  /** `ages_found.extend([min_age, max_age])` for each kept range. */
  function RangeAges(rs: seq<(nat, nat)>): seq<nat>
  {
    if rs == [] then []
    else RangeAges(rs[..|rs| - 1]) + (if KeptRange(rs[|rs| - 1]) then [rs[|rs| - 1].0, rs[|rs| - 1].1] else [])
  }

  /** The single ages in 6..18, in match order. */
  function SingleAges(as_: seq<nat>): seq<nat>
  {
    if as_ == [] then []
    else SingleAges(as_[..|as_| - 1]) + (if SingleAge(as_[|as_| - 1]) then [as_[|as_| - 1]] else [])
  }

  /** `ages_found` once both pattern groups are read. */
  function AgesFound(m: Matches): seq<nat> {
    RangeAges(m.ageRanges) + SingleAges(m.singleAges)
  }

  lemma InitLastMembers(xs: seq<nat>)
    requires xs != []
    ensures forall x :: x in xs <==> x in xs[..|xs| - 1] || x == xs[|xs| - 1]
  {
    assert xs == xs[..|xs| - 1] + [xs[|xs| - 1]];
  }

  function Smaller(a: nat, b: nat): nat { if b < a then b else a }

  function Larger(a: nat, b: nat): nat { if b > a then b else a }

  /** Python's `min` of a non-empty list. */
  function SeqMin(xs: seq<nat>): (r: nat)
    requires xs != []
    ensures r in xs && forall x :: x in xs ==> r <= x
  {
    if |xs| == 1 then xs[0]
    else InitLastMembers(xs); Smaller(SeqMin(xs[..|xs| - 1]), xs[|xs| - 1])
  }

  /** Python's `max` of a non-empty list. */
  function SeqMax(xs: seq<nat>): (r: nat)
    requires xs != []
    ensures r in xs && forall x :: x in xs ==> x <= r
  {
    if |xs| == 1 then xs[0]
    else InitLastMembers(xs); Larger(SeqMax(xs[..|xs| - 1]), xs[|xs| - 1])
  }

  /** `course_age_mapping`: keyword, age range and the keyword's `title()`. */
  const CourseAges: seq<(string, string, string)> := [
    ("юный оратор", "7-10", "Юный Оратор"),
    ("эмоциональный компас", "9-12", "Эмоциональный Компас"),
    ("капитан проектов", "11-14", "Капитан Проектов")]

  /** `courses_by_age[age_range] = course_name.title()` for each course named in `t`. */
  function CoursesByAge(t: string, table: seq<(string, string, string)>): map<string, string>
  {
    if table == [] then map[]
    else
      var last := table[|table| - 1];
      if Contains(t, last.0) then CoursesByAge(t, table[..|table| - 1])[last.1 := last.2]
      else CoursesByAge(t, table[..|table| - 1])
  }

  datatype AgeInfo = AgeInfo(
    minAge: Option<nat>, maxAge: Option<nat>, groups: seq<string>, coursesByAge: map<string, string>)

  /** `_extract_age_groups`. */
  function AgeGroups(t: string, m: Matches): AgeInfo
  {
    AgeInfo(
      if AgesFound(m) == [] then None else Some(SeqMin(AgesFound(m))),
      if AgesFound(m) == [] then None else Some(SeqMax(AgesFound(m))),
      Dedup(RangeLabels(m.ageRanges)),
      CoursesByAge(t, CourseAges))
  }

  /** The ages found are the ends of the kept ranges and the single ages in 6..18. */
  lemma {:induction false} RangeAgesMembers(rs: seq<(nat, nat)>)
    ensures forall a :: a in RangeAges(rs) <==> exists i :: 0 <= i < |rs| && KeptRange(rs[i]) && (a == rs[i].0 || a == rs[i].1)
  {
    if rs != [] {
      var init := rs[..|rs| - 1];
      RangeAgesMembers(init);
      forall a ensures a in RangeAges(rs) <==> exists i :: 0 <= i < |rs| && KeptRange(rs[i]) && (a == rs[i].0 || a == rs[i].1) {
        if a in RangeAges(init) {
          var i :| 0 <= i < |init| && KeptRange(init[i]) && (a == init[i].0 || a == init[i].1);
          assert rs[i] == init[i];
        }
        if exists i :: 0 <= i < |rs| && KeptRange(rs[i]) && (a == rs[i].0 || a == rs[i].1) {
          var i :| 0 <= i < |rs| && KeptRange(rs[i]) && (a == rs[i].0 || a == rs[i].1);
          if i < |init| {
            assert init[i] == rs[i];
          }
        }
      }
    }
  }

  lemma {:induction false} SingleAgesMembers(as_: seq<nat>)
    ensures forall a :: a in SingleAges(as_) <==> a in as_ && SingleAge(a)
  {
    if as_ != [] {
      var init := as_[..|as_| - 1];
      SingleAgesMembers(init);
      assert as_ == init + [as_[|as_| - 1]];
    }
  }

  /**
   * Every age found is an end of a kept range or a single age in 6..18, so
   * none exceeds 18; the minimum and maximum are both present or both
   * absent, exactly when some age was found, and bracket every age found.
   */
  lemma AgeBounds(t: string, m: Matches)
    ensures forall a :: a in AgesFound(m) <==>
      (exists i :: 0 <= i < |m.ageRanges| && KeptRange(m.ageRanges[i]) && (a == m.ageRanges[i].0 || a == m.ageRanges[i].1))
      || (a in m.singleAges && SingleAge(a))
    ensures AgeGroups(t, m).minAge.Some? <==> AgesFound(m) != []
    ensures AgeGroups(t, m).maxAge.Some? <==> AgesFound(m) != []
    ensures AgeGroups(t, m).minAge.Some? ==>
      && AgeGroups(t, m).minAge.value <= AgeGroups(t, m).maxAge.value <= 18
      && AgeGroups(t, m).minAge.value in AgesFound(m) && AgeGroups(t, m).maxAge.value in AgesFound(m)
      && forall a :: a in AgesFound(m) ==> AgeGroups(t, m).minAge.value <= a <= AgeGroups(t, m).maxAge.value
  {
    RangeAgesMembers(m.ageRanges);
    SingleAgesMembers(m.singleAges);
  }

  /** The recorded age groups are duplicate-free, and are exactly the labels of the kept ranges. */
  lemma AgeGroupsRecorded(t: string, m: Matches)
    ensures Distinct(AgeGroups(t, m).groups)
    ensures forall l :: l in AgeGroups(t, m).groups <==>
      exists i :: 0 <= i < |m.ageRanges| && KeptRange(m.ageRanges[i]) && l == RangeLabel(m.ageRanges[i])
  {
    DedupShape(RangeLabels(m.ageRanges));
    KeptMembers(m.ageRanges, KeptRange, RangeLabel);
  }

  lemma RangeStep(rs: seq<(nat, nat)>, i: nat)
    requires i < |rs|
    ensures RangeAges(rs[..i + 1]) == RangeAges(rs[..i]) + (if KeptRange(rs[i]) then [rs[i].0, rs[i].1] else [])
  {
    assert rs[..i + 1][..i] == rs[..i];
  }

  /** The loop over the range matches: the recorded groups and the ages they add. */
  method ReadRanges(rs: seq<(nat, nat)>) returns (groups: seq<string>, ages: seq<nat>)
    ensures groups == Dedup(RangeLabels(rs))
    ensures ages == RangeAges(rs)
  {
    groups := [];
    ages := [];
    var i := 0;
    while i < |rs|
      invariant 0 <= i <= |rs|
      invariant groups == Dedup(RangeLabels(rs[..i]))
      invariant ages == RangeAges(rs[..i])
    {
      var r := rs[i];
      RangeStep(rs, i);
      KeptStep(rs, KeptRange, RangeLabel, i);
      if r.0 <= 18 && r.1 <= 18 {
        var ageRange := NatToString(r.0) + "-" + NatToString(r.1);
        DedupSnoc(RangeLabels(rs[..i]), ageRange);
        if ageRange !in groups {
          groups := groups + [ageRange];
        }
        ages := ages + [r.0, r.1];
      } else {
        assert RangeLabels(rs[..i + 1]) == RangeLabels(rs[..i]);
        assert ages + [] == ages;
      }
      i := i + 1;
    }
    assert rs[..i] == rs;
  }

  /** The loop over the single-age matches, appending to `ages`. */
  method ReadSingleAges(ages: seq<nat>, as_: seq<nat>) returns (r: seq<nat>)
    ensures r == ages + SingleAges(as_)
  {
    r := ages;
    var j := 0;
    while j < |as_|
      invariant 0 <= j <= |as_|
      invariant r == ages + SingleAges(as_[..j])
    {
      var age := as_[j];
      assert as_[..j + 1][..j] == as_[..j];
      if 6 <= age <= 18 {
        r := r + [age];
      } else {
        assert r + [] == r;
      }
      j := j + 1;
    }
    assert as_[..j] == as_;
  }

  /** The loop over `course_age_mapping`. */
  method ReadCourseAges(t: string) returns (byAge: map<string, string>)
    ensures byAge == CoursesByAge(t, CourseAges)
  {
    byAge := map[];
    var k := 0;
    while k < |CourseAges|
      invariant 0 <= k <= |CourseAges|
      invariant byAge == CoursesByAge(t, CourseAges[..k])
    {
      assert CourseAges[..k + 1][..k] == CourseAges[..k];
      if Contains(t, CourseAges[k].0) {
        byAge := byAge[CourseAges[k].1 := CourseAges[k].2];
      }
      k := k + 1;
    }
    assert CourseAges[..k] == CourseAges;
  }

  method ExtractAgeGroups(t: string, m: Matches) returns (info: AgeInfo)
    ensures info == AgeGroups(t, m)
  {
    var groups, ages := ReadRanges(m.ageRanges);
    ages := ReadSingleAges(ages, m.singleAges);
    var minAge: Option<nat> := None;
    var maxAge: Option<nat> := None;
    if ages != [] {
      minAge := Some(SeqMin(ages));
      maxAge := Some(SeqMax(ages));
    }
    var byAge := ReadCourseAges(t);
    info := AgeInfo(minAge, maxAge, groups, byAge);
  }

  // ---------------------------------------------------------------------
  // Time parameters

  /** A lesson length the extractor accepts, in minutes. */
  predicate LessonLength(d: nat) { 15 <= d <= 180 }

  /** A duration pattern whose first match is an accepted lesson length. */
  predicate Usable(matches: seq<nat>) { |matches| > 0 && LessonLength(matches[0]) }

  /** The first duration pattern that is usable. */
  function FirstUsable(ms: seq<seq<nat>>): (r: Option<nat>)
    ensures r.Some? ==> r.value < |ms| && Usable(ms[r.value])
                        && forall j :: 0 <= j < r.value ==> !Usable(ms[j])
    ensures r.None? ==> forall j :: 0 <= j < |ms| ==> !Usable(ms[j])
  {
    if ms == [] then None
    else if Usable(ms[0]) then Some(0)
    else match FirstUsable(ms[1..])
      case None => None
      case Some(k) => Some(k + 1)
  }

  /** `lesson_duration`: the first match of the first usable pattern. */
  function LessonDuration(ms: seq<seq<nat>>): Option<nat>
  {
    match FirstUsable(ms)
    case None => None
    case Some(k) => Some(ms[k][0])
  }

  /**
   * A lesson duration is the first match of some pattern and lies in
   * [15, 180], every earlier pattern has no match or a first match outside
   * that range; there is none exactly when no pattern is usable.
   */
  lemma LessonDurationIsFirst(ms: seq<seq<nat>>)
    ensures LessonDuration(ms).Some? ==> LessonLength(LessonDuration(ms).value)
    ensures LessonDuration(ms).Some? ==>
      exists k :: 0 <= k < |ms| && |ms[k]| > 0 && ms[k][0] == LessonDuration(ms).value && forall j :: 0 <= j < k ==> !Usable(ms[j])
    ensures LessonDuration(ms).None? <==> forall j :: 0 <= j < |ms| ==> !Usable(ms[j])
  {
    if FirstUsable(ms).Some? {
      var k := FirstUsable(ms).value;
      assert 0 <= k < |ms| && |ms[k]| > 0 && ms[k][0] == LessonDuration(ms).value;
    }
  }

  /** The duration loop, which stops at the first usable pattern. */
  method FirstLessonDuration(ms: seq<seq<nat>>) returns (duration: Option<nat>)
    ensures duration == LessonDuration(ms)
  {
    var i := 0;
    while i < |ms|
      invariant 0 <= i <= |ms|
      invariant forall j :: 0 <= j < i ==> !Usable(ms[j])
    {
      if |ms[i]| > 0 {
        var d := ms[i][0];
        if 15 <= d <= 180 {
          assert FirstUsable(ms) == Some(i);
          return Some(d);
        }
      }
      i := i + 1;
    }
    return None;
  }

  /** `lessons_per_week`. */
  function LessonsPerWeek(t: string): Option<nat>
  {
    if Contains(t, "2 раза в неделю") || Contains(t, "дважды в неделю") then Some(2)
    else if Contains(t, "раз в неделю") then Some(1)
    else if Contains(t, "3 раза в неделю") then Some(3)
    else None
  }

  /** The matches of all patterns, in pattern order. */
  function Concat<T>(ms: seq<seq<T>>): seq<T>
  {
    if ms == [] then [] else Concat(ms[..|ms| - 1]) + ms[|ms| - 1]
  }

  lemma {:induction false} ConcatMembers<T>(ms: seq<seq<T>>)
    ensures forall x :: x in Concat(ms) <==> exists i :: 0 <= i < |ms| && x in ms[i]
  {
    if ms != [] {
      var init := ms[..|ms| - 1];
      ConcatMembers(init);
      forall x ensures x in Concat(ms) <==> exists i :: 0 <= i < |ms| && x in ms[i] {
        if x in Concat(init) {
          var i :| 0 <= i < |init| && x in init[i];
          assert ms[i] == init[i];
        }
        if exists i :: 0 <= i < |ms| && x in ms[i] {
          var i :| 0 <= i < |ms| && x in ms[i];
          if i < |init| {
            assert init[i] == ms[i];
          }
        }
      }
    }
  }

  /** A course length the extractor accepts, in months. */
  predicate MonthCount(n: nat) { 1 <= n <= 12 }

  function Identity(n: nat): nat { n }

  /** `course_duration_months`: the accepted values of all patterns, each once, in first-seen order. */
  function CourseMonths(ms: seq<seq<nat>>): seq<nat>
  {
    Dedup(Kept(Concat(ms), MonthCount, Identity))
  }

  /**
   * The course lengths are distinct, lie in 1..12, and are exactly the
   * matched values in that range.
   */
  lemma CourseMonthsShape(ms: seq<seq<nat>>)
    ensures Distinct(CourseMonths(ms))
    ensures forall n :: n in CourseMonths(ms) <==> MonthCount(n) && exists i :: 0 <= i < |ms| && n in ms[i]
  {
    var all := Concat(ms);
    DedupShape(Kept(all, MonthCount, Identity));
    KeptMembers(all, MonthCount, Identity);
    ConcatMembers(ms);
    forall n ensures n in CourseMonths(ms) <==> MonthCount(n) && n in all {
      if MonthCount(n) && n in all {
        var i :| 0 <= i < |all| && all[i] == n;
        assert MonthCount(all[i]) && n == Identity(all[i]);
      }
    }
  }

  /** The inner month loop: the matches of one pattern, after those of the earlier ones. */
  method AddMonths(months: seq<nat>, seen: seq<nat>, matches: seq<nat>) returns (r: seq<nat>)
    requires months == Dedup(Kept(seen, MonthCount, Identity))
    ensures r == Dedup(Kept(seen + matches, MonthCount, Identity))
  {
    r := months;
    var j := 0;
    assert seen + matches[..0] == seen;
    while j < |matches|
      invariant 0 <= j <= |matches|
      invariant r == Dedup(Kept(seen + matches[..j], MonthCount, Identity))
    {
      var n := matches[j];
      MonthStep(seen, matches, j);
      if 1 <= n <= 12 && n !in r {
        r := r + [n];
      }
      j := j + 1;
    }
    assert matches[..j] == matches;
  }

  lemma MonthStep(seen: seq<nat>, matches: seq<nat>, j: nat)
    requires j < |matches|
    ensures Dedup(Kept(seen + matches[..j + 1], MonthCount, Identity))
            == if MonthCount(matches[j]) then AddNew(Dedup(Kept(seen + matches[..j], MonthCount, Identity)), matches[j])
               else Dedup(Kept(seen + matches[..j], MonthCount, Identity))
  {
    var s := seen + matches[..j];
    var n := matches[j];
    assert seen + matches[..j + 1] == s + [n];
    KeptStep(s + [n], MonthCount, Identity, |s|);
    assert (s + [n])[..|s|] == s && (s + [n])[..|s| + 1] == s + [n];
    var kept := Kept(s, MonthCount, Identity);
    if MonthCount(n) {
      DedupSnoc(kept, n);
    } else {
      assert kept + [] == kept;
    }
  }

  /** The nested month loops. */
  method CollectMonths(ms: seq<seq<nat>>) returns (months: seq<nat>)
    ensures months == CourseMonths(ms)
  {
    months := [];
    var i := 0;
    while i < |ms|
      invariant 0 <= i <= |ms|
      invariant months == Dedup(Kept(Concat(ms[..i]), MonthCount, Identity))
    {
      months := AddMonths(months, Concat(ms[..i]), ms[i]);
      assert ms[..i + 1][..i] == ms[..i];
      i := i + 1;
    }
    assert ms[..i] == ms;
  }

  /** `[str(m) for m in months]`. */
  function MonthStrings(ns: seq<nat>): (r: seq<string>)
    ensures |r| == |ns|
    ensures forall i :: 0 <= i < |ns| ==> r[i] == NatToString(ns[i])
  {
    if ns == [] then [] else [NatToString(ns[0])] + MonthStrings(ns[1..])
  }

  /** Distinct numbers print as distinct strings. */
  lemma MonthStringsDistinct(ns: seq<nat>)
    requires Distinct(ns)
    ensures Distinct(MonthStrings(ns))
  {
    forall i, j | 0 <= i < j < |ns| ensures MonthStrings(ns)[i] != MonthStrings(ns)[j] {
      if NatToString(ns[i]) == NatToString(ns[j]) {
        NatToStringInjective(ns[i], ns[j]);
      }
    }
  }

  /** The first pattern with a homework match. */
  function FirstNonEmpty(ms: seq<seq<string>>): (r: Option<nat>)
    ensures r.Some? ==> r.value < |ms| && ms[r.value] != [] && forall j :: 0 <= j < r.value ==> ms[j] == []
    ensures r.None? ==> forall j :: 0 <= j < |ms| ==> ms[j] == []
  {
    if ms == [] then None
    else if ms[0] != [] then Some(0)
    else match FirstNonEmpty(ms[1..])
      case None => None
      case Some(k) => Some(k + 1)
  }

  /** `homework_time`: `f"{matches[0]}мин"` of the first pattern with matches. */
  function HomeworkTime(ms: seq<seq<string>>): Option<string>
  {
    match FirstNonEmpty(ms)
    case None => None
    case Some(k) => Some(ms[k][0] + "мин")
  }

  /** The homework loop, which stops at the first pattern with matches. */
  method FirstHomework(ms: seq<seq<string>>) returns (homework: Option<string>)
    ensures homework == HomeworkTime(ms)
  {
    var i := 0;
    while i < |ms|
      invariant 0 <= i <= |ms|
      invariant forall j :: 0 <= j < i ==> ms[j] == []
    {
      if ms[i] != [] {
        assert FirstNonEmpty(ms) == Some(i);
        return Some(ms[i][0] + "мин");
      }
      i := i + 1;
    }
    return None;
  }

  datatype TimeInfo = TimeInfo(
    lessonDuration: Option<nat>, lessonsPerWeek: Option<nat>, courseMonths: seq<nat>,
    scheduleTimes: seq<string>, homeworkTime: Option<string>, groupSizes: seq<string>)

  /** `_extract_time_parameters`. */
  function TimeParameters(t: string, m: Matches): TimeInfo
  {
    TimeInfo(
      LessonDuration(m.lessonMinutes), LessonsPerWeek(t), CourseMonths(m.courseMonths),
      Dedup(m.scheduleTimes), HomeworkTime(m.homework), Dedup(m.groupSizes))
  }

  method ExtractTimeParameters(t: string, m: Matches) returns (info: TimeInfo)
    ensures info == TimeParameters(t, m)
  {
    var lessonDuration := FirstLessonDuration(m.lessonMinutes);
    var lessonsPerWeek: Option<nat> := None;
    if Contains(t, "2 раза в неделю") || Contains(t, "дважды в неделю") {
      lessonsPerWeek := Some(2);
    } else if Contains(t, "раз в неделю") {
      lessonsPerWeek := Some(1);
    } else if Contains(t, "3 раза в неделю") {
      lessonsPerWeek := Some(3);
    }
    var scheduleTimes := DistinctInOrder(m.scheduleTimes);
    var months := CollectMonths(m.courseMonths);
    var homework := FirstHomework(m.homework);
    var groupSizes := DistinctInOrder(m.groupSizes);
    info := TimeInfo(lessonDuration, lessonsPerWeek, months, scheduleTimes, homework, groupSizes);
  }

  // ---------------------------------------------------------------------
  // Courses offered

  /**
   * The literal patterns searched for a course: its name in double quotes,
   * single quotes and guillemets, and bare. The fifth pattern of each
   * course, `курс\s+"?name"?`, matches only where the bare name occurs, so
   * it cannot change the outcome and is left out.
   */
  function Variants(name: string): seq<string> {
    ["\"" + name + "\"", "'" + name + "'", "«" + name + "»", name]
  }

  /** `course_patterns`: each canonical course with the lower-cased name of its patterns. */
  const CourseNames: seq<(string, string)> := [
    ("Юный Оратор", "юный оратор"),
    ("Эмоциональный Компас", "эмоциональный компас"),
    ("Капитан Проектов", "капитан проектов"),
    ("Профессии будущего", "профессии будущего")]

  /** Some pattern of the course is found in `t`. */
  function CourseFound(t: string): ((string, string)) -> bool {
    (c: (string, string)) => ContainsAny(t, Variants(c.1))
  }

  function CanonicalName(c: (string, string)): string { c.0 }

  /** The canonical names of the courses some pattern of which is found, in table order. */
  function CourseHits(t: string, table: seq<(string, string)>): seq<string>
  {
    Kept(table, CourseFound(t), CanonicalName)
  }

  /** `_extract_courses`. */
  function Courses(t: string): seq<string>
  {
    Dedup(CourseHits(t, CourseNames))
  }

  /** A course is found by some pattern exactly when its bare name occurs. */
  lemma VariantsFound(t: string, name: string)
    ensures ContainsAny(t, Variants(name)) <==> Contains(t, name)
  {
    var vs := Variants(name);
    assert Contains(name, name);
    assert vs[3] == name;
    if ContainsAny(t, vs) {
      var i :| 0 <= i < |vs| && Contains(t, vs[i]);
      ContainsMiddle("\"", name, "\"");
      ContainsMiddle("'", name, "'");
      ContainsMiddle("«", name, "»");
      ContainsTransitive(t, vs[i], name);
    }
  }

  /**
   * Each canonical course is listed at most once, and exactly when its
   * name occurs in the lower-cased text.
   */
  lemma CoursesShape(t: string)
    ensures Distinct(Courses(t))
    ensures forall c :: c in Courses(t) <==>
      exists k :: 0 <= k < |CourseNames| && CourseNames[k].0 == c && Contains(t, CourseNames[k].1)
  {
    DedupShape(CourseHits(t, CourseNames));
    KeptMembers(CourseNames, CourseFound(t), CanonicalName);
    forall k | 0 <= k < |CourseNames| ensures CourseFound(t)(CourseNames[k]) <==> Contains(t, CourseNames[k].1) {
      VariantsFound(t, CourseNames[k].1);
    }
  }

  /** The inner pattern loop, which stops at the first pattern found. */
  method SearchPatterns(t: string, patterns: seq<string>) returns (found: bool)
    ensures found <==> ContainsAny(t, patterns)
  {
    var j := 0;
    while j < |patterns|
      invariant 0 <= j <= |patterns|
      invariant forall i :: 0 <= i < j ==> !Contains(t, patterns[i])
    {
      if Contains(t, patterns[j]) {
        return true;
      }
      j := j + 1;
    }
    return false;
  }

  method ExtractCourses(t: string) returns (courses: seq<string>)
    ensures courses == Courses(t)
  {
    courses := [];
    var i := 0;
    while i < |CourseNames|
      invariant 0 <= i <= |CourseNames|
      invariant courses == Dedup(CourseHits(t, CourseNames[..i]))
    {
      var courseName := CourseNames[i].0;
      var found := SearchPatterns(t, Variants(CourseNames[i].1));
      KeptStep(CourseNames, CourseFound(t), CanonicalName, i);
      var hits := CourseHits(t, CourseNames[..i]);
      if found {
        DedupSnoc(hits, courseName);
        if courseName !in courses {
          courses := courses + [courseName];
        }
      } else {
        assert hits + [] == hits;
      }
      i := i + 1;
    }
    assert CourseNames[..i] == CourseNames;
  }

  // ---------------------------------------------------------------------
  // Content category

  const CategoryNames: seq<string> := [
    "условия_обучения", "ценообразование", "курсы", "FAQ", "методология",
    "безопасность_и_доверие", "команда_преподавателей", "результаты_достижения"]

  const CategoryKeywords: seq<seq<string>> := [
    ["расписание", "занятий", "структура", "организация", "условия"],
    ["цена", "стоимость", "грн", "скидка", "оплата", "рассрочка"],
    ["курс", "юный оратор", "эмоциональный компас", "капитан проектов"],
    ["вопрос", "ответ", "faq", "часто задаваемые"],
    ["методология", "подход", "принцип", "метод"],
    ["безопасность", "защита", "доверие", "конфиденциальность"],
    ["преподаватель", "учитель", "тренер", "команда"],
    ["результат", "достижение", "статистика", "успех"]]

  const GeneralInformation := "общая_информация"

  /** `_extract_content_category`: the first category with a keyword in the text. */
  function ContentCategory(t: string): string
  {
    match FirstHit(t, CategoryKeywords)
    case None => GeneralInformation
    case Some(k) => CategoryNames[k]
  }

  /**
   * The category is the `k`-th exactly when one of its keywords occurs and
   * none of an earlier category's does, and it is the general one exactly
   * when no keyword of any category occurs.
   */
  lemma ContentCategoryIsFirst(t: string, k: nat)
    requires k < |CategoryNames|
    ensures ContentCategory(t) == CategoryNames[k] <==>
      ContainsAny(t, CategoryKeywords[k]) && forall j :: 0 <= j < k ==> !ContainsAny(t, CategoryKeywords[j])
    ensures ContentCategory(t) == GeneralInformation <==> forall j :: 0 <= j < |CategoryKeywords| ==> !ContainsAny(t, CategoryKeywords[j])
  {
    assert Distinct(CategoryNames) && GeneralInformation !in CategoryNames;
    if ContainsAny(t, CategoryKeywords[k]) && forall j :: 0 <= j < k ==> !ContainsAny(t, CategoryKeywords[j]) {
      var r := FirstHit(t, CategoryKeywords);
      assert r.Some?;
      assert r.value == k;
    }
  }

  method DetermineCategory(t: string) returns (category: string)
    ensures category == ContentCategory(t)
  {
    var k := 0;
    while k < |CategoryNames|
      invariant 0 <= k <= |CategoryNames|
      invariant forall j :: 0 <= j < k ==> !ContainsAny(t, CategoryKeywords[j])
    {
      var found := SearchPatterns(t, CategoryKeywords[k]);
      if found {
        ContentCategoryIsFirst(t, k);
        return CategoryNames[k];
      }
      k := k + 1;
    }
    ContentCategoryIsFirst(t, 0);
    return GeneralInformation;
  }

  // ---------------------------------------------------------------------
  // Technical requirements

  const Platforms: seq<string> := ["zoom", "miro", "kahoot", "padlet", "trello", "figma", "canva", "slack"]

  const Devices: seq<string> := ["компьютер", "ноутбук", "планшет", "ipad", "windows", "macos"]

  /** `internet_speed`: read only when the text mentions `мбит` and the speed pattern matches. */
  function InternetSpeed(t: string, speed: Option<string>): Option<string>
  {
    if Contains(t, "мбит") && speed.Some? then Some(speed.value + "+ Мбит/с") else None
  }

  datatype TechInfo = TechInfo(
    hasRequirements: bool, platforms: seq<string>, internetSpeed: Option<string>, devices: seq<string>)

  /** The tech findings for a platform table and a device table. */
  function TechOver(t: string, speed: Option<string>, platforms: Table, devices: Table): TechInfo
  {
    TechInfo(
      AnyKeyword(t, platforms) || InternetSpeed(t, speed).Some? || AnyKeyword(t, devices),
      Labels(t, platforms), InternetSpeed(t, speed), Labels(t, devices))
  }

  /** `_extract_tech_requirements`: the flag is raised by a platform, a speed or a device. */
  function TechRequirements(t: string, m: Matches): TechInfo
  {
    TechOver(t, m.speed, Same(Platforms), Same(Devices))
  }

  /**
   * `has_tech_requirements` holds exactly when a platform or a device is
   * listed or the internet speed is set; the platforms listed are exactly
   * those the text names.
   */
  lemma TechFlag(t: string, m: Matches)
    ensures TechRequirements(t, m).hasRequirements <==>
      TechRequirements(t, m).platforms != [] || TechRequirements(t, m).internetSpeed.Some? || TechRequirements(t, m).devices != []
    ensures forall p :: p in TechRequirements(t, m).platforms <==> p in Platforms && Contains(t, p)
  {
    TechOverFlag(t, m.speed, Same(Platforms), Same(Devices));
    SameLabels(t, Platforms);
  }

  lemma TechOverFlag(t: string, speed: Option<string>, platforms: Table, devices: Table)
    ensures TechOver(t, speed, platforms, devices).hasRequirements <==>
      Labels(t, platforms) != [] || InternetSpeed(t, speed).Some? || Labels(t, devices) != []
  {
    LabelsShape(t, platforms);
    LabelsShape(t, devices);
  }

  /** The body of `_extract_tech_requirements`, over its two keyword tables. */
  method ReadTech(t: string, speed: Option<string>, platformTable: Table, deviceTable: Table) returns (info: TechInfo)
    ensures info == TechOver(t, speed, platformTable, deviceTable)
  {
    var platforms, somePlatform := CollectLabels(t, platformTable);
    FlagIsAnyKeyword(t, platformTable, somePlatform);
    var hasRequirements := somePlatform;
    var internetSpeed: Option<string> := None;
    if Contains(t, "мбит") {
      if speed.Some? {
        internetSpeed := Some(speed.value + "+ Мбит/с");
        hasRequirements := true;
      }
    }
    var devices, someDevice := CollectLabels(t, deviceTable);
    FlagIsAnyKeyword(t, deviceTable, someDevice);
    if someDevice {
      hasRequirements := true;
    }
    info := TechInfo(hasRequirements, platforms, internetSpeed, devices);
  }

  method ExtractTechRequirements(t: string, m: Matches) returns (info: TechInfo)
    ensures info == TechRequirements(t, m)
  {
    info := ReadTech(t, m.speed, Same(Platforms), Same(Devices));
  }

  // ---------------------------------------------------------------------
  // Safety

  const SafetyKeywords: Table := [
    ("пароль", "уникальные_пароли"),
    ("камера", "обязательные_веб_камеры"),
    ("согласие", "родительское_согласие"),
    ("модерация", "модерация_активности")]

  const DataKeywords: Table := [
    ("gdpr", "GDPR_соблюдение"),
    ("конфиденциальность", "защита_персональных_данных"),
    ("шифрование", "шифрование_данных")]

  datatype SafetyInfo = SafetyInfo(hasInfo: bool, measures: seq<string>, dataProtection: seq<string>)

  /** `_extract_safety_info`. */
  function Safety(t: string): SafetyInfo
  {
    SafetyInfo(
      AnyKeyword(t, SafetyKeywords) || AnyKeyword(t, DataKeywords),
      Labels(t, SafetyKeywords), Labels(t, DataKeywords))
  }

  /** `has_safety_info` holds exactly when one of the two lists is non-empty. */
  lemma SafetyFlag(t: string)
    ensures Safety(t).hasInfo <==> Safety(t).measures != [] || Safety(t).dataProtection != []
  {
    LabelsShape(t, SafetyKeywords);
    LabelsShape(t, DataKeywords);
  }

  method ExtractSafetyInfo(t: string) returns (info: SafetyInfo)
    ensures info == Safety(t)
  {
    var measures, someMeasure := CollectLabels(t, SafetyKeywords);
    var protection, someProtection := CollectLabels(t, DataKeywords);
    SafetyFlag(t);
    info := SafetyInfo(someMeasure || someProtection, measures, protection);
  }

  // ---------------------------------------------------------------------
  // Achievements

  function Always(s: string): bool { true }

  /** `f"{percentage}%"`. */
  function Percent(s: string): string { s + "%" }

  /** `f"{number}_total"`. */
  function Total(s: string): string { s + "_total" }

  /** Every element kept, so nothing is lost but repetitions. */
  lemma {:induction false} KeptAllLength(xs: seq<string>, f: string -> string)
    ensures |Kept(xs, Always, f)| == |xs|
  {
    if xs != [] {
      KeptAllLength(xs[..|xs| - 1], f);
    }
  }

  datatype AchievementsInfo = AchievementsInfo(hasStatistics: bool, successRates: seq<string>, studentNumbers: seq<string>)

  /** `_extract_achievements`: the flag is raised by any matched rate or head count. */
  function Achievements(m: Matches): AchievementsInfo
  {
    AchievementsInfo(
      m.percentages != [] || m.studentNumbers != [],
      Dedup(Kept(m.percentages, Always, Percent)), Dedup(Kept(m.studentNumbers, Always, Total)))
  }

  /** `has_statistics` holds exactly when one of the two lists is non-empty. */
  lemma AchievementsFlag(m: Matches)
    ensures Achievements(m).hasStatistics <==> Achievements(m).successRates != [] || Achievements(m).studentNumbers != []
  {
    KeptAllLength(m.percentages, Percent);
    KeptAllLength(m.studentNumbers, Total);
    DedupEmpty(Kept(m.percentages, Always, Percent));
    DedupEmpty(Kept(m.studentNumbers, Always, Total));
  }

  /** One statistics loop: rewrite each match, append it when new, and raise the flag. */
  method CollectRewritten(xs: seq<string>, f: string -> string) returns (r: seq<string>, appended: bool)
    ensures r == Dedup(Kept(xs, Always, f))
    ensures appended <==> r != []
  {
    r := [];
    appended := false;
    var i := 0;
    while i < |xs|
      invariant 0 <= i <= |xs|
      invariant r == Dedup(Kept(xs[..i], Always, f))
      invariant appended <==> r != []
    {
      var item := f(xs[i]);
      KeptStep(xs, Always, f, i);
      DedupSnoc(Kept(xs[..i], Always, f), item);
      if item !in r {
        r := r + [item];
        appended := true;
      }
      i := i + 1;
    }
    assert xs[..i] == xs;
  }

  method ExtractAchievements(m: Matches) returns (info: AchievementsInfo)
    ensures info == Achievements(m)
  {
    var rates, someRate := CollectRewritten(m.percentages, Percent);
    var numbers, someNumber := CollectRewritten(m.studentNumbers, Total);
    AchievementsFlag(m);
    info := AchievementsInfo(someRate || someNumber, rates, numbers);
  }

  // ---------------------------------------------------------------------
  // The flat dictionary

  /** The values of the dictionary: strings, flags and lists of strings. */
  datatype Value = Str(s: string) | Flag(b: bool) | Texts(items: seq<string>)

  // The keys, grouped by the update that writes them.
  datatype PricingField = HasPricing | PricesMentioned | DiscountTypes | PaymentMethods | RefundConditions
  datatype NeedsField = HasSpecialNeedsInfo | ConditionsSupported | Adaptations | LearningStyles
  datatype SkillsField = PrimarySkills | SkillsCoursesOffered | SoftSkillsCategories
  datatype AgeField = MinAge | MaxAge | AgeGroupsMentioned
  datatype TimeField =
    LessonDuration | LessonsPerWeek | CourseDurationMonths | ScheduleTimes | HomeworkTime | GroupSizeMentioned
  datatype TechField = HasTechRequirements | PlatformsMentioned | InternetSpeed | Devices
  datatype SafetyField = HasSafetyInfo | SafetyMeasures | DataProtection
  datatype StatsField = HasStatistics | SuccessRates | StudentNumbers

  /** The keys of the dictionary; `KeyName` spells each the way the dictionary does. */
  datatype Key =
    | PricingKey(pf: PricingField)
    | NeedsKey(nf: NeedsField)
    | SkillsKey(sf: SkillsField)
    | AgeKey(af: AgeField)
    | CourseForAge(range: string)
    | TimeKey(tf: TimeField)
    | CoursesOffered
    | ContentCategory
    | TechKey(hf: TechField)
    | SafetyKey(ff: SafetyField)
    | StatsKey(cf: StatsField)

  function KeyName(k: Key): string {
    match k
    case PricingKey(f) => (
      match f
      case HasPricing => "has_pricing"
      case PricesMentioned => "prices_mentioned"
      case DiscountTypes => "discount_types"
      case PaymentMethods => "payment_methods"
      case RefundConditions => "refund_conditions")
    case NeedsKey(f) => (
      match f
      case HasSpecialNeedsInfo => "has_special_needs_info"
      case ConditionsSupported => "conditions_supported"
      case Adaptations => "adaptations"
      case LearningStyles => "learning_styles")
    case SkillsKey(f) => (
      match f
      case PrimarySkills => "primary_skills"
      case SkillsCoursesOffered => "skills_courses_offered"
      case SoftSkillsCategories => "soft_skills_categories")
    case AgeKey(f) => (
      match f
      case MinAge => "min_age"
      case MaxAge => "max_age"
      case AgeGroupsMentioned => "age_groups_mentioned")
    case CourseForAge(r) => "course_for_age_" + r
    case TimeKey(f) => (
      match f
      case LessonDuration => "lesson_duration"
      case LessonsPerWeek => "lessons_per_week"
      case CourseDurationMonths => "course_duration_months"
      case ScheduleTimes => "schedule_times"
      case HomeworkTime => "homework_time"
      case GroupSizeMentioned => "group_size_mentioned")
    case CoursesOffered => "courses_offered"
    case ContentCategory => "content_category"
    case TechKey(f) => (
      match f
      case HasTechRequirements => "has_tech_requirements"
      case PlatformsMentioned => "platforms_mentioned"
      case InternetSpeed => "internet_speed"
      case Devices => "devices")
    case SafetyKey(f) => (
      match f
      case HasSafetyInfo => "has_safety_info"
      case SafetyMeasures => "safety_measures"
      case DataProtection => "data_protection")
    case StatsKey(f) => (
      match f
      case HasStatistics => "has_statistics"
      case SuccessRates => "success_rates"
      case StudentNumbers => "student_numbers")
  }

  type Metadata = map<Key, Value>

  /** `str(x) if x is not None else ""`. */
  function NatField(o: Option<nat>): string {
    match o
    case None => ""
    case Some(n) => NatToString(n)
  }

  /** `x if x is not None else ""`. */
  function TextField(o: Option<string>): string {
    match o
    case None => ""
    case Some(s) => s
  }

  function PricingFields(p: PricingInfo): Metadata {
    map[PricingKey(HasPricing) := Flag(p.hasPricing), PricingKey(PricesMentioned) := Texts(p.prices),
        PricingKey(DiscountTypes) := Texts(p.discounts), PricingKey(PaymentMethods) := Texts(p.payments),
        PricingKey(RefundConditions) := Texts(p.refunds)]
  }

  function NeedsFields(n: SpecialNeedsInfo): Metadata {
    map[NeedsKey(HasSpecialNeedsInfo) := Flag(n.hasInfo), NeedsKey(ConditionsSupported) := Texts(n.conditions),
        NeedsKey(Adaptations) := Texts(n.adaptations), NeedsKey(LearningStyles) := Texts(n.styles)]
  }

  function SkillsFields(k: SkillsInfo): Metadata {
    map[SkillsKey(PrimarySkills) := Texts(k.skills), SkillsKey(SkillsCoursesOffered) := Texts(k.courses),
        SkillsKey(SoftSkillsCategories) := Texts(k.categories)]
  }

  function AgeFields(a: AgeInfo): Metadata {
    map[AgeKey(MinAge) := Str(NatField(a.minAge)), AgeKey(MaxAge) := Str(NatField(a.maxAge)),
        AgeKey(AgeGroupsMentioned) := Texts(a.groups)]
  }

  /** `metadata[f"course_for_age_{age_range}"] = course` for every entry of `courses_by_age`. */
  function CourseAgeFields(byAge: map<string, string>): Metadata {
    map r | r in byAge :: Key.CourseForAge(r) := Str(byAge[r])
  }

  function TimeFields(ti: TimeInfo): Metadata {
    map[TimeKey(TimeField.LessonDuration) := Str(NatField(ti.lessonDuration)),
        TimeKey(TimeField.LessonsPerWeek) := Str(NatField(ti.lessonsPerWeek)),
        TimeKey(CourseDurationMonths) := Texts(MonthStrings(ti.courseMonths)),
        TimeKey(ScheduleTimes) := Texts(ti.scheduleTimes),
        TimeKey(TimeField.HomeworkTime) := Str(TextField(ti.homeworkTime)),
        TimeKey(GroupSizeMentioned) := Texts(ti.groupSizes)]
  }

  function TechFields(h: TechInfo): Metadata {
    map[TechKey(HasTechRequirements) := Flag(h.hasRequirements), TechKey(PlatformsMentioned) := Texts(h.platforms),
        TechKey(TechField.InternetSpeed) := Str(TextField(h.internetSpeed)), TechKey(TechField.Devices) := Texts(h.devices)]
  }

  function SafetyFields(f: SafetyInfo): Metadata {
    map[SafetyKey(HasSafetyInfo) := Flag(f.hasInfo), SafetyKey(SafetyMeasures) := Texts(f.measures),
        SafetyKey(DataProtection) := Texts(f.dataProtection)]
  }

  function AchievementFields(c: AchievementsInfo): Metadata {
    map[StatsKey(HasStatistics) := Flag(c.hasStatistics), StatsKey(SuccessRates) := Texts(c.successRates),
        StatsKey(StudentNumbers) := Texts(c.studentNumbers)]
  }

  /** The results of the ten section extractors, in the order `extract_metadata` calls them. */
  datatype Sections = Sections(
    pricing: PricingInfo, needs: SpecialNeedsInfo, skills: SkillsInfo, ages: AgeInfo, time: TimeInfo,
    courses: seq<string>, category: string, tech: TechInfo, safety: SafetyInfo, achievements: AchievementsInfo)

  /** Every section extractor run on the lower-cased text `t`. */
  function SectionsOf(t: string, m: Matches): Sections {
    Sections(Pricing(t, m), SpecialNeeds(t), Skills(t), AgeGroups(t, m), TimeParameters(t, m),
             Courses(t), ContentCategory(t), TechRequirements(t, m), Safety(t), Achievements(m))
  }

  /**
   * Update `i` of `extract_metadata`, in call order: the ten
   * `metadata.update` / assignment steps, with the `course_for_age_` loop
   * after the age update.
   */
  function Update(s: Sections, i: int): Metadata {
    if i == 0 then PricingFields(s.pricing)
    else if i == 1 then NeedsFields(s.needs)
    else if i == 2 then SkillsFields(s.skills)
    else if i == 3 then AgeFields(s.ages)
    else if i == 4 then CourseAgeFields(s.ages.coursesByAge)
    else if i == 5 then TimeFields(s.time)
    else if i == 6 then map[Key.CoursesOffered := Texts(s.courses)]
    else if i == 7 then map[Key.ContentCategory := Str(s.category)]
    else if i == 8 then TechFields(s.tech)
    else if i == 9 then SafetyFields(s.safety)
    else AchievementFields(s.achievements)
  }

  /** All eleven updates, in call order. */
  function Updates(s: Sections): seq<Metadata> {
    seq(11, i => Update(s, i))
  }

  /** `dict.update` applied in order to an empty dictionary: a later map wins on a shared key. */
  function Merged(ms: seq<Metadata>): Metadata {
    if ms == [] then map[] else Merged(ms[..|ms| - 1]) + ms[|ms| - 1]
  }

  function Fields(s: Sections): Metadata {
    Merged(Updates(s))
  }

  /** `extract_metadata(text)`. */
  function MetadataOf(text: string, m: Matches): Metadata
  {
    Fields(SectionsOf(Lower(text), m))
  }

  lemma MergedPrefix(ms: seq<Metadata>, i: nat)
    requires i < |ms|
    ensures Merged(ms[..i + 1]) == Merged(ms[..i]) + ms[i]
  {
    assert ms[..i + 1][..i] == ms[..i];
  }

  lemma MergedStep(ms: seq<Metadata>, i: nat, acc: Metadata)
    requires i < |ms| && acc == Merged(ms[..i])
    ensures acc + ms[i] == Merged(ms[..i + 1])
  {
    MergedPrefix(ms, i);
  }

  /** A key is in the merged dictionary exactly when some update wrote it. */
  lemma {:induction false} MergedKeys(ms: seq<Metadata>, k: Key)
    ensures k in Merged(ms) <==> exists i :: 0 <= i < |ms| && k in ms[i]
    decreases |ms|
  {
    if ms != [] {
      var init := ms[..|ms| - 1];
      MergedKeys(init, k);
      if k in Merged(init) {
        var i :| 0 <= i < |init| && k in init[i];
        assert k in ms[i];
      }
      if exists i :: 0 <= i < |ms| && k in ms[i] {
        var i :| 0 <= i < |ms| && k in ms[i];
        if i < |init| {
          assert k in init[i];
        }
      }
    }
  }

  /** The merged dictionary holds the value of the last update that wrote the key. */
  lemma {:induction false} MergedLookup(ms: seq<Metadata>, i: nat, k: Key)
    requires i < |ms| && k in ms[i]
    requires forall j :: i < j < |ms| ==> k !in ms[j]
    ensures k in Merged(ms) && Merged(ms)[k] == ms[i][k]
    decreases |ms|
  {
    var init := ms[..|ms| - 1];
    if i < |ms| - 1 {
      assert k in init[i];
      MergedLookup(init, i, k);
    }
  }

  /** The update that writes each key, counting from 0. */
  function Writer(k: Key): nat {
    match k
    case PricingKey(_) => 0
    case NeedsKey(_) => 1
    case SkillsKey(_) => 2
    case AgeKey(_) => 3
    case CourseForAge(_) => 4
    case TimeKey(_) => 5
    case CoursesOffered => 6
    case ContentCategory => 7
    case TechKey(_) => 8
    case SafetyKey(_) => 9
    case StatsKey(_) => 10
  }

  /**
   * The value the dictionary promises under each key, read from its own
   * section: numbers and missing values as strings, month counts written
   * out, and a course title under each age range of `courses_by_age`.
   */
  function FieldOf(s: Sections, k: Key): Option<Value> {
    match k
    case PricingKey(f) => Some(
      match f
      case HasPricing => Flag(s.pricing.hasPricing)
      case PricesMentioned => Texts(s.pricing.prices)
      case DiscountTypes => Texts(s.pricing.discounts)
      case PaymentMethods => Texts(s.pricing.payments)
      case RefundConditions => Texts(s.pricing.refunds))
    case NeedsKey(f) => Some(
      match f
      case HasSpecialNeedsInfo => Flag(s.needs.hasInfo)
      case ConditionsSupported => Texts(s.needs.conditions)
      case Adaptations => Texts(s.needs.adaptations)
      case LearningStyles => Texts(s.needs.styles))
    case SkillsKey(f) => Some(
      match f
      case PrimarySkills => Texts(s.skills.skills)
      case SkillsCoursesOffered => Texts(s.skills.courses)
      case SoftSkillsCategories => Texts(s.skills.categories))
    case AgeKey(f) => Some(
      match f
      case MinAge => Str(NatField(s.ages.minAge))
      case MaxAge => Str(NatField(s.ages.maxAge))
      case AgeGroupsMentioned => Texts(s.ages.groups))
    case CourseForAge(r) => if r in s.ages.coursesByAge then Some(Str(s.ages.coursesByAge[r])) else None
    case TimeKey(f) => Some(
      match f
      case LessonDuration => Str(NatField(s.time.lessonDuration))
      case LessonsPerWeek => Str(NatField(s.time.lessonsPerWeek))
      case CourseDurationMonths => Texts(MonthStrings(s.time.courseMonths))
      case ScheduleTimes => Texts(s.time.scheduleTimes)
      case HomeworkTime => Str(TextField(s.time.homeworkTime))
      case GroupSizeMentioned => Texts(s.time.groupSizes))
    case CoursesOffered => Some(Texts(s.courses))
    case ContentCategory => Some(Str(s.category))
    case TechKey(f) => Some(
      match f
      case HasTechRequirements => Flag(s.tech.hasRequirements)
      case PlatformsMentioned => Texts(s.tech.platforms)
      case InternetSpeed => Str(TextField(s.tech.internetSpeed))
      case Devices => Texts(s.tech.devices))
    case SafetyKey(f) => Some(
      match f
      case HasSafetyInfo => Flag(s.safety.hasInfo)
      case SafetyMeasures => Texts(s.safety.measures)
      case DataProtection => Texts(s.safety.dataProtection))
    case StatsKey(f) => Some(
      match f
      case HasStatistics => Flag(s.achievements.hasStatistics)
      case SuccessRates => Texts(s.achievements.successRates)
      case StudentNumbers => Texts(s.achievements.studentNumbers))
  }

  /** The pricing update writes exactly its own keys, with their values. */
  lemma PricingWrites(s: Sections, k: Key)
    ensures k in PricingFields(s.pricing) <==> Writer(k) == 0 && FieldOf(s, k).Some?
    ensures k in PricingFields(s.pricing) ==> PricingFields(s.pricing)[k] == FieldOf(s, k).value
  {
  }

  /** The special-needs update writes exactly its own keys, with their values. */
  lemma NeedsWrites(s: Sections, k: Key)
    ensures k in NeedsFields(s.needs) <==> Writer(k) == 1 && FieldOf(s, k).Some?
    ensures k in NeedsFields(s.needs) ==> NeedsFields(s.needs)[k] == FieldOf(s, k).value
  {
  }

  /** The skills update writes exactly its own keys, with their values. */
  lemma SkillsWrites(s: Sections, k: Key)
    ensures k in SkillsFields(s.skills) <==> Writer(k) == 2 && FieldOf(s, k).Some?
    ensures k in SkillsFields(s.skills) ==> SkillsFields(s.skills)[k] == FieldOf(s, k).value
  {
  }

  /** The age update writes exactly its own keys, with their values. */
  lemma AgeWrites(s: Sections, k: Key)
    ensures k in AgeFields(s.ages) <==> Writer(k) == 3 && FieldOf(s, k).Some?
    ensures k in AgeFields(s.ages) ==> AgeFields(s.ages)[k] == FieldOf(s, k).value
  {
  }

  /** The `course_for_age_` loop writes exactly its own keys, with their values. */
  lemma CourseAgeWrites(s: Sections, k: Key)
    ensures k in CourseAgeFields(s.ages.coursesByAge) <==> Writer(k) == 4 && FieldOf(s, k).Some?
    ensures k in CourseAgeFields(s.ages.coursesByAge) ==> CourseAgeFields(s.ages.coursesByAge)[k] == FieldOf(s, k).value
  {
  }

  /** The time update writes exactly its own keys, with their values. */
  lemma TimeWrites(s: Sections, k: Key)
    ensures k in TimeFields(s.time) <==> Writer(k) == 5 && FieldOf(s, k).Some?
    ensures k in TimeFields(s.time) ==> TimeFields(s.time)[k] == FieldOf(s, k).value
  {
  }

  /** The `courses_offered` assignment writes exactly its own keys, with their values. */
  lemma CoursesWrites(s: Sections, k: Key)
    ensures k in map[Key.CoursesOffered := Texts(s.courses)] <==> Writer(k) == 6 && FieldOf(s, k).Some?
    ensures k in map[Key.CoursesOffered := Texts(s.courses)] ==> map[Key.CoursesOffered := Texts(s.courses)][k] == FieldOf(s, k).value
  {
  }

  /** The `content_category` assignment writes exactly its own keys, with their values. */
  lemma CategoryWrites(s: Sections, k: Key)
    ensures k in map[Key.ContentCategory := Str(s.category)] <==> Writer(k) == 7 && FieldOf(s, k).Some?
    ensures k in map[Key.ContentCategory := Str(s.category)] ==> map[Key.ContentCategory := Str(s.category)][k] == FieldOf(s, k).value
  {
  }

  /** The technical update writes exactly its own keys, with their values. */
  lemma TechWrites(s: Sections, k: Key)
    ensures k in TechFields(s.tech) <==> Writer(k) == 8 && FieldOf(s, k).Some?
    ensures k in TechFields(s.tech) ==> TechFields(s.tech)[k] == FieldOf(s, k).value
  {
  }

  /** The safety update writes exactly its own keys, with their values. */
  lemma SafetyWrites(s: Sections, k: Key)
    ensures k in SafetyFields(s.safety) <==> Writer(k) == 9 && FieldOf(s, k).Some?
    ensures k in SafetyFields(s.safety) ==> SafetyFields(s.safety)[k] == FieldOf(s, k).value
  {
  }

  /** The statistics update writes exactly its own keys, with their values. */
  lemma AchievementWrites(s: Sections, k: Key)
    ensures k in AchievementFields(s.achievements) <==> Writer(k) == 10 && FieldOf(s, k).Some?
    ensures k in AchievementFields(s.achievements) ==> AchievementFields(s.achievements)[k] == FieldOf(s, k).value
  {
  }

  /**
   * No two updates write the same key: update `i` writes exactly the keys
   * whose writer is `i` (for the age-range loop, the ranges present), and
   * stores the value `FieldOf` gives.
   */
  lemma UpdateWrites(s: Sections, i: nat, k: Key)
    requires i < 11
    ensures k in Update(s, i) <==> Writer(k) == i && FieldOf(s, k).Some?
    ensures k in Update(s, i) ==> Update(s, i)[k] == FieldOf(s, k).value
  {
    if i == 0 {
      PricingWrites(s, k);
    } else if i == 1 {
      NeedsWrites(s, k);
    } else if i == 2 {
      SkillsWrites(s, k);
    } else if i == 3 {
      AgeWrites(s, k);
    } else if i == 4 {
      CourseAgeWrites(s, k);
    } else if i == 5 {
      TimeWrites(s, k);
    } else if i == 6 {
      CoursesWrites(s, k);
    } else if i == 7 {
      CategoryWrites(s, k);
    } else if i == 8 {
      TechWrites(s, k);
    } else if i == 9 {
      SafetyWrites(s, k);
    } else {
      AchievementWrites(s, k);
    }
  }

  /** The merged dictionary holds, under each key, exactly the value `FieldOf` promises. */
  lemma FieldsAgree(s: Sections, k: Key)
    ensures k in Fields(s) <==> FieldOf(s, k).Some?
    ensures k in Fields(s) ==> Fields(s)[k] == FieldOf(s, k).value
  {
    var ups := Updates(s);
    assert |ups| == 11;
    forall j | 0 <= j < |ups|
      ensures k in ups[j] <==> Writer(k) == j && FieldOf(s, k).Some?
      ensures k in ups[j] ==> ups[j][k] == FieldOf(s, k).value
    {
      UpdateWrites(s, j, k);
    }
    MergedKeys(ups, k);
    if FieldOf(s, k).Some? {
      assert Writer(k) < |ups|;
      MergedLookup(ups, Writer(k), k);
    }
  }

  /** No two updates write the same key, so none overwrites another's field. */
  lemma UpdatesDisjoint(s: Sections, i: nat, j: nat, k: Key)
    requires i < 11 && j < 11 && k in Update(s, i) && k in Update(s, j)
    ensures i == j
  {
    UpdateWrites(s, i, k);
    UpdateWrites(s, j, k);
  }

  /**
   * The keys of the dictionary: every fixed key, and `course_for_age_<range>`
   * for exactly the ranges of `courses_by_age`.
   */
  lemma FieldsKeys(s: Sections, k: Key)
    ensures k in Fields(s) <==> (k.CourseForAge? ==> k.range in s.ages.coursesByAge)
  {
    FieldsAgree(s, k);
  }

  /** The flags of the dictionary: the five `has_*` keys. */
  predicate FlagKey(k: Key) {
    k in {PricingKey(HasPricing), NeedsKey(HasSpecialNeedsInfo), TechKey(HasTechRequirements),
          SafetyKey(HasSafetyInfo), StatsKey(HasStatistics)}
  }

  /** The single strings: the numbers, the optional texts, the category and every course title. */
  predicate StrKey(k: Key) {
    k.CourseForAge? ||
    k in {AgeKey(MinAge), AgeKey(MaxAge), TimeKey(TimeField.LessonDuration), TimeKey(TimeField.LessonsPerWeek),
          TimeKey(TimeField.HomeworkTime), TechKey(TechField.InternetSpeed), Key.ContentCategory}
  }

  /**
   * The dictionary is flat: each value is a flag, a string or a list of
   * strings, and which one is fixed by its key.
   */
  lemma FieldsFlat(s: Sections, k: Key)
    requires k in Fields(s)
    ensures Fields(s)[k].Flag? <==> FlagKey(k)
    ensures Fields(s)[k].Str? <==> StrKey(k)
    ensures Fields(s)[k].Texts? <==> !FlagKey(k) && !StrKey(k)
  {
    FieldsAgree(s, k);
  }

  method ExtractSections(t: string, m: Matches) returns (s: Sections)
    ensures s == SectionsOf(t, m)
  {
    var pricing := ExtractPricingInfo(t, m);
    var needs := ExtractSpecialNeeds(t);
    var skills := ExtractSkills(t);
    var ages := ExtractAgeGroups(t, m);
    var time := ExtractTimeParameters(t, m);
    var courses := ExtractCourses(t);
    var category := DetermineCategory(t);
    var tech := ExtractTechRequirements(t, m);
    var safety := ExtractSafetyInfo(t);
    var achievements := ExtractAchievements(m);
    s := Sections(pricing, needs, skills, ages, time, courses, category, tech, safety, achievements);
  }

  /**
   * The dictionary filled by the eleven updates of `extract_metadata`,
   * taken in call order.
   */
  method UpdateFields(s: Sections) returns (metadata: Metadata)
    ensures metadata == Fields(s)
  {
    ghost var ups := Updates(s);
    metadata := map[];
    assert ups[..0] == [];
    for i := 0 to 11
      invariant metadata == Merged(ups[..i])
    {
      MergedStep(ups, i, metadata);
      metadata := metadata + Update(s, i);
    }
    assert ups[..11] == ups;
  }

  method ExtractMetadata(text: string, m: Matches) returns (metadata: Metadata)
    ensures metadata == MetadataOf(text, m)
  {
    var t := Lower(text);
    var sections := ExtractSections(t, m);
    metadata := UpdateFields(sections);
  }
}
