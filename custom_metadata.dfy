/**
 * The custom metadata extractor for index nodes: a node's text is matched
 * case-insensitively against the extractor's keyword tables, and the
 * findings are merged into the node's metadata dictionary.
 *
 * Every pattern of the tables is a literal string, so `re.search(p, text,
 * re.IGNORECASE)` is containment after lower-casing both sides.
 */
module CustomMetadata {
  import opened Text

  /** `re.search(p, text, re.IGNORECASE)` for a literal pattern `p`. */
  predicate CiContains(text: string, p: string) {
    Contains(Lower(text), Lower(p))
  }

  /** Some pattern of `ps` is found in `text`, ignoring case. */
  predicate CiContainsAny(text: string, ps: seq<string>) {
    exists i :: 0 <= i < |ps| && CiContains(text, ps[i])
  }

  // ---------------------------------------------------------------------
  // Tables

  /**
   * The tables the extractor's constructor sets: the courses and the
   * variants searched for each, the content types and their patterns (both
   * in insertion order), and the pattern lists of the three flags.
   */
  datatype Tables = Tables(
    courseNames: seq<string>, courseVariants: seq<seq<string>>,
    contentTypes: seq<string>, contentPatterns: seq<seq<string>>,
    pricingPatterns: seq<string>, teacherPatterns: seq<string>,
    teacherNames: seq<string>, faqPatterns: seq<string>)

  /** Every course has its variants and every content type its patterns. */
  predicate WellFormed(tb: Tables) {
    |tb.courseNames| == |tb.courseVariants| && |tb.contentTypes| == |tb.contentPatterns|
  }

  const Pricing := "pricing"
  const General := "general"

  const UkidoTables: Tables := Tables(
    courseNames := ["Капитан Проектов", "Юный Оратор", "Эмоциональный Компас"],
    courseVariants := [
      ["Капитан Проектов", "Капитан", "капитан проектов", "капитан"],
      ["Юный Оратор", "Оратор", "юный оратор", "оратор"],
      ["Эмоциональный Компас", "Компас", "эмоциональный компас", "компас"]],
    contentTypes := [Pricing, "teachers", "faq", "schedule", "course_description"],
    contentPatterns := [
      ["грн", "оплат", "стоимост", "цен", "скидк", "тариф", "руб", "₴", "₽"],
      ["КВАЛИФИКАЦИЯ", "ОПЫТ РАБОТЫ", "ОБРАЗОВАНИЕ:", "преподаватель", "тренер", "ментор"],
      ["Q:", "A:", "Вопрос:", "Ответ:", "Часто задаваемые", "FAQ"],
      ["расписание", "время", "дата", "занятие", "урок", "час"],
      ["программа", "курс", "обучение", "модуль", "урок"]],
    pricingPatterns := ["грн", "оплат", "стоимост", "цен", "скидк"],
    teacherPatterns := ["КВАЛИФИКАЦИЯ", "ОПЫТ РАБОТЫ", "ОБРАЗОВАНИЕ:", "преподаватель", "тренер", "ментор"],
    teacherNames := ["Анна Коваленко", "Дмитрий Петров", "Елена Сидорова"],
    faqPatterns := ["Q:", "A:", "Вопрос:", "Ответ:"])

  // ---------------------------------------------------------------------
  // What the extractor computes

  /** The first group of `table` with a pattern found in `text`, ignoring case. */
  function FirstGroup(text: string, table: seq<seq<string>>): (r: Option<nat>)
    ensures r.Some? ==> r.value < |table| && CiContainsAny(text, table[r.value])
                        && forall j :: 0 <= j < r.value ==> !CiContainsAny(text, table[j])
    ensures r.None? ==> forall j :: 0 <= j < |table| ==> !CiContainsAny(text, table[j])
  {
    if table == [] then None
    else if CiContainsAny(text, table[0]) then Some(0)
    else match FirstGroup(text, table[1..])
      case None => None
      case Some(k) => Some(k + 1)
  }

  /** `_determine_content_type`: the first type whose patterns hit the lower-cased text, else `general`. */
  function ContentType(tb: Tables, text: string): string
    requires WellFormed(tb)
  {
    match FirstGroup(Lower(text), tb.contentPatterns)
    case None => General
    case Some(k) => tb.contentTypes[k]
  }

  /** `_has_pricing_info`, which also searches the lower-cased text. */
  predicate HasPricing(tb: Tables, text: string) {
    CiContainsAny(Lower(text), tb.pricingPatterns)
  }

  /** `_is_teacher_info`: a teacher pattern or a teacher's name. */
  predicate IsTeacher(tb: Tables, text: string) {
    CiContainsAny(text, tb.teacherPatterns) || CiContainsAny(text, tb.teacherNames)
  }

  /** `_is_faq`. */
  predicate IsFaqText(tb: Tables, text: string) {
    CiContainsAny(text, tb.faqPatterns)
  }

  /**
   * The courses among the first `n` with a variant in the text, in table
   * order, each added only if not already listed. Both patterns searched
   * per variant, the variant with optional quotes around it and the bare
   * variant, match exactly where the variant occurs.
   */
  function CoursesAmong(tb: Tables, text: string, n: nat): seq<string>
    requires WellFormed(tb) && n <= |tb.courseNames|
  {
    if n == 0 then []
    else
      CoursesAmong(tb, text, n - 1)
        + (if CiContainsAny(text, tb.courseVariants[n - 1]) && tb.courseNames[n - 1] !in CoursesAmong(tb, text, n - 1)
           then [tb.courseNames[n - 1]] else [])
  }

  /** `_find_mentioned_courses`. */
  function MentionedCourses(tb: Tables, text: string): seq<string>
    requires WellFormed(tb)
  {
    CoursesAmong(tb, text, |tb.courseNames|)
  }

  /** A metadata value: a string, a flag, a count or a list of names. */
  datatype MetaValue = Str(s: string) | Flag(b: bool) | Count(n: nat) | Names(names: seq<string>)

  type Metadata = map<string, MetaValue>

  const MetadataKeys: set<string> := {"content_type", "has_pricing", "course_mentioned", "is_teacher_info", "is_faq", "text_length", "has_courses"}

  /** `_extract_metadata_from_text`. */
  function ExtractedMetadata(tb: Tables, text: string): Metadata
    requires WellFormed(tb)
  {
    map["content_type" := Str(ContentType(tb, text)),
        "has_pricing" := Flag(HasPricing(tb, text)),
        "course_mentioned" := Names(MentionedCourses(tb, text)),
        "is_teacher_info" := Flag(IsTeacher(tb, text)),
        "is_faq" := Flag(IsFaqText(tb, text)),
        "text_length" := Count(|text|),
        "has_courses" := Flag(|MentionedCourses(tb, text)| > 0)]
  }

  /** What `extract` reports for a node with text `text`: nothing for an empty text. */
  function Reported(tb: Tables, text: string): Metadata
    requires WellFormed(tb)
  {
    if text == "" then map[] else ExtractedMetadata(tb, text)
  }

  /** The metadata a node ends with: its own, overwritten by the extracted keys. */
  function Merged(tb: Tables, old_: Metadata, text: string): Metadata
    requires WellFormed(tb)
  {
    if text == "" then old_ else old_ + ExtractedMetadata(tb, text)
  }

  // ---------------------------------------------------------------------
  // The extractor

  /** The search loop shared by the matchers: is some pattern found, ignoring case? */
  method SearchAny(text: string, patterns: seq<string>) returns (found: bool)
    ensures found == CiContainsAny(text, patterns)
  {
    var k := 0;
    while k < |patterns|
      invariant 0 <= k <= |patterns|
      invariant forall j :: 0 <= j < k ==> !CiContains(text, patterns[j])
    {
      if CiContains(text, patterns[k]) {
        return true;
      }
      k := k + 1;
    }
    return false;
  }

  /** An index node: its text and its metadata dictionary. */
  class Node {
    var text: string
    var metadata: Metadata

    constructor (text: string, metadata: Metadata)
      ensures this.text == text && this.metadata == metadata
    {
      this.text := text;
      this.metadata := metadata;
    }
  }

  class CustomMetadataExtractor {
    const tables: Tables

    predicate Valid() {
      WellFormed(tables)
    }

    constructor ()
      ensures tables == UkidoTables && Valid()
    {
      tables := UkidoTables;
    }

    method DetermineContentType(text: string) returns (contentType: string)
      requires Valid()
      ensures contentType == ContentType(tables, text)
    {
      var textLower := Lower(text);
      var t := 0;
      while t < |tables.contentPatterns|
        invariant 0 <= t <= |tables.contentPatterns|
        invariant forall j :: 0 <= j < t ==> !CiContainsAny(textLower, tables.contentPatterns[j])
      {
        var patterns := tables.contentPatterns[t];
        var k := 0;
        while k < |patterns|
          invariant 0 <= k <= |patterns|
          invariant forall j :: 0 <= j < k ==> !CiContains(textLower, patterns[j])
        {
          if CiContains(textLower, patterns[k]) {
            FirstGroupIs(textLower, tables.contentPatterns, t);
            return tables.contentTypes[t];
          }
          k := k + 1;
        }
        t := t + 1;
      }
      return General;
    }

    method HasPricingInfo(text: string) returns (r: bool)
      ensures r == HasPricing(tables, text)
    {
      var textLower := Lower(text);
      r := SearchAny(textLower, tables.pricingPatterns);
    }

    method FindMentionedCourses(text: string) returns (mentionedCourses: seq<string>)
      requires Valid()
      ensures mentionedCourses == MentionedCourses(tables, text)
    {
      mentionedCourses := [];
      var c := 0;
      while c < |tables.courseNames|
        invariant 0 <= c <= |tables.courseNames|
        invariant mentionedCourses == CoursesAmong(tables, text, c)
      {
        var found := SearchAny(text, tables.courseVariants[c]);
        if found && tables.courseNames[c] !in mentionedCourses {
          mentionedCourses := mentionedCourses + [tables.courseNames[c]];
        }
        c := c + 1;
      }
    }

    method IsTeacherInfo(text: string) returns (r: bool)
      ensures r == IsTeacher(tables, text)
    {
      r := SearchAny(text, tables.teacherPatterns);
      if !r {
        r := SearchAny(text, tables.teacherNames);
      }
    }

    method IsFaq(text: string) returns (r: bool)
      ensures r == IsFaqText(tables, text)
    {
      r := SearchAny(text, tables.faqPatterns);
    }

    method ExtractMetadataFromText(text: string) returns (metadata: Metadata)
      requires Valid()
      ensures metadata == ExtractedMetadata(tables, text)
    {
      metadata := map[];
      var contentType := DetermineContentType(text);
      metadata := metadata["content_type" := Str(contentType)];
      var hasPricing := HasPricingInfo(text);
      metadata := metadata["has_pricing" := Flag(hasPricing)];
      var courses := FindMentionedCourses(text);
      metadata := metadata["course_mentioned" := Names(courses)];
      var teacher := IsTeacherInfo(text);
      metadata := metadata["is_teacher_info" := Flag(teacher)];
      var faq := IsFaq(text);
      metadata := metadata["is_faq" := Flag(faq)];
      metadata := metadata["text_length" := Count(|text|)];
      metadata := metadata["has_courses" := Flag(|courses| > 0)];
    }

    /**
     * `extract`: one report per node, in order; every node with text gains
     * the extracted keys over its own metadata, and texts do not change.
     */
    method Extract(nodes: seq<Node>) returns (metadataList: seq<Metadata>)
      requires Valid()
      modifies set n | n in nodes
      ensures |metadataList| == |nodes|
      ensures forall i :: 0 <= i < |nodes| ==> metadataList[i] == Reported(tables, nodes[i].text)
      ensures forall n :: n in nodes ==> n.text == old(n.text) && n.metadata == Merged(tables, old(n.metadata), n.text)
    {
      metadataList := [];
      ghost var done: set<Node> := {};
      var i := 0;
      while i < |nodes|
        invariant 0 <= i <= |nodes|
        invariant |metadataList| == i
        invariant forall k :: 0 <= k < i ==> nodes[k] in done && metadataList[k] == Reported(tables, nodes[k].text)
        invariant forall n :: n in nodes ==> n.text == old(n.text) && n.metadata == if n in done then Merged(tables, old(n.metadata), n.text) else old(n.metadata)
      {
        var node := nodes[i];
        MergedIdempotent(tables, old(node.metadata), node.text);
        var report := ExtractNode(node);
        metadataList := metadataList + [report];
        done := done + {node};
        i := i + 1;
      }
    }

    /** The loop body for one node: report its metadata and merge it into the node. */
    method ExtractNode(node: Node) returns (report: Metadata)
      requires Valid()
      modifies node
      ensures node.text == old(node.text)
      ensures report == Reported(tables, node.text)
      ensures node.metadata == Merged(tables, old(node.metadata), node.text)
    {
      var text := node.text;
      if text == "" {
        return map[];
      }
      var extractedMetadata := ExtractMetadataFromText(text);
      if node.metadata != map[] {
        node.metadata := node.metadata + extractedMetadata;
      } else {
        node.metadata := extractedMetadata;
      }
      report := extractedMetadata;
    }
  }

  // ---------------------------------------------------------------------
  // Properties for any tables

  /** The first group with a hit, all earlier ones without, is the one `FirstGroup` finds. */
  lemma FirstGroupIs(text: string, table: seq<seq<string>>, t: nat)
    requires t < |table| && CiContainsAny(text, table[t])
    requires forall j :: 0 <= j < t ==> !CiContainsAny(text, table[j])
    ensures FirstGroup(text, table) == Some(t)
  {
  }

  /** Lower-casing before an ignore-case search changes nothing. */
  lemma CiContainsAnyLowered(text: string, ps: seq<string>)
    ensures CiContainsAny(Lower(text), ps) <==> CiContainsAny(text, ps)
  {
    LowerIdempotent(text);
  }

  /**
   * The content type is the first type in table order with a pattern in
   * the text itself, ignoring case, and `general` when no pattern of any
   * type is there.
   */
  lemma ContentTypeFirst(tb: Tables, text: string)
    requires WellFormed(tb)
    ensures (forall j :: 0 <= j < |tb.contentPatterns| ==> !CiContainsAny(text, tb.contentPatterns[j])) ==> ContentType(tb, text) == General
    ensures forall t :: 0 <= t < |tb.contentTypes| && CiContainsAny(text, tb.contentPatterns[t])
                        && (forall j :: 0 <= j < t ==> !CiContainsAny(text, tb.contentPatterns[j])) ==>
      ContentType(tb, text) == tb.contentTypes[t]
  {
    forall j | 0 <= j < |tb.contentPatterns| ensures CiContainsAny(Lower(text), tb.contentPatterns[j]) <==> CiContainsAny(text, tb.contentPatterns[j]) {
      CiContainsAnyLowered(text, tb.contentPatterns[j]);
    }
  }

  /**
   * `r` is courses of the first `n` hit by the text, in table order:
   * position `i` is course `idx[i]`, whose variants hit the text, and the
   * positions increase.
   */
  predicate IndexedBy(tb: Tables, text: string, n: nat, r: seq<string>, idx: seq<nat>)
    requires WellFormed(tb) && n <= |tb.courseNames|
  {
    && |idx| == |r|
    && (forall i :: 0 <= i < |idx| ==> idx[i] < n && r[i] == tb.courseNames[idx[i]] && CiContainsAny(text, tb.courseVariants[idx[i]]))
    && (forall i, j :: 0 <= i < j < |idx| ==> idx[i] < idx[j])
  }

  /** Every course among the first `n` that the text hits is in `r`. */
  predicate ListsHits(tb: Tables, text: string, n: nat, r: seq<string>)
    requires WellFormed(tb) && n <= |tb.courseNames|
  {
    forall k :: 0 <= k < n && CiContainsAny(text, tb.courseVariants[k]) ==> tb.courseNames[k] in r
  }

  /**
   * The mentioned courses hold no duplicates and are in table order, and
   * every course whose variants hit is listed.
   */
  lemma {:induction false} CoursesAmongShape(tb: Tables, text: string, n: nat) returns (idx: seq<nat>)
    requires WellFormed(tb) && n <= |tb.courseNames|
    ensures Distinct(CoursesAmong(tb, text, n))
    ensures IndexedBy(tb, text, n, CoursesAmong(tb, text, n), idx)
    ensures ListsHits(tb, text, n, CoursesAmong(tb, text, n))
  {
    if n == 0 {
      return [];
    }
    var idx0 := CoursesAmongShape(tb, text, n - 1);
    var prev := CoursesAmong(tb, text, n - 1);
    var name := tb.courseNames[n - 1];
    if CiContainsAny(text, tb.courseVariants[n - 1]) && name !in prev {
      idx := idx0 + [n - 1];
      assert CoursesAmong(tb, text, n) == prev + [name];
      CourseAdded(tb, text, n, prev, idx0);
    } else {
      idx := idx0;
      assert CoursesAmong(tb, text, n) == prev;
      CourseSkipped(tb, text, n, prev, idx0);
    }
  }

  lemma CourseAdded(tb: Tables, text: string, n: nat, prev: seq<string>, idx0: seq<nat>)
    requires WellFormed(tb) && 0 < n <= |tb.courseNames|
    requires CiContainsAny(text, tb.courseVariants[n - 1]) && tb.courseNames[n - 1] !in prev
    requires Distinct(prev) && IndexedBy(tb, text, n - 1, prev, idx0) && ListsHits(tb, text, n - 1, prev)
    ensures Distinct(prev + [tb.courseNames[n - 1]])
    ensures IndexedBy(tb, text, n, prev + [tb.courseNames[n - 1]], idx0 + [n - 1])
    ensures ListsHits(tb, text, n, prev + [tb.courseNames[n - 1]])
  {
  }

  lemma CourseSkipped(tb: Tables, text: string, n: nat, prev: seq<string>, idx0: seq<nat>)
    requires WellFormed(tb) && 0 < n <= |tb.courseNames|
    requires CiContainsAny(text, tb.courseVariants[n - 1]) ==> tb.courseNames[n - 1] in prev
    requires IndexedBy(tb, text, n - 1, prev, idx0) && ListsHits(tb, text, n - 1, prev)
    ensures IndexedBy(tb, text, n, prev, idx0)
    ensures ListsHits(tb, text, n, prev)
  {
  }

  lemma MentionedCoursesShape(tb: Tables, text: string)
    requires WellFormed(tb)
    ensures Distinct(MentionedCourses(tb, text))
    ensures forall c :: c in MentionedCourses(tb, text) <==>
      exists k :: 0 <= k < |tb.courseNames| && c == tb.courseNames[k] && CiContainsAny(text, tb.courseVariants[k])
  {
    var r := MentionedCourses(tb, text);
    var idx := CoursesAmongShape(tb, text, |tb.courseNames|);
    forall c | c in r ensures exists k :: 0 <= k < |tb.courseNames| && c == tb.courseNames[k] && CiContainsAny(text, tb.courseVariants[k]) {
      var i :| 0 <= i < |r| && r[i] == c;
      assert c == tb.courseNames[idx[i]];
    }
  }

  /**
   * The extracted metadata has exactly the seven keys; `has_courses` says
   * whether a course was mentioned and `text_length` is the text's length.
   */
  lemma ExtractedMetadataShape(tb: Tables, text: string)
    requires WellFormed(tb)
    ensures ExtractedMetadata(tb, text).Keys == MetadataKeys
    ensures ExtractedMetadata(tb, text)["has_courses"] == Flag(ExtractedMetadata(tb, text)["course_mentioned"].names != [])
    ensures ExtractedMetadata(tb, text)["text_length"] == Count(|text|)
  {
  }

  /** Merging twice is merging once, so a node listed twice ends as if listed once. */
  lemma MergedIdempotent(tb: Tables, m: Metadata, text: string)
    requires WellFormed(tb)
    ensures Merged(tb, Merged(tb, m, text), text) == Merged(tb, m, text)
  {
  }

  // ---------------------------------------------------------------------
  // Properties of the extractor's own tables

  /** A pattern of a sub-table found in a text is a pattern of the table found there. */
  lemma SubTableHit(text: string, ps: seq<string>, qs: seq<string>)
    requires |ps| <= |qs| && ps == qs[..|ps|]
    requires CiContainsAny(text, ps)
    ensures CiContainsAny(text, qs)
  {
    var i :| 0 <= i < |ps| && CiContains(text, ps[i]);
    assert qs[i] == ps[i];
  }

  /** The pricing patterns begin the pricing content type, so a text with pricing is of type `pricing`. */
  lemma PricingIsPricingType(text: string)
    requires HasPricing(UkidoTables, text)
    ensures ContentType(UkidoTables, text) == Pricing
    ensures ExtractedMetadata(UkidoTables, text)["has_pricing"] == Flag(true)
    ensures ExtractedMetadata(UkidoTables, text)["content_type"] == Str(Pricing)
  {
    var tb := UkidoTables;
    assert tb.pricingPatterns == tb.contentPatterns[0][..|tb.pricingPatterns|];
    SubTableHit(Lower(text), tb.pricingPatterns, tb.contentPatterns[0]);
    FirstGroupIs(Lower(text), tb.contentPatterns, 0);
  }

  /** The teacher patterns are the teachers content type's, so a text they hit is of type pricing or teachers. */
  lemma TeacherPatternsType(text: string)
    requires CiContainsAny(text, UkidoTables.teacherPatterns)
    ensures ContentType(UkidoTables, text) in [Pricing, "teachers"]
  {
    var tb := UkidoTables;
    var lower := Lower(text);
    CiContainsAnyLowered(text, tb.teacherPatterns);
    assert tb.teacherPatterns == tb.contentPatterns[1];
    if CiContainsAny(lower, tb.contentPatterns[0]) {
      FirstGroupIs(lower, tb.contentPatterns, 0);
    } else {
      FirstGroupIs(lower, tb.contentPatterns, 1);
    }
  }

  /** The FAQ patterns begin the faq content type, so an FAQ text is of type pricing, teachers or faq. */
  lemma FaqType(text: string)
    requires IsFaqText(UkidoTables, text)
    ensures ContentType(UkidoTables, text) in [Pricing, "teachers", "faq"]
  {
    var tb := UkidoTables;
    var lower := Lower(text);
    CiContainsAnyLowered(text, tb.faqPatterns);
    assert tb.faqPatterns == tb.contentPatterns[2][..|tb.faqPatterns|];
    SubTableHit(lower, tb.faqPatterns, tb.contentPatterns[2]);
    if CiContainsAny(lower, tb.contentPatterns[0]) {
      FirstGroupIs(lower, tb.contentPatterns, 0);
    } else if CiContainsAny(lower, tb.contentPatterns[1]) {
      FirstGroupIs(lower, tb.contentPatterns, 1);
    } else {
      FirstGroupIs(lower, tb.contentPatterns, 2);
    }
  }
}
