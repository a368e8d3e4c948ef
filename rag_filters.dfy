// The keyword analysis that tags a retrieval query with a topic category
// before the knowledge base is searched.

module RagFilters {
  import opened Text

  datatype Intent = Intent(category: string, needsSpecific: bool)

  const PricingWords: seq<string> := ["цена", "стоим", "скидк", "оплат", "тариф", "деньг", "грн"]
  const TeacherWords: seq<string> := ["преподават", "учител", "педагог", "тренер", "наставник"]
  const ExperienceWords: seq<string> := ["опыт", "стаж", "лет работ", "квалификац"]
  const SpecialNeedsWords: seq<string> := ["болезн", "диабет", "аутизм", "сдвг", "особенност", "инвалид"]
  const CourseWords: seq<string> := ["капитан проект", "юный оратор", "эмоциональн"]
  const TechnicalWords: seq<string> := ["linux", "windows", "техническ", "компьютер", "интернет", "4g"]

  /** `SmartQueryFilter.analyze_query_intent`: the first keyword group present decides. */
  function AnalyzeQueryIntent(query: string): (r: Intent)
    ensures r.needsSpecific <==> r.category != "general"
  {
    var lower := Lower(query);
    if ContainsAny(lower, PricingWords) then Intent("pricing", true)
    else if ContainsAny(lower, TeacherWords) then
      if ContainsAny(lower, ExperienceWords) then Intent("teacher_experience", true)
      else Intent("teachers", true)
    else if ContainsAny(lower, SpecialNeedsWords) then Intent("special_needs", true)
    else if ContainsAny(lower, CourseWords) then Intent("courses", true)
    else if ContainsAny(lower, TechnicalWords) then Intent("technical", true)
    else Intent("general", false)
  }

  // An independent reading of the cascade as a table of keyword groups
  // tried in order.

  const GroupWords: seq<seq<string>> := [PricingWords, TeacherWords, SpecialNeedsWords, CourseWords, TechnicalWords]
  const GroupNames: seq<string> := ["pricing", "teachers", "special_needs", "courses", "technical"]

  /** The category named by the first group with a hit; teachers refined by experience. */
  function TableCategory(lower: string): string {
    match FirstHit(lower, GroupWords)
    case None => "general"
    case Some(g) =>
      if g == 1 && ContainsAny(lower, ExperienceWords) then "teacher_experience" else GroupNames[g]
  }

  /** The cascade and the table give the same category. */
  lemma IntentMatchesTable(query: string)
    ensures AnalyzeQueryIntent(query).category == TableCategory(Lower(query))
  {
    var lower := Lower(query);
    var h := FirstHit(lower, GroupWords);
    if h.Some? {
      var g := h.value;
      assert ContainsAny(lower, GroupWords[g]);
      if g >= 1 { assert !ContainsAny(lower, GroupWords[0]); }
      if g >= 2 { assert !ContainsAny(lower, GroupWords[1]); }
      if g >= 3 { assert !ContainsAny(lower, GroupWords[2]); }
      if g >= 4 { assert !ContainsAny(lower, GroupWords[3]); }
    } else {
      assert !ContainsAny(lower, GroupWords[0]) && !ContainsAny(lower, GroupWords[1]);
      assert !ContainsAny(lower, GroupWords[2]) && !ContainsAny(lower, GroupWords[3]);
      assert !ContainsAny(lower, GroupWords[4]);
    }
  }

  /** A pricing word wins over every other group. */
  lemma PricingFirst(query: string)
    requires ContainsAny(Lower(query), PricingWords)
    ensures AnalyzeQueryIntent(query) == Intent("pricing", true)
  {
  }

  /** Without a pricing word, a teacher word is refined by an experience word. */
  lemma TeacherCategories(query: string)
    requires !ContainsAny(Lower(query), PricingWords) && ContainsAny(Lower(query), TeacherWords)
    ensures AnalyzeQueryIntent(query).category
            == if ContainsAny(Lower(query), ExperienceWords) then "teacher_experience" else "teachers"
  {
  }

  /** An experience word alone, without a teacher word, names no category of its own. */
  lemma ExperienceNeedsTeacher(query: string)
    requires !ContainsAny(Lower(query), TeacherWords)
    ensures AnalyzeQueryIntent(query).category != "teacher_experience"
  {
  }

  /** The general category is reached exactly when no group has a hit. */
  lemma GeneralIffNoHit(query: string)
    ensures AnalyzeQueryIntent(query).category == "general"
            <==> forall g :: 0 <= g < |GroupWords| ==> !ContainsAny(Lower(query), GroupWords[g])
  {
    IntentMatchesTable(query);
    var h := FirstHit(Lower(query), GroupWords);
    if h.Some? {
      assert GroupNames[h.value] != "general";
    }
  }

  datatype MetadataFilter = MetadataFilter(key: string, value: string)

  /** `get_metadata_filters`: no filter is ever produced, whatever the intent. */
  function GetMetadataFilters(intent: Intent, query: string): (r: Option<seq<MetadataFilter>>)
    ensures r.None?
  {
    None
  }
}
