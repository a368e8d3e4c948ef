// The rule-based chunker of the school's knowledge base: one rule per
// document (courses, teachers, questions and answers, methodology), a
// paragraph packer for the other documents, and the numbering of all
// chunks into records.

module UkidoChunker {
  import opened Text

  /** A chunk before numbering: its text, its type, and the other keys of its dictionary in order. */
  datatype Chunk = Chunk(text: string, kind: string, extra: seq<(string, string)>)

  const SectionSeparator: string := "\n---\n"

  /** `re.split(r'\n---\n', content)`. */
  function Sections(content: string): (r: seq<string>)
    ensures |r| >= 1
  {
    Split(content, SectionSeparator)
  }

  // ---------------------------------------------------------------------
  // Spans up to a following heading

  /** Python's `$` without `re.MULTILINE`: the end, or just before a final newline. */
  predicate DollarAt(c: string, p: nat) {
    p == |c| || (p + 1 == |c| && c[p] == '\n')
  }

  /** One of `stops` begins at `p`. */
  predicate StopAt(c: string, p: nat, stops: seq<string>)
    requires p <= |c|
  {
    exists k :: 0 <= k < |stops| && stops[k] <= c[p..]
  }

  /** Where the lazy `.*?(?=stop|…|$)` begun at `from` ends. */
  function SpanEnd(c: string, from: nat, stops: seq<string>): (e: nat)
    requires from <= |c|
    ensures from <= e <= |c|
    decreases |c| - from
  {
    if StopAt(c, from, stops) || DollarAt(c, from) then from else SpanEnd(c, from + 1, stops)
  }

  /** The span ends at the first position where a stop or `$` holds. */
  lemma {:induction false} SpanEndFirst(c: string, from: nat, stops: seq<string>)
    requires from <= |c|
    ensures StopAt(c, SpanEnd(c, from, stops), stops) || DollarAt(c, SpanEnd(c, from, stops))
    ensures forall p :: from <= p < SpanEnd(c, from, stops) ==> !StopAt(c, p, stops) && !DollarAt(c, p)
    decreases |c| - from
  {
    if !(StopAt(c, from, stops) || DollarAt(c, from)) {
      SpanEndFirst(c, from + 1, stops);
    }
  }

  /** The stripped span begun by the heading at `h`. */
  function SpanAt(c: string, h: nat, heading: string, stops: seq<string>): string
    requires h + |heading| <= |c|
  {
    Strip(c[h..SpanEnd(c, h + |heading|, stops)])
  }

  /**
   * `re.search(heading + r'.*?(?=stop|…|$)', c, re.DOTALL).group(0).strip()`:
   * from the first occurrence of `heading` up to the next stop.
   */
  function HeadedSpan(c: string, heading: string, stops: seq<string>): (r: Option<string>)
    ensures r.Some? <==> IndexOf(c, heading).Some?
    ensures r.Some? ==> IndexOf(c, heading).value + |heading| <= |c|
                        && r.value == SpanAt(c, IndexOf(c, heading).value, heading, stops)
  {
    match IndexOf(c, heading)
    case None => None
    case Some(h) => Some(SpanAt(c, h, heading, stops))
  }

  /** A span begun by its heading is a part of the text and holds the heading. */
  lemma SpanAtShape(c: string, h: nat, heading: string, stops: seq<string>)
    requires h + |heading| <= |c| && c[h..h + |heading|] == heading && |heading| > 0
    requires !IsSpace(heading[0]) && !IsSpace(heading[|heading| - 1])
    ensures Contains(c, SpanAt(c, h, heading, stops)) && Contains(SpanAt(c, h, heading, stops), heading)
  {
    var e := SpanEnd(c, h + |heading|, stops);
    assert SpanAt(c, h, heading, stops) == Strip(c[h..e]);
    StrippedSliceIn(c, h, e);
    StrippedSliceHolds(c, h, e, heading);
  }

  lemma StrippedSliceIn(c: string, i: nat, j: nat)
    requires i <= j <= |c|
    ensures Contains(c, Strip(c[i..j]))
  {
    StripContained(c[i..j]);
    ContainsInfix(c, i, j, Strip(c[i..j]));
  }

  lemma StrippedSliceHolds(c: string, h: nat, e: nat, heading: string)
    requires h + |heading| <= e <= |c| && c[h..h + |heading|] == heading && |heading| > 0
    requires !IsSpace(heading[0]) && !IsSpace(heading[|heading| - 1])
    ensures Contains(Strip(c[h..e]), heading)
  {
    var span := c[h..e];
    assert span[0..|heading|] == heading;
    assert Contains(heading, heading);
    ContainsInfix(span, 0, |heading|, heading);
    StripKeepsInner(span, heading);
  }

  /** A span is found exactly when the heading occurs. */
  lemma HeadedSpanPresent(c: string, heading: string, stops: seq<string>)
    ensures HeadedSpan(c, heading, stops).Some? <==> Contains(c, heading)
  {
    IndexOfContains(c, heading);
  }

  /** The span is a part of the text and holds its heading. */
  lemma HeadedSpanShape(c: string, heading: string, stops: seq<string>)
    requires |heading| > 0 && !IsSpace(heading[0]) && !IsSpace(heading[|heading| - 1])
    ensures HeadedSpan(c, heading, stops).Some? ==>
      var t := HeadedSpan(c, heading, stops).value;
      Contains(c, t) && Contains(t, heading)
  {
    if IndexOf(c, heading).Some? {
      var h := IndexOf(c, heading).value;
      assert heading <= c[h..];
      assert c[h..h + |heading|] == heading;
      SpanAtShape(c, h, heading, stops);
    }
  }

  // ---------------------------------------------------------------------
  // courses_detailed.txt

  const CourseMark: string := "КУРС \""
  const CourseHeadings: seq<string> := ["КУРС \"ЮНЫЙ ОРАТОР\"", "КУРС \"ЭМОЦИОНАЛЬНЫЙ КОМПАС\"", "КУРС \"КАПИТАН ПРОЕКТОВ\""]
  const CourseKeys: seq<string> := ["young_orator", "emotional_compass", "project_captain"]

  /** The first two courses end where the next course heading begins; the last one runs to the end. */
  function CourseStops(k: nat): seq<string> {
    if k < 2 then [CourseMark] else []
  }

  /** The chunk of a course whose heading is present: the span behind the heading. */
  function SpanChunk(content: string, heading: string, stops: seq<string>, key: string): seq<Chunk> {
    match HeadedSpan(content, heading, stops)
    case None => []
    case Some(t) => [Chunk(t, "course_detail", [("course", key)])]
  }

  /** The chunk of course `k`, when its heading is present. */
  function CourseChunk(content: string, k: nat): seq<Chunk>
    requires k < 3
  {
    SpanChunk(content, CourseHeadings[k], CourseStops(k), CourseKeys[k])
  }

  /** `chunk_courses_detailed`. */
  function CoursesDetailed(content: string): seq<Chunk> {
    CourseChunk(content, 0) + CourseChunk(content, 1) + CourseChunk(content, 2)
  }

  /** The keys of the entries `0 .. k - 1` of `keys` whose heading occurs in `content`, in table order. */
  function Present(content: string, headings: seq<string>, keys: seq<string>, k: nat): (r: seq<string>)
    requires k <= |headings| == |keys|
    ensures |r| <= k
  {
    if k == 0 then []
    else Present(content, headings, keys, k - 1) + (if Contains(content, headings[k - 1]) then [keys[k - 1]] else [])
  }

  /** `Present` over a table of three, written out. */
  lemma PresentThree(content: string, headings: seq<string>, keys: seq<string>)
    requires |headings| == |keys| == 3
    ensures Present(content, headings, keys, 3)
            == (if Contains(content, headings[0]) then [keys[0]] else [])
               + (if Contains(content, headings[1]) then [keys[1]] else [])
               + (if Contains(content, headings[2]) then [keys[2]] else [])
  {
    assert Present(content, headings, keys, 1) == [] + (if Contains(content, headings[0]) then [keys[0]] else []);
  }

  function Lookup(extra: seq<(string, string)>, key: string, default: string): string {
    if extra == [] then default
    else if extra[0].0 == key then extra[0].1
    else Lookup(extra[1..], key, default)
  }

  function Values(cs: seq<Chunk>, key: string): (r: seq<string>)
    ensures |r| == |cs|
    ensures forall i :: 0 <= i < |cs| ==> r[i] == Lookup(cs[i].extra, key, "")
  {
    seq(|cs|, i requires 0 <= i < |cs| => Lookup(cs[i].extra, key, ""))
  }

  lemma ValuesConcat(a: seq<Chunk>, b: seq<Chunk>, key: string)
    ensures Values(a + b, key) == Values(a, key) + Values(b, key)
  {
  }

  /** A chunk exists exactly when the heading occurs; it is a part of the document holding the heading. */
  lemma SpanChunkShape(content: string, heading: string, stops: seq<string>, key: string)
    requires |heading| > 0 && !IsSpace(heading[0]) && !IsSpace(heading[|heading| - 1])
    ensures Values(SpanChunk(content, heading, stops, key), "course") == if Contains(content, heading) then [key] else []
    ensures forall ch <- SpanChunk(content, heading, stops, key) ::
      ch.kind == "course_detail" && Contains(content, ch.text) && Contains(ch.text, heading)
  {
    HeadedSpanPresent(content, heading, stops);
    if Contains(content, heading) {
      HeadedSpanShape(content, heading, stops);
      var t := HeadedSpan(content, heading, stops).value;
      assert SpanChunk(content, heading, stops, key) == [Chunk(t, "course_detail", [("course", key)])];
    } else {
      assert SpanChunk(content, heading, stops, key) == [];
    }
  }

  lemma CourseChunkShape(content: string, k: nat)
    requires k < 3
    ensures Values(CourseChunk(content, k), "course") == if Contains(content, CourseHeadings[k]) then [CourseKeys[k]] else []
    ensures forall ch <- CourseChunk(content, k) ::
      ch.kind == "course_detail" && Contains(content, ch.text) && Contains(ch.text, CourseHeadings[k])
  {
    assert CourseHeadings[k][0] == 'К' && CourseHeadings[k][|CourseHeadings[k]| - 1] == '"';
    SpanChunkShape(content, CourseHeadings[k], CourseStops(k), CourseKeys[k]);
  }

  /**
   * At most one chunk per course, in the order orator, compass, captain:
   * exactly the courses whose heading the document holds. Each chunk is a
   * part of the document that starts at its course's heading.
   */
  lemma CoursesDetailedShape(content: string)
    ensures Values(CoursesDetailed(content), "course") == Present(content, CourseHeadings, CourseKeys, 3)
    ensures |CoursesDetailed(content)| <= 3
    ensures forall ch <- CoursesDetailed(content) :: ch.kind == "course_detail" && Contains(content, ch.text)
  {
    CourseChunkShape(content, 0);
    CourseChunkShape(content, 1);
    CourseChunkShape(content, 2);
    ValuesConcat(CourseChunk(content, 0), CourseChunk(content, 1), "course");
    ValuesConcat(CourseChunk(content, 0) + CourseChunk(content, 1), CourseChunk(content, 2), "course");
    PresentThree(content, CourseHeadings, CourseKeys);
  }

  // ---------------------------------------------------------------------
  // teachers_team.txt

  const TeacherNames: seq<string> := ["АННА КОВАЛЕНКО", "ДМИТРИЙ ПЕТРОВ", "ЕЛЕНА СИДОРОВА"]
  const TeacherKeys: seq<string> := ["anna_kovalenko", "dmitry_petrov", "elena_sidorova"]

  function TeacherStops(k: nat): seq<string>
    requires k < 3
  {
    if k == 0 then ["ДМИТРИЙ ПЕТРОВ"] else if k == 1 then ["ЕЛЕНА СИДОРОВА"] else ["ОЛЬГА МИРНАЯ", "ПРИНЦИПЫ РАБОТЫ"]
  }

  const TeacherIntros: seq<string> := [
    "ПРЕПОДАВАТЕЛЬ КУРСА \"ЮНЫЙ ОРАТОР\"\n\n",
    "ПРЕПОДАВАТЕЛЬ КУРСА \"ЭМОЦИОНАЛЬНЫЙ КОМПАС\"\n\n",
    "ПРЕПОДАВАТЕЛЬ КУРСА \"КАПИТАН ПРОЕКТОВ\"\n\n"]

  const TeacherOutros: seq<string> := [
    "\n\nКурс \"Юный Оратор\" (7-10 лет) - 6000 грн/месяц, 3 месяца, группы до 8 детей.\n"
    + "Результат: 94% детей избавляются от страха публичных выступлений.",
    "\n\nКурс \"Эмоциональный Компас\" (9-12 лет) - 7500 грн/месяц, 4 месяца, группы до 6 детей.\n"
    + "Результат: Снижение конфликтности на 76%, повышение эмпатии на 82%.",
    "\n\nКурс \"Капитан Проектов\" (11-14 лет) - 8000 грн/месяц, 5 месяцев, проектные команды 4-5 человек.\n"
    + "Результат: 85% выпускников становятся лидерами в классах."]

  /** The chunk for a name found in the document: the span behind the name, wrapped in the course's text. */
  function LinkChunk(content: string, name: string, stops: seq<string>, intro: string, outro: string,
                     teacher: string, course: string): seq<Chunk>
  {
    match HeadedSpan(content, name, stops)
    case None => []
    case Some(t) => [Chunk(intro + t + outro, "teacher_course_link", [("teacher", teacher), ("course", course)])]
  }

  /** The chunk linking teacher `k` to the course they teach, when the name is present. */
  function TeacherChunk(content: string, k: nat): seq<Chunk>
    requires k < 3
  {
    LinkChunk(content, TeacherNames[k], TeacherStops(k), TeacherIntros[k], TeacherOutros[k], TeacherKeys[k], CourseKeys[k])
  }

  /** `chunk_teachers_team`. */
  function TeachersTeam(content: string): seq<Chunk> {
    TeacherChunk(content, 0) + TeacherChunk(content, 1) + TeacherChunk(content, 2)
  }

  /** Each name begins and ends with a letter. */
  lemma TeacherNameEnds(k: nat)
    requires k < 3
    ensures |TeacherNames[k]| > 0 && !IsSpace(TeacherNames[k][0]) && !IsSpace(TeacherNames[k][|TeacherNames[k]| - 1])
  {
    if k == 0 {
      assert TeacherNames[k][|TeacherNames[k]| - 1] == 'О';
    } else if k == 1 {
      assert TeacherNames[k][|TeacherNames[k]| - 1] == 'В';
    } else {
      assert TeacherNames[k][|TeacherNames[k]| - 1] == 'А';
    }
  }

  /** A chunk exists exactly when the name occurs; it starts with the course's text and holds the name. */
  lemma LinkChunkShape(content: string, name: string, stops: seq<string>, intro: string, outro: string,
                       teacher: string, course: string)
    requires |name| > 0 && !IsSpace(name[0]) && !IsSpace(name[|name| - 1])
    ensures Values(LinkChunk(content, name, stops, intro, outro, teacher, course), "teacher")
            == if Contains(content, name) then [teacher] else []
    ensures forall ch <- LinkChunk(content, name, stops, intro, outro, teacher, course) ::
      && ch.kind == "teacher_course_link" && Lookup(ch.extra, "course", "") == course
      && StartsWith(ch.text, intro) && Contains(ch.text, name)
  {
    HeadedSpanPresent(content, name, stops);
    if Contains(content, name) {
      HeadedSpanShape(content, name, stops);
      LinkTextShape(intro, HeadedSpan(content, name, stops).value, outro, name);
    }
  }

  lemma LinkTextShape(intro: string, t: string, outro: string, name: string)
    requires Contains(t, name)
    ensures StartsWith(intro + t + outro, intro) && Contains(intro + t + outro, name)
  {
    ContainsMiddle(intro, t, outro);
    ContainsTransitive(intro + t + outro, t, name);
  }

  lemma TeacherChunkShape(content: string, k: nat)
    requires k < 3
    ensures Values(TeacherChunk(content, k), "teacher") == if Contains(content, TeacherNames[k]) then [TeacherKeys[k]] else []
    ensures forall ch <- TeacherChunk(content, k) ::
      && ch.kind == "teacher_course_link" && Lookup(ch.extra, "course", "") == CourseKeys[k]
      && StartsWith(ch.text, TeacherIntros[k]) && Contains(ch.text, TeacherNames[k])
  {
    TeacherNameEnds(k);
    LinkChunkShape(content, TeacherNames[k], TeacherStops(k), TeacherIntros[k], TeacherOutros[k], TeacherKeys[k], CourseKeys[k]);
  }

  /**
   * At most one chunk per teacher, in the order of the table: exactly the
   * teachers named in the document, each linked to the course they teach.
   */
  lemma TeachersTeamShape(content: string)
    ensures Values(TeachersTeam(content), "teacher") == Present(content, TeacherNames, TeacherKeys, 3)
    ensures |TeachersTeam(content)| <= 3
  {
    TeacherChunkShape(content, 0);
    TeacherChunkShape(content, 1);
    TeacherChunkShape(content, 2);
    ValuesConcat(TeacherChunk(content, 0), TeacherChunk(content, 1), "teacher");
    ValuesConcat(TeacherChunk(content, 0) + TeacherChunk(content, 1), TeacherChunk(content, 2), "teacher");
    PresentThree(content, TeacherNames, TeacherKeys);
  }

  // ---------------------------------------------------------------------
  // faq_detailed.txt and methodology_approach.txt

  /** The stripped sections at least `minLength` long, in order. */
  function KeptSections(sections: seq<string>, minLength: nat): (r: seq<string>)
    ensures |r| <= |sections|
  {
    if sections == [] then []
    else
      var prev := KeptSections(sections[..|sections| - 1], minLength);
      var s := Strip(sections[|sections| - 1]);
      if |s| < minLength then prev else prev + [s]
  }

  /** A text is kept exactly when it is a stripped section at least `minLength` long. */
  lemma KeptSectionsMembers(sections: seq<string>, minLength: nat, x: string)
    ensures x in KeptSections(sections, minLength)
            <==> |x| >= minLength && exists i :: 0 <= i < |sections| && Strip(sections[i]) == x
  {
    if x in KeptSections(sections, minLength) {
      var i := KeptSectionsSound(sections, minLength, x);
    }
    if |x| >= minLength && exists i :: 0 <= i < |sections| && Strip(sections[i]) == x {
      var i :| 0 <= i < |sections| && Strip(sections[i]) == x;
      KeptSectionsComplete(sections, minLength, i);
    }
  }

  /** The section a kept text comes from. */
  lemma {:induction false} KeptSectionsSound(sections: seq<string>, minLength: nat, x: string) returns (i: nat)
    requires x in KeptSections(sections, minLength)
    ensures |x| >= minLength && i < |sections| && Strip(sections[i]) == x
    decreases |sections|
  {
    var init := sections[..|sections| - 1];
    var n := |sections| - 1;
    if x in KeptSections(init, minLength) {
      i := KeptSectionsSound(init, minLength, x);
      assert init[i] == sections[i];
    } else {
      assert KeptSections(sections, minLength) == KeptSections(init, minLength) + [Strip(sections[n])];
      i := n;
    }
  }

  lemma {:induction false} KeptSectionsComplete(sections: seq<string>, minLength: nat, i: nat)
    requires i < |sections| && |Strip(sections[i])| >= minLength
    ensures Strip(sections[i]) in KeptSections(sections, minLength)
    decreases |sections|
  {
    var init := sections[..|sections| - 1];
    var last := Strip(sections[|sections| - 1]);
    assert KeptSections(sections, minLength)
           == KeptSections(init, minLength) + (if |last| < minLength then [] else [last]);
    if i < |init| {
      assert init[i] == sections[i];
      KeptSectionsComplete(init, minLength, i);
    }
  }

  /** The kind of the first heading the section holds, else `fallback`: the `if`/`elif` chain. */
  function Classify(s: string, headings: seq<string>, kinds: seq<string>, fallback: string): (kind: string)
    requires |headings| == |kinds|
    ensures forall k :: 0 <= k < |headings| && Contains(s, headings[k])
              && (forall j :: 0 <= j < k ==> !Contains(s, headings[j]))
              ==> kind == kinds[k]
    ensures (forall j :: 0 <= j < |headings| ==> !Contains(s, headings[j])) ==> kind == fallback
  {
    match FirstKey(s, headings)
    case None => fallback
    case Some(k) => kinds[k]
  }

  function Classified(kept: seq<string>, headings: seq<string>, kinds: seq<string>, fallback: string): (r: seq<Chunk>)
    requires |headings| == |kinds|
    ensures |r| == |kept|
    ensures forall i :: 0 <= i < |kept| ==> r[i] == Chunk(kept[i], Classify(kept[i], headings, kinds, fallback), [])
  {
    seq(|kept|, i requires 0 <= i < |kept| => Chunk(kept[i], Classify(kept[i], headings, kinds, fallback), []))
  }

  lemma ClassifiedAppend(kept: seq<string>, s: string, headings: seq<string>, kinds: seq<string>, fallback: string)
    requires |headings| == |kinds|
    ensures Classified(kept + [s], headings, kinds, fallback)
            == Classified(kept, headings, kinds, fallback) + [Chunk(s, Classify(s, headings, kinds, fallback), [])]
  {
    var a := Classified(kept + [s], headings, kinds, fallback);
    var b := Classified(kept, headings, kinds, fallback) + [Chunk(s, Classify(s, headings, kinds, fallback), [])];
    assert |a| == |b|;
    forall i | 0 <= i < |a| ensures a[i] == b[i] {
      if i < |kept| {
        assert (kept + [s])[i] == kept[i];
      }
    }
  }

  const FaqHeadings: seq<string> := [
    "ОБЩИЕ ВОПРОСЫ", "РЕЗУЛЬТАТАХ И ЭФФЕКТИВНОСТИ", "ТЕХНИЧЕСКИЕ И ОРГАНИЗАЦИОННЫЕ",
    "СЕРТИФИКАЦИИ И ДОКУМЕНТАХ", "ФИНАНСОВЫЕ ВОПРОСЫ", "ПРЕПОДАВАТЕЛЯХ И МЕТОДИКАХ"]
  const FaqKinds: seq<string> := [
    "faq_general", "faq_results", "faq_technical", "faq_certificates", "faq_financial", "faq_methodology"]

  const MethodologyHeadings: seq<string> := [
    "ПРАКТИКА + ИГРА + РЕФЛЕКСИЯ", "ИНДИВИДУАЛЬНЫЙ ПОДХОД", "ТЕХНОЛОГИЧЕСКАЯ ПОДДЕРЖКА",
    "ГЕЙМИФИКАЦИЯ", "НАУЧНАЯ ОСНОВА", "ВОЗРАСТНЫЕ ОСОБЕННОСТИ"]
  const MethodologyKinds: seq<string> := [
    "methodology_core", "methodology_individual", "methodology_tech",
    "methodology_gamification", "methodology_science", "methodology_age"]

  /** `chunk_faq_detailed` as a function of the document. */
  function FaqChunks(content: string): seq<Chunk> {
    Classified(KeptSections(Sections(content), 200), FaqHeadings, FaqKinds, "faq_other")
  }

  /** `chunk_methodology_approach` as a function of the document. */
  function MethodologyChunks(content: string): seq<Chunk> {
    Classified(KeptSections(Sections(content), 300), MethodologyHeadings, MethodologyKinds, "methodology_other")
  }

  /** The loop shared by the two rules: keep the long stripped sections and classify each. */
  method ChunkSections(content: string, minLength: nat, headings: seq<string>, kinds: seq<string>, fallback: string)
    returns (chunks: seq<Chunk>)
    requires |headings| == |kinds|
    ensures chunks == Classified(KeptSections(Sections(content), minLength), headings, kinds, fallback)
  {
    var sections := Split(content, SectionSeparator);
    chunks := [];
    var i := 0;
    while i < |sections|
      invariant 0 <= i <= |sections|
      invariant chunks == Classified(KeptSections(sections[..i], minLength), headings, kinds, fallback)
    {
      assert sections[..i + 1][..i] == sections[..i];
      var section := Strip(sections[i]);
      i := i + 1;
      if |section| < minLength {
        continue;
      }
      ClassifiedAppend(KeptSections(sections[..i - 1], minLength), section, headings, kinds, fallback);
      chunks := chunks + [Chunk(section, Classify(section, headings, kinds, fallback), [])];
    }
    assert sections[..i] == sections;
  }

  method ChunkFaqDetailed(content: string) returns (chunks: seq<Chunk>)
    ensures chunks == FaqChunks(content)
  {
    chunks := ChunkSections(content, 200, FaqHeadings, FaqKinds, "faq_other");
  }

  method ChunkMethodologyApproach(content: string) returns (chunks: seq<Chunk>)
    ensures chunks == MethodologyChunks(content)
  {
    chunks := ChunkSections(content, 300, MethodologyHeadings, MethodologyKinds, "methodology_other");
  }

  /**
   * The shared rule: one chunk per stripped section at least `minLength`
   * long, and exactly the sections holding none of the headings fall back.
   */
  lemma ClassifiedSectionsShape(content: string, minLength: nat, headings: seq<string>, kinds: seq<string>,
                                fallback: string, x: string)
    requires |headings| == |kinds| && fallback !in kinds
    ensures var r := Classified(KeptSections(Sections(content), minLength), headings, kinds, fallback);
      && |r| <= |Sections(content)|
      && ((exists i :: 0 <= i < |r| && r[i].text == x)
          <==> |x| >= minLength && exists j :: 0 <= j < |Sections(content)| && Strip(Sections(content)[j]) == x)
      && forall i :: 0 <= i < |r| ==>
           (r[i].kind == fallback <==> forall j :: 0 <= j < |headings| ==> !Contains(r[i].text, headings[j]))
  {
    var kept := KeptSections(Sections(content), minLength);
    KeptSectionsMembers(Sections(content), minLength, x);
    var r := Classified(kept, headings, kinds, fallback);
    if x in kept {
      var i :| 0 <= i < |kept| && kept[i] == x;
      assert r[i].text == x;
    }
    forall i | 0 <= i < |r|
      ensures r[i].kind == fallback <==> forall j :: 0 <= j < |headings| ==> !Contains(r[i].text, headings[j])
    {
      var k := FirstKey(r[i].text, headings);
      if k.Some? {
        assert kinds[k.value] in kinds;
      }
    }
  }

  /**
   * A question-and-answer chunk is a whole stripped section of at least 200
   * characters, one for each such section, typed by the first heading it
   * holds in the table's order, else `faq_other`.
   */
  lemma FaqChunksShape(content: string, x: string)
    ensures |FaqChunks(content)| <= |Sections(content)|
    ensures (exists i :: 0 <= i < |FaqChunks(content)| && FaqChunks(content)[i].text == x)
            <==> |x| >= 200 && exists j :: 0 <= j < |Sections(content)| && Strip(Sections(content)[j]) == x
    ensures forall i :: 0 <= i < |FaqChunks(content)| ==>
      (FaqChunks(content)[i].kind == "faq_other"
       <==> forall j :: 0 <= j < |FaqHeadings| ==> !Contains(FaqChunks(content)[i].text, FaqHeadings[j]))
  {
    ClassifiedSectionsShape(content, 200, FaqHeadings, FaqKinds, "faq_other", x);
  }

  /** The same for methodology sections, from 300 characters, with `methodology_other` as the fallback. */
  lemma MethodologyChunksShape(content: string, x: string)
    ensures |MethodologyChunks(content)| <= |Sections(content)|
    ensures (exists i :: 0 <= i < |MethodologyChunks(content)| && MethodologyChunks(content)[i].text == x)
            <==> |x| >= 300 && exists j :: 0 <= j < |Sections(content)| && Strip(Sections(content)[j]) == x
    ensures forall i :: 0 <= i < |MethodologyChunks(content)| ==>
      (MethodologyChunks(content)[i].kind == "methodology_other"
       <==> forall j :: 0 <= j < |MethodologyHeadings| ==> !Contains(MethodologyChunks(content)[i].text, MethodologyHeadings[j]))
  {
    ClassifiedSectionsShape(content, 300, MethodologyHeadings, MethodologyKinds, "methodology_other", x);
  }

  // ---------------------------------------------------------------------
  // Other documents

  const MinSection: nat := 400
  const MaxSection: nat := 1200
  const MaxPiece: nat := 1000

  /** The paragraph loop's state: the pieces closed so far and the one being built. */
  datatype SectionPack = SectionPack(pieces: seq<string>, current: string)

  /** One turn: glue the paragraph on, unless that passes 1000 characters and a piece is pending. */
  function PackParagraph(st: SectionPack, p: string): SectionPack {
    var potential := if st.current != "" then st.current + "\n\n" + p else p;
    if |potential| > MaxPiece && st.current != "" then SectionPack(st.pieces + [st.current], p)
    else SectionPack(st.pieces, potential)
  }

  function PackSection(ps: seq<string>): SectionPack {
    if ps == [] then SectionPack([], "") else PackParagraph(PackSection(ps[..|ps| - 1]), ps[|ps| - 1])
  }

  /** The unstripped pieces of a long section, after the final flush. */
  function LongSectionPieces(section: string): seq<string> {
    var st := PackSection(Split(section, "\n\n"));
    if st.current != "" then st.pieces + [st.current] else st.pieces
  }

  function StrippedChunks(pieces: seq<string>, kind: string): (r: seq<Chunk>)
    ensures |r| == |pieces|
    ensures forall i :: 0 <= i < |pieces| ==> r[i] == Chunk(Strip(pieces[i]), kind, [])
  {
    seq(|pieces|, i requires 0 <= i < |pieces| => Chunk(Strip(pieces[i]), kind, []))
  }

  /** The chunks of one section of a standard document. */
  function SectionChunks(section: string, docType: string): seq<Chunk> {
    var s := Strip(section);
    if |s| < MinSection then []
    else if |s| > MaxSection then StrippedChunks(LongSectionPieces(s), docType)
    else [Chunk(s, docType, [])]
  }

  function StandardSections(sections: seq<string>, docType: string): seq<Chunk> {
    if sections == [] then []
    else StandardSections(sections[..|sections| - 1], docType) + SectionChunks(sections[|sections| - 1], docType)
  }

  /** `chunk_standard_document` as a function of the document. */
  function StandardDocument(content: string, docType: string): seq<Chunk> {
    StandardSections(Sections(content), docType)
  }

  /** Every piece is non-empty and, when over 1000 characters, a single paragraph. */
  predicate PiecesOk(pieces: seq<string>, ps: seq<string>) {
    forall i :: 0 <= i < |pieces| ==> pieces[i] != "" && (|pieces[i]| <= MaxPiece || pieces[i] in ps)
  }

  lemma PiecesOkAppend(pieces: seq<string>, x: string, ps: seq<string>, ps': seq<string>)
    requires PiecesOk(pieces, ps) && x != "" && (|x| <= MaxPiece || x in ps')
    requires forall y :: y in ps ==> y in ps'
    ensures PiecesOk(pieces + [x], ps')
  {
  }

  lemma {:induction false} PackSectionShape(ps: seq<string>)
    ensures PiecesOk(PackSection(ps).pieces, ps)
    ensures var c := PackSection(ps).current; |c| <= MaxPiece || c in ps
    decreases |ps|
  {
    if ps != [] {
      var init := ps[..|ps| - 1];
      var p := ps[|ps| - 1];
      PackSectionShape(init);
      var st := PackSection(init);
      assert forall y :: y in init ==> y in ps;
      if st.current != "" {
        PiecesOkAppend(st.pieces, st.current, init, ps);
      } else {
        assert PiecesOk(st.pieces, ps);
      }
    }
  }

  /** A piece of a long section over 1000 characters is one of its paragraphs; none is empty. */
  lemma LongSectionPiecesShape(section: string)
    ensures forall i :: 0 <= i < |LongSectionPieces(section)| ==>
      var piece := LongSectionPieces(section)[i];
      piece != "" && (|piece| <= MaxPiece || piece in Split(section, "\n\n"))
  {
    var ps := Split(section, "\n\n");
    PackSectionShape(ps);
    var st := PackSection(ps);
    if st.current != "" {
      PiecesOkAppend(st.pieces, st.current, ps, ps);
    }
  }

  lemma {:induction false} PackSectionJoin(ps: seq<string>)
    requires ps != [] && forall i :: 0 <= i < |ps| ==> ps[i] != ""
    ensures PackSection(ps).current != ""
    ensures Join(PackSection(ps).pieces + [PackSection(ps).current], "\n\n") == Join(ps, "\n\n")
    decreases |ps|
  {
    var init := ps[..|ps| - 1];
    var p := ps[|ps| - 1];
    assert ps == init + [p];
    JoinAppend(init, p, "\n\n");
    if init != [] {
      PackSectionJoin(init);
      var st := PackSection(init);
      if |st.current + "\n\n" + p| > MaxPiece {
        JoinAppend(st.pieces + [st.current], p, "\n\n");
      } else {
        JoinGlued(st.pieces, st.current, p, "\n\n");
      }
    }
  }

  /**
   * When no paragraph of the section is empty, the pieces joined by blank
   * lines give the section back.
   */
  lemma LongSectionRoundTrip(section: string)
    requires forall i :: 0 <= i < |Split(section, "\n\n")| ==> Split(section, "\n\n")[i] != ""
    ensures Join(LongSectionPieces(section), "\n\n") == section
  {
    PackSectionJoin(Split(section, "\n\n"));
    JoinSplit(section, "\n\n");
  }

  /**
   * A section stripped to under 400 characters gives nothing, one of
   * 400 to 1200 gives itself, a longer one its packed pieces; all are of
   * the document's type.
   */
  lemma SectionChunksShape(section: string, docType: string)
    ensures var s := Strip(section);
      && (|s| < MinSection ==> SectionChunks(section, docType) == [])
      && (MinSection <= |s| <= MaxSection ==> SectionChunks(section, docType) == [Chunk(s, docType, [])])
      && (|s| > MaxSection ==> forall i :: 0 <= i < |SectionChunks(section, docType)| ==>
            |SectionChunks(section, docType)[i].text| <= MaxPiece
            || exists p :: p in Split(s, "\n\n") && SectionChunks(section, docType)[i].text == Strip(p))
      && forall i :: 0 <= i < |SectionChunks(section, docType)| ==> SectionChunks(section, docType)[i].kind == docType
  {
    var s := Strip(section);
    if |s| > MaxSection {
      StrippedPiecesShape(s, docType);
    }
  }

  lemma StrippedPiecesShape(s: string, docType: string)
    ensures forall ch <- StrippedChunks(LongSectionPieces(s), docType) ::
      |ch.text| <= MaxPiece || exists p :: p in Split(s, "\n\n") && ch.text == Strip(p)
  {
    LongSectionPiecesShape(s);
    var pieces := LongSectionPieces(s);
    forall i | 0 <= i < |pieces|
      ensures |Strip(pieces[i])| <= MaxPiece || exists p :: p in Split(s, "\n\n") && Strip(pieces[i]) == Strip(p)
    {
      if |pieces[i]| > MaxPiece {
        assert pieces[i] in Split(s, "\n\n");
      }
    }
  }

  lemma StandardSectionsKind(sections: seq<string>, docType: string)
    ensures forall i :: 0 <= i < |StandardSections(sections, docType)| ==> StandardSections(sections, docType)[i].kind == docType
    ensures forall i :: 0 <= i < |StandardSections(sections, docType)| ==> StandardSections(sections, docType)[i].extra == []
  {
    if sections != [] {
      StandardSectionsKind(sections[..|sections| - 1], docType);
      SectionChunksShape(sections[|sections| - 1], docType);
    }
  }

  lemma StandardSectionsStep(sections: seq<string>, i: nat, docType: string)
    requires i < |sections|
    ensures StandardSections(sections[..i + 1], docType) == StandardSections(sections[..i], docType) + SectionChunks(sections[i], docType)
  {
    assert sections[..i + 1][..i] == sections[..i];
  }

  method ChunkStandardDocument(content: string, docType: string) returns (chunks: seq<Chunk>)
    ensures chunks == StandardDocument(content, docType)
  {
    var sections := Split(content, SectionSeparator);
    chunks := [];
    var i := 0;
    while i < |sections|
      invariant 0 <= i <= |sections|
      invariant chunks == StandardSections(sections[..i], docType)
    {
      StandardSectionsStep(sections, i, docType);
      var section := Strip(sections[i]);
      i := i + 1;
      if |section| < MinSection {
        continue;
      }
      if |section| > MaxSection {
        var pieces := PackLongSection(section, docType);
        chunks := chunks + pieces;
      } else {
        chunks := chunks + [Chunk(section, docType, [])];
      }
    }
    assert sections[..i] == sections;
  }

  lemma StrippedChunksAppend(pieces: seq<string>, x: string, kind: string)
    ensures StrippedChunks(pieces + [x], kind) == StrippedChunks(pieces, kind) + [Chunk(Strip(x), kind, [])]
  {
  }

  /** The paragraph loop of a long section. */
  method PackLongSection(section: string, docType: string) returns (chunks: seq<Chunk>)
    ensures chunks == StrippedChunks(LongSectionPieces(section), docType)
  {
    var paragraphs := Split(section, "\n\n");
    chunks := [];
    var currentChunk := "";
    var i := 0;
    while i < |paragraphs|
      invariant 0 <= i <= |paragraphs|
      invariant chunks == StrippedChunks(PackSection(paragraphs[..i]).pieces, docType)
      invariant currentChunk == PackSection(paragraphs[..i]).current
    {
      assert paragraphs[..i + 1][..i] == paragraphs[..i];
      var paragraph := paragraphs[i];
      var potential := if currentChunk != "" then currentChunk + "\n\n" + paragraph else paragraph;
      if |potential| > MaxPiece && currentChunk != "" {
        StrippedChunksAppend(PackSection(paragraphs[..i]).pieces, currentChunk, docType);
        chunks := chunks + [Chunk(Strip(currentChunk), docType, [])];
        currentChunk := paragraph;
      } else {
        currentChunk := potential;
      }
      i := i + 1;
    }
    assert paragraphs[..i] == paragraphs;
    if currentChunk != "" {
      StrippedChunksAppend(PackSection(paragraphs).pieces, currentChunk, docType);
      chunks := chunks + [Chunk(Strip(currentChunk), docType, [])];
    }
  }

  // ---------------------------------------------------------------------
  // All documents

  /**
   * `create_strategic_overview_chunks`: the course overview and the price
   * overview, both of critical priority. Their fixed texts are parameters.
   */
  function StrategicOverviewChunks(coursesOverview: string, pricingOverview: string): (r: seq<Chunk>)
    ensures |r| == 2
  {
    [Chunk(coursesOverview, "courses_overview", [("priority", "critical")]),
     Chunk(pricingOverview, "pricing_overview", [("priority", "critical")])]
  }

  /** `filename.replace('.txt', '').replace('_', '-')`. */
  function DocType(filename: string): string {
    ReplaceAll(ReplaceAll(filename, ".txt", ""), "_", "-")
  }

  /** The rule a document gets: its own by file name, else the standard one. */
  function DocumentChunks(filename: string, content: string): seq<Chunk> {
    if filename == "courses_detailed.txt" then CoursesDetailed(content)
    else if filename == "teachers_team.txt" then TeachersTeam(content)
    else if filename == "faq_detailed.txt" then FaqChunks(content)
    else if filename == "methodology_approach.txt" then MethodologyChunks(content)
    else StandardDocument(content, DocType(filename))
  }

  function Tagged(filename: string, cs: seq<Chunk>): (r: seq<(string, Chunk)>)
    ensures |r| == |cs|
    ensures forall i :: 0 <= i < |cs| ==> r[i] == (filename, cs[i])
  {
    seq(|cs|, i requires 0 <= i < |cs| => (filename, cs[i]))
  }

  /**
   * The chunks of the directory's `.txt` files, in listing order, with the
   * name of the file each comes from; a file empty after stripping gives
   * none. `entries` is the directory listing with each file's content and
   * `rule` chunks one document (`DocumentChunks` in the program).
   */
  function FileChunks(entries: seq<(string, string)>, rule: (string, string) -> seq<Chunk>): seq<(string, Chunk)> {
    if entries == [] then []
    else FileChunks(entries[..|entries| - 1], rule) + EntryChunks(entries[|entries| - 1], rule)
  }

  /** The chunks of one listed file, tagged with its name: none unless a non-empty `.txt` file. */
  function EntryChunks(entry: (string, string), rule: (string, string) -> seq<Chunk>): seq<(string, Chunk)> {
    var content := Strip(entry.1);
    if !EndsWith(entry.0, ".txt") || content == "" then [] else Tagged(entry.0, rule(entry.0, content))
  }

  /** The listing one entry longer: the entry's chunks come last. */
  lemma FileChunksStep(entries: seq<(string, string)>, e: nat, rule: (string, string) -> seq<Chunk>)
    requires e < |entries|
    ensures FileChunks(entries[..e + 1], rule) == FileChunks(entries[..e], rule) + EntryChunks(entries[e], rule)
  {
    assert entries[..e + 1][..e] == entries[..e];
  }

  datatype Metadata = Metadata(source: string, chunkType: string, chunkLength: nat, extra: seq<(string, string)>)
  datatype Record = Record(id: string, text: string, metadata: Metadata)

  const StrategicPrefix: string := "ukido-strategic-"
  const FilePrefix: string := "ukido-"

  function StrategicRecord(c: Chunk, n: nat): Record {
    Record(StrategicPrefix + NatToString(n), c.text,
           Metadata("strategic_overview", c.kind, |c.text|, [("priority", Lookup(c.extra, "priority", "normal"))]))
  }

  function FileRecord(source: string, c: Chunk, n: nat): Record {
    Record(FilePrefix + NatToString(n), c.text, Metadata(source, c.kind, |c.text|, c.extra))
  }

  /** The strategic records, numbered from 0. */
  function StrategicRecords(st: seq<Chunk>): (r: seq<Record>)
    ensures |r| == |st|
    ensures forall i :: 0 <= i < |st| ==> r[i] == StrategicRecord(st[i], i)
  {
    seq(|st|, i requires 0 <= i < |st| => StrategicRecord(st[i], i))
  }

  /** The file records, numbered from `start`. */
  function FileRecords(fc: seq<(string, Chunk)>, start: nat): (r: seq<Record>)
    ensures |r| == |fc|
    ensures forall i :: 0 <= i < |fc| ==> r[i] == FileRecord(fc[i].0, fc[i].1, start + i)
  {
    seq(|fc|, i requires 0 <= i < |fc| => FileRecord(fc[i].0, fc[i].1, start + i))
  }

  lemma FileRecordsConcat(a: seq<(string, Chunk)>, b: seq<(string, Chunk)>, start: nat)
    ensures FileRecords(a + b, start) == FileRecords(a, start) + FileRecords(b, start + |a|)
  {
    var l := FileRecords(a + b, start);
    var r := FileRecords(a, start) + FileRecords(b, start + |a|);
    forall i | 0 <= i < |l| ensures l[i] == r[i] {
      if i >= |a| {
        assert (a + b)[i] == b[i - |a|];
      }
    }
  }

  /** `process_all_documents`: the strategic records, then every file's, on one counter. */
  function Records(coursesOverview: string, pricingOverview: string, entries: seq<(string, string)>,
                   rule: (string, string) -> seq<Chunk>): seq<Record> {
    StrategicRecords(StrategicOverviewChunks(coursesOverview, pricingOverview)) + FileRecords(FileChunks(entries, rule), 2)
  }

  method ProcessAllDocuments(coursesOverview: string, pricingOverview: string, entries: seq<(string, string)>)
    returns (allChunks: seq<Record>)
    ensures allChunks == Records(coursesOverview, pricingOverview, entries, DocumentChunks)
  {
    var strategic := StrategicOverviewChunks(coursesOverview, pricingOverview);
    var chunkId;
    allChunks, chunkId := NumberStrategic(strategic);
    ghost var head := allChunks;
    var e := 0;
    while e < |entries|
      invariant 0 <= e <= |entries|
      invariant chunkId == 2 + |FileChunks(entries[..e], DocumentChunks)|
      invariant allChunks == head + FileRecords(FileChunks(entries[..e], DocumentChunks), 2)
    {
      FileChunksStep(entries, e, DocumentChunks);
      FileRecordsConcat(FileChunks(entries[..e], DocumentChunks), EntryChunks(entries[e], DocumentChunks), 2);
      allChunks, chunkId := ProcessEntry(allChunks, chunkId, entries[e]);
      ConcatAssoc(head, FileRecords(FileChunks(entries[..e], DocumentChunks), 2),
                  FileRecords(EntryChunks(entries[e], DocumentChunks), 2 + |FileChunks(entries[..e], DocumentChunks)|));
      e := e + 1;
    }
    assert entries[..e] == entries;
  }

  lemma ConcatAssoc<T>(a: seq<T>, b: seq<T>, c: seq<T>)
    ensures (a + b) + c == a + (b + c)
  {
  }

  /** The strategic loop: one record per overview chunk, numbered from 0. */
  method NumberStrategic(strategic: seq<Chunk>) returns (allChunks: seq<Record>, chunkId: nat)
    ensures chunkId == |strategic|
    ensures allChunks == StrategicRecords(strategic)
  {
    allChunks := [];
    chunkId := 0;
    while chunkId < |strategic|
      invariant 0 <= chunkId <= |strategic|
      invariant allChunks == StrategicRecords(strategic[..chunkId])
    {
      assert strategic[..chunkId + 1] == strategic[..chunkId] + [strategic[chunkId]];
      allChunks := allChunks + [StrategicRecord(strategic[chunkId], chunkId)];
      chunkId := chunkId + 1;
    }
    assert strategic[..chunkId] == strategic;
  }

  /** One turn of the file loop: skip the entry, or chunk the file and number its chunks. */
  method ProcessEntry(records: seq<Record>, chunkId: nat, entry: (string, string))
    returns (allChunks: seq<Record>, next: nat)
    ensures next == chunkId + |EntryChunks(entry, DocumentChunks)|
    ensures allChunks == records + FileRecords(EntryChunks(entry, DocumentChunks), chunkId)
  {
    var (filename, raw) := entry;
    var content := Strip(raw);
    if !EndsWith(filename, ".txt") || content == "" {
      return records, chunkId;
    }
    var docChunks := ChunkDocument(filename, content);
    allChunks, next := NumberChunks(records, chunkId, filename, docChunks);
  }

  /** The inner loop: one record per chunk of a file, numbered on from `chunkId`. */
  method NumberChunks(records: seq<Record>, chunkId: nat, filename: string, docChunks: seq<Chunk>)
    returns (allChunks: seq<Record>, next: nat)
    ensures next == chunkId + |docChunks|
    ensures allChunks == records + FileRecords(Tagged(filename, docChunks), chunkId)
  {
    allChunks := records;
    next := chunkId;
    var j := 0;
    while j < |docChunks|
      invariant 0 <= j <= |docChunks|
      invariant next == chunkId + j
      invariant allChunks == records + FileRecords(Tagged(filename, docChunks[..j]), chunkId)
    {
      assert Tagged(filename, docChunks[..j + 1]) == Tagged(filename, docChunks[..j]) + [(filename, docChunks[j])];
      FileRecordsConcat(Tagged(filename, docChunks[..j]), [(filename, docChunks[j])], chunkId);
      allChunks := allChunks + [FileRecord(filename, docChunks[j], next)];
      next := next + 1;
      j := j + 1;
    }
    assert docChunks[..j] == docChunks;
  }

  /** Dispatch to the document's rule, as the `document_rules` table does. */
  method ChunkDocument(filename: string, content: string) returns (docChunks: seq<Chunk>)
    ensures docChunks == DocumentChunks(filename, content)
  {
    if filename == "courses_detailed.txt" {
      docChunks := CoursesDetailed(content);
    } else if filename == "teachers_team.txt" {
      docChunks := TeachersTeam(content);
    } else if filename == "faq_detailed.txt" {
      docChunks := ChunkFaqDetailed(content);
    } else if filename == "methodology_approach.txt" {
      docChunks := ChunkMethodologyApproach(content);
    } else {
      docChunks := ChunkStandardDocument(content, DocType(filename));
    }
  }

  /**
   * Every record's identifier is different: the strategic ones are
   * `ukido-strategic-0` and `ukido-strategic-1`, the file ones continue the
   * counter as `ukido-2`, `ukido-3`, and so on. Every record's length is
   * that of its text, and a file record keeps the chunk's other keys.
   */
  lemma RecordsShape(coursesOverview: string, pricingOverview: string, entries: seq<(string, string)>,
                     rule: (string, string) -> seq<Chunk>)
    ensures var r := Records(coursesOverview, pricingOverview, entries, rule);
      var fc := FileChunks(entries, rule);
      && |r| == 2 + |fc|
      && (forall i :: 0 <= i < |r| ==> r[i].metadata.chunkLength == |r[i].text|)
      && (forall i :: 0 <= i < 2 ==> r[i].metadata.source == "strategic_overview" && r[i].id == StrategicPrefix + NatToString(i))
      && (forall i :: 2 <= i < |r| ==>
            && r[i].id == FilePrefix + NatToString(i)
            && r[i].metadata.source == fc[i - 2].0
            && r[i].text == fc[i - 2].1.text
            && r[i].metadata.extra == fc[i - 2].1.extra)
  {
    var st := StrategicRecords(StrategicOverviewChunks(coursesOverview, pricingOverview));
    var fr := FileRecords(FileChunks(entries, rule), 2);
    var r := Records(coursesOverview, pricingOverview, entries, rule);
    forall i | 0 <= i < |r| ensures r[i] == if i < 2 then st[i] else fr[i - 2] {
    }
  }

  /** No two records share an identifier. */
  lemma RecordIdsDistinct(coursesOverview: string, pricingOverview: string, entries: seq<(string, string)>,
                          rule: (string, string) -> seq<Chunk>)
    ensures var r := Records(coursesOverview, pricingOverview, entries, rule);
      forall i, j :: 0 <= i < j < |r| ==> r[i].id != r[j].id
  {
    var r := Records(coursesOverview, pricingOverview, entries, rule);
    RecordsShape(coursesOverview, pricingOverview, entries, rule);
    forall i, j | 0 <= i < j < |r| ensures r[i].id != r[j].id {
      if j < 2 {
        NumberedDistinct(StrategicPrefix, i, j);
      } else if i >= 2 {
        NumberedDistinct(FilePrefix, i, j);
      } else {
        StrategicNotFile(i, j);
      }
    }
  }

  /** A strategic identifier is never a file one: the seventh character is `s` or a digit. */
  lemma StrategicNotFile(m: nat, n: nat)
    ensures StrategicPrefix + NatToString(m) != FilePrefix + NatToString(n)
  {
    var a := StrategicPrefix + NatToString(m);
    var b := FilePrefix + NatToString(n);
    assert a[6] == 's';
    assert b[6] == NatToString(n)[0];
  }

  /** Only `.txt` files with something in them contribute chunks, each tagged with its file. */
  lemma {:induction false} FileChunksSources(entries: seq<(string, string)>, rule: (string, string) -> seq<Chunk>)
    ensures forall i :: 0 <= i < |FileChunks(entries, rule)| ==>
      exists e :: 0 <= e < |entries| && entries[e].0 == FileChunks(entries, rule)[i].0
                  && EndsWith(entries[e].0, ".txt") && Strip(entries[e].1) != ""
    decreases |entries|
  {
    if entries != [] {
      var init := entries[..|entries| - 1];
      FileChunksSources(init, rule);
      var prev := FileChunks(init, rule);
      var r := FileChunks(entries, rule);
      var last := entries[|entries| - 1];
      var tail := EntryChunks(last, rule);
      assert r == prev + tail;
      forall i | 0 <= i < |r|
        ensures exists e :: 0 <= e < |entries| && entries[e].0 == r[i].0
                            && EndsWith(entries[e].0, ".txt") && Strip(entries[e].1) != ""
      {
        if i < |prev| {
          assert r[i] == prev[i];
          var e :| 0 <= e < |init| && init[e].0 == prev[i].0 && EndsWith(init[e].0, ".txt") && Strip(init[e].1) != "";
          assert entries[e] == init[e];
        } else {
          assert r[i] == tail[i - |prev|];
          assert tail != [] && tail[i - |prev|].0 == last.0;
          assert EndsWith(entries[|entries| - 1].0, ".txt") && Strip(entries[|entries| - 1].1) != "";
        }
      }
      assert r == FileChunks(entries, rule);
      assert forall i :: 0 <= i < |r| ==>
        exists e :: 0 <= e < |entries| && entries[e].0 == r[i].0
                    && EndsWith(entries[e].0, ".txt") && Strip(entries[e].1) != "";
    } else {
      assert FileChunks(entries, rule) == [];
    }
  }
}
