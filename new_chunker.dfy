// The simple Markdown chunker of the school's facts base: course and
// teacher documents by their own rule, every other document one chunk per
// `---` section, and all chunks numbered `ukido-1`, `ukido-2`, ... in
// listing order.

module NewChunker {
  import opened Text
  import U = UkidoChunker

  type Chunk = U.Chunk

  const Separator: string := "\n---\n"

  /** `content.split('\n---\n')`. */
  function Sections(content: string): (r: seq<string>)
    ensures |r| >= 1
  {
    Split(content, Separator)
  }

  // ---------------------------------------------------------------------
  // Course documents

  const MinCourseSection: nat := 50
  const UnknownCourse: string := "unknown_course"

  predicate NotQuote(c: char) { c != '"' }

  /** `x` between double quotes. */
  function Quoted(x: string): string {
    ['"'] + x + ['"']
  }

  /** `"([^"]+)"` at the start of `w`: the non-empty title before the closing quote. */
  function QuotedTitle(w: string): (r: Option<string>)
    ensures r.Some? ==> |r.value| > 0 && AllChars(r.value, NotQuote) && Contains(w, Quoted(r.value))
  {
    if |w| == 0 || w[0] != '"' then None
    else
      var q := LeadingRun(w[1..], NotQuote);
      if q == 0 || q + 1 >= |w| then None
      else
        QuotedIn(w, q);
        Some(w[1..q + 1])
  }

  /** The quoted run at the start of `w` is a part of it. */
  lemma QuotedIn(w: string, q: nat)
    requires q + 2 <= |w| && w[0] == '"' && w[q + 1] == '"'
    ensures Contains(w, Quoted(w[1..q + 1]))
  {
    var quoted := Quoted(w[1..q + 1]);
    assert w[0..q + 2] == quoted;
    assert Contains(quoted, quoted);
    ContainsInfix(w, 0, q + 2, quoted);
  }

  /**
   * `\s*` + `mark` + `\s+"([^"]+)"` matched at the start of `t`: the title
   * between the quotes. Every repetition is forced (none of its characters
   * can begin what follows it), so the match, when there is one, is unique.
   */
  function MarkedTitle(t: string, mark: string): (r: Option<string>)
    ensures r.Some? ==> |r.value| > 0 && AllChars(r.value, NotQuote) && Contains(t, Quoted(r.value))
  {
    var a := LeadingRun(t, IsSpace);
    if !(mark <= t[a..]) then None
    else
      var v := t[a + |mark|..];
      var b := LeadingRun(v, IsSpace);
      if b == 0 then None
      else
        var r := QuotedTitle(v[b..]);
        if r.None? then None
        else
          ContainsSuffix(t, a + |mark| + b, Quoted(r.value));
          r
  }

  /** `re.search('#' + pattern, s)` from position `i` on: the leftmost `#` whose match succeeds. */
  function MarkedTitleFrom(s: string, i: nat, mark: string): (r: Option<string>)
    requires i <= |s|
    ensures r.Some? ==> |r.value| > 0 && AllChars(r.value, NotQuote) && Contains(s, Quoted(r.value))
    decreases |s| - i
  {
    if i == |s| then None
    else if s[i] == '#' && MarkedTitle(s[i + 1..], mark).Some? then
      var r := MarkedTitle(s[i + 1..], mark);
      ContainsSuffix(s, i + 1, Quoted(r.value));
      r
    else MarkedTitleFrom(s, i + 1, mark)
  }

  lemma ContainsSuffix(s: string, i: nat, p: string)
    requires i <= |s| && Contains(s[i..], p)
    ensures Contains(s, p)
  {
    assert s[i..] == s[i..|s|];
    ContainsInfix(s, i, |s|, p);
  }

  const CourseMark: string := "КУРС"

  /** `re.search(r'#\s*КУРС\s+"([^"]+)"', s).group(1)`. */
  function CourseTitle(s: string): (r: Option<string>)
    ensures r.Some? ==> |r.value| > 0 && AllChars(r.value, NotQuote) && Contains(s, Quoted(r.value))
  {
    MarkedTitleFrom(s, 0, CourseMark)
  }

  /** The `course` key: the title lower-cased with spaces made `_`, else `unknown_course`. */
  function CourseKey(s: string): string {
    match CourseTitle(s)
    case None => UnknownCourse
    case Some(t) => ReplaceAll(Lower(t), " ", "_")
  }

  function CourseChunk(s: string): Chunk {
    U.Chunk(s, "course_detail", [("course", CourseKey(s))])
  }

  /** One course chunk per kept text, in order. */
  function CourseChunksOf(kept: seq<string>): (r: seq<Chunk>)
    ensures |r| == |kept|
    ensures forall i :: 0 <= i < |kept| ==> r[i] == CourseChunk(kept[i])
  {
    seq(|kept|, i requires 0 <= i < |kept| => CourseChunk(kept[i]))
  }

  /** `chunk_courses` as a function of the document. */
  function CourseChunks(content: string): seq<Chunk> {
    CourseChunksOf(U.KeptSections(Sections(content), MinCourseSection))
  }

  lemma CourseChunksOfSnoc(kept: seq<string>, x: string)
    ensures CourseChunksOf(kept + [x]) == CourseChunksOf(kept) + [CourseChunk(x)]
  {
  }

  lemma KeptStep(sections: seq<string>, i: nat, minLength: nat)
    requires i < |sections|
    ensures U.KeptSections(sections[..i + 1], minLength)
            == U.KeptSections(sections[..i], minLength)
               + (if |Strip(sections[i])| < minLength then [] else [Strip(sections[i])])
  {
    assert sections[..i + 1][..i] == sections[..i];
  }

  method ChunkCourses(content: string) returns (chunks: seq<Chunk>)
    ensures chunks == CourseChunks(content)
  {
    var sections := Sections(content);
    chunks := [];
    var i := 0;
    while i < |sections|
      invariant 0 <= i <= |sections|
      invariant chunks == CourseChunksOf(U.KeptSections(sections[..i], MinCourseSection))
    {
      KeptStep(sections, i, MinCourseSection);
      var section := Strip(sections[i]);
      if |section| >= MinCourseSection {
        CourseChunksOfSnoc(U.KeptSections(sections[..i], MinCourseSection), section);
        chunks := chunks + [CourseChunk(section)];
      }
      i := i + 1;
    }
    assert sections[..i] == sections;
  }

  /** Replacing a character by a different one leaves none of it behind and keeps the length. */
  lemma {:induction false} ReplacedCharShape(s: string, c: char, d: char)
    requires c != d
    ensures c !in ReplaceAll(s, [c], [d])
    ensures |ReplaceAll(s, [c], [d])| == |s|
    decreases |s|
  {
    if |s| > 0 {
      ReplacedCharShape(s[1..], c, d);
    }
  }

  /**
   * A course chunk holds a stripped section of at least 50 characters, and
   * every such section gives one; its key is `unknown_course` exactly when
   * the section has no quoted course heading, and otherwise has no space.
   */
  lemma CourseChunksShape(content: string, x: string)
    ensures (exists i :: 0 <= i < |CourseChunks(content)| && CourseChunks(content)[i].text == x)
            <==> |x| >= MinCourseSection && exists j :: 0 <= j < |Sections(content)| && Strip(Sections(content)[j]) == x
    ensures forall i :: 0 <= i < |CourseChunks(content)| ==>
      var ch := CourseChunks(content)[i];
      && ch.kind == "course_detail"
      && ch.extra == [("course", CourseKey(ch.text))]
  {
    var kept := U.KeptSections(Sections(content), MinCourseSection);
    U.KeptSectionsMembers(Sections(content), MinCourseSection, x);
    if exists i :: 0 <= i < |CourseChunks(content)| && CourseChunks(content)[i].text == x {
      var i :| 0 <= i < |CourseChunks(content)| && CourseChunks(content)[i].text == x;
      assert kept[i] == x;
    }
    if x in kept {
      var i :| 0 <= i < |kept| && kept[i] == x;
      assert CourseChunks(content)[i].text == x;
    }
  }

  /** The course key is `unknown_course` without a title; with one, it is as long as the title and has no space. */
  lemma CourseKeyShape(s: string)
    ensures CourseTitle(s).None? ==> CourseKey(s) == UnknownCourse
    ensures CourseTitle(s).Some? ==> ' ' !in CourseKey(s) && |CourseKey(s)| == |CourseTitle(s).value|
  {
    if CourseTitle(s).Some? {
      ReplacedCharShape(Lower(CourseTitle(s).value), ' ', '_');
    }
  }

  // ---------------------------------------------------------------------
  // Teacher documents

  const MinTeacherSection: nat := 100

  predicate IsNameChar(c: char) { IsSpace(c) || IsUpperCyrillic(c) }

  /**
   * `re.search(r'#\s*([А-ЯЁ]+\s+[А-ЯЁ]+(\s+[А-ЯЁ]+)?)\s*$', s).group(1)` as
   * written, without `re.MULTILINE`: `$` holds only at the end of the text,
   * so everything after the `#` must be whitespace and two or three words of
   * capital Cyrillic letters. Only the last `#` can begin such a match, as
   * any earlier one has a `#` after it. The name is the words with the
   * whitespace between them.
   */
  function NameAtEnd(s: string): (r: Option<string>)
    ensures r.Some? ==> exists i :: 0 <= i < |s| && s[i] == '#' && AllChars(s[i + 1..], IsNameChar)
  {
    match LastIndexOf(s, '#')
    case None => None
    case Some(i) =>
      var tail := s[i + 1..];
      if AllChars(tail, IsNameChar) && 2 <= |Words(tail)| <= 3 then Some(Strip(tail)) else None
  }

  /** The first line of the text whose heading names a teacher. */
  function FirstLineName(lines: seq<string>): Option<string> {
    if lines == [] then None
    else match NameAtEnd(lines[0])
      case Some(n) => Some(n)
      case None => FirstLineName(lines[1..])
  }

  /**
   * The heading as evidently intended (the comment beside the pattern asks
   * for a heading made only of the two or three capital words): the
   * pattern applied to each line on its own. This is close to the pattern
   * with `re.MULTILINE` but not the same: there `\s` may also match a
   * newline, so a heading split across lines (`#` on one line, the name on
   * the next, or the two words on two lines) would match, while this
   * reading does not find it.
   */
  function NameOnLine(s: string): Option<string> {
    FirstLineName(Split(s, "\n"))
  }

  /** The `teacher` key: the name lower-cased with spaces made `_`. */
  function TeacherKey(name: string): string {
    ReplaceAll(Lower(name), " ", "_")
  }

  function ExperienceText(name: string, years: string): string {
    "Опыт работы " + name + " составляет " + years + " лет."
  }

  predicate HasDigit(s: string) {
    exists i :: 0 <= i < |s| && IsAsciiDigit(s[i])
  }

  predicate NotDigit(c: char) { !IsAsciiDigit(c) }

  /**
   * `re.search(r'(\d+)[^\d]*лет', s, re.I).group(1)` from position `i` on:
   * the first run of digits followed, before the next digit, by `лет` in
   * any case. A search begun inside a run ends where the run does, so it
   * fails when the search at the run's start fails.
   */
  function YearsFrom(s: string, i: nat): (r: Option<string>)
    requires i <= |s|
    ensures r.Some? ==> |r.value| > 0 && AllChars(r.value, IsAsciiDigit) && Contains(s, r.value)
    decreases |s| - i
  {
    if i == |s| then None
    else if !IsAsciiDigit(s[i]) then YearsFrom(s, i + 1)
    else
      var n := LeadingRun(s[i..], IsAsciiDigit);
      var rest := s[i + n..];
      var gap := LeadingRun(rest, NotDigit);
      if Contains(Lower(rest[..gap]), "лет") then
        assert s[i..][..n] == s[i..i + n];
        assert Contains(s[i..i + n], s[i..i + n]);
        ContainsInfix(s, i, i + n, s[i..i + n]);
        Some(s[i..i + n])
      else YearsFrom(s, i + n)
  }

  function Years(s: string): (r: Option<string>)
    ensures r.Some? ==> |r.value| > 0 && AllChars(r.value, IsAsciiDigit) && Contains(s, r.value)
  {
    YearsFrom(s, 0)
  }

  /** The experience micro-chunk is made when `опыт` occurs, some digit occurs and a number of years is found. */
  predicate HasExperience(s: string) {
    Contains(Lower(s), "опыт") && HasDigit(s) && Years(s).Some?
  }

  /** The chunks of one kept section with the name its heading gives. */
  function TeacherSectionChunks(s: string, name: Option<string>): seq<Chunk> {
    if name.None? then []
    else
      var key := TeacherKey(name.value);
      [U.Chunk(s, "teacher_overview", [("teacher", key)])]
      + if HasExperience(s)
        then [U.Chunk(ExperienceText(name.value, Years(s).value), "teacher_experience", [("teacher", key)])]
        else []
  }

  /** The chunks of one section: nothing under 100 characters once stripped. */
  function TeacherSectionOf(section: string, nameOf: string -> Option<string>): seq<Chunk> {
    var s := Strip(section);
    if |s| < MinTeacherSection then [] else TeacherSectionChunks(s, nameOf(s))
  }

  function TeacherChunksOf(sections: seq<string>, nameOf: string -> Option<string>): seq<Chunk> {
    if sections == [] then []
    else TeacherChunksOf(sections[..|sections| - 1], nameOf) + TeacherSectionOf(sections[|sections| - 1], nameOf)
  }

  /** `chunk_teachers` with the heading pattern as written. */
  function TeacherChunksAsWritten(content: string): seq<Chunk> {
    TeacherChunksOf(Sections(content), NameAtEnd)
  }

  /** `chunk_teachers` with the heading pattern read line by line. */
  function TeacherChunks(content: string): seq<Chunk> {
    TeacherChunksOf(Sections(content), NameOnLine)
  }

  lemma TeacherChunksStep(sections: seq<string>, i: nat, nameOf: string -> Option<string>)
    requires i < |sections|
    ensures TeacherChunksOf(sections[..i + 1], nameOf) == TeacherChunksOf(sections[..i], nameOf) + TeacherSectionOf(sections[i], nameOf)
  {
    assert sections[..i + 1][..i] == sections[..i];
  }

  method ChunkTeachers(content: string) returns (chunks: seq<Chunk>)
    ensures chunks == TeacherChunks(content)
  {
    var sections := Sections(content);
    chunks := [];
    var i := 0;
    while i < |sections|
      invariant 0 <= i <= |sections|
      invariant chunks == TeacherChunksOf(sections[..i], NameOnLine)
    {
      TeacherChunksStep(sections, i, NameOnLine);
      var section := Strip(sections[i]);
      i := i + 1;
      if |section| < MinTeacherSection {
        continue;
      }
      var sectionChunks := ChunkTeacherSection(section);
      chunks := chunks + sectionChunks;
    }
    assert sections[..i] == sections;
  }

  /** The overview chunk of a named section and its experience micro-chunk. */
  method ChunkTeacherSection(section: string) returns (chunks: seq<Chunk>)
    ensures chunks == TeacherSectionChunks(section, NameOnLine(section))
  {
    chunks := [];
    var nameMatch := NameOnLine(section);
    if nameMatch.Some? {
      var teacherName := nameMatch.value;
      var key := TeacherKey(teacherName);
      chunks := [U.Chunk(section, "teacher_overview", [("teacher", key)])];
      if Contains(Lower(section), "опыт") && HasDigit(section) {
        var experienceMatch := Years(section);
        if experienceMatch.Some? {
          chunks := chunks + [U.Chunk(ExperienceText(teacherName, experienceMatch.value), "teacher_experience", [("teacher", key)])];
        }
      }
    }
  }

  /**
   * A kept section gives nothing without a name, and otherwise its overview
   * chunk, keyed by the name, followed by at most one experience chunk under
   * the same key.
   */
  lemma TeacherSectionShape(s: string, name: Option<string>)
    ensures var cs := TeacherSectionChunks(s, name);
      && (cs == [] <==> name.None?)
      && |cs| <= 2
      && (name.Some? ==> cs[0] == U.Chunk(s, "teacher_overview", [("teacher", TeacherKey(name.value))]))
      && (|cs| == 2 <==> name.Some? && HasExperience(s))
      && (|cs| == 2 ==> cs[1].kind == "teacher_experience" && cs[1].extra == cs[0].extra)
  {
  }

  // The heading pattern as written finds no name in a section whose heading
  // comes first; read line by line it does.

  predicate IsCapitalWord(w: string) {
    |w| > 0 && AllChars(w, IsUpperCyrillic)
  }

  function HeadingLine(first: string, last: string): string {
    "# " + first + " " + last
  }

  /**
   * As written: once the text after the heading has a `#`-free line with a
   * character that is neither whitespace nor a capital Cyrillic letter, no
   * name is found, whatever the heading.
   */
  lemma AsWrittenMissesHeading(h: string, body: string, k: nat)
    requires '#' !in body && k < |body| && !IsNameChar(body[k])
    ensures NameAtEnd(h + "\n" + body) == None
  {
    var s := h + "\n" + body;
    assert forall j :: |h| <= j < |s| ==> s[j] != '#' by {
      forall j | |h| <= j < |s| ensures s[j] != '#' {
        if j > |h| {
          assert s[j] == body[j - |h| - 1];
        }
      }
    }
    match LastIndexOf(s, '#')
    case None =>
    case Some(i) =>
      var tail := s[i + 1..];
      assert tail[|h| - i + k] == body[k];
  }

  /** Read line by line, a first line `# FIRST LAST` names the teacher `FIRST LAST`. */
  lemma LineByLineFindsHeading(first: string, last: string, body: string)
    requires IsCapitalWord(first) && IsCapitalWord(last)
    ensures NameOnLine(HeadingLine(first, last) + "\n" + body) == Some(first + " " + last)
  {
    var h := HeadingLine(first, last);
    var s := h + "\n" + body;
    FirstLineIsHeading(h, body);
    HeadingNamed(first, last);
    assert Split(s, "\n") == [h] + Split(s[|h| + 1..], "\n");
  }

  /** The heading line holds no newline, so it is the first line. */
  lemma FirstLineIsHeading(h: string, body: string)
    requires '\n' !in h
    ensures IndexOf(h + "\n" + body, "\n") == Some(|h|)
    ensures (h + "\n" + body)[..|h|] == h
  {
    var s := h + "\n" + body;
    assert OccursAt(s, "\n", |h|) by {
      assert s[|h|..][..1] == "\n";
    }
    assert forall j :: 0 <= j < |h| ==> !OccursAt(s, "\n", j) by {
      forall j | 0 <= j < |h| ensures !OccursAt(s, "\n", j) {
        assert s[j] == h[j];
      }
    }
    IndexOfFirst(s, "\n");
  }

  lemma HeadingNamed(first: string, last: string)
    requires IsCapitalWord(first) && IsCapitalWord(last)
    ensures '\n' !in HeadingLine(first, last)
    ensures NameAtEnd(HeadingLine(first, last)) == Some(first + " " + last)
  {
    var name := first + " " + last;
    var tail := " " + name;
    assert HeadingLine(first, last) == "#" + tail;
    NameTailChars(first, last);
    WordsOfName(first, last);
    NameStrips(first, last);
    NameAfterHash(tail);
  }

  lemma NameStrips(first: string, last: string)
    requires IsCapitalWord(first) && IsCapitalWord(last)
    ensures Strip(" " + (first + " " + last)) == first + " " + last
  {
    var name := first + " " + last;
    assert name[0] == first[0] && IsUpperCyrillic(first[0]);
    assert name[|name| - 1] == last[|last| - 1] && IsUpperCyrillic(last[|last| - 1]);
    StripPadded(name);
  }

  /** A `#`-free tail of name characters holding two or three words is the name. */
  lemma NameAfterHash(tail: string)
    requires '#' !in tail && AllChars(tail, IsNameChar) && 2 <= |Words(tail)| <= 3
    ensures NameAtEnd("#" + tail) == Some(Strip(tail))
  {
    HashThenTail(tail);
  }

  /** The text after the `#` of a heading line is spaces and capital letters. */
  lemma NameTailChars(first: string, last: string)
    requires IsCapitalWord(first) && IsCapitalWord(last)
    ensures var tail := " " + (first + " " + last);
      AllChars(tail, IsNameChar) && '#' !in tail && '\n' !in tail
  {
    var tail := " " + (first + " " + last);
    forall j | 0 <= j < |tail| ensures tail[j] == ' ' || IsUpperCyrillic(tail[j]) {
      if 1 <= j < 1 + |first| {
        assert tail[j] == first[j - 1];
      } else if j >= 2 + |first| {
        assert tail[j] == last[j - 2 - |first|];
      }
    }
  }

  /** In `#` followed by a `#`-free tail, the last `#` is the first character. */
  lemma HashThenTail(tail: string)
    requires '#' !in tail
    ensures LastIndexOf("#" + tail, '#') == Some(0)
    ensures ("#" + tail)[1..] == tail
  {
    var h := "#" + tail;
    assert h[0] == '#';
    forall j | 1 <= j < |h| ensures h[j] != '#' {
      assert h[j] == tail[j - 1];
    }
  }

  lemma WordsOfName(first: string, last: string)
    requires IsCapitalWord(first) && IsCapitalWord(last)
    ensures Words(" " + (first + " " + last)) == [first, last]
  {
    CapitalIsWord(first);
    CapitalIsWord(last);
    var x := first + " " + last;
    assert x == first + (" " + last);
    WordsSpace(x);
    WordsAfterWord(first, last);
    WordsSingle(last);
  }

  lemma CapitalIsWord(w: string)
    requires IsCapitalWord(w)
    ensures IsWord(w)
  {
    forall i | 0 <= i < |w| ensures !IsSpace(w[i]) {
      assert IsUpperCyrillic(w[i]);
    }
  }

  /** A name with a leading space strips to the name. */
  lemma StripPadded(name: string)
    requires |name| > 0 && !IsSpace(name[0]) && !IsSpace(name[|name| - 1])
    ensures Strip(" " + name) == name
  {
    var t := " " + name;
    assert t[1..] == name;
    assert TrimLeft(t, Whitespace) == TrimLeft(name, Whitespace);
    assert name[0] !in Whitespace && name[|name| - 1] !in Whitespace;
  }

  /** Every teacher chunk is an overview or an experience chunk keyed by the teacher alone. */
  lemma {:induction false} TeacherChunksKinds(sections: seq<string>, nameOf: string -> Option<string>)
    ensures forall c :: c in TeacherChunksOf(sections, nameOf) ==> TeacherKind(c)
    decreases |sections|
  {
    if sections != [] {
      var a := TeacherChunksOf(sections[..|sections| - 1], nameOf);
      var b := TeacherSectionOf(sections[|sections| - 1], nameOf);
      TeacherChunksKinds(sections[..|sections| - 1], nameOf);
      TeacherSectionKinds(sections[|sections| - 1], nameOf);
      assert TeacherChunksOf(sections, nameOf) == a + b;
    }
  }

  predicate TeacherKind(c: Chunk) {
    && (c.kind == "teacher_overview" || c.kind == "teacher_experience")
    && |c.extra| == 1 && c.extra[0].0 == "teacher"
  }

  lemma TeacherSectionKinds(section: string, nameOf: string -> Option<string>)
    ensures forall c :: c in TeacherSectionOf(section, nameOf) ==> TeacherKind(c)
  {
  }

  // ---------------------------------------------------------------------
  // chunk_standard_file: every section becomes one chunk
  // ---------------------------------------------------------------------

  /** `filename.replace('.md', '').replace('.txt', '')`. */
  function DocKind(filename: string): string {
    ReplaceAll(ReplaceAll(filename, ".md", ""), ".txt", "")
  }

  /** A name holding neither extension is its own chunk type. */
  lemma DocKindPlain(filename: string)
    requires !Contains(filename, ".md") && !Contains(filename, ".txt")
    ensures DocKind(filename) == filename
  {
    ReplaceAbsent(filename, ".md", "");
    ReplaceAbsent(filename, ".txt", "");
  }

  function StandardChunk(section: string, filename: string): Chunk {
    U.Chunk(Strip(section), DocKind(filename), [])
  }

  /** One chunk per section, in order: an empty section still gives a chunk. */
  function StandardChunksOf(sections: seq<string>, filename: string): seq<Chunk> {
    seq(|sections|, i requires 0 <= i < |sections| => StandardChunk(sections[i], filename))
  }

  function StandardChunks(content: string, filename: string): seq<Chunk> {
    StandardChunksOf(Sections(content), filename)
  }

  method ChunkStandardFile(content: string, filename: string) returns (chunks: seq<Chunk>)
    ensures chunks == StandardChunks(content, filename)
  {
    var sections := Sections(content);
    chunks := [];
    var i := 0;
    while i < |sections|
      invariant 0 <= i <= |sections|
      invariant chunks == StandardChunksOf(sections[..i], filename)
    {
      var section := Strip(sections[i]);
      chunks := chunks + [U.Chunk(section, DocKind(filename), [])];
      i := i + 1;
    }
    assert sections[..i] == sections;
  }

  /**
   * Nothing of a standard file is lost: there is one chunk per piece of the
   * file between separators, no piece holds a separator, joining the pieces
   * with the separator gives the file back, and each chunk is its piece
   * stripped, typed by the file name, with no other key.
   */
  lemma StandardChunksCover(content: string, filename: string)
    ensures var pieces := Sections(content);
      var cs := StandardChunks(content, filename);
      && |cs| == |pieces| >= 1
      && Join(pieces, Separator) == content
      && (forall k :: 0 <= k < |pieces| ==> !Contains(pieces[k], Separator))
      && (forall k :: 0 <= k < |cs| ==> cs[k].text == Strip(pieces[k]) && cs[k].kind == DocKind(filename) && cs[k].extra == [])
  {
    JoinSplit(content, Separator);
    SplitPiecesFree(content, Separator);
  }

  // ---------------------------------------------------------------------
  // process_files: route each listed file, then number every chunk from 1
  // ---------------------------------------------------------------------

  /** `f.endswith(('.md', '.txt'))`. */
  predicate Listed(filename: string) {
    EndsWith(filename, ".md") || EndsWith(filename, ".txt")
  }

  /** The routing on the file name: courses, then teachers, then the standard split. */
  function RoutedChunks(filename: string, content: string): seq<Chunk> {
    if Contains(filename, "courses") then CourseChunks(content)
    else if Contains(filename, "teachers") then TeacherChunks(content)
    else StandardChunks(content, filename)
  }

  /** The chunks of a directory listing of `(name, content)` entries, tagged with their file. */
  function ListingChunks(entries: seq<(string, string)>, route: (string, string) -> seq<Chunk>): seq<(string, Chunk)>
    decreases |entries|
  {
    if entries == [] then []
    else ListingChunks(entries[..|entries| - 1], route) + ListedEntryChunks(entries[|entries| - 1], route)
  }

  function ListedEntryChunks(entry: (string, string), route: (string, string) -> seq<Chunk>): seq<(string, Chunk)> {
    if Listed(entry.0) then U.Tagged(entry.0, route(entry.0, entry.1)) else []
  }

  lemma ListingChunksStep(entries: seq<(string, string)>, e: nat, route: (string, string) -> seq<Chunk>)
    requires e < |entries|
    ensures ListingChunks(entries[..e + 1], route) == ListingChunks(entries[..e], route) + ListedEntryChunks(entries[e], route)
  {
    assert entries[..e + 1][..e] == entries[..e];
  }

  /** A record: its id, its text and the metadata `source`, `type` and the chunk's other keys. */
  datatype Record = Record(id: string, text: string, source: string, kind: string, extra: seq<(string, string)>)

  const IdPrefix: string := "ukido-"

  function ChunkRecord(filename: string, c: Chunk, n: nat): Record {
    Record(IdPrefix + NatToString(n), c.text, filename, c.kind, c.extra)
  }

  /** The tagged chunks numbered on from `last + 1`. */
  function NumberedRecords(fc: seq<(string, Chunk)>, last: nat): (r: seq<Record>)
    ensures |r| == |fc|
    ensures forall i :: 0 <= i < |fc| ==> r[i] == ChunkRecord(fc[i].0, fc[i].1, last + i + 1)
  {
    seq(|fc|, i requires 0 <= i < |fc| => ChunkRecord(fc[i].0, fc[i].1, last + i + 1))
  }

  lemma NumberedRecordsConcat(a: seq<(string, Chunk)>, b: seq<(string, Chunk)>, last: nat)
    ensures NumberedRecords(a + b, last) == NumberedRecords(a, last) + NumberedRecords(b, last + |a|)
  {
    var l := NumberedRecords(a + b, last);
    var r := NumberedRecords(a, last) + NumberedRecords(b, last + |a|);
    forall i | 0 <= i < |l| ensures l[i] == r[i] {
      if i >= |a| {
        assert (a + b)[i] == b[i - |a|];
      }
    }
  }

  function Records(entries: seq<(string, string)>): seq<Record> {
    NumberedRecords(ListingChunks(entries, RoutedChunks), 0)
  }

  method ProcessFiles(entries: seq<(string, string)>) returns (allChunks: seq<Record>)
    ensures allChunks == Records(entries)
  {
    allChunks := [];
    var chunkId := 0;
    var e := 0;
    while e < |entries|
      invariant 0 <= e <= |entries|
      invariant chunkId == |ListingChunks(entries[..e], RoutedChunks)|
      invariant allChunks == NumberedRecords(ListingChunks(entries[..e], RoutedChunks), 0)
    {
      RecordsStep(entries, e, RoutedChunks);
      allChunks, chunkId := ProcessEntry(allChunks, chunkId, entries[e]);
      e := e + 1;
    }
    assert entries[..e] == entries;
  }

  /** The records of a listing one entry longer: the entry's, numbered on, come last. */
  lemma RecordsStep(entries: seq<(string, string)>, e: nat, route: (string, string) -> seq<Chunk>)
    requires e < |entries|
    ensures var a := ListingChunks(entries[..e], route);
      var b := ListedEntryChunks(entries[e], route);
      && |ListingChunks(entries[..e + 1], route)| == |a| + |b|
      && NumberedRecords(ListingChunks(entries[..e + 1], route), 0) == NumberedRecords(a, 0) + NumberedRecords(b, |a|)
  {
    var a := ListingChunks(entries[..e], route);
    var b := ListedEntryChunks(entries[e], route);
    var full := ListingChunks(entries[..e + 1], route);
    ListingChunksStep(entries, e, route);
    assert full == a + b;
    NumberedRecordsConcat(a, b, 0);
  }

  /** One turn of the file loop: a listed file is chunked and its chunks numbered on. */
  method ProcessEntry(records: seq<Record>, chunkId: nat, entry: (string, string))
    returns (allChunks: seq<Record>, next: nat)
    ensures next == chunkId + |ListedEntryChunks(entry, RoutedChunks)|
    ensures allChunks == records + NumberedRecords(ListedEntryChunks(entry, RoutedChunks), chunkId)
  {
    var (filename, content) := entry;
    if Listed(filename) {
      var chunks := ChunkFile(filename, content);
      allChunks, next := NumberFileChunks(records, chunkId, filename, chunks);
    } else {
      allChunks, next := records, chunkId;
    }
  }

  /** The choice of chunking method. */
  method ChunkFile(filename: string, content: string) returns (chunks: seq<Chunk>)
    ensures chunks == RoutedChunks(filename, content)
  {
    if Contains(filename, "courses") {
      chunks := ChunkCourses(content);
    } else if Contains(filename, "teachers") {
      chunks := ChunkTeachers(content);
    } else {
      chunks := ChunkStandardFile(content, filename);
    }
  }

  /** The inner loop: each chunk of one file gets the next id. */
  method NumberFileChunks(records: seq<Record>, chunkId: nat, filename: string, chunks: seq<Chunk>)
    returns (allChunks: seq<Record>, next: nat)
    ensures next == chunkId + |chunks|
    ensures allChunks == records + NumberedRecords(U.Tagged(filename, chunks), chunkId)
  {
    allChunks := records;
    next := chunkId;
    var j := 0;
    while j < |chunks|
      invariant 0 <= j <= |chunks|
      invariant next == chunkId + j
      invariant allChunks == records + NumberedRecords(U.Tagged(filename, chunks[..j]), chunkId)
    {
      assert U.Tagged(filename, chunks[..j + 1]) == U.Tagged(filename, chunks[..j]) + [(filename, chunks[j])];
      NumberedRecordsConcat(U.Tagged(filename, chunks[..j]), [(filename, chunks[j])], chunkId);
      next := next + 1;
      allChunks := allChunks + [ChunkRecord(filename, chunks[j], next)];
      j := j + 1;
    }
    assert chunks[..j] == chunks;
  }

  /** Every tagged chunk comes from a listed file and carries that file's routed chunk. */
  lemma {:induction false} ListingChunksFrom(entries: seq<(string, string)>, route: (string, string) -> seq<Chunk>)
    ensures forall k :: 0 <= k < |ListingChunks(entries, route)| ==>
      var (f, c) := ListingChunks(entries, route)[k];
      Listed(f) && exists e :: 0 <= e < |entries| && entries[e].0 == f && c in route(f, entries[e].1)
    decreases |entries|
  {
    if entries != [] {
      var init := entries[..|entries| - 1];
      ListingChunksFrom(init, route);
      var a := ListingChunks(init, route);
      var b := ListedEntryChunks(entries[|entries| - 1], route);
      forall k | 0 <= k < |a + b|
        ensures var (f, c) := (a + b)[k];
          Listed(f) && exists e :: 0 <= e < |entries| && entries[e].0 == f && c in route(f, entries[e].1)
      {
        if k < |a| {
          var (f, c) := a[k];
          var e :| 0 <= e < |init| && init[e].0 == f && c in route(f, init[e].1);
          assert entries[e] == init[e];
        } else {
          assert (a + b)[k] == b[k - |a|];
          assert b[k - |a|].1 == route(entries[|entries| - 1].0, entries[|entries| - 1].1)[k - |a|];
        }
      }
    }
  }

  /**
   * The records are `ukido-1`, `ukido-2`, ... in order, each one's source a
   * listed file, and no two share an id.
   */
  lemma RecordsShape(entries: seq<(string, string)>)
    ensures var r := Records(entries);
      && |r| == |ListingChunks(entries, RoutedChunks)|
      && (forall i :: 0 <= i < |r| ==> r[i].id == IdPrefix + NatToString(i + 1) && Listed(r[i].source))
      && (forall i, j :: 0 <= i < j < |r| ==> r[i].id != r[j].id)
  {
    var r := Records(entries);
    ListingChunksFrom(entries, RoutedChunks);
    forall i | 0 <= i < |r| ensures Listed(r[i].source) {
      var (f, c) := ListingChunks(entries, RoutedChunks)[i];
    }
    forall i, j | 0 <= i < j < |r| ensures r[i].id != r[j].id {
      NumberedDistinct(IdPrefix, i + 1, j + 1);
    }
  }

  /** The routing: a courses file gives course chunks, a teachers file teacher chunks. */
  lemma RoutedKinds(filename: string, content: string)
    ensures Contains(filename, "courses") ==>
      forall c :: c in RoutedChunks(filename, content) ==> c.kind == "course_detail"
    ensures !Contains(filename, "courses") && Contains(filename, "teachers") ==>
      forall c :: c in RoutedChunks(filename, content) ==> c.kind == "teacher_overview" || c.kind == "teacher_experience"
    ensures !Contains(filename, "courses") && !Contains(filename, "teachers") ==>
      forall c :: c in RoutedChunks(filename, content) ==> c.kind == DocKind(filename) && c.extra == []
  {
    CourseChunksShape(content, "");
    TeacherChunksKinds(Sections(content), NameOnLine);
  }
}
