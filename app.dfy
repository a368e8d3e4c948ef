// The request-level shortcuts of the web application: canned answers for
// short messages, the action token that becomes a lesson link, and the
// keyword steps that decide whether an answer may joke.

module App {
  import opened Text
  import Config
  import Conversation

  // ---------------------------------------------------------------------
  // Fast responses

  const PriceAnswer: string := "Стоимость курсов от 6000 до 8000 грн в месяц. Первый урок бесплатный!"

  /** The `fast_responses` dictionary, in insertion order. */
  const FastKeys: seq<string> := [
    "цена", "стоимость", "сколько стоит", "пробный", "урок", "возраст", "время", "записаться"]
  const FastAnswers: seq<string> := [
    PriceAnswer, PriceAnswer, PriceAnswer,
    "Отлично! Первый урок у нас бесплатный.",
    "У нас есть курсы soft-skills для детей 7-17 лет. Первый урок бесплатный!",
    "Курсы для детей 7-17 лет, группы: 7-9, 10-12, 13-17 лет.",
    "Расписание гибкое, подстраиваемся под удобное время.",
    "Замечательно! Давайте запишем на бесплатный пробный урок."]

  /** The keys whose answer carries the lesson link. */
  const LinkKeys: seq<string> := ["пробный", "записаться", "урок"]

  function WithLessonLink(answer: string, baseUrl: string, chatId: string): string {
    answer + "\n\n🔗 " + Config.LessonUrl(baseUrl, chatId)
  }

  /** The answer stored under key `i`, with the lesson link for the booking keys. */
  function FastAnswer(i: nat, chatId: string, baseUrl: string): string
    requires i < |FastKeys|
  {
    if FastKeys[i] in LinkKeys then WithLessonLink(FastAnswers[i], baseUrl, chatId) else FastAnswers[i]
  }

  /** The loop over the dictionary: the answer of the first key the text contains. */
  function LookupFast(lower: string, chatId: string, baseUrl: string): Option<string> {
    match FirstKey(lower, FastKeys)
    case None => None
    case Some(i) => Some(FastAnswer(i, chatId, baseUrl))
  }

  /** `get_fast_response`; `baseUrl` is the configured `BASE_URL`. */
  function GetFastResponse(message: string, chatId: string, baseUrl: string): (r: Option<string>)
    ensures |Words(Strip(Lower(message)))| > 3 ==> r.None?
  {
    var lower := Strip(Lower(message));
    if |Words(lower)| > 3 then None else LookupFast(lower, chatId, baseUrl)
  }

  lemma LookupFastChoice(lower: string, chatId: string, baseUrl: string, i: nat)
    requires i < |FastKeys| && Contains(lower, FastKeys[i])
    requires forall j :: 0 <= j < i ==> !Contains(lower, FastKeys[j])
    ensures LookupFast(lower, chatId, baseUrl) == Some(FastAnswer(i, chatId, baseUrl))
  {
    FirstKeyIsFirst(lower, FastKeys, i);
  }

  /**
   * A message of at most three words gets the answer of the first key it
   * contains, with the chat's lesson link for the three booking keys.
   */
  lemma FastResponseChoice(message: string, chatId: string, baseUrl: string, i: nat)
    requires |Words(Strip(Lower(message)))| <= 3
    requires i < |FastKeys| && Contains(Strip(Lower(message)), FastKeys[i])
    requires forall j :: 0 <= j < i ==> !Contains(Strip(Lower(message)), FastKeys[j])
    ensures GetFastResponse(message, chatId, baseUrl) == Some(FastAnswer(i, chatId, baseUrl))
  {
    LookupFastChoice(Strip(Lower(message)), chatId, baseUrl, i);
  }

  /** No answer exactly for long messages and for messages that contain no key. */
  lemma NoFastResponse(message: string, chatId: string, baseUrl: string)
    ensures GetFastResponse(message, chatId, baseUrl).None?
            <==> (|Words(Strip(Lower(message)))| > 3
                  || forall j :: 0 <= j < |FastKeys| ==> !Contains(Strip(Lower(message)), FastKeys[j]))
  {
    LookupFastNone(Strip(Lower(message)), chatId, baseUrl);
  }

  lemma LookupFastNone(lower: string, chatId: string, baseUrl: string)
    ensures LookupFast(lower, chatId, baseUrl).None?
            <==> forall j :: 0 <= j < |FastKeys| ==> !Contains(lower, FastKeys[j])
  {
    var k := FirstKey(lower, FastKeys);
    if k.Some? {
      assert !Contains(lower, FastKeys[k.value]) ==> false;
    }
  }

  /** A booking answer ends with the lesson link of the chat that asked. */
  lemma LinkAnswerEndsWithLesson(answer: string, baseUrl: string, chatId: string)
    ensures EndsWith(WithLessonLink(answer, baseUrl, chatId), Config.LessonUrl(baseUrl, chatId))
  {
    var u := Config.LessonUrl(baseUrl, chatId);
    var w := WithLessonLink(answer, baseUrl, chatId);
    assert w == (answer + "\n\n🔗 ") + u;
    assert w[|w| - |u|..] == u;
  }

  // ---------------------------------------------------------------------
  // Action tokens

  const LinkIntro: string := "Отлично!" + " Вот ссылка для записи на бесплатный пробный урок:\n🔗 "

  function LinkText(baseUrl: string, chatId: string): string {
    "\n\n" + LinkIntro + Config.LessonUrl(baseUrl, chatId)
  }

  /** `_process_action_tokens`. */
  function ProcessActionTokens(response: string, chatId: string, baseUrl: string): (r: string)
    ensures !Contains(response, Conversation.ActionToken) ==> r == response
  {
    if Contains(response, Conversation.ActionToken)
    then Strip(ReplaceAll(response, Conversation.ActionToken, LinkText(baseUrl, chatId)))
    else response
  }

  /** A response with the token comes back holding the link text for the chat's lesson page. */
  lemma ActionTokenGivesLink(response: string, chatId: string, baseUrl: string)
    requires Contains(response, Conversation.ActionToken)
    ensures Contains(ProcessActionTokens(response, chatId, baseUrl), LinkIntro + baseUrl + Config.LessonPath)
  {
    var p := LinkIntro + baseUrl + Config.LessonPath;
    LinkTextContains("\n\n", LinkIntro, baseUrl, Config.LessonPath, chatId);
    assert "Отлично!"[0] == 'О' && p[0] == LinkIntro[0];
    assert "/lesson?user_id="[15] == '=' && p[|p| - 1] == Config.LessonPath[|Config.LessonPath| - 1];
    ReplaceStripKeeps(response, Conversation.ActionToken, LinkText(baseUrl, chatId), p);
  }

  lemma LinkTextContains(pre: string, intro: string, baseUrl: string, path: string, chatId: string)
    ensures Contains(pre + intro + (baseUrl + path + chatId), intro + baseUrl + path)
  {
    assert pre + intro + (baseUrl + path + chatId) == pre + (intro + baseUrl + path) + chatId;
    ContainsMiddle(pre, intro + baseUrl + path, chatId);
  }

  // ---------------------------------------------------------------------
  // Humour gate

  const SensitiveKeywords: seq<string> := [
    "болезнь", "болеет", "больница", "врач", "диагноз", "лечение", "операция",
    "смерть", "умер", "похоронили", "трагедия", "несчастье", "беда",
    "инвалидность", "травма", "сломал", "авария", "скорая",
    "развод", "расставание", "ушел из семьи", "бросил", "алименты",
    "суд", "опека", "лишение прав",
    "депрессия", "суицид", "тревожность", "паника", "истерика",
    "психолог", "психиатр", "таблетки", "антидепрессанты",
    "избили", "издеваются", "травля", "буллинг", "насилие",
    "полиция", "заявление", "угрозы",
    "аутизм", "синдром", "отставание", "задержка развития",
    "особенный ребенок", "инклюзия"]

  const FactualKeywords: seq<string> := [
    "цена", "стоимость", "сколько стоит", "расписание", "время", "когда", "адрес",
    "телефон", "контакт", "преподавател", "квалификация", "опыт", "образование"]

  /**
   * `HUMOR_TRIGGER_PATTERNS`: each regex is an alternation of literal
   * pieces joined by `.*`.
   */
  const HumorPatterns: seq<seq<seq<string>>> := [
    [["почему", "дорого"], ["почему", "дёшево"], ["почему", "цена"], ["почему", "стоит"]],
    [["не верю"], ["сомневаюсь"], ["подозрительно"], ["слишком хорошо"]],
    [["везде", "лучшие"], ["всё", "правильное"], ["слишком", "умные"], ["идеальные"]],
    [["обман"], ["развод", "деньги"], ["впариваете"], ["навязываете"]],
    [["у других"], ["в другой школе"], ["конкуренты", "лучше"]]]

  predicate HumorPatternHit(lower: string) {
    exists i :: 0 <= i < |HumorPatterns| && AnyPiecesMatch(lower, HumorPatterns[i])
  }

  const HumorCategories: seq<string> := ["philosophical", "emotional", "general_talk"]

  /**
   * `_should_use_humor`; `llmReply` is the classifier's answer for step 4,
   * `None` when that call raises.
   */
  function ShouldUseHumor(userMessage: string, llmReply: Option<string>): (r: bool)
    ensures ContainsAny(Lower(userMessage), SensitiveKeywords) ==> !r
  {
    var lower := Lower(userMessage);
    if ContainsAny(lower, SensitiveKeywords) then false
    else if HumorPatternHit(lower) then true
    else if ContainsAny(lower, FactualKeywords) then false
    else llmReply.Some? && Lower(Strip(llmReply.value)) in HumorCategories
  }

  /**
   * The blacklist is checked first, the humour patterns second, the
   * factual keywords third; the classifier is asked only when none of them
   * decides, and its failure means no humour.
   */
  lemma HumorCascade(userMessage: string, llmReply: Option<string>)
    ensures var lower := Lower(userMessage);
      var r := ShouldUseHumor(userMessage, llmReply);
      && (!ContainsAny(lower, SensitiveKeywords) && HumorPatternHit(lower) ==> r)
      && (!ContainsAny(lower, SensitiveKeywords) && !HumorPatternHit(lower) && ContainsAny(lower, FactualKeywords) ==> !r)
      && (llmReply.None? ==> (r <==> !ContainsAny(lower, SensitiveKeywords) && HumorPatternHit(lower)))
  {
  }

  /**
   * The alternative `развод.*деньги` never makes the assistant joke: any
   * text it matches contains the blacklisted word `развод`.
   */
  lemma DivorcePatternNeverJokes(userMessage: string, llmReply: Option<string>)
    requires PiecesMatch(Lower(userMessage), ["развод", "деньги"])
    ensures !ShouldUseHumor(userMessage, llmReply)
  {
    PiecesOccur(Lower(userMessage), ["развод", "деньги"]);
    assert SensitiveKeywords[18] == "развод";
  }
}
