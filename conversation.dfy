// Dialogue states and conversation memory. The Redis store is not part of
// this model: every operation follows the branch taken when Redis is
// unavailable, where histories live in an in-process dictionary.

module Conversation {
  import opened Text
  import Config

  // ---------------------------------------------------------------------
  // States and keyword tables

  const Greeting := "greeting"
  const ProblemSolving := "problem_solving"
  const FactFinding := "fact_finding"
  const Closing := "closing"

  /** The keys of `DIALOGUE_STATES`, in declaration order. */
  const DialogueStates: seq<string> := [Greeting, ProblemSolving, FactFinding, Closing]

  /** The keys of `STATE_KEYWORDS`, in declaration order, and their keyword lists. */
  const KeywordStates: seq<string> := [ProblemSolving, FactFinding, Closing]
  const StateKeywords: seq<seq<string>> := [
    ["проблем", "сложно", "трудно", "застенчив", "боится",
     "не слушается", "агрессивн", "замкн", "помогите"],
    ["цена", "стоимость", "расписание", "время", "когда",
     "сколько", "преподаватель", "группа", "возраст"],
    ["записат", "попробова", "хочу", "готов", "решил",
     "интересно", "согласен", "давайте"]]

  const DirectLessonKeywords: seq<string> := [
    "пробн", "бесплатн", "попробова", "записат", "хочу урок", "дайте ссылку"]

  // ---------------------------------------------------------------------
  // State inferred from a history

  /** The last four user lines, joined by spaces and lower-cased. */
  function RecentUserText(history: seq<string>): string {
    Lower(Join(Last(UserLines(history), 4), " "))
  }

  /**
   * `_infer_state_from_history`: an empty history is a greeting; otherwise
   * the first keyword state found in the recent user text, else a guess
   * from the length of the history.
   */
  function InferStateFromHistory(history: seq<string>): (r: string)
    ensures r in DialogueStates
    ensures history == [] ==> r == Greeting
  {
    if history == [] then Greeting
    else match FirstHit(RecentUserText(history), StateKeywords)
      case Some(i) => KeywordStates[i]
      case None =>
        if |history| < 4 then Greeting
        else if |history| < 8 then FactFinding
        else ProblemSolving
  }

  /**
   * A keyword of state group `g` in any one of the last four user lines
   * decides the state, unless an earlier group also has a keyword there.
   */
  lemma KeywordInRecentLineDecides(history: seq<string>, j: nat, g: nat, k: nat)
    requires history != []
    requires j < |Last(UserLines(history), 4)| && g < |StateKeywords| && k < |StateKeywords[g]|
    requires Contains(Lower(Last(UserLines(history), 4)[j]), StateKeywords[g][k])
    requires forall e :: 0 <= e < g ==> !ContainsAny(RecentUserText(history), StateKeywords[e])
    ensures InferStateFromHistory(history) == KeywordStates[g]
  {
    KeywordInLineHits(Last(UserLines(history), 4), StateKeywords, j, g, k);
  }

  lemma KeywordInLineHits(recent: seq<string>, table: seq<seq<string>>, j: nat, g: nat, k: nat)
    requires j < |recent| && g < |table| && k < |table[g]|
    requires Contains(Lower(recent[j]), table[g][k])
    requires forall e :: 0 <= e < g ==> !ContainsAny(Lower(Join(recent, " ")), table[e])
    ensures FirstHit(Lower(Join(recent, " ")), table) == Some(g)
  {
    JoinContainsPieces(recent, " ");
    ContainsLowerPiece(Join(recent, " "), recent[j], table[g][k]);
    assert ContainsAny(Lower(Join(recent, " ")), table[g]);
  }

  /** Without keywords, the state grows with the length of the history. */
  lemma InferStateWithoutKeywords(history: seq<string>)
    requires history != []
    requires forall g :: 0 <= g < |StateKeywords| ==> !ContainsAny(RecentUserText(history), StateKeywords[g])
    ensures InferStateFromHistory(history) == Greeting <==> |history| < 4
    ensures InferStateFromHistory(history) == FactFinding <==> 4 <= |history| < 8
    ensures InferStateFromHistory(history) == ProblemSolving <==> |history| >= 8
  {
  }

  // ---------------------------------------------------------------------
  // State transition on a new message

  /** `analyze_message_for_state_transition`. */
  function StateTransition(userMessage: string, currentState: string): (r: string)
    ensures currentState in DialogueStates ==> r in DialogueStates
  {
    if userMessage == "" then currentState
    else
      var lower := Lower(userMessage);
      if ContainsAny(lower, DirectLessonKeywords) then Closing
      else match FirstHit(lower, StateKeywords)
        case Some(i) => KeywordStates[i]
        case None =>
          if |Words(userMessage)| < 5 then currentState
          else if currentState == Greeting then FactFinding
          else if currentState == FactFinding && |Words(userMessage)| > 10 then ProblemSolving
          else currentState
  }

  /**
   * An empty message changes nothing; a lesson request closes before any
   * other check; a keyword state wins over the length rules; a short
   * message without keywords keeps the state; and the only moves the
   * length rules make are greeting to fact finding and, for a message of
   * more than ten words, fact finding to problem solving.
   */
  lemma TransitionCascade(userMessage: string, currentState: string)
    ensures var r := StateTransition(userMessage, currentState);
      var lower := Lower(userMessage);
      && (userMessage == "" ==> r == currentState)
      && (userMessage != "" && ContainsAny(lower, DirectLessonKeywords) ==> r == Closing)
      && (userMessage != "" && !ContainsAny(lower, DirectLessonKeywords) && FirstHit(lower, StateKeywords).Some?
          ==> r == KeywordStates[FirstHit(lower, StateKeywords).value])
      && (!ContainsAny(lower, DirectLessonKeywords) && FirstHit(lower, StateKeywords).None?
          && |Words(userMessage)| < 5
          ==> r == currentState)
      && (r != currentState && !ContainsAny(lower, DirectLessonKeywords) && FirstHit(lower, StateKeywords).None?
          ==> ((currentState == Greeting && r == FactFinding)
               || (currentState == FactFinding && r == ProblemSolving && |Words(userMessage)| > 10)))
  {
  }

  // ---------------------------------------------------------------------
  // Fallback memory

  const UserTag: string := "Пользователь: "
  const AssistantTag: string := "Ассистент: "

  /** Lines kept per chat: two per remembered exchange. */
  const MaxLines: nat := 2 * Config.ConversationMemorySize

  /** A history made of whole exchanges: a user line, then an assistant line. */
  ghost predicate Turns(h: seq<string>) {
    Alternating(h, UserTag, AssistantTag)
  }

  /** Lines in pairs: the even ones start with `a`, the odd ones with `b`. */
  ghost predicate Alternating(h: seq<string>, a: string, b: string) {
    && |h| % 2 == 0
    && forall i :: 0 <= i < |h| ==> TaggedAt(h, i, a, b)
  }

  ghost predicate TaggedAt(h: seq<string>, i: nat, a: string, b: string)
    requires i < |h|
  {
    StartsWith(h[i], if i % 2 == 0 then a else b)
  }

  /** The dictionary of histories: chat ids in insertion order, and their lines. */
  datatype Memory = Memory(order: seq<string>, lines: map<string, seq<string>>)

  ghost predicate WellFormed(m: Memory) {
    Distinct(m.order) && forall k :: k in m.lines <==> k in m.order
  }

  ghost predicate MemoryValid(m: Memory) {
    && WellFormed(m)
    && |m.order| <= Config.MaxFallbackUsers
    && forall k :: k in m.lines ==> Turns(m.lines[k]) && |m.lines[k]| <= MaxLines
  }

  /** A chat's history after one exchange: both lines appended, then cut to the newest `MaxLines` lines. */
  function AppendTurn(h: seq<string>, userMessage: string, aiResponse: string): seq<string> {
    Last(h + [UserTag + userMessage, AssistantTag + aiResponse], MaxLines)
  }

  function HistoryOf(m: Memory, chatId: string): seq<string> {
    if chatId in m.lines then m.lines[chatId] else []
  }

  /** Dictionary assignment: a new key goes to the end of the order, an existing one keeps its place. */
  function Put(m: Memory, chatId: string, h: seq<string>): Memory {
    Memory(if chatId in m.lines then m.order else m.order + [chatId], m.lines[chatId := h])
  }

  function WithTurn(m: Memory, chatId: string, userMessage: string, aiResponse: string): Memory {
    Put(m, chatId, AppendTurn(HistoryOf(m, chatId), userMessage, aiResponse))
  }

  /** `_cleanup_fallback_memory`: past the user limit, the older half of the chats is dropped. */
  function Cleanup(m: Memory): Memory {
    if |m.order| > Config.MaxFallbackUsers then
      var n := |m.order| / 2;
      Memory(m.order[n..], m.lines - set k | k in m.order[..n])
    else m
  }

  /** `_update_fallback_memory`. */
  function UpdateMemory(m: Memory, chatId: string, userMessage: string, aiResponse: string): Memory {
    Cleanup(WithTurn(m, chatId, userMessage, aiResponse))
  }

  /** The new history is the newest lines of the old one, then the exchange. */
  lemma AppendTurnShape(h: seq<string>, userMessage: string, aiResponse: string)
    ensures AppendTurn(h, userMessage, aiResponse)
            == Last(h, MaxLines - 2) + [UserTag + userMessage, AssistantTag + aiResponse]
    ensures |AppendTurn(h, userMessage, aiResponse)| <= MaxLines
  {
    LastAppendTwo(h, UserTag + userMessage, AssistantTag + aiResponse, MaxLines);
  }

  lemma {:induction false} AlternatingSnoc(h: seq<string>, a: string, b: string, x: string, y: string)
    requires Alternating(h, a, b)
    ensures Alternating(h + [a + x, b + y], a, b)
  {
    var full := h + [a + x, b + y];
    forall i | 0 <= i < |full| ensures TaggedAt(full, i, a, b) {
      if i < |h| {
        assert TaggedAt(h, i, a, b);
        assert full[i] == h[i];
      } else if i == |h| {
        assert full[i] == a + x;
      } else {
        assert full[i] == b + y;
      }
    }
  }

  lemma {:induction false} AlternatingLast(h: seq<string>, n: nat, a: string, b: string)
    requires Alternating(h, a, b) && n % 2 == 0
    ensures Alternating(Last(h, n), a, b)
  {
    var r := Last(h, n);
    var d := |h| - |r|;
    assert d % 2 == 0 by {
      if |h| > n {
        EvenDifference(|h|, n);
      }
    }
    forall i | 0 <= i < |r| ensures TaggedAt(r, i, a, b) {
      assert TaggedAt(h, d + i, a, b);
      assert r[i] == h[d + i];
      EvenShift(d, i);
    }
  }

  /** Appending an exchange keeps a history made of whole exchanges. */
  lemma AppendTurnKeepsTurns(h: seq<string>, userMessage: string, aiResponse: string)
    requires Turns(h)
    ensures Turns(AppendTurn(h, userMessage, aiResponse))
  {
    AppendTurnShape(h, userMessage, aiResponse);
    AlternatingLast(h, MaxLines - 2, UserTag, AssistantTag);
    AlternatingSnoc(Last(h, MaxLines - 2), UserTag, AssistantTag, userMessage, aiResponse);
  }

  lemma EvenDifference(a: int, b: int)
    requires a % 2 == 0 && b % 2 == 0
    ensures (a - b) % 2 == 0
  {
  }

  lemma EvenShift(d: int, i: int)
    requires d % 2 == 0
    ensures (d + i) % 2 == i % 2
  {
  }

  /** Past the user limit, exactly the older half of the chats is dropped. */
  lemma CleanupDropsOlderHalf(m: Memory)
    requires WellFormed(m) && |m.order| > Config.MaxFallbackUsers
    ensures |Cleanup(m).order| == |m.order| - |m.order| / 2
    ensures forall i :: 0 <= i < |m.order| ==> (m.order[i] in Cleanup(m).lines <==> i >= |m.order| / 2)
  {
    var n := |m.order| / 2;
    var r := Cleanup(m);
    forall i | 0 <= i < |m.order| ensures m.order[i] in r.lines <==> i >= n {
      if i >= n {
        assert m.order[n..][i - n] == m.order[i];
        assert forall j :: 0 <= j < n ==> m.order[..n][j] != m.order[i];
      } else {
        assert m.order[..n][i] == m.order[i];
      }
    }
  }

  /** The cleanup only removes histories; the surviving ones are unchanged. */
  lemma CleanupKeeps(m: Memory)
    ensures forall k :: k in Cleanup(m).lines ==> k in m.lines && Cleanup(m).lines[k] == m.lines[k]
  {
  }

  /** Deleting the keys of `ks` one after the other. */
  lemma DropOneMore(lines: map<string, seq<string>>, front: seq<string>, x: string)
    ensures (lines - set k | k in front) - {x} == lines - set k | k in front + [x]
  {
  }

  lemma CleanupWellFormed(m: Memory)
    requires WellFormed(m)
    ensures WellFormed(Cleanup(m))
    ensures |m.order| <= Config.MaxFallbackUsers ==> Cleanup(m) == m
    ensures |m.order| > Config.MaxFallbackUsers ==>
      |Cleanup(m).order| == |m.order| - |m.order| / 2
      && forall i :: 0 <= i < |m.order| ==> (m.order[i] in Cleanup(m).lines <==> i >= |m.order| / 2)
  {
    if |m.order| > Config.MaxFallbackUsers {
      CleanupDropsOlderHalf(m);
      CleanupKeysInOrder(m);
    }
  }

  lemma CleanupKeysInOrder(m: Memory)
    requires WellFormed(m) && |m.order| > Config.MaxFallbackUsers
    ensures forall k :: k in Cleanup(m).lines <==> k in Cleanup(m).order
  {
    var n := |m.order| / 2;
    var r := Cleanup(m);
    CleanupDropsOlderHalf(m);
    forall k ensures k in r.lines <==> k in r.order {
      if k in r.order {
        var j :| 0 <= j < |r.order| && r.order[j] == k;
        assert m.order[n + j] == k;
      }
      if k in r.lines {
        var j :| 0 <= j < |m.order| && m.order[j] == k;
        assert r.order[j - n] == k;
      }
    }
  }

  lemma PutWellFormed(m: Memory, chatId: string, h: seq<string>)
    requires WellFormed(m)
    ensures WellFormed(Put(m, chatId, h))
  {
    var w := Put(m, chatId, h);
    if chatId !in m.lines {
      forall i, j | 0 <= i < j < |w.order| ensures w.order[i] != w.order[j] {
        if j == |m.order| { assert w.order[i] == m.order[i]; }
      }
    }
  }

  /** A new chat that reaches past the user limit drops the older half of the old chats. */
  lemma PutNewThenCleanup(m: Memory, chatId: string, h: seq<string>)
    requires WellFormed(m) && chatId !in m.lines && |m.order| == Config.MaxFallbackUsers
    ensures var r := Cleanup(Put(m, chatId, h));
      && WellFormed(r) && |r.order| <= Config.MaxFallbackUsers
      && chatId in r.lines && r.lines[chatId] == h
      && (forall k :: k in r.lines && k != chatId ==> k in m.lines && r.lines[k] == m.lines[k])
      && forall i :: 0 <= i < |m.order| ==> (m.order[i] in r.lines <==> i >= (|m.order| + 1) / 2)
  {
    var w := Put(m, chatId, h);
    PutWellFormed(m, chatId, h);
    CleanupWellFormed(w);
    CleanupKeeps(w);
    assert w.order[|m.order|] == chatId;
    forall i | 0 <= i < |m.order| ensures w.order[i] == m.order[i] { }
  }

  /**
   * Assigning a chat's history and cleaning up: the dictionary stays well
   * formed and within the user limit, holds the new history, keeps every
   * other surviving history, loses nobody unless a new chat pushes it over
   * the limit, and then loses exactly the older half.
   */
  lemma PutThenCleanup(m: Memory, chatId: string, h: seq<string>)
    requires WellFormed(m) && |m.order| <= Config.MaxFallbackUsers
    ensures var r := Cleanup(Put(m, chatId, h));
      && WellFormed(r) && |r.order| <= Config.MaxFallbackUsers
      && chatId in r.lines && r.lines[chatId] == h
      && (forall k :: k in r.lines && k != chatId ==> k in m.lines && r.lines[k] == m.lines[k])
      && (chatId in m.lines || |m.order| < Config.MaxFallbackUsers ==> r == Put(m, chatId, h))
      && (chatId !in m.lines && |m.order| == Config.MaxFallbackUsers ==>
            forall i :: 0 <= i < |m.order| ==> (m.order[i] in r.lines <==> i >= (|m.order| + 1) / 2))
  {
    if chatId !in m.lines && |m.order| == Config.MaxFallbackUsers {
      PutNewThenCleanup(m, chatId, h);
    } else {
      PutWellFormed(m, chatId, h);
    }
  }

  /**
   * One exchange keeps the memory valid; writes exactly the exchange into
   * the chat's history; leaves every other surviving history as it was; a
   * chat seen for the first time always survives the cleanup; and the
   * chats dropped are exactly the older half, only when a new chat exceeds
   * the user limit.
   */
  lemma UpdateProperties(m: Memory, chatId: string, userMessage: string, aiResponse: string)
    requires MemoryValid(m)
    ensures var r := UpdateMemory(m, chatId, userMessage, aiResponse);
      && MemoryValid(r)
      && chatId in r.lines
      && r.lines[chatId] == AppendTurn(HistoryOf(m, chatId), userMessage, aiResponse)
      && (forall k :: k in r.lines && k != chatId ==> k in m.lines && r.lines[k] == m.lines[k])
      && (chatId in m.lines || |m.order| < Config.MaxFallbackUsers ==> forall k :: k in m.lines ==> k in r.lines)
      && (chatId !in m.lines && |m.order| == Config.MaxFallbackUsers ==>
            forall i :: 0 <= i < |m.order| ==> (m.order[i] in r.lines <==> i >= (|m.order| + 1) / 2))
  {
    var h := AppendTurn(HistoryOf(m, chatId), userMessage, aiResponse);
    PutThenCleanup(m, chatId, h);
    AppendTurnShape(HistoryOf(m, chatId), userMessage, aiResponse);
    assert Turns(HistoryOf(m, chatId));
    AppendTurnKeepsTurns(HistoryOf(m, chatId), userMessage, aiResponse);
    var r := UpdateMemory(m, chatId, userMessage, aiResponse);
    assert r == Cleanup(Put(m, chatId, h));
    forall k | k in r.lines ensures Turns(r.lines[k]) && |r.lines[k]| <= MaxLines {
      if k != chatId { assert r.lines[k] == m.lines[k]; }
    }
  }

  lemma UpdateKeepsValid(m: Memory, chatId: string, userMessage: string, aiResponse: string)
    requires MemoryValid(m)
    ensures MemoryValid(UpdateMemory(m, chatId, userMessage, aiResponse))
  {
    UpdateProperties(m, chatId, userMessage, aiResponse);
  }

  // ---------------------------------------------------------------------
  // Argument checks

  /** `_normalize_chat_id`: a missing id becomes the empty string. */
  function NormalizeChatId(chatId: Option<string>): (r: string)
    ensures chatId.Some? ==> r == chatId.value
    ensures chatId.None? ==> r == ""
  {
    match chatId
    case None => ""
    case Some(s) => s
  }

  const ActionToken: string := "[ACTION:SEND_LESSON_LINK]"
  const LessonPlaceholder: string := "[ССЫЛКА_НА_УРОК]"

  /** The assistant's answer as it is stored: the action token replaced by a placeholder. */
  function CleanResponse(aiResponse: string): string {
    ReplaceAll(aiResponse, ActionToken, LessonPlaceholder)
  }

  lemma CleanResponseWithoutToken(aiResponse: string)
    requires !Contains(aiResponse, ActionToken)
    ensures CleanResponse(aiResponse) == aiResponse
  {
    ReplaceAbsent(aiResponse, ActionToken, LessonPlaceholder);
  }

  /**
   * `update_dialogue_state`: the key and value it would write to Redis, or
   * `None` when the chat id is empty or the state unknown.
   */
  function StateWrite(chatId: Option<string>, newState: string): (r: Option<(string, string)>)
    ensures r.Some? <==> NormalizeChatId(chatId) != "" && newState in DialogueStates
    ensures r.Some? ==> r.value == ("state:" + NormalizeChatId(chatId), newState)
  {
    var id := NormalizeChatId(chatId);
    if id == "" || newState !in DialogueStates then None else Some(("state:" + id, newState))
  }

  // ---------------------------------------------------------------------
  // The manager

  class ConversationManager {
    var order: seq<string>
    var lines: map<string, seq<string>>

    function Snapshot(): Memory
      reads this
    {
      Memory(order, lines)
    }

    ghost predicate Valid()
      reads this
    {
      MemoryValid(Snapshot())
    }

    constructor ()
      ensures Valid() && order == [] && lines == map[]
    {
      order, lines := [], map[];
    }

    /** Deleting the oldest half of the chats, one `del` at a time. */
    method CleanupFallbackMemory()
      requires WellFormed(Snapshot())
      modifies this
      ensures Snapshot() == Cleanup(old(Snapshot()))
    {
      if |order| > Config.MaxFallbackUsers {
        var n := |order| / 2;
        ghost var order0, lines0 := order, lines;
        var oldKeys := order[..n];
        var i := 0;
        while i < n
          invariant 0 <= i <= n
          invariant order == order0[i..]
          invariant lines == lines0 - set k | k in oldKeys[..i]
        {
          DropOneMore(lines0, oldKeys[..i], oldKeys[i]);
          assert oldKeys[..i + 1] == oldKeys[..i] + [oldKeys[i]];
          lines := lines - {oldKeys[i]};
          order := order[1..];
          i := i + 1;
        }
        assert oldKeys[..n] == order0[..n];
      }
    }

    /** `_update_fallback_memory`. */
    method UpdateFallbackMemory(chatId: string, userMessage: string, aiResponse: string)
      requires Valid()
      modifies this
      ensures Valid()
      ensures Snapshot() == UpdateMemory(old(Snapshot()), chatId, userMessage, aiResponse)
    {
      ghost var m := Snapshot();
      if chatId !in lines {
        lines := lines[chatId := []];
        order := order + [chatId];
      }
      var h := lines[chatId] + [UserTag + userMessage];
      h := h + [AssistantTag + aiResponse];
      assert h == HistoryOf(m, chatId) + [UserTag + userMessage, AssistantTag + aiResponse];
      if |h| > MaxLines {
        h := h[|h| - MaxLines..];
      }
      assert h == AppendTurn(HistoryOf(m, chatId), userMessage, aiResponse);
      lines := lines[chatId := h];
      assert Snapshot() == Put(m, chatId, h);
      PutWellFormed(m, chatId, h);
      CleanupFallbackMemory();
      UpdateKeepsValid(m, chatId, userMessage, aiResponse);
    }

    /** `update_conversation_history`: nothing happens for an empty chat id or an empty message. */
    method UpdateConversationHistory(chatId: Option<string>, userMessage: string, aiResponse: string)
      requires Valid()
      modifies this
      ensures Valid()
      ensures NormalizeChatId(chatId) == "" || userMessage == "" ==> Snapshot() == old(Snapshot())
      ensures NormalizeChatId(chatId) != "" && userMessage != "" ==>
        Snapshot() == UpdateMemory(old(Snapshot()), NormalizeChatId(chatId), userMessage, CleanResponse(aiResponse))
    {
      var id := NormalizeChatId(chatId);
      if id == "" || userMessage == "" {
        return;
      }
      var cleanResponse := CleanResponse(aiResponse);
      UpdateFallbackMemory(id, userMessage, cleanResponse);
    }

    /** `get_conversation_history`. */
    method GetConversationHistory(chatId: Option<string>) returns (h: seq<string>)
      ensures NormalizeChatId(chatId) == "" ==> h == []
      ensures NormalizeChatId(chatId) != "" ==> h == HistoryOf(Snapshot(), NormalizeChatId(chatId))
    {
      var id := NormalizeChatId(chatId);
      if id == "" {
        return [];
      }
      h := if id in lines then lines[id] else [];
    }

    /** `get_dialogue_state`. */
    method GetDialogueState(chatId: Option<string>) returns (s: string)
      ensures s in DialogueStates
      ensures NormalizeChatId(chatId) == "" ==> s == Greeting
      ensures NormalizeChatId(chatId) != "" ==>
        s == InferStateFromHistory(HistoryOf(Snapshot(), NormalizeChatId(chatId)))
    {
      var id := NormalizeChatId(chatId);
      if id == "" {
        return Greeting;
      }
      var history := GetConversationHistory(chatId);
      s := InferStateFromHistory(history);
    }
  }

  /**
   * After an exchange is stored, the chat's history ends with the user's
   * line and the cleaned answer, preceded by the newest older lines.
   */
  lemma StoredExchangeIsRead(m: Memory, chatId: string, userMessage: string, aiResponse: string)
    requires MemoryValid(m) && chatId != "" && userMessage != ""
    ensures var h := HistoryOf(UpdateMemory(m, chatId, userMessage, CleanResponse(aiResponse)), chatId);
      && |h| >= 2 && |h| <= MaxLines
      && h[|h| - 2] == UserTag + userMessage
      && h[|h| - 1] == AssistantTag + CleanResponse(aiResponse)
      && h[..|h| - 2] == Last(HistoryOf(m, chatId), MaxLines - 2)
  {
    UpdateProperties(m, chatId, userMessage, CleanResponse(aiResponse));
    AppendTurnShape(HistoryOf(m, chatId), userMessage, CleanResponse(aiResponse));
  }
}
