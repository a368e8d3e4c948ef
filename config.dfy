// Central settings of the assistant: required environment variables, the
// fixed memory/cache limits, the validation run at import time and the two
// URL builders.

module Config {
  import opened Text

  /** Fixed limits assigned in the settings constructor. */
  const ConversationMemorySize: int := 15
  const ConversationExpirationSeconds: int := 3600
  const RagCacheTtl: real := 3600.0
  const MaxCacheSize: nat := 1000
  const MaxFallbackUsers: nat := 1000
  const DefaultBaseUrl: string := "https://ukidoaiassistant-production.up.railway.app"
  const DefaultPort: int := 5000

  /** Names of the six variables that must be present. */
  const RequiredVariables: seq<string> := [
    "TELEGRAM_BOT_TOKEN", "GEMINI_API_KEY", "OPENROUTER_API_KEY",
    "PINECONE_API_KEY", "PINECONE_HOST_FACTS", "HUBSPOT_API_KEY"]

  /** The process environment, as a plain map. */
  type Environment = map<string, string>

  datatype Result<T> = Ok(value: T) | Err(missing: string)

  /** A required variable: an error naming it when it is unset or empty. */
  function GetRequiredEnv(env: Environment, name: string): (r: Result<string>)
    ensures r.Ok? <==> name in env && env[name] != ""
    ensures r.Ok? ==> r.value == env[name] && |r.value| > 0
    ensures r.Err? ==> r.missing == name
  {
    if name in env && env[name] != "" then Ok(env[name]) else Err(name)
  }

  /** `names[i]` is the first name in the list that has no usable value. */
  predicate FirstMissing(env: Environment, names: seq<string>, i: int) {
    0 <= i < |names| && GetRequiredEnv(env, names[i]).Err?
    && forall j :: 0 <= j < i ==> GetRequiredEnv(env, names[j]).Ok?
  }

  /**
   * Reading the required variables in order: the first one that is missing
   * aborts construction with its name.
   */
  function RequiredValues(env: Environment, names: seq<string>): (r: Result<seq<string>>)
    ensures r.Ok? ==> |r.value| == |names|
    ensures r.Ok? ==> forall i :: 0 <= i < |names| ==> GetRequiredEnv(env, names[i]) == Ok(r.value[i])
    ensures r.Err? ==> exists i :: FirstMissing(env, names, i) && names[i] == r.missing
  {
    if names == [] then Ok([])
    else match GetRequiredEnv(env, names[0])
      case Err(m) =>
        assert FirstMissing(env, names, 0);
        Err(m)
      case Ok(v) =>
        match RequiredValues(env, names[1..])
          case Err(m) =>
            var i :| FirstMissing(env, names[1..], i) && names[1..][i] == m;
            assert FirstMissing(env, names, i + 1) by {
              forall j | 0 <= j < i + 1 ensures GetRequiredEnv(env, names[j]).Ok? {
                if j > 0 { assert names[j] == names[1..][j - 1]; }
              }
            }
            Err(m)
          case Ok(vs) => Ok([v] + vs)
  }

  /** The settings the validator looks at. */
  datatype Settings = Settings(
    telegramBotToken: string,
    geminiApiKey: string,
    openrouterApiKey: string,
    pineconeApiKey: string,
    pineconeHostFacts: string,
    hubspotApiKey: string,
    baseUrl: string,
    port: int,
    conversationMemorySize: int)

  function CriticalKeys(s: Settings): seq<string> {
    [s.telegramBotToken, s.geminiApiKey, s.openrouterApiKey,
     s.pineconeApiKey, s.pineconeHostFacts, s.hubspotApiKey]
  }

  /** One critical key passes when it is non-empty and at least 10 characters once stripped. */
  predicate KeyAcceptable(key: string) {
    key != "" && |Strip(key)| >= 10
  }

  /** The key loop: stops at the first unacceptable key. */
  function FirstBadKey(keys: seq<string>): (r: Option<nat>)
    ensures r.None? <==> forall i :: 0 <= i < |keys| ==> KeyAcceptable(keys[i])
    ensures r.Some? ==> (r.value < |keys| && !KeyAcceptable(keys[r.value])
                         && forall j :: 0 <= j < r.value ==> KeyAcceptable(keys[j]))
  {
    FirstFailing(keys, KeyAcceptable)
  }

  /** The configuration check run when the settings module is imported. */
  function ValidateConfiguration(s: Settings): (ok: bool)
    ensures ok <==> ((forall i :: 0 <= i < 6 ==> KeyAcceptable(CriticalKeys(s)[i]))
                     && 1 <= s.port <= 65535 && s.conversationMemorySize >= 1)
  {
    if FirstBadKey(CriticalKeys(s)).Some? then false
    else if s.port < 1 || s.port > 65535 then false
    else if s.conversationMemorySize < 1 then false
    else true
  }

  /** A key of up to nine characters, padding whitespace aside, always fails validation. */
  lemma ShortKeyRejected(s: Settings, i: nat)
    requires i < 6 && |Strip(CriticalKeys(s)[i])| < 10
    ensures !ValidateConfiguration(s)
  {
  }

  function TelegramWebhookUrl(baseUrl: string): (r: string)
    ensures |r| == |baseUrl| + 1 && r[..|baseUrl|] == baseUrl && r[|baseUrl|] == '/'
  {
    baseUrl + "/"
  }

  const LessonPath: string := "/lesson?user_id="

  function LessonUrl(baseUrl: string, userId: string): (r: string)
    ensures StartsWith(r, baseUrl + LessonPath)
    ensures r[|baseUrl + LessonPath|..] == userId
  {
    baseUrl + LessonPath + userId
  }

  /** The user id can be read back from a lesson link, so distinct users get distinct links. */
  lemma LessonUrlInjective(baseUrl: string, u1: string, u2: string)
    ensures LessonUrl(baseUrl, u1) == LessonUrl(baseUrl, u2) <==> u1 == u2
  {
    if LessonUrl(baseUrl, u1) == LessonUrl(baseUrl, u2) {
      assert u1 == LessonUrl(baseUrl, u1)[|baseUrl + LessonPath|..];
    }
  }
}
