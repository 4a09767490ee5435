/**
 * The pure part of the bot: the response validator, the status translator
 * and the check that the three credentials are set.
 */
module Homework {
  import opened Wrappers
  import opened PyValues
  import opened Errors

  /** The three review verdicts and the sentence reported for each. */
  const HOMEWORK_STATUSES: map<string, string> := map[
    "approved" := "Работа проверена: ревьюеру всё понравилось. Ура!",
    "reviewing" := "Работа взята на проверку ревьюером.",
    "rejected" := "Работа проверена: у ревьюера есть замечания."
  ]

  const FAIL_ERROR_PREFIX := "Сбой. Ошибка: "
  const NOT_A_DICT := FAIL_ERROR_PREFIX + "На вход функции ожидается словарь"
  const NO_CURRENT_DATE := FAIL_ERROR_PREFIX + "current_date is None"
  const NO_HOMEWORKS := FAIL_ERROR_PREFIX + "homeworks is None"
  const NOT_A_LIST := FAIL_ERROR_PREFIX + "Ожидается, что \"homeworks\" будет списком!"
  const NO_STATUS := FAIL_ERROR_PREFIX + "В ДЗ нет значения status"
  const STATUS_CHANGED := "Изменился статус проверки работы \""

  /** The sentence announcing the verdict `verdict` on the homework called `name`. */
  function StatusSentence(name: string, verdict: string): (r: string)
    ensures StartsWith(r, STATUS_CHANGED)
  {
    var r := STATUS_CHANGED + name + "\". " + verdict;
    assert r[..|STATUS_CHANGED|] == STATUS_CHANGED;
    r
  }

  /**
   * `check_response`: the `homeworks` list of an answer, or a TypeError. The
   * checks run in order: a dict, a truthy `current_date`, a non-null
   * `homeworks`, and `homeworks` a list.
   */
  function CheckResponse(response: Json): (r: Result<seq<Json>, Error>)
    ensures r.Success? <==>
      response.JDict? && Truthy(Get(response.fields, "current_date")) &&
      Get(response.fields, "homeworks").JList?
    ensures r.Success? ==> Get(response.fields, "homeworks") == JList(r.value)
    ensures r.Failure? ==> r.error.TypeError? && StartsWith(r.error.message, FAIL_ERROR_PREFIX)
  {
    if !response.JDict? then
      Failure(TypeError(NOT_A_DICT))
    else if !Truthy(Get(response.fields, "current_date")) then
      Failure(TypeError(NO_CURRENT_DATE))
    else if Get(response.fields, "homeworks") == JNull then
      Failure(TypeError(NO_HOMEWORKS))
    else if !Get(response.fields, "homeworks").JList? then
      Failure(TypeError(NOT_A_LIST))
    else
      Success(Get(response.fields, "homeworks").items)
  }

  /** Which check rejects an answer is decided by the first one it fails. */
  lemma CheckResponseOrder(response: Json)
    ensures !response.JDict? ==> CheckResponse(response) == Failure(TypeError(NOT_A_DICT))
    ensures response.JDict? && !Truthy(Get(response.fields, "current_date")) ==>
      CheckResponse(response) == Failure(TypeError(NO_CURRENT_DATE))
    ensures response.JDict? && Truthy(Get(response.fields, "current_date")) &&
            Get(response.fields, "homeworks") == JNull ==>
      CheckResponse(response) == Failure(TypeError(NO_HOMEWORKS))
    ensures response.JDict? && Truthy(Get(response.fields, "current_date")) &&
            Get(response.fields, "homeworks") != JNull && !Get(response.fields, "homeworks").JList? ==>
      CheckResponse(response) == Failure(TypeError(NOT_A_LIST))
  {
  }

  /** A dict lacking both keys is rejected for its `current_date`, not its `homeworks`. */
  lemma MissingBothKeys(fields: seq<(string, Json)>)
    requires !HasKey(fields, "current_date") && !HasKey(fields, "homeworks")
    ensures CheckResponse(JDict(fields)) == Failure(TypeError(NO_CURRENT_DATE))
  {
  }

  /** An empty list of homeworks is not an error: it comes back as it is. */
  lemma EmptyHomeworksAccepted(fields: seq<(string, Json)>)
    requires Truthy(Get(fields, "current_date")) && Get(fields, "homeworks") == JList([])
    ensures CheckResponse(JDict(fields)) == Success([])
  {
  }

  /** The message of the AttributeError raised by `.get` on a value of type `typeName`. */
  function NoGet(typeName: string): string {
    "'" + typeName + "' object has no attribute 'get'"
  }

  /**
   * `parse_status`: the sentence announcing the verdict on `record`.
   * A missing or null status raises WrongAPIAnswerError; a status outside the
   * table raises the KeyError of the lookup (TypeError for a list or dict,
   * which cannot be hashed); a record that is not a dict has no `.get`.
   */
  function ParseStatus(record: Json): (r: Result<string, Error>)
    ensures r.Success? <==>
      record.JDict? && Get(record.fields, "status").JStr? &&
      Get(record.fields, "status").s in HOMEWORK_STATUSES
    ensures r.Success? ==>
      r.value == StatusSentence(Str(Get(record.fields, "homework_name")),
                                HOMEWORK_STATUSES[Get(record.fields, "status").s])
    ensures r.Failure? && r.error.WrongAPIAnswerError? <==>
      record.JDict? && Get(record.fields, "status") == JNull
    ensures record.JDict? && Get(record.fields, "status") != JNull &&
            (Get(record.fields, "status").JStr? || Get(record.fields, "status").JInt? ||
             Get(record.fields, "status").JBool?) &&
            r.Failure? ==>
      r.error == KeyError(Get(record.fields, "status"))
    ensures !record.JDict? ==> r.Failure? && r.error.AttributeError?
  {
    if !record.JDict? then
      Failure(AttributeError(NoGet(TypeName(record))))
    else
      var status := Get(record.fields, "status");
      var homeworkName := Get(record.fields, "homework_name");
      if status == JNull then
        Failure(WrongAPIAnswerError(NO_STATUS))
      // The source tests here whether the record itself is None; a None
      // record has already failed at `.get`, so that test never fires.
      else if status.JList? || status.JDict? then
        Failure(TypeError("unhashable type: '" + TypeName(status) + "'"))
      else if !status.JStr? || status.s !in HOMEWORK_STATUSES then
        Failure(KeyError(status))
      else
        Success(StatusSentence(Str(homeworkName), HOMEWORK_STATUSES[status.s]))
  }

  /** The defensive `last_homework is None` test is dead: a None record fails earlier. */
  lemma NoneRecordFailsAtGet()
    ensures ParseStatus(JNull) == Failure(AttributeError(NoGet("NoneType")))
  {
  }

  /**
   * The announced verdict can be read back: two records with the same name
   * whose sentences agree carry the same status.
   */
  lemma ParseStatusDeterminesStatus(a: Json, b: Json)
    requires ParseStatus(a).Success? && ParseStatus(b).Success?
    requires Str(Get(a.fields, "homework_name")) == Str(Get(b.fields, "homework_name"))
    requires ParseStatus(a).value == ParseStatus(b).value
    ensures Get(a.fields, "status") == Get(b.fields, "status")
  {
  }

  /** An approved homework called proj1 gets the approved sentence. */
  lemma ApprovedScenario()
    ensures ParseStatus(JDict([("status", JStr("approved")), ("homework_name", JStr("proj1"))])) ==
      Success(STATUS_CHANGED + "proj1" + "\". " + "Работа проверена: ревьюеру всё понравилось. Ура!")
  {
  }

  /** The three credentials, as `os.getenv` gives them (None when unset). */
  datatype Env = Env(
    practicumToken: Option<string>,
    telegramToken: Option<string>,
    telegramChatId: Option<string>)

  predicate TokenSet(token: Option<string>) {
    token.Some? && token.value != ""
  }

  /** Python's `all(tokens)`, short-circuiting from the front. */
  function AllSet(tokens: seq<Option<string>>): (r: bool)
    ensures r <==> forall k :: 0 <= k < |tokens| ==> TokenSet(tokens[k])
  {
    if tokens == [] then true else TokenSet(tokens[0]) && AllSet(tokens[1..])
  }

  /** `check_tokens`: every credential is present and non-empty. */
  function CheckTokens(env: Env): (ok: bool)
    ensures ok <==>
      TokenSet(env.practicumToken) && TokenSet(env.telegramToken) && TokenSet(env.telegramChatId)
  {
    var tokens := [env.practicumToken, env.telegramToken, env.telegramChatId];
    assert tokens[1..] == [env.telegramToken, env.telegramChatId];
    assert tokens[1..][1..] == [env.telegramChatId];
    assert tokens[1..][1..][1..] == [];
    assert AllSet(tokens[1..][1..]) == TokenSet(env.telegramChatId);
    assert AllSet(tokens[1..]) == (TokenSet(env.telegramToken) && TokenSet(env.telegramChatId));
    AllSet(tokens)
  }
}
