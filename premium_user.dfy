/**
 * helpers/premium_user.ts: the two requests behind the premium subscription. Each reads the stored
 * token, posts to the backend, accepts only a 200 reply with a body, and (for the subscription
 * request) rewrites error messages through an ordered keyword table.
 */
module PremiumUser {
  import opened Wrappers
  import opened JsText
  import opened Http

  /** `clientSecret` of the subscription reply: `null`, absent, or a string (possibly empty). */
  datatype ClientSecret = NullSecret | NoSecret | Secret(value: string) {

    /** `response.clientSecret` used as a condition. */
    predicate IsTruthy() {
      Secret? && Truthy(value)
    }
  }

  /** The fields of the `/user/premium` reply the client reads. */
  datatype PremiumReply = PremiumReply(clientSecret: ClientSecret, requiresPaymentMethod: bool)

  /** The `/user/premium/setup-intent` reply. */
  datatype SetupIntentReply = SetupIntentReply(setupIntentClientSecret: string)

  const NoTokenMessage := "No se encontró el token de autenticación"
  const InvalidReplyMessage := "Respuesta inválida del servidor"
  const NoSetupIntentMessage := "No se pudo obtener el SetupIntent"
  const PremiumPath := "/user/premium"
  const SetupIntentPath := "/user/premium/setup-intent"

  /** The `if ... else if` chain of premiumUserService's catch block, in source order. */
  const ConnectionMessage := "Error de conexión. Verifica tu internet"
  const SessionMessage := "Sesión expirada. " + "Por favor inicia sesión nuevamente"
  const ForbiddenMessage := "No tienes permiso para realizar esta acción"
  const UserNotFoundMessage := "Usuario no encontrado"
  const PremiumErrorTable: KeywordTable := [
    ("network", ConnectionMessage),
    ("401", SessionMessage),
    ("403", ForbiddenMessage),
    ("404", UserNotFoundMessage)
  ]

  /**
   * The catch block of premiumUserService: a thrown value with a message matching a rule becomes a
   * new `Error` with that rule's message; anything else is rethrown as it is.
   */
  function ClassifyPremiumError(t: Thrown): Thrown
  {
    if t.NonError? then t
    else match FirstMatch(PremiumErrorTable, t.message)
      case Some(m) => Error(m)
      case None => t
  }

  /** The body of the `try` block of premiumUserService, before the catch block rewrites errors. */
  function PremiumAttempt(token: Option<string>, call: Outcome<Reply<PremiumReply>>): Exchange<PremiumReply>
  {
    if !TruthyOpt(token) then Exchange(None, Err(Error(NoTokenMessage)))
    else
      var sent := Some(Request(Post, PremiumPath, [], token));
      match call
      case Err(t) => Exchange(sent, Err(t))
      case Ok(Reply(status, data)) =>
        if status == 200 && data.Some? then Exchange(sent, Ok(data.value))
        else Exchange(sent, Err(Error(InvalidReplyMessage)))
  }

  /**
   * premiumUserService: `call` is how the POST to `/user/premium` settles. A request is sent only
   * with a stored token; the reply's body is returned only for status 200 with a body; every
   * failure goes through the keyword table.
   */
  function PremiumUserService(token: Option<string>, call: Outcome<Reply<PremiumReply>>): (r: Exchange<PremiumReply>)
    ensures r.sent.Some? <==> TruthyOpt(token)
    ensures r.sent.Some? ==> r.sent.value == Request(Post, PremiumPath, [], token)
    ensures r.outcome.Ok? <==> TruthyOpt(token) && call.Ok? && call.value.status == 200 && call.value.data.Some?
    ensures r.outcome.Ok? ==> r.outcome.value == call.value.data.value
    ensures !TruthyOpt(token) ==> r.outcome == Err(Error(NoTokenMessage))
    ensures TruthyOpt(token) && call.Ok? && !r.outcome.Ok? ==> r.outcome == Err(Error(InvalidReplyMessage))
    ensures TruthyOpt(token) && call.Err? ==> r.outcome == Err(ClassifyPremiumError(call.thrown))
  {
    OwnPremiumErrorsPassThrough();
    var attempt := PremiumAttempt(token, call);
    match attempt.outcome
    case Ok(_) => attempt
    case Err(t) => Exchange(attempt.sent, Err(ClassifyPremiumError(t)))
  }

  /** The replacement messages match no rule, so classifying twice changes nothing. */
  lemma ClassifyPremiumErrorIdempotent(t: Thrown)
    ensures ClassifyPremiumError(ClassifyPremiumError(t)) == ClassifyPremiumError(t)
  {
    var u := ClassifyPremiumError(t);
    if u != t {
      var j := FirstMatchFromTable(PremiumErrorTable, t.message);
      ReplacementsMatchNoRule(j);
    }
  }

  /** None of the four replacement messages matches a rule. */
  lemma ReplacementsMatchNoRule(j: nat)
    requires j < |PremiumErrorTable|
    ensures FirstMatch(PremiumErrorTable, PremiumErrorTable[j].1) == None
  {
    ReplacementsLackKeywordChars();
    NoRuleMatchesDigitsOrW(PremiumErrorTable[j].1);
  }

  /** None of the four replacement messages contains a 'w' or a '4'. */
  lemma ReplacementsLackKeywordChars()
    ensures 'w' !in ConnectionMessage && '4' !in ConnectionMessage
    ensures 'w' !in SessionMessage && '4' !in SessionMessage
    ensures 'w' !in ForbiddenMessage && '4' !in ForbiddenMessage
    ensures 'w' !in UserNotFoundMessage && '4' !in UserNotFoundMessage
  {
    ConnectionMessageChars();
    SessionMessageChars();
    ForbiddenMessageChars();
  }

  lemma NoTokenMessageChars() ensures 'w' !in NoTokenMessage && '4' !in NoTokenMessage {}
  lemma InvalidReplyMessageChars() ensures 'w' !in InvalidReplyMessage && '4' !in InvalidReplyMessage {}
  lemma ConnectionMessageChars() ensures 'w' !in ConnectionMessage && '4' !in ConnectionMessage {}
  lemma SessionMessageChars() ensures 'w' !in SessionMessage && '4' !in SessionMessage {}
  lemma ForbiddenMessageChars() ensures 'w' !in ForbiddenMessage && '4' !in ForbiddenMessage {}

  /** A message with neither a 'w' nor a '4' matches none of the four rules. */
  lemma NoRuleMatchesDigitsOrW(m: string)
    requires 'w' !in m && '4' !in m
    ensures FirstMatch(PremiumErrorTable, m) == None
  {
    MissingCharExcludes(m, "network", 3);
    MissingCharExcludes(m, "401", 0);
    MissingCharExcludes(m, "403", 0);
    MissingCharExcludes(m, "404", 0);
    FirstMatchNoneIff(PremiumErrorTable, m);
  }

  /** The helper's own two messages reach the caller unchanged. */
  lemma OwnPremiumErrorsPassThrough()
    ensures ClassifyPremiumError(Error(NoTokenMessage)) == Error(NoTokenMessage)
    ensures ClassifyPremiumError(Error(InvalidReplyMessage)) == Error(InvalidReplyMessage)
  {
    NoTokenMessageChars();
    InvalidReplyMessageChars();
    NoRuleMatchesDigitsOrW(NoTokenMessage);
    NoRuleMatchesDigitsOrW(InvalidReplyMessage);
  }

  /** An error whose message mentions "network" is reported as a connection error, whatever else it says. */
  lemma NetworkRuleFirst(t: Thrown)
    requires t.Error? || t.AxiosError?
    requires Includes(t.message, "network")
    ensures ClassifyPremiumError(t) == Error(ConnectionMessage)
  {
    FirstMatchIsFirstRule(PremiumErrorTable, t.message, 0);
  }

  /** Rule `k` decides the message when its keyword is the first of the table to occur in it. */
  lemma ClassifyPremiumErrorPicksRule(t: Thrown, k: nat)
    requires t.Error? || t.AxiosError?
    requires k < |PremiumErrorTable| && Includes(t.message, PremiumErrorTable[k].0)
    requires forall j :: 0 <= j < k ==> !Includes(t.message, PremiumErrorTable[j].0)
    ensures ClassifyPremiumError(t) == Error(PremiumErrorTable[k].1)
  {
    FirstMatchIsFirstRule(PremiumErrorTable, t.message, k);
  }

  /** A thrown value matching no keyword, or carrying no message, is rethrown unchanged. */
  lemma ClassifyPremiumErrorPassesUnmatched(t: Thrown)
    requires t.NonError? || forall j :: 0 <= j < |PremiumErrorTable| ==> !Includes(t.message, PremiumErrorTable[j].0)
    ensures ClassifyPremiumError(t) == t
  {
    if !t.NonError? {
      FirstMatchNoneIff(PremiumErrorTable, t.message);
    }
  }

  /**
   * createPremiumSetupIntentService: the same token check and status-200-with-body test, but every
   * error, its own included, is rethrown without rewriting.
   */
  function CreatePremiumSetupIntentService(token: Option<string>, call: Outcome<Reply<SetupIntentReply>>): (r: Exchange<SetupIntentReply>)
    ensures r.sent.Some? <==> TruthyOpt(token)
    ensures r.sent.Some? ==> r.sent.value == Request(Post, SetupIntentPath, [], token)
    ensures r.outcome.Ok? <==> TruthyOpt(token) && call.Ok? && call.value.status == 200 && call.value.data.Some?
    ensures r.outcome.Ok? ==> r.outcome.value == call.value.data.value
    ensures !TruthyOpt(token) ==> r.outcome == Err(Error(NoTokenMessage))
    ensures TruthyOpt(token) && call.Ok? && !r.outcome.Ok? ==> r.outcome == Err(Error(NoSetupIntentMessage))
    ensures TruthyOpt(token) && call.Err? ==> r.outcome == Err(call.thrown)
  {
    if !TruthyOpt(token) then Exchange(None, Err(Error(NoTokenMessage)))
    else
      var sent := Some(Request(Post, SetupIntentPath, [], token));
      match call
      case Err(t) => Exchange(sent, Err(t))
      case Ok(Reply(status, data)) =>
        if status == 200 && data.Some? then Exchange(sent, Ok(data.value))
        else Exchange(sent, Err(Error(NoSetupIntentMessage)))
  }
}
