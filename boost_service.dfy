/**
 * helpers/boost_service.ts: the request that starts a listing boost. It reads the stored token,
 * posts the plan to `/service/boost/{id}`, accepts only a 200 reply carrying a client secret, and
 * rewrites error messages through an ordered keyword table.
 */
module BoostService {
  import opened Wrappers
  import opened JsText
  import opened Http

  /** The fields of the boost reply the client reads: the payment intent's client secret. */
  datatype BoostReply = BoostReply(clientSecret: Option<string>)

  const NoTokenMessage := "No se encontró el token de autenticación"
  const InvalidReplyMessage := "Respuesta inválida del servidor"
  const UnknownErrorMessage := "Ocurrió un error desconocido " + "al procesar el pago"
  const BoostPathPrefix := "/service/boost/"

  // Long messages are written as concatenations so that their characters can be checked piecewise.
  const ConnectionMessage := "Error de conexión. Verifica tu internet"
  const SessionMessage := "Sesión expirada. " + "Por favor inicia sesión again"
  const ForbiddenMessage := "No tienes permiso para " + "boostear este servicio"
  const ServiceNotFoundMessage := "Servicio no encontrado"

  /** The `if ... else if` chain of boostService's catch block, in source order. */
  const BoostErrorTable: KeywordTable := [
    ("network", ConnectionMessage),
    ("401", SessionMessage),
    ("403", ForbiddenMessage),
    ("404", ServiceNotFoundMessage)
  ]

  /** The request boostService sends for a listing and a plan. */
  function BoostRequest(serviceId: string, planId: string, token: Option<string>): Request
  {
    Request(Post, BoostPathPrefix + serviceId, [("planId", planId)], token)
  }

  /**
   * The catch block of boostService: an `Error` whose message matches a rule becomes a new `Error`
   * with that rule's message, any other `Error` is rethrown, and a non-`Error` value becomes a
   * generic `Error`.
   */
  function ClassifyBoostError(t: Thrown): Thrown
  {
    if t.NonError? then Error(UnknownErrorMessage)
    else match FirstMatch(BoostErrorTable, t.message)
      case Some(m) => Error(m)
      case None => t
  }

  /**
   * boostService: `call` is how the POST settles. A request is sent only with a stored token; the
   * reply is returned only for status 200 with a truthy client secret; every failure goes
   * through the keyword table, and what the caller sees is always an `Error`.
   */
  function BoostServiceCall(token: Option<string>, serviceId: string, planId: string, call: Outcome<Reply<BoostReply>>): (r: Exchange<BoostReply>)
    ensures r.sent.Some? <==> TruthyOpt(token)
    ensures r.sent.Some? ==> r.sent.value == BoostRequest(serviceId, planId, token)
    ensures r.outcome.Ok? <==> (TruthyOpt(token) && call.Ok? && call.value.status == 200
                                && call.value.data.Some? && TruthyOpt(call.value.data.value.clientSecret))
    ensures r.outcome.Ok? ==> r.outcome.value == call.value.data.value && TruthyOpt(r.outcome.value.clientSecret)
    ensures r.outcome.Err? ==> IsErrorInstance(r.outcome.thrown)
    ensures !TruthyOpt(token) ==> r.outcome == Err(Error(NoTokenMessage))
    ensures TruthyOpt(token) && call.Ok? && !r.outcome.Ok? ==> r.outcome == Err(Error(InvalidReplyMessage))
    ensures TruthyOpt(token) && call.Err? ==> r.outcome == Err(ClassifyBoostError(call.thrown))
  {
    OwnBoostErrorsPassThrough();
    if !TruthyOpt(token) then Exchange(None, Err(ClassifyBoostError(Error(NoTokenMessage))))
    else
      var sent := Some(BoostRequest(serviceId, planId, token));
      match call
      case Err(t) => Exchange(sent, Err(ClassifyBoostError(t)))
      case Ok(Reply(status, data)) =>
        if status == 200 && data.Some? && TruthyOpt(data.value.clientSecret) then Exchange(sent, Ok(data.value))
        else Exchange(sent, Err(ClassifyBoostError(Error(InvalidReplyMessage))))
  }

  /** The request path names the listing: stripping the fixed prefix gives back the id. */
  lemma BoostPathNamesService(serviceId: string, planId: string, token: Option<string>)
    ensures var p := BoostRequest(serviceId, planId, token).path;
      StartsWith(p, BoostPathPrefix) && p[|BoostPathPrefix|..] == serviceId
  {
    var p := BoostRequest(serviceId, planId, token).path;
    assert p[..|BoostPathPrefix|] == BoostPathPrefix;
  }

  /** A message with neither a 'w' nor a '4' matches none of the four rules. */
  lemma NoBoostRuleMatches(m: string)
    requires 'w' !in m && '4' !in m
    ensures FirstMatch(BoostErrorTable, m) == None
  {
    MissingCharExcludes(m, "network", 3);
    MissingCharExcludes(m, "401", 0);
    MissingCharExcludes(m, "403", 0);
    MissingCharExcludes(m, "404", 0);
    FirstMatchNoneIff(BoostErrorTable, m);
  }

  /** The helper's own messages reach the caller unchanged. */
  lemma OwnBoostErrorsPassThrough()
    ensures ClassifyBoostError(Error(NoTokenMessage)) == Error(NoTokenMessage)
    ensures ClassifyBoostError(Error(InvalidReplyMessage)) == Error(InvalidReplyMessage)
  {
    NoTokenMessageChars();
    InvalidReplyMessageChars();
    NoBoostRuleMatches(NoTokenMessage);
    NoBoostRuleMatches(InvalidReplyMessage);
  }

  lemma NoTokenMessageChars() ensures 'w' !in NoTokenMessage && '4' !in NoTokenMessage {}
  lemma InvalidReplyMessageChars() ensures 'w' !in InvalidReplyMessage && '4' !in InvalidReplyMessage {}
  lemma UnknownErrorMessageChars() ensures 'w' !in UnknownErrorMessage && '4' !in UnknownErrorMessage {}
  lemma ConnectionMessageChars() ensures 'w' !in ConnectionMessage && '4' !in ConnectionMessage {}
  lemma SessionMessageChars() ensures 'w' !in SessionMessage && '4' !in SessionMessage {}
  lemma ForbiddenMessageChars() ensures 'w' !in ForbiddenMessage && '4' !in ForbiddenMessage {}
  lemma ServiceNotFoundMessageChars() ensures 'w' !in ServiceNotFoundMessage && '4' !in ServiceNotFoundMessage {}

  /** Every message the catch block produces itself matches no rule: classifying twice changes nothing. */
  lemma ClassifyBoostErrorIdempotent(t: Thrown)
    ensures ClassifyBoostError(ClassifyBoostError(t)) == ClassifyBoostError(t)
  {
    var u := ClassifyBoostError(t);
    if t.NonError? {
      UnknownErrorMessageChars();
      NoBoostRuleMatches(UnknownErrorMessage);
    } else if u != t {
      var j := FirstMatchFromTable(BoostErrorTable, t.message);
      ConnectionMessageChars();
      SessionMessageChars();
      ForbiddenMessageChars();
      ServiceNotFoundMessageChars();
      NoBoostRuleMatches(BoostErrorTable[j].1);
    }
  }

  /** Rule `k` decides the message when its keyword is the first of the table to occur in it. */
  lemma ClassifyBoostErrorPicksRule(t: Thrown, k: nat)
    requires t.Error? || t.AxiosError?
    requires k < |BoostErrorTable| && Includes(t.message, BoostErrorTable[k].0)
    requires forall j :: 0 <= j < k ==> !Includes(t.message, BoostErrorTable[j].0)
    ensures ClassifyBoostError(t) == Error(BoostErrorTable[k].1)
  {
    FirstMatchIsFirstRule(BoostErrorTable, t.message, k);
  }

  /** An `Error` matching no keyword is rethrown unchanged. */
  lemma ClassifyBoostErrorPassesUnmatched(t: Thrown)
    requires t.Error? || t.AxiosError?
    requires forall j :: 0 <= j < |BoostErrorTable| ==> !Includes(t.message, BoostErrorTable[j].0)
    ensures ClassifyBoostError(t) == t
  {
    FirstMatchNoneIff(BoostErrorTable, t.message);
  }
}
