/**
 * app/boost/confirmBoost.tsx: paying for a boost of one listing. One boost request, then the
 * payment sheet with the returned secret; there is no card-setup cycle and no polling.
 */
module ConfirmBoost {
  import opened Wrappers
  import opened JsText
  import Http
  import opened PaymentSheet
  import opened BoostService

  const ErrorTitle := "Error"
  const PaymentErrorTitle := "Error en el pago"
  const MissingInfoMessage := "Falta información del servicio o plan"
  const UnavailableMessage := "Sistema de pagos no disponible en este momento"
  const ConfigurePrefix := "Error al configurar pago: "
  const PaymentPrefix := "Error en el pago: "
  const PaymentDefaultMessage := "Ocurrió un error al procesar el pago"
  const SuccessTitle := "¡Éxito!"
  const BoostedPrefix := "Tu servicio ha sido boosteado con el plan "

  /** The price of a plan, in cents: `planPrices[planId] || 0`. */
  function PlanPriceCents(planId: Option<string>): (cents: nat)
    ensures cents > 0 <==> planId == Some("24h") || planId == Some("72h") || planId == Some("1week")
  {
    match planId
    case Some(id) =>
      if id == "24h" then 150 else if id == "72h" then 350 else if id == "1week" then 600 else 0
    case None => 0
  }

  /** The three plans cost 1.50, 3.50 and 6.00: a longer boost costs more. */
  lemma PlanPrices()
    ensures PlanPriceCents(Some("24h")) == 150
    ensures PlanPriceCents(Some("72h")) == 350
    ensures PlanPriceCents(Some("1week")) == 600
    ensures PlanPriceCents(Some("24h")) < PlanPriceCents(Some("72h")) < PlanPriceCents(Some("1week"))
  {
  }

  /** How each call of one attempt would settle. */
  datatype Script = Script(
    token: Option<string>,                    // the stored token boostService reads
    call: Http.Outcome<Http.Reply<BoostReply>>, // how the boost request settles
    init: SheetResult,                        // initPaymentSheet with the returned secret
    present: SheetResult)                     // presentPaymentSheet

  /** The helper and SDK calls the screen makes. */
  datatype Call = BoostCall(serviceId: string, planId: string) | InitSheet(secret: SheetSecret) | PresentSheet

  datatype Notice = ErrorAlert(title: string, message: string) | InfoAlert(title: string, message: string)

  /** What boostService settles with for this attempt. */
  function Boost(s: Script, serviceId: string, planId: string): Http.Outcome<BoostReply> {
    BoostServiceCall(s.token, serviceId, planId, s.call).outcome
  }

  /** The attempt succeeds iff the boost request, the sheet setup and the sheet all succeed. */
  function AttemptStatus(s: Script, serviceId: string, planId: string): Status {
    if Boost(s, serviceId, planId).Ok? && !s.init.HasError() && !s.present.HasError() then Success else Error
  }

  /** The calls of an attempt that passed the guards. */
  function AttemptCalls(s: Script, serviceId: string, planId: string): seq<Call> {
    var boost := Boost(s, serviceId, planId);
    [BoostCall(serviceId, planId)] +
      if boost.Err? then []
      else [InitSheet(PaymentIntent(boost.value.clientSecret.value))] + if s.init.HasError() then [] else [PresentSheet]
  }

  /** The alert of an attempt that passed the guards. */
  function AttemptNotice(s: Script, serviceId: string, planId: string): Notice {
    var boost := Boost(s, serviceId, planId);
    if boost.Err? then ErrorAlert(PaymentErrorTitle, Http.MessageOr(boost.thrown, PaymentDefaultMessage))
    else if s.init.HasError() then ErrorAlert(PaymentErrorTitle, ConfigurePrefix + s.init.message)
    else if s.present.HasError() then ErrorAlert(PaymentErrorTitle, PaymentPrefix + s.present.message)
    else InfoAlert(SuccessTitle, BoostedPrefix + planId)
  }

  /** Closing the sheet is a failed payment here: there is no separate cancelled outcome. */
  lemma CancelIsError(s: Script, serviceId: string, planId: string)
    requires s.present.Canceled?
    ensures AttemptStatus(s, serviceId, planId) == Error
  {
  }

  /**
   * One boost request per attempt, and the sheet is configured with exactly the secret it
   * returned, which is never empty.
   */
  lemma OneBoostRequest(s: Script, serviceId: string, planId: string)
    ensures multiset(AttemptCalls(s, serviceId, planId))[BoostCall(serviceId, planId)] == 1
    ensures forall c :: c in AttemptCalls(s, serviceId, planId) && c.InitSheet? ==>
      Boost(s, serviceId, planId).Ok? && c.secret == PaymentIntent(Boost(s, serviceId, planId).value.clientSecret.value)
      && c.secret.secret != ""
  {
    var boost := Boost(s, serviceId, planId);
    if boost.Ok? {
      assert Truthy(boost.value.clientSecret.value);
    }
  }

  /** Success needs a stored token, a 200 reply with a secret, and both sheet steps without error. */
  lemma SuccessNeedsEverything(s: Script, serviceId: string, planId: string)
    ensures AttemptStatus(s, serviceId, planId) == Success <==>
      (TruthyOpt(s.token) && s.call.Ok? && s.call.value.status == 200 && s.call.value.data.Some?
       && TruthyOpt(s.call.value.data.value.clientSecret) && s.init.Completed? && s.present.Completed?)
  {
  }

  class ConfirmBoostScreen {
    /** The route parameters. */
    const serviceId: Option<string>
    const planId: Option<string>
    /** `isAvailable` of the payment SDK wrapper. */
    const isAvailable: bool
    var isLoading: bool
    var paymentStatus: Status
    var calls: seq<Call>
    var notices: seq<Notice>

    constructor (serviceId: Option<string>, planId: Option<string>, isAvailable: bool)
      ensures this.serviceId == serviceId && this.planId == planId && this.isAvailable == isAvailable
      ensures !isLoading && paymentStatus == Idle && calls == [] && notices == []
    {
      this.serviceId, this.planId, this.isAvailable := serviceId, planId, isAvailable;
      isLoading, paymentStatus := false, Idle;
      calls, notices := [], [];
    }

    function PayButtonDisabled(): (d: bool)
      reads this
      ensures d <==> isLoading
    {
      isLoading
    }

    /** The price shown on the summary card, in cents. */
    function CurrentPriceCents(): (cents: nat)
      reads this
      ensures cents == PlanPriceCents(planId)
    {
      PlanPriceCents(planId)
    }

    /**
     * `handlePayment`, started from an enabled pay button. The two guards only alert; an attempt
     * that passes them ends with isLoading false and paymentStatus "success" or "error".
     */
    method HandlePayment(s: Script)
      requires !PayButtonDisabled()
      modifies this
      ensures !isLoading
      ensures !(TruthyOpt(serviceId) && TruthyOpt(planId)) ==>
        calls == old(calls) && paymentStatus == old(paymentStatus) && notices == old(notices) + [ErrorAlert(ErrorTitle, MissingInfoMessage)]
      ensures TruthyOpt(serviceId) && TruthyOpt(planId) && !isAvailable ==>
        calls == old(calls) && paymentStatus == old(paymentStatus) && notices == old(notices) + [ErrorAlert(ErrorTitle, UnavailableMessage)]
      ensures TruthyOpt(serviceId) && TruthyOpt(planId) && isAvailable ==>
        && paymentStatus == AttemptStatus(s, serviceId.value, planId.value)
        && calls == old(calls) + AttemptCalls(s, serviceId.value, planId.value)
        && notices == old(notices) + [AttemptNotice(s, serviceId.value, planId.value)]
    {
      if !TruthyOpt(serviceId) || !TruthyOpt(planId) {
        notices := notices + [ErrorAlert(ErrorTitle, MissingInfoMessage)];
        return;
      }
      if !isAvailable {
        notices := notices + [ErrorAlert(ErrorTitle, UnavailableMessage)];
        return;
      }
      isLoading := true;
      paymentStatus := Processing;
      var sid, pid := serviceId.value, planId.value;
      calls := calls + [BoostCall(sid, pid)];
      var boost := BoostServiceCall(s.token, sid, pid, s.call).outcome;
      if boost.Err? {
        Fail(Http.MessageOr(boost.thrown, PaymentDefaultMessage));
      } else {
        calls := calls + [InitSheet(PaymentIntent(boost.value.clientSecret.value))];
        if s.init.HasError() {
          Fail(ConfigurePrefix + s.init.message);
        } else {
          calls := calls + [PresentSheet];
          if s.present.HasError() {
            Fail(PaymentPrefix + s.present.message);
          } else {
            paymentStatus := Success;
            notices := notices + [InfoAlert(SuccessTitle, BoostedPrefix + pid)];
          }
        }
      }
      isLoading := false;
    }

    /** The catch block: status "error" and an alert with the error's message. */
    method Fail(message: string)
      modifies this
      ensures paymentStatus == Error && notices == old(notices) + [ErrorAlert(PaymentErrorTitle, message)]
      ensures calls == old(calls) && isLoading == old(isLoading)
    {
      paymentStatus := Error;
      notices := notices + [ErrorAlert(PaymentErrorTitle, message)];
    }
  }
}
