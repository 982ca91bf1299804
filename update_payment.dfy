/**
 * app/premium/update-payment.tsx: replacing the card of a premium subscription through a setup
 * intent and the payment sheet.
 */
module UpdatePayment {
  import opened Wrappers
  import Http
  import opened PaymentSheet
  import opened PremiumUser

  const RequestingInfo := "Solicitando autorización para " + "agregar nueva tarjeta..."
  const OpeningInfo := "Abriendo formulario de Stripe para " + "agregar nueva tarjeta..."
  const UpdatedInfo := "¡Método de pago actualizado correctamente! " + "Los próximos cobros se harán a la nueva tarjeta."
  const ErrorTitle := "Error"
  const DefaultFailureMessage := "No se pudo actualizar el método de pago"

  /** How each call of one attempt would settle. */
  datatype Script = Script(
    setupIntent: Http.Outcome<SetupIntentReply>,  // createPremiumSetupIntentService()
    init: SheetResult,                            // initPaymentSheet with the SetupIntent secret
    present: SheetResult)                         // presentPaymentSheet

  datatype Call = SetupIntentCall | InitSheet(secret: SheetSecret) | PresentSheet

  /** The card is replaced iff all three steps succeed. */
  predicate Updated(s: Script) {
    s.setupIntent.Ok? && !s.init.HasError() && !s.present.HasError()
  }

  /** The alert text of the catch block. */
  function FailureMessage(s: Script): string
    requires !Updated(s)
  {
    var m := if s.setupIntent.Err? then Http.MessageOr(s.setupIntent.thrown, "")
      else if s.init.HasError() then s.init.message else s.present.message;
    if m != "" then m else DefaultFailureMessage
  }

  /** The calls of an attempt. */
  function AttemptCalls(s: Script): seq<Call> {
    [SetupIntentCall] +
      if s.setupIntent.Err? then []
      else [InitSheet(SetupIntent(s.setupIntent.value.setupIntentClientSecret))] + if s.init.HasError() then [] else [PresentSheet]
  }

  /** The sheet is presented only after it was set up with the secret of the setup intent. */
  lemma PresentFollowsSetup(s: Script)
    ensures PresentSheet in AttemptCalls(s) <==> s.setupIntent.Ok? && !s.init.HasError()
    ensures PresentSheet in AttemptCalls(s) ==>
      AttemptCalls(s) == [SetupIntentCall, InitSheet(SetupIntent(s.setupIntent.value.setupIntentClientSecret)), PresentSheet]
  {
  }

  class UpdatePaymentScreen {
    /** `isLoading` of the payment SDK wrapper. */
    const stripeLoading: bool
    var isLoading: bool
    var infoMessage: string
    var success: bool
    var calls: seq<Call>
    var alerts: seq<string>

    constructor (stripeLoading: bool)
      ensures this.stripeLoading == stripeLoading && !isLoading && infoMessage == "" && !success
      ensures calls == [] && alerts == []
    {
      this.stripeLoading := stripeLoading;
      isLoading, infoMessage, success := false, "", false;
      calls, alerts := [], [];
    }

    /** The button: disabled while loading, while the SDK loads, and for good after a success. */
    function ButtonDisabled(): (d: bool)
      reads this
      ensures d <==> isLoading || stripeLoading || success
      ensures success ==> d
    {
      isLoading || stripeLoading || success
    }

    /** `handleUpdatePayment`, started from an enabled button. */
    method HandleUpdatePayment(s: Script)
      requires !ButtonDisabled()
      modifies this
      ensures !isLoading
      ensures success <==> Updated(s)
      ensures infoMessage == if Updated(s) then UpdatedInfo else ""
      ensures calls == old(calls) + AttemptCalls(s)
      ensures alerts == old(alerts) + if Updated(s) then [] else [FailureMessage(s)]
      ensures Updated(s) ==> ButtonDisabled()
    {
      isLoading := true;
      infoMessage := "";
      success := false;
      infoMessage := RequestingInfo;
      calls := calls + [SetupIntentCall];
      if s.setupIntent.Err? {
        Fail(Http.MessageOr(s.setupIntent.thrown, ""));
      } else {
        infoMessage := OpeningInfo;
        calls := calls + [InitSheet(SetupIntent(s.setupIntent.value.setupIntentClientSecret))];
        if s.init.HasError() {
          Fail(s.init.message);
        } else {
          calls := calls + [PresentSheet];
          if s.present.HasError() {
            Fail(s.present.message);
          } else {
            success := true;
            infoMessage := UpdatedInfo;
          }
        }
      }
      isLoading := false;
    }

    /** The catch block: clear the notice and alert `message || default`. */
    method Fail(message: string)
      modifies this
      ensures infoMessage == "" && alerts == old(alerts) + [if message != "" then message else DefaultFailureMessage]
      ensures success == old(success) && calls == old(calls) && isLoading == old(isLoading)
    {
      infoMessage := "";
      alerts := alerts + [if message != "" then message else DefaultFailureMessage];
    }
  }
}
