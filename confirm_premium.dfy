/**
 * app/premium/confirmPremium.tsx: the premium checkout. A subscription request, an optional
 * card-setup cycle when the backend asks for a payment method, then either the payment sheet
 * (when a client secret comes back) or a poll of the profile until the webhook activates premium.
 *
 * Every backend, SDK and device call is an input: a `Script` holds how each would settle. The
 * screen's state is a class; `calls` and `notices` record the calls made and the alerts shown.
 */
module ConfirmPremium {
  import opened Wrappers
  import Http
  import opened PaymentSheet
  import opened PremiumUser

  const MaxAttempts: nat := 12

  const ErrorTitle := "Error"
  const SuccessTitle := "¡Éxito!"
  const StillProcessingTitle := "Seguimos procesando"
  const CanceledTitle := "Pago cancelado"
  const EmailSentTitle := "CORREO ENVIADO"
  const EmailFailedTitle := "CORREO NO ENVIADO"

  const UnavailableMessage := "Sistema de pagos no disponible en este momento"
  const InitDefaultMessage := "No se pudo iniciar el proceso de pago"
  const PaymentDefaultMessage := "Ocurrió un error al procesar el pago"
  const ConfigurePrefix := "Error al configurar pago: "
  const PremiumNowMessage := "¡Ahora eres usuario Premium! " + "Disfruta de todos los beneficios."
  const StillProcessingMessage := "Tu pago está en proceso. " + "Si no ves la activación en unos minutos, intenta actualizar tu perfil."
  const CanceledMessage := "Has cancelado el proceso de pago"
  const EmailSentMessage := "Revisa tu correo para más información " + "sobre tu suscripción Premium"
  const EmailFailedMessage := "OCURRIO UN ERROR"

  const CardNeededInfo := "Necesitas asociar una tarjeta antes de suscribirte. " + "Se abrirá el formulario de Stripe para agregar tu método de pago."
  const PollInfo := "Estamos procesando tu suscripción. " + "Esto puede tardar unos segundos..."
  const ConfirmInfo := "Confirma el pago de tu suscripción en el siguiente paso. " + "Tras el pago, tu cuenta será activada como premium en unos segundos."
  const VerifyInfo := "Estamos verificando el estado " + "de tu suscripción..."
  const ProcessingInfo := "Procesando pago y activación " + "de tu suscripción..."

  datatype Mode = PaymentMode | PollMode

  /** What initializePaymentSheet returns: ready in one of the two modes, or `ok: false`. */
  datatype InitResult = Ready(mode: Mode) | InitFailed

  /** One profile fetch of the poll: rejected, or resolved with (or without) the premium flag. */
  datatype ProfilePoll = FetchFailed | Fetched(isPremium: bool)

  /** How each call of one checkout attempt would settle, in the order the screen makes them. */
  datatype Script = Script(
    first: Http.Outcome<PremiumReply>,            // premiumUserService()
    setupIntent: Http.Outcome<SetupIntentReply>,  // createPremiumSetupIntentService()
    setupInit: SheetResult,                  // initPaymentSheet with the SetupIntent secret
    setupPresent: SheetResult,               // presentPaymentSheet for the card
    second: Http.Outcome<PremiumReply>,           // premiumUserService() after the card is saved
    paymentInit: SheetResult,                // initPaymentSheet with the PaymentIntent secret
    profiles: seq<ProfilePoll>,              // getUserProfile() per poll attempt; missing ones fail
    paymentPresent: SheetResult,             // presentPaymentSheet for the payment
    emailSent: bool)                         // whether sendEmail() resolves

  /** The backend and SDK calls the screen makes. */
  datatype Call =
    | PremiumCall
    | SetupIntentCall
    | InitSheet(secret: SheetSecret)
    | PresentSetupSheet
    | PresentPaymentSheet
    | ProfileCall
    | EmailCall

  /** An alert: an error dialog or an informational one. */
  datatype Notice = ErrorAlert(title: string, message: string) | InfoAlert(title: string, message: string)

  /** The message of `new Error(sheetError.message)` as the catch block shows it. */
  function SheetMessage(r: SheetResult, fallback: string): string
    requires r.HasError()
  {
    if r.message != "" then r.message else fallback
  }

  /**
   * The subscription reply the branch is taken on: the first one, or the second one after a
   * completed card setup. `None` when something before the branch throws.
   */
  function SettledReply(s: Script): (r: Option<PremiumReply>)
    ensures r.Some? && s.first.Ok? && !s.first.value.requiresPaymentMethod ==> r.value == s.first.value
    ensures r.Some? && s.first.Ok? && s.first.value.requiresPaymentMethod ==> s.second.Ok? && r.value == s.second.value
    ensures r.None? <==> (s.first.Err? || (s.first.value.requiresPaymentMethod &&
      (s.setupIntent.Err? || s.setupInit.HasError() || s.setupPresent.HasError() || s.second.Err?)))
  {
    if s.first.Err? then None
    else if !s.first.value.requiresPaymentMethod then Some(s.first.value)
    else if s.setupIntent.Err? || s.setupInit.HasError() || s.setupPresent.HasError() || s.second.Err? then None
    else Some(s.second.value)
  }

  /** What initializePaymentSheet returns for a script. */
  function InitOutcome(s: Script): InitResult {
    match SettledReply(s)
    case None => InitFailed
    case Some(reply) =>
      if reply.clientSecret.NullSecret? then Ready(PollMode)
      else if reply.clientSecret.IsTruthy() then
        (if s.paymentInit.HasError() then InitFailed else Ready(PaymentMode))
      else Ready(PollMode)
  }

  /** The calls initializePaymentSheet makes. */
  function InitCalls(s: Script): seq<Call> {
    if s.first.Err? || !s.first.value.requiresPaymentMethod then
      [PremiumCall] + PaymentInitCalls(s)
    else if s.setupIntent.Err? then
      [PremiumCall, SetupIntentCall]
    else
      var setupSheet := InitSheet(SetupIntent(s.setupIntent.value.setupIntentClientSecret));
      if s.setupInit.HasError() then [PremiumCall, SetupIntentCall, setupSheet]
      else if s.setupPresent.HasError() then [PremiumCall, SetupIntentCall, setupSheet, PresentSetupSheet]
      else [PremiumCall, SetupIntentCall, setupSheet, PresentSetupSheet, PremiumCall] + PaymentInitCalls(s)
  }

  /** The calls of the card-setup cycle, up to and including the second subscription request. */
  function SetupCycleCalls(s: Script): seq<Call>
    requires s.first.Ok? && s.first.value.requiresPaymentMethod
  {
    if s.setupIntent.Err? then [SetupIntentCall]
    else
      var setupSheet := InitSheet(SetupIntent(s.setupIntent.value.setupIntentClientSecret));
      if s.setupInit.HasError() then [SetupIntentCall, setupSheet]
      else if s.setupPresent.HasError() then [SetupIntentCall, setupSheet, PresentSetupSheet]
      else [SetupIntentCall, setupSheet, PresentSetupSheet, PremiumCall]
  }

  /** Initialization calls: the first request, the setup cycle when a card is needed, the sheet init. */
  lemma InitCallsSplit(s: Script)
    ensures s.first.Ok? && s.first.value.requiresPaymentMethod ==>
      InitCalls(s) == [PremiumCall] + SetupCycleCalls(s) + PaymentInitCalls(s)
    ensures !(s.first.Ok? && s.first.value.requiresPaymentMethod) ==> InitCalls(s) == [PremiumCall] + PaymentInitCalls(s)
  {
  }

  /** The payment-sheet initialization, made only when the settled reply has a truthy secret. */
  function PaymentInitCalls(s: Script): seq<Call> {
    match SettledReply(s)
    case Some(reply) =>
      if reply.clientSecret.IsTruthy() then [InitSheet(PaymentIntent(reply.clientSecret.value))] else []
    case None => []
  }

  /** The alert text of the init catch block. */
  function InitFailureMessage(s: Script): string {
    if s.first.Err? then Http.MessageOr(s.first.thrown, InitDefaultMessage)
    else if s.first.value.requiresPaymentMethod && s.setupIntent.Err? then Http.MessageOr(s.setupIntent.thrown, InitDefaultMessage)
    else if s.first.value.requiresPaymentMethod && s.setupInit.HasError() then SheetMessage(s.setupInit, InitDefaultMessage)
    else if s.first.value.requiresPaymentMethod && s.setupPresent.HasError() then SheetMessage(s.setupPresent, InitDefaultMessage)
    else if s.first.value.requiresPaymentMethod && s.second.Err? then Http.MessageOr(s.second.thrown, InitDefaultMessage)
    else if s.paymentInit.HasError() then ConfigurePrefix + s.paymentInit.message
    else InitDefaultMessage
  }

  /** `infoMessage` when initializePaymentSheet returns. */
  function InitInfo(s: Script): string {
    match InitOutcome(s)
    case InitFailed => ""
    case Ready(_) =>
      var reply := SettledReply(s).value;
      if reply.clientSecret.NullSecret? then PollInfo
      else if reply.clientSecret.IsTruthy() then ConfirmInfo
      else VerifyInfo
  }

  /** `clientSecret` when initializePaymentSheet returns: set on the two branches that touch it. */
  function InitClientSecret(s: Script, before: Option<string>): Option<string> {
    match SettledReply(s)
    case Some(reply) =>
      if reply.clientSecret.NullSecret? then None
      else if reply.clientSecret.IsTruthy() then Some(reply.clientSecret.value)
      else before
    case None => before
  }

  /** The `i`-th poll attempt; attempts past the script fail. */
  function ProfileAt(profiles: seq<ProfilePoll>, i: nat): ProfilePoll {
    if i < |profiles| then profiles[i] else FetchFailed
  }

  /** The first attempt, from `from` on and below MaxAttempts, that reports premium. */
  function FirstActivation(profiles: seq<ProfilePoll>, from: nat): (r: Option<nat>)
    requires from <= MaxAttempts
    ensures r.Some? ==> from <= r.value < MaxAttempts && ProfileAt(profiles, r.value) == Fetched(true)
    ensures r.Some? ==> forall j :: from <= j < r.value ==> ProfileAt(profiles, j) != Fetched(true)
    ensures r.None? ==> forall j :: from <= j < MaxAttempts ==> ProfileAt(profiles, j) != Fetched(true)
    decreases MaxAttempts - from
  {
    if from == MaxAttempts then None
    else if ProfileAt(profiles, from) == Fetched(true) then Some(from)
    else FirstActivation(profiles, from + 1)
  }

  /** How many profile fetches the poll makes. */
  function PollAttempts(profiles: seq<ProfilePoll>): nat {
    match FirstActivation(profiles, 0)
    case Some(k) => k + 1
    case None => MaxAttempts
  }

  /** `n` copies of `c`. */
  function Repeat(c: Call, n: nat): (r: seq<Call>)
    ensures |r| == n && forall i :: 0 <= i < n ==> r[i] == c
  {
    seq(n, _ => c)
  }

  /** The alert after sendEmail. */
  function EmailNotice(sent: bool): Notice {
    if sent then InfoAlert(EmailSentTitle, EmailSentMessage) else ErrorAlert(EmailFailedTitle, EmailFailedMessage)
  }

  /** paymentStatus at the end of an attempt on an available payment system. */
  function FinalStatus(s: Script): Status {
    match InitOutcome(s)
    case InitFailed => Processing
    case Ready(PollMode) => if FirstActivation(s.profiles, 0).Some? then Success else Idle
    case Ready(PaymentMode) =>
      match s.paymentPresent
      case Completed => Success
      case Canceled(_) => Idle
      case Failed(_) => Error
  }

  /** All calls of an attempt on an available payment system. */
  function PaymentCalls(s: Script): seq<Call> {
    InitCalls(s) + LaterCalls(s)
  }

  /** The calls handlePayment makes once initializePaymentSheet has returned. */
  function LaterCalls(s: Script): seq<Call> {
    match InitOutcome(s)
    case InitFailed => []
    case Ready(PollMode) => Repeat(ProfileCall, PollAttempts(s.profiles)) + [EmailCall]
    case Ready(PaymentMode) => [PresentPaymentSheet] + (if s.paymentPresent.Completed? then [EmailCall] else [])
  }

  /** The alerts of an attempt on an available payment system. */
  function AttemptNotices(s: Script): seq<Notice> {
    match InitOutcome(s)
    case InitFailed => [ErrorAlert(ErrorTitle, InitFailureMessage(s))]
    case Ready(PollMode) =>
      [if FirstActivation(s.profiles, 0).Some? then InfoAlert(SuccessTitle, PremiumNowMessage)
       else ErrorAlert(StillProcessingTitle, StillProcessingMessage), EmailNotice(s.emailSent)]
    case Ready(PaymentMode) =>
      match s.paymentPresent
      case Completed => [InfoAlert(SuccessTitle, PremiumNowMessage), EmailNotice(s.emailSent)]
      case Canceled(_) => [ErrorAlert(CanceledTitle, CanceledMessage)]
      case Failed(m) => [ErrorAlert(ErrorTitle, if m != "" then m else PaymentDefaultMessage)]
  }

  /** `infoMessage` at the end of an attempt. */
  function FinalInfo(s: Script): string {
    match InitOutcome(s)
    case Ready(PollMode) => if FirstActivation(s.profiles, 0).Some? then "" else ProcessingInfo
    case _ => InitInfo(s)
  }

  /** A run of one call holds that call and no other. */
  lemma {:induction false} RepeatCount(c: Call, n: nat, d: Call)
    ensures multiset(Repeat(c, n))[d] == if c == d then n else 0
  {
    if n > 0 {
      RepeatCount(c, n - 1, d);
      assert Repeat(c, n) == Repeat(c, n - 1) + [c];
    }
  }

  /** The poll makes between one and twelve fetches, twelve exactly when no fetch reports premium. */
  lemma PollAttemptsSpec(profiles: seq<ProfilePoll>)
    ensures 1 <= PollAttempts(profiles) <= MaxAttempts
    ensures PollAttempts(profiles) == MaxAttempts <==>
      (forall j :: 0 <= j < MaxAttempts - 1 ==> ProfileAt(profiles, j) != Fetched(true))
    ensures FirstActivation(profiles, 0).Some? ==> PollAttempts(profiles) == FirstActivation(profiles, 0).value + 1
  {
  }

  /** A failed fetch is just a used attempt: replacing it by a non-premium profile changes nothing. */
  lemma {:induction false} FailedFetchIsNotPremium(profiles: seq<ProfilePoll>, k: nat, from: nat)
    requires k < |profiles| && profiles[k] == FetchFailed && from <= MaxAttempts
    ensures FirstActivation(profiles, from) == FirstActivation(profiles[k := Fetched(false)], from)
    decreases MaxAttempts - from
  {
    if from < MaxAttempts {
      FailedFetchIsNotPremium(profiles, k, from + 1);
    }
  }

  /** The branch after the optional setup: null polls, a truthy secret pays, anything else polls. */
  lemma BranchSelection(s: Script)
    requires SettledReply(s).Some?
    ensures SettledReply(s).value.clientSecret.NullSecret? ==> InitOutcome(s) == Ready(PollMode)
    ensures SettledReply(s).value.clientSecret.IsTruthy() ==>
      InitOutcome(s) == if s.paymentInit.HasError() then InitFailed else Ready(PaymentMode)
    ensures SettledReply(s).value.clientSecret == NoSecret ==> InitOutcome(s) == Ready(PollMode)
    ensures SettledReply(s).value.clientSecret == Secret("") ==> InitOutcome(s) == Ready(PollMode)
  {
  }

  /**
   * `requiresPaymentMethod` is tested once: the reply after the card setup is used as it is, even
   * if it asks for a card again, and the subscription is requested exactly twice.
   */
  lemma SecondReplyNotRetested(s: Script)
    requires s.first.Ok? && s.first.value.requiresPaymentMethod
    requires s.setupIntent.Ok? && !s.setupInit.HasError() && !s.setupPresent.HasError() && s.second.Ok?
    ensures SettledReply(s) == Some(s.second.value)
    ensures multiset(InitCalls(s))[PremiumCall] == 2 && multiset(InitCalls(s))[SetupIntentCall] == 1
  {
  }

  /** Closing or failing the card-setup sheet aborts initialization. */
  lemma SetupSheetErrorAbortsInit(s: Script)
    requires s.first.Ok? && s.first.value.requiresPaymentMethod && s.setupIntent.Ok?
    requires s.setupInit.HasError() || s.setupPresent.HasError()
    ensures InitOutcome(s) == InitFailed
    ensures PresentPaymentSheet !in PaymentCalls(s) && FinalStatus(s) == Processing
  {
  }

  /**
   * Per attempt: at most two subscription requests, at most one setup intent, at most twelve
   * profile fetches, and profile fetches only in poll mode.
   */
  lemma CallBounds(s: Script)
    ensures multiset(PaymentCalls(s))[PremiumCall] <= 2
    ensures multiset(PaymentCalls(s))[SetupIntentCall] <= 1
    ensures multiset(PaymentCalls(s))[ProfileCall] <= MaxAttempts
    ensures InitOutcome(s) != Ready(PollMode) ==> multiset(PaymentCalls(s))[ProfileCall] == 0
  {
    InitCallCounts(s);
    LaterCallCounts(s);
    assert multiset(PaymentCalls(s)) == multiset(InitCalls(s)) + multiset(LaterCalls(s));
  }

  /** After initialization: no subscription request or setup intent, and profile fetches only when polling. */
  lemma LaterCallCounts(s: Script)
    ensures multiset(LaterCalls(s))[PremiumCall] == 0
    ensures multiset(LaterCalls(s))[SetupIntentCall] == 0
    ensures multiset(LaterCalls(s))[ProfileCall] <= MaxAttempts
    ensures InitOutcome(s) != Ready(PollMode) ==> multiset(LaterCalls(s))[ProfileCall] == 0
  {
    var n := PollAttempts(s.profiles);
    PollAttemptsSpec(s.profiles);
    RepeatCount(ProfileCall, n, PremiumCall);
    RepeatCount(ProfileCall, n, SetupIntentCall);
    RepeatCount(ProfileCall, n, ProfileCall);
  }

  /** Initialization alone: at most two subscription requests, at most one setup intent, no profile fetch. */
  lemma InitCallCounts(s: Script)
    ensures multiset(InitCalls(s))[PremiumCall] <= 2
    ensures multiset(InitCalls(s))[SetupIntentCall] <= 1
    ensures multiset(InitCalls(s))[ProfileCall] == 0
  {
    var p := PaymentInitCalls(s);
    assert multiset(p)[PremiumCall] == 0 && multiset(p)[SetupIntentCall] == 0 && multiset(p)[ProfileCall] == 0;
    if s.first.Ok? && s.first.value.requiresPaymentMethod && s.setupIntent.Ok? && !s.setupInit.HasError() && !s.setupPresent.HasError() {
      var setupSheet := InitSheet(SetupIntent(s.setupIntent.value.setupIntentClientSecret));
      var cycle := [PremiumCall, SetupIntentCall, setupSheet, PresentSetupSheet, PremiumCall];
      assert InitCalls(s) == cycle + p;
      assert multiset(InitCalls(s)) == multiset(cycle) + multiset(p);
    }
  }

  /** The payment sheet is presented exactly in payment mode, so never after a failed initialization. */
  lemma PaymentSheetOnlyInPaymentMode(s: Script)
    ensures PresentPaymentSheet in PaymentCalls(s) <==> InitOutcome(s) == Ready(PaymentMode)
  {
    RepeatCount(ProfileCall, PollAttempts(s.profiles), PresentPaymentSheet);
    assert PresentPaymentSheet !in InitCalls(s);
  }

  /** The email goes out after either poll outcome, and in payment mode only after a completed payment. */
  lemma EmailRule(s: Script)
    ensures EmailCall in PaymentCalls(s) <==>
      (InitOutcome(s) == Ready(PollMode) || (InitOutcome(s) == Ready(PaymentMode) && s.paymentPresent.Completed?))
  {
    RepeatCount(ProfileCall, PollAttempts(s.profiles), EmailCall);
    assert EmailCall !in InitCalls(s);
  }

  /** The end state of an attempt whose initialization failed. */
  lemma InitFailedAttempt(s: Script)
    requires InitOutcome(s) == InitFailed
    ensures FinalStatus(s) == Processing && PaymentCalls(s) == InitCalls(s)
    ensures AttemptNotices(s) == [ErrorAlert(ErrorTitle, InitFailureMessage(s))] && FinalInfo(s) == InitInfo(s) == ""
  {
    assert LaterCalls(s) == [];
  }

  /** The end state of an attempt in poll mode, step by step. */
  lemma PollAttempt(s: Script)
    requires InitOutcome(s) == Ready(PollMode)
    ensures FinalStatus(s) == if FirstActivation(s.profiles, 0).Some? then Success else Idle
    ensures FinalInfo(s) == if FirstActivation(s.profiles, 0).Some? then "" else ProcessingInfo
    ensures LaterCalls(s) == Repeat(ProfileCall, PollAttempts(s.profiles)) + [EmailCall]
    ensures AttemptNotices(s) ==
      [if FirstActivation(s.profiles, 0).Some? then InfoAlert(SuccessTitle, PremiumNowMessage)
       else ErrorAlert(StillProcessingTitle, StillProcessingMessage), EmailNotice(s.emailSent)]
  {
  }

  /** The end state of an attempt in payment mode, step by step. */
  lemma PaymentAttempt(s: Script)
    requires InitOutcome(s) == Ready(PaymentMode)
    ensures FinalStatus(s) == match s.paymentPresent case Completed => Success case Canceled(_) => Idle case Failed(_) => Error
    ensures FinalInfo(s) == InitInfo(s) == ConfirmInfo
    ensures LaterCalls(s) == [PresentPaymentSheet] + (if s.paymentPresent.Completed? then [EmailCall] else [])
    ensures AttemptNotices(s) ==
      match s.paymentPresent
      case Completed => [InfoAlert(SuccessTitle, PremiumNowMessage), EmailNotice(s.emailSent)]
      case Canceled(_) => [ErrorAlert(CanceledTitle, CanceledMessage)]
      case Failed(m) => [ErrorAlert(ErrorTitle, if m != "" then m else PaymentDefaultMessage)]
  {
  }

  /** How the attempt ends: polling never ends in "error"; the payment sheet's result picks the status. */
  lemma StatusMapping(s: Script)
    ensures InitOutcome(s) == InitFailed ==> FinalStatus(s) == Processing
    ensures InitOutcome(s) == Ready(PollMode) ==>
      FinalStatus(s) == if FirstActivation(s.profiles, 0).Some? then Success else Idle
    ensures InitOutcome(s) == Ready(PaymentMode) && s.paymentPresent.Canceled? ==> FinalStatus(s) == Idle
    ensures InitOutcome(s) == Ready(PaymentMode) && s.paymentPresent.Failed? ==> FinalStatus(s) == Error
    ensures InitOutcome(s) == Ready(PaymentMode) && s.paymentPresent.Completed? ==> FinalStatus(s) == Success
    ensures FinalStatus(s) == Error ==> InitOutcome(s) == Ready(PaymentMode) && s.paymentPresent.Failed?
  {
  }

  class ConfirmPremiumScreen {
    /** `isAvailable` of the payment SDK wrapper. */
    const isAvailable: bool
    var isLoading: bool
    var paymentStatus: Status
    var clientSecret: Option<string>
    var infoMessage: string
    var calls: seq<Call>
    var notices: seq<Notice>

    constructor (isAvailable: bool)
      ensures this.isAvailable == isAvailable && !isLoading && paymentStatus == Idle
      ensures clientSecret.None? && infoMessage == "" && calls == [] && notices == []
    {
      this.isAvailable := isAvailable;
      isLoading, paymentStatus := false, Idle;
      clientSecret, infoMessage := None, "";
      calls, notices := [], [];
    }

    /** The pay button is disabled while an attempt runs. */
    function PayButtonDisabled(): (d: bool)
      reads this
      ensures d <==> isLoading
    {
      isLoading
    }

    /** The catch block of initializePaymentSheet. */
    method FailInit(message: string)
      modifies this
      ensures infoMessage == "" && notices == old(notices) + [ErrorAlert(ErrorTitle, message)]
      ensures calls == old(calls) && clientSecret == old(clientSecret)
      ensures isLoading == old(isLoading) && paymentStatus == old(paymentStatus)
    {
      infoMessage := "";
      notices := notices + [ErrorAlert(ErrorTitle, message)];
    }

    /** `initializePaymentSheet`. */
    method InitializePaymentSheet(s: Script) returns (init: InitResult)
      modifies this
      ensures init == InitOutcome(s)
      ensures calls == old(calls) + InitCalls(s)
      ensures notices == old(notices) + (if init.InitFailed? then [ErrorAlert(ErrorTitle, InitFailureMessage(s))] else [])
      ensures infoMessage == InitInfo(s)
      ensures clientSecret == InitClientSecret(s, old(clientSecret))
      ensures isLoading == old(isLoading) && paymentStatus == old(paymentStatus)
    {
      InitCallsSplit(s);
      calls := calls + [PremiumCall];
      if s.first.Err? {
        FailInit(Http.MessageOr(s.first.thrown, InitDefaultMessage));
        return InitFailed;
      }
      var response := s.first.value;
      if response.requiresPaymentMethod {
        var settled := SetUpCard(s);
        if !settled {
          return InitFailed;
        }
        response := s.second.value;
      }
      init := TakeBranch(s, response);
    }

    /** The card-setup cycle of initializePaymentSheet, ending with the second subscription request. */
    method SetUpCard(s: Script) returns (settled: bool)
      requires s.first.Ok? && s.first.value.requiresPaymentMethod
      modifies this
      ensures settled <==> SettledReply(s).Some?
      ensures calls == old(calls) + SetupCycleCalls(s)
      ensures !settled ==> notices == old(notices) + [ErrorAlert(ErrorTitle, InitFailureMessage(s))]
      ensures settled ==> notices == old(notices)
      ensures infoMessage == "" && clientSecret == old(clientSecret)
      ensures isLoading == old(isLoading) && paymentStatus == old(paymentStatus)
    {
      infoMessage := CardNeededInfo;
      calls := calls + [SetupIntentCall];
      if s.setupIntent.Err? {
        FailInit(Http.MessageOr(s.setupIntent.thrown, InitDefaultMessage));
        return false;
      }
      calls := calls + [InitSheet(SetupIntent(s.setupIntent.value.setupIntentClientSecret))];
      if s.setupInit.HasError() {
        FailInit(SheetMessage(s.setupInit, InitDefaultMessage));
        return false;
      }
      calls := calls + [PresentSetupSheet];
      if s.setupPresent.HasError() {
        FailInit(SheetMessage(s.setupPresent, InitDefaultMessage));
        return false;
      }
      infoMessage := "";
      calls := calls + [PremiumCall];
      if s.second.Err? {
        FailInit(Http.MessageOr(s.second.thrown, InitDefaultMessage));
        return false;
      }
      return true;
    }

    /** The three-way branch of initializePaymentSheet on the settled reply. */
    method TakeBranch(s: Script, response: PremiumReply) returns (init: InitResult)
      requires SettledReply(s) == Some(response)
      modifies this
      ensures init == InitOutcome(s)
      ensures calls == old(calls) + PaymentInitCalls(s)
      ensures notices == old(notices) + (if init.InitFailed? then [ErrorAlert(ErrorTitle, ConfigurePrefix + s.paymentInit.message)] else [])
      ensures infoMessage == InitInfo(s)
      ensures clientSecret == InitClientSecret(s, old(clientSecret))
      ensures isLoading == old(isLoading) && paymentStatus == old(paymentStatus)
    {
      if response.clientSecret.NullSecret? {
        clientSecret := None;
        infoMessage := PollInfo;
        return Ready(PollMode);
      }
      if response.clientSecret.IsTruthy() {
        clientSecret := Some(response.clientSecret.value);
        infoMessage := ConfirmInfo;
        calls := calls + [InitSheet(PaymentIntent(response.clientSecret.value))];
        if s.paymentInit.HasError() {
          FailInit(ConfigurePrefix + s.paymentInit.message);
          return InitFailed;
        }
        return Ready(PaymentMode);
      }
      infoMessage := VerifyInfo;
      return Ready(PollMode);
    }

    /** The polling loop: up to twelve profile fetches, stopping at the first premium profile. */
    method PollProfile(profiles: seq<ProfilePoll>) returns (activated: bool)
      modifies this
      ensures activated <==> FirstActivation(profiles, 0).Some?
      ensures calls == old(calls) + Repeat(ProfileCall, PollAttempts(profiles))
      ensures notices == old(notices) && infoMessage == old(infoMessage) && clientSecret == old(clientSecret)
      ensures isLoading == old(isLoading) && paymentStatus == old(paymentStatus)
    {
      activated := false;
      var i: nat := 0;
      while i < MaxAttempts
        invariant i <= MaxAttempts
        invariant FirstActivation(profiles, 0) == FirstActivation(profiles, i)
        invariant calls == old(calls) + Repeat(ProfileCall, i)
        invariant notices == old(notices) && infoMessage == old(infoMessage) && clientSecret == old(clientSecret)
        invariant isLoading == old(isLoading) && paymentStatus == old(paymentStatus)
      {
        calls := calls + [ProfileCall];
        assert Repeat(ProfileCall, i) + [ProfileCall] == Repeat(ProfileCall, i + 1);
        if ProfileAt(profiles, i) == Fetched(true) {
          activated := true;
          break;
        }
        i := i + 1;
      }
    }

    /** The email step shared by the success paths. */
    method SendConfirmationEmail(sent: bool)
      modifies this
      ensures calls == old(calls) + [EmailCall] && notices == old(notices) + [EmailNotice(sent)]
      ensures infoMessage == old(infoMessage) && clientSecret == old(clientSecret)
      ensures isLoading == old(isLoading) && paymentStatus == old(paymentStatus)
    {
      calls := calls + [EmailCall];
      notices := notices + [EmailNotice(sent)];
    }

    /** Poll mode of handlePayment. */
    method FinishPoll(s: Script)
      modifies this
      ensures paymentStatus == if FirstActivation(s.profiles, 0).Some? then Success else Idle
      ensures infoMessage == if FirstActivation(s.profiles, 0).Some? then "" else ProcessingInfo
      ensures calls == old(calls) + Repeat(ProfileCall, PollAttempts(s.profiles)) + [EmailCall]
      ensures notices == old(notices) +
        [if FirstActivation(s.profiles, 0).Some? then InfoAlert(SuccessTitle, PremiumNowMessage)
         else ErrorAlert(StillProcessingTitle, StillProcessingMessage), EmailNotice(s.emailSent)]
      ensures isLoading == old(isLoading) && clientSecret == old(clientSecret)
    {
      infoMessage := ProcessingInfo;
      var activated := PollProfile(s.profiles);
      if activated {
        paymentStatus := Success;
        infoMessage := "";
        notices := notices + [InfoAlert(SuccessTitle, PremiumNowMessage)];
      } else {
        paymentStatus := Idle;
        notices := notices + [ErrorAlert(StillProcessingTitle, StillProcessingMessage)];
      }
      SendConfirmationEmail(s.emailSent);
    }

    /** Payment mode of handlePayment: present the sheet and map its result. */
    method FinishPayment(s: Script)
      modifies this
      ensures paymentStatus == match s.paymentPresent case Completed => Success case Canceled(_) => Idle case Failed(_) => Error
      ensures calls == old(calls) + [PresentPaymentSheet] + (if s.paymentPresent.Completed? then [EmailCall] else [])
      ensures notices == old(notices) +
        match s.paymentPresent
        case Completed => [InfoAlert(SuccessTitle, PremiumNowMessage), EmailNotice(s.emailSent)]
        case Canceled(_) => [ErrorAlert(CanceledTitle, CanceledMessage)]
        case Failed(m) => [ErrorAlert(ErrorTitle, if m != "" then m else PaymentDefaultMessage)]
      ensures infoMessage == old(infoMessage) && isLoading == old(isLoading) && clientSecret == old(clientSecret)
    {
      calls := calls + [PresentPaymentSheet];
      match s.paymentPresent {
        case Completed =>
          paymentStatus := Success;
          notices := notices + [InfoAlert(SuccessTitle, PremiumNowMessage)];
          SendConfirmationEmail(s.emailSent);
        case Canceled(_) =>
          paymentStatus := Idle;
          notices := notices + [ErrorAlert(CanceledTitle, CanceledMessage)];
        case Failed(m) =>
          paymentStatus := Error;
          notices := notices + [ErrorAlert(ErrorTitle, if m != "" then m else PaymentDefaultMessage)];
      }
    }

    /**
     * `handlePayment`, started from an enabled pay button. Without a payment system only an alert
     * is shown; otherwise the attempt runs to the end and isLoading is false again.
     */
    method HandlePayment(s: Script)
      requires !PayButtonDisabled()
      modifies this
      ensures !isLoading
      ensures !isAvailable ==> notices == old(notices) + [ErrorAlert(ErrorTitle, UnavailableMessage)]
      ensures !isAvailable ==> calls == old(calls) && paymentStatus == old(paymentStatus)
      ensures !isAvailable ==> clientSecret == old(clientSecret) && infoMessage == old(infoMessage)
      ensures isAvailable ==> paymentStatus == FinalStatus(s) && calls == old(calls) + PaymentCalls(s)
      ensures isAvailable ==> notices == old(notices) + AttemptNotices(s)
      ensures isAvailable ==> infoMessage == FinalInfo(s) && clientSecret == InitClientSecret(s, old(clientSecret))
    {
      if !isAvailable {
        notices := notices + [ErrorAlert(ErrorTitle, UnavailableMessage)];
        return;
      }
      isLoading := true;
      RunAttempt(s);
      isLoading := false;
    }

    /** The try block of handlePayment on an available payment system. */
    method RunAttempt(s: Script)
      modifies this
      ensures paymentStatus == FinalStatus(s) && calls == old(calls) + PaymentCalls(s)
      ensures notices == old(notices) + AttemptNotices(s)
      ensures infoMessage == FinalInfo(s) && clientSecret == InitClientSecret(s, old(clientSecret))
      ensures isLoading == old(isLoading)
    {
      paymentStatus := Processing;
      var init := InitializePaymentSheet(s);
      if init.InitFailed? {
        InitFailedAttempt(s);
        return;
      }
      FinishAttempt(s, init);
    }

    /** What handlePayment does once the sheet is ready, in either mode. */
    method FinishAttempt(s: Script, init: InitResult)
      requires init == InitOutcome(s) && init.Ready? && infoMessage == InitInfo(s)
      modifies this
      ensures paymentStatus == FinalStatus(s) && calls == old(calls) + LaterCalls(s)
      ensures notices == old(notices) + AttemptNotices(s) && infoMessage == FinalInfo(s)
      ensures clientSecret == old(clientSecret) && isLoading == old(isLoading)
    {
      if init.mode == PollMode {
        PollAttempt(s);
        FinishPoll(s);
      } else {
        PaymentAttempt(s);
        FinishPayment(s);
      }
    }
  }
}
