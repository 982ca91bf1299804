/**
 * helpers/recover_pwd.ts: the password-recovery request. It checks the e-mail with the same
 * pattern as login (the file repeats the regular expression of helpers/auth.ts), posts it, and
 * fails unless the reply reports `ok`.
 */
module RecoverPassword {
  import opened Wrappers
  import opened JsText
  import opened Http
  import Auth

  const MissingEmailMessage := "El email es obligatorio"
  const InvalidEmailMessage := "Email inválido"
  const DefaultFailureMessage := "No se pudo enviar el correo de recuperación"
  const RecoverPath := "/email/recover"

  /** The recovery reply: an `ok` flag and an optional message. */
  datatype RecoverReply = RecoverReply(ok: bool, msg: Option<string>)

  /**
   * recoverPassword: `call` is how the POST settles. An empty or malformed e-mail fails before
   * anything is sent; a reply without `ok` fails with its message or a default one; a reply with
   * `ok` yields its message (absent when the server sent none).
   */
  function RecoverPasswordCall(email: string, call: Outcome<RecoverReply>): (r: Exchange<Option<string>>)
    ensures r.sent.Some? <==> Truthy(email) && Auth.ValidateEmail(email)
    ensures r.sent.Some? ==> r.sent.value == Request(Post, RecoverPath, [("email", email)], None)
    ensures !Truthy(email) ==> r.outcome == Err(Error(MissingEmailMessage))
    ensures Truthy(email) && !Auth.ValidateEmail(email) ==> r.outcome == Err(Error(InvalidEmailMessage))
    ensures r.outcome.Ok? <==> r.sent.Some? && call.Ok? && call.value.ok
    ensures r.outcome.Ok? ==> r.outcome.value == call.value.msg
    ensures r.sent.Some? && call.Ok? && !call.value.ok ==>
      r.outcome == Err(Error(if TruthyOpt(call.value.msg) then call.value.msg.value else DefaultFailureMessage))
    ensures r.sent.Some? && call.Err? ==> r.outcome == Err(call.thrown)
  {
    if !Truthy(email) then Exchange(None, Err(Error(MissingEmailMessage)))
    else if !Auth.ValidateEmail(email) then Exchange(None, Err(Error(InvalidEmailMessage)))
    else
      var sent := Some(Request(Post, RecoverPath, [("email", email)], None));
      match call
      case Err(t) => Exchange(sent, Err(t))
      case Ok(reply) =>
        if reply.ok then Exchange(sent, Ok(reply.msg))
        else Exchange(sent, Err(Error(if TruthyOpt(reply.msg) then reply.msg.value else DefaultFailureMessage)))
  }
}
