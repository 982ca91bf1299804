/**
 * helpers/auth.ts: the e-mail syntax check and the input guards of login and registration. The
 * e-mail pattern `^[^\s@]+@[^\s@]+\.[^\s@]+$` is given twice: as the regular expression's own
 * shape (EmailPattern) and as the scan the model computes (ValidateEmail), proved equivalent.
 */
module Auth {
  import opened Wrappers
  import opened JsText
  import opened Http

  /** A character of the class `[^\s@]`. */
  predicate IsAddressChar(c: char) {
    !IsSpace(c) && c != '@'
  }

  predicate AllAddressChars(s: string) {
    forall k :: 0 <= k < |s| ==> IsAddressChar(s[k])
  }

  /**
   * The regular expression read literally: `s` splits at an '@' (index `i`) and a later '.' (index
   * `j`) into three non-empty runs of `[^\s@]`.
   */
  ghost predicate EmailPattern(s: string) {
    exists i, j :: EmailSplit(s, i, j)
  }

  ghost predicate EmailSplit(s: string, i: int, j: int) {
    && 1 <= i && i + 2 <= j && j + 2 <= |s|
    && s[i] == '@' && s[j] == '.'
    && AllAddressChars(s[..i]) && AllAddressChars(s[i + 1..j]) && AllAddressChars(s[j + 1..])
  }

  /** The index of the first occurrence of `c` in `s`, if any. */
  function IndexOf(s: string, c: char): (r: Option<nat>)
    ensures r.Some? ==> r.value < |s| && s[r.value] == c && c !in s[..r.value]
    ensures r.None? ==> c !in s
  {
    if s == [] then None
    else if s[0] == c then Some(0)
    else match IndexOf(s[1..], c)
      case None => None
      case Some(k) => assert s[..k + 1] == [s[0]] + s[1..][..k]; Some(k + 1)
  }

  /**
   * validateEmail: split at the first '@'; the part before must be a non-empty run of `[^\s@]`, the
   * part after a run of `[^\s@]` with a '.' that is neither its first nor its last character.
   */
  predicate ValidateEmail(email: string) {
    match IndexOf(email, '@')
    case None => false
    case Some(i) =>
      var local, domain := email[..i], email[i + 1..];
      && local != []
      && AllAddressChars(local)
      && AllAddressChars(domain)
      && |domain| >= 3
      && '.' in domain[1..|domain| - 1]
  }

  /** The scan accepts exactly the strings the regular expression matches. */
  lemma ValidateEmailIffPattern(email: string)
    ensures ValidateEmail(email) <==> EmailPattern(email)
  {
    if ValidateEmail(email) {
      ValidatedEmailMatches(email);
    }
    if EmailPattern(email) {
      var i, j :| EmailSplit(email, i, j);
      MatchingEmailValidates(email, i, j);
    }
  }

  /** An address the scan accepts splits as the regular expression requires. */
  lemma ValidatedEmailMatches(email: string)
    requires ValidateEmail(email)
    ensures EmailPattern(email)
  {
    var i := IndexOf(email, '@').value;
    var domain := email[i + 1..];
    var d :| 0 <= d < |domain[1..|domain| - 1]| && domain[1..|domain| - 1][d] == '.';
    var j := i + 2 + d;
    assert email[i + 1..j] == domain[..d + 1];
    assert email[j + 1..] == domain[d + 2..];
    assert EmailSplit(email, i, j);
  }

  /** An address the regular expression matches passes the scan. */
  lemma MatchingEmailValidates(email: string, i: int, j: int)
    requires EmailSplit(email, i, j)
    ensures ValidateEmail(email)
  {
    assert email[..i][i - 1] == email[i - 1];
    assert '@' !in email[..i];
    assert IndexOf(email, '@') == Some(i);
    var domain := email[i + 1..];
    DomainChars(email, i, j);
    assert domain[1..|domain| - 1][j - i - 2] == '.';
  }

  /** Both runs after the '@' and the '.' between them are made of `[^\s@]`. */
  lemma DomainChars(email: string, i: int, j: int)
    requires EmailSplit(email, i, j)
    ensures AllAddressChars(email[i + 1..])
  {
    var domain := email[i + 1..];
    forall k | 0 <= k < |domain|
      ensures IsAddressChar(domain[k])
    {
      if k < j - i - 1 {
        assert domain[k] == email[i + 1..j][k];
      } else if k > j - i - 1 {
        assert domain[k] == email[j + 1..][k - (j - i)];
      }
    }
  }

  /** An e-mail address has exactly one '@', with something on both sides. */
  lemma ValidEmailHasOneAt(email: string)
    requires ValidateEmail(email)
    ensures multiset(email)['@'] == 1
  {
    var i := IndexOf(email, '@').value;
    assert email == email[..i] + [email[i]] + email[i + 1..];
    assert multiset(email[..i])['@'] == 0;
    assert multiset(email[i + 1..])['@'] == 0 by {
      assert '@' !in email[i + 1..];
    }
  }

  const MissingCredentialsMessage := "Email y contraseña son obligatorios"
  const InvalidEmailMessage := "Email inválido"
  const MissingFieldsMessage := "Todos los campos son obligatorios"
  const RegisterFailedMessage := "Error en el registro"
  const LoginPath := "/user/login"
  const RegisterPath := "/user/regist"

  /** The login reply: the session token and the user record, kept as its JSON text. */
  datatype LoginReply = LoginReply(token: string, user: string)

  /** What loginUser does: the request it sends, how it settles, and what it stores, in order. */
  datatype LoginRun = LoginRun(sent: Option<Request>, outcome: Outcome<LoginReply>, stored: seq<(string, string)>)

  /**
   * loginUser: `call` is how the POST to `/user/login` settles. Empty fields and a malformed
   * e-mail fail before anything is sent; a successful reply is returned as it is and its token and
   * user are stored under "token" and "user".
   */
  function LoginUser(email: string, password: string, call: Outcome<LoginReply>): (r: LoginRun)
    ensures r.sent.Some? <==> Truthy(email) && Truthy(password) && ValidateEmail(email)
    ensures r.sent.Some? ==> r.sent.value == Request(Post, LoginPath, [("email", email), ("password", password)], None)
    ensures !Truthy(email) || !Truthy(password) ==> r.outcome == Err(Error(MissingCredentialsMessage))
    ensures Truthy(email) && Truthy(password) && !ValidateEmail(email) ==> r.outcome == Err(Error(InvalidEmailMessage))
    ensures r.outcome.Ok? <==> r.sent.Some? && call.Ok?
    ensures r.outcome.Ok? ==> r.outcome == call && r.stored == [("token", call.value.token), ("user", call.value.user)]
    ensures !r.outcome.Ok? ==> r.stored == []
    ensures r.sent.Some? && call.Err? ==> r.outcome == call
  {
    if !Truthy(email) || !Truthy(password) then LoginRun(None, Err(Error(MissingCredentialsMessage)), [])
    else if !ValidateEmail(email) then LoginRun(None, Err(Error(InvalidEmailMessage)), [])
    else
      var sent := Some(Request(Post, LoginPath, [("email", email), ("password", password)], None));
      match call
      case Err(t) => LoginRun(sent, Err(t), [])
      case Ok(reply) => LoginRun(sent, Ok(reply), [("token", reply.token), ("user", reply.user)])
  }

  /** The registration reply: a success flag and an optional message. */
  datatype RegisterReply = RegisterReply(success: bool, message: Option<string>)

  /**
   * registerUser: `call` is how the POST to `/user/regist` settles. Empty fields and a malformed
   * e-mail fail before anything is sent; a reply without `success` fails with the server's message
   * or a default one.
   */
  function RegisterUser(name: string, email: string, password: string, call: Outcome<RegisterReply>): (r: Exchange<()>)
    ensures r.sent.Some? <==> Truthy(name) && Truthy(email) && Truthy(password) && ValidateEmail(email)
    ensures r.sent.Some? ==> r.sent.value == Request(Post, RegisterPath, [("name", name), ("email", email), ("password", password)], None)
    ensures !Truthy(name) || !Truthy(email) || !Truthy(password) ==> r.outcome == Err(Error(MissingFieldsMessage))
    ensures Truthy(name) && Truthy(email) && Truthy(password) && !ValidateEmail(email) ==> r.outcome == Err(Error(InvalidEmailMessage))
    ensures r.outcome.Ok? <==> r.sent.Some? && call.Ok? && call.value.success
    ensures r.sent.Some? && call.Ok? && !call.value.success ==>
      r.outcome == Err(Error(if TruthyOpt(call.value.message) then call.value.message.value else RegisterFailedMessage))
  {
    if !Truthy(name) || !Truthy(email) || !Truthy(password) then Exchange(None, Err(Error(MissingFieldsMessage)))
    else if !ValidateEmail(email) then Exchange(None, Err(Error(InvalidEmailMessage)))
    else
      var sent := Some(Request(Post, RegisterPath, [("name", name), ("email", email), ("password", password)], None));
      match call
      case Err(t) => Exchange(sent, Err(t))
      case Ok(reply) =>
        if reply.success then Exchange(sent, Ok(()))
        else Exchange(sent, Err(Error(if TruthyOpt(reply.message) then reply.message.value else RegisterFailedMessage)))
  }
}
