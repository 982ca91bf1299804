/**
 * What the request helpers exchange with the backend: the request they send, the reply the HTTP
 * client resolves with, the value a rejected promise carries, and the ordered keyword tables the
 * helpers use to turn raw error messages into user-facing ones.
 */
module Http {
  import opened Wrappers
  import opened JsText

  /** The body of an HTTP error response, as far as the client reads it. */
  datatype ErrorBody = ErrorBody(error: Option<string>, message: Option<string>)

  /** `error.response` of an HTTP-client error: the status and (possibly absent) body. */
  datatype ErrorResponse = ErrorResponse(status: int, data: Option<ErrorBody>)

  /** The value a promise rejects with. */
  datatype Thrown =
    | Error(message: string)                                        // an `Error` instance
    | AxiosError(message: string, response: Option<ErrorResponse>)  // an `Error` raised by the HTTP client
    | NonError                                                      // a thrown value that is not an `Error`

  /** `error instanceof Error` */
  predicate IsErrorInstance(t: Thrown) {
    !t.NonError?
  }

  /** `error.message || fallback`: a thrown value that is not an `Error` has no message. */
  function MessageOr(t: Thrown, fallback: string): string {
    if IsErrorInstance(t) && t.message != "" then t.message else fallback
  }

  /** A settled promise: resolved with a value or rejected with a thrown value. */
  datatype Outcome<+T> = Ok(value: T) | Err(thrown: Thrown)

  /** A resolved HTTP call: the status and the body, absent when the body is empty. */
  datatype Reply<+T> = Reply(status: int, data: Option<T>)

  datatype Verb = Get | Post

  /** A request as sent: verb, path (with any query string), JSON body fields and bearer token. */
  datatype Request = Request(verb: Verb, path: string, body: seq<(string, string)>, bearer: Option<string>)

  /** What one helper call does: the request it sends, if any, and how its promise settles. */
  datatype Exchange<+T> = Exchange(sent: Option<Request>, outcome: Outcome<T>)

  /** Ordered rules (keyword, replacement message) of an `if ... else if` chain over `message.includes`. */
  type KeywordTable = seq<(string, string)>

  /** The replacement chosen by the first rule whose keyword occurs in `m`, if any. */
  function FirstMatch(table: KeywordTable, m: string): Option<string>
  {
    if table == [] then None
    else if Includes(m, table[0].0) then Some(table[0].1)
    else FirstMatch(table[1..], m)
  }

  /** The first matching rule wins, whatever later rules would say. */
  lemma {:induction false} FirstMatchIsFirstRule(table: KeywordTable, m: string, k: nat)
    requires k < |table| && Includes(m, table[k].0)
    requires forall j :: 0 <= j < k ==> !Includes(m, table[j].0)
    ensures FirstMatch(table, m) == Some(table[k].1)
  {
    if k > 0 {
      FirstMatchIsFirstRule(table[1..], m, k - 1);
    }
  }

  /** No replacement is chosen exactly when no keyword occurs in `m`. */
  lemma {:induction false} FirstMatchNoneIff(table: KeywordTable, m: string)
    ensures FirstMatch(table, m) == None <==> forall j :: 0 <= j < |table| ==> !Includes(m, table[j].0)
  {
    if table != [] {
      FirstMatchNoneIff(table[1..], m);
      assert forall j :: 1 <= j < |table| ==> table[j] == table[1..][j - 1];
    }
  }

  /** A chosen replacement is the message of some rule of the table. */
  lemma {:induction false} FirstMatchFromTable(table: KeywordTable, m: string) returns (j: nat)
    requires FirstMatch(table, m).Some?
    ensures j < |table| && FirstMatch(table, m) == Some(table[j].1)
  {
    if Includes(m, table[0].0) {
      j := 0;
    } else {
      var k := FirstMatchFromTable(table[1..], m);
      j := k + 1;
    }
  }

  /** A message lacking a character that every keyword contains matches no rule. */
  lemma NoRuleMatches(table: KeywordTable, m: string, w: char)
    requires forall j :: 0 <= j < |table| ==> w in table[j].0
    requires w !in m
    ensures FirstMatch(table, m) == None
  {
    forall j | 0 <= j < |table|
      ensures !Includes(m, table[j].0)
    {
      var kw := table[j].0;
      var p :| 0 <= p < |kw| && kw[p] == w;
      MissingCharExcludes(m, kw, p);
    }
    FirstMatchNoneIff(table, m);
  }
}
