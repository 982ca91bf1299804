/**
 * helpers/search_service.ts: the listing search. It reads the stored token, builds the query
 * string from the truthy parameters in a fixed order, accepts any reply whose body has a
 * `services` array, and turns HTTP-client errors into user-facing messages.
 */
module SearchService {
  import opened Wrappers
  import opened JsText
  import opened Http

  /** The owner of a listing as the backend embeds it. */
  datatype ApiUser = ApiUser(id: string, name: Option<string>, profilePhoto: Option<string>)

  /** A listing as the backend returns it; absent fields are `None`. */
  datatype ApiService = ApiService(
    id: string,
    serviceName: string,
    address: Option<string>,
    category: string,
    description: string,
    photos: Option<seq<string>>,
    isFavorite: Option<bool>,
    favoritesCount: Option<int>,
    isPromoted: Option<bool>,
    user: Option<ApiUser>,
    userId: Option<ApiUser>)

  /** The search reply; `services` is `None` when the field is not an array. */
  datatype SearchReply = SearchReply(total: int, page: int, pages: int, services: Option<seq<ApiService>>)

  /** The optional fields of the `params` argument. */
  datatype SearchParams = SearchParams(query: Option<string>, page: Option<int>, limit: Option<int>)

  const NoTokenMessage := "No se encontró el token de autenticación"
  const FormatMessage := "La respuesta del servidor no tiene el formato esperado"
  const ConnectionMessage := "Error de conexión con el servidor"
  const ServerStatusPrefix := "Error del servidor: "
  const UnknownErrorMessage := "Error desconocido al buscar servicios"
  const SearchPathPrefix := "/service/search?"

  /** A number used as a condition: truthy iff present and not 0. */
  predicate TruthyNumber(n: Option<int>) {
    n.Some? && n.value != 0
  }

  /** The parameter names in the order they are appended. */
  function KeyRank(key: string): nat {
    if key == "query" then 0 else if key == "page" then 1 else 2
  }

  /** The (name, value) pairs the query string carries, one per truthy parameter, in source order. */
  function QueryPairs(params: Option<SearchParams>): seq<(string, string)>
  {
    match params
    case None => []
    case Some(p) =>
      (if TruthyOpt(p.query) then [("query", p.query.value)] else [])
      + (if TruthyNumber(p.page) then [("page", IntToString(p.page.value))] else [])
      + (if TruthyNumber(p.limit) then [("limit", IntToString(p.limit.value))] else [])
  }

  /** The `URLSearchParams` built by searchService: `append` for each truthy parameter in turn. */
  method BuildQueryParams(params: Option<SearchParams>) returns (pairs: seq<(string, string)>)
    ensures pairs == QueryPairs(params)
  {
    pairs := [];
    if params.Some? && TruthyOpt(params.value.query) {
      pairs := pairs + [("query", params.value.query.value)];
    }
    if params.Some? && TruthyNumber(params.value.page) {
      pairs := pairs + [("page", IntToString(params.value.page.value))];
    }
    if params.Some? && TruthyNumber(params.value.limit) {
      pairs := pairs + [("limit", IntToString(params.value.limit.value))];
    }
  }

  /**
   * Each parameter is sent exactly when it is truthy, with its value rendered as a string; the
   * names appear in the order query, page, limit, each at most once.
   */
  lemma QueryPairsSpec(params: Option<SearchParams>)
    ensures var pairs := QueryPairs(params);
      && |pairs| <= 3
      && (forall i, j :: 0 <= i < j < |pairs| ==> KeyRank(pairs[i].0) < KeyRank(pairs[j].0))
      && ((exists i :: 0 <= i < |pairs| && pairs[i].0 == "query") <==> params.Some? && TruthyOpt(params.value.query))
      && ((exists i :: 0 <= i < |pairs| && pairs[i].0 == "page") <==> params.Some? && TruthyNumber(params.value.page))
      && ((exists i :: 0 <= i < |pairs| && pairs[i].0 == "limit") <==> params.Some? && TruthyNumber(params.value.limit))
      && (forall i :: 0 <= i < |pairs| && pairs[i].0 == "query" ==> pairs[i].1 == params.value.query.value)
      && (forall i :: 0 <= i < |pairs| && pairs[i].0 == "page" ==> pairs[i].1 == IntToString(params.value.page.value))
      && (forall i :: 0 <= i < |pairs| && pairs[i].0 == "limit" ==> pairs[i].1 == IntToString(params.value.limit.value))
  {
    var pairs := QueryPairs(params);
    if params.Some? {
      var p := params.value;
      var q := if TruthyOpt(p.query) then [("query", p.query.value)] else [];
      var g := if TruthyNumber(p.page) then [("page", IntToString(p.page.value))] else [];
      var l := if TruthyNumber(p.limit) then [("limit", IntToString(p.limit.value))] else [];
      assert pairs == q + g + l;
      if TruthyOpt(p.query) { assert pairs[0].0 == "query"; }
      if TruthyNumber(p.page) { assert pairs[|q|].0 == "page"; }
      if TruthyNumber(p.limit) { assert pairs[|q| + |g|].0 == "limit"; }
    }
  }

  /** A character `URLSearchParams` writes as itself. */
  predicate IsUnreservedFormChar(c: char) {
    ('a' <= c <= 'z') || ('A' <= c <= 'Z') || ('0' <= c <= '9') || c == '*' || c == '-' || c == '.' || c == '_'
  }

  /** A character that can appear in an encoded name or value. */
  predicate IsFormOutputChar(c: char) {
    IsUnreservedFormChar(c) || c == '+' || c == '%'
  }

  function HexDigit(d: nat): (c: char)
    requires d < 16
    ensures IsUnreservedFormChar(c)
  {
    "0123456789ABCDEF"[d]
  }

  /** The UTF-8 encoding of one character. */
  function Utf8Bytes(c: char): (bytes: seq<nat>)
    ensures 1 <= |bytes| <= 4 && forall k :: 0 <= k < |bytes| ==> bytes[k] < 256
  {
    var v := c as int;
    if v < 0x80 then [v]
    else if v < 0x800 then [0xC0 + v / 0x40, 0x80 + v % 0x40]
    else if v < 0x1_0000 then [0xE0 + v / 0x1000, 0x80 + (v / 0x40) % 0x40, 0x80 + v % 0x40]
    else [0xF0 + v / 0x4_0000, 0x80 + (v / 0x1000) % 0x40, 0x80 + (v / 0x40) % 0x40, 0x80 + v % 0x40]
  }

  /** `%XX` with upper-case hex digits for each byte. */
  function PercentBytes(bytes: seq<nat>): (r: string)
    requires forall k :: 0 <= k < |bytes| ==> bytes[k] < 256
    ensures |r| == 3 * |bytes| && forall k :: 0 <= k < |r| ==> IsFormOutputChar(r[k])
  {
    if bytes == [] then ""
    else ['%', HexDigit(bytes[0] / 16), HexDigit(bytes[0] % 16)] + PercentBytes(bytes[1..])
  }

  /** How `URLSearchParams` writes one character: itself, `+` for a space, or percent-encoded UTF-8. */
  function EncodeFormChar(c: char): (r: string)
    ensures r != [] && forall k :: 0 <= k < |r| ==> IsFormOutputChar(r[k])
  {
    if IsUnreservedFormChar(c) then [c]
    else if c == ' ' then "+"
    else PercentBytes(Utf8Bytes(c))
  }

  /** The application/x-www-form-urlencoded form of a name or a value. */
  function FormEncode(s: string): (r: string)
    ensures forall k :: 0 <= k < |r| ==> IsFormOutputChar(r[k])
  {
    if s == [] then "" else EncodeFormChar(s[0]) + FormEncode(s[1..])
  }

  /** Names and values made of unreserved characters are written unchanged. */
  lemma {:induction false} FormEncodeUnreserved(s: string)
    requires forall k :: 0 <= k < |s| ==> IsUnreservedFormChar(s[k])
    ensures FormEncode(s) == s
  {
    if s != [] {
      FormEncodeUnreserved(s[1..]);
    }
  }

  /** `URLSearchParams.prototype.toString`: `name=value` pairs joined by `&`. */
  function SerializePairs(pairs: seq<(string, string)>): string
  {
    if pairs == [] then ""
    else
      var first := FormEncode(pairs[0].0) + "=" + FormEncode(pairs[0].1);
      if |pairs| == 1 then first else first + "&" + SerializePairs(pairs[1..])
  }

  /** The encoded names and values never contain the separators, so the query string splits back unambiguously. */
  lemma FormEncodeHasNoSeparators(s: string)
    ensures '&' !in FormEncode(s) && '=' !in FormEncode(s) && ' ' !in FormEncode(s)
  {
  }

  /** The URL searchService requests. */
  function SearchUrl(pairs: seq<(string, string)>): string
  {
    SearchPathPrefix + SerializePairs(pairs)
  }

  /** With no truthy parameter the URL ends in a bare `?`. */
  lemma SearchUrlWithoutParams(params: Option<SearchParams>)
    requires params.None? || (!TruthyOpt(params.value.query) && !TruthyNumber(params.value.page) && !TruthyNumber(params.value.limit))
    ensures SearchUrl(QueryPairs(params)) == "/service/search?"
  {
  }

  /** The message of a server error: the body's `error`, else its `message`, else the status. */
  function ServerMessage(resp: ErrorResponse): string
  {
    if resp.data.Some? && TruthyOpt(resp.data.value.error) then resp.data.value.error.value
    else if resp.data.Some? && TruthyOpt(resp.data.value.message) then resp.data.value.message.value
    else ServerStatusPrefix + IntToString(resp.status)
  }

  /** Without a usable body message the status can be read back from the message. */
  lemma ServerMessageKeepsStatus(resp: ErrorResponse)
    requires resp.status >= 0
    requires resp.data.None? || (!TruthyOpt(resp.data.value.error) && !TruthyOpt(resp.data.value.message))
    ensures var m := ServerMessage(resp);
      StartsWith(m, ServerStatusPrefix) && ParseDigits(m[|ServerStatusPrefix|..]) == resp.status
  {
    var m := ServerMessage(resp);
    assert m[|ServerStatusPrefix|..] == NatToString(resp.status);
    NatToStringRoundTrip(resp.status);
  }

  /** The catch block of searchService. */
  function MapSearchError(t: Thrown): (r: Thrown)
    ensures r.Error?
    ensures t.AxiosError? && t.response.None? ==> r.message == ConnectionMessage
    ensures t.AxiosError? && t.response.Some? ==> r.message == ServerMessage(t.response.value)
    ensures t.Error? ==> r == t
    ensures t.NonError? ==> r.message == UnknownErrorMessage
  {
    match t
    case AxiosError(_, None) => Error(ConnectionMessage)
    case AxiosError(_, Some(resp)) => Error(ServerMessage(resp))
    case Error(_) => t
    case NonError => Error(UnknownErrorMessage)
  }

  /**
   * searchService: `call` is how the GET settles. A request is sent only with a stored token; the
   * reply's body is returned exactly when it is present and its `services` is an array, whatever
   * the status; every failure reaches the caller as an `Error`.
   */
  method SearchServiceCall(token: Option<string>, params: Option<SearchParams>, call: Outcome<Reply<SearchReply>>)
    returns (r: Exchange<SearchReply>)
    ensures r.sent.Some? <==> TruthyOpt(token)
    ensures r.sent.Some? ==> r.sent.value == Request(Get, SearchUrl(QueryPairs(params)), [], token)
    ensures r.outcome.Ok? <==> (TruthyOpt(token) && call.Ok? && call.value.data.Some?
                                && call.value.data.value.services.Some?)
    ensures r.outcome.Ok? ==> r.outcome.value == call.value.data.value
    ensures r.outcome.Err? ==> r.outcome.thrown.Error?
    ensures !TruthyOpt(token) ==> r.outcome == Err(Error(NoTokenMessage))
    ensures TruthyOpt(token) && call.Ok? && !r.outcome.Ok? ==> r.outcome == Err(Error(FormatMessage))
    ensures TruthyOpt(token) && call.Err? ==> r.outcome == Err(MapSearchError(call.thrown))
  {
    if !TruthyOpt(token) {
      return Exchange(None, Err(MapSearchError(Error(NoTokenMessage))));
    }
    var pairs := BuildQueryParams(params);
    var sent := Some(Request(Get, SearchUrl(pairs), [], token));
    match call
    case Err(t) =>
      r := Exchange(sent, Err(MapSearchError(t)));
    case Ok(Reply(_, data)) =>
      if data.None? || data.value.services.None? {
        r := Exchange(sent, Err(MapSearchError(Error(FormatMessage))));
      } else {
        r := Exchange(sent, Ok(data.value));
      }
  }
}
