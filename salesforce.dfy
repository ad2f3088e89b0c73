/**
 * The Salesforce REST client: the record types of a describe response, the
 * OAuth 2.0 resource-owner password grant (section 4.3 of RFC 6749) that
 * yields the bearer token, the authenticated request helper that sends it as
 * `Authorization: Bearer <token>` (section 2.1 of RFC 6750), and the describe
 * call. The network is the client's Transport; JSON decoding is a function
 * parameter that returns the record as far as it was filled and the decode
 * error, if any.
 */
module Salesforce {
  import opened Wrappers
  import opened Http
  import Fmt

  // ---------------------------------------------------------------------------
  // Records of a describe response

  /** One field of a described object: its `name`, `label` and `type`. */
  datatype DescriptionField = DescriptionField(name: string, labelText: string, typeName: string)

  /** A described object: its `name`, its `label`, and its fields in response order. */
  datatype Description = Description(name: string, labelText: string, fields: seq<DescriptionField>)

  /** The body of a token response: `access_token` and `token_type`. */
  datatype RespBody = RespBody(accessToken: string, tokenType: string)

  /** What json.Unmarshal leaves behind: the record as far as it was filled, and its error, if any. */
  datatype Decoded<T> = Decoded(value: T, failure: Option<string>)

  /** json.Unmarshal into a given record type, abstracted. */
  type Decoder<T> = string -> Decoded<T>

  // ---------------------------------------------------------------------------
  // Credentials and errors

  /** The credentials of the password grant and the bearer token they produced. */
  datatype AuthStruct = AuthStruct(
    authHost: string,
    clientID: string,
    clientSecret: string,
    grantType: string,
    username: string,
    password: string,
    bearerToken: string)

  /** The zero AuthStruct: what an unauthenticated client carries. */
  const NoAuth := AuthStruct("", "", "", "", "", "", "")

  /** The six credentials as they are stored before a token is obtained. */
  function Credentials(authHost: string, clientID: string, clientSecret: string,
                       grantType: string, username: string, password: string): AuthStruct
  {
    AuthStruct(authHost, clientID, clientSecret, grantType, username, password, "")
  }

  const StatusPrefix := "status: "
  const BodySeparator := ", body: "

  /** The errors the client returns. */
  datatype Error =
    | TransportError(reason: string)          // the request could not be made or sent
    | ReadError(reason: string)               // the response body could not be read
    | StatusError(status: nat, body: string)  // an authenticated call answered with a status other than 200
    | DecodeError(reason: string)             // the describe body did not decode
  {
    /** err.Error(): the text callers show. */
    function Message(): string {
      match this
      case TransportError(r) => r
      case ReadError(r) => r
      case StatusError(code, body) => StatusPrefix + Fmt.FormatNat(code) + BodySeparator + body
      case DecodeError(r) => r
    }
  }

  /** Reads a status code and a body back out of the text of a status error. */
  function ParseStatusMessage(m: string): Option<(nat, string)> {
    if |m| < |StatusPrefix| || m[..|StatusPrefix|] != StatusPrefix then None
    else
      var rest := m[|StatusPrefix|..];
      var k := Fmt.DigitRun(rest);
      if k == 0 || |rest| - k < |BodySeparator| || rest[k..k + |BodySeparator|] != BodySeparator then None
      else Some((Fmt.DecimalValue(rest[..k]), rest[k + |BodySeparator|..]))
  }

  /** The text of a status error carries the status code and the literal body, both recoverable. */
  lemma StatusMessageRoundTrip(code: nat, body: string)
    ensures ParseStatusMessage(StatusError(code, body).Message()) == Some((code, body))
  {
    var digits := Fmt.FormatNat(code);
    var m := StatusError(code, body).Message();
    assert m[..|StatusPrefix|] == StatusPrefix;
    var rest := m[|StatusPrefix|..];
    assert rest == digits + (BodySeparator + body);
    Fmt.DigitRunOfNumber(digits, BodySeparator + body);
    assert rest[..|digits|] == digits;
    assert rest[|digits|..|digits| + |BodySeparator|] == BodySeparator;
    assert rest[|digits| + |BodySeparator|..] == body;
    Fmt.DecimalValueOfFormat(code);
  }

  // ---------------------------------------------------------------------------
  // Token exchange

  /** The password-grant form: five fields, in the order they are written. */
  function TokenForm(auth: AuthStruct): seq<FormField> {
    [ FormField("client_id", auth.clientID),
      FormField("client_secret", auth.clientSecret),
      FormField("grant_type", auth.grantType),
      FormField("username", auth.username),
      FormField("password", auth.password) ]
  }

  /** The value of the first field with the given name, if the form has one. */
  function FormValue(form: seq<FormField>, name: string): (v: Option<string>)
    ensures v.None? <==> forall i :: 0 <= i < |form| ==> form[i].name != name
  {
    if form == [] then None
    else if form[0].name == name then Some(form[0].value)
    else FormValue(form[1..], name)
  }

  /** The names of a form's fields, in order. */
  function FieldNames(form: seq<FormField>): (names: seq<string>)
    ensures |names| == |form|
    ensures forall i :: 0 <= i < |form| ==> names[i] == form[i].name
  {
    if form == [] then [] else [form[0].name] + FieldNames(form[1..])
  }

  /** The token form names exactly the five grant parameters, in order, each once. */
  lemma TokenFormNames(auth: AuthStruct)
    ensures FieldNames(TokenForm(auth)) == ["client_id", "client_secret", "grant_type", "username", "password"]
    ensures forall i, j :: 0 <= i < j < |TokenForm(auth)| ==> TokenForm(auth)[i].name != TokenForm(auth)[j].name
  {
  }

  /**
   * Each field of the token form carries its credential verbatim; the auth
   * host and the bearer token are not sent as fields.
   */
  lemma TokenFormCarriesCredentials(auth: AuthStruct)
    ensures FormValue(TokenForm(auth), "client_id") == Some(auth.clientID)
    ensures FormValue(TokenForm(auth), "client_secret") == Some(auth.clientSecret)
    ensures FormValue(TokenForm(auth), "grant_type") == Some(auth.grantType)
    ensures FormValue(TokenForm(auth), "username") == Some(auth.username)
    ensures FormValue(TokenForm(auth), "password") == Some(auth.password)
    ensures FormValue(TokenForm(auth), "auth_host") == None
    ensures FormValue(TokenForm(auth), "bearer_token") == None
  {
    var form := TokenForm(auth);
    TokenFormNames(auth);
    FormValueOfUniqueName(form, 0);
    FormValueOfUniqueName(form, 1);
    FormValueOfUniqueName(form, 2);
    FormValueOfUniqueName(form, 3);
    FormValueOfUniqueName(form, 4);
  }

  /** When only one field has a given name, the form's value for that name is that field's value. */
  lemma {:induction false} FormValueOfUniqueName(form: seq<FormField>, k: nat)
    requires k < |form|
    requires forall i :: 0 <= i < |form| && i != k ==> form[i].name != form[k].name
    ensures FormValue(form, form[k].name) == Some(form[k].value)
  {
    if k > 0 {
      FormValueOfUniqueName(form[1..], k - 1);
    }
  }

  /** The token request: a POST of the form to the auth host, typed as multipart form data. */
  function TokenRequest(auth: AuthStruct, boundary: string): Message {
    Message("POST", auth.authHost, map["Content-Type" := FormDataContentType(boundary)],
            MultipartForm(TokenForm(auth)))
  }

  /**
   * The token rule: only a transport failure is an error. A response with any
   * status, a body cut short by a read error, or a body that failed to decode
   * all yield the decoded `access_token` (empty when it was not filled in).
   */
  function SelectToken(o: Outcome, decode: Decoder<RespBody>): (string, Option<Error>) {
    match o
    case TransportFailed(reason) => ("", Some(TransportError(reason)))
    case Received(_, body, _) => (decode(body).value.accessToken, None)
  }

  /** The token exchange as a whole: send the token request and apply the token rule. */
  function ExchangeToken(auth: AuthStruct, boundary: string, network: Transport,
                         decode: Decoder<RespBody>): (string, Option<Error>)
  {
    SelectToken(network(TokenRequest(auth, boundary)), decode)
  }

  /** A token exchange fails exactly when the transport fails, and then the token is empty. */
  lemma ExchangeFailsOnlyOnTransport(auth: AuthStruct, boundary: string, network: Transport,
                                     decode: Decoder<RespBody>)
    ensures (ExchangeToken(auth, boundary, network, decode).1.Some?
             <==> network(TokenRequest(auth, boundary)).TransportFailed?)
    ensures (ExchangeToken(auth, boundary, network, decode).1.Some?
             ==> ExchangeToken(auth, boundary, network, decode).0 == "")
  {
  }

  /**
   * Neither the status code, nor a read error, nor a decode error changes the
   * token: two responses with the same body give the same token and no error.
   */
  lemma TokenIgnoresStatusAndFailures(s1: nat, s2: nat, body: string, r1: Option<string>, r2: Option<string>,
                                      decode: Decoder<RespBody>)
    ensures SelectToken(Received(s1, body, r1), decode) == SelectToken(Received(s2, body, r2), decode)
    ensures SelectToken(Received(s1, body, r1), decode).1 == None
  {
  }

  /**
   * getBearerToken: write the five form fields, close the form, POST it to
   * the auth host and pick the token out of whatever came back.
   */
  method GetBearerToken(auth: AuthStruct, boundary: string, network: Transport, decode: Decoder<RespBody>)
    returns (token: string, err: Option<Error>)
    ensures (token, err) == ExchangeToken(auth, boundary, network, decode)
  {
    var writer := new FormWriter(boundary);
    writer.WriteField("client_id", auth.clientID);
    writer.WriteField("client_secret", auth.clientSecret);
    writer.WriteField("grant_type", auth.grantType);
    writer.WriteField("username", auth.username);
    writer.WriteField("password", auth.password);
    writer.Close();

    var req := new Request("POST", auth.authHost, MultipartForm(writer.fields));
    req.SetHeader("Content-Type", writer.ContentType());
    assert writer.fields == TokenForm(auth);
    assert req.Wire() == TokenRequest(auth, boundary);
    match network(req.Wire())
    case TransportFailed(reason) =>
      token, err := "", Some(TransportError(reason));
    case Received(_, body, _) =>
      // a read error, a non-200 status and a decode error are only logged
      var respBody := decode(body);
      token, err := respBody.value.accessToken, None;
  }

  // ---------------------------------------------------------------------------
  // Authenticated requests

  const AuthorizationKey := "Authorization"

  /** The Authorization header value for a token. */
  function BearerHeader(token: string): string {
    "Bearer " + token
  }

  /** The header names the Bearer scheme and then carries the token verbatim. */
  lemma BearerHeaderCarriesToken(token: string)
    ensures BearerHeader(token)[..7] == "Bearer "
    ensures BearerHeader(token)[7..] == token
  {
  }

  /**
   * The status rule of doRequest: a transport failure or a read failure is
   * returned as the error; otherwise a 200 response yields its body and any
   * other status yields a status error carrying the code and the body.
   */
  function Classify(o: Outcome): (Option<string>, Option<Error>) {
    match o
    case TransportFailed(reason) => (None, Some(TransportError(reason)))
    case Received(status, body, readFailure) =>
      if readFailure.Some? then (None, Some(ReadError(readFailure.value)))
      else if status != StatusOK then (None, Some(StatusError(status, body)))
      else (Some(body), None)
  }

  /**
   * doRequest returns exactly one of a body and an error; it returns the body,
   * unchanged, exactly when a complete response with status 200 arrived.
   */
  lemma ClassifyReturnsBodyOnlyOn200(o: Outcome)
    ensures Classify(o).0.Some? != Classify(o).1.Some?
    ensures Classify(o).0.Some? <==> o.Received? && o.readFailure.None? && o.status == StatusOK
    ensures Classify(o).0.Some? ==> Classify(o).0.value == o.body
  {
  }

  /** A complete response with any status other than 200 reports that status and the literal body. */
  lemma NonOkStatusIsReported(status: nat, body: string)
    requires status != StatusOK
    ensures Classify(Received(status, body, None)).1 == Some(StatusError(status, body))
    ensures ParseStatusMessage(Classify(Received(status, body, None)).1.value.Message()) == Some((status, body))
  {
    StatusMessageRoundTrip(status, body);
  }

  // ---------------------------------------------------------------------------
  // Describe

  const DataPath := "/services/data/"
  const ObjectsPath := "/sobjects/"
  const DescribeSuffix := "/describe"

  /** The describe endpoint of an object, by plain concatenation: the object name is not checked or escaped. */
  function DescribeUrl(hostURL: string, apiVersion: string, sfObject: string): string {
    hostURL + DataPath + apiVersion + ObjectsPath + sfObject + DescribeSuffix
  }

  /**
   * The URL starts with the host, ends with "/describe", and the object name
   * sits verbatim between the fixed parts, so it can be read back and two
   * object names never share a URL.
   */
  lemma DescribeUrlEmbedsObject(hostURL: string, apiVersion: string, sfObject: string, other: string)
    ensures var url := DescribeUrl(hostURL, apiVersion, sfObject);
      && url[..|hostURL|] == hostURL
      && url[|url| - |DescribeSuffix|..] == DescribeSuffix
      && url[|hostURL| + |DataPath| + |apiVersion| + |ObjectsPath| .. |url| - |DescribeSuffix|] == sfObject
    ensures DescribeUrl(hostURL, apiVersion, sfObject) == DescribeUrl(hostURL, apiVersion, other) ==> sfObject == other
  {
    var prefix := hostURL + DataPath + apiVersion + ObjectsPath;
    var url := DescribeUrl(hostURL, apiVersion, sfObject);
    assert url == prefix + sfObject + DescribeSuffix;
    assert url[|prefix|..|url| - |DescribeSuffix|] == sfObject;
    var url' := DescribeUrl(hostURL, apiVersion, other);
    assert url' == prefix + other + DescribeSuffix;
    assert url'[|prefix|..|url'| - |DescribeSuffix|] == other;
  }

  /** The describe request: a GET of the describe URL, with no body and the bearer header. */
  function DescribeRequest(hostURL: string, apiVersion: string, token: string, sfObject: string): Message {
    Message("GET", DescribeUrl(hostURL, apiVersion, sfObject), map[AuthorizationKey := BearerHeader(token)], NoBody)
  }

  /**
   * The describe pipeline once the response is in: a request error is
   * returned as it is, a body that does not decode gives the decode error,
   * and otherwise the decoded description is returned.
   */
  function FetchDescription(o: Outcome, decode: Decoder<Description>): (Option<Description>, Option<Error>) {
    match Classify(o)
    case (Some(body), _) =>
      var decoded := decode(body);
      if decoded.failure.Some? then (None, Some(DecodeError(decoded.failure.value)))
      else (Some(decoded.value), None)
    case (None, err) => (None, err)
  }

  /** GetDescription as a whole: send the describe request and run the pipeline on the outcome. */
  function Describe(hostURL: string, apiVersion: string, token: string, sfObject: string,
                    network: Transport, decode: Decoder<Description>): (Option<Description>, Option<Error>)
  {
    FetchDescription(network(DescribeRequest(hostURL, apiVersion, token, sfObject)), decode)
  }

  /** On every path exactly one of the description and the error is present. */
  lemma FetchReturnsExactlyOne(o: Outcome, decode: Decoder<Description>)
    ensures FetchDescription(o, decode).0.Some? != FetchDescription(o, decode).1.Some?
  {
    ClassifyReturnsBodyOnlyOn200(o);
  }

  /**
   * A failed request is returned as it is, and the decoder is not consulted:
   * the result is the same whatever the decoder would have said.
   */
  lemma FetchPropagatesRequestError(o: Outcome, decode: Decoder<Description>, otherDecode: Decoder<Description>)
    requires Classify(o).1.Some?
    ensures FetchDescription(o, decode) == (None, Classify(o).1)
    ensures FetchDescription(o, decode) == FetchDescription(o, otherDecode)
  {
    ClassifyReturnsBodyOnlyOn200(o);
  }

  /**
   * After a 200 response, a decode failure is returned as a decode error, and
   * a clean decode is returned with its name, label and fields in order.
   */
  lemma FetchReturnsDecodedDescription(body: string, decode: Decoder<Description>)
    ensures decode(body).failure.Some? ==>
      FetchDescription(Received(StatusOK, body, None), decode) == (None, Some(DecodeError(decode(body).failure.value)))
    ensures decode(body).failure.None? ==>
      var d := FetchDescription(Received(StatusOK, body, None), decode).0;
      d.Some? && d.value.name == decode(body).value.name && d.value.labelText == decode(body).value.labelText
      && d.value.fields == decode(body).value.fields
  {
  }

  /**
   * Every describe request of a session carries that session's token: the
   * token a password grant produced is what the next describe call sends.
   */
  lemma DescribeSendsExchangedToken(auth: AuthStruct, boundary: string, network: Transport,
                                    decodeToken: Decoder<RespBody>, hostURL: string, apiVersion: string,
                                    sfObject: string, accessToken: string)
    requires network(TokenRequest(auth, boundary)).Received?
    requires decodeToken(network(TokenRequest(auth, boundary)).body).value.accessToken == accessToken
    ensures ExchangeToken(auth, boundary, network, decodeToken) == (accessToken, None)
    ensures var token := ExchangeToken(auth, boundary, network, decodeToken).0;
      DescribeRequest(hostURL, apiVersion, token, sfObject).header[AuthorizationKey] == "Bearer " + accessToken
  {
  }

  // ---------------------------------------------------------------------------
  // The client

  /**
   * A client: the API host and version, the HTTP client that reaches them,
   * and the credentials with the bearer token obtained at construction.
   */
  class Client {
    var hostURL: string
    var apiVersion: string
    var httpClient: Transport
    var auth: AuthStruct

    /** The client literal: host, version and HTTP client set, zero credentials. */
    constructor (hostURL: string, apiVersion: string, httpClient: Transport)
      ensures this.hostURL == hostURL && this.apiVersion == apiVersion && this.httpClient == httpClient
      ensures auth == NoAuth
    {
      this.hostURL := hostURL;
      this.apiVersion := apiVersion;
      this.httpClient := httpClient;
      auth := NoAuth;
    }

    /**
     * doRequest: set the bearer header on the request (keeping its other
     * headers), send it, and classify the outcome.
     */
    method DoRequest(req: Request) returns (body: Option<string>, err: Option<Error>)
      modifies req
      ensures req.header == old(req.header)[AuthorizationKey := BearerHeader(auth.bearerToken)]
      ensures (body, err) == Classify(httpClient(req.Wire()))
    {
      req.SetHeader(AuthorizationKey, BearerHeader(auth.bearerToken));
      match httpClient(req.Wire())
      case TransportFailed(reason) =>
        return None, Some(TransportError(reason));
      case Received(status, data, readFailure) =>
        if readFailure.Some? {
          return None, Some(ReadError(readFailure.value));
        }
        if status != StatusOK {
          return None, Some(StatusError(status, data));
        }
        return Some(data), None;
    }

    /**
     * GetDescription: GET the describe URL of sfObject with this client's
     * token, then decode the body; exactly one of the results is present.
     */
    method GetDescription(sfObject: string, decode: Decoder<Description>)
      returns (description: Option<Description>, err: Option<Error>)
      ensures (description, err) == Describe(hostURL, apiVersion, auth.bearerToken, sfObject, httpClient, decode)
      ensures description.Some? != err.Some?
    {
      var req := new Request("GET", DescribeUrl(hostURL, apiVersion, sfObject), NoBody);
      var body, requestErr := DoRequest(req);
      assert req.Wire() == DescribeRequest(hostURL, apiVersion, auth.bearerToken, sfObject);
      FetchReturnsExactlyOne(httpClient(req.Wire()), decode);
      if requestErr.Some? {
        return None, requestErr;
      }
      var decoded := decode(body.value);
      if decoded.failure.Some? {
        return None, Some(DecodeError(decoded.failure.value));
      }
      return Some(decoded.value), None;
    }
  }

  /** NewClient skips the token exchange when any of the six credentials is missing. */
  predicate CredentialMissing(authHost: Option<string>, clientID: Option<string>, clientSecret: Option<string>,
                              grantType: Option<string>, username: Option<string>, password: Option<string>)
  {
    authHost.None? || clientID.None? || clientSecret.None? || grantType.None? || username.None? || password.None?
  }

  /**
   * NewClient: a client for the API host and version. With any credential
   * missing it is returned unauthenticated, with no exchange; otherwise it
   * stores the credentials and the exchanged token, or, when the exchange
   * fails, no client is returned and the exchange's error is.
   * The host and version pointers are dereferenced unconditionally.
   */
  method NewClient(apiHost: Option<string>, apiVersion: Option<string>, authHost: Option<string>,
                   clientID: Option<string>, clientSecret: Option<string>, grantType: Option<string>,
                   username: Option<string>, password: Option<string>,
                   boundary: string, network: Transport, decodeToken: Decoder<RespBody>)
    returns (c: Client?, err: Option<Error>)
    requires apiHost.Some? && apiVersion.Some?
    ensures c != null ==>
      fresh(c) && err.None? && c.hostURL == apiHost.value && c.apiVersion == apiVersion.value && c.httpClient == network
    ensures CredentialMissing(authHost, clientID, clientSecret, grantType, username, password)
      ==> c != null && c.auth == NoAuth
    ensures !CredentialMissing(authHost, clientID, clientSecret, grantType, username, password) ==>
      var auth := Credentials(authHost.value, clientID.value, clientSecret.value,
                              grantType.value, username.value, password.value);
      var exchange := ExchangeToken(auth, boundary, network, decodeToken);
      if exchange.1.Some? then c == null && err == exchange.1
      else c != null && c.auth == auth.(bearerToken := exchange.0)
  {
    c := new Client(apiHost.value, apiVersion.value, network);
    if CredentialMissing(authHost, clientID, clientSecret, grantType, username, password) {
      return c, None;
    }
    c.auth := Credentials(authHost.value, clientID.value, clientSecret.value,
                          grantType.value, username.value, password.value);
    var token, exchangeErr := GetBearerToken(c.auth, boundary, network, decodeToken);
    c.auth := c.auth.(bearerToken := token);
    if exchangeErr.Some? {
      return null, exchangeErr;
    }
    return c, None;
  }
}
