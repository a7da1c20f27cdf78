/** auth/meli/auth_status.py: the freshness supervisor, the latest-credential query, and
    the two token-endpoint requests with their shared class-level payloads. */
module AuthStatus {
  import opened Common
  import opened TimeUtil
  import opened ConnectionModel
  import opened DataBase
  import opened HttpRequest
  import opened AuthConfig

  /** `MeliAuthStatus.THRESHOLD`, in hours. */
  const Threshold: int := 6

  const TokenUrl: string := "https://api.mercadolibre.com/oauth/token"

  const TokenHeaders: map<string, string> :=
    map["accept" := "application/json", "content-type" := "application/x-www-form-urlencoded"]

  /** The dictionary `credential` builds from the latest row. */
  datatype CredentialDict = CredentialDict(date: Option<int>, accessToken: Field, refreshToken: Field)

  /** `supervise(db)`, over the store's rows: True when the latest credential is at most THRESHOLD hours old at
      `now`, None when it is older; it never answers False. A store failure is re-raised as
      DataBaseError; an empty store (`.date` of None) or a row without a date (subtracting
      None) raises AuthenticationError. */
  function Supervise(rows: seq<Row>, now: int, fault: bool): (r: Result<Option<bool>>)
    ensures fault ==> r == Err(DataBaseError)
    ensures !fault && rows == [] ==> r == Err(AuthenticationError)
    ensures r.Ok? <==> !fault && rows != [] && Latest(rows).value.date.Some?
    ensures r.Ok? ==> r.value == None || r.value == Some(true)
    ensures r.Ok? ==> (r.value == Some(true) <==> now - Latest(rows).value.date.value <= Hours(Threshold))
    ensures r.Err? ==> r.error == DataBaseError || r.error == AuthenticationError
  {
    match Last(rows, fault)
    case Err(_) => Err(DataBaseError)
    case Ok(None) => Err(AuthenticationError)
    case Ok(Some(row)) =>
      if row.date.None? then Err(AuthenticationError)
      else if !Exceeded(row.date.value, now, Hours(Threshold)) then Ok(Some(true))
      else Ok(None)
  }

  /** `credential(db)`, over the store's rows: None for an empty table, otherwise date and both tokens of the
      highest-id row, as stored. Store failures of either query are DataBaseError. */
  function Credential(rows: seq<Row>, faultGetAll: bool, faultLast: bool): (r: Result<Option<CredentialDict>>)
    ensures r.Ok? <==> !faultGetAll && (rows == [] || !faultLast)
    ensures r == Ok(None) <==> !faultGetAll && rows == []
    ensures r.Ok? && r.value.Some? ==>
      && rows != []
      && var row := Latest(rows).value;
         r.value.value == CredentialDict(row.date, row.accessToken, row.refreshToken)
    ensures r.Err? ==> r.error == DataBaseError
  {
    match GetAll(rows, faultGetAll)
    case Err(_) => Err(DataBaseError)
    case Ok(all) =>
      if |all| > 0 then
        match Last(rows, faultLast)
        case Err(_) => Err(DataBaseError)
        case Ok(last) => CredentialOf(last)
      else Ok(None)
  }

  /** The dictionary built from what `_last` returned; `.date` of None would raise. */
  function CredentialOf(last: Option<Row>): (r: Result<Option<CredentialDict>>)
    ensures last.None? ==> r == Err(AuthenticationError)
  {
    match last
    case None => Err(AuthenticationError)
    case Some(row) => Ok(Some(CredentialDict(row.date, row.accessToken, row.refreshToken)))
  }

  /** A JSON value assigned to a token column. */
  function FieldOf(v: JsonValue): Field
  {
    match v
    case JString(s) => Text(s)
    case JNull => Null
    case JOther => NonText
  }

  /** `req.json().get(name, "")`. */
  function TokenOf(fields: map<string, JsonValue>, name: string): (f: Field)
    ensures name !in fields ==> f == Text("")
    ensures name in fields && fields[name].JString? ==> f == Text(fields[name].s)
  {
    if name in fields then FieldOf(fields[name]) else Text("")
  }

  /** What `authenticate` makes of the endpoint's reply: the two tokens on status 200,
      a missing one defaulting to ""; None on any other status; AuthenticationError for a
      network fault or a body that is not a JSON object. */
  function ReplyTokens(reply: Reply): (r: Result<Option<(Field, Field)>>)
    ensures reply.NetworkFault? ==> r == Err(AuthenticationError)
    ensures reply.Response? && reply.status != 200 ==> r == Ok(None)
    ensures reply.Response? && reply.status == 200 && reply.body.JsonObject? ==>
              r == Ok(Some((TokenOf(reply.body.fields, "access_token"), TokenOf(reply.body.fields, "refresh_token"))))
    ensures reply.Response? && reply.status == 200 && !reply.body.JsonObject? ==> r == Err(AuthenticationError)
    ensures r.Ok? && r.value.Some? ==>
      && reply.Response? && reply.status == 200 && reply.body.JsonObject?
      && r.value.value == (TokenOf(reply.body.fields, "access_token"), TokenOf(reply.body.fields, "refresh_token"))
    ensures r.Err? ==> r.error == AuthenticationError
  {
    match reply
    case NetworkFault => Err(AuthenticationError)
    case Response(status, body) =>
      if !Validate(status) then Ok(None)
      else match body
        case JsonObject(fields) => Ok(Some((TokenOf(fields, "access_token"), TokenOf(fields, "refresh_token"))))
        case _ => Err(AuthenticationError)
  }

  /** A POST to the token endpoint: URL, headers and form fields. */
  datatype Post = Post(url: string, headers: map<string, string>, form: map<string, string>)

  /** An instance of ConnectionRequest or RefreshConnRequest. Neither holds a payload of
      its own: `self.data` is the class attribute. */
  datatype AuthRequest = ConnectionRequest | RefreshConnRequest

  /** The two request classes as they stand after import: `config` and `data` are class
      attributes computed once when auth_status.py is loaded. */
  class MeliAuthRequests {
    /** `ConnectionRequest.data`. */
    var connectionData: map<string, string>
    /** `RefreshConnRequest.data`, one dictionary shared by every instance. */
    var refreshData: map<string, string>

    /** Loading the module builds `ConnectionConfig()` and `RefreshConfig()`; both read
        the same four variables, so loading succeeds exactly when they are all set. */
    constructor (env: map<string, string>)
      requires LoadAuthConfig(env).Ok?
      ensures connectionData == GetData(ConnectionConfig, LoadAuthConfig(env).value).value
      ensures refreshData == GetData(RefreshConfig, LoadAuthConfig(env).value).value
    {
      var cfg := LoadAuthConfig(env).value;
      connectionData := GetData(ConnectionConfig, cfg).value;
      refreshData := GetData(RefreshConfig, cfg).value;
    }

    /** The form an instance posts: its class's `data` at the time of posting. */
    function Payload(req: AuthRequest): map<string, string>
      reads this
    {
      match req
      case ConnectionRequest => connectionData
      case RefreshConnRequest => refreshData
    }

    /** `RefreshConnRequest(refresh_token)`: writes the token into the shared class-level
        dictionary, so every instance, earlier ones included, now posts this token; the
        ConnectionRequest payload is a different dictionary and is untouched. */
    method NewRefreshConnRequest(refreshToken: string) returns (req: AuthRequest)
      modifies this
      ensures req == RefreshConnRequest
      ensures refreshData == old(refreshData)["refresh_token" := refreshToken]
      ensures connectionData == old(connectionData)
    {
      refreshData := refreshData["refresh_token" := refreshToken];
      req := RefreshConnRequest;
    }
  }

  /** Two refresh requests made one after the other both post the second token. */
  method SharedRefreshPayload(classes: MeliAuthRequests, first: string, second: string)
      returns (a: AuthRequest, b: AuthRequest)
    modifies classes
    ensures classes.Payload(a) == classes.Payload(b)
    ensures "refresh_token" in classes.Payload(a) && classes.Payload(a)["refresh_token"] == second
  {
    a := classes.NewRefreshConnRequest(first);
    b := classes.NewRefreshConnRequest(second);
  }

  /** `authenticate()`: one POST of the instance's payload to the token URL with the
      form-encoded headers; on status 200 a new unsaved Connection holding the reply's
      tokens, None on another status; network and JSON failures raise AuthenticationError. */
  method Authenticate(classes: MeliAuthRequests, req: AuthRequest, reply: Reply)
      returns (post: Post, r: Result<Connection?>)
    ensures post == Post(TokenUrl, TokenHeaders, classes.Payload(req))
    ensures var t := ReplyTokens(reply);
      && (t.Err? ==> r == Err(t.error))
      && (t == Ok(None) ==> r == Ok(null))
      && (t.Ok? && t.value.Some? ==>
            && r.Ok? && r.value != null && fresh(r.value)
            && r.value.id == None && r.value.date == None
            && r.value.accessToken == t.value.value.0 && r.value.refreshToken == t.value.value.1)
  {
    post := Post(TokenUrl, TokenHeaders, classes.Payload(req));
    var t := ReplyTokens(reply);
    if t.Err? {
      return post, Err(t.error);
    }
    if t.value.None? {
      return post, Ok(null);
    }
    var c := new Connection(t.value.value.0, t.value.value.1);
    r := Ok(c);
  }
}
