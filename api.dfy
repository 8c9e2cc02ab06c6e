/** The client's API module: the session kept in the browser's key-value
    storage (the token and a JSON copy of the user under two fixed keys),
    the request wrapper that adds the bearer header and turns a failed status
    into an error message, and the wrappers that store what login, register
    and profile update return. `fetch`, `JSON.stringify` and `JSON.parse` are
    outside the model: the reply of the server is a parameter and the JSON
    codec is a pair of functions the client object is built with. */
module Api {
  import opened Common

  const TokenKey := "taskflux_token"
  const UserKey := "taskflux_user"
  const DefaultBaseUrl := "http://localhost:5000/api"

  /** `JSON.stringify` and `JSON.parse`; `parse` answers None where it throws. */
  datatype JsonCodec = JsonCodec(stringify: Json -> string, parse: string -> Option<Json>)

  /** What the real codec guarantees and the lemmas below rely on: parsing
      what was stringified gives the value back, and no value stringifies to
      the empty string. */
  ghost predicate Faithful(c: JsonCodec) {
    forall v :: c.parse(c.stringify(v)) == Some(v) && c.stringify(v) != ""
  }

  /** What `fetch` hands back: a rejection (no response), or a status with a
      body that `res.json()` parsed (None where parsing threw). */
  datatype FetchReply = NetworkFailure(message: string) | HttpReply(status: int, body: Option<Json>)

  /** What the awaited `request` gives its caller: the data, or a thrown
      `Error` with its message. */
  datatype Outcome = Returned(data: Json) | Threw(message: string)

  /** The request handed to `fetch`. */
  datatype HttpRequest = HttpRequest(url: string, verb: string, headers: map<string, string>, body: Option<string>)

  /** `localStorage.getItem(TOKEN_KEY) || ""`. */
  function TokenIn(m: map<string, string>): (t: string)
    ensures TokenKey !in m ==> t == ""
    ensures TokenKey in m ==> t == m[TokenKey]
  {
    if TokenKey in m then m[TokenKey] else ""
  }

  /** `getUser`: the parsed stored user; null when nothing (or the empty
      string) is stored and when the stored text does not parse. */
  function UserIn(c: JsonCodec, m: map<string, string>): (u: Json)
    ensures (UserKey !in m || m[UserKey] == "") ==> u == JNull
    ensures UserKey in m && m[UserKey] != "" && c.parse(m[UserKey]).None? ==> u == JNull
  {
    if UserKey !in m || m[UserKey] == "" then JNull
    else match c.parse(m[UserKey])
      case None => JNull
      case Some(v) => v
  }

  /** A response status that `res.ok` accepts: the 2xx statuses. */
  predicate IsOk(status: int)
    ensures IsOk(status) <==> status / 100 == 2
  {
    200 <= status <= 299
  }

  /** The message thrown for a failed status:
      `data?.message || data?.error || "Request failed (<status>)"`,
      made a string as `new Error` does. */
  function FailureMessage(status: int, data: Json): (msg: string)
    ensures TruthyOpt(Prop(data, "message")) ==> msg == JsString(data.fields["message"])
    ensures !TruthyOpt(Prop(data, "message")) && TruthyOpt(Prop(data, "error")) ==>
      msg == JsString(data.fields["error"])
    ensures !TruthyOpt(Prop(data, "message")) && !TruthyOpt(Prop(data, "error")) ==>
      msg == "Request failed (" + IntToString(status) + ")"
  {
    var message := Prop(data, "message");
    var error := Prop(data, "error");
    if TruthyOpt(message) then JsString(message.value)
    else if TruthyOpt(error) then JsString(error.value)
    else "Request failed (" + IntToString(status) + ")"
  }

  /** How `request` settles once `fetch` has answered. */
  function Settle(reply: FetchReply): (r: Outcome)
    ensures reply.NetworkFailure? ==> r == Threw(reply.message)
    ensures reply.HttpReply? ==> (r.Returned? <==> IsOk(reply.status))
    ensures reply.HttpReply? && IsOk(reply.status) ==>
      r.data == (if reply.body.Some? then reply.body.value else JNull)
    ensures reply.HttpReply? && !IsOk(reply.status) ==>
      r == Threw(FailureMessage(reply.status, if reply.body.Some? then reply.body.value else JNull))
  {
    match reply
    case NetworkFailure(m) => Threw(m)
    case HttpReply(status, body) =>
      var data := if body.Some? then body.value else JNull;
      if IsOk(status) then Returned(data) else Threw(FailureMessage(status, data))
  }

  /** A 401 reply whose body carries a message fails with exactly that message. */
  lemma UnauthorizedMessage()
    ensures Settle(HttpReply(401, Some(JObj(map["message" := JStr("invalid token")]))))
         == Threw("invalid token")
  {
  }

  /** A failed status whose body has neither key falls back to the status text. */
  lemma {:induction false} FallbackMessage(status: int, data: Json)
    requires !IsOk(status) && 0 <= status
    requires data.JObj? ==> "message" !in data.fields && "error" !in data.fields
    ensures Settle(HttpReply(status, Some(data))) == Threw("Request failed (" + NatToString(status) + ")")
  {
    assert Prop(data, "message").None?;
    assert Prop(data, "error").None?;
  }

  /** `apiListTasks`' path: `/tasks`, followed by `?` and the query string
      when that is not empty. */
  function ListPath(qs: string): (p: string)
    ensures |p| >= 6 && p[..6] == "/tasks"
    ensures qs == "" <==> p == "/tasks"
    ensures qs != "" ==> p[6..] == "?" + qs
  {
    "/tasks" + (if qs != "" then "?" + qs else "")
  }

  /** `data?.tasks || []`. */
  function ListResult(data: Json): (r: Json)
    ensures TruthyOpt(Prop(data, "tasks")) ==> r == data.fields["tasks"]
    ensures !TruthyOpt(Prop(data, "tasks")) ==> r == JArr([])
  {
    var tasks := Prop(data, "tasks");
    if TruthyOpt(tasks) then tasks.value else JArr([])
  }

  /** The storage after `setToken(data?.access_token)` and `setUser(data?.user)`,
      as login and register do; a value that is missing or falsy is not stored. */
  function StoreAuth(c: JsonCodec, m: map<string, string>, data: Json): (r: map<string, string>)
    ensures TokenKey in r <==> TokenKey in m || TruthyOpt(Prop(data, "access_token"))
    ensures TruthyOpt(Prop(data, "access_token")) ==> r[TokenKey] == JsString(data.fields["access_token"])
    ensures !TruthyOpt(Prop(data, "access_token")) && TokenKey in m ==> r[TokenKey] == m[TokenKey]
    ensures UserKey in r <==> UserKey in m || TruthyOpt(Prop(data, "user"))
    ensures TruthyOpt(Prop(data, "user")) ==> r[UserKey] == c.stringify(data.fields["user"])
    ensures !TruthyOpt(Prop(data, "user")) && UserKey in m ==> r[UserKey] == m[UserKey]
    ensures forall k :: k != TokenKey && k != UserKey ==> (k in r <==> k in m)
    ensures forall k :: k in m && k != TokenKey && k != UserKey ==> r[k] == m[k]
  {
    var token := Prop(data, "access_token");
    var user := Prop(data, "user");
    var m1 := if TruthyOpt(token) then m[TokenKey := JsString(token.value)] else m;
    if TruthyOpt(user) then m1[UserKey := c.stringify(user.value)] else m1
  }

  /** After a login reply with a token string and a user object, the session
      reads back exactly that token and that user. */
  lemma {:induction false} LoginRoundTrip(c: JsonCodec, m: map<string, string>, token: string, user: map<string, Json>)
    requires Faithful(c) && token != ""
    ensures TokenIn(StoreAuth(c, m, JObj(map["access_token" := JStr(token), "user" := JObj(user)]))) == token
    ensures UserIn(c, StoreAuth(c, m, JObj(map["access_token" := JStr(token), "user" := JObj(user)]))) == JObj(user)
  {
    var data := JObj(map["access_token" := JStr(token), "user" := JObj(user)]);
    var r := StoreAuth(c, m, data);
    assert Prop(data, "user") == Some(JObj(user));
    assert r[UserKey] == c.stringify(JObj(user));
    assert c.parse(c.stringify(JObj(user))) == Some(JObj(user)) && c.stringify(JObj(user)) != "";
  }

  /** The client of the API: the browser's key-value storage it keeps the
      session in, the JSON codec and the base URL it was built with. */
  class ApiClient {
    var storage: map<string, string>
    const json: JsonCodec
    const baseUrl: string

    /** `BASE_URL`: the configured URL, or the local default when the
        environment gives none. */
    constructor (json: JsonCodec, envUrl: string, storage: map<string, string>)
      ensures this.json == json && this.storage == storage
      ensures baseUrl == if envUrl != "" then envUrl else DefaultBaseUrl
    {
      this.json := json;
      this.storage := storage;
      baseUrl := if envUrl != "" then envUrl else DefaultBaseUrl;
    }

    function GetToken(): (t: string)
      reads this
      ensures t == TokenIn(storage)
    {
      TokenIn(storage)
    }

    function GetUser(): (u: Json)
      reads this
      ensures u == UserIn(json, storage)
    {
      UserIn(json, storage)
    }

    /** `localStorage.setItem`. */
    method SetItem(key: string, value: string)
      modifies this
      ensures storage == old(storage)[key := value]
    {
      storage := storage[key := value];
    }

    /** `setToken`: a falsy token (the empty string, null) leaves the
        storage as it was; any other value is stored as its string. */
    method SetToken(token: Json)
      modifies this
      ensures !Truthy(token) ==> storage == old(storage)
      ensures Truthy(token) ==> storage == old(storage)[TokenKey := JsString(token)]
      ensures token.JStr? && token.s != "" ==> GetToken() == token.s
    {
      if Truthy(token) {
        SetItem(TokenKey, JsString(token));
      }
    }

    /** `setUser`: a falsy user leaves the storage as it was; otherwise its
        JSON text is stored and, with a faithful codec, read back. */
    method SetUser(user: Json)
      modifies this
      ensures !Truthy(user) ==> storage == old(storage)
      ensures Truthy(user) ==> storage == old(storage)[UserKey := json.stringify(user)]
      ensures Truthy(user) && Faithful(json) ==> GetUser() == user
    {
      if Truthy(user) {
        SetItem(UserKey, json.stringify(user));
        assert json.parse(json.stringify(user)) == Some(user) && json.stringify(user) != "" ==> GetUser() == user;
      }
    }

    /** `clearToken`: removes both the token and the user. */
    method ClearToken()
      modifies this
      ensures storage == old(storage) - {TokenKey, UserKey}
      ensures GetToken() == "" && GetUser() == JNull
    {
      storage := storage - {TokenKey};
      storage := storage - {UserKey};
    }

    /** The header object of `request`: JSON content type, overridden by
        the caller's headers, and a bearer token when the call is
        authenticated and a token is stored, overriding the caller's. */
    method BuildHeaders(auth: bool, headers: map<string, string>) returns (h: map<string, string>)
      ensures "Content-Type" in h
      ensures h["Content-Type"] ==
        if "Content-Type" in headers then headers["Content-Type"] else "application/json"
      ensures auth && GetToken() != "" ==>
        "Authorization" in h && h["Authorization"] == "Bearer " + GetToken()
      ensures !(auth && GetToken() != "") ==>
        ("Authorization" in h <==> "Authorization" in headers)
        && ("Authorization" in headers ==> h["Authorization"] == headers["Authorization"])
      ensures forall k :: k != "Content-Type" && k != "Authorization" ==> (k in h <==> k in headers)
      ensures forall k :: k in headers && k != "Content-Type" && k != "Authorization" ==> h[k] == headers[k]
    {
      h := map["Content-Type" := "application/json"] + headers;
      if auth {
        var t := GetToken();
        if t != "" {
          h := h["Authorization" := "Bearer " + t];
        }
      }
    }

    /** `request`: the request handed to `fetch` and how the call settles
        given `fetch`'s reply. */
    method Request(path: string, verb: string, body: Option<Json>, auth: bool,
                   headers: map<string, string>, reply: FetchReply)
      returns (sent: HttpRequest, out: Outcome)
      ensures sent.url == baseUrl + path && sent.verb == verb
      ensures "Content-Type" in sent.headers
      ensures sent.headers["Content-Type"] ==
        if "Content-Type" in headers then headers["Content-Type"] else "application/json"
      ensures auth && GetToken() != "" ==>
        "Authorization" in sent.headers && sent.headers["Authorization"] == "Bearer " + GetToken()
      ensures !(auth && GetToken() != "") ==>
        ("Authorization" in sent.headers <==> "Authorization" in headers)
        && ("Authorization" in headers ==> sent.headers["Authorization"] == headers["Authorization"])
      ensures forall k :: k != "Content-Type" && k != "Authorization" ==> (k in sent.headers <==> k in headers)
      ensures forall k :: k in headers && k != "Content-Type" && k != "Authorization" ==> sent.headers[k] == headers[k]
      ensures sent.body == if TruthyOpt(body) then Some(json.stringify(body.value)) else None
      ensures out == Settle(reply)
    {
      var h := BuildHeaders(auth, headers);
      sent := HttpRequest(baseUrl + path, verb, h,
                          if TruthyOpt(body) then Some(json.stringify(body.value)) else None);
      out := Settle(reply);
    }

    /** `apiLogin` and `apiRegister` once the request has settled: on success
        the token and the user are stored if the reply carries them. */
    method StoreAuthReply(out: Outcome)
      modifies this
      ensures out.Threw? ==> storage == old(storage)
      ensures out.Returned? ==> storage == StoreAuth(json, old(storage), out.data)
    {
      if out.Returned? {
        var token := Prop(out.data, "access_token");
        if TruthyOpt(token) {
          SetToken(token.value);
        }
        var user := Prop(out.data, "user");
        if user.Some? {
          SetUser(user.value);
        }
      }
    }

    /** `apiLogin`: POST `/auth/login` without the bearer header. */
    method ApiLogin(email: string, password: string, reply: FetchReply) returns (sent: HttpRequest, out: Outcome)
      modifies this
      ensures sent.url == baseUrl + "/auth/login" && sent.verb == "POST"
      ensures sent.headers == map["Content-Type" := "application/json"]
      ensures sent.body == Some(json.stringify(JObj(map["email" := JStr(email), "password" := JStr(password)])))
      ensures out == Settle(reply)
      ensures out.Threw? ==> storage == old(storage)
      ensures out.Returned? ==> storage == StoreAuth(json, old(storage), out.data)
    {
      var body := JObj(map["email" := JStr(email), "password" := JStr(password)]);
      sent, out := Request("/auth/login", "POST", Some(body), false, map[], reply);
      StoreAuthReply(out);
    }

    /** `apiRegister`: POST `/auth/register` without the bearer header. */
    method ApiRegister(name: string, email: string, password: string, reply: FetchReply)
      returns (sent: HttpRequest, out: Outcome)
      modifies this
      ensures sent.url == baseUrl + "/auth/register" && sent.verb == "POST"
      ensures sent.headers == map["Content-Type" := "application/json"]
      ensures sent.body == Some(json.stringify(JObj(map["name" := JStr(name), "email" := JStr(email),
                                                        "password" := JStr(password)])))
      ensures out == Settle(reply)
      ensures out.Threw? ==> storage == old(storage)
      ensures out.Returned? ==> storage == StoreAuth(json, old(storage), out.data)
    {
      var body := JObj(map["name" := JStr(name), "email" := JStr(email), "password" := JStr(password)]);
      sent, out := Request("/auth/register", "POST", Some(body), false, map[], reply);
      StoreAuthReply(out);
    }

    /** `apiUpdateProfile`: PUT `/auth/profile` with the bearer header; the
        returned user replaces the stored one and is what the call yields. */
    method ApiUpdateProfile(name: string, email: string, reply: FetchReply)
      returns (sent: HttpRequest, out: Outcome, user: Option<Json>)
      modifies this
      ensures sent.url == baseUrl + "/auth/profile" && sent.verb == "PUT"
      ensures sent.headers == if old(GetToken()) != "" then
        map["Content-Type" := "application/json", "Authorization" := "Bearer " + old(GetToken())]
        else map["Content-Type" := "application/json"]
      ensures sent.body == Some(json.stringify(JObj(map["name" := JStr(name), "email" := JStr(email)])))
      ensures out == Settle(reply)
      ensures out.Threw? ==> storage == old(storage) && user.None?
      ensures out.Returned? ==> user == Prop(out.data, "user")
      ensures out.Returned? && TruthyOpt(user) ==> storage == old(storage)[UserKey := json.stringify(user.value)]
      ensures out.Returned? && !TruthyOpt(user) ==> storage == old(storage)
    {
      var body := JObj(map["name" := JStr(name), "email" := JStr(email)]);
      sent, out := Request("/auth/profile", "PUT", Some(body), true, map[], reply);
      user := None;
      if out.Returned? {
        user := Prop(out.data, "user");
        if user.Some? {
          SetUser(user.value);
        }
      }
    }

    /** `apiListTasks`: GET the list path with the bearer header; the tasks
        of the reply, or an empty array when it has none. `qs` is the
        encoded query string `URLSearchParams` produced. */
    method ApiListTasks(qs: string, reply: FetchReply) returns (sent: HttpRequest, out: Outcome)
      ensures sent.url == baseUrl + ListPath(qs) && sent.verb == "GET" && sent.body.None?
      ensures sent.headers == if GetToken() != "" then
        map["Content-Type" := "application/json", "Authorization" := "Bearer " + GetToken()]
        else map["Content-Type" := "application/json"]
      ensures reply.NetworkFailure? ==> out == Threw(reply.message)
      ensures reply.HttpReply? && !IsOk(reply.status) ==> out == Settle(reply)
      ensures reply.HttpReply? && IsOk(reply.status) ==> out == Returned(ListResult(Settle(reply).data))
    {
      var r;
      sent, r := Request(ListPath(qs), "GET", None, true, map[], reply);
      out := if r.Returned? then Returned(ListResult(r.data)) else r;
    }
  }
}
