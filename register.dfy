/** The registration page: a three-field form, an error line and a loading
    flag. Submitting runs the client checks in a fixed order, posts the form
    as typed to the register endpoint with its own `fetch` call, keeps the
    token and the user in the browser storage when the reply has a token,
    and sends the visitor to the login page. The storage is passed in and
    handed back; the reply is a parameter. */
module Register {
  import opened Common
  import Api

  datatype RegisterForm = RegisterForm(name: string, email: string, password: string)

  /** The `name` attributes of the three inputs. */
  datatype RegisterField = NameField | EmailField | PasswordField

  /** How the request settled: `fetch` or `response.json()` rejected with
      a message, or a response arrived with its `ok` flag and parsed body. */
  datatype RegisterReply = Rejected(message: string) | Answered(ok: bool, data: Json)

  const RegisterUrl := "http://localhost:5000/api/register"
  const NameRequired := "Name is required"
  const EmailRequired := "Email is required"
  const PasswordRequired := "Password is required"
  const PasswordTooShort := "Password must be at least 6 characters long"
  const RequestFailed := "Registration failed"
  const SubmitFailed := "Registration failed. Please try again."

  /** The client checks of `handleSubmit`, first failure wins: blank
      trimmed name, blank trimmed e-mail, empty password, password under 6
      characters. */
  function RegisterCheck(form: RegisterForm): (r: Option<string>)
    ensures Trim(JavaScript, form.name) == "" ==> r == Some(NameRequired)
    ensures Trim(JavaScript, form.name) != "" && Trim(JavaScript, form.email) == "" ==> r == Some(EmailRequired)
    ensures Trim(JavaScript, form.name) != "" && Trim(JavaScript, form.email) != "" && form.password == "" ==>
      r == Some(PasswordRequired)
    ensures r == Some(PasswordTooShort) <==>
      Trim(JavaScript, form.name) != "" && Trim(JavaScript, form.email) != "" && 0 < |form.password| < 6
    ensures r.None? <==>
      Trim(JavaScript, form.name) != "" && Trim(JavaScript, form.email) != "" && |form.password| >= 6
  {
    if Trim(JavaScript, form.name) == "" then Some(NameRequired)
    else if Trim(JavaScript, form.email) == "" then Some(EmailRequired)
    else if form.password == "" then Some(PasswordRequired)
    else if |form.password| < 6 then Some(PasswordTooShort)
    else None
  }

  /** The request `registerRequest` sends: the form exactly as typed. */
  function RegisterRequest(c: Api.JsonCodec, form: RegisterForm): (q: Api.HttpRequest)
    ensures q.url == RegisterUrl && q.verb == "POST"
    ensures q.headers == map["Content-Type" := "application/json"]
    ensures q.body == Some(c.stringify(JObj(map["name" := JStr(form.name), "email" := JStr(form.email),
                                                "password" := JStr(form.password)])))
  {
    Api.HttpRequest(RegisterUrl, "POST", map["Content-Type" := "application/json"],
      Some(c.stringify(JObj(map["name" := JStr(form.name), "email" := JStr(form.email),
                                "password" := JStr(form.password)]))))
  }

  /** `registerRequest`'s result: the body of an ok reply, else an error
      whose message is the body's `message` or "Registration failed". */
  function RegisterOutcome(reply: RegisterReply): (r: Api.Outcome)
    ensures reply.Rejected? ==> r == Api.Threw(reply.message)
    ensures reply.Answered? ==> (r.Returned? <==> reply.ok)
    ensures reply.Answered? && reply.ok ==> r.data == reply.data
    ensures reply.Answered? && !reply.ok && TruthyOpt(Prop(reply.data, "message")) ==>
      r == Api.Threw(JsString(reply.data.fields["message"]))
    ensures reply.Answered? && !reply.ok && !TruthyOpt(Prop(reply.data, "message")) ==>
      r == Api.Threw(RequestFailed)
  {
    match reply
    case Rejected(m) => Api.Threw(m)
    case Answered(ok, data) =>
      if ok then Api.Returned(data)
      else
        var m := Prop(data, "message");
        Api.Threw(if TruthyOpt(m) then JsString(m.value) else RequestFailed)
  }

  /** The storage after a successful registration: when `access_token` is
      truthy, the token as text and `JSON.stringify(response.user)`, which
      is the text "undefined" when the reply has no user; otherwise
      nothing is written. */
  function StoreRegistration(c: Api.JsonCodec, m: map<string, string>, data: Json): (r: map<string, string>)
    ensures !TruthyOpt(Prop(data, "access_token")) ==> r == m
    ensures TruthyOpt(Prop(data, "access_token")) ==>
      && r.Keys == m.Keys + {Api.TokenKey, Api.UserKey}
      && r[Api.TokenKey] == JsString(data.fields["access_token"])
      && r[Api.UserKey] == (if "user" in data.fields then c.stringify(data.fields["user"]) else "undefined")
      && (forall k :: k in m && k != Api.TokenKey && k != Api.UserKey ==> r[k] == m[k])
  {
    var token := Prop(data, "access_token");
    if TruthyOpt(token) then
      var user := Prop(data, "user");
      m[Api.TokenKey := JsString(token.value)]
       [Api.UserKey := if user.Some? then c.stringify(user.value) else "undefined"]
    else m
  }

  /** With a truthy token and a truthy user the page stores what the API
      client's register call stores. */
  lemma {:induction false} AgreesWithApiClient(c: Api.JsonCodec, m: map<string, string>, data: Json)
    requires TruthyOpt(Prop(data, "access_token")) && TruthyOpt(Prop(data, "user"))
    ensures StoreRegistration(c, m, data) == Api.StoreAuth(c, m, data)
  {
    var r := StoreRegistration(c, m, data);
    var s := Api.StoreAuth(c, m, data);
    assert r.Keys == s.Keys;
    forall k | k in r ensures r[k] == s[k] {
      if k != Api.TokenKey && k != Api.UserKey {
        assert k in m;
      }
    }
  }

  /** With a token but no user the two diverge: the page writes the text
      "undefined" where the API client writes nothing. */
  lemma {:induction false} TokenWithoutUser(c: Api.JsonCodec, m: map<string, string>, token: string)
    requires token != "" && Api.UserKey !in m
    ensures var data := JObj(map["access_token" := JStr(token)]);
      && StoreRegistration(c, m, data)[Api.UserKey] == "undefined"
      && Api.UserKey !in Api.StoreAuth(c, m, data)
  {
    var data := JObj(map["access_token" := JStr(token)]);
    assert Prop(data, "access_token") == Some(JStr(token));
    assert Prop(data, "user") == None;
  }

  class RegisterPage {
    var form: RegisterForm
    var error: string
    var loading: bool

    constructor ()
      ensures form == RegisterForm("", "", "") && error == "" && !loading
    {
      form := RegisterForm("", "", "");
      error := "";
      loading := false;
    }

    /** `handleChange`: one field takes the typed value; the error is cleared. */
    method HandleChange(field: RegisterField, value: string)
      modifies this
      ensures form == match field
        case NameField => old(form).(name := value)
        case EmailField => old(form).(email := value)
        case PasswordField => old(form).(password := value)
      ensures error == "" && loading == old(loading)
    {
      match field {
        case NameField => form := form.(name := value);
        case EmailField => form := form.(email := value);
        case PasswordField => form := form.(password := value);
      }
      if error != "" {
        error := "";
      }
    }

    /** `handleSubmit`: a failed check sets its message and sends nothing;
        otherwise the form as typed is posted, a successful reply updates
        the storage and leads to the login page, and a failure sets its
        message or the fallback. `loading` is false on every exit. */
    method HandleSubmit(c: Api.JsonCodec, reply: RegisterReply, storage: map<string, string>)
      returns (sent: Option<Api.HttpRequest>, stored: map<string, string>, toLogin: bool)
      modifies this
      ensures form == old(form) && !loading
      ensures RegisterCheck(form).Some? ==>
        sent.None? && stored == storage && !toLogin && error == RegisterCheck(form).value
      ensures RegisterCheck(form).None? ==> sent == Some(RegisterRequest(c, form))
      ensures RegisterCheck(form).None? && RegisterOutcome(reply).Returned? ==>
        stored == StoreRegistration(c, storage, RegisterOutcome(reply).data) && toLogin && error == ""
      ensures RegisterCheck(form).None? && RegisterOutcome(reply).Threw? ==>
        stored == storage && !toLogin
        && error == (if RegisterOutcome(reply).message != "" then RegisterOutcome(reply).message else SubmitFailed)
    {
      loading := true;
      error := "";
      stored := storage;
      toLogin := false;
      var check := RegisterCheck(form);
      if check.Some? {
        error := check.value;
        loading := false;
        return None, stored, toLogin;
      }
      sent := Some(RegisterRequest(c, form));
      match RegisterOutcome(reply) {
        case Returned(data) =>
          stored := StoreRegistration(c, storage, data);
          toLogin := true;
        case Threw(message) =>
          error := if message != "" then message else SubmitFailed;
      }
      loading := false;
    }
  }
}
