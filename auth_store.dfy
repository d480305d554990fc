/** The persisted authentication store of the browser: log in (token, then
    the user's own record), register, log out, and the part of the state
    kept in local storage. */
module AuthStore {
  import opened Common
  import opened Text
  import App

  /** What an HTTP call gave the store: a 2xx answer with its body, an
      error answer with its body (`error.response.data`), or no answer at
      all (`error.response` undefined). */
  datatype Reply = Answered(data: Json) | Refused(body: Json) | Unreached

  /** The requests the store sends. */
  datatype AuthRequest =
    | PostToken(username: string, password: string)
    | GetMe
    | PostRegister(name: string, email: string, password: string)

  /** How an action ended: it resolved with a value, or it threw (its
      promise rejected). */
  datatype Outcome = Returned(ok: bool) | Threw

  datatype AuthState = AuthState(
    user: Json,
    token: Json,
    isAuthenticated: bool,
    isLoading: bool,
    error: Json,
    issued: seq<AuthRequest>)

  const Fresh: AuthState := AuthState(JNull, JNull, false, false, JNull, [])

  /** `error.response?.data?.detail` */
  function DetailOf(reply: Reply): (r: Option<Json>)
    ensures !reply.Refused? ==> r.None?
  {
    match reply
    case Refused(body) => Field(body, "detail")
    case _ => None
  }

  /** `err.msg` as `join` writes it: absent or null gives "". A null entry
      has no properties, so reading its `msg` throws (None). */
  function MsgText(err: Json): (r: Option<string>)
    ensures r.None? <==> err == JNull
  {
    if err == JNull then None
    else
      match Field(err, "msg")
      case None => Some("")
      case Some(JNull) => Some("")
      case Some(v) => Some(App.JsString(v))
  }

  /** `detail.map(err => err.msg)`, or None when an entry is null. */
  function Messages(items: seq<Json>): (r: Option<seq<string>>)
    ensures r.None? <==> JNull in items
    ensures r.Some? ==> |r.value| == |items|
  {
    if |items| == 0 then Some([])
    else
      match MsgText(items[0])
      case None => None
      case Some(m) =>
        var rest := Messages(items[1..]);
        assert forall x :: x in items[1..] ==> x in items;
        assert items == [items[0]] + items[1..];
        if rest.None? then None else Some([m] + rest.value)
  }

  /** The message a failed login shows: the validation messages joined
      with ", " when `detail` is an array, `detail` itself when it is any
      other truthy value, "Login failed" when there is none. None when
      building it throws. */
  function LoginErrorMessage(reply: Reply): (r: Option<Json>)
    ensures !TruthyOpt(DetailOf(reply)) ==> r == Some(JStr("Login failed"))
    ensures TruthyOpt(DetailOf(reply)) && !DetailOf(reply).value.JArray? ==> r == Some(DetailOf(reply).value)
    ensures DetailOf(reply).Some? && DetailOf(reply).value.JArray? ==>
      (r.None? <==> JNull in DetailOf(reply).value.items)
    ensures DetailOf(reply).Some? && DetailOf(reply).value.JArray? && r.Some? ==> r.value.JStr?
  {
    var detail := DetailOf(reply);
    if !TruthyOpt(detail) then Some(JStr("Login failed"))
    else
      var d := detail.value;
      if d.JArray? then
        var msgs := Messages(d.items);
        if msgs.None? then None else Some(JStr(Join(msgs.value, ", ")))
      else Some(d)
  }

  /** Validation errors of the usual shape, objects with a string `msg`,
      give their messages in order. */
  lemma {:induction false} MessagesOfValidationErrors(items: seq<Json>, msgs: seq<string>)
    requires |items| == |msgs|
    requires forall i :: 0 <= i < |items| ==> Field(items[i], "msg") == Some(JStr(msgs[i]))
    ensures Messages(items) == Some(msgs)
  {
    if |items| > 0 {
      assert Field(items[0], "msg") == Some(JStr(msgs[0]));
      assert items[0] != JNull;
      assert App.JsString(JStr(msgs[0])) == msgs[0];
      forall i | 0 <= i < |items[1..]|
        ensures Field(items[1..][i], "msg") == Some(JStr(msgs[1..][i]))
      {
        assert items[1..][i] == items[i + 1];
      }
      MessagesOfValidationErrors(items[1..], msgs[1..]);
      assert msgs == [msgs[0]] + msgs[1..];
    }
  }

  /** A 422 answer listing validation errors shows their messages joined
      with ", ". */
  lemma ValidationErrorsJoined(body: Json, items: seq<Json>, msgs: seq<string>)
    requires Field(body, "detail") == Some(JArray(items))
    requires |items| == |msgs|
    requires forall i :: 0 <= i < |items| ==> Field(items[i], "msg") == Some(JStr(msgs[i]))
    ensures LoginErrorMessage(Refused(body)) == Some(JStr(Join(msgs, ", ")))
  {
    MessagesOfValidationErrors(items, msgs);
    assert DetailOf(Refused(body)) == Some(JArray(items));
    assert Truthy(JArray(items));
  }

  /** `const { access_token } = response.data` for a non-null body; an
      absent token is stored as null. */
  function TokenOf(data: Json): Json {
    Field(data, "access_token").GetOr(JNull)
  }

  /** The catch block of `login`: when its message can be built, the error
      is set, loading ends and the token and authentication are dropped;
      the user is left as it was. */
  function LoginFailure(st: AuthState, failure: Reply): (AuthState, Outcome) {
    match LoginErrorMessage(failure)
    case None => (st, Threw)
    case Some(message) =>
      (st.(error := message, isLoading := false, token := JNull, isAuthenticated := false), Returned(false))
  }

  /** `login(email, password)`, given the answers of its two requests.
      Destructuring a null token body throws before any answer is read
      again, so it fails like an unreachable server. */
  function LoginSpec(st: AuthState, email: string, password: string, tokenReply: Reply, meReply: Reply): (AuthState, Outcome) {
    var s1 := st.(isLoading := true, error := JNull, issued := st.issued + [PostToken(email, password)]);
    if tokenReply.Answered? && tokenReply.data != JNull then
      var s2 := s1.(token := TokenOf(tokenReply.data), isAuthenticated := true, issued := s1.issued + [GetMe]);
      if meReply.Answered? then (s2.(user := meReply.data, isLoading := false), Returned(true))
      else LoginFailure(s2, meReply)
    else if tokenReply.Answered? then LoginFailure(s1, Unreached)
    else LoginFailure(s1, tokenReply)
  }

  /** Login succeeds exactly when both requests are answered (with a
      token body), and then the token and the user come from the answers,
      loading has ended and the error is cleared. */
  lemma LoginSucceeds(st: AuthState, email: string, password: string, tokenReply: Reply, meReply: Reply)
    ensures LoginSpec(st, email, password, tokenReply, meReply).1 == Returned(true)
            <==> tokenReply.Answered? && tokenReply.data != JNull && meReply.Answered?
    ensures LoginSpec(st, email, password, tokenReply, meReply).1 == Returned(true) ==>
      var r := LoginSpec(st, email, password, tokenReply, meReply).0;
      && r.token == TokenOf(tokenReply.data) && r.user == meReply.data
      && r.isAuthenticated && !r.isLoading && r.error == JNull
      && r.issued == st.issued + [PostToken(email, password), GetMe]
  {
  }

  /** A login that returns false has dropped the token and the
      authentication and ended loading, even when the token request had
      already succeeded; the previous user is kept. */
  lemma LoginFailureDropsToken(st: AuthState, email: string, password: string, tokenReply: Reply, meReply: Reply)
    requires LoginSpec(st, email, password, tokenReply, meReply).1 == Returned(false)
    ensures var r := LoginSpec(st, email, password, tokenReply, meReply).0;
      && r.token == JNull && !r.isAuthenticated && !r.isLoading
      && r.user == st.user && r.error != JNull
  {
  }

  /** The error shown after a failed token request is the message derived
      from its answer; after a failed user request, from that answer. */
  lemma LoginFailureMessage(st: AuthState, email: string, password: string, tokenReply: Reply, meReply: Reply)
    requires LoginSpec(st, email, password, tokenReply, meReply).1 == Returned(false)
    ensures !tokenReply.Answered? ==>
      Some(LoginSpec(st, email, password, tokenReply, meReply).0.error) == LoginErrorMessage(tokenReply)
    ensures tokenReply.Answered? && tokenReply.data != JNull ==>
      Some(LoginSpec(st, email, password, tokenReply, meReply).0.error) == LoginErrorMessage(meReply)
    ensures tokenReply.Answered? && tokenReply.data == JNull ==>
      LoginSpec(st, email, password, tokenReply, meReply).0.error == JStr("Login failed")
  {
  }

  predicate NullInDetailList(reply: Reply) {
    DetailOf(reply).Some? && DetailOf(reply).value.JArray? && JNull in DetailOf(reply).value.items
  }

  /** Only a null entry in a validation-error list makes login throw, and
      then the store is left loading with the error it cleared at the start. */
  lemma LoginThrows(st: AuthState, email: string, password: string, tokenReply: Reply, meReply: Reply)
    requires LoginSpec(st, email, password, tokenReply, meReply).1 == Threw
    ensures var r := LoginSpec(st, email, password, tokenReply, meReply).0;
      r.isLoading && r.error == JNull
    ensures NullInDetailList(tokenReply) || NullInDetailList(meReply)
  {
  }

  /** `register(name, email, password)` given the answer of its request. */
  function RegisterSpec(st: AuthState, name: string, email: string, password: string, reply: Reply): (AuthState, Outcome) {
    var s1 := st.(isLoading := true, error := JNull, issued := st.issued + [PostRegister(name, email, password)]);
    if reply.Answered? then (s1.(isLoading := false), Returned(true))
    else (s1.(error := OrElse(DetailOf(reply), JStr("Registration failed")), isLoading := false), Returned(false))
  }

  /** Registration returns true exactly when the request is answered, with
      the error cleared; otherwise false with the answer's `detail`, or
      "Registration failed" when that is absent or falsy. It never signs
      the user in. */
  lemma RegisterOutcomes(st: AuthState, name: string, email: string, password: string, reply: Reply)
    ensures var (r, out) := RegisterSpec(st, name, email, password, reply);
      && (out == Returned(true) <==> reply.Answered?)
      && out != Threw && !r.isLoading
      && (reply.Answered? ==> r.error == JNull)
      && (!reply.Answered? && TruthyOpt(DetailOf(reply)) ==> r.error == DetailOf(reply).value)
      && (!reply.Answered? && !TruthyOpt(DetailOf(reply)) ==> r.error == JStr("Registration failed"))
      && r.user == st.user && r.token == st.token && r.isAuthenticated == st.isAuthenticated
  {
  }

  function LogoutSpec(st: AuthState): AuthState {
    st.(user := JNull, token := JNull, isAuthenticated := false)
  }

  /** The part of the store written to local storage. */
  datatype Persisted = Persisted(token: Json, user: Json, isAuthenticated: bool)

  function Partialize(st: AuthState): (p: Persisted)
    ensures p.token == st.token && p.user == st.user && p.isAuthenticated == st.isAuthenticated
  {
    Persisted(st.token, st.user, st.isAuthenticated)
  }

  /** Loading flags, errors and the request log are never persisted. */
  lemma PersistedIgnoresTransient(a: AuthState, b: AuthState)
    requires a.token == b.token && a.user == b.user && a.isAuthenticated == b.isAuthenticated
    ensures Partialize(a) == Partialize(b)
  {
  }

  /** After logging out, storage holds exactly what a fresh store holds,
      and the rest of the state is untouched. */
  lemma LogoutForgetsSession(st: AuthState)
    ensures Partialize(LogoutSpec(st)) == Partialize(Fresh)
    ensures LogoutSpec(st).isLoading == st.isLoading && LogoutSpec(st).error == st.error
    ensures LogoutSpec(LogoutSpec(st)) == LogoutSpec(st)
  {
  }

  /** A failed login persists an unauthenticated state without a token,
      but with whatever user was stored before. */
  lemma FailedLoginPersists(st: AuthState, email: string, password: string, tokenReply: Reply, meReply: Reply)
    requires LoginSpec(st, email, password, tokenReply, meReply).1 == Returned(false)
    ensures Partialize(LoginSpec(st, email, password, tokenReply, meReply).0) == Persisted(JNull, st.user, false)
  {
  }

  /** The store, with the fields `set` updates. */
  class Store {
    var user: Json
    var token: Json
    var isAuthenticated: bool
    var isLoading: bool
    var error: Json
    var issued: seq<AuthRequest>

    function Snapshot(): AuthState
      reads this
    {
      AuthState(user, token, isAuthenticated, isLoading, error, issued)
    }

    constructor ()
      ensures Snapshot() == Fresh
    {
      user := JNull;
      token := JNull;
      isAuthenticated := false;
      isLoading := false;
      error := JNull;
      issued := [];
    }

    method Login(email: string, password: string, tokenReply: Reply, meReply: Reply) returns (outcome: Outcome)
      modifies this
      ensures (Snapshot(), outcome) == LoginSpec(old(Snapshot()), email, password, tokenReply, meReply)
    {
      isLoading := true;
      error := JNull;
      issued := issued + [PostToken(email, password)];
      var failure: Reply;
      if tokenReply.Answered? && tokenReply.data != JNull {
        token := TokenOf(tokenReply.data);
        isAuthenticated := true;
        issued := issued + [GetMe];
        if meReply.Answered? {
          user := meReply.data;
          isLoading := false;
          return Returned(true);
        }
        failure := meReply;
      } else if tokenReply.Answered? {
        failure := Unreached;
      } else {
        failure := tokenReply;
      }
      var message := LoginErrorMessage(failure);
      if message.None? {
        return Threw;
      }
      error := message.value;
      isLoading := false;
      token := JNull;
      isAuthenticated := false;
      outcome := Returned(false);
    }

    method Register(name: string, email: string, password: string, reply: Reply) returns (outcome: Outcome)
      modifies this
      ensures (Snapshot(), outcome) == RegisterSpec(old(Snapshot()), name, email, password, reply)
    {
      isLoading := true;
      error := JNull;
      issued := issued + [PostRegister(name, email, password)];
      if reply.Answered? {
        isLoading := false;
        return Returned(true);
      }
      error := OrElse(DetailOf(reply), JStr("Registration failed"));
      isLoading := false;
      outcome := Returned(false);
    }

    method Logout()
      modifies this
      ensures Snapshot() == LogoutSpec(old(Snapshot()))
    {
      user := JNull;
      token := JNull;
      isAuthenticated := false;
    }
  }
}
