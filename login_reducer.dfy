/**
 * The login slice of the store: seven fields and six case reducers, each of which
 * assigns some fields of the state in place and leaves the rest alone. `Reduce` states
 * every reducer's effect on the whole state as a value; the `LoginSlice` class carries
 * the same state as mutable fields, as the reducers do.
 */
module LoginReducer {

  /** A JavaScript value as an action payload can carry it. */
  datatype JsValue =
    | Undefined
    | Null
    | Bool(b: bool)
    | Num(n: int)
    | Str(s: string)
    | Arr(items: seq<JsValue>)
    | Obj(fields: map<string, JsValue>)

  /** Reading a property of `null` or `undefined` throws. */
  predicate Readable(v: JsValue) {
    !v.Undefined? && !v.Null?
  }

  /** `v.name` on a value whose properties can be read: missing properties read as `undefined`. */
  function Prop(v: JsValue, name: string): (r: JsValue)
    requires Readable(v)
    ensures v.Obj? && name in v.fields ==> r == v.fields[name]
    ensures !(v.Obj? && name in v.fields) ==> r == Undefined
  {
    if v.Obj? && name in v.fields then v.fields[name] else Undefined
  }

  datatype Login = Login(
    token: JsValue,
    userProfile: JsValue,
    user: JsValue,
    loading: bool,
    error: JsValue,
    isUserLogout: bool,
    errorMsg: bool)

  /** `initialState` */
  const Initial := Login(Null, Null, Obj(map[]), false, Str(""), false, false)

  datatype Action =
    | ApiError(payload: JsValue)
    | LoginSuccess(payload: JsValue)
    | LogoutUserSuccess(payload: JsValue)
    | ResetLoginFlag
    | SetUserProfile(payload: JsValue)
    | SetToken(payload: JsValue)

  /**
   * The two reducers that read a property of their payload throw, on their first
   * statement, when the payload is `null` or `undefined`.
   */
  predicate Throws(a: Action) {
    match a
    case ApiError(p) => !Readable(p)
    case LoginSuccess(p) => !Readable(p)
    case _ => false
  }

  /**
   * The store's state after one dispatched action. A reducer that throws leaves the
   * state as it was: the draft is discarded and the exception goes to the dispatcher.
   * No reducer ever sets `loading`.
   */
  function Reduce(s: Login, a: Action): (r: Login)
    ensures Throws(a) ==> r == s
    ensures r.loading ==> s.loading
    ensures a.SetUserProfile? || a.SetToken? ==> r.loading == s.loading
  {
    if Throws(a) then s
    else match a
    case ApiError(p) => s.(error := Prop(p, "data"), loading := false, isUserLogout := false, errorMsg := true)
    case LoginSuccess(p) => s.(token := Prop(p, "token"), userProfile := p, isUserLogout := false, loading := false)
    case LogoutUserSuccess(_) => s.(isUserLogout := true, userProfile := Null, token := Null, loading := false)
    case ResetLoginFlag => s.(error := Str(""), loading := false, errorMsg := false)
    case SetUserProfile(p) => s.(user := p)
    case SetToken(p) => s.(token := p)
  }

  /** The state after a run of actions. */
  function ReduceAll(s: Login, actions: seq<Action>): Login
    decreases |actions|
  {
    if actions == [] then s else ReduceAll(Reduce(s, actions[0]), actions[1..])
  }

  /** Starting from the initial state, `loading` is false after any run of actions. */
  lemma {:induction false} LoadingStaysFalse(s: Login, actions: seq<Action>)
    requires !s.loading
    ensures !ReduceAll(s, actions).loading
    decreases |actions|
  {
    if actions != [] {
      LoadingStaysFalse(Reduce(s, actions[0]), actions[1..]);
    }
  }

  /** Every action leaves the fields it does not name as they were. */
  lemma ReduceFrames(s: Login, a: Action)
    ensures var r := Reduce(s, a);
            && (a.ApiError? ==> r.token == s.token && r.userProfile == s.userProfile && r.user == s.user)
            && (a.LoginSuccess? ==> r.error == s.error && r.errorMsg == s.errorMsg && r.user == s.user)
            && (a.LogoutUserSuccess? ==> r.error == s.error && r.errorMsg == s.errorMsg && r.user == s.user)
            && (a.ResetLoginFlag? ==>
                  r.token == s.token && r.userProfile == s.userProfile && r.user == s.user && r.isUserLogout == s.isUserLogout)
            && (a.SetUserProfile? ==> r == s.(user := a.payload))
            && (a.SetToken? ==> r == s.(token := a.payload))
  {
  }

  /**
   * Logging out forgets the session whatever came before and whatever the payload, and a
   * later `reset_login_flag` does not bring it back.
   */
  lemma LogoutForgetsSession(s: Login, payload: JsValue)
    ensures var r := Reduce(s, LogoutUserSuccess(payload));
            r.token == Null && r.userProfile == Null && r.isUserLogout && !r.loading
    ensures var r := Reduce(Reduce(s, LogoutUserSuccess(payload)), ResetLoginFlag);
            r.token == Null && r.userProfile == Null && r.isUserLogout
  {
  }

  /**
   * An error followed by `reset_login_flag` clears the error and its flag and keeps the
   * session; `isUserLogout` is cleared only when the error's payload could be read.
   */
  lemma ResetClearsError(s: Login, payload: JsValue)
    ensures var r := Reduce(Reduce(s, ApiError(payload)), ResetLoginFlag);
            && r.error == Str("") && !r.errorMsg && !r.loading
            && r.token == s.token && r.userProfile == s.userProfile && r.user == s.user
            && r.isUserLogout == (if Readable(payload) then false else s.isUserLogout)
  {
  }

  /** `reset_login_flag` twice is the same as once. */
  lemma ResetIdempotent(s: Login)
    ensures Reduce(Reduce(s, ResetLoginFlag), ResetLoginFlag) == Reduce(s, ResetLoginFlag)
  {
  }

  /** The slice's state, updated field by field by the case reducers. */
  class LoginSlice {
    var token: JsValue
    var userProfile: JsValue
    var user: JsValue
    var loading: bool
    var error: JsValue
    var isUserLogout: bool
    var errorMsg: bool

    function State(): Login
      reads this
    {
      Login(token, userProfile, user, loading, error, isUserLogout, errorMsg)
    }

    constructor()
      ensures State() == Initial
    {
      token, userProfile, user := Null, Null, Obj(map[]);
      loading, error, isUserLogout, errorMsg := false, Str(""), false, false;
    }

    /** `apiError`: records the payload's `data` as the error and raises the error flag. */
    method ApiErrorReducer(payload: JsValue) returns (thrown: bool)
      modifies this
      ensures thrown <==> !Readable(payload)
      ensures State() == Reduce(old(State()), ApiError(payload))
    {
      if !Readable(payload) {
        return true;
      }
      thrown := false;
      error := Prop(payload, "data");
      loading := false;
      isUserLogout := false;
      errorMsg := true;
    }

    /** `loginSuccess`: stores the token and the whole payload as the profile. */
    method LoginSuccessReducer(payload: JsValue) returns (thrown: bool)
      modifies this
      ensures thrown <==> !Readable(payload)
      ensures State() == Reduce(old(State()), LoginSuccess(payload))
    {
      if !Readable(payload) {
        return true;
      }
      thrown := false;
      token := Prop(payload, "token");
      userProfile := payload;
      isUserLogout := false;
      loading := false;
    }

    /** `logoutUserSuccess`: forgets the token and profile; the payload is ignored. */
    method LogoutUserSuccessReducer(payload: JsValue)
      modifies this
      ensures State() == Reduce(old(State()), LogoutUserSuccess(payload))
    {
      isUserLogout := true;
      userProfile := Null;
      token := Null;
      loading := false;
    }

    /** `reset_login_flag` */
    method ResetLoginFlagReducer()
      modifies this
      ensures State() == Reduce(old(State()), ResetLoginFlag)
    {
      error := Str("");
      loading := false;
      errorMsg := false;
    }

    /** `setUserProfile`: writes `user`, not `userProfile`. */
    method SetUserProfileReducer(payload: JsValue)
      modifies this
      ensures State() == Reduce(old(State()), SetUserProfile(payload))
    {
      user := payload;
    }

    /** `setToken` */
    method SetTokenReducer(payload: JsValue)
      modifies this
      ensures State() == Reduce(old(State()), SetToken(payload))
    {
      token := payload;
    }

    /** The store's `dispatch` for this slice; `thrown` when the reducer threw. */
    method Dispatch(a: Action) returns (thrown: bool)
      modifies this
      ensures thrown <==> Throws(a)
      ensures State() == Reduce(old(State()), a)
    {
      thrown := false;
      match a {
        case ApiError(p) => thrown := ApiErrorReducer(p);
        case LoginSuccess(p) => thrown := LoginSuccessReducer(p);
        case LogoutUserSuccess(p) => LogoutUserSuccessReducer(p);
        case ResetLoginFlag => ResetLoginFlagReducer();
        case SetUserProfile(p) => SetUserProfileReducer(p);
        case SetToken(p) => SetTokenReducer(p);
      }
    }
  }
}
