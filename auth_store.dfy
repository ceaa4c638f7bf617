/**
 * The authentication store: the signed-in user and session, the user's
 * profile row, loading and error flags, and the once-only initialisation.
 * Every backend call is a parameter holding what its promise settled to.
 */
module Auth {
  import opened Base
  import opened Json

  const DefaultBalance := 100000

  const SignUpFailed := "An unexpected error occurred"
  const SignInFailed := "Failed to sign in"
  const SignOutFailed := "Failed to sign out"
  const ResetFailed := "Failed to send reset email"
  const UpdateFailed := "Failed to update profile"
  const FetchUsersFailed := "Failed to fetch users"
  const ApproveFailed := "Failed to approve user"
  const RoleFailed := "Failed to update user role"

  /** An error object as the backend reports it. */
  datatype AuthError = AuthError(message: string)

  datatype Session = Session(user: Option<Obj>, accessToken: string)

  /** `{ data, error }` as the backend resolves it. */
  datatype Reply<T> = Reply(data: T, error: Option<AuthError>)

  /** The `data` of sign-up and sign-in. */
  datatype Credentials = Credentials(user: Option<Obj>, session: Option<Session>)

  /** What an action resolves to: `{ data, error: null }` or `{ data: null, error }`. */
  datatype ActionResult<T> = ActionResult(data: Option<T>, error: Option<AuthError>)

  /**
   * `err.message || fallback`: a caller always gets a message when the
   * fallback is one, and a thrown message that says something is never replaced.
   */
  function ThrownMessage(message: string, fallback: string): (m: string)
    ensures m == message || m == fallback
    ensures fallback != "" ==> m != ""
    ensures message != "" ==> m == message
  {
    if message != "" then message else fallback
  }

  /** The defaults a new account's metadata starts from. */
  function SignUpDefaults(userData: Obj): Obj
  {
    map[
      "full_name" := Or(Get(userData, "fullName"), JStr("")),
      "avatar_url" := Or(Get(userData, "avatarUrl"), JStr("")),
      "starting_balance" := JNum(DefaultBalance),
      "current_balance" := JNum(DefaultBalance),
      "total_trades" := JNum(0),
      "wins" := JNum(0),
      "losses" := JNum(0),
      "role" := JStr("user"),
      "user_status" := JStr("pending")
    ]
  }

  /** The metadata `signUp` sends: the defaults, then every caller-supplied key over them. */
  function SignUpMetadata(userData: Obj): (r: Obj)
    ensures forall k :: k in userData ==> k in r && r[k] == userData[k]
    ensures "role" !in userData ==> Get(r, "role") == JStr("user")
    ensures "user_status" !in userData ==> Get(r, "user_status") == JStr("pending")
    ensures "starting_balance" !in userData ==> Get(r, "starting_balance") == JNum(DefaultBalance)
    ensures "current_balance" !in userData ==> Get(r, "current_balance") == JNum(DefaultBalance)
    ensures "full_name" !in userData ==> Get(r, "full_name") == Or(Get(userData, "fullName"), JStr(""))
    ensures r.Keys == SignUpDefaults(userData).Keys + userData.Keys
  {
    var d := SignUpDefaults(userData);
    assert d["role"] == JStr("user") && d["user_status"] == JStr("pending");
    assert d["starting_balance"] == JNum(DefaultBalance) && d["current_balance"] == JNum(DefaultBalance);
    assert d["full_name"] == Or(Get(userData, "fullName"), JStr(""));
    Spread(d, userData)
  }

  /** With no caller data, a new account is a pending user with the default balance and no trades. */
  lemma NewAccountDefaults()
    ensures var m := SignUpMetadata(map[]);
      && Get(m, "role") == JStr("user") && Get(m, "user_status") == JStr("pending")
      && Get(m, "starting_balance") == JNum(DefaultBalance) && Get(m, "current_balance") == JNum(DefaultBalance)
      && Get(m, "total_trades") == JNum(0) && Get(m, "wins") == JNum(0) && Get(m, "losses") == JNum(0)
      && Get(m, "full_name") == JStr("") && Get(m, "avatar_url") == JStr("")
  {
    var d := SignUpDefaults(map[]);
    assert SignUpMetadata(map[]) == d;
  }

  /** `user.user_metadata`, as an object to spread. */
  function Metadata(user: Obj): Obj
  {
    Spreadable(Get(user, "user_metadata"))
  }

  /** The user with one metadata field set and everything else as it was. */
  function WithMetadata(user: Obj, key: string, value: Json): (r: Obj)
    ensures forall k :: k in user && k != "user_metadata" ==> k in r && r[k] == user[k]
    ensures r.Keys == user.Keys + {"user_metadata"}
    ensures Metadata(r) == Metadata(user)[key := value]
  {
    Spread(user, map["user_metadata" := JObj(Spread(Metadata(user), map[key := value]))])
  }

  /** Only the one metadata field changes: every other top-level and metadata key keeps its value. */
  lemma WithMetadataChangesOneField(user: Obj, key: string, value: Json)
    ensures var r := WithMetadata(user, key, value);
      && Get(Metadata(r), key) == value
      && (forall k :: k != key && k in Metadata(user) ==> Get(Metadata(r), k) == Metadata(user)[k])
      && (forall k :: k != key && k !in Metadata(user) ==> k !in Metadata(r))
      && (forall k :: k != "user_metadata" ==> Get(r, k) == Get(user, k))
  {
  }

  /** Whether the local user is the one the admin action targeted (`currentUser && currentUser.id === userId`). */
  predicate IsCurrentUser(user: Option<Obj>, userId: string)
  {
    user.Some? && Get(user.value, "id") == JStr(userId)
  }

  /** What `getUserProfile()` reports for a user. */
  datatype ProfileView = ProfileView(
    id: Json, email: Json, fullName: Json, avatarUrl: Json,
    startingBalance: Json, currentBalance: Json, totalTrades: Json, wins: Json, losses: Json,
    role: Json, userStatus: Json, createdAt: Json)

  /** `user.user_metadata?.[key] || fallback`. */
  function MetaOr(user: Obj, key: string, fallback: Json): (r: Json)
    ensures Truthy(Prop(Get(user, "user_metadata"), key)) ==> r == Prop(Get(user, "user_metadata"), key)
    ensures !Truthy(Prop(Get(user, "user_metadata"), key)) ==> r == fallback
  {
    Or(Prop(Get(user, "user_metadata"), key), fallback)
  }

  /**
   * A balance as `getUserProfile` reads it: `user_metadata?.[key] || 100000`.
   * The reading is never falsy, so no balance it reports can be zero.
   */
  function BalanceAsWritten(user: Obj, key: string): (r: Json)
    ensures Truthy(r)
    ensures r == Prop(Get(user, "user_metadata"), key) || r == JNum(DefaultBalance)
    ensures r != JNum(0)
  {
    MetaOr(user, key, JNum(DefaultBalance))
  }

  /** Read with `||`, a balance of exactly zero comes back as the full default balance. */
  lemma ZeroBalanceReadsAsDefault(user: Obj)
    requires Get(user, "user_metadata") == JObj(map["current_balance" := JNum(0)])
    ensures BalanceAsWritten(user, "current_balance") == JNum(DefaultBalance)
    ensures BalanceAsWritten(user, "current_balance") != Prop(Get(user, "user_metadata"), "current_balance")
  {
  }

  /**
   * `v ?? fallback`: a present value is kept even when it is falsy, and the
   * result is present whenever the fallback is.
   */
  function Nullish(v: Json, fallback: Json): (r: Json)
    ensures r == v || r == fallback
    ensures !(v.JNull? || v.JUndefined?) ==> r == v
    ensures !(fallback.JNull? || fallback.JUndefined?) ==> !(r.JNull? || r.JUndefined?)
  {
    if v.JNull? || v.JUndefined? then fallback else v
  }

  /**
   * The message of the TypeError that reading `.user` off `null` or `undefined` throws,
   * in the wording of the V8 engine.
   */
  function ReadUserError(data: Json): (m: string)
    requires IsNullish(data)
    ensures m != [] && ThrownMessage(m, UpdateFailed) == m
  {
    "Cannot read properties of " + (if data.JNull? then "null" else "undefined") + " (reading 'user')"
  }

  /** A balance read with `??`: a stored number, zero included, is reported as stored. */
  function Balance(user: Obj, key: string): (r: Json)
    ensures Prop(Get(user, "user_metadata"), key).JNum? ==> r == Prop(Get(user, "user_metadata"), key)
    ensures Prop(Get(user, "user_metadata"), key).JUndefined? ==> r == JNum(DefaultBalance)
  {
    Nullish(Prop(Get(user, "user_metadata"), key), JNum(DefaultBalance))
  }

  /** The two readings agree except on a stored falsy balance: zero, `false` or the empty string. */
  lemma BalanceAgrees(user: Obj, key: string)
    ensures Truthy(Prop(Get(user, "user_metadata"), key)) ==> Balance(user, key) == BalanceAsWritten(user, key)
    ensures Prop(Get(user, "user_metadata"), key) == JNum(0) ==>
      Balance(user, key) == JNum(0) && BalanceAsWritten(user, key) == JNum(DefaultBalance)
  {
  }

  /**
   * The profile of a user as `getUserProfile` computes it, every metadata
   * field read with `||`.  The identity fields are copied; a truthy metadata
   * field is reported as stored; the balances, role and status are never
   * falsy.
   */
  function ProfileOf(user: Obj): (r: ProfileView)
    ensures r.id == Get(user, "id") && r.email == Get(user, "email") && r.createdAt == Get(user, "created_at")
    ensures Truthy(r.startingBalance) && Truthy(r.currentBalance) && Truthy(r.role) && Truthy(r.userStatus)
    ensures var m := Get(user, "user_metadata");
      && (Truthy(Prop(m, "full_name")) ==> r.fullName == Prop(m, "full_name"))
      && (Truthy(Prop(m, "current_balance")) ==> r.currentBalance == Prop(m, "current_balance"))
      && (Truthy(Prop(m, "starting_balance")) ==> r.startingBalance == Prop(m, "starting_balance"))
      && (Truthy(Prop(m, "role")) ==> r.role == Prop(m, "role"))
      && (Truthy(Prop(m, "user_status")) ==> r.userStatus == Prop(m, "user_status"))
  {
    ProfileView(
      Get(user, "id"), Get(user, "email"),
      MetaOr(user, "full_name", JStr("")),
      MetaOr(user, "avatar_url", JStr("")),
      BalanceAsWritten(user, "starting_balance"),
      BalanceAsWritten(user, "current_balance"),
      MetaOr(user, "total_trades", JNum(0)),
      MetaOr(user, "wins", JNum(0)),
      MetaOr(user, "losses", JNum(0)),
      MetaOr(user, "role", JStr("user")),
      MetaOr(user, "user_status", JStr("pending")),
      Get(user, "created_at"))
  }

  /** Reading back the metadata `signUp` stored gives the values it sent. */
  lemma ProfileOfNewAccount(user: Obj)
    requires Get(user, "user_metadata") == JObj(SignUpMetadata(map[]))
    ensures var p := ProfileOf(user);
      && p.role == JStr("user") && p.userStatus == JStr("pending")
      && p.startingBalance == JNum(DefaultBalance) && p.currentBalance == JNum(DefaultBalance)
      && p.totalTrades == JNum(0) && p.wins == JNum(0) && p.losses == JNum(0)
      && p.fullName == JStr("") && p.avatarUrl == JStr("")
  {
    NewAccountDefaults();
  }

  /** The intended profile: as `ProfileOf`, but with the balances read with `??`. */
  function ProfileOfIntended(user: Obj): (r: ProfileView)
    ensures r.(startingBalance := ProfileOf(user).startingBalance, currentBalance := ProfileOf(user).currentBalance)
      == ProfileOf(user)
    ensures Prop(Get(user, "user_metadata"), "current_balance").JNum? ==>
      r.currentBalance == Prop(Get(user, "user_metadata"), "current_balance")
  {
    ProfileOf(user).(startingBalance := Balance(user, "starting_balance"),
                     currentBalance := Balance(user, "current_balance"))
  }

  /**
   * A spent-out account: `getUserProfile` as written reports the full
   * starting balance, the intended reading reports zero; both keep the
   * starting balance.
   */
  lemma ProfileOfSpentAccount(user: Obj)
    requires Get(user, "user_metadata") == JObj(SignUpMetadata(map["current_balance" := JNum(0)]))
    ensures ProfileOf(user).currentBalance == JNum(DefaultBalance)
    ensures ProfileOfIntended(user).currentBalance == JNum(0)
    ensures ProfileOf(user).startingBalance == JNum(DefaultBalance)
    ensures ProfileOfIntended(user).startingBalance == JNum(DefaultBalance)
  {
    NewAccountDefaults();
  }

  /** `userProfile?.role === 'admin' && userProfile?.status === 'approved'`. */
  predicate IsAdminProfile(profile: Option<Obj>)
  {
    profile.Some? && Get(profile.value, "role") == JStr("admin") && Get(profile.value, "status") == JStr("approved")
  }

  /** `userProfile?.status === 'approved'`. */
  predicate IsApprovedProfile(profile: Option<Obj>)
  {
    profile.Some? && Get(profile.value, "status") == JStr("approved")
  }

  /** An admin is approved; without a profile nobody is either. */
  lemma AdminIsApproved(profile: Option<Obj>)
    ensures IsAdminProfile(profile) ==> IsApprovedProfile(profile)
    ensures profile.None? ==> !IsAdminProfile(profile) && !IsApprovedProfile(profile)
    ensures IsAdminProfile(profile) <==> IsApprovedProfile(profile) && Get(profile.value, "role") == JStr("admin")
  {
  }

  /** `loadUserProfile` receives the user's row: the query returned one, without error. */
  predicate ProfileArrived(reply: Fetch<Reply<Option<Obj>>>)
  {
    reply.Returned? && reply.value.error.None? && reply.value.data.Some?
  }

  class AuthStore {
    var user: Option<Obj>
    var session: Option<Session>
    var userProfile: Option<Obj>
    var isLoading: bool
    var isAuthenticated: bool
    var error: Option<string>
    var initialized: bool
    var listenerSetup: bool
    /** Auth-state listeners registered with the backend. */
    ghost var listeners: nat

    /** The listener is registered at most once, and only by an initialisation. */
    ghost predicate Valid()
      reads this
    {
      listeners == (if listenerSetup then 1 else 0) && (listenerSetup ==> initialized)
    }

    constructor ()
      ensures Valid()
      ensures user == None && session == None && userProfile == None
      ensures isLoading && !isAuthenticated && error == None
      ensures !initialized && !listenerSetup
    {
      user := None;
      session := None;
      userProfile := None;
      isLoading := true;
      isAuthenticated := false;
      error := None;
      initialized := false;
      listenerSetup := false;
      listeners := 0;
    }

    method SetUser(u: Option<Obj>)
      modifies this`user, this`isAuthenticated, this`error
      ensures user == u && isAuthenticated == u.Some? && error == None
    {
      user := u;
      isAuthenticated := u.Some?;
      error := None;
    }

    method SetSession(s: Option<Session>)
      modifies this`session, this`user, this`isAuthenticated, this`error
      ensures session == s && error == None
      ensures user == (if s.Some? then s.value.user else None)
      ensures isAuthenticated <==> user.Some?
    {
      session := s;
      user := if s.Some? then s.value.user else None;
      isAuthenticated := s.Some? && s.value.user.Some?;
      error := None;
    }

    method SetUserProfile(p: Option<Obj>)
      modifies this`userProfile
      ensures userProfile == p
    {
      userProfile := p;
    }

    method SetLoading(b: bool)
      modifies this`isLoading
      ensures isLoading == b
    {
      isLoading := b;
    }

    method SetError(e: Option<string>)
      modifies this`error
      ensures error == e
    {
      error := e;
    }

    method ClearError()
      modifies this`error
      ensures error == None
    {
      error := None;
    }

    /** The shared failure path: record the message, stop loading, resolve to `{ data: null, error }`. */
    method Fail<T>(e: AuthError) returns (r: ActionResult<T>)
      modifies this`error, this`isLoading
      ensures error == Some(e.message) && !isLoading
      ensures r == ActionResult(None, Some(e))
    {
      error := Some(e.message);
      isLoading := false;
      r := ActionResult(None, Some(e));
    }

    /** Handles a backend call that settled: a thrown error (with fallback message) or a reported one. */
    method FailWith<T>(reply: Fetch<Reply<T>>, fallback: string) returns (r: ActionResult<T>)
      requires reply.Threw? || reply.value.error.Some?
      modifies this`error, this`isLoading
      ensures reply.Threw? ==> r == ActionResult(None, Some(AuthError(ThrownMessage(reply.message, fallback))))
      ensures reply.Returned? ==> r == ActionResult(None, reply.value.error)
      ensures error == Some(r.error.value.message) && !isLoading
    {
      if reply.Threw? {
        r := Fail(AuthError(ThrownMessage(reply.message, fallback)));
      } else {
        r := Fail(reply.value.error.value);
      }
    }

    /** `loadUserProfile()`: keeps the profile row unless the signed-in user's row arrived. */
    method LoadUserProfile(reply: Fetch<Reply<Option<Obj>>>)
      modifies this`userProfile
      ensures user.Some? && ProfileArrived(reply) ==> userProfile == reply.value.data
      ensures !(user.Some? && ProfileArrived(reply)) ==> userProfile == old(userProfile)
    {
      if user.None? {
        return;
      }
      if reply.Returned? && reply.value.error.None? && reply.value.data.Some? {
        userProfile := reply.value.data;
      }
    }

    /** `signUp(email, password, userData)`; `sent` is the metadata handed to the backend. */
    method SignUp(userData: Obj, reply: Fetch<Reply<Credentials>>, profile: Fetch<Reply<Option<Obj>>>)
      returns (sent: Obj, r: ActionResult<Credentials>)
      modifies this`user, this`session, this`isAuthenticated, this`isLoading, this`error, this`userProfile
      ensures sent == SignUpMetadata(userData)
      ensures reply.Threw? || reply.value.error.Some? ==>
        && r.data.None? && r.error.Some? && error == Some(r.error.value.message) && !isLoading
        && user == old(user) && session == old(session) && userProfile == old(userProfile)
        && isAuthenticated == old(isAuthenticated)
      ensures reply.Threw? ==> r.error == Some(AuthError(ThrownMessage(reply.message, SignUpFailed)))
      ensures reply.Returned? && reply.value.error.Some? ==> r.error == reply.value.error
      ensures reply.Returned? && reply.value.error.None? ==>
        && r == ActionResult(Some(reply.value.data), None) && error == None
        && var d := reply.value.data;
           (d.user.Some? ==>
              && user == d.user && session == d.session && isAuthenticated && !isLoading
              && userProfile == (if ProfileArrived(profile) then profile.value.data else old(userProfile))) &&
           (d.user.None? ==>
              && user == old(user) && session == old(session) && isAuthenticated == old(isAuthenticated)
              && isLoading && userProfile == old(userProfile))
    {
      isLoading := true;
      error := None;
      sent := SignUpMetadata(userData);
      if reply.Threw? || reply.value.error.Some? {
        r := FailWith(reply, SignUpFailed);
        return;
      }
      var d := reply.value.data;
      if d.user.Some? {
        SignedIn(d, profile);
      }
      r := ActionResult(Some(d), None);
    }

    /** The success path shared by `signUp` and `signIn`: adopt the credentials, then load the profile. */
    method SignedIn(d: Credentials, profile: Fetch<Reply<Option<Obj>>>)
      modifies this`user, this`session, this`isAuthenticated, this`isLoading, this`userProfile
      ensures user == d.user && session == d.session && isAuthenticated && !isLoading
      ensures userProfile == (if d.user.Some? && ProfileArrived(profile) then profile.value.data else old(userProfile))
    {
      user := d.user;
      session := d.session;
      isAuthenticated := true;
      isLoading := false;
      LoadUserProfile(profile);
    }

    /** `signIn(email, password)`: on success the store counts as authenticated, whatever `data.user` is. */
    method SignIn(reply: Fetch<Reply<Credentials>>, profile: Fetch<Reply<Option<Obj>>>)
      returns (r: ActionResult<Credentials>)
      modifies this`user, this`session, this`isAuthenticated, this`isLoading, this`error, this`userProfile
      ensures reply.Threw? || reply.value.error.Some? ==>
        && r.data.None? && r.error.Some? && error == Some(r.error.value.message) && !isLoading
        && user == old(user) && session == old(session) && userProfile == old(userProfile)
        && isAuthenticated == old(isAuthenticated)
      ensures reply.Threw? ==> r.error == Some(AuthError(ThrownMessage(reply.message, SignInFailed)))
      ensures reply.Returned? && reply.value.error.Some? ==> r.error == reply.value.error
      ensures reply.Returned? && reply.value.error.None? ==>
        && r == ActionResult(Some(reply.value.data), None) && error == None
        && user == reply.value.data.user && session == reply.value.data.session
        && isAuthenticated && !isLoading
        && userProfile == (if user.Some? && ProfileArrived(profile) then profile.value.data else old(userProfile))
    {
      isLoading := true;
      error := None;
      if reply.Threw? || reply.value.error.Some? {
        r := FailWith(reply, SignInFailed);
        return;
      }
      var d := reply.value.data;
      SignedIn(d, profile);
      r := ActionResult(Some(d), None);
    }

    /** `signOut()`: resolves to the error, if any; the profile row is left as it was. */
    method SignOut(reply: Fetch<Option<AuthError>>) returns (r: Option<AuthError>)
      modifies this`user, this`session, this`isAuthenticated, this`isLoading, this`error
      ensures !isLoading
      ensures reply.Returned? && reply.value.None? ==>
        r == None && user == None && session == None && !isAuthenticated && error == None
      ensures reply.Returned? && reply.value.Some? ==>
        r == reply.value && error == Some(reply.value.value.message)
        && user == old(user) && session == old(session) && isAuthenticated == old(isAuthenticated)
      ensures reply.Threw? ==>
        r == Some(AuthError(ThrownMessage(reply.message, SignOutFailed))) && error == Some(r.value.message)
        && user == old(user) && session == old(session) && isAuthenticated == old(isAuthenticated)
    {
      isLoading := true;
      match reply {
        case Threw(m) =>
          var e := AuthError(ThrownMessage(m, SignOutFailed));
          error := Some(e.message);
          isLoading := false;
          r := Some(e);
        case Returned(Some(e)) =>
          error := Some(e.message);
          isLoading := false;
          r := Some(e);
        case Returned(None) =>
          user := None;
          session := None;
          isAuthenticated := false;
          isLoading := false;
          error := None;
          r := None;
      }
    }

    /** The actions that only report back: `resetPassword` and `getAllUsers`. */
    method Request<T>(reply: Fetch<Reply<T>>, fallback: string) returns (r: ActionResult<T>)
      modifies this`isLoading, this`error
      ensures !isLoading
      ensures reply.Returned? && reply.value.error.None? ==>
        r == ActionResult(Some(reply.value.data), None) && error == None
      ensures reply.Returned? && reply.value.error.Some? ==>
        r == ActionResult(None, reply.value.error) && error == Some(reply.value.error.value.message)
      ensures reply.Threw? ==>
        r == ActionResult(None, Some(AuthError(ThrownMessage(reply.message, fallback))))
        && error == Some(ThrownMessage(reply.message, fallback))
    {
      isLoading := true;
      error := None;
      if reply.Threw? || reply.value.error.Some? {
        r := FailWith(reply, fallback);
        return;
      }
      isLoading := false;
      r := ActionResult(Some(reply.value.data), None);
    }

    method ResetPassword(reply: Fetch<Reply<Json>>) returns (r: ActionResult<Json>)
      modifies this`isLoading, this`error
      ensures !isLoading
      ensures reply.Returned? && reply.value.error.None? ==> r == ActionResult(Some(reply.value.data), None) && error == None
      ensures reply.Returned? && reply.value.error.Some? ==>
        r == ActionResult(None, reply.value.error) && error == Some(reply.value.error.value.message)
      ensures reply.Threw? ==>
        r == ActionResult(None, Some(AuthError(ThrownMessage(reply.message, ResetFailed))))
        && error == Some(ThrownMessage(reply.message, ResetFailed))
    {
      r := Request(reply, ResetFailed);
    }

    method GetAllUsers(reply: Fetch<Reply<Json>>) returns (r: ActionResult<Json>)
      modifies this`isLoading, this`error
      ensures !isLoading
      ensures reply.Returned? && reply.value.error.None? ==> r == ActionResult(Some(reply.value.data), None) && error == None
      ensures reply.Returned? && reply.value.error.Some? ==>
        r == ActionResult(None, reply.value.error) && error == Some(reply.value.error.value.message)
      ensures reply.Threw? ==>
        r == ActionResult(None, Some(AuthError(ThrownMessage(reply.message, FetchUsersFailed))))
        && error == Some(ThrownMessage(reply.message, FetchUsersFailed))
    {
      r := Request(reply, FetchUsersFailed);
    }

    /**
     * `updateProfile(updates)`: the returned user's properties are spread over the local user's.
     * A reply without error whose `data` is `null` or `undefined` makes `data.user` throw a
     * TypeError, which the `catch` turns into a failure carrying that error's message.
     */
    method UpdateProfile(reply: Fetch<Reply<Json>>) returns (r: ActionResult<Json>)
      modifies this`user, this`isLoading, this`error
      ensures !isLoading
      ensures reply.Returned? && reply.value.error.None? && !IsNullish(reply.value.data) ==>
        && r == ActionResult(Some(reply.value.data), None) && error == None
        && user == Some(Spread(old(user).GetOr(map[]), Spreadable(Prop(reply.value.data, "user"))))
      ensures reply.Threw? || reply.value.error.Some? || IsNullish(reply.value.data) ==>
        r.data.None? && user == old(user) && r.error.Some? && error == Some(r.error.value.message)
      ensures reply.Threw? ==> r.error == Some(AuthError(ThrownMessage(reply.message, UpdateFailed)))
      ensures reply.Returned? && reply.value.error.None? && IsNullish(reply.value.data) ==>
        r.error == Some(AuthError(ReadUserError(reply.value.data)))
    {
      isLoading := true;
      error := None;
      if reply.Threw? || reply.value.error.Some? {
        r := FailWith(reply, UpdateFailed);
        return;
      }
      if IsNullish(reply.value.data) {
        var thrown: Fetch<Reply<Json>> := Threw(ReadUserError(reply.value.data));
        r := FailWith(thrown, UpdateFailed);
        return;
      }
      var current := if user.Some? then user.value else map[];
      user := Some(Spread(current, Spreadable(Prop(reply.value.data, "user"))));
      isLoading := false;
      r := ActionResult(Some(reply.value.data), None);
    }

    /** The common shape of `approveUser` and `updateUserRole`: one metadata field of the current user. */
    method UpdateOwnMetadata(userId: string, key: string, value: Json, reply: Fetch<Reply<Json>>, fallback: string)
      returns (r: ActionResult<Json>)
      modifies this`user, this`isLoading, this`error
      ensures !isLoading
      ensures reply.Returned? && reply.value.error.None? ==>
        && r == ActionResult(Some(reply.value.data), None) && error == None
        && (IsCurrentUser(old(user), userId) ==> user == Some(WithMetadata(old(user).value, key, value)))
        && (!IsCurrentUser(old(user), userId) ==> user == old(user))
      ensures reply.Threw? || reply.value.error.Some? ==>
        r.data.None? && user == old(user) && r.error.Some? && error == Some(r.error.value.message)
      ensures reply.Threw? ==> r.error == Some(AuthError(ThrownMessage(reply.message, fallback)))
      ensures reply.Returned? && reply.value.error.Some? ==> r.error == reply.value.error
    {
      isLoading := true;
      error := None;
      if reply.Threw? || reply.value.error.Some? {
        r := FailWith(reply, fallback);
        return;
      }
      if IsCurrentUser(user, userId) {
        user := Some(WithMetadata(user.value, key, value));
      }
      isLoading := false;
      r := ActionResult(Some(reply.value.data), None);
    }

    method ApproveUser(userId: string, reply: Fetch<Reply<Json>>) returns (r: ActionResult<Json>)
      modifies this`user, this`isLoading, this`error
      ensures !isLoading
      ensures reply.Returned? && reply.value.error.None? ==>
        && r == ActionResult(Some(reply.value.data), None) && error == None
        && (IsCurrentUser(old(user), userId) ==> user == Some(WithMetadata(old(user).value, "user_status", JStr("approved"))))
        && (!IsCurrentUser(old(user), userId) ==> user == old(user))
      ensures reply.Threw? || reply.value.error.Some? ==>
        r.data.None? && user == old(user) && r.error.Some? && error == Some(r.error.value.message)
      ensures reply.Threw? ==> r.error == Some(AuthError(ThrownMessage(reply.message, ApproveFailed)))
      ensures reply.Returned? && reply.value.error.Some? ==> r.error == reply.value.error
    {
      r := UpdateOwnMetadata(userId, "user_status", JStr("approved"), reply, ApproveFailed);
    }

    method UpdateUserRole(userId: string, role: Json, reply: Fetch<Reply<Json>>) returns (r: ActionResult<Json>)
      modifies this`user, this`isLoading, this`error
      ensures !isLoading
      ensures reply.Returned? && reply.value.error.None? ==>
        && r == ActionResult(Some(reply.value.data), None) && error == None
        && (IsCurrentUser(old(user), userId) ==> user == Some(WithMetadata(old(user).value, "role", role)))
        && (!IsCurrentUser(old(user), userId) ==> user == old(user))
      ensures reply.Threw? || reply.value.error.Some? ==>
        r.data.None? && user == old(user) && r.error.Some? && error == Some(r.error.value.message)
      ensures reply.Threw? ==> r.error == Some(AuthError(ThrownMessage(reply.message, RoleFailed)))
      ensures reply.Returned? && reply.value.error.Some? ==> r.error == reply.value.error
    {
      r := UpdateOwnMetadata(userId, "role", role, reply, RoleFailed);
    }

    /** Clears the signed-in state (the failure paths of `initialize`). */
    method Reset()
      modifies this`user, this`session, this`userProfile, this`isAuthenticated, this`isLoading
      ensures user == None && session == None && userProfile == None && !isAuthenticated && !isLoading
    {
      user := None;
      session := None;
      userProfile := None;
      isAuthenticated := false;
      isLoading := false;
    }

    /**
     * `initialize()`: runs once; adopts the stored session and registers the
     * auth-state listener the first time it succeeds.
     */
    method Initialize(reply: Fetch<Reply<Option<Session>>>, profile: Fetch<Reply<Option<Obj>>>)
      requires Valid()
      modifies this`user, this`session, this`userProfile, this`isAuthenticated, this`isLoading,
               this`initialized, this`listenerSetup, this`listeners
      ensures Valid()
      ensures old(initialized) ==>
        && user == old(user) && session == old(session) && userProfile == old(userProfile)
        && isAuthenticated == old(isAuthenticated) && isLoading == old(isLoading)
        && initialized && listenerSetup == old(listenerSetup) && listeners == old(listeners)
      ensures !old(initialized) ==> initialized && !isLoading
      ensures !old(initialized) && (reply.Threw? || reply.value.error.Some?) ==>
        && user == None && session == None && userProfile == None && !isAuthenticated
        && listenerSetup == old(listenerSetup) && listeners == old(listeners)
      ensures !old(initialized) && reply.Returned? && reply.value.error.None? ==>
        && session == reply.value.data
        && user == (if session.Some? then session.value.user else None)
        && (isAuthenticated <==> user.Some?)
        && userProfile == (if user.Some? && ProfileArrived(profile) then profile.value.data else old(userProfile))
        && listenerSetup && listeners == 1
    {
      if initialized {
        return;
      }
      var wasSetUp := listenerSetup;
      isLoading := true;
      initialized := true;
      if reply.Threw? || reply.value.error.Some? {
        Reset();
        return;
      }
      var s := reply.value.data;
      user := if s.Some? then s.value.user else None;
      session := s;
      isAuthenticated := s.Some? && s.value.user.Some?;
      isLoading := false;
      if user.Some? {
        LoadUserProfile(profile);
      }
      if !wasSetUp {
        listeners := listeners + 1;
        listenerSetup := true;
      }
    }

    /** The auth-state listener, called by the backend with the new session. */
    method OnAuthStateChange(s: Option<Session>, profile: Fetch<Reply<Option<Obj>>>)
      requires listenerSetup
      modifies this`user, this`session, this`userProfile, this`isAuthenticated, this`isLoading
      ensures session == s && !isLoading
      ensures user == (if s.Some? then s.value.user else None)
      ensures isAuthenticated <==> user.Some?
      ensures user.None? ==> userProfile == None
      ensures user.Some? && !ProfileArrived(profile) ==> userProfile == old(userProfile)
      ensures user.Some? && ProfileArrived(profile) ==> userProfile == profile.value.data
    {
      user := if s.Some? then s.value.user else None;
      session := s;
      isAuthenticated := s.Some? && s.value.user.Some?;
      isLoading := false;
      if user.Some? {
        LoadUserProfile(profile);
      } else {
        userProfile := None;
      }
    }

    /** `getUserProfile()`. */
    function GetUserProfile(): (r: Option<ProfileView>)
      reads this
      ensures r.None? <==> user.None?
      ensures r.Some? ==> r.value.id == Get(user.value, "id") && r.value.createdAt == Get(user.value, "created_at")
      ensures r.Some? ==> r.value == ProfileOf(user.value)
    {
      if user.Some? then Some(ProfileOf(user.value)) else None
    }

    function IsAdmin(): (b: bool)
      reads this
      ensures b ==> userProfile.Some? && IsApproved()
      ensures userProfile.None? ==> !b
    {
      AdminIsApproved(userProfile);
      IsAdminProfile(userProfile)
    }

    function IsApproved(): (b: bool)
      reads this
      ensures b <==> userProfile.Some? && Get(userProfile.value, "status") == JStr("approved")
    {
      IsApprovedProfile(userProfile)
    }
  }

  /** Initialising twice registers the auth-state listener at most once, and the second call leaves every field of the store as it was. */
  method InitializeTwice(first: Fetch<Reply<Option<Session>>>, second: Fetch<Reply<Option<Session>>>,
                         profile: Fetch<Reply<Option<Obj>>>)
    returns (registered: bool, second_changed: bool, ghost listenerCount: nat)
    ensures registered == (first.Returned? && first.value.error.None?)
    ensures !second_changed
    ensures listenerCount == if registered then 1 else 0
  {
    var store := new AuthStore();
    store.Initialize(first, profile);
    registered := store.listenerSetup;
    var user, session, userProfile := store.user, store.session, store.userProfile;
    var authenticated, loading, failure := store.isAuthenticated, store.isLoading, store.error;
    var initialized, listenerSetup := store.initialized, store.listenerSetup;
    store.Initialize(second, profile);
    second_changed :=
      || store.user != user || store.session != session || store.userProfile != userProfile
      || store.isAuthenticated != authenticated || store.isLoading != loading || store.error != failure
      || store.initialized != initialized || store.listenerSetup != listenerSetup;
    listenerCount := store.listeners;
  }
}
