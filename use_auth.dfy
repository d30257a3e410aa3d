/**
 * The authentication provider: the four pieces of state it publishes
 * (`user`, `session`, `studentProfile`, `loading`) and how each event
 * changes them. Remote calls are recorded in a call log and their results
 * are parameters; the `setTimeout(..., 0)` that defers the profile lookup
 * after an auth-state change is an explicit queue of timers.
 *
 * The state transitions are pure functions over `AuthState`; the class
 * `AuthProvider` performs them field by field and its methods are tied to
 * those functions. Completed profile lookups are written whatever user
 * they were issued for: nothing discards a stale result.
 */
module AuthHook {
  import opened Wrappers

  datatype User = User(id: string, email: string)

  datatype Session = Session(accessToken: string, user: User)

  /** A row of `student_profiles`. */
  datatype StudentProfile = StudentProfile(
    id: string,
    userId: string,
    fullName: string,
    studentId: string,
    email: string,
    phone: Option<string>,
    createdAt: string,
    updatedAt: string)

  /** The row `signUp` inserts into `student_profiles`. */
  datatype ProfileInsert = ProfileInsert(
    userId: string,
    fullName: string,
    studentId: string,
    email: string,
    phone: Option<string>)

  datatype AuthError = AuthError(message: string)

  /** The `{ data, error }` that `select(...).eq("user_id", id).single()` resolves with. */
  datatype ProfileReply = ProfileReply(data: Option<StudentProfile>, error: Option<AuthError>)

  /** The `{ data: { user }, error }` that `auth.signUp` resolves with. */
  datatype SignUpReply = SignUpReply(user: Option<User>, error: Option<AuthError>)

  /** A call issued to the remote authentication and data service. */
  datatype RemoteCall =
    | SubscribeAuthChanges
    | GetSession
    | SelectProfile(userId: string)
    | AuthSignUp(email: string, password: string, redirectTo: string)
    | InsertProfile(row: ProfileInsert)
    | AuthSignIn(email: string, password: string)
    | AuthSignOut

  /**
   * The provider's state: the four published fields, the user ids of the
   * deferred lookups whose timer has not fired, the user ids of the lookups
   * issued and not yet settled, and the log of remote calls.
   */
  datatype AuthState = AuthState(
    user: Option<User>,
    session: Option<Session>,
    studentProfile: Option<StudentProfile>,
    loading: bool,
    scheduled: seq<string>,
    inFlight: seq<string>,
    calls: seq<RemoteCall>)

  /** `session?.user ?? null`. */
  function UserOf(session: Option<Session>): Option<User>
  {
    if session.Some? then Some(session.value.user) else None
  }

  /** The published user is the user of the published session. */
  predicate Consistent(s: AuthState)
  {
    s.user == UserOf(s.session)
  }

  /** Mounting: every field empty, `loading` true, the listener subscribed and `getSession` issued. */
  function Initial(): (r: AuthState)
    ensures Consistent(r) && r.loading && r.user == None && r.studentProfile == None
    ensures r.scheduled == [] && r.inFlight == []
  {
    AuthState(None, None, None, true, [], [], [SubscribeAuthChanges, GetSession])
  }

  /**
   * The auth-state-change callback: publish the session and its user; with a
   * user, schedule a deferred profile lookup, otherwise clear the profile;
   * then clear `loading`. No remote call is issued from the callback.
   */
  function AuthChanged(s: AuthState, session: Option<Session>): (r: AuthState)
    ensures Consistent(r) && !r.loading
    ensures r.calls == s.calls && r.inFlight == s.inFlight
    ensures r.studentProfile == None || r.studentProfile == s.studentProfile
  {
    s.(session := session,
       user := UserOf(session),
       scheduled := if session.Some? then s.scheduled + [session.value.user.id] else s.scheduled,
       studentProfile := if session.Some? then s.studentProfile else None,
       loading := false)
  }

  /**
   * The `getSession` continuation: publish the session and its user, issue
   * the profile lookup at once when there is a user, clear `loading`. It
   * leaves the profile alone.
   */
  function InitialSessionResolved(s: AuthState, session: Option<Session>): (r: AuthState)
    ensures Consistent(r) && !r.loading
    ensures r.studentProfile == s.studentProfile && r.scheduled == s.scheduled
    ensures |r.calls| - |s.calls| == |r.inFlight| - |s.inFlight| <= 1 && s.calls <= r.calls
  {
    s.(session := session,
       user := UserOf(session),
       inFlight := if session.Some? then s.inFlight + [session.value.user.id] else s.inFlight,
       calls := if session.Some? then s.calls + [SelectProfile(session.value.user.id)] else s.calls,
       loading := false)
  }

  /**
   * The oldest pending timer fires: `fetchStudentProfile` issues the lookup
   * for its user, which leaves the timer queue and goes in flight.
   */
  function TimerFired(s: AuthState): (r: AuthState)
    requires s.scheduled != []
    ensures |r.scheduled| + |r.inFlight| == |s.scheduled| + |s.inFlight|
    ensures |r.calls| - |s.calls| == |r.inFlight| - |s.inFlight| == 1 && s.calls < r.calls
    ensures r.scheduled == s.scheduled[1..] && r.inFlight == s.inFlight + [s.scheduled[0]]
    ensures r.calls == s.calls + [SelectProfile(s.scheduled[0])]
    ensures r.(scheduled := s.scheduled, inFlight := s.inFlight, calls := s.calls) == s
  {
    s.(scheduled := s.scheduled[1..],
       inFlight := s.inFlight + [s.scheduled[0]],
       calls := s.calls + [SelectProfile(s.scheduled[0])])
  }

  /** The sequence without its element at index `k`. */
  function RemoveAt<T>(xs: seq<T>, k: nat): seq<T>
    requires k < |xs|
  {
    xs[..k] + xs[k + 1..]
  }

  /**
   * The lookup `inFlight[k]` settles with `reply`: the profile is replaced
   * when data came back without an error, whoever the current user is.
   */
  function FetchCompleted(s: AuthState, k: nat, reply: ProfileReply): (r: AuthState)
    requires k < |s.inFlight|
    ensures |r.inFlight| == |s.inFlight| - 1
    ensures multiset(r.inFlight) + multiset{s.inFlight[k]} == multiset(s.inFlight)
    ensures r.(inFlight := s.inFlight, studentProfile := s.studentProfile) == s
    ensures r.studentProfile != s.studentProfile ==> r.studentProfile == reply.data && reply.data.Some?
  {
    assert s.inFlight == s.inFlight[..k] + [s.inFlight[k]] + s.inFlight[k + 1..];
    s.(inFlight := RemoveAt(s.inFlight, k),
       studentProfile := if reply.data.Some? && reply.error.None? then reply.data else s.studentProfile)
  }

  /** `phone || null`: an absent or empty phone is stored as null. */
  function PhoneColumn(phone: Option<string>): Option<string>
  {
    if phone.Some? && phone.value != "" then phone else None
  }

  /** The profile row `signUp` inserts for the new user `userId`. */
  function ProfileRow(userId: string, fullName: string, studentId: string, email: string,
                      phone: Option<string>): ProfileInsert
  {
    ProfileInsert(userId, fullName, studentId, email, PhoneColumn(phone))
  }

  /**
   * `signUp`: register (with the page origin as redirect); an error is
   * returned as it is; with a new user, insert the profile row and return
   * the insert's error, if any; otherwise return no error. A rejected call
   * propagates. No published field changes.
   */
  function SignedUp(s: AuthState, email: string, password: string, fullName: string, studentId: string,
                  phone: Option<string>, origin: string,
                  authReply: Remote<SignUpReply>, insertReply: Remote<Option<AuthError>>)
    : (r: (AuthState, Remote<Option<AuthError>>))
    ensures r.0.(calls := s.calls) == s && s.calls < r.0.calls
    ensures r.1 == Resolved(None) ==> authReply.Resolved? && authReply.value.error.None?
    ensures authReply.Rejected? ==> r.1.Rejected?
  {
    var s1 := s.(calls := s.calls + [AuthSignUp(email, password, origin)]);
    if authReply.Rejected? then (s1, Rejected)
    else if authReply.value.error.Some? then (s1, Resolved(authReply.value.error))
    else if authReply.value.user.None? then (s1, Resolved(None))
    else
      var row := ProfileRow(authReply.value.user.value.id, fullName, studentId, email, phone);
      var s2 := s1.(calls := s1.calls + [InsertProfile(row)]);
      if insertReply.Rejected? then (s2, Rejected)
      else (s2, Resolved(insertReply.value))
  }

  /** `signIn`: one remote call whose error is handed back unchanged; nothing published changes. */
  function SignedIn(s: AuthState, email: string, password: string, reply: Remote<Option<AuthError>>)
    : (r: (AuthState, Remote<Option<AuthError>>))
    ensures r.1 == reply
    ensures r.0.(calls := s.calls) == s && |r.0.calls| == |s.calls| + 1
  {
    (s.(calls := s.calls + [AuthSignIn(email, password)]), reply)
  }

  /**
   * `signOut`: once the remote call has returned (its error is ignored),
   * clear user, session and profile; if it rejects, nothing is cleared.
   */
  function SignedOut(s: AuthState, reply: Remote<Option<AuthError>>): (r: (AuthState, Remote<()>))
    ensures r.1.Resolved? <==> reply.Resolved?
    ensures Consistent(s) ==> Consistent(r.0)
    ensures r.0.loading == s.loading && r.0.scheduled == s.scheduled && r.0.inFlight == s.inFlight
  {
    var s1 := s.(calls := s.calls + [AuthSignOut]);
    if reply.Rejected? then (s1, Rejected)
    else (s1.(user := None, session := None, studentProfile := None), Resolved(()))
  }

  /** `useAuth`: the provider's value, or the error thrown outside a provider. */
  function UseAuth<T>(context: Option<T>): (r: Result<T, string>)
    ensures r.Success? <==> context.Some?
    ensures r.Success? ==> r.value == context.value
    ensures r.Failure? ==> r.error == "useAuth must be used within an AuthProvider"
  {
    match context
    case Some(value) => Success(value)
    case None => Failure("useAuth must be used within an AuthProvider")
  }

  /** Anything that can happen to the provider, with the result of the remote call it involves. */
  datatype Event =
    | AuthChange(session: Option<Session>)
    | InitialSession(session: Option<Session>)
    | TimerFires
    | FetchCompletes(k: nat, profileReply: ProfileReply)
    | SignUpCall(email: string, password: string, fullName: string, studentId: string,
                 phone: Option<string>, origin: string,
                 authReply: Remote<SignUpReply>, insertReply: Remote<Option<AuthError>>)
    | SignInCall(email: string, password: string, signInReply: Remote<Option<AuthError>>)
    | SignOutCall(signOutReply: Remote<Option<AuthError>>)

  /** One event's effect. A timer with none pending, or a lookup that was never issued, changes nothing. */
  function Step(s: AuthState, e: Event): AuthState
  {
    match e
    case AuthChange(session) => AuthChanged(s, session)
    case InitialSession(session) => InitialSessionResolved(s, session)
    case TimerFires => if s.scheduled != [] then TimerFired(s) else s
    case FetchCompletes(k, reply) => if k < |s.inFlight| then FetchCompleted(s, k, reply) else s
    case SignUpCall(email, password, fullName, studentId, phone, origin, authReply, insertReply) =>
      SignedUp(s, email, password, fullName, studentId, phone, origin, authReply, insertReply).0
    case SignInCall(email, password, reply) => SignedIn(s, email, password, reply).0
    case SignOutCall(reply) => SignedOut(s, reply).0
  }

  /** The state after the events `es`, in order. */
  function Run(s: AuthState, es: seq<Event>): AuthState
    decreases |es|
  {
    if es == [] then s else Run(Step(s, es[0]), es[1..])
  }

  /** The two events that settle the initial resolution. */
  predicate Resolves(e: Event)
  {
    e.AuthChange? || e.InitialSession?
  }

  // ---------------------------------------------------------------------------
  // Properties of single events

  /** An auth change without a session clears session, user and profile and ends loading. */
  lemma AuthChangeSignedOut(s: AuthState)
    ensures var t := AuthChanged(s, None);
      t.session == None && t.user == None && t.studentProfile == None && !t.loading &&
      t.scheduled == s.scheduled && t.inFlight == s.inFlight && t.calls == s.calls
  {
  }

  /**
   * An auth change with a session publishes it and its user and ends loading;
   * it only schedules a lookup for that user and issues no remote call itself.
   */
  lemma AuthChangeSignedIn(s: AuthState, session: Session)
    ensures var t := AuthChanged(s, Some(session));
      t.session == Some(session) && t.user == Some(session.user) && !t.loading &&
      t.studentProfile == s.studentProfile &&
      t.scheduled == s.scheduled + [session.user.id] &&
      t.inFlight == s.inFlight && t.calls == s.calls
  {
  }

  /**
   * The timer an auth change sets up, once it fires, looks up the profile of
   * the user that auth change published, and of no one else; the published
   * fields stay as the auth change left them.
   */
  lemma TimerFiredEffect(s: AuthState, session: Session)
    requires s.scheduled == []
    ensures var t := TimerFired(AuthChanged(s, Some(session)));
      t.calls == s.calls + [SelectProfile(session.user.id)] &&
      t.inFlight == s.inFlight + [session.user.id] && t.scheduled == [] &&
      t.session == Some(session) && t.user == Some(session.user) && !t.loading &&
      t.studentProfile == s.studentProfile
  {
  }

  /**
   * The initial session result publishes the session and its user, issues a
   * lookup at once when there is a user, ends loading, and never clears the profile.
   */
  lemma InitialSessionEffect(s: AuthState, session: Option<Session>)
    ensures var t := InitialSessionResolved(s, session);
      t.session == session && t.user == UserOf(session) && !t.loading &&
      t.studentProfile == s.studentProfile && t.scheduled == s.scheduled &&
      (session.Some? ==> t.calls == s.calls + [SelectProfile(session.value.user.id)] &&
                         t.inFlight == s.inFlight + [session.value.user.id]) &&
      (session.None? ==> t.calls == s.calls && t.inFlight == s.inFlight)
  {
  }

  /**
   * A settled lookup replaces the profile exactly when data came back with no
   * error, and then with that data, even when it was issued for a user who is
   * no longer the published one; nothing else published changes.
   */
  lemma FetchCompletedEffect(s: AuthState, k: nat, reply: ProfileReply)
    requires k < |s.inFlight|
    ensures var t := FetchCompleted(s, k, reply);
      (t.studentProfile != s.studentProfile ==> reply.data.Some? && reply.error.None?) &&
      (reply.data.Some? && reply.error.None? ==> t.studentProfile == reply.data) &&
      t.user == s.user && t.session == s.session && t.loading == s.loading &&
      multiset(t.inFlight) + multiset{s.inFlight[k]} == multiset(s.inFlight)
  {
    var t := FetchCompleted(s, k, reply);
    assert s.inFlight == s.inFlight[..k] + [s.inFlight[k]] + s.inFlight[k + 1..];
  }

  /**
   * `signUp`'s result: the registration error when there is one (and no
   * insert); else the insert's error when a user came back and the insert
   * failed (the new account stays); else no error, also when no user came back.
   * The inserted row carries the new user's id, the fields as given, and a
   * null phone for an absent or empty one. Nothing published changes.
   */
  lemma SignUpOutcome(s: AuthState, email: string, password: string, fullName: string, studentId: string,
                      phone: Option<string>, origin: string,
                      authReply: Remote<SignUpReply>, insertReply: Remote<Option<AuthError>>)
    ensures var (t, r) := SignedUp(s, email, password, fullName, studentId, phone, origin, authReply, insertReply);
      t.user == s.user && t.session == s.session && t.studentProfile == s.studentProfile &&
      t.loading == s.loading && t.scheduled == s.scheduled && t.inFlight == s.inFlight &&
      (authReply.Rejected? ==> r.Rejected? && t.calls == s.calls + [AuthSignUp(email, password, origin)]) &&
      (authReply.Resolved? && authReply.value.error.Some? ==>
         r == Resolved(authReply.value.error) && t.calls == s.calls + [AuthSignUp(email, password, origin)]) &&
      (authReply.Resolved? && authReply.value.error.None? && authReply.value.user.None? ==>
         r == Resolved(None) && t.calls == s.calls + [AuthSignUp(email, password, origin)]) &&
      (authReply.Resolved? && authReply.value.error.None? && authReply.value.user.Some? ==>
         t.calls == s.calls + [AuthSignUp(email, password, origin),
                               InsertProfile(ProfileInsert(authReply.value.user.value.id, fullName, studentId,
                                                           email, PhoneColumn(phone)))] &&
         r == (if insertReply.Rejected? then Rejected else Resolved(insertReply.value)))
  {
  }

  /** The stored phone is null exactly when the given one is absent or empty. */
  lemma PhoneColumnNull(phone: Option<string>)
    ensures PhoneColumn(phone).None? <==> phone.None? || phone.value == ""
    ensures PhoneColumn(phone).Some? ==> PhoneColumn(phone) == phone
  {
  }

  /** `signIn` hands back the remote result unchanged and changes no published field. */
  lemma SignInEffect(s: AuthState, email: string, password: string, reply: Remote<Option<AuthError>>)
    ensures var (t, r) := SignedIn(s, email, password, reply);
      r == reply && t == s.(calls := s.calls + [AuthSignIn(email, password)])
  {
  }

  /** After the remote `signOut` returns, user, session and profile are all null; loading is untouched. */
  lemma SignOutEffect(s: AuthState, reply: Remote<Option<AuthError>>)
    ensures var (t, r) := SignedOut(s, reply);
      (reply.Resolved? ==> r.Resolved? && t.user == None && t.session == None && t.studentProfile == None) &&
      (reply.Rejected? ==> r.Rejected? && t.user == s.user && t.session == s.session &&
                           t.studentProfile == s.studentProfile) &&
      t.loading == s.loading && t.calls == s.calls + [AuthSignOut]
  {
  }

  /**
   * The profile changes only through a settled lookup with data (to that data),
   * a signed-out auth change or a completed sign out (both to null).
   */
  lemma ProfileChangesOnlyBy(s: AuthState, e: Event)
    ensures var t := Step(s, e);
      t.studentProfile != s.studentProfile ==>
        (e.FetchCompletes? && e.profileReply.data.Some? && e.profileReply.error.None? && t.studentProfile == e.profileReply.data) ||
        (t.studentProfile == None && (e == AuthChange(None) || (e.SignOutCall? && e.signOutReply.Resolved?)))
  {
  }

  /** Every event keeps the published user equal to the published session's user. */
  lemma StepConsistent(s: AuthState, e: Event)
    requires Consistent(s)
    ensures Consistent(Step(s, e))
  {
  }

  // ---------------------------------------------------------------------------
  // Properties of event sequences

  /** Every sequence of events keeps the published user equal to the published session's user. */
  lemma {:induction false} RunConsistent(s: AuthState, es: seq<Event>)
    requires Consistent(s)
    ensures Consistent(Run(s, es))
    decreases |es|
  {
    if es != [] {
      StepConsistent(s, es[0]);
      RunConsistent(Step(s, es[0]), es[1..]);
    }
  }

  /** `loading` is never set back to true: once false, it stays false for every later event. */
  lemma {:induction false} LoadingNeverReturns(s: AuthState, es: seq<Event>)
    ensures Run(s, es).loading ==> s.loading
    decreases |es|
  {
    if es != [] {
      LoadingNeverReturns(Step(s, es[0]), es[1..]);
    }
  }

  /**
   * `loading` stays true exactly until the first auth change or initial
   * session result: it is true after `es` iff `s` was loading and no event of `es` is one of those.
   */
  lemma {:induction false} LoadingUntilResolved(s: AuthState, es: seq<Event>)
    ensures Run(s, es).loading <==> s.loading && forall i :: 0 <= i < |es| ==> !Resolves(es[i])
    decreases |es|
  {
    if es != [] {
      LoadingUntilResolved(Step(s, es[0]), es[1..]);
      assert forall i :: 1 <= i < |es| ==> es[i] == es[1..][i - 1];
      LoadingNeverReturns(Step(s, es[0]), es[1..]);
    }
  }

  // ---------------------------------------------------------------------------
  // Scenarios

  /** A fresh load with no stored session ends the resolution with nobody signed in. */
  lemma FreshLoadWithoutSession()
    ensures var t := Run(Initial(), [InitialSession(None)]);
      !t.loading && t.user == None && t.session == None && t.studentProfile == None
  {
  }

  /**
   * Signing in: the auth change publishes user `U1`, its deferred timer
   * issues the lookup for `U1`, and the lookup's row becomes the profile.
   */
  lemma SignInThenProfile(session: Session, profile: StudentProfile)
    ensures var t := Run(Initial(), [AuthChange(Some(session)), TimerFires,
                                     FetchCompletes(0, ProfileReply(Some(profile), None))]);
      !t.loading && t.user == Some(session.user) && t.studentProfile == Some(profile) &&
      t.calls == Initial().calls + [SelectProfile(session.user.id)] && t.inFlight == [] && t.scheduled == []
  {
    var reply := ProfileReply(Some(profile), None);
    var es := [AuthChange(Some(session)), TimerFires, FetchCompletes(0, reply)];
    var s1 := AuthChanged(Initial(), Some(session));
    var s2 := TimerFired(s1);
    var s3 := FetchCompleted(s2, 0, reply);
    assert es[1..] == [TimerFires, FetchCompletes(0, reply)] && es[1..][1..] == [FetchCompletes(0, reply)];
    assert Run(Initial(), es) == Run(s1, es[1..]);
    assert Run(s1, es[1..]) == Run(s2, es[1..][1..]);
    assert Run(s2, es[1..][1..]) == Run(s3, []);
    assert s2.inFlight == [session.user.id];
  }

  /**
   * A lookup issued for a user who then signs out still writes its profile:
   * afterwards nobody is signed in, yet a profile is published.
   */
  lemma StaleProfileIsKept(session: Session, profile: StudentProfile)
    ensures var t := Run(Initial(), [InitialSession(Some(session)), SignOutCall(Resolved(None)),
                                     FetchCompletes(0, ProfileReply(Some(profile), None))]);
      t.user == None && t.session == None && t.studentProfile == Some(profile)
  {
    var reply := ProfileReply(Some(profile), None);
    var es := [InitialSession(Some(session)), SignOutCall(Resolved(None)), FetchCompletes(0, reply)];
    var s1 := InitialSessionResolved(Initial(), Some(session));
    var s2 := SignedOut(s1, Resolved(None)).0;
    assert s1.inFlight == [session.user.id] && s2.inFlight == s1.inFlight;
    var s3 := FetchCompleted(s2, 0, reply);
    assert es[1..] == [SignOutCall(Resolved(None)), FetchCompletes(0, reply)] && es[1..][1..] == [FetchCompletes(0, reply)];
    assert Run(Initial(), es) == Run(s1, es[1..]);
    assert Run(s1, es[1..]) == Run(s2, es[1..][1..]);
    assert Run(s2, es[1..][1..]) == Run(s3, []);
  }

  /** The provider component's state. */
  class AuthProvider {
    var user: Option<User>
    var session: Option<Session>
    var studentProfile: Option<StudentProfile>
    var loading: bool
    var scheduled: seq<string>
    var inFlight: seq<string>
    var calls: seq<RemoteCall>

    function State(): AuthState
      reads this
    {
      AuthState(user, session, studentProfile, loading, scheduled, inFlight, calls)
    }

    /** Mounting the provider: initial state, listener subscribed, `getSession` issued. */
    constructor ()
      ensures State() == Initial()
    {
      user := None;
      session := None;
      studentProfile := None;
      loading := true;
      scheduled := [];
      inFlight := [];
      calls := [SubscribeAuthChanges, GetSession];
    }

    /** The `onAuthStateChange` callback. */
    method OnAuthStateChange(newSession: Option<Session>)
      modifies this
      ensures State() == AuthChanged(old(State()), newSession)
    {
      session := newSession;
      user := if newSession.Some? then Some(newSession.value.user) else None;
      if newSession.Some? {
        scheduled := scheduled + [newSession.value.user.id];
      } else {
        studentProfile := None;
      }
      loading := false;
    }

    /** The `getSession().then(...)` continuation. */
    method OnInitialSession(newSession: Option<Session>)
      modifies this
      ensures State() == InitialSessionResolved(old(State()), newSession)
    {
      session := newSession;
      user := if newSession.Some? then Some(newSession.value.user) else None;
      if newSession.Some? {
        FetchStudentProfile(newSession.value.user.id);
      }
      loading := false;
    }

    /** The first half of `fetchStudentProfile`: issue the lookup for `userId`. */
    method FetchStudentProfile(userId: string)
      modifies this
      ensures State() == old(State()).(inFlight := old(inFlight) + [userId],
                                       calls := old(calls) + [SelectProfile(userId)])
    {
      calls := calls + [SelectProfile(userId)];
      inFlight := inFlight + [userId];
    }

    /** The oldest pending `setTimeout(..., 0)` fires. */
    method FireTimer()
      requires scheduled != []
      modifies this
      ensures State() == TimerFired(old(State()))
    {
      var userId := scheduled[0];
      scheduled := scheduled[1..];
      FetchStudentProfile(userId);
    }

    /** The second half of `fetchStudentProfile`: the lookup `inFlight[k]` settles with `reply`. */
    method CompleteFetch(k: nat, reply: ProfileReply)
      requires k < |inFlight|
      modifies this
      ensures State() == FetchCompleted(old(State()), k, reply)
    {
      inFlight := inFlight[..k] + inFlight[k + 1..];
      if reply.data.Some? && reply.error.None? {
        studentProfile := reply.data;
      }
    }

    /** `signUp`, the remote calls settling with `authReply` and `insertReply`. */
    method SignUp(email: string, password: string, fullName: string, studentId: string,
                  phone: Option<string>, origin: string,
                  authReply: Remote<SignUpReply>, insertReply: Remote<Option<AuthError>>)
      returns (r: Remote<Option<AuthError>>)
      modifies this
      ensures (State(), r) ==
        SignedUp(old(State()), email, password, fullName, studentId, phone, origin, authReply, insertReply)
    {
      calls := calls + [AuthSignUp(email, password, origin)];
      if authReply.Rejected? {
        return Rejected;
      }
      if authReply.value.error.Some? {
        return Resolved(authReply.value.error);
      }
      if authReply.value.user.Some? {
        calls := calls + [InsertProfile(ProfileRow(authReply.value.user.value.id, fullName, studentId,
                                                   email, phone))];
        if insertReply.Rejected? {
          return Rejected;
        }
        if insertReply.value.Some? {
          return Resolved(insertReply.value);
        }
      }
      return Resolved(None);
    }

    /** `signIn`, the remote call settling with `reply`. */
    method SignIn(email: string, password: string, reply: Remote<Option<AuthError>>)
      returns (r: Remote<Option<AuthError>>)
      modifies this
      ensures (State(), r) == SignedIn(old(State()), email, password, reply)
    {
      calls := calls + [AuthSignIn(email, password)];
      r := reply;
    }

    /** `signOut`, the remote call settling with `reply`. */
    method SignOut(reply: Remote<Option<AuthError>>) returns (r: Remote<()>)
      modifies this
      ensures (State(), r) == SignedOut(old(State()), reply)
    {
      calls := calls + [AuthSignOut];
      if reply.Rejected? {
        return Rejected;
      }
      user := None;
      session := None;
      studentProfile := None;
      return Resolved(());
    }
  }
}
