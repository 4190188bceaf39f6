/** The credential forms of the landing page: the password-reset form and the
    sign-in / sign-up form. Each submit handler sets `loading`, clears `error`,
    awaits the identity provider, records the outcome and clears `loading`.
    The await splits every handler into two events: the submit, which issues
    the provider call, and the provider's answer, which resumes the handler. */
module Credentials {
  import opened Common

  const DashboardPath := "/dashboard"
  const AlreadyRegisteredMessage := "Diese E-Mail-Adresse ist bereits registriert."

  // ---------------------------------------------------------------------------
  // ForgotPasswordComponent
  // ---------------------------------------------------------------------------

  datatype ResetState = ResetState(loading: bool, error: Option<string>, success: bool)

  const ResetInitial := ResetState(false, None, false)

  datatype ResetEvent =
    | ResetSubmitted               // the reset form is submitted
    | ResetAnswered(reply: Reply)  // resetPasswordForEmail resolves

  /** Whether the event can happen in state `s`: the submit button is disabled
      while loading and the form is replaced by the confirmation once `success`
      holds; an answer arrives only while the handler awaits it. */
  predicate ResetAccepts(s: ResetState, e: ResetEvent) {
    match e
    case ResetSubmitted => !s.loading && !s.success
    case ResetAnswered(_) => s.loading
  }

  function ResetStep(s: ResetState, e: ResetEvent): (r: ResetState)
    ensures !ResetAccepts(s, e) ==> r == s
    ensures r.loading <==> (if ResetAccepts(s, e) then e.ResetSubmitted? else s.loading)
    ensures ResetAccepts(s, e) && e.ResetSubmitted? ==> r.error.None? && r.success == s.success
  {
    if !ResetAccepts(s, e) then s
    else match e
      case ResetSubmitted => s.(loading := true, error := None)
      case ResetAnswered(reply) =>
        if reply.ErrorReply? then s.(loading := false, error := Some(reply.message))
        else s.(loading := false, success := true)
  }

  /** handleResetPassword run from an idle form to the provider's answer. */
  function ResetPassword(s: ResetState, reply: Reply): (r: ResetState)
    requires !s.loading && !s.success
    ensures !r.loading
    ensures r.success <==> reply.OkReply?
    ensures reply.ErrorReply? ==> r.error == Some(reply.message)
    ensures reply.OkReply? ==> r.error == None
  {
    ResetStep(ResetStep(s, ResetSubmitted), ResetAnswered(reply))
  }

  function ResetRun(s: ResetState, events: seq<ResetEvent>): (final: ResetState)
    decreases |events|
  {
    if events == [] then s else ResetRun(ResetStep(s, events[0]), events[1..])
  }

  /** The number of provider calls a sequence of events issues. */
  function ResetCalls(s: ResetState, events: seq<ResetEvent>): (calls: nat)
    decreases |events|
  {
    if events == [] then 0
    else (if ResetAccepts(s, events[0]) && events[0].ResetSubmitted? then 1 else 0)
         + ResetCalls(ResetStep(s, events[0]), events[1..])
  }

  /** The number of provider answers a sequence of events resumes a handler with. */
  function ResetAnswers(s: ResetState, events: seq<ResetEvent>): (answers: nat)
    decreases |events|
  {
    if events == [] then 0
    else (if ResetAccepts(s, events[0]) && events[0].ResetAnswered? then 1 else 0)
         + ResetAnswers(ResetStep(s, events[0]), events[1..])
  }

  /** Because the button is disabled while `loading`, calls and answers
      alternate: a mounted form has at most one reset request outstanding,
      and `loading` says whether one is. */
  lemma {:induction false} ResetSingleFlight(s: ResetState, events: seq<ResetEvent>)
    ensures ResetCalls(s, events) + Busy(s.loading)
         == ResetAnswers(s, events) + Busy(ResetRun(s, events).loading)
    decreases |events|
  {
    if events != [] {
      ResetSingleFlight(ResetStep(s, events[0]), events[1..]);
    }
  }

  class ForgotPasswordForm {
    var loading: bool
    var error: Option<string>
    var success: bool

    function State(): ResetState
      reads this
    {
      ResetState(loading, error, success)
    }

    constructor ()
      ensures State() == ResetInitial
    {
      loading, error, success := false, None, false;
    }

    /** Submitting the form; `called` says whether the provider is called. */
    method Submit() returns (called: bool)
      modifies this
      ensures called <==> !old(loading) && !old(success)
      ensures State() == ResetStep(old(State()), ResetSubmitted)
    {
      called := !loading && !success;
      if called {
        loading := true;
        error := None;
      }
    }

    /** The rest of handleResetPassword, once the provider answers. */
    method Receive(reply: Reply)
      requires loading
      modifies this
      ensures State() == ResetStep(old(State()), ResetAnswered(reply))
    {
      if reply.ErrorReply? {
        error := Some(reply.message);
      } else {
        success := true;
      }
      loading := false;
    }
  }

  // ---------------------------------------------------------------------------
  // AuthComponent: sign-in and sign-up share `loading` and `error`
  // ---------------------------------------------------------------------------

  /** The user in a sign-up answer; `identityCount` is the length of its
      `identities` list, None when the list is absent. */
  datatype SignUpUser = SignUpUser(identityCount: Option<nat>)

  datatype SignUpReply =
    | SignUpFailed(message: string)
    | SignUpReplied(user: Option<SignUpUser>)

  /** A user whose `identities` list is present and empty: the address is
      already registered. */
  predicate AlreadyRegistered(reply: SignUpReply) {
    reply.SignUpReplied? && reply.user.Some? && reply.user.value.identityCount == Some(0)
  }

  /** The provider call a suspended handler awaits. */
  datatype AuthCall = SignInCall | SignUpCall

  /** `awaiting` is the handler suspended at its await, if any; `location` is
      where the window was sent. */
  datatype AuthState = AuthState(
    loading: bool,
    error: Option<string>,
    registrationSuccess: bool,
    location: Option<string>,
    awaiting: Option<AuthCall>)

  const AuthInitial := AuthState(false, None, false, None, None)

  /** `loading` holds exactly while a handler awaits the provider. */
  predicate AuthConsistent(s: AuthState) {
    s.loading <==> s.awaiting.Some?
  }

  datatype AuthEvent =
    | SignInSubmitted
    | SignUpSubmitted
    | SignInAnswered(reply: Reply)
    | SignUpAnswered(signUp: SignUpReply)

  /** Both submit buttons are disabled while `loading`; the sign-up form is
      replaced by the confirmation once `registrationSuccess` holds; an answer
      resumes only the handler that awaits it. */
  predicate AuthAccepts(s: AuthState, e: AuthEvent) {
    match e
    case SignInSubmitted => !s.loading
    case SignUpSubmitted => !s.loading && !s.registrationSuccess
    case SignInAnswered(_) => s.awaiting == Some(SignInCall)
    case SignUpAnswered(_) => s.awaiting == Some(SignUpCall)
  }

  predicate IsSubmit(e: AuthEvent) {
    e.SignInSubmitted? || e.SignUpSubmitted?
  }

  function AuthStep(s: AuthState, e: AuthEvent): (r: AuthState)
    ensures !AuthAccepts(s, e) ==> r == s
    ensures AuthConsistent(s) ==> AuthConsistent(r)
    ensures AuthAccepts(s, e) ==> (r.loading <==> IsSubmit(e))
    ensures AuthAccepts(s, e) && IsSubmit(e) ==>
      r.error.None? && r.location == s.location && r.registrationSuccess == s.registrationSuccess
  {
    if !AuthAccepts(s, e) then s
    else match e
      case SignInSubmitted => s.(loading := true, error := None, awaiting := Some(SignInCall))
      case SignUpSubmitted => s.(loading := true, error := None, awaiting := Some(SignUpCall))
      case SignInAnswered(reply) =>
        var t := if reply.ErrorReply? then s.(error := Some(reply.message))
                 else s.(location := Some(DashboardPath));
        t.(loading := false, awaiting := None)
      case SignUpAnswered(reply) =>
        var t := if reply.SignUpFailed? then s.(error := Some(reply.message))
                 else if AlreadyRegistered(reply) then s.(error := Some(AlreadyRegisteredMessage))
                 else s.(registrationSuccess := true);
        t.(loading := false, awaiting := None)
  }

  /** handleSignIn run from an idle form to the provider's answer. */
  function SignIn(s: AuthState, reply: Reply): (r: AuthState)
    requires !s.loading
    ensures !r.loading && r.awaiting.None?
    ensures reply.ErrorReply? ==> r.error == Some(reply.message) && r.location == s.location
    ensures reply.OkReply? ==> r.error.None? && r.location == Some(DashboardPath)
    ensures r.registrationSuccess == s.registrationSuccess
  {
    AuthStep(AuthStep(s, SignInSubmitted), SignInAnswered(reply))
  }

  /** handleSignUp run from an idle form to the provider's answer. */
  function SignUp(s: AuthState, reply: SignUpReply): (r: AuthState)
    requires !s.loading && !s.registrationSuccess
    ensures !r.loading && r.awaiting.None?
    ensures r.registrationSuccess <==> reply.SignUpReplied? && !AlreadyRegistered(reply)
    ensures reply.SignUpFailed? ==> r.error == Some(reply.message)
    ensures AlreadyRegistered(reply) ==> r.error == Some(AlreadyRegisteredMessage)
    ensures r.registrationSuccess ==> r.error.None?
    ensures r.location == s.location
  {
    AuthStep(AuthStep(s, SignUpSubmitted), SignUpAnswered(reply))
  }

  function AuthRun(s: AuthState, events: seq<AuthEvent>): (final: AuthState)
    decreases |events|
  {
    if events == [] then s else AuthRun(AuthStep(s, events[0]), events[1..])
  }

  /** The number of provider calls a sequence of events issues. */
  function AuthCalls(s: AuthState, events: seq<AuthEvent>): (calls: nat)
    decreases |events|
  {
    if events == [] then 0
    else (if AuthAccepts(s, events[0]) && IsSubmit(events[0]) then 1 else 0)
         + AuthCalls(AuthStep(s, events[0]), events[1..])
  }

  /** The number of provider answers a sequence of events resumes a handler with. */
  function AuthAnswers(s: AuthState, events: seq<AuthEvent>): (answers: nat)
    decreases |events|
  {
    if events == [] then 0
    else (if AuthAccepts(s, events[0]) && !IsSubmit(events[0]) then 1 else 0)
         + AuthAnswers(AuthStep(s, events[0]), events[1..])
  }

  /** In a mounted form, sign-in and sign-up together never have more than
      one provider call outstanding, and `loading` says whether one is. */
  lemma {:induction false} AuthSingleFlight(s: AuthState, events: seq<AuthEvent>)
    requires AuthConsistent(s)
    ensures AuthConsistent(AuthRun(s, events))
    ensures AuthCalls(s, events) + Busy(s.loading)
         == AuthAnswers(s, events) + Busy(AuthRun(s, events).loading)
    decreases |events|
  {
    if events != [] {
      AuthSingleFlight(AuthStep(s, events[0]), events[1..]);
    }
  }

  /** Repeated submits on one mounted form (double clicks on either button)
      with no answer in between issue at most one provider call. */
  lemma {:induction false} RepeatedSubmitsCallOnce(s: AuthState, events: seq<AuthEvent>)
    requires AuthConsistent(s)
    requires forall i :: 0 <= i < |events| ==> IsSubmit(events[i])
    ensures AuthCalls(s, events) <= 1
  {
    AuthSingleFlight(s, events);
    NoAnswersWithoutReplies(s, events);
  }

  lemma {:induction false} NoAnswersWithoutReplies(s: AuthState, events: seq<AuthEvent>)
    requires forall i :: 0 <= i < |events| ==> IsSubmit(events[i])
    ensures AuthAnswers(s, events) == 0
    decreases |events|
  {
    if events != [] {
      assert IsSubmit(events[0]);
      NoAnswersWithoutReplies(AuthStep(s, events[0]), events[1..]);
    }
  }

  class AuthForm {
    var loading: bool
    var error: Option<string>
    var registrationSuccess: bool
    var location: Option<string>
    var awaiting: Option<AuthCall>

    function State(): AuthState
      reads this
    {
      AuthState(loading, error, registrationSuccess, location, awaiting)
    }

    constructor ()
      ensures State() == AuthInitial
    {
      loading, error, registrationSuccess, location, awaiting := false, None, false, None, None;
    }

    /** Submitting the sign-in form; `called` says whether the provider is called. */
    method SubmitSignIn() returns (called: bool)
      modifies this
      ensures called <==> !old(loading)
      ensures State() == AuthStep(old(State()), SignInSubmitted)
    {
      called := !loading;
      if called {
        loading := true;
        error := None;
        awaiting := Some(SignInCall);
      }
    }

    /** The rest of handleSignIn, once signInWithPassword answers. */
    method ReceiveSignIn(reply: Reply)
      requires awaiting == Some(SignInCall)
      modifies this
      ensures State() == AuthStep(old(State()), SignInAnswered(reply))
    {
      if reply.ErrorReply? {
        error := Some(reply.message);
      } else {
        location := Some(DashboardPath);
      }
      loading := false;
      awaiting := None;
    }

    /** Submitting the sign-up form; `called` says whether the provider is called. */
    method SubmitSignUp() returns (called: bool)
      modifies this
      ensures called <==> !old(loading) && !old(registrationSuccess)
      ensures State() == AuthStep(old(State()), SignUpSubmitted)
    {
      called := !loading && !registrationSuccess;
      if called {
        loading := true;
        error := None;
        awaiting := Some(SignUpCall);
      }
    }

    /** The rest of handleSignUp, once signUp answers. */
    method ReceiveSignUp(reply: SignUpReply)
      requires awaiting == Some(SignUpCall)
      modifies this
      ensures State() == AuthStep(old(State()), SignUpAnswered(reply))
    {
      if reply.SignUpFailed? {
        error := Some(reply.message);
      } else if AlreadyRegistered(reply) {
        error := Some(AlreadyRegisteredMessage);
      } else {
        registrationSuccess := true;
      }
      loading := false;
      awaiting := None;
    }
  }
}
