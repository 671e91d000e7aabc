/**
 * The login form's submit handler: trim the input, check it is non-empty and
 * email-shaped, then call the authentication collaborator once, raising the
 * loading flag around the call, and either greet and navigate home or report
 * the failure. React state, toasts and navigation are modelled as a trace of
 * effects; `Replay` interprets a trace as the view it leaves behind.
 */
module Login {
  import opened Wrappers
  import opened JsString
  import opened EmailShape

  datatype ToastKind = ErrorToast | SuccessToast

  datatype Toast = Toast(kind: ToastKind, title: string, description: string)

  /** What the handler does to the outside world, in order. */
  datatype Effect =
    | ShowToast(toast: Toast)
    | SetLoading(on: bool)
    | CallLogin(email: string)
    | Navigate(path: string)

  /** How the authentication collaborator settles: resolved, or rejected with an error whose message may be missing. */
  datatype LoginReply = LoggedIn | LoginRejected(message: Option<string>)

  const RequiredToast := Toast(ErrorToast, "Email is required", "Please enter your email address")
  const InvalidToast := Toast(ErrorToast, "Invalid email", "Please enter a valid email address")
  const WelcomeToast := Toast(SuccessToast, "Welcome!", "You have been successfully logged in")
  const LoginFailedFallback := "Failed to login. Please try again."
  const Home := "/"

  function FailureToast(message: Option<string>): Toast {
    Toast(ErrorToast, "Login failed", Or(message, LoginFailedFallback))
  }

  /** The observable state of the login view. */
  datatype View = View(isLoading: bool, location: Option<string>, toasts: seq<Toast>, loginCalls: seq<string>)

  const Idle := View(false, None, [], [])

  function Apply(v: View, e: Effect): View {
    match e
    case ShowToast(t) => v.(toasts := v.toasts + [t])
    case SetLoading(on) => v.(isLoading := on)
    case CallLogin(email) => v.(loginCalls := v.loginCalls + [email])
    case Navigate(path) => v.(location := Some(path))
  }

  /** The view left behind by performing `trace` from `v`. */
  function Replay(v: View, trace: seq<Effect>): View
    decreases |trace|
  {
    if trace == [] then v else Replay(Apply(v, trace[0]), trace[1..])
  }

  /** Performing two traces one after the other is performing their concatenation. */
  lemma {:induction false} ReplayConcat(v: View, a: seq<Effect>, b: seq<Effect>)
    ensures Replay(v, a + b) == Replay(Replay(v, a), b)
    decreases |a|
  {
    if a != [] {
      assert (a + b)[1..] == a[1..] + b;
      ReplayConcat(Apply(v, a[0]), a[1..], b);
    } else {
      assert a + b == b;
    }
  }

  lemma ReplayOne(v: View, e: Effect)
    ensures Replay(v, [e]) == Apply(v, e)
  {
  }

  /**
   * The two-stage check: a blank input is "required", a non-blank one that is
   * not email-shaped is "invalid", and otherwise the trimmed input goes on.
   */
  function Validate(email: string): (r: Result<string, Toast>)
    ensures r.Success? <==> IsEmail(Trim(email))
    ensures r.Success? ==> r.value == Trim(email)
    ensures r == Failure(RequiredToast) <==> AllSpace(email)
    ensures r == Failure(InvalidToast) <==> !AllSpace(email) && !IsEmail(Trim(email))
  {
    var trimmed := Trim(email);
    if trimmed == [] then
      Failure(RequiredToast)
    else if !IsEmail(trimmed) then
      Failure(InvalidToast)
    else
      Success(trimmed)
  }

  /** What the handler does once the collaborator has settled. */
  function Settle(reply: LoginReply): seq<Effect> {
    match reply
    case LoggedIn => [ShowToast(WelcomeToast), Navigate(Home)]
    case LoginRejected(m) => [ShowToast(FailureToast(m))]
  }

  /** `handleSubmit`, with the collaborator's answer to each email given by `login`. */
  function HandleSubmit(email: string, login: string -> LoginReply): (trace: seq<Effect>)
    ensures !IsEmail(Trim(email)) ==> SetLoading(true) !in trace && Replay(Idle, trace).loginCalls == []
    ensures AllSpace(email) ==> Replay(Idle, trace).toasts == [RequiredToast]
    ensures !AllSpace(email) && !IsEmail(Trim(email)) ==> Replay(Idle, trace).toasts == [InvalidToast]
    ensures IsEmail(Trim(email)) ==> Replay(Idle, trace).loginCalls == [Trim(email)]
    ensures !Replay(Idle, trace).isLoading
    ensures Replay(Idle, trace).location == (if IsEmail(Trim(email)) && login(Trim(email)).LoggedIn? then Some(Home) else None)
    ensures IsEmail(Trim(email)) && login(Trim(email)).LoggedIn? ==> Replay(Idle, trace).toasts == [WelcomeToast]
    ensures IsEmail(Trim(email)) && login(Trim(email)).LoginRejected? ==>
              Replay(Idle, trace).toasts == [FailureToast(login(Trim(email)).message)]
  {
    match Validate(email)
    case Failure(t) =>
      var trace := [ShowToast(t)];
      assert Replay(Idle, trace) == Replay(Apply(Idle, trace[0]), []);
      trace
    case Success(e) =>
      var trace := [SetLoading(true), CallLogin(e)] + Settle(login(e)) + [SetLoading(false)];
      SubmitReplay(e, login(e));
      trace
  }

  /** The view an accepted submission leaves, given the collaborator's reply. */
  lemma SubmitReplay(e: string, reply: LoginReply)
    ensures var v := Replay(Idle, [SetLoading(true), CallLogin(e)] + Settle(reply) + [SetLoading(false)]);
      && !v.isLoading
      && v.loginCalls == [e]
      && v.location == (if reply.LoggedIn? then Some(Home) else None)
      && v.toasts == (if reply.LoggedIn? then [WelcomeToast] else [FailureToast(reply.message)])
  {
    var start := [SetLoading(true), CallLogin(e)];
    var loading := View(true, None, [], [e]);
    assert Replay(Idle, start) == loading by {
      assert start == [SetLoading(true)] + [CallLogin(e)];
      ReplayConcat(Idle, [SetLoading(true)], [CallLogin(e)]);
      ReplayOne(Idle, SetLoading(true));
      ReplayOne(Apply(Idle, SetLoading(true)), CallLogin(e));
    }
    ReplayConcat(Idle, start, Settle(reply));
    ReplayConcat(Idle, start + Settle(reply), [SetLoading(false)]);
    var s := Settle(reply);
    var settled := Replay(loading, s);
    if reply.LoggedIn? {
      assert s == [ShowToast(WelcomeToast)] + [Navigate(Home)];
      ReplayConcat(loading, [ShowToast(WelcomeToast)], [Navigate(Home)]);
      ReplayOne(loading, ShowToast(WelcomeToast));
      ReplayOne(Apply(loading, ShowToast(WelcomeToast)), Navigate(Home));
      assert settled == View(true, Some(Home), [WelcomeToast], [e]);
    } else {
      ReplayOne(loading, ShowToast(FailureToast(reply.message)));
      assert settled == View(true, None, [FailureToast(reply.message)], [e]);
    }
    ReplayOne(settled, SetLoading(false));
  }

  /** Helper: the trace of a submission, a single validation toast or the login call bracketed by the loading flag. */
  lemma SubmitTrace(email: string, login: string -> LoginReply)
    ensures !IsEmail(Trim(email)) ==> HandleSubmit(email, login) == [ShowToast(Validate(email).error)]
    ensures IsEmail(Trim(email)) ==>
      HandleSubmit(email, login) == [SetLoading(true), CallLogin(Trim(email))] + Settle(login(Trim(email))) + [SetLoading(false)]
  {
  }

  /**
   * The order of effects: once the loading flag is raised it is cleared by the
   * very last effect; every toast and navigation of an accepted run comes after
   * the login call; and the greeting comes before the navigation home.
   */
  lemma SubmitEffectOrder(email: string, login: string -> LoginReply)
    ensures var trace := HandleSubmit(email, login);
      SetLoading(true) in trace ==> trace[|trace| - 1] == SetLoading(false)
    ensures var trace := HandleSubmit(email, login);
      forall i, j :: 0 <= i < |trace| && 0 <= j < |trace| && trace[i].CallLogin? && (trace[j].ShowToast? || trace[j].Navigate?) ==> i < j
    ensures var trace := HandleSubmit(email, login);
      forall i, j :: 0 <= i < |trace| && 0 <= j < |trace| && trace[i] == ShowToast(WelcomeToast) && trace[j] == Navigate(Home) ==> i < j
  {
    var trace := HandleSubmit(email, login);
    SubmitTrace(email, login);
    if IsEmail(Trim(email)) {
      var settle := Settle(login(Trim(email)));
      assert forall k :: 2 <= k < 2 + |settle| ==> trace[k] == settle[k - 2];
      assert forall k :: 0 <= k < |trace| && trace[k].CallLogin? ==> k == 1;
      if login(Trim(email)).LoggedIn? {
        assert forall k :: 0 <= k < |trace| && trace[k] == ShowToast(WelcomeToast) ==> k == 2;
        assert forall k :: 0 <= k < |trace| && trace[k] == Navigate(Home) ==> k == 3;
      } else {
        assert forall k :: 0 <= k < |trace| ==> !trace[k].Navigate?;
      }
    } else {
      assert forall k :: 0 <= k < |trace| ==> !trace[k].CallLogin? && !trace[k].Navigate? && trace[k] != SetLoading(true);
    }
  }

  /** The login collaborator is only ever called while the loading flag is raised. */
  lemma CallsLoginOnlyWhileLoading(email: string, login: string -> LoginReply)
    ensures var trace := HandleSubmit(email, login);
      forall i :: 0 <= i < |trace| && trace[i].CallLogin? ==> Replay(Idle, trace[..i]).isLoading
  {
  }

  /** Only the trimmed input matters: surrounding white space never changes the outcome. */
  lemma SubmitIgnoresPadding(p: string, email: string, q: string, login: string -> LoginReply)
    requires AllSpace(p) && AllSpace(q)
    ensures HandleSubmit(p + email + q, login) == HandleSubmit(email, login)
  {
    TrimIgnoresPadding(p, email, q);
    assert AllSpace(email) <==> AllSpace(p + email + q);
  }
}
