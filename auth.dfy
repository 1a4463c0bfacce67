/*
 * Signing in and out. Auto-login is the one operation that reports a
 * missing identity interface instead of asserting it, and it keeps the
 * game instance's `isAttemptingLogin` flag up to date.
 */
module Auth {
  import opened Wrappers
  import opened ResultSinks
  import opened Calls
  import opened Online
  import opened Strings

  const IdentityUnsupported: string := "Online subsystem does not support identity."
  const LoginStartFailed: string := "Login call failed to start."
  const LogoutFailed: string := "The Logout callback failed."
  const LogoutStartFailed: string := "Logout call failed to start."
  const CanLinkAttribute: string := "crossPlatform.canLink"

  /** Whether the local user is signed in; never asserts. */
  function IsLoggedIn(env: Env): (b: bool)
    ensures b <==> env.Some? && Identity in env.value.caps && env.value.signedIn.Some?
    ensures b <==> SignedInUser(env).Some?
  {
    SignedInUser(env).Some?
  }

  // ---------------------------------------------------------------------
  // Auto-login

  /** Why auto-login refuses: no subsystem, or no identity interface. */
  function AutoLoginRefusal(env: Env): (m: Option<string>)
    ensures m.None? <==> env.Some? && Identity in env.value.caps
    ensures env.None? ==> m == Some(NotAvailable)
    ensures env.Some? && Identity !in env.value.caps ==> m == Some(IdentityUnsupported)
  {
    if env.None? then Some(NotAvailable)
    else if Identity !in env.value.caps then Some(IdentityUnsupported)
    else None
  }

  /** Auto-login needs no signed-in user; a failed start clears the handler
      before it delivers failure. */
  function AutoLoginLaunch(env: Env): (l: Launch<()>)
    ensures l.Refuse? <==> AutoLoginRefusal(env).Some?
    ensures l.Refuse? ==> l.args == Args(false, (), AutoLoginRefusal(env).value)
    ensures l.Bind? ==> l.onStartFailure == Some(StartFailure(Args(false, (), LoginStartFailed), ClearThenDeliver))
  {
    GuardedLaunch(AutoLoginRefusal(env), (), Some(StartFailure(Args(false, (), LoginStartFailed), ClearThenDeliver)))
  }

  /** The start of auto-login: the flag is raised before the handler is
      bound, and only when the guards pass; a failed start does not lower
      it again. */
  method BeginAutoLogin(gi: GameInstance, call: Call<()>, env: Env, started: bool)
    requires call.Valid() && !call.bound && call.steps == []
    modifies gi`isAttemptingLogin, call, call.sink
    ensures call.Valid() && call.steps == LaunchSteps(AutoLoginLaunch(env), started)
    ensures call.bound == BoundAfterLaunch(AutoLoginLaunch(env), started)
    ensures gi.isAttemptingLogin == (old(gi.isAttemptingLogin) || AutoLoginRefusal(env).None?)
  {
    var l := AutoLoginLaunch(env);
    if l.Bind? {
      gi.isAttemptingLogin := true;
    }
    call.Begin(l, started);
  }

  /** The login handler on one event. It lowers the flag when the event is
      for another user or the sink is gone, but leaves it as it is when it
      delivers. */
  method HandleLogin(gi: GameInstance, call: Call<()>, ev: UserEvent<int>)
    requires call.Valid() && call.bound
    modifies gi`isAttemptingLogin, call, call.sink
    ensures call.Valid() && call.steps == old(call.steps) + EventSteps(UserForward(gi.localUserNum, ev), call.sinkAlive)
    ensures call.bound <==> !(ev.user == gi.localUserNum && call.sinkAlive)
    ensures gi.isAttemptingLogin ==
              (if ev.user != gi.localUserNum || !call.sinkAlive then false else old(gi.isAttemptingLogin))
  {
    var r := UserForward(gi.localUserNum, ev);
    if r.Ignore? || !call.sinkAlive {
      gi.isAttemptingLogin := false;
    }
    call.Handle(r);
  }

  /** The subsystem's own login listener lowers the flag on every login. */
  method OnLoginCompleted(gi: GameInstance)
    modifies gi`isAttemptingLogin
    ensures !gi.isAttemptingLogin
  {
    gi.isAttemptingLogin := false;
  }

  // ---------------------------------------------------------------------
  // Logout

  function LogoutLaunch(env: Env): (l: Launch<()>)
    requires CanCall(env, Asserted)
    ensures l.Refuse? <==> env.None?
    ensures l.Refuse? ==> l.args == Args(false, (), NotAvailable)
    ensures l.Bind? ==> l.onStartFailure == Some(StartFailure(Args(false, (), LogoutStartFailed), ClearThenDeliver))
  {
    GuardedLaunch(Guard(env, Asserted, []), (), Some(StartFailure(Args(false, (), LogoutStartFailed), ClearThenDeliver)))
  }

  /** A logout-complete event. */
  datatype LogoutEvent = LogoutEvent(localUserNum: int, ok: bool)

  function LogoutReaction(localUserNum: int, ev: LogoutEvent): (r: Reaction<()>)
    ensures r.Ignore? <==> ev.localUserNum != localUserNum
    ensures r.Deliver? ==> r.unbind && (r.args.success <==> ev.ok)
    ensures r.Deliver? ==> r.args.error == (if ev.ok then "" else LogoutFailed)
  {
    if ev.localUserNum != localUserNum then Ignore
    else Deliver(Args(ev.ok, (), if ev.ok then "" else LogoutFailed), true)
  }

  // ---------------------------------------------------------------------
  // Cross-platform linking

  /** Whether the user may link a cross-platform account: signed in, and
      their account's link attribute is "true" in any case (FString `==`
      ignores case). The signed-in user's account must exist. */
  function CanLinkCrossPlatform(env: Env): (b: bool)
    requires env.Some? ==> Identity in env.value.caps
    requires SignedInUser(env).Some? ==> SignedInUser(env).value in env.value.accounts
    ensures b <==> (SignedInUser(env).Some? &&
                    CanLinkAttribute in env.value.accounts[SignedInUser(env).value] &&
                    SameName(env.value.accounts[SignedInUser(env).value][CanLinkAttribute], "true"))
  {
    var u := SignedInUser(env);
    if u.None? then false
    else
      var attrs := env.value.accounts[u.value];
      CanLinkAttribute in attrs && SameName(attrs[CanLinkAttribute], "true")
  }

  /** Linking is offered only to a signed-in user. */
  lemma CanLinkOnlyWhenLoggedIn(env: Env)
    requires env.Some? ==> Identity in env.value.caps
    requires SignedInUser(env).Some? ==> SignedInUser(env).value in env.value.accounts
    ensures CanLinkCrossPlatform(env) ==> IsLoggedIn(env)
  {
  }
}
