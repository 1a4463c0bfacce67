/*
 * Avatars: fetch a user's avatar texture. A signed-out local user is
 * reported here rather than asserted.
 */
module Avatar {
  import opened Wrappers
  import opened ResultSinks
  import opened Calls
  import opened Online

  const Unsupported: string := "Online subsystem does not support avatars."
  const GetFailed: string := "The GetAvatar call failed."

  /** A texture the backend hands back, by its asset path. */
  datatype Texture = Texture(path: string)

  /** The guard chain: subsystem, sign-in (reported), avatar interface. */
  function AvatarGuard(env: Env): (m: Option<string>)
    requires CanCall(env, Reported)
    ensures m.None? <==> env.Some? && env.value.signedIn.Some? && Avatars in env.value.caps
    ensures env.None? ==> m == Some(NotAvailable)
    ensures env.Some? && env.value.signedIn.None? ==> m == Some(NotSignedIn)
    ensures env.Some? && env.value.signedIn.Some? && Avatars !in env.value.caps ==> m == Some(Unsupported)
  {
    Guard(env, Reported, [Need(Avatars, Unsupported)])
  }

  /** A refusal delivers no texture; the request is a per-call delegate
      whose start is not checked. */
  function GetAvatarLaunch(env: Env): (l: Launch<Option<Texture>>)
    requires CanCall(env, Reported)
    ensures l.Refuse? <==> AvatarGuard(env).Some?
    ensures l.Refuse? ==> l.args == Args(false, None, AvatarGuard(env).value)
    ensures l.Bind? ==> l.onStartFailure.None?
  {
    GuardedLaunch(AvatarGuard(env), None, None)
  }

  /** The completion forwards the texture as it came, whether or not the
      call succeeded. */
  function GetAvatarReaction(ok: bool, texture: Option<Texture>): (r: Reaction<Option<Texture>>)
    ensures r.Deliver? && !r.unbind && (r.args.success <==> ok) && r.args.result == texture
    ensures r.args.error == (if ok then "" else GetFailed)
  {
    Deliver(Args(ok, texture, if ok then "" else GetFailed), false)
  }
}
