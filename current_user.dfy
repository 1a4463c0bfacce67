/*
 * The current user's getters. None of them asserts: a missing subsystem,
 * identity interface or sign-in gives the empty value. The signed-in
 * user's account is expected to exist.
 */
module CurrentUser {
  import opened Wrappers
  import opened Online

  const SecondaryIdAttribute: string := "epic.accountId"

  /** What the getters demand: a signed-in user has an account. */
  predicate AccountExists(env: Env)
  {
    SignedInUser(env).Some? ==> SignedInUser(env).value in env.value.accounts
  }

  /** The local user's nickname, or "" without a subsystem or identity
      interface (the nickname is asked for even when signed out). */
  function DisplayName(env: Env): (name: string)
    ensures env.None? || Identity !in env.value.caps ==> name == ""
    ensures env.Some? && Identity in env.value.caps ==> name == env.value.nickname
  {
    if env.None? || Identity !in env.value.caps then "" else env.value.nickname
  }

  /** The signed-in user's id; None stands for the empty id. */
  function UserId(env: Env): (id: Option<string>)
    ensures id == SignedInUser(env)
    ensures id.Some? <==> env.Some? && Identity in env.value.caps && env.value.signedIn.Some?
  {
    if env.None? || Identity !in env.value.caps then None else env.value.signedIn
  }

  /** An authentication attribute of the signed-in user's account, or "". */
  function AuthAttribute(env: Env, key: string): (value: string)
    requires AccountExists(env)
    ensures SignedInUser(env).None? ==> value == ""
    ensures SignedInUser(env).Some? && key in env.value.accounts[SignedInUser(env).value] ==>
              value == env.value.accounts[SignedInUser(env).value][key]
    ensures SignedInUser(env).Some? && key !in env.value.accounts[SignedInUser(env).value] ==> value == ""
  {
    var u := UserId(env);
    if u.None? then ""
    else
      var attrs := env.value.accounts[u.value];
      if key in attrs then attrs[key] else ""
  }

  /** Whether the account has the secondary-id attribute. */
  function ShouldRenderSecondaryIdField(env: Env): (b: bool)
    requires AccountExists(env)
    ensures b <==> SignedInUser(env).Some? && SecondaryIdAttribute in env.value.accounts[SignedInUser(env).value]
  {
    var u := UserId(env);
    u.Some? && SecondaryIdAttribute in env.value.accounts[u.value]
  }

  /** The secondary id: the account's "epic.accountId" attribute, or "". */
  function SecondaryId(env: Env): (id: string)
    requires AccountExists(env)
    ensures !ShouldRenderSecondaryIdField(env) ==> id == ""
    ensures ShouldRenderSecondaryIdField(env) ==>
              id == env.value.accounts[SignedInUser(env).value][SecondaryIdAttribute]
  {
    var u := UserId(env);
    if u.None? then ""
    else
      var attrs := env.value.accounts[u.value];
      if SecondaryIdAttribute in attrs then attrs[SecondaryIdAttribute] else ""
  }

  /** The secondary id is the generic attribute getter at its key, and the
      field is only shown when there is an id behind it (the id itself may
      be empty). */
  lemma SecondaryIdIsAttribute(env: Env)
    requires AccountExists(env)
    ensures SecondaryId(env) == AuthAttribute(env, SecondaryIdAttribute)
    ensures SecondaryId(env) != "" ==> ShouldRenderSecondaryIdField(env)
    ensures ShouldRenderSecondaryIdField(env) ==> UserId(env).Some?
  {
  }
}
