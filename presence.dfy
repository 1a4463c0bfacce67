/*
 * Presence: the statuses the game offers, and setting the local user's
 * presence to one of them.
 */
module Presence {
  import opened Wrappers
  import opened ResultSinks
  import opened Calls
  import opened Online

  const Unsupported: string := "Online subsystem does not support presence."
  const SetFailed: string := "Failed to set presence"

  /** The statuses on offer, as their source texts, in order. */
  function AvailableStatuses(): (s: seq<string>)
    ensures |s| == 2 && s[0] != s[1]
    ensures s[0] == "Example presence status 1"
    ensures s[1] == "Example presence with numeric value {Number}"
  {
    ["Example presence status 1", "Example presence with numeric value {Number}"]
  }

  function PresenceGuard(env: Env): (m: Option<string>)
    requires CanCall(env, Asserted)
    ensures m.None? <==> env.Some? && Presence in env.value.caps
    ensures env.Some? && Presence !in env.value.caps ==> m == Some(Unsupported)
  {
    Guard(env, Asserted, [Need(Presence, Unsupported)])
  }

  /** EOnlinePresenceState. */
  datatype PresenceState = Online | Offline | Away | ExtendedAway | DoNotDisturb | Chat

  /** The presence the operation sets. */
  datatype UserPresence = UserPresence(state: PresenceState, statusStr: string, properties: map<string, int>)

  /** The presence for a status picked by its localisation namespace and
      key: online, with the status string naming both, and the property
      "Number" set to 200. */
  function StatusFor(textNamespace: string, textKey: string): (p: UserPresence)
    ensures p.state == Online
    ensures |p.statusStr| == |textNamespace| + 1 + |textKey|
    ensures p.statusStr[..|textNamespace|] == textNamespace && p.statusStr[|textNamespace|] == '_'
    ensures p.statusStr[|textNamespace| + 1..] == textKey
    ensures p.properties == map["Number" := 200]
  {
    UserPresence(Online, textNamespace + "_" + textKey, map["Number" := 200])
  }

  /** Two statuses whose namespaces hold no '_' get the same status string
      only when they have the same namespace and key. */
  lemma {:induction false} StatusStringIdentifiesStatus(ns1: string, key1: string, ns2: string, key2: string)
    requires '_' !in ns1 && '_' !in ns2
    requires StatusFor(ns1, key1).statusStr == StatusFor(ns2, key2).statusStr
    ensures ns1 == ns2 && key1 == key2
  {
    var s := StatusFor(ns1, key1).statusStr;
    assert s == StatusFor(ns2, key2).statusStr;
    assert forall i :: 0 <= i < |ns1| ==> s[i] == ns1[i] && ns1[i] != '_';
    assert forall i :: 0 <= i < |ns2| ==> s[i] == ns2[i] && ns2[i] != '_';
    assert s[|ns1|] == '_' && s[|ns2|] == '_';
    assert |ns1| == |ns2|;
    assert ns1 == s[..|ns1|] == ns2;
  }

  /** The presence update is a per-call delegate whose start is not checked. */
  function SetPresenceLaunch(env: Env): (l: Launch<()>)
    requires CanCall(env, Asserted)
    ensures l.Refuse? <==> PresenceGuard(env).Some?
    ensures l.Refuse? ==> l.args == Args(false, (), PresenceGuard(env).value)
    ensures l.Bind? ==> l.onStartFailure.None?
  {
    GuardedLaunch(PresenceGuard(env), (), None)
  }

  function SetPresenceReaction(ok: bool): (r: Reaction<()>)
    ensures r.Deliver? && !r.unbind && (r.args.success <==> ok)
    ensures r.args.error == (if ok then "" else SetFailed)
  {
    Deliver(Args(ok, (), if ok then "" else SetFailed), false)
  }
}
