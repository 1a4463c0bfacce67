/*
 * Friend operations: reading the friend list, aliases, invites, rejecting,
 * deleting, blocking and unblocking, recent and blocked players, the friend
 * state with its attribute keys, and the friend-code invite. These
 * operations assert that the local user is signed in.
 */
module Friends {
  import opened Wrappers
  import opened ResultSinks
  import opened Calls
  import opened Online
  import opened Strings
  import opened Lists

  const Unsupported: string := "Online subsystem does not support friends."
  const UserQueryUnsupported: string := "Online subsystem does not support user querying."

  function FriendsGuard(env: Env): (m: Option<string>)
    requires CanCall(env, Asserted)
    ensures m.None? <==> env.Some? && Friends in env.value.caps
    ensures env.Some? && Friends !in env.value.caps ==> m == Some(Unsupported)
  {
    Guard(env, Asserted, [Need(Friends, Unsupported)])
  }

  // ---------------------------------------------------------------------
  // Operations with a per-call delegate

  /** The operations that pass a completion delegate into the start call. */
  datatype DelegateOp = QueryFriends | SetFriendAlias | DeleteFriendAlias | SendInvite | AcceptInvite

  /** What a delegate operation delivers when its start call fails; the
      alias operations do not look at the start result. */
  function DelegateStartFailure(op: DelegateOp): (f: Option<StartFailure<()>>)
    ensures f.None? <==> op == SetFriendAlias || op == DeleteFriendAlias
    ensures f.Some? ==> !f.value.args.success && f.value.order == DeliverOnly && f.value.args.error != ""
  {
    match op
    case QueryFriends => Some(StartFailure(Args(false, (), "The ReadFriendsList call failed to start."), DeliverOnly))
    case SendInvite => Some(StartFailure(Args(false, (), "SendInvite call failed to start."), DeliverOnly))
    case AcceptInvite => Some(StartFailure(Args(false, (), "AcceptInvite call failed to start."), DeliverOnly))
    case _ => None
  }

  function DelegateLaunch(env: Env, op: DelegateOp): (l: Launch<()>)
    requires CanCall(env, Asserted)
    ensures l.Refuse? <==> FriendsGuard(env).Some?
    ensures l.Refuse? ==> l.args == Args(false, (), FriendsGuard(env).value)
    ensures l.Bind? ==> l.onStartFailure == DelegateStartFailure(op)
  {
    GuardedLaunch(FriendsGuard(env), (), DelegateStartFailure(op))
  }

  /** A failed start of a delegate operation leaves nothing bound and
      delivers failure once. */
  lemma DelegateStartFailureUnbinds(env: Env, op: DelegateOp)
    requires CanCall(env, Asserted) && FriendsGuard(env).None? && DelegateStartFailure(op).Some?
    ensures !BoundAfterLaunch(DelegateLaunch(env, op), false)
    ensures LaunchSteps(DelegateLaunch(env, op), false) == [Bound, Delivered(DelegateStartFailure(op).value.args)]
  {
  }

  // ---------------------------------------------------------------------
  // Operations on a shared completion event

  /** Reject, delete, block and unblock: their event names a local user and
      a target. */
  datatype TargetedOp = RejectInvite | DeleteFriend | BlockPlayer | UnblockPlayer

  function TargetedStartFailed(op: TargetedOp): string
  {
    match op
    case RejectInvite => "RejectInvite call failed to start."
    case DeleteFriend => "DeleteFriend call failed to start."
    case BlockPlayer => "BlockPlayer call failed to start."
    case UnblockPlayer => "UnblockPlayer call failed to start."
  }

  /** A failed start clears the handler first and then delivers failure. */
  function TargetedLaunch(env: Env, op: TargetedOp): (l: Launch<()>)
    requires CanCall(env, Asserted)
    ensures l.Refuse? <==> FriendsGuard(env).Some?
    ensures l.Refuse? ==> l.args == Args(false, (), FriendsGuard(env).value)
    ensures l.Bind? ==> l.onStartFailure == Some(StartFailure(Args(false, (), TargetedStartFailed(op)), ClearThenDeliver))
  {
    GuardedLaunch(FriendsGuard(env), (), Some(StartFailure(Args(false, (), TargetedStartFailed(op)), ClearThenDeliver)))
  }

  /** The event of a targeted operation. */
  datatype TargetedEvent = TargetedEvent(localUserNum: int, target: string, ok: bool, error: string)

  /** An event is taken only if both the local user number and the target
      match; it is then forwarded and the handler unbinds. */
  function TargetedReaction(localUserNum: int, target: string, ev: TargetedEvent): (r: Reaction<()>)
    ensures r.Ignore? <==> ev.localUserNum != localUserNum || ev.target != target
    ensures r.Deliver? ==> r == Deliver(Args(ev.ok, (), ev.error), true)
  {
    if ev.localUserNum != localUserNum || ev.target != target then Ignore
    else Deliver(Args(ev.ok, (), ev.error), true)
  }

  /** Recent and blocked players: their event names a user id. */
  datatype UserQueryOp = QueryRecentPlayers | QueryBlockedPlayers

  function UserQueryLaunch(env: Env, op: UserQueryOp): (l: Launch<()>)
    requires CanCall(env, Asserted)
    ensures l.Refuse? <==> FriendsGuard(env).Some?
    ensures l.Refuse? ==> l.args == Args(false, (), FriendsGuard(env).value)
    ensures l.Bind? ==> l.onStartFailure.Some? && l.onStartFailure.value.order == ClearThenDeliver &&
                        !l.onStartFailure.value.args.success
  {
    var msg := if op == QueryRecentPlayers then "QueryRecentPlayers call failed to start."
               else "QueryBlockedPlayers call failed to start.";
    GuardedLaunch(FriendsGuard(env), (), Some(StartFailure(Args(false, (), msg), ClearThenDeliver)))
  }

  // ---------------------------------------------------------------------
  // Friend code

  /** "FriendCode:" followed by the code: the mapping the lookup asks for. */
  function FriendCodeQuery(code: string): (q: string)
    ensures |q| == 11 + |code| && q[11..] == code && q[..11] == "FriendCode:"
  {
    "FriendCode:" + code
  }

  /** The launch of the friend-code invite: the friends guard, then the
      user interface; a failed lookup start delivers failure. */
  function FriendCodeLaunch(env: Env): (l: Launch<()>)
    requires CanCall(env, Asserted)
    ensures l.Refuse? <==> FriendsGuard(env).Some? || Users !in env.value.caps
    ensures FriendsGuard(env).Some? ==> l == Refuse(Args(false, (), FriendsGuard(env).value))
    ensures FriendsGuard(env).None? && Users !in env.value.caps ==> l == Refuse(Args(false, (), UserQueryUnsupported))
    ensures l.Bind? ==> l.onStartFailure == Some(StartFailure(Args(false, (), "QueryUserIdMapping call failed to start."), DeliverOnly))
  {
    var needs := [Need(Friends, Unsupported), Need(Users, UserQueryUnsupported)];
    assert needs[0].cap == Friends && needs[1].cap == Users;
    GuardedLaunch(Guard(env, Asserted, needs), (),
                  Some(StartFailure(Args(false, (), "QueryUserIdMapping call failed to start."), DeliverOnly)))
  }

  /** What the lookup delegate does: deliver the lookup failure, or hand the
      same sink to the plain invite for the found user. */
  datatype CodeOutcome = CodeFailed(args: Args<()>) | InviteFound(user: string)

  function FriendCodeOutcome(ok: bool, found: string, error: string): (o: CodeOutcome)
    ensures o.CodeFailed? <==> !ok
    ensures o.CodeFailed? ==> o.args == Args(false, (), error)
    ensures o.InviteFound? ==> o.user == found
  {
    if !ok then CodeFailed(Args(false, (), error)) else InviteFound(found)
  }

  // ---------------------------------------------------------------------
  // Getters

  /** The ids of the friends list, in order; empty when the subsystem or its
      friends interface is missing or the list cannot be read (None). */
  method GetCurrentFriends(env: Env, friendsList: Option<seq<string>>) returns (ids: seq<string>)
    requires CanCall(env, Asserted)
    ensures FriendsGuard(env).Some? || friendsList.None? ==> ids == []
    ensures FriendsGuard(env).None? && friendsList.Some? ==> ids == friendsList.value
  {
    if FriendsGuard(env).Some? || friendsList.None? {
      return [];
    }
    ids := MapEach(friendsList.value, (id: string) => id);
  }

  /** A recent or blocked player as the backend holds it. */
  datatype BackendPlayer = BackendPlayer(id: string, displayName: string, lastSeen: int)

  /** A recent or blocked player as delivered: id and display name. */
  datatype PlayerState = PlayerState(id: string, displayName: string)

  /** The recent or blocked players, one state per player, in order; empty
      when anything is missing or the list cannot be read (None). */
  method GetPlayers(env: Env, players: Option<seq<BackendPlayer>>) returns (states: seq<PlayerState>)
    requires CanCall(env, Asserted)
    ensures FriendsGuard(env).Some? || players.None? ==> states == []
    ensures FriendsGuard(env).None? && players.Some? ==>
              |states| == |players.value| &&
              forall i :: 0 <= i < |states| ==>
                states[i].id == players.value[i].id && states[i].displayName == players.value[i].displayName
  {
    if FriendsGuard(env).Some? || players.None? {
      return [];
    }
    states := MapEach(players.value, (p: BackendPlayer) => PlayerState(p.id, p.displayName));
  }

  /** The friend code of the signed-in user: the "friendCode" attribute of
      the user's account, or "" when anything is missing. The account of a
      signed-in user must exist (the source dereferences it unchecked). */
  function CurrentFriendCode(env: Env): (code: string)
    requires SignedInUser(env).Some? ==> SignedInUser(env).value in env.value.accounts
    ensures SignedInUser(env).None? ==> code == ""
    ensures SignedInUser(env).Some? && "friendCode" in env.value.accounts[SignedInUser(env).value] ==>
              code == env.value.accounts[SignedInUser(env).value]["friendCode"]
    ensures SignedInUser(env).Some? && "friendCode" !in env.value.accounts[SignedInUser(env).value] ==> code == ""
  {
    var u := SignedInUser(env);
    if u.None? then ""
    else
      var attrs := env.value.accounts[u.value];
      if "friendCode" in attrs then attrs["friendCode"] else ""
  }

  // ---------------------------------------------------------------------
  // Friend state

  /** EInviteStatus, as the backend reports it. */
  datatype BackendInvite = Unknown | Accepted | PendingInbound | PendingOutbound | Blocked | Suggested

  /** EMOSFriendsFriendInvitationStatus. */
  datatype InvitationStatus = InviteUnknown | InviteAccepted | InvitePendingInbound | InvitePendingOutbound | InviteBlocked | InviteSuggested

  function TranslateInvite(s: BackendInvite): InvitationStatus
  {
    match s
    case Accepted => InviteAccepted
    case PendingInbound => InvitePendingInbound
    case PendingOutbound => InvitePendingOutbound
    case Blocked => InviteBlocked
    case Suggested => InviteSuggested
    case Unknown => InviteUnknown
  }

  /** The invitation translation is one-to-one and onto, and keeps Unknown. */
  lemma InviteTranslationBijective(a: BackendInvite, b: BackendInvite, t: InvitationStatus)
    ensures TranslateInvite(a) == TranslateInvite(b) ==> a == b
    ensures exists s :: TranslateInvite(s) == t
    ensures TranslateInvite(Unknown) == InviteUnknown
  {
    match t
    case InviteUnknown => assert TranslateInvite(Unknown) == t;
    case InviteAccepted => assert TranslateInvite(Accepted) == t;
    case InvitePendingInbound => assert TranslateInvite(PendingInbound) == t;
    case InvitePendingOutbound => assert TranslateInvite(PendingOutbound) == t;
    case InviteBlocked => assert TranslateInvite(Blocked) == t;
    case InviteSuggested => assert TranslateInvite(Suggested) == t;
  }

  /** EOnlinePresenceState, as the backend reports it. */
  datatype BackendPresence = Online | Offline | Away | ExtendedAway | DoNotDisturb | Chat

  /** EMOSFriendsFriendPresenceStatus. */
  datatype PresenceStatus = StatusOnline | StatusOffline | StatusAway | StatusExtendedAway | StatusDoNotDisturb | StatusChat

  function TranslatePresence(s: BackendPresence): PresenceStatus
  {
    match s
    case Online => StatusOnline
    case Away => StatusAway
    case ExtendedAway => StatusExtendedAway
    case DoNotDisturb => StatusDoNotDisturb
    case Chat => StatusChat
    case Offline => StatusOffline
  }

  /** The presence translation is one-to-one and onto, and keeps Offline. */
  lemma PresenceTranslationBijective(a: BackendPresence, b: BackendPresence, t: PresenceStatus)
    ensures TranslatePresence(a) == TranslatePresence(b) ==> a == b
    ensures exists s :: TranslatePresence(s) == t
    ensures TranslatePresence(Offline) == StatusOffline
  {
    match t
    case StatusOnline => assert TranslatePresence(Online) == t;
    case StatusOffline => assert TranslatePresence(Offline) == t;
    case StatusAway => assert TranslatePresence(Away) == t;
    case StatusExtendedAway => assert TranslatePresence(ExtendedAway) == t;
    case StatusDoNotDisturb => assert TranslatePresence(DoNotDisturb) == t;
    case StatusChat => assert TranslatePresence(Chat) == t;
  }

  /** The attribute keys every friend is asked for. */
  const FixedKeys: seq<string> := [
    "id", "ready", "productUserId", "displayName", "prefDisplayName", "deletable",
    "eosSynthetic.primaryFriend.subsystemName", "eosSynthetic.preferredFriend.subsystemName"]

  /** The three keys asked for per linked subsystem. */
  function SubsystemKeys(name: string): (keys: seq<string>)
    ensures |keys| == 3
  {
    ["eosSynthetic.friend." + name + ".id",
     "eosSynthetic.friend." + name + ".realName",
     "eosSynthetic.friend." + name + ".displayName"]
  }

  /** The keys asked for per external account type: three, and three more
      for "epic" in any case (FString `==` ignores case). */
  function ExternalKeys(accountType: string): (keys: seq<string>)
    ensures |keys| == if SameName(accountType, "epic") then 6 else 3
  {
    var prefix := "externalAccount." + accountType;
    [prefix + ".id", prefix + ".displayName", prefix + ".lastLoginTime.unixTimestampUtc"] +
    (if SameName(accountType, "epic") then [prefix + ".country", prefix + ".nickname", prefix + ".preferredLanguage"] else [])
  }

  /** The concatenation of `f` over the names, in order. */
  function Expand(names: seq<string>, f: string -> seq<string>): seq<string>
  {
    if names == [] then [] else f(names[0]) + Expand(names[1..], f)
  }

  lemma {:induction false} ExpandAppend(names: seq<string>, n: string, f: string -> seq<string>)
    ensures Expand(names + [n], f) == Expand(names, f) + f(n)
  {
    if names != [] {
      assert (names + [n])[1..] == names[1..] + [n];
      ExpandAppend(names[1..], n, f);
    }
  }

  /** The value of an attribute, or "" when the friend does not have it. */
  function AttributeOr(attrs: map<string, string>, key: string): string
  {
    if key in attrs then attrs[key] else ""
  }

  /** The keys asked for, given the friend's attributes: the fixed keys, then
      the keys of each comma-separated subsystem name, then the keys of each
      comma-separated external account type. */
  function AttributeKeys(attrs: map<string, string>): seq<string>
  {
    FixedKeys +
    Expand(SplitCulled(AttributeOr(attrs, "eosSynthetic.subsystemNames"), ','), SubsystemKeys) +
    Expand(SplitCulled(AttributeOr(attrs, "externalAccountTypes"), ','), ExternalKeys)
  }

  /** How many of `names` are `x` ignoring case. */
  function Occurrences(names: seq<string>, x: string): nat
  {
    if names == [] then 0 else (if SameName(names[0], x) then 1 else 0) + Occurrences(names[1..], x)
  }

  /** Each subsystem name contributes three keys and each external account
      type three, or six for "epic" in any case. */
  lemma {:induction false} ExpandLength(names: seq<string>)
    ensures |Expand(names, SubsystemKeys)| == 3 * |names|
    ensures |Expand(names, ExternalKeys)| == 3 * |names| + 3 * Occurrences(names, "epic")
  {
    if names != [] {
      ExpandLength(names[1..]);
    }
  }

  /** The loops that build the key list. */
  method BuildKeys(attrs: map<string, string>) returns (keys: seq<string>)
    ensures keys == AttributeKeys(attrs)
  {
    var names := SplitCulled(AttributeOr(attrs, "eosSynthetic.subsystemNames"), ',');
    var types := SplitCulled(AttributeOr(attrs, "externalAccountTypes"), ',');
    keys := AppendExpanded(FixedKeys, names, SubsystemKeys);
    keys := AppendExpanded(keys, types, ExternalKeys);
  }

  /** One of those loops: the keys of each name, in order, after `start`. */
  method AppendExpanded(start: seq<string>, names: seq<string>, f: string -> seq<string>) returns (keys: seq<string>)
    ensures keys == start + Expand(names, f)
  {
    keys := start;
    for i := 0 to |names|
      invariant keys == start + Expand(names[..i], f)
    {
      ExpandAppend(names[..i], names[i], f);
      assert names[..i + 1] == names[..i] + [names[i]];
      keys := keys + f(names[i]);
    }
    assert names[..|names|] == names;
  }

  /** The attributes copied into the state: exactly the listed keys the
      friend has, with the friend's values. */
  method CopyPresent(keys: seq<string>, attrs: map<string, string>) returns (out: map<string, string>)
    ensures out.Keys == (set i | 0 <= i < |keys| && keys[i] in attrs :: keys[i])
    ensures forall k :: k in out ==> k in attrs && out[k] == attrs[k]
  {
    out := map[];
    for i := 0 to |keys|
      invariant out.Keys == (set j | 0 <= j < i && keys[j] in attrs :: keys[j])
      invariant forall k :: k in out ==> k in attrs && out[k] == attrs[k]
    {
      if keys[i] in attrs {
        out := out[keys[i] := attrs[keys[i]]];
      }
    }
  }

  /** A friend as the backend holds it. */
  datatype BackendFriend = BackendFriend(
    id: string, displayName: string, realName: string, invite: BackendInvite,
    sessionId: string, isOnline: bool, isPlaying: bool, isPlayingThisGame: bool,
    isJoinable: bool, hasVoiceSupport: bool, lastOnline: int,
    statusString: string, state: BackendPresence, properties: map<string, string>,
    attributes: map<string, string>)

  /** FMOSFriendsFriendState. */
  datatype FriendState = FriendState(
    id: string, displayName: string, realName: string, invitationStatus: InvitationStatus,
    presenceSessionId: string, presencePartyId: string, isOnline: bool, isPlaying: bool,
    isPlayingThisGame: bool, isJoinable: bool, hasVoiceSupport: bool, lastOnline: int,
    statusString: string, statusState: PresenceStatus, statusProperties: map<string, string>,
    attributes: map<string, string>)

  /** The state returned when the friend cannot be looked up. */
  const DefaultState: FriendState :=
    FriendState("", "", "", InviteUnknown, "", "", false, false, false, false, false, 0, "", StatusOffline, map[], map[])

  /** The state of a friend. `friend` is the backend's lookup (None: not a
      friend) and `advertisedParty` the id of the party the friend
      advertises, looked up only when the party interface exists. */
  method GetFriendState(env: Env, friend: Option<BackendFriend>, advertisedParty: Option<string>)
    returns (s: FriendState)
    requires CanCall(env, Asserted)
    ensures FriendsGuard(env).Some? || friend.None? ==> s == DefaultState
    ensures FriendsGuard(env).None? && friend.Some? ==>
              var f := friend.value;
              s.id == f.id && s.displayName == f.displayName && s.realName == f.realName &&
              s.invitationStatus == TranslateInvite(f.invite) &&
              s.statusState == TranslatePresence(f.state) &&
              s.presencePartyId == (if Parties in env.value.caps && advertisedParty.Some? then advertisedParty.value else "") &&
              s.presenceSessionId == f.sessionId && s.statusProperties == f.properties &&
              s.isOnline == f.isOnline && s.isPlaying == f.isPlaying && s.isPlayingThisGame == f.isPlayingThisGame &&
              s.isJoinable == f.isJoinable && s.hasVoiceSupport == f.hasVoiceSupport &&
              s.lastOnline == f.lastOnline && s.statusString == f.statusString &&
              s.attributes.Keys == (set i | 0 <= i < |AttributeKeys(f.attributes)| &&
                                             AttributeKeys(f.attributes)[i] in f.attributes :: AttributeKeys(f.attributes)[i]) &&
              forall k :: k in s.attributes ==> k in f.attributes && s.attributes[k] == f.attributes[k]
  {
    if FriendsGuard(env).Some? || friend.None? {
      return DefaultState;
    }
    var f := friend.value;
    var partyId := if Parties in env.value.caps && advertisedParty.Some? then advertisedParty.value else "";
    var keys := BuildKeys(f.attributes);
    var attributes := CopyPresent(keys, f.attributes);
    s := FriendState(f.id, f.displayName, f.realName, TranslateInvite(f.invite), f.sessionId, partyId,
                     f.isOnline, f.isPlaying, f.isPlayingThisGame, f.isJoinable, f.hasVoiceSupport,
                     f.lastOnline, f.statusString, TranslatePresence(f.state), f.properties, attributes);
  }
}
