/*
 * Party operations: the joined parties, pending invites and members, and
 * create, accept-invite, leave, kick and invite, each completing through a
 * per-call delegate whose result enum is translated to its own name.
 * Parties are looked up by their id string; the operations assert that the
 * local user is signed in.
 */
module Parties {
  import opened Wrappers
  import opened ResultSinks
  import opened Calls
  import opened Online
  import opened Lists
  import opened Strings
  import ListSync

  const Unsupported: string := "Online subsystem does not support parties."
  const PartyNotFound: string := "Party not found."
  const InviteNotFound: string := "Invite not found."

  function PartiesGuard(env: Env): (m: Option<string>)
    requires CanCall(env, Asserted)
    ensures m.None? <==> env.Some? && Parties in env.value.caps
    ensures env.Some? && Parties !in env.value.caps ==> m == Some(Unsupported)
  {
    Guard(env, Asserted, [Need(Parties, Unsupported)])
  }

  // ---------------------------------------------------------------------
  // Completion results and their translation

  /** ECreatePartyCompletionResult. */
  datatype CreateResult =
    | UnknownClientFailure | AlreadyInPartyOfSpecifiedType | AlreadyCreatingParty | AlreadyInParty
    | FailedToCreateMucRoom | NoResponse | LoggedOut | NotPrimaryUser | UnknownInternalFailure | Succeeded

  function CreateErrorName(r: CreateResult): (s: string)
    ensures s == "" <==> r == CreateResult.Succeeded
  {
    match r
    case UnknownClientFailure => "UnknownClientFailure"
    case AlreadyInPartyOfSpecifiedType => "AlreadyInPartyOfSpecifiedType"
    case AlreadyCreatingParty => "AlreadyCreatingParty"
    case AlreadyInParty => "AlreadyInParty"
    case FailedToCreateMucRoom => "FailedToCreateMucRoom"
    case NoResponse => "NoResponse"
    case LoggedOut => "LoggedOut"
    case NotPrimaryUser => "NotPrimaryUser"
    case UnknownInternalFailure => "UnknownInternalFailure"
    case Succeeded => ""
  }

  /** EJoinPartyCompletionResult. */
  datatype JoinResult =
    | UnknownClientFailure | BadBuild | InvalidAccessKey | AlreadyInLeadersJoiningList
    | AlreadyInLeadersPartyRoster | NoSpace | NotApproved | RequesteeNotMember | RequesteeNotLeader
    | NoResponse | LoggedOut | UnableToRejoin | IncompatiblePlatform | AlreadyJoiningParty
    | AlreadyInParty | JoinInfoInvalid | AlreadyInPartyOfSpecifiedType | MessagingFailure
    | GameSpecificReason | MismatchedApp | UnknownInternalFailure | Succeeded

  /** The join translation; `ue55` is whether the engine is 5.5 or later, where
      the UnableToRejoin case is compiled out and falls to the default. */
  function JoinErrorName(r: JoinResult, ue55: bool): (s: string)
    ensures s == "" <==> r == JoinResult.Succeeded || (ue55 && r == JoinResult.UnableToRejoin)
  {
    match r
    case UnknownClientFailure => "UnknownClientFailure"
    case BadBuild => "BadBuild"
    case InvalidAccessKey => "InvalidAccessKey"
    case AlreadyInLeadersJoiningList => "AlreadyInLeadersJoiningList"
    case AlreadyInLeadersPartyRoster => "AlreadyInLeadersPartyRoster"
    case NoSpace => "NoSpace"
    case NotApproved => "NotApproved"
    case RequesteeNotMember => "RequesteeNotMember"
    case RequesteeNotLeader => "RequesteeNotLeader"
    case NoResponse => "NoResponse"
    case LoggedOut => "LoggedOut"
    case UnableToRejoin => if ue55 then "" else "UnableToRejoin"
    case IncompatiblePlatform => "IncompatiblePlatform"
    case AlreadyJoiningParty => "AlreadyJoiningParty"
    case AlreadyInParty => "AlreadyInParty"
    case JoinInfoInvalid => "JoinInfoInvalid"
    case AlreadyInPartyOfSpecifiedType => "AlreadyInPartyOfSpecifiedType"
    case MessagingFailure => "MessagingFailure"
    case GameSpecificReason => "GameSpecificReason"
    case MismatchedApp => "MismatchedApp"
    case UnknownInternalFailure => "UnknownInternalFailure"
    case Succeeded => ""
  }

  /** ELeavePartyCompletionResult. */
  datatype LeaveResult =
    | UnknownClientFailure | NoResponse | LoggedOut | UnknownParty | LeavePending | UnknownLocalUser
    | NotMember | MessagingFailure | UnknownTransportFailure | UnknownInternalFailure | Succeeded

  function LeaveErrorName(r: LeaveResult): (s: string)
    ensures s == "" <==> r == LeaveResult.Succeeded
  {
    match r
    case UnknownClientFailure => "UnknownClientFailure"
    case NoResponse => "NoResponse"
    case LoggedOut => "LoggedOut"
    case UnknownParty => "UnknownParty"
    case LeavePending => "LeavePending"
    case UnknownLocalUser => "UnknownLocalUser"
    case NotMember => "NotMember"
    case MessagingFailure => "MessagingFailure"
    case UnknownTransportFailure => "UnknownTransportFailure"
    case UnknownInternalFailure => "UnknownInternalFailure"
    case Succeeded => ""
  }

  /** EKickMemberCompletionResult. */
  datatype KickResult =
    | UnknownClientFailure | UnknownParty | LocalMemberNotMember | LocalMemberNotLeader
    | RemoteMemberNotMember | MessagingFailure | NoResponse | LoggedOut | UnknownInternalFailure | Succeeded

  function KickErrorName(r: KickResult): (s: string)
    ensures s == "" <==> r == KickResult.Succeeded
  {
    match r
    case UnknownClientFailure => "UnknownClientFailure"
    case UnknownParty => "UnknownParty"
    case LocalMemberNotMember => "LocalMemberNotMember"
    case LocalMemberNotLeader => "LocalMemberNotLeader"
    case RemoteMemberNotMember => "RemoteMemberNotMember"
    case MessagingFailure => "MessagingFailure"
    case NoResponse => "NoResponse"
    case LoggedOut => "LoggedOut"
    case UnknownInternalFailure => "UnknownInternalFailure"
    case Succeeded => ""
  }

  /** ESendPartyInvitationCompletionResult. */
  datatype InviteResult =
    | NotLoggedIn | InvitePending | AlreadyInParty | PartyFull | NoPermission | RateLimited
    | UnknownInternalFailure | Succeeded

  function InviteErrorName(r: InviteResult): (s: string)
    ensures s == "" <==> r == InviteResult.Succeeded
  {
    match r
    case NotLoggedIn => "NotLoggedIn"
    case InvitePending => "InvitePending"
    case AlreadyInParty => "AlreadyInParty"
    case PartyFull => "PartyFull"
    case NoPermission => "NoPermission"
    case RateLimited => "RateLimited"
    case UnknownInternalFailure => "UnknownInternalFailure"
    case Succeeded => ""
  }

  /** Distinct failures of one operation give distinct messages (for join,
      as long as both messages are non-empty). */
  lemma TranslationsInjective(c1: CreateResult, c2: CreateResult, j1: JoinResult, j2: JoinResult, ue55: bool,
                              l1: LeaveResult, l2: LeaveResult, k1: KickResult, k2: KickResult,
                              i1: InviteResult, i2: InviteResult)
    ensures CreateErrorName(c1) == CreateErrorName(c2) ==> c1 == c2
    ensures JoinErrorName(j1, ue55) == JoinErrorName(j2, ue55) != "" ==> j1 == j2
    ensures LeaveErrorName(l1) == LeaveErrorName(l2) ==> l1 == l2
    ensures KickErrorName(k1) == KickErrorName(k2) ==> k1 == k2
    ensures InviteErrorName(i1) == InviteErrorName(i2) ==> i1 == i2
  {
    CreateNamesDistinct(c1, c2);
    JoinNamesDistinct(j1, j2, ue55);
    LeaveNamesDistinct(l1, l2);
    KickNamesDistinct(k1, k2);
    InviteNamesDistinct(i1, i2);
  }

  lemma CreateNamesDistinct(a: CreateResult, b: CreateResult)
    ensures CreateErrorName(a) == CreateErrorName(b) ==> a == b
  {
  }

  lemma JoinNamesDistinct(a: JoinResult, b: JoinResult, ue55: bool)
    ensures JoinErrorName(a, ue55) == JoinErrorName(b, ue55) != "" ==> a == b
  {
  }

  lemma LeaveNamesDistinct(a: LeaveResult, b: LeaveResult)
    ensures LeaveErrorName(a) == LeaveErrorName(b) ==> a == b
  {
  }

  lemma KickNamesDistinct(a: KickResult, b: KickResult)
    ensures KickErrorName(a) == KickErrorName(b) ==> a == b
  {
  }

  lemma InviteNamesDistinct(a: InviteResult, b: InviteResult)
    ensures InviteErrorName(a) == InviteErrorName(b) ==> a == b
  {
  }

  /** The outcome an operation delivers for each completion result: failure
      exactly when the translation is non-empty, except a post-5.5
      UnableToRejoin, which fails with an empty message. */
  lemma OutcomeMatchesMessage(c: CreateResult, j: JoinResult, ue55: bool, l: LeaveResult, k: KickResult, i: InviteResult)
    ensures Forward(c == CreateResult.Succeeded, (), CreateErrorName(c)).args.success <==> CreateErrorName(c) == ""
    ensures Forward(l == LeaveResult.Succeeded, (), LeaveErrorName(l)).args.success <==> LeaveErrorName(l) == ""
    ensures Forward(k == KickResult.Succeeded, (), KickErrorName(k)).args.success <==> KickErrorName(k) == ""
    ensures Forward(i == InviteResult.Succeeded, (), InviteErrorName(i)).args.success <==> InviteErrorName(i) == ""
    ensures ue55 && j == JoinResult.UnableToRejoin ==>
              Forward(j == JoinResult.Succeeded, (), JoinErrorName(j, ue55)).args == Args(false, (), "")
  {
  }

  // ---------------------------------------------------------------------
  // Launches

  /** Create party: the guard, then the start call with a per-call delegate
      whose start result is not checked. */
  function CreateLaunch(env: Env): (l: Launch<()>)
    requires CanCall(env, Asserted)
    ensures l.Refuse? <==> PartiesGuard(env).Some?
    ensures l.Refuse? ==> l.args == Args(false, (), PartiesGuard(env).value)
    ensures l.Bind? ==> l.onStartFailure.None?
  {
    GuardedLaunch(PartiesGuard(env), (), None)
  }

  /** Accept invite, leave, kick and invite: the guard, then the selected
      party or invite must exist among `ids` (checked by a selection loop),
      else `notFound` is delivered and the backend is not called. */
  function SelectedLaunch(env: Env, ids: seq<string>, wanted: string, notFound: string): (l: Launch<()>)
    requires CanCall(env, Asserted)
    ensures PartiesGuard(env).Some? ==> l == Refuse(Args(false, (), PartiesGuard(env).value))
    ensures PartiesGuard(env).None? && !HasName(ids, wanted) ==> l == Refuse(Args(false, (), notFound))
    ensures l.Bind? <==> PartiesGuard(env).None? && HasName(ids, wanted)
    ensures l.Bind? ==> l.onStartFailure.None?
  {
    var refusal := if PartiesGuard(env).Some? then PartiesGuard(env)
                   else if !HasName(ids, wanted) then Some(notFound) else None;
    GuardedLaunch(refusal, (), None)
  }

  /** The selection loop over joined parties or pending invites: the first
      whose id string equals `wanted` under FString `==`, which ignores
      case. */
  method SelectById(ids: seq<string>, wanted: string) returns (k: Option<nat>)
    ensures k.None? <==> !HasName(ids, wanted)
    ensures k.Some? ==> k.value < |ids| && SameName(ids[k.value], wanted) && !HasName(ids[..k.value], wanted)
  {
    k := FirstWhere(ids, (id: string) => SameName(id, wanted));
    if k.Some? {
      assert forall j :: 0 <= j < k.value ==> ids[..k.value][j] == ids[j];
    }
  }

  // ---------------------------------------------------------------------
  // Getters

  /** A party the user has joined: its id string and its members, in order. */
  datatype JoinedParty = JoinedParty(id: string, members: seq<string>)

  /** The joined parties as list entries: id and display name are both the
      party id, in order; empty when the subsystem or its party interface is
      missing. */
  method GetJoinedParties(env: Env, joined: seq<JoinedParty>) returns (entries: seq<ListSync.InterfaceListEntry>)
    requires CanCall(env, Asserted)
    ensures PartiesGuard(env).Some? ==> entries == []
    ensures PartiesGuard(env).None? ==> |entries| == |joined|
    ensures PartiesGuard(env).None? ==>
              forall i :: 0 <= i < |joined| ==> entries[i] == ListSync.InterfaceListEntry(joined[i].id, joined[i].id)
  {
    if PartiesGuard(env).Some? {
      return [];
    }
    entries := MapEach(joined, (p: JoinedParty) => ListSync.InterfaceListEntry(p.id, p.id));
  }

  /** A pending invite: the party, who sent it and their display name. */
  datatype PendingInvite = PendingInvite(partyId: string, sourceUserId: string, sourceDisplayName: string)

  /** The pending invites as list entries: the id is the party id and the
      display text is the localised format of the invite, `display`. */
  method GetCurrentInvites(env: Env, invites: seq<PendingInvite>, display: PendingInvite -> string)
    returns (entries: seq<ListSync.InterfaceListEntry>)
    requires CanCall(env, Asserted)
    ensures PartiesGuard(env).Some? ==> entries == []
    ensures PartiesGuard(env).None? ==> |entries| == |invites|
    ensures PartiesGuard(env).None? ==>
              forall i :: 0 <= i < |invites| ==>
                entries[i] == ListSync.InterfaceListEntry(invites[i].partyId, display(invites[i]))
  {
    if PartiesGuard(env).Some? {
      return [];
    }
    entries := MapEach(invites, (v: PendingInvite) => ListSync.InterfaceListEntry(v.partyId, display(v)));
  }

  /** The ids of the joined parties, in order. */
  function PartyIds(joined: seq<JoinedParty>): (ids: seq<string>)
    ensures |ids| == |joined| && forall i :: 0 <= i < |joined| ==> ids[i] == joined[i].id
  {
    if joined == [] then [] else [joined[0].id] + PartyIds(joined[1..])
  }

  /** The members of the first joined party whose id is `wanted`, ignoring
      case, in order; empty when there is none or anything is missing. */
  method GetCurrentMembers(env: Env, joined: seq<JoinedParty>, wanted: string) returns (members: seq<string>)
    requires CanCall(env, Asserted)
    ensures PartiesGuard(env).Some? || !HasName(PartyIds(joined), wanted) ==> members == []
    ensures PartiesGuard(env).None? && HasName(PartyIds(joined), wanted) ==>
              exists k :: 0 <= k < |joined| && SameName(joined[k].id, wanted) && members == joined[k].members &&
                          forall j :: 0 <= j < k ==> !SameName(joined[j].id, wanted)
  {
    if PartiesGuard(env).Some? {
      return [];
    }
    var k := SelectById(PartyIds(joined), wanted);
    if k.None? {
      return [];
    }
    var party := joined[k.value];
    forall j | 0 <= j < k.value ensures !SameName(joined[j].id, wanted) {
      assert PartyIds(joined)[..k.value][j] == joined[j].id;
    }
    members := MapEach(party.members, (m: string) => m);
    assert members == party.members;
  }
}
