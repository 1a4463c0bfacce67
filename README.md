# MultiplayerOnlineSubsystem — a Dafny model of its call layer

MultiplayerOnlineSubsystem is an Unreal Engine plugin. It puts one
Blueprint-friendly game-instance subsystem in front of the engine's online
subsystem: sessions, friends, parties, user cloud and title files, user
lookups, leaderboards, e-commerce, authentication, achievements, stats,
presence, avatars and the signed-in user's details. Every asynchronous
operation of the plugin follows the same pattern, and this project models
that pattern and each operation built on it:

* a **guard** refuses the call at once when there is no online subsystem,
  when nobody is signed in, or when the subsystem lacks the interface the
  operation needs (`Online.Guard`, one `…Guard` per feature);
* otherwise a completion **handler** is bound to the backend's event and the
  backend call is started; a call that fails to start either delivers a
  failure (or, in a few places, a success) and clears the handler, or
  leaves the handler bound, exactly as each source function does
  (`Calls.Launch`, `Calls.LaunchSteps`);
* each event is filtered: the handler ignores events for other users,
  sessions or files, does nothing when the caller's result object is gone,
  and otherwise delivers one result and, for most operations, unbinds
  (`Calls.Reaction`, one `…Reaction` per operation, `Calls.Call.Handle`);
* the **result object** passes its callback on at most once, with the
  arguments of the first delivery (`ResultSinks.Sink.OnResult`).

Beside the pattern the project models the plugin's own data structures: the
call-scoped object pointer that empties itself when its owner is destroyed
(`CallScoped.ScopedPtr`), the in-place synchronisation of a combo-box list
with a fresh list of options (`ListSync.SynchroniseToComboBoxList`), the
game instance's cached session results and party session id
(`Online.GameInstance`), and the event subscriptions the subsystem registers
on start-up (`Events`).

Modules: `Wrappers` (Option), `ResultSinks`, `Calls`, `Online`, `Lists`,
`Strings`, `ListSync`, `CallScoped`, then one module per feature file:
`Sessions`, `Friends`, `Parties`, `UserCloud`, `TitleFile`, `Users`,
`Leaderboards`, `Ecommerce`, `Auth`, `Achievements`, `Stats`, `Presence`,
`Avatar`, `CurrentUser`, `Events`.

The online subsystem is an `Online.Env`. It is None when there is no
subsystem. Otherwise it holds the set of interfaces the subsystem offers,
the signed-in user, their account attributes and their nickname. Backend
events are values that the handlers take as arguments. Codecs (UTF-8,
save-game serialisation) and engine formatting are function parameters.

## Model

| member | source | states |
|---|---|---|
| ResultSinks.Sink.constructor | MultiplayerOnlineSusbsystem/Public/Libraries/MOS_AsyncResult.h:14-17 | a new result object is in the fresh state, with or without a bound callback |
| ResultSinks.Sink.OnResult | Private/Libraries/MOS_AsyncResult.cpp:6-16 | one delivery is one step: the flag is set, and the callback runs only on the first delivery and only when bound |
| ResultSinks.ReplayAfterFlag | Private/Libraries/MOS_SessionsFindSessionsAsyncResult.cpp:8-18 | once the flag is set, any further deliveries change nothing |
| ResultSinks.AtMostOnceWithFirstArgs | Private/Libraries/MOS_ListAsyncResult.cpp:6-15 | over any sequence of deliveries the callback receives at most one set of arguments, the first; the flag is set iff something was delivered |
| ResultSinks.FlagIsMonotone | Private/Libraries/MOS_TextAsyncResult.cpp:6-12 | the flag is never cleared and what was received is never lost |
| Calls.GuardedLaunch | Private/MOS_OnlineAPI.Sessions.cpp:27-128 | a guard message refuses the call with failure, the empty payload and that message; without one the handler is bound with the operation's start-failure behaviour |
| Calls.LaunchSteps | Private/MOS_OnlineAPI.Sessions.cpp:70-128 | a refused call only delivers; a bound call binds first, and a failed start then delivers and unbinds in the operation's own order, or does nothing when the source ignores the start result |
| Calls.BoundAfterLaunch | Private/MOS_OnlineAPI.Sessions.cpp:124-128 | the handler stays bound after a launch iff the launch did nothing but bind |
| Calls.LaunchDelivery | Private/MOS_OnlineAPI.Sessions.cpp:124-128 | the single delivery a launch makes, if any, is the only delivery among its steps |
| Calls.EventSteps | Private/MOS_OnlineAPI.Sessions.cpp:74-121 | an ignored event or a dead result object does nothing; otherwise the event delivers first and unbinds iff the reaction says so |
| Calls.Call.constructor | Private/MOS_OnlineAPI.Sessions.cpp:70-71 | a new call has a live result object, nothing bound and no steps |
| Calls.Call.Begin | Private/MOS_OnlineAPI.Sessions.cpp:70-128 | after a launch the call's steps are the launch's steps, and the result object saw exactly the launch's delivery |
| Calls.Call.Handle | Private/MOS_OnlineAPI.Sessions.cpp:74-121 | an event appends its steps; the handler is unbound iff the reaction delivers and unbinds to a live result object; the result object sees exactly that delivery |
| Calls.Call.SinkGone | Private/MOS_OnlineAPI.Sessions.cpp:82-85 | once the caller's result object is gone, the call no longer delivers |
| Calls.ForwardTwice | MultiplayerOnlineSusbsystem/Private/MOS_OnlineAPI.Parties.cpp:128-133 | a per-call completion delegate (the party, friend-list and offer completions) never unbinds; on a live result object that has not called back, the first completion's arguments reach the callback and a second completion's do not |
| Calls.OtherUserThenOwn | Private/MOS_OnlineAPI.Auth.cpp:61-79 | a handler filtered on its user (login, the friends user query, entitlements) ignores another user's event, staying bound with the result object untouched, then delivers its own user's outcome and message and unbinds |
| Calls.ForwardSteps | Private/MOS_OnlineAPI.Ecommerce.cpp:128-139 | a user-filtered handler delivers and unbinds exactly for its user's events on a live result object; an FOnlineError completion delivers its success flag and log string and never unbinds |
| Online.FirstMissing | Private/MOS_OnlineAPI.Friends.cpp:946-960 | no message iff every needed interface is present; otherwise the message of the first missing one, in the order the source tests them |
| Online.Guard | Private/MOS_OnlineAPI.Sessions.cpp:30-56 | the call may go ahead iff there is a subsystem, the user is signed in where that is required, and every needed interface exists; otherwise the message of the first test that fails |
| Online.SignedInUser | Private/MOS_OnlineAPI.CurrentUser.cpp:27-53 | a user id exists iff there is a subsystem with an identity interface and someone is signed in |
| Online.GameInstance.constructor | Public/MOS_GameInstanceSubsystem.h:41-73 | a new subsystem has empty session caches, no cached party session id and no login in progress |
| Lists.CollectAppend | Private/MOS_OnlineAPI.Users.cpp:212-219 | collecting one more item appends its value when it has one |
| Lists.CollectMembers | Private/MOS_OnlineAPI.Achievements.cpp:102-118 | the collected values are exactly those of items that have one, and there are no more of them than items |
| Lists.CollectTotal | Private/MOS_OnlineAPI.Ecommerce.cpp:228-239 | when every item has a value, collecting keeps one value per item, in order |
| Lists.MapEach | Private/MOS_OnlineAPI.Ecommerce.cpp:80-87 | the loop produces one converted entry per item, in order |
| Lists.CollectEach | Private/MOS_OnlineAPI.Users.cpp:212-219 | the loop skips the items without a value and keeps the others in order |
| Lists.FirstWhere | MultiplayerOnlineSusbsystem/Private/MOS_OnlineAPI.Parties.cpp:389-405 | the loop finds the first matching index, or none iff nothing matches |
| Strings.LessIrreflexive | MultiplayerOnlineSusbsystem/Private/Libraries/MOS_Types.cpp:62-66 | the character order on which the sort's case-insensitive comparison is built is irreflexive |
| Strings.LessTransitive | MultiplayerOnlineSusbsystem/Private/Libraries/MOS_Types.cpp:62-66 | that character order is transitive |
| Strings.LessTotal | MultiplayerOnlineSusbsystem/Private/Libraries/MOS_Types.cpp:62-66 | any two different texts are ordered one way or the other by it |
| Strings.LessAsymmetric | MultiplayerOnlineSusbsystem/Private/Libraries/MOS_Types.cpp:62-66 | no two texts are each less than the other |
| Strings.Token | Private/MOS_OnlineAPI.Users.cpp:222-225 | the first token is a prefix free of the separator, ended by the separator or the end of the text |
| Strings.SplitCulledPieces | Private/MOS_OnlineAPI.Users.cpp:222-225 | splitting with empty pieces culled gives non-empty pieces without the separator |
| Strings.TokenOfJoined | Private/MOS_OnlineAPI.Users.cpp:222-225 | the first token of a separator-free text followed by the separator is that text |
| Strings.SplitJoinRoundTrip | Private/MOS_OnlineAPI.Users.cpp:222-225 | joining non-empty, separator-free pieces with the separator and splitting again gives the pieces back |
| Strings.SameNameIsFoldedEquality | Private/MOS_OnlineAPI.Sessions.cpp:381-381 | FName equality ignores case: two names are the same exactly when their case-folded strings are equal, and equal strings are the same name |
| Strings.LessIgnoringCaseIsWeakOrder | MultiplayerOnlineSusbsystem/Private/Libraries/MOS_Types.cpp:62-66 | FString `<` (the character order on case-folded ids) is irreflexive and transitive, and two ids are unordered by it exactly when they are equal ignoring case |
| Strings.FoldingReordersExample | MultiplayerOnlineSusbsystem/Private/Libraries/MOS_Types.cpp:62-66 | the case-insensitive order puts "assets.bin" before "Config.json", where the exact character order puts it after |
| ListSync.UIListEntry.constructor | MultiplayerOnlineSusbsystem/Private/Libraries/MOS_Types.cpp:6-10 | a new entry carries the given id and display name |
| ListSync.NonNullKeepsValid | MultiplayerOnlineSusbsystem/Private/Libraries/MOS_Types.cpp:17-23 | removing invalid entries leaves exactly the valid entries |
| ListSync.NonNullOfValid | MultiplayerOnlineSusbsystem/Private/Libraries/MOS_Types.cpp:17-23 | a list without invalid entries is left alone |
| ListSync.RemoveInvalid | MultiplayerOnlineSusbsystem/Private/Libraries/MOS_Types.cpp:17-23 | the removal loop computes the list without invalid entries |
| ListSync.TargetMapKeys | MultiplayerOnlineSusbsystem/Private/Libraries/MOS_Types.cpp:28-31 | the target map holds exactly the case-folded ids of the options, each under the folded id of an option it came from |
| ListSync.TargetMapLastWins | MultiplayerOnlineSusbsystem/Private/Libraries/MOS_Types.cpp:28-31 | for ids equal ignoring case, the last such option wins, with its own id spelling and display name |
| ListSync.BuildTargetOptions | MultiplayerOnlineSusbsystem/Private/Libraries/MOS_Types.cpp:28-31 | the loop builds the target map |
| ListSync.LastByIdKeys | MultiplayerOnlineSusbsystem/Private/Libraries/MOS_Types.cpp:32-35 | the current map holds an entry of the list under its case-folded id, for every id in the list |
| ListSync.LastByIdIsLast | MultiplayerOnlineSusbsystem/Private/Libraries/MOS_Types.cpp:32-35 | for ids equal ignoring case, the current map holds the last entry with such an id |
| ListSync.DistinctIdsAllTracked | MultiplayerOnlineSusbsystem/Private/Libraries/MOS_Types.cpp:32-35 | with ids distinct ignoring case, every entry is tracked under its folded id |
| ListSync.BuildCurrentOptions | MultiplayerOnlineSusbsystem/Private/Libraries/MOS_Types.cpp:32-35 | the loop builds the current map |
| ListSync.ApplyTargets | MultiplayerOnlineSusbsystem/Private/Libraries/MOS_Types.cpp:38-50 | tracked entries take the target's name; one fresh entry per target id not yet in the list (ignoring case) is appended, with the spelling and name of the last option for it |
| ListSync.ApplyRemovals | MultiplayerOnlineSusbsystem/Private/Libraries/MOS_Types.cpp:53-59 | the loop removes exactly the tracked entries whose id, ignoring case, is no longer a target |
| ListSync.WithoutMembers | MultiplayerOnlineSusbsystem/Private/Libraries/MOS_Types.cpp:53-59 | removal keeps exactly the entries not removed |
| ListSync.WithoutAppend | MultiplayerOnlineSusbsystem/Private/Libraries/MOS_Types.cpp:53-59 | removal distributes over concatenation |
| ListSync.WithoutTwice | MultiplayerOnlineSusbsystem/Private/Libraries/MOS_Types.cpp:53-59 | two removals are one removal of the union |
| ListSync.WithoutNothing | MultiplayerOnlineSusbsystem/Private/Libraries/MOS_Types.cpp:53-59 | removing entries that are not in the list changes nothing |
| ListSync.Insert | MultiplayerOnlineSusbsystem/Private/Libraries/MOS_Types.cpp:62-66 | inserting into a sorted list keeps it sorted and adds exactly the entry |
| ListSync.SortById | MultiplayerOnlineSusbsystem/Private/Libraries/MOS_Types.cpp:62-66 | the result is sorted by the case-insensitive id order and is a permutation of the input |
| ListSync.SortedPermutationIsUnique | MultiplayerOnlineSusbsystem/Private/Libraries/MOS_Types.cpp:62-66 | with ids distinct ignoring case, there is only one sorted order, so the unstable sort's result is determined |
| ListSync.PermutationKeepsDistinct | MultiplayerOnlineSusbsystem/Private/Libraries/MOS_Types.cpp:62-66 | sorting keeps ids distinct ignoring case |
| ListSync.WithoutKeepsDistinct | MultiplayerOnlineSusbsystem/Private/Libraries/MOS_Types.cpp:53-59 | removal keeps ids distinct ignoring case |
| ListSync.TrackedNames | MultiplayerOnlineSusbsystem/Private/Libraries/MOS_Types.cpp:38-50 | every tracked entry that stays carries its target's name |
| ListSync.PiecesMakeSurvivors | MultiplayerOnlineSusbsystem/Private/Libraries/MOS_Types.cpp:12-66 | the valid entries plus the new ones, minus the stale ones, are the survivors plus the new ones |
| ListSync.OutcomeFromPieces | MultiplayerOnlineSusbsystem/Private/Libraries/MOS_Types.cpp:12-66 | the four loops together produce the sorted permutation of survivors and new entries |
| ListSync.TargetEntriesStay | MultiplayerOnlineSusbsystem/Private/Libraries/MOS_Types.cpp:12-66 | a valid entry whose id is still a target, ignoring case, is never removed |
| ListSync.SynchroniseToComboBoxList | MultiplayerOnlineSusbsystem/Private/Libraries/MOS_Types.cpp:12-66 | the list becomes the sorted survivors plus fresh entries for ids new ignoring case, carrying the last option's spelling and name; tracked entries are renamed to the target name; entries whose id stays are kept; with ids distinct ignoring case the list shows exactly the target ids |
| ListSync.DistinctInputSurvivors | MultiplayerOnlineSusbsystem/Private/Libraries/MOS_Types.cpp:12-66 | with ids distinct ignoring case, the survivors are exactly the valid entries whose id is a target, all of them renamed |
| ListSync.EarlierDuplicateIsNotTracked | MultiplayerOnlineSusbsystem/Private/Libraries/MOS_Types.cpp:32-35 | of two entries whose ids are equal ignoring case only the later is tracked: the earlier is neither renamed nor, when its id is gone, removed |
| ListSync.CaseOnlyChangeRenamesInPlace | MultiplayerOnlineSusbsystem/Private/Libraries/MOS_Types.cpp:26-50 | an entry whose option changed only the case of its id is kept and renamed in place, not replaced by a new entry |
| ListSync.DistinctInputShowsTargets | MultiplayerOnlineSusbsystem/Private/Libraries/MOS_Types.cpp:12-66 | with ids distinct ignoring case, the result shows each target id exactly once |
| ListSync.DistinctInputNames | MultiplayerOnlineSusbsystem/Private/Libraries/MOS_Types.cpp:12-66 | with ids distinct ignoring case, every entry of the result shows its target's name |
| ListSync.SynchronisedIsFixedPoint | MultiplayerOnlineSusbsystem/Private/Libraries/MOS_Types.cpp:12-66 | a sorted list with ids distinct ignoring case, already showing the targets, has nothing to add or remove, and all of it is renamed in place |
| ListSync.SecondRunIsNoOp | MultiplayerOnlineSusbsystem/Private/Libraries/MOS_Types.cpp:12-66 | synchronising such a list again adds nothing and leaves it as it is |
| CallScoped.CallManager.constructor | Public/Libraries/MOS_CallManagerBase.h:14-18 | a new owner is alive with no destruction subscribers |
| CallScoped.CallManager.BroadcastDestruction | Public/Libraries/MOS_CallScopedOjectPtr.h:45-47 | a deriving manager that broadcasts on destruction empties every pointer subscribed to it |
| CallScoped.CallManager.Destroy | Public/Libraries/MOS_CallManagerBase.h:16-16 | the base manager's defaulted destructor broadcasts nothing: its subscribers keep object and handle but are no longer valid, because their owner is gone |
| CallScoped.ScopedPtr.constructor | Public/Libraries/MOS_CallScopedOjectPtr.h:35-40 | a default pointer is empty, ownerless and subscribed to nothing |
| CallScoped.ScopedPtr.FromOwner | Public/Libraries/MOS_CallScopedOjectPtr.h:41-48 | the pointer holds the object and subscribes to the owner's destruction under a new handle |
| CallScoped.ScopedPtr.Copy | Public/Libraries/MOS_CallScopedOjectPtr.h:49-86 | a copy shares owner and object; with a live owner it subscribes under the owner's next handle, which is added to the owner's handlers and nothing else changes there; with a dead owner the owner is untouched; the original is unchanged |
| CallScoped.ScopedPtr.Move | Public/Libraries/MOS_CallScopedOjectPtr.h:61-73 | the new pointer takes owner and object; with a live owner the source's handler is replaced by the new pointer's under the next handle; the source is emptied and unsubscribed |
| CallScoped.ScopedPtr.Bind | Public/Libraries/MOS_CallScopedOjectPtr.h:54-58 | with a live owner the pointer subscribes under a new handle; otherwise nothing changes |
| CallScoped.ScopedPtr.Cleanup | Public/Libraries/MOS_CallScopedOjectPtr.h:20-32 | the pointer is emptied and, when its owner lives, its subscription is removed |
| CallScoped.ScopedPtr.Adopt | Public/Libraries/MOS_CallScopedOjectPtr.h:95-104 | after cleanup, copying the other's owner and object and rebinding subscribes the target under the owner's next handle |
| CallScoped.ScopedPtr.Reset | Public/Libraries/MOS_CallScopedOjectPtr.h:160-163 | after a reset the pointer is empty and not valid |
| CallScoped.ScopedPtr.CopyAssign | Public/Libraries/MOS_CallScopedOjectPtr.h:92-121 | copy assignment as written: the target takes the other's owner and object, except that a self-assignment empties it; the old owner drops the target's old handler, keeps every other handler and stays consistent; the new live owner gains exactly the target under its next handle |
| CallScoped.ScopedPtr.CopyAssignGuarded | Public/Libraries/MOS_CallScopedOjectPtr.h:92-105 | corrected copy assignment: a self-assignment changes nothing; any other takes the other's owner and object, the old owner drops the target's old handler, and the new live owner gains exactly the target under its next handle |
| CallScoped.ScopedPtr.MoveAssign | Public/Libraries/MOS_CallScopedOjectPtr.h:123-137 | the target takes the other's owner and object; the other is emptied and unsubscribed; the owner's handlers lose the two pointers' old handles and gain the target under the next handle; nothing else changes there |
| CallScoped.ScopedPtr.Destroy | Public/Libraries/MOS_CallScopedOjectPtr.h:87-90 | destruction empties the pointer and removes its subscription |
| CallScoped.ScopedPtr.Get | Public/Libraries/MOS_CallScopedOjectPtr.h:150-158 | the raw pointee, whatever the owner's state: no liveness check is made |
| CallScoped.ScopedPtr.Deref | Public/Libraries/MOS_CallScopedOjectPtr.h:144-148 | dereferencing requires a valid pointer and gives its object |
| CallScoped.EqualPointersHashAlike | Public/Libraries/MOS_CallScopedOjectPtr.h:165-173 | pointers that compare equal hash alike, and equality is symmetric |
| CallScoped.SelfCopyAssignEmpties | Public/Libraries/MOS_CallScopedOjectPtr.h:92-105 | a valid pointer copy-assigned to itself as written ends empty |
| CallScoped.GuardedSelfCopyAssignKeeps | Public/Libraries/MOS_CallScopedOjectPtr.h:92-105 | with the corrected assignment it keeps its object |
| Sessions.SessionGuard | Private/MOS_OnlineAPI.Sessions.cpp:30-56 | session calls need a subsystem, a signed-in user and the session interface; a missing interface gives the unsupported message |
| Sessions.MessagesIdentifyOp | Private/MOS_OnlineAPI.Sessions.cpp:707-1071 | each session operation has its own failure message and its own start-failure message, and no failure message is a start-failure message |
| Sessions.OpLaunch | Private/MOS_OnlineAPI.Sessions.cpp:707-771 | a refused session call fails with the guard message; a bound one delivers SUCCESS with the start-failure message when the start fails, then clears |
| Sessions.OpReaction | Private/MOS_OnlineAPI.Sessions.cpp:858-922 | only events for the call's session, compared ignoring case, are taken; success mirrors the event, an empty error iff success, the operation's message otherwise; always unbinds |
| Sessions.EventNameCaseIgnored | Private/MOS_OnlineAPI.Sessions.cpp:375-433 | session handlers compare session names as FNames (IsEqual at Sessions.cpp:252, 381, 517, 744, 809, 895, 966): a name differing only in case is taken all the same |
| Sessions.StartFailureReportsSuccess | Private/MOS_OnlineAPI.Sessions.cpp:768-770 | a failed start of a permitted session call binds, delivers success with the message, and leaves nothing bound |
| Sessions.RefusalBindsNothing | Private/MOS_OnlineAPI.Sessions.cpp:30-56 | a refused session call never binds and delivers the guard message |
| Sessions.WithInfoAppend | Private/MOS_OnlineAPI.Sessions.cpp:98-114 | the refill loop keeps a row iff it has session info |
| Sessions.WithInfoSelects | Private/MOS_OnlineAPI.Sessions.cpp:98-114 | the cached rows are exactly the rows with session info, and all rows survive iff all have info |
| Sessions.FindLaunch | Private/MOS_OnlineAPI.Sessions.cpp:27-128 | a refused search fails with the guard message; a failed start delivers success with no rows and clears |
| Sessions.FindReaction | Private/MOS_OnlineAPI.Sessions.cpp:74-121 | only a finished search is taken; a failure delivers the search-failed message, a success the rows with session info; both unbind |
| Sessions.Refill | Private/MOS_OnlineAPI.Sessions.cpp:95-114 | both caches of the game instance are emptied and refilled with the rows that have session info |
| Sessions.HandleFind | Private/MOS_OnlineAPI.Sessions.cpp:74-121 | the handler delivers as FindReaction says; the caches are refilled iff the search is done and the result object lives |
| Sessions.JoinErrorName | Private/MOS_OnlineAPI.Sessions.cpp:394-420 | the translated join error is empty iff the join succeeded |
| Sessions.JoinErrorNameInjective | Private/MOS_OnlineAPI.Sessions.cpp:394-420 | different join results give different error names |
| Sessions.SelectSession | Private/MOS_OnlineAPI.Sessions.cpp:362-371 | a cached search result is selected iff one has the wanted session id, compared ignoring case |
| Sessions.JoinLaunch | Private/MOS_OnlineAPI.Sessions.cpp:331-441 | a refused join fails with the guard message; a failed start delivers success with the start-failure message and clears |
| Sessions.JoinReaction | Private/MOS_OnlineAPI.Sessions.cpp:375-433 | only events for the session, compared ignoring case, are taken; success iff the join succeeded, with its translated error; always unbinds |
| Sessions.JoinWithPartyLaunch | Private/MOS_OnlineAPI.Sessions.cpp:460-503 | after the guard, a search result without session info is refused before anything is bound |
| Sessions.JoinWithPartyReaction | Private/MOS_OnlineAPI.Sessions.cpp:507-622 | a failed join reacts as a plain join; after success a missing subsystem or party interface fails without unbinding, else success and unbind |
| Sessions.FirstLed | Private/MOS_OnlineAPI.Sessions.cpp:584-594 | the party advertised is the first joined party the user leads, or none iff they lead none |
| Sessions.SelectLedParty | Private/MOS_OnlineAPI.Sessions.cpp:584-594 | the loop finds that first led party |
| Sessions.HandleJoinWithParty | Private/MOS_OnlineAPI.Sessions.cpp:507-622 | the handler delivers as JoinWithPartyReaction says; after a delivered success, when the user leads a joined party, the first such party advertises the joined session id and the game instance caches it; otherwise nothing is cached or advertised |
| Sessions.GetSessionId | Private/MOS_OnlineAPI.Sessions.cpp:632-664 | the named session's id when sessions are readable and a session of that name, ignoring case, exists; else the empty string |
| Sessions.GetRegisteredPlayerIds | Private/MOS_OnlineAPI.Sessions.cpp:666-705 | the registered players of the session of that name (ignoring case), in order, or none |
| Sessions.NamedLookupIgnoresCase | Private/MOS_OnlineAPI.Sessions.cpp:656-663 | two spellings of a session name that differ only in case find the same session id |
| Sessions.InviteUIRequest | Private/MOS_OnlineAPI.Sessions.cpp:838-856 | the invite UI is shown iff the external UI interface exists, for this user and session |
| Friends.FriendsGuard | Private/MOS_OnlineAPI.Friends.cpp:15-34 | friends calls need a subsystem and the friends interface; otherwise the unsupported message |
| Friends.DelegateStartFailure | Private/MOS_OnlineAPI.Friends.cpp:253-345 | setting and deleting an alias ignore the start result; the other delegate calls report a failed start with their own message |
| Friends.DelegateLaunch | Private/MOS_OnlineAPI.Friends.cpp:12-59 | a refused delegate call fails with the guard message; a bound one has the operation's start failure |
| Friends.DelegateStartFailureUnbinds | Private/MOS_OnlineAPI.Friends.cpp:55-58 | a failed start of a reporting delegate call delivers failure and leaves nothing bound |
| Friends.TargetedLaunch | Private/MOS_OnlineAPI.Friends.cpp:455-520 | a refused targeted call fails with the guard message; a failed start clears the handler, then delivers failure |
| Friends.TargetedReaction | Private/MOS_OnlineAPI.Friends.cpp:692-757 | only events for this user and target are taken; the event's outcome and error are delivered and the handler unbinds |
| Friends.UserQueryLaunch | Private/MOS_OnlineAPI.Friends.cpp:589-652 | a refused per-user query fails with the guard message; a failed start clears, then delivers failure |
| Friends.FriendCodeQuery | Private/MOS_OnlineAPI.Friends.cpp:962-965 | the mapping query is the prefix "FriendCode:" followed by the code |
| Friends.FriendCodeLaunch | Private/MOS_OnlineAPI.Friends.cpp:928-995 | without the friends interface, then without the user interface, the call is refused with that interface's message |
| Friends.FriendCodeOutcome | Private/MOS_OnlineAPI.Friends.cpp:966-990 | a failed mapping delivers the backend's error; a found user goes on to the invitation |
| Friends.GetCurrentFriends | Private/MOS_OnlineAPI.Friends.cpp:61-96 | the ids of the friends list in order, or none when refused or the list cannot be read |
| Friends.GetPlayers | Private/MOS_OnlineAPI.Friends.cpp:654-690 | one entry per recent or blocked player, in order, or none |
| Friends.CurrentFriendCode | Private/MOS_OnlineAPI.Friends.cpp:997-1026 | the signed-in user's friend-code attribute, or the empty string |
| Friends.InviteTranslationBijective | Private/MOS_OnlineAPI.Friends.cpp:144-164 | the invite-status translation is one-to-one and onto |
| Friends.PresenceTranslationBijective | Private/MOS_OnlineAPI.Friends.cpp:176-197 | the presence-status translation is one-to-one and onto |
| Friends.SubsystemKeys | Private/MOS_OnlineAPI.Friends.cpp:216-223 | three attribute keys per subsystem name |
| Friends.ExternalKeys | Private/MOS_OnlineAPI.Friends.cpp:226-238 | three keys per external account, six when its type is "epic" in any case |
| Friends.ExpandAppend | Private/MOS_OnlineAPI.Friends.cpp:216-238 | expanding one more name appends its keys |
| Friends.ExpandLength | Private/MOS_OnlineAPI.Friends.cpp:216-238 | how many keys the expansion yields, per subsystem and per account of type "epic" in any case |
| Friends.BuildKeys | Private/MOS_OnlineAPI.Friends.cpp:204-238 | the loops build the fixed keys followed by the expanded keys |
| Friends.AppendExpanded | Private/MOS_OnlineAPI.Friends.cpp:216-238 | each loop appends the keys of every name, in order, after the keys already built |
| Friends.CopyPresent | Private/MOS_OnlineAPI.Friends.cpp:240-247 | the copied attributes are exactly the listed keys the friend has, with their values |
| Friends.GetFriendState | Private/MOS_OnlineAPI.Friends.cpp:98-251 | the default state when refused or unknown; otherwise the friend's id, name, translated statuses, advertised party and copied attributes |
| Parties.PartiesGuard | MultiplayerOnlineSusbsystem/Private/MOS_OnlineAPI.Parties.cpp:46-66 | party calls need a subsystem and the party interface |
| Parties.CreateErrorName | MultiplayerOnlineSusbsystem/Private/MOS_OnlineAPI.Parties.cpp:99-131 | the create error is empty iff the party was created |
| Parties.JoinErrorName | MultiplayerOnlineSusbsystem/Private/MOS_OnlineAPI.Parties.cpp:239-309 | the join error is empty iff joined, or, on engine 5.5 and later, unable to rejoin |
| Parties.LeaveErrorName | MultiplayerOnlineSusbsystem/Private/MOS_OnlineAPI.Parties.cpp:423-458 | the leave error is empty iff the party was left |
| Parties.KickErrorName | MultiplayerOnlineSusbsystem/Private/MOS_OnlineAPI.Parties.cpp:528-560 | the kick error is empty iff the member was kicked |
| Parties.InviteErrorName | MultiplayerOnlineSusbsystem/Private/MOS_OnlineAPI.Parties.cpp:630-656 | the invite error is empty iff the invitation was sent |
| Parties.TranslationsInjective | MultiplayerOnlineSusbsystem/Private/MOS_OnlineAPI.Parties.cpp:99-656 | each translation gives different results different non-empty names |
| Parties.OutcomeMatchesMessage | MultiplayerOnlineSusbsystem/Private/MOS_OnlineAPI.Parties.cpp:274-278 | a party call succeeds iff its error is empty, except that a tolerated rejoin failure reports failure with an empty error |
| Parties.CreateLaunch | MultiplayerOnlineSusbsystem/Private/MOS_OnlineAPI.Parties.cpp:44-134 | a refused create fails with the guard message; a bound one never reports a failed start |
| Parties.SelectedLaunch | MultiplayerOnlineSusbsystem/Private/MOS_OnlineAPI.Parties.cpp:364-405 | after the guard, a party or invitation whose id is not in the list, ignoring case, is refused with the operation's not-found message |
| Parties.SelectById | MultiplayerOnlineSusbsystem/Private/MOS_OnlineAPI.Parties.cpp:491-506 | the first index holding the wanted id ignoring case, none before it, or none iff no id matches |
| Parties.GetJoinedParties | MultiplayerOnlineSusbsystem/Private/MOS_OnlineAPI.Parties.cpp:8-42 | one list entry per joined party, in order, or none when refused |
| Parties.GetCurrentInvites | MultiplayerOnlineSusbsystem/Private/MOS_OnlineAPI.Parties.cpp:136-174 | one list entry per pending invitation, with its display text, or none |
| Parties.PartyIds | MultiplayerOnlineSusbsystem/Private/MOS_OnlineAPI.Parties.cpp:336-361 | the ids of the joined parties, in order |
| Parties.GetCurrentMembers | MultiplayerOnlineSusbsystem/Private/MOS_OnlineAPI.Parties.cpp:314-362 | the members of the first joined party whose id matches ignoring case, or none when refused or not joined |
| UserCloud.UserCloudGuard | MultiplayerOnlineSusbsystem/Private/MOS_OnlineAPI.UserCloud.cpp:28-36 | user cloud calls need a subsystem, a signed-in user and the user cloud interface |
| UserCloud.QueryFilesLaunch | MultiplayerOnlineSusbsystem/Private/MOS_OnlineAPI.UserCloud.cpp:11-91 | a refused listing fails with the guard message; a bound one stays bound whatever the start result |
| UserCloud.QueryFilesReaction | MultiplayerOnlineSusbsystem/Private/MOS_OnlineAPI.UserCloud.cpp:47-86 | only the user's events are taken; failure gives the enumeration message, success one entry per file in order; always unbinds |
| UserCloud.WriteStringLaunch | MultiplayerOnlineSusbsystem/Private/MOS_OnlineAPI.UserCloud.cpp:93-161 | a refused write fails with the guard message; a failed start delivers failure, then clears |
| UserCloud.WriteSaveGameLaunch | MultiplayerOnlineSusbsystem/Private/MOS_OnlineAPI.UserCloud.cpp:163-237 | after the guard, a save game that does not serialise is refused before anything is bound |
| UserCloud.WriteReaction | MultiplayerOnlineSusbsystem/Private/MOS_OnlineAPI.UserCloud.cpp:134-152 | only events for this user and file (file name compared ignoring case) are taken; the error is empty iff the write succeeded; always unbinds |
| UserCloud.ReadLaunch | MultiplayerOnlineSusbsystem/Private/MOS_OnlineAPI.UserCloud.cpp:239-319 | a refused read fails with the guard message; a failed start delivers failure, then clears |
| UserCloud.ReadReaction | MultiplayerOnlineSusbsystem/Private/MOS_OnlineAPI.UserCloud.cpp:371-396 | only events for this user and file (name compared ignoring case) are taken; success iff the read succeeded, the contents exist and they decode; each failure has its own message |
| UserCloud.ReadStringReaction | MultiplayerOnlineSusbsystem/Private/MOS_OnlineAPI.UserCloud.cpp:276-310 | a string read delivers the decoded contents, or a read or contents failure |
| UserCloud.ReadSaveGameReaction | MultiplayerOnlineSusbsystem/Private/MOS_OnlineAPI.UserCloud.cpp:321-407 | a save-game read fails with the deserialise message when the bytes do not load |
| UserCloud.Written | MultiplayerOnlineSusbsystem/Private/MOS_OnlineAPI.UserCloud.cpp:121-122 | a completed write stores the bytes under the user and file and leaves other files alone |
| UserCloud.WriteThenReadString | MultiplayerOnlineSusbsystem/Private/MOS_OnlineAPI.UserCloud.cpp:93-319 | a string written and read back is delivered unchanged, also after a write to another file |
| UserCloud.WriteThenReadSaveGame | MultiplayerOnlineSusbsystem/Private/MOS_OnlineAPI.UserCloud.cpp:163-407 | a save game written and read back delivers the number narrowed to single precision (UserCloud.cpp:192), given a serialisation that loads back; a number the narrowing changes does not come back |
| TitleFile.TitleFileGuard | Private/MOS_OnlineAPI.TitleFile.cpp:26-34 | title file calls need a subsystem and the title file interface |
| TitleFile.QueryFilesLaunch | Private/MOS_OnlineAPI.TitleFile.cpp:9-79 | a refused listing fails with the guard message; a bound one stays bound whatever the start result |
| TitleFile.QueryFilesReaction | Private/MOS_OnlineAPI.TitleFile.cpp:51-74 | every event is taken: failure forwards the backend's message, success lists the files in order; always unbinds |
| TitleFile.BothCallersAnswered | Private/MOS_OnlineAPI.TitleFile.cpp:9-79 | two listings in flight are both answered by the first event, alike, and both unbind |
| TitleFile.ReadLaunch | Private/MOS_OnlineAPI.TitleFile.cpp:81-159 | a refused read fails with the guard message; a failed start delivers failure, then clears |
| TitleFile.ReadReaction | Private/MOS_OnlineAPI.TitleFile.cpp:117-151 | only events for the file (name compared ignoring case) are taken; success iff read and contents exist, delivering the decoded text |
| Users.UsersGuard | Private/MOS_OnlineAPI.Users.cpp:26-31 | user lookups need a subsystem and the user interface |
| Users.QueryUserInfoLaunch | Private/MOS_OnlineAPI.Users.cpp:9-103 | after the guard, a target id that does not parse is refused; a failed start delivers failure, then clears |
| Users.QueryUserInfoReaction | Private/MOS_OnlineAPI.Users.cpp:57-94 | only events whose user list holds the very reference the query was made with are taken (shared-reference identity, not id equality); success iff the query succeeded and the user is known, delivering "id = name" |
| Users.ReactionMatchesReference | Private/MOS_OnlineAPI.Users.cpp:57-61 | an event handing back the query's reference is taken; one listing the same id under another reference is ignored |
| Users.InfoTextStartsWithId | Private/MOS_OnlineAPI.Users.cpp:85-94 | the success text starts with the id followed by " = " |
| Users.QueryByDisplayNameLaunch | Private/MOS_OnlineAPI.Users.cpp:105-158 | a refused lookup fails with the guard message; a failed start delivers failure |
| Users.DisplayNameReaction | Private/MOS_OnlineAPI.Users.cpp:150-153 | the found id on success, the backend's error on failure, never both |
| Users.QueryExternalIdsLaunch | Private/MOS_OnlineAPI.Users.cpp:160-229 | a refused lookup fails with the guard message; a failed start delivers failure |
| Users.ExternalIdsReaction | Private/MOS_OnlineAPI.Users.cpp:212-225 | on success the mapped ids, one per line in order; on failure the backend's error |
| Users.ExternalIdsRecoverable | Private/MOS_OnlineAPI.Users.cpp:212-225 | splitting the success text on line breaks gives back exactly the mapped ids |
| Leaderboards.LeaderboardsGuard | Private/MOS_OnlineAPI.Leaderboards.cpp:31-37 | leaderboard calls need a subsystem and the leaderboard interface |
| Leaderboards.ScoreColumn | Private/MOS_OnlineAPI.Leaderboards.cpp:85-206 | the global board reads the "Score" column, the friends board "TestScore" |
| Leaderboards.BoardStartFailure | Private/MOS_OnlineAPI.Leaderboards.cpp:107-223 | a failed start reports failure for the global board and success for the friends board, each with its own message |
| Leaderboards.QueryLaunch | Private/MOS_OnlineAPI.Leaderboards.cpp:9-223 | a refused query fails with the guard message; a bound one has its board's start failure |
| Leaderboards.QueryReaction | Private/MOS_OnlineAPI.Leaderboards.cpp:60-103 | only a finished read is taken; failure gives the read message, success one entry per row, in order, with "id - nickname", its rank and its board's score column |
| Leaderboards.PlayerNameKeepsId | Private/MOS_OnlineAPI.Leaderboards.cpp:85-97 | a row's shown name starts with the player id |
| Ecommerce.PartNeed | Private/MOS_OnlineAPI.Ecommerce.cpp:28-164 | each store part needs its own interface, with its own unsupported message |
| Ecommerce.PartGuard | Private/MOS_OnlineAPI.Ecommerce.cpp:28-33 | a store call needs a subsystem, a signed-in user and the part's interface |
| Ecommerce.PartMessagesDistinct | Private/MOS_OnlineAPI.Ecommerce.cpp:28-164 | different parts have different unsupported messages |
| Ecommerce.QueryOffersLaunch | Private/MOS_OnlineAPI.Ecommerce.cpp:11-52 | a refused offer query fails with the guard message; a bound one ignores the start result |
| Ecommerce.GetCachedOffers | Private/MOS_OnlineAPI.Ecommerce.cpp:54-89 | one offer per cached store offer, in order, or none when refused |
| Ecommerce.CheckoutRequest | Private/MOS_OnlineAPI.Ecommerce.cpp:118-122 | one checkout line per basket offer, with its quantity, each offer once |
| Ecommerce.PurchaseLaunch | Private/MOS_OnlineAPI.Ecommerce.cpp:91-140 | a refused checkout or receipt query (Ecommerce.cpp:243-283) fails with the purchase guard message; a bound one ignores the start result |
| Ecommerce.QueryEntitlementsLaunch | Private/MOS_OnlineAPI.Ecommerce.cpp:142-203 | a refused entitlement query fails with the guard message; a failed start clears, then delivers failure |
| Ecommerce.EntitlementsStartFailureClearsFirst | Private/MOS_OnlineAPI.Ecommerce.cpp:197-202 | a failed start of a permitted entitlement query binds, unbinds, then delivers failure |
| Ecommerce.GetCachedEntitlements | Private/MOS_OnlineAPI.Ecommerce.cpp:205-241 | one entitlement per cached item, in order, or none when refused |
| Ecommerce.GetCachedReceipts | Private/MOS_OnlineAPI.Ecommerce.cpp:285-318 | one receipt per transaction, in order, or none when refused |
| Auth.IsLoggedIn | Private/MOS_OnlineAPI.Auth.cpp:8-27 | logged in iff there is an identity interface and a signed-in user |
| Auth.AutoLoginRefusal | Private/MOS_OnlineAPI.Auth.cpp:33-45 | auto login is refused without a subsystem or without an identity interface, with that message |
| Auth.AutoLoginLaunch | Private/MOS_OnlineAPI.Auth.cpp:29-89 | a refused login fails with the refusal; a failed start clears, then delivers failure |
| Auth.BeginAutoLogin | Private/MOS_OnlineAPI.Auth.cpp:29-89 | the call runs the login launch, and the login-in-progress flag is set iff the login was not refused |
| Auth.HandleLogin | Private/MOS_OnlineAPI.Auth.cpp:61-79 | the handler delivers as UserForward says for the local user number; the login flag drops on another user's event or a dead result object and is otherwise kept |
| Auth.OnLoginCompleted | Private/MOS_OnlineAPI.Auth.cpp:91-124 | the login-in-progress flag is cleared |
| Auth.LogoutLaunch | Private/MOS_OnlineAPI.Auth.cpp:126-180 | logout is refused only without a subsystem; a failed start clears, then delivers failure |
| Auth.LogoutReaction | Private/MOS_OnlineAPI.Auth.cpp:152-170 | only the local user's events are taken; the error is empty iff the logout succeeded; always unbinds |
| Auth.CanLinkCrossPlatform | Private/MOS_OnlineAPI.Auth.cpp:187-218 | linking is offered iff the signed-in user's account marks it as possible with "true" in any case |
| Auth.CanLinkOnlyWhenLoggedIn | Private/MOS_OnlineAPI.Auth.cpp:187-218 | linking is offered only to a logged-in user |
| Achievements.AchievementsGuard | Private/MOS_OnlineAPI.Achievements.cpp:29-37 | achievement calls need a subsystem and the achievements interface |
| Achievements.QueryLaunch | Private/MOS_OnlineAPI.Achievements.cpp:8-124 | a refused query fails with the guard message; a bound one ignores the start result |
| Achievements.Unlocked | Private/MOS_OnlineAPI.Achievements.cpp:114-115 | the unlock rule (above 100, or within 1e-8 of it) holds exactly from 100 - 1e-8 up |
| Achievements.UnlockedBoundary | Private/MOS_OnlineAPI.Achievements.cpp:114-115 | full progress and progress at the tolerance unlock; 99.99 does not |
| Achievements.Describe | Private/MOS_OnlineAPI.Achievements.cpp:102-118 | a cached achievement is shown iff its description is known, with its title and progress, and unlocked exactly when its progress is at least 100 less the nearly-equal tolerance 1e-8 |
| Achievements.QueryChain | Private/MOS_OnlineAPI.Achievements.cpp:50-121 | descriptions first, then states; each dead result object stops the chain silently, each failure has its own message, and success joins both caches with the source's unlock rule |
| Achievements.StatesJoinBothCaches | Private/MOS_OnlineAPI.Achievements.cpp:102-118 | the delivered states are exactly the cached achievements with a known description, under its title, each unlocked exactly by the unlock rule |
| Achievements.UnlockLaunch | Private/MOS_OnlineAPI.Achievements.cpp:126-175 | a refused unlock fails with the guard message |
| Achievements.UnlockWrite | Private/MOS_OnlineAPI.Achievements.cpp:151-158 | an unlock writes full progress for that one achievement |
| Achievements.UnlockReaction | Private/MOS_OnlineAPI.Achievements.cpp:174-174 | the unlock outcome is delivered, with the write-failed message on failure |
| Achievements.Applied | Private/MOS_OnlineAPI.Achievements.cpp:151-158 | a completed write sets the progress of the written achievements and keeps the rest |
| Achievements.UnlockThenQuery | Private/MOS_OnlineAPI.Achievements.cpp:89-158 | after an unlock, a query shows that achievement unlocked with full progress, with no assumption on the rule, and the others unchanged |
| Stats.StatsGuard | Private/MOS_OnlineAPI.Stats.cpp:26-31 | stats calls need a subsystem and the stats interface |
| Stats.QueryRequest | Private/MOS_OnlineAPI.Stats.cpp:34-42 | the query asks for the user's "TestLatest" and "TestScore" |
| Stats.QueryLaunch | Private/MOS_OnlineAPI.Stats.cpp:9-74 | a refused query fails with the guard message |
| Stats.QueryReaction | Private/MOS_OnlineAPI.Stats.cpp:55-72 | success iff the query succeeded with a user's stats; then one state per stat of the first user, each name once |
| Stats.IngestLaunch | Private/MOS_OnlineAPI.Stats.cpp:76-125 | a refused ingest fails with the guard message |
| Stats.TruncateTowardZero | Private/MOS_OnlineAPI.Stats.cpp:108-108 | the `(int32)` conversion of the ingested double: the whole number nearest zero within distance one of the value |
| Stats.TruncationKeepsWholeNumbers | Private/MOS_OnlineAPI.Stats.cpp:108-108 | a whole number is sent unchanged, and a value is sent unchanged exactly when it is whole |
| Stats.IngestUpdates | Private/MOS_OnlineAPI.Stats.cpp:104-108 | an ingest sets one stat of one user to the value truncated toward zero |
| Stats.IngestThenQuery | Private/MOS_OnlineAPI.Stats.cpp:34-108 | a stat ingested and queried back has the ingested value truncated toward zero; the other queried stats are unchanged |
| Presence.AvailableStatuses | Private/MOS_OnlineAPI.Presence.cpp:9-15 | two distinct example statuses, as listed |
| Presence.PresenceGuard | Private/MOS_OnlineAPI.Presence.cpp:24-43 | presence calls need a subsystem, a signed-in user and the presence interface |
| Presence.StatusFor | Private/MOS_OnlineAPI.Presence.cpp:46-49 | the status string is the text namespace, an underscore and the text key; the user shows online with the number 200 |
| Presence.StatusStringIdentifiesStatus | Private/MOS_OnlineAPI.Presence.cpp:46-49 | for namespaces without underscores, different texts give different status strings |
| Presence.SetPresenceLaunch | Private/MOS_OnlineAPI.Presence.cpp:17-65 | a refused update fails with the guard message |
| Presence.SetPresenceReaction | Private/MOS_OnlineAPI.Presence.cpp:58-64 | the update outcome is delivered, with the failed message on failure |
| Avatar.AvatarGuard | Private/MOS_OnlineAPI.Avatar.cpp:14-37 | avatar calls need a subsystem, a signed-in user and the avatar interface, tested in that order |
| Avatar.GetAvatarLaunch | Private/MOS_OnlineAPI.Avatar.cpp:9-59 | a refused call fails with no texture and the guard message |
| Avatar.GetAvatarReaction | Private/MOS_OnlineAPI.Avatar.cpp:49-58 | the outcome and texture are delivered, with the failed message on failure |
| CurrentUser.DisplayName | Private/MOS_OnlineAPI.CurrentUser.cpp:7-25 | the signed-in user's nickname, or the empty string without an identity interface |
| CurrentUser.UserId | Private/MOS_OnlineAPI.CurrentUser.cpp:27-53 | the signed-in user's id, if any |
| CurrentUser.AuthAttribute | Private/MOS_OnlineAPI.CurrentUser.cpp:119-148 | the account attribute, or the empty string when absent or nobody is signed in |
| CurrentUser.ShouldRenderSecondaryIdField | Private/MOS_OnlineAPI.CurrentUser.cpp:87-117 | the field is shown iff the signed-in account has an Epic account id |
| CurrentUser.SecondaryId | Private/MOS_OnlineAPI.CurrentUser.cpp:55-85 | the Epic account id when the field is shown, else the empty string |
| CurrentUser.SecondaryIdIsAttribute | Private/MOS_OnlineAPI.CurrentUser.cpp:55-148 | the secondary id is that account attribute, and a non-empty one means a signed-in user |
| Events.RegisteredHandlers | MultiplayerOnlineSusbsystem/Private/MOS_OnlineAPI.Events.cpp:10-98 | nothing without a subsystem; the friends handler iff there is a friends interface; the six party handlers iff there is a party interface |
| Events.IsForLocalUser | MultiplayerOnlineSusbsystem/Private/MOS_OnlineAPI.Events.cpp:32-48 | an event is for the local user iff its user is the signed-in user |
| Events.RaisesPartiesStateChanged | MultiplayerOnlineSusbsystem/Private/MOS_OnlineAPI.Events.cpp:51-98 | party events raise the state-changed event iff they are for the signed-in user |
| Events.IsNewSessionId | MultiplayerOnlineSusbsystem/Private/MOS_OnlineAPI.Events.cpp:117-120 | a session id is new iff it is non-empty and differs, ignoring case, from the cached one |
| Events.OnPartyData | MultiplayerOnlineSusbsystem/Private/MOS_OnlineAPI.Events.cpp:101-138 | the cached id is updated iff the data is for the local user with a new session id; the session is looked up iff also sessions exist and the data parses |
| Events.SameDataTwice | MultiplayerOnlineSusbsystem/Private/MOS_OnlineAPI.Events.cpp:117-120 | the same party data twice, the second time in any case, triggers at most one lookup |
| Events.FollowJoin.constructor | MultiplayerOnlineSusbsystem/Private/MOS_OnlineAPI.Events.cpp:150-151 | nothing is bound and nothing travelled to |
| Events.FollowJoin.Begin | MultiplayerOnlineSusbsystem/Private/MOS_OnlineAPI.Events.cpp:150-177 | the join handler stays bound iff the session was found and the join started |
| Events.FollowJoin.Handle | MultiplayerOnlineSusbsystem/Private/MOS_OnlineAPI.Events.cpp:157-171 | a successful join of the game session travels to its connect string and unbinds; anything else leaves the handler bound |
| Events.FollowsJoin | MultiplayerOnlineSusbsystem/Private/MOS_OnlineAPI.Events.cpp:157-164 | the follow-up reacts only to a successful join of the game session, whose name is compared ignoring case |

## Left out

- Travel and maps: `SetClientTravel`, `ServerTravel`, `OpenLevel`, starting a listen server, the map-listening callback and returning to the main menu need the engine world. The model records only the connect string travelled to (`Events.FollowJoin`) and leaves out `OnCreateSessionComplete` and `OnJoinSessionComplete`.
- `GetSessionInfo` (Sessions.cpp:17-25) only copies engine session settings into a Blueprint struct, so it is not modelled.
- Voice chat (`MOS_OnlineAPI.VoiceChat.cpp`), the identity pass-through (`MOS_OnlineAPI.Identity.cpp`) and the subsystem's start-up and shut-down (`MOS_GameInstanceSubsystem.cpp`) are outside this model.
- Logging, `FText` formatting and localisation are not modelled. Where text is displayed, the model takes a `display` function or compares the raw strings.
- `FString` and `FName` comparisons ignore case. The model folds ASCII letters only (`Strings.Folded`); the engine's folding of other letters is not modelled. User ids are compared exactly, as the engine compares `FUniqueNetId` values after dereferencing them; the one filter on shared references is `Users.QueryUserInfoReaction`, which compares reference identity. Three kinds of key are looked up by the exact key, although the engine's maps and lookups behind them ignore case or leave it to the backend: account and friend attributes; leaderboard score columns, a case-insensitive `FString` map in the engine (`Leaderboards.QueryReaction`, `Leaderboards.ScoreColumn`; Leaderboards.cpp:90, :199); and achievement descriptions, looked up by id through the backend (`Achievements.Describe`, Achievements.cpp:106).
- CallScoped.CallManager.BroadcastDestruction: no file of the plugin broadcasts `OnDestruction`, because the base manager's destructor is defaulted (MOS_CallManagerBase.h:16). The method models the broadcast of a manager deriving from the base. The base's own destruction, which broadcasts nothing, is `CallScoped.CallManager.Destroy`.
- UserCloud.WriteThenReadSaveGame: the single-precision narrowing (UserCloud.cpp:192) is the parameter `toFloat`; IEEE rounding itself is not modelled, and the serialisation is assumed to load back what it saved.
- Stats.TruncateTowardZero: a double outside the `int32` range makes the C++ conversion undefined; the model truncates toward zero without bounding the result.
- `TMap` iteration order is unspecified. The model picks an arbitrary key each step, and its contracts hold for every order.
- The engine's UTF-8 conversion and save-game serialisation are function parameters. The round-trip lemmas assume them inverse.
- The per-call delegates of the friends and user lookups are never cleared in the source. The model binds nothing for them beyond the call itself.
- Weak-object liveness of `this` (the `CreateWeakLambda` owner) is not modelled. Only the result object's liveness is modelled.
- `checkf` assertions become `requires` clauses. Three of them test a variable other than the one the following code dereferences (Friends.cpp:1022, Auth.cpp:207, CurrentUser.cpp:144). The model then requires what the dereference needs: the signed-in user's account exists.
- Events.OnPartyData: the several early returns on a party-data event that cannot be read (missing session interface, unparsable id) are collapsed into the `parses` flag and the session capability. The session lookup itself is modelled by `Events.FollowJoin`.
- Sessions.HandleJoinWithParty: the user's joined parties, the parties they lead and the named session's id are parameters. The result of the party-data update that carries the advertisement is not modelled.
- Leaderboards.QueryReaction: the source looks the score column up without testing that it exists; the model requires every row to carry it. The engine's leaderboard read object is reduced to its state and rows.
- Achievements.Describe: progress is a `real`; the backend's double and the `static_cast<float>` of the delivered progress (Achievements.cpp:113) are not modelled, so the delivered progress is the cached one. The unlock rule itself is decided on the unnarrowed progress, as in the source.
- Users.QueryUserInfoReaction: whether a backend hands the query's own reference back in its completion event is up to the backend, which is not part of this model; the model takes both cases as inputs.
- Integer widths: counts and quantities are unbounded `int`; no source operation wraps around.

## Findings

| source | as written | input that shows it | evidently intended | confidence | as-written member | corrected member |
|---|---|---|---|---|---|---|
| Public/Libraries/MOS_CallScopedOjectPtr.h:92-105 | copy assignment calls `Cleanup()` first, which empties `this`, and then copies `InOther.Ptr` | `p = p` on a valid pointer: after `Cleanup` the other's pointer is already null, so `p` ends empty | self-assignment leaves the pointer unchanged | high; not executed | CallScoped.SelfCopyAssignEmpties | CallScoped.GuardedSelfCopyAssignKeeps |
