/*
 * User cloud operations: list the signed-in user's files, write a string or
 * a save game to a file, and read one back. Every completion event carries
 * the user id (and, for reads and writes, the file name) it is about; the
 * handler takes only the events of its own call.
 *
 * The string contents travel as UTF-8 bytes and the save game as the
 * engine's binary serialisation; both codecs are parameters here.
 */
module UserCloud {
  import opened Wrappers
  import opened ResultSinks
  import opened Calls
  import opened Online
  import opened Lists
  import opened ListSync
  import opened Strings

  const Unsupported: string := "Online subsystem does not support user cloud."
  const EnumerationFailed: string := "User cloud enumeration failed."
  const WriteFailed: string := "WriteUserFile call failed."
  const WriteStartFailed: string := "WriteUserFile call failed to start."
  const ReadFailed: string := "ReadUserFile call failed."
  const ContentsFailed: string := "GetFileContents call failed."
  const ReadStartFailed: string := "ReadUserFile call failed to start."
  const SerializeFailed: string := "Failed to serialize save game object."
  const DeserializeFailed: string := "Unable to deserialize memory to USaveGame."

  type Bytes = seq<bv8>

  function UserCloudGuard(env: Env): (m: Option<string>)
    requires CanCall(env, Asserted)
    ensures m.None? <==> env.Some? && UserCloud in env.value.caps
    ensures env.Some? && UserCloud !in env.value.caps ==> m == Some(Unsupported)
  {
    Guard(env, Asserted, [Need(UserCloud, Unsupported)])
  }

  // ---------------------------------------------------------------------
  // Query files

  /** Enumeration: the start call's result is not looked at, so there is no
      start-failure path. */
  function QueryFilesLaunch(env: Env): (l: Launch<seq<InterfaceListEntry>>)
    requires CanCall(env, Asserted)
    ensures l.Refuse? <==> UserCloudGuard(env).Some?
    ensures l.Refuse? ==> l.args == Args(false, [], UserCloudGuard(env).value)
    ensures l.Bind? ==> l.onStartFailure.None? && BoundAfterLaunch(l, false)
  {
    GuardedLaunch(UserCloudGuard(env), [], None)
  }

  /** An enumeration-complete event: the user it is about and its outcome. */
  datatype EnumerateEvent = EnumerateEvent(userId: string, ok: bool)

  /** The handler of an enumeration; `files` are the names of the user's
      files the backend lists once the enumeration has succeeded. */
  method QueryFilesReaction(userId: string, ev: EnumerateEvent, files: seq<string>)
    returns (r: Reaction<seq<InterfaceListEntry>>)
    ensures r.Ignore? <==> ev.userId != userId
    ensures r.Deliver? ==> r.unbind && (r.args.success <==> ev.ok)
    ensures r.Deliver? && !ev.ok ==> r.args == Args(false, [], EnumerationFailed)
    ensures r.Deliver? && ev.ok ==> r.args.error == "" && |r.args.result| == |files|
    ensures r.Deliver? && ev.ok ==>
              forall i :: 0 <= i < |files| ==> r.args.result[i] == InterfaceListEntry(files[i], files[i])
  {
    if ev.userId != userId {
      return Ignore;
    }
    if !ev.ok {
      return Deliver(Args(false, [], EnumerationFailed), true);
    }
    var entries := MapEach(files, (f: string) => InterfaceListEntry(f, f));
    return Deliver(Args(true, entries, ""), true);
  }

  // ---------------------------------------------------------------------
  // Write and read

  /** A write- or read-complete event. */
  datatype FileEvent = FileEvent(userId: string, fileName: string, ok: bool)

  /** Whether an event belongs to the call for `userId` and `fileName`: both
      must match, the file name under FString `!=`, which ignores case. */
  predicate ForCall(userId: string, fileName: string, ev: FileEvent)
  {
    ev.userId == userId && SameName(ev.fileName, fileName)
  }

  /** Writing a string: the guard, then the write of its encoded bytes; a
      failed start delivers failure and clears the handler. */
  function WriteStringLaunch(env: Env): (l: Launch<()>)
    requires CanCall(env, Asserted)
    ensures l.Refuse? <==> UserCloudGuard(env).Some?
    ensures l.Refuse? ==> l.args == Args(false, (), UserCloudGuard(env).value)
    ensures l.Bind? ==> l.onStartFailure == Some(StartFailure(Args(false, (), WriteStartFailed), DeliverThenClear))
  {
    GuardedLaunch(UserCloudGuard(env), (), Some(StartFailure(Args(false, (), WriteStartFailed), DeliverThenClear)))
  }

  /** Writing a save game: the guard, then the serialisation, whose failure
      is reported before anything is bound. `saved` is the serialisation of
      the save game holding the number narrowed to single precision. */
  function WriteSaveGameLaunch(env: Env, saved: Option<Bytes>): (l: Launch<()>)
    requires CanCall(env, Asserted)
    ensures UserCloudGuard(env).Some? ==> l == Refuse(Args(false, (), UserCloudGuard(env).value))
    ensures UserCloudGuard(env).None? && saved.None? ==> l == Refuse(Args(false, (), SerializeFailed))
    ensures l.Bind? <==> UserCloudGuard(env).None? && saved.Some?
    ensures l.Bind? ==> l.onStartFailure == Some(StartFailure(Args(false, (), WriteStartFailed), DeliverThenClear))
  {
    var refusal := if UserCloudGuard(env).Some? then UserCloudGuard(env)
                   else if saved.None? then Some(SerializeFailed) else None;
    GuardedLaunch(refusal, (), Some(StartFailure(Args(false, (), WriteStartFailed), DeliverThenClear)))
  }

  /** The handler of a write, for strings and save games alike. */
  function WriteReaction(userId: string, fileName: string, ev: FileEvent): (r: Reaction<()>)
    ensures r.Ignore? <==> !ForCall(userId, fileName, ev)
    ensures r.Deliver? ==> r.unbind && (r.args.success <==> ev.ok) && (r.args.error == "" <==> ev.ok)
    ensures r.Deliver? && !ev.ok ==> r.args.error == WriteFailed
  {
    if !ForCall(userId, fileName, ev) then Ignore
    else Deliver(Args(ev.ok, (), if ev.ok then "" else WriteFailed), true)
  }

  /** Both reads: the guard, then the read; a failed start delivers failure
      with the empty payload and clears the handler. */
  function ReadLaunch<T>(env: Env, empty: T): (l: Launch<T>)
    requires CanCall(env, Asserted)
    ensures l.Refuse? <==> UserCloudGuard(env).Some?
    ensures l.Refuse? ==> l.args == Args(false, empty, UserCloudGuard(env).value)
    ensures l.Bind? ==> l.onStartFailure == Some(StartFailure(Args(false, empty, ReadStartFailed), DeliverThenClear))
  {
    GuardedLaunch(UserCloudGuard(env), empty, Some(StartFailure(Args(false, empty, ReadStartFailed), DeliverThenClear)))
  }

  /** The handler of a read: `contents` is what the backend hands back for
      the file once the read succeeded (None: the contents call failed), and
      `decode` turns those bytes into the payload (None: they do not decode).
      Every delivery unbinds. */
  function ReadReaction<T>(userId: string, fileName: string, ev: FileEvent, contents: Option<Bytes>,
                           decode: Bytes -> Option<T>, empty: T): (r: Reaction<T>)
    ensures r.Ignore? <==> !ForCall(userId, fileName, ev)
    ensures r.Deliver? ==> r.unbind
    ensures r.Deliver? ==> (r.args.success <==> ev.ok && contents.Some? && decode(contents.value).Some?)
    ensures r.Deliver? && !ev.ok ==> r.args == Args(false, empty, ReadFailed)
    ensures r.Deliver? && ev.ok && contents.None? ==> r.args == Args(false, empty, ContentsFailed)
    ensures r.Deliver? && r.args.success ==> r.args == Args(true, decode(contents.value).value, "")
  {
    if !ForCall(userId, fileName, ev) then Ignore
    else if !ev.ok then Deliver(Args(false, empty, ReadFailed), true)
    else if contents.None? then Deliver(Args(false, empty, ContentsFailed), true)
    else match decode(contents.value)
      case None => Deliver(Args(false, empty, DeserializeFailed), true)
      case Some(v) => Deliver(Args(true, v, ""), true)
  }

  /** The string read: UTF-8 decoding always yields a string. */
  function ReadStringReaction(userId: string, fileName: string, ev: FileEvent, contents: Option<Bytes>,
                              fromUtf8: Bytes -> string): (r: Reaction<string>)
    ensures r.Ignore? <==> !ForCall(userId, fileName, ev)
    ensures r.Deliver? ==> r.unbind && (r.args.success <==> ev.ok && contents.Some?)
    ensures r.Deliver? && r.args.success ==> r.args == Args(true, fromUtf8(contents.value), "")
    ensures r.Deliver? && !r.args.success ==> r.args.result == "" && r.args.error in {ReadFailed, ContentsFailed}
  {
    ReadReaction(userId, fileName, ev, contents, (b: Bytes) => Some(fromUtf8(b)), "")
  }

  /** A save game read back: what the save game stores, or None when the
      bytes do not deserialise to one. */
  function ReadSaveGameReaction(userId: string, fileName: string, ev: FileEvent, contents: Option<Bytes>,
                                load: Bytes -> Option<real>): (r: Reaction<real>)
    ensures r.Ignore? <==> !ForCall(userId, fileName, ev)
    ensures r.Deliver? ==> r.unbind && (r.args.success <==> ev.ok && contents.Some? && load(contents.value).Some?)
    ensures r.Deliver? && ev.ok && contents.Some? && load(contents.value).None? ==>
              r.args == Args(false, 0.0, DeserializeFailed)
  {
    ReadReaction(userId, fileName, ev, contents, load, 0.0)
  }

  // ---------------------------------------------------------------------
  // The file store the two halves share

  /** The backend's files, by (user id, file name). */
  type Store = map<(string, string), Bytes>

  /** A completed write of `bytes` to the user's file. */
  function Written(store: Store, userId: string, fileName: string, bytes: Bytes): (s: Store)
    ensures (userId, fileName) in s && s[(userId, fileName)] == bytes
    ensures forall k :: k in store && k != (userId, fileName) ==> k in s && s[k] == store[k]
  {
    store[(userId, fileName) := bytes]
  }

  /** What the contents call returns for the user's file. */
  function Contents(store: Store, userId: string, fileName: string): Option<Bytes>
  {
    if (userId, fileName) in store then Some(store[(userId, fileName)]) else None
  }

  /** A string written and then read back by the same user is delivered
      unchanged, whenever the UTF-8 round trip preserves it; a write to
      another file does not disturb it. */
  lemma WriteThenReadString(store: Store, userId: string, fileName: string, s: string, other: string, bytes: Bytes,
                            toUtf8: string -> Bytes, fromUtf8: Bytes -> string)
    requires fromUtf8(toUtf8(s)) == s
    requires other != fileName
    ensures ReadStringReaction(userId, fileName, FileEvent(userId, fileName, true),
                               Contents(Written(store, userId, fileName, toUtf8(s)), userId, fileName), fromUtf8)
            == Deliver(Args(true, s, ""), true)
    ensures ReadStringReaction(userId, fileName, FileEvent(userId, fileName, true),
                               Contents(Written(Written(store, userId, fileName, toUtf8(s)), userId, other, bytes),
                                        userId, fileName), fromUtf8)
            == Deliver(Args(true, s, ""), true)
  {
    var s1 := Written(store, userId, fileName, toUtf8(s));
    assert Contents(Written(s1, userId, other, bytes), userId, fileName) == Some(toUtf8(s));
  }

  /** A save game stores the number narrowed to single precision
      (`toFloat`, the `(float)` conversion), so what a read delivers is the
      narrowed number, whenever deserialisation inverts serialisation; a
      number that narrowing changes does not come back. */
  lemma WriteThenReadSaveGame(store: Store, userId: string, fileName: string, x: real, toFloat: real -> real,
                              save: real -> Option<Bytes>, load: Bytes -> Option<real>)
    requires save(toFloat(x)).Some? && load(save(toFloat(x)).value) == Some(toFloat(x))
    ensures ReadSaveGameReaction(userId, fileName, FileEvent(userId, fileName, true),
                                 Contents(Written(store, userId, fileName, save(toFloat(x)).value), userId, fileName), load)
            == Deliver(Args(true, toFloat(x), ""), true)
    ensures toFloat(x) != x ==>
              ReadSaveGameReaction(userId, fileName, FileEvent(userId, fileName, true),
                                   Contents(Written(store, userId, fileName, save(toFloat(x)).value), userId, fileName), load)
                .args.result != x
  {
  }
}
