/*
 * Title file operations: list the title's files and read one as a string.
 * Title files are not per user: the enumeration event carries no
 * discriminator at all, and the read event only the file name.
 */
module TitleFile {
  import opened Wrappers
  import opened ResultSinks
  import opened Calls
  import opened Online
  import opened Lists
  import opened ListSync
  import opened Strings

  const Unsupported: string := "Online subsystem does not support title file."
  const ReadFailed: string := "ReadFile call failed."
  const ContentsFailed: string := "GetFileContents call failed."
  const ReadStartFailed: string := "ReadFile call failed to start."

  function TitleFileGuard(env: Env): (m: Option<string>)
    requires CanCall(env, Asserted)
    ensures m.None? <==> env.Some? && TitleFile in env.value.caps
    ensures env.Some? && TitleFile !in env.value.caps ==> m == Some(Unsupported)
  {
    Guard(env, Asserted, [Need(TitleFile, Unsupported)])
  }

  /** Enumeration: the start call's result is ignored, so a bound handler
      stays bound until an event arrives. */
  function QueryFilesLaunch(env: Env): (l: Launch<seq<InterfaceListEntry>>)
    requires CanCall(env, Asserted)
    ensures l.Refuse? <==> TitleFileGuard(env).Some?
    ensures l.Refuse? ==> l.args == Args(false, [], TitleFileGuard(env).value)
    ensures l.Bind? ==> l.onStartFailure.None? && BoundAfterLaunch(l, false)
  {
    GuardedLaunch(TitleFileGuard(env), [], None)
  }

  /** An enumeration-complete event: its outcome and the backend's message. */
  datatype EnumerateEvent = EnumerateEvent(ok: bool, error: string)

  /** The enumeration handler: it takes every event, whoever started the
      enumeration, forwards a failure's message unchanged, and on success
      lists the title's files (`files`) in order. */
  method QueryFilesReaction(ev: EnumerateEvent, files: seq<string>) returns (r: Reaction<seq<InterfaceListEntry>>)
    ensures r.Deliver? && r.unbind && (r.args.success <==> ev.ok)
    ensures !ev.ok ==> r.args == Args(false, [], ev.error)
    ensures ev.ok ==> r.args.error == "" && |r.args.result| == |files|
    ensures ev.ok ==> forall i :: 0 <= i < |files| ==> r.args.result[i] == InterfaceListEntry(files[i], files[i])
  {
    if !ev.ok {
      return Deliver(Args(false, [], ev.error), true);
    }
    var entries := MapEach(files, (f: string) => InterfaceListEntry(f, f));
    return Deliver(Args(true, entries, ""), true);
  }

  /** Two enumerations in flight are both completed by the first event,
      with the same arguments, and neither handler stays bound. */
  method BothCallersAnswered(first: Call<seq<InterfaceListEntry>>, second: Call<seq<InterfaceListEntry>>,
                             ev: EnumerateEvent, files: seq<string>)
    requires first != second && first.sink != second.sink
    requires first.Valid() && first.bound && first.sinkAlive
    requires second.Valid() && second.bound && second.sinkAlive
    modifies first, first.sink, second, second.sink
    ensures !first.bound && !second.bound
    ensures first.sink.didCallback && second.sink.didCallback
    ensures |first.steps| > |old(first.steps)| && |second.steps| > |old(second.steps)|
    ensures first.steps[|old(first.steps)|..] == second.steps[|old(second.steps)|..]
  {
    var r := QueryFilesReaction(ev, files);
    first.Handle(r);
    second.Handle(r);
  }

  /** Reading a file: the guard, then the read; a failed start delivers
      failure and clears the handler. */
  function ReadLaunch(env: Env): (l: Launch<string>)
    requires CanCall(env, Asserted)
    ensures l.Refuse? <==> TitleFileGuard(env).Some?
    ensures l.Refuse? ==> l.args == Args(false, "", TitleFileGuard(env).value)
    ensures l.Bind? ==> l.onStartFailure == Some(StartFailure(Args(false, "", ReadStartFailed), DeliverThenClear))
  {
    GuardedLaunch(TitleFileGuard(env), "", Some(StartFailure(Args(false, "", ReadStartFailed), DeliverThenClear)))
  }

  /** A read-complete event. */
  datatype ReadEvent = ReadEvent(fileName: string, ok: bool)

  /** The read handler: events for other files are ignored; `contents` is
      what the contents call returns, decoded from UTF-8 by `fromUtf8`. */
  function ReadReaction(fileName: string, ev: ReadEvent, contents: Option<seq<bv8>>,
                        fromUtf8: seq<bv8> -> string): (r: Reaction<string>)
    ensures r.Ignore? <==> !SameName(ev.fileName, fileName)
    ensures r.Deliver? ==> r.unbind && (r.args.success <==> ev.ok && contents.Some?)
    ensures r.Deliver? && !ev.ok ==> r.args == Args(false, "", ReadFailed)
    ensures r.Deliver? && ev.ok && contents.None? ==> r.args == Args(false, "", ContentsFailed)
    ensures r.Deliver? && r.args.success ==> r.args == Args(true, fromUtf8(contents.value), "")
  {
    if !SameName(ev.fileName, fileName) then Ignore
    else if !ev.ok then Deliver(Args(false, "", ReadFailed), true)
    else if contents.None? then Deliver(Args(false, "", ContentsFailed), true)
    else Deliver(Args(true, fromUtf8(contents.value), ""), true)
  }
}
