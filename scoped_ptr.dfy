// TCallScopedObjectPtr: a strong object pointer whose lifetime is bounded by
// the call manager that owns it. Each pointer registers a lambda on the
// manager's OnDestruction delegate; when the delegate is broadcast the lambda
// runs the pointer's Cleanup, which drops the strong reference. The base
// manager's destructor is defaulted and broadcasts nothing: destroying it
// only stops the weak pointers pinning, so its pointers become invalid but
// keep their strong references until they are themselves cleaned up.
//
// The pointee is any object (`object?`, null for an empty TStrongObjectPtr).
// The manager is held weakly: `owner` may outlive it, and "the weak pointer
// pins" is `owner != null && owner.alive`. Delegate handles are natural
// numbers handed out by the manager in increasing order.

module CallScoped {
  import opened Wrappers

  /** FCallManagerBase. Its OnDestruction delegate is the map from each
      delegate handle to the pointer whose Cleanup the bound lambda runs. */
  class CallManager {
    var alive: bool
    var onDestruction: map<nat, ScopedPtr>
    var nextHandle: nat

    /** While the manager is alive, each bound lambda belongs to a pointer
        that is owned by this manager and knows its own handle. */
    ghost predicate Valid()
      reads this, onDestruction.Values
    {
      forall h :: h in onDestruction ==>
        h < nextHandle &&
        (alive ==> onDestruction[h].owner == this && onDestruction[h].handle == Some(h))
    }

    constructor ()
      ensures alive && onDestruction == map[] && Valid()
    {
      alive, onDestruction, nextHandle := true, map[], 0;
    }

    /** ~FCallManagerBase, which is defaulted: the weak pointers to the
        manager stop pinning and nothing else happens. Every subscribed
        pointer turns invalid yet keeps its pointee and its handle. */
    method Destroy()
      requires alive && Valid()
      modifies this
      ensures !alive && onDestruction == old(onDestruction) && nextHandle == old(nextHandle)
      ensures forall p :: p in onDestruction.Values ==>
                p.owner == this && !p.IsValid() && p.ptr == old(p.ptr) && p.handle == old(p.handle)
    {
      alive := false;
      forall p | p in onDestruction.Values ensures p.owner == this {
        var h :| h in onDestruction && onDestruction[h] == p;
      }
    }

    /** A destruction that broadcasts OnDestruction, as a manager deriving
        from FCallManagerBase would: the weak pointers to it stop pinning,
        then every bound lambda runs its pointer's Cleanup, in no particular
        order. */
    method BroadcastDestruction()
      requires alive && Valid()
      modifies this, onDestruction.Values
      ensures !alive && onDestruction == old(onDestruction) && nextHandle == old(nextHandle)
      ensures forall p :: p in onDestruction.Values ==>
                p.ptr == null && p.owner == this && !p.IsValid()
    {
      alive := false;
      var pending := onDestruction.Keys;
      while pending != {}
        invariant pending <= onDestruction.Keys
        invariant !alive && onDestruction == old(onDestruction) && nextHandle == old(nextHandle)
        invariant forall h :: h in onDestruction ==> onDestruction[h].owner == this
        invariant forall h :: h in onDestruction.Keys - pending ==> onDestruction[h].ptr == null
        decreases pending
      {
        var h :| h in pending;
        var p := onDestruction[h];
        p.Cleanup();
        pending := pending - {h};
      }
      forall p | p in onDestruction.Values ensures p.ptr == null && p.owner == this {
        var h :| h in onDestruction && onDestruction[h] == p;
      }
    }
  }

  class ScopedPtr {
    var owner: CallManager?
    var ptr: object?
    var handle: Option<nat>

    predicate OwnerAlive()
      reads this, owner
    {
      owner != null && owner.alive
    }

    /** IsValid: the owner still pins and the strong pointer is set. */
    predicate IsValid()
      reads this, owner
    {
      OwnerAlive() && ptr != null
    }

    /** A valid pointer has its Cleanup bound on its owner's OnDestruction,
        so the owner's destruction will release it; and any handle it holds
        on a live owner is its own. */
    ghost predicate Tied()
      reads this, owner
    {
      (IsValid() ==> handle.Some?) &&
      (OwnerAlive() && handle.Some? ==>
         handle.value in owner.onDestruction && owner.onDestruction[handle.value] == this)
    }

    /** Nothing left to clean up: the strong pointer is empty and no handle
        is bound on a live owner. */
    ghost predicate CleanedUp()
      reads this, owner
    {
      ptr == null && (handle.None? || !OwnerAlive())
    }

    /** The default constructor: no owner, no pointee, no handle. */
    constructor ()
      ensures owner == null && ptr == null && handle == None
      ensures !IsValid() && CleanedUp() && Tied()
    {
      owner, ptr, handle := null, null, None;
    }

    /** Construction from an owner (held by a shared reference, so alive)
        and a raw pointer: the pointer binds its Cleanup on the owner. */
    constructor FromOwner(m: CallManager, p: object?)
      requires m.alive
      modifies m
      ensures owner == m && ptr == p && handle == Some(old(m.nextHandle))
      ensures m.alive && m.nextHandle == old(m.nextHandle) + 1
      ensures m.onDestruction == old(m.onDestruction)[old(m.nextHandle) := this]
      ensures IsValid() == (p != null) && Tied()
      ensures old(m.Valid()) ==> m.Valid()
    {
      owner, ptr, handle := m, p, Some(m.nextHandle);
      new;
      m.onDestruction := m.onDestruction[m.nextHandle := this];
      m.nextHandle := m.nextHandle + 1;
    }

    /** Copy construction (and the converting copy from a pointer to a
        derived type): the same owner and pointee; a handler is bound only if
        the owner still pins. */
    constructor Copy(other: ScopedPtr)
      requires other.owner != null ==> other.owner.Valid()
      modifies other.owner
      ensures owner == other.owner && ptr == other.ptr
      ensures other.owner == old(other.owner) && other.ptr == old(other.ptr)
      ensures other.handle == old(other.handle)
      ensures IsValid() == old(other.IsValid()) && Tied()
      ensures OwnerAlive() ==> handle == Some(old(other.owner.nextHandle))
      ensures !OwnerAlive() ==> handle == None
      ensures owner != null ==> owner.Valid() && owner.alive == old(other.owner.alive)
      ensures OwnerAlive() ==>
                owner.nextHandle == old(other.owner.nextHandle) + 1 &&
                owner.onDestruction == old(other.owner.onDestruction)[old(other.owner.nextHandle) := this]
      ensures owner != null && !owner.alive ==> unchanged(owner)
    {
      owner, ptr, handle := other.owner, other.ptr, None;
      new;
      Bind();
    }

    /** Move construction: as copy construction, then the source is cleaned
        up, so it no longer holds the pointee. */
    constructor Move(other: ScopedPtr)
      requires other.Tied()
      requires other.owner != null ==> other.owner.Valid()
      modifies other, other.owner
      ensures owner == old(other.owner) && ptr == old(other.ptr)
      ensures IsValid() == old(other.IsValid()) && Tied()
      ensures other.ptr == null && other.owner == old(other.owner) && other.CleanedUp()
      ensures owner != null ==> owner.Valid() && owner.alive == old(other.owner.alive)
      ensures OwnerAlive() ==>
                owner.nextHandle == old(other.owner.nextHandle) + 1 &&
                owner.onDestruction ==
                  Unbound(old(other.owner.onDestruction)[old(other.owner.nextHandle) := this], old(other.handle))
      ensures owner != null && !owner.alive ==> unchanged(owner)
    {
      owner, ptr, handle := other.owner, other.ptr, None;
      new;
      Bind();
      other.Cleanup();
    }

    /** The lambda bound by every constructor and assignment: if the owner
        still pins, add a handler running Cleanup and keep its handle. */
    method Bind()
      requires owner != null ==> owner.Valid()
      requires OwnerAlive() ==> this !in owner.onDestruction.Values
      modifies owner
      ensures owner != null ==> owner.alive == old(owner.alive)
      ensures OwnerAlive() ==>
                handle == Some(old(owner.nextHandle)) && owner.nextHandle == old(owner.nextHandle) + 1 &&
                owner.onDestruction == old(owner.onDestruction)[old(owner.nextHandle) := this]
      ensures !OwnerAlive() ==> handle == old(handle) && (owner != null ==> unchanged(owner))
      ensures ptr == old(ptr) && owner == old(owner)
      ensures owner != null ==> owner.Valid()
      ensures OwnerAlive() ==> Tied()
      modifies this`handle
    {
      if owner != null && owner.alive {
        handle := Some(owner.nextHandle);
        owner.onDestruction := owner.onDestruction[owner.nextHandle := this];
        owner.nextHandle := owner.nextHandle + 1;
      }
    }

    /** Cleanup: always drop the pointee; if a handle is held and the owner
        still pins, remove the handler and forget the handle. */
    method Cleanup()
      modifies this, owner
      ensures ptr == null && owner == old(owner) && CleanedUp()
      ensures owner != null ==> owner.alive == old(owner.alive) && owner.nextHandle == old(owner.nextHandle)
      ensures old(handle.Some? && OwnerAlive()) ==>
                handle == None && owner.onDestruction == old(owner.onDestruction) - {old(handle.value)}
      ensures !old(handle.Some? && OwnerAlive()) ==>
                handle == old(handle) && (owner != null ==> unchanged(owner))
      ensures old(CleanedUp()) ==> unchanged(this) && (owner != null ==> unchanged(owner))
      ensures owner != null && old(owner.Valid()) && old(Tied()) ==> owner.Valid()
      ensures old(Tied()) ==> Tied()
    {
      ptr := null;
      if handle.Some? && owner != null && owner.alive {
        owner.onDestruction := owner.onDestruction - {handle.value};
        handle := None;
      }
    }

    /** Reset: Cleanup. Afterwards Get is null and IsValid is false. */
    method Reset()
      modifies this, owner
      ensures Get() == null && !IsValid() && CleanedUp() && owner == old(owner)
      ensures old(CleanedUp()) ==> unchanged(this) && (owner != null ==> unchanged(owner))
      ensures old(Tied()) ==> Tied()
    {
      Cleanup();
    }

    /** Copy assignment as written: clean up, then take the other's pointee
        and owner, then bind on that owner if it still pins. The pointee is
        read after this pointer's own Cleanup, so assigning a pointer to
        itself empties it. */
    method CopyAssign(other: ScopedPtr)
      requires Tied() && (owner != null ==> owner.Valid())
      requires other.owner != null ==> other.owner.Valid()
      requires other != this ==> other.Tied()
      modifies this, owner, other.owner
      ensures owner == old(other.owner)
      ensures ptr == if other == this then null else old(other.ptr)
      ensures IsValid() <==> other != this && old(other.IsValid())
      ensures Tied() && (owner != null ==> owner.Valid())
      ensures other != this ==> other.Tied()
      ensures OwnerAlive() ==> handle.Some? && handle.value !in old(other.owner.onDestruction)
      ensures old(owner) != null && old(owner.alive) && old(handle).Some? ==>
                old(handle).value !in old(owner).onDestruction
      ensures old(owner) != null ==> old(owner).Valid() && old(owner).alive == old(owner.alive)
      ensures old(owner) != null && old(owner.alive) ==>
                forall h :: h in old(owner.onDestruction) && Some(h) != old(handle) ==>
                  h in old(owner).onDestruction && old(owner).onDestruction[h] == old(owner.onDestruction)[h]
      ensures owner != null ==> owner.alive == old(other.owner.alive)
      ensures OwnerAlive() ==>
                handle == Some(old(other.owner.nextHandle)) &&
                owner.nextHandle == old(other.owner.nextHandle) + 1 &&
                owner.onDestruction ==
                  Unbound(old(other.owner.onDestruction), if owner == old(owner) then old(handle) else None)
                    [old(other.owner.nextHandle) := this]
      ensures owner != null && !owner.alive ==> unchanged(owner)
    {
      ghost var m := owner;
      if other.owner != null && other.owner.alive && other.owner != m {
        // A handler of another manager belongs to a pointer it owns.
        NotBoundOn(other.owner, this);
      }
      Cleanup();
      if m != null && m.alive {
        // This pointer holds no handle now, so no handler of its old owner
        // is its own.
        NotBoundOn(m, this);
      }
      Adopt(other);
    }

    /** The second half of an assignment: take the other's pointee and owner,
        then bind on that owner if it still pins. */
    method Adopt(other: ScopedPtr)
      requires other.owner != null ==> other.owner.Valid()
      requires other.OwnerAlive() ==> this !in other.owner.onDestruction.Values
      modifies this`ptr, this`owner, this`handle, other.owner
      ensures owner == old(other.owner) && ptr == old(other.ptr)
      ensures owner != null ==> owner.Valid() && owner.alive == old(other.owner.alive)
      ensures OwnerAlive() ==>
                handle == Some(old(other.owner.nextHandle)) &&
                owner.nextHandle == old(other.owner.nextHandle) + 1 &&
                owner.onDestruction == old(other.owner.onDestruction)[old(other.owner.nextHandle) := this]
      ensures !OwnerAlive() ==> handle == old(handle) && (owner != null ==> unchanged(owner))
      ensures OwnerAlive() ==> Tied()
    {
      ptr := other.ptr;
      owner := other.owner;
      Bind();
    }

    /** Copy assignment with the self-assignment guard it evidently needs:
        assigning a pointer to itself changes nothing. */
    method CopyAssignGuarded(other: ScopedPtr)
      requires Tied() && (owner != null ==> owner.Valid())
      requires other.owner != null ==> other.owner.Valid()
      requires other != this ==> other.Tied()
      modifies this, owner, other.owner
      ensures owner == old(other.owner) && ptr == old(other.ptr)
      ensures IsValid() == old(other.IsValid())
      ensures Tied() && (owner != null ==> owner.Valid())
      ensures other == this ==> unchanged(this) && (owner != null ==> unchanged(owner))
      ensures other != this && old(owner) != null && old(owner.alive) && old(handle).Some? ==>
                old(handle).value !in old(owner).onDestruction
      ensures old(owner) != null ==> old(owner).Valid() && old(owner).alive == old(owner.alive)
      ensures old(owner) != null && old(owner.alive) ==>
                forall h :: h in old(owner.onDestruction) && Some(h) != old(handle) ==>
                  h in old(owner).onDestruction && old(owner).onDestruction[h] == old(owner.onDestruction)[h]
      ensures owner != null ==> owner.alive == old(other.owner.alive)
      ensures other != this && OwnerAlive() ==>
                handle == Some(old(other.owner.nextHandle)) &&
                owner.nextHandle == old(other.owner.nextHandle) + 1 &&
                owner.onDestruction ==
                  Unbound(old(other.owner.onDestruction), if owner == old(owner) then old(handle) else None)
                    [old(other.owner.nextHandle) := this]
      ensures owner != null && !owner.alive ==> unchanged(owner)
    {
      if other == this {
        return;
      }
      CopyAssign(other);
    }

    /** Move assignment: as copy assignment, then the source is cleaned up. */
    method MoveAssign(other: ScopedPtr)
      requires Tied() && (owner != null ==> owner.Valid())
      requires other.owner != null ==> other.owner.Valid()
      requires other != this ==> other.Tied()
      modifies this, owner, other, other.owner
      ensures owner == old(other.owner)
      ensures other != this ==> ptr == old(other.ptr) && IsValid() == old(other.IsValid())
      ensures other.ptr == null && other.CleanedUp()
      ensures Tied() && (owner != null ==> owner.Valid())
      ensures old(owner) != null && old(owner.alive) && old(handle).Some? ==>
                old(handle).value !in old(owner).onDestruction
      ensures old(owner) != null ==> old(owner).Valid() && old(owner).alive == old(owner.alive)
      ensures old(owner) != null && old(owner.alive) ==>
                forall h :: h in old(owner.onDestruction) && Some(h) != old(handle) && Some(h) != old(other.handle) ==>
                  h in old(owner).onDestruction && old(owner).onDestruction[h] == old(owner.onDestruction)[h]
      ensures owner != null ==> owner.alive == old(other.owner.alive)
      ensures OwnerAlive() ==>
                owner.nextHandle == old(other.owner.nextHandle) + 1 &&
                owner.onDestruction ==
                  Unbound(Unbound(old(other.owner.onDestruction), if owner == old(owner) then old(handle) else None)
                            [old(other.owner.nextHandle) := this],
                          if other == this then Some(old(other.owner.nextHandle)) else old(other.handle))
      ensures owner != null && !owner.alive ==> unchanged(owner)
    {
      CopyAssign(other);
      other.Cleanup();
    }

    /** The destructor: Cleanup. */
    method Destroy()
      modifies this, owner
      ensures ptr == null && CleanedUp() && owner == old(owner)
      ensures owner != null && old(owner.Valid()) && old(Tied()) ==> owner.Valid()
    {
      Cleanup();
    }

    /** Get and operator->: the raw pointee, whether or not the owner still
        pins. */
    function Get(): (r: object?)
      reads this
      ensures r == ptr
    {
      ptr
    }

    /** operator*: the pointee, which the caller must know to be valid. */
    method Deref() returns (r: object)
      requires IsValid()
      ensures r == ptr
    {
      r := ptr;
    }

    /** operator==: equality looks at the pointee alone, not the owner. */
    predicate Equals(other: ScopedPtr)
      reads this`ptr, other`ptr
    {
      ptr == other.ptr
    }

    /** GetTypeHash: the hash of the pointee alone. */
    function Hash(hashOf: object? -> nat): nat
      reads this`ptr
    {
      hashOf(ptr)
    }
  }

  /** A delegate map with the handler bound under `h`, if any, removed. */
  function Unbound(handlers: map<nat, ScopedPtr>, h: Option<nat>): map<nat, ScopedPtr>
  {
    if h.Some? then handlers - {h.value} else handlers
  }

  /** A live, valid manager has no handler of a pointer that holds no handle
      or belongs to another manager. */
  lemma NotBoundOn(m: CallManager, p: ScopedPtr)
    requires m.alive && m.Valid() && (p.handle.None? || p.owner != m)
    ensures p !in m.onDestruction.Values
  {
    forall h | h in m.onDestruction ensures m.onDestruction[h] != p {
      assert m.onDestruction[h].owner == m && m.onDestruction[h].handle == Some(h);
    }
  }

  /** Pointers that compare equal hash alike, and equality ignores the
      owner: two pointers with different owners but the same pointee are
      equal. */
  lemma EqualPointersHashAlike(a: ScopedPtr, b: ScopedPtr, hashOf: object? -> nat)
    requires a.Equals(b)
    ensures a.Hash(hashOf) == b.Hash(hashOf) && b.Equals(a)
  {
  }

  /** Self copy assignment of a valid pointer leaves it invalid. */
  method SelfCopyAssignEmpties(m: CallManager, target: object) returns (p: ScopedPtr)
    requires m.alive && m.Valid()
    modifies m
    ensures !p.IsValid() && p.Get() == null
  {
    p := new ScopedPtr.FromOwner(m, target);
    assert p.IsValid();
    p.CopyAssign(p);
  }

  /** With the guard, the same assignment keeps the pointer valid. */
  method GuardedSelfCopyAssignKeeps(m: CallManager, target: object) returns (p: ScopedPtr)
    requires m.alive && m.Valid()
    modifies m
    ensures p.IsValid() && p.Get() == target
  {
    p := new ScopedPtr.FromOwner(m, target);
    p.CopyAssignGuarded(p);
  }
}
