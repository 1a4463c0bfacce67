/*
 * FOSSInterfaceListEntry::SynchroniseToComboBoxList: patches a list of
 * shared UI entries in place so that it shows a target list of options.
 * Invalid (null) entries are dropped, missing ids are appended as new
 * entries, changed display names are written into the existing entries
 * (so their identity is kept), entries whose id is gone are removed, and
 * the list is sorted by id. Ids are FStrings, which the engine compares,
 * hashes and orders ignoring case: every lookup and the sort go through the
 * case-folded id (Strings.Folded), so "a" and "A" are the same id.
 */
module ListSync {
  import opened Strings

  /** FUIListEntry: a heap entry shared by pointer; only its display name is
      ever written by the synchronisation. */
  class UIListEntry {
    const id: string
    var displayName: string

    constructor (id: string, displayName: string)
      ensures this.id == id && this.displayName == displayName
    {
      this.id := id;
      this.displayName := displayName;
    }
  }

  /** One target option: an id and the text to show for it. */
  datatype InterfaceListEntry = InterfaceListEntry(id: string, displayName: string)

  /** The key under which an entry is looked up and sorted: the case-folded
      id of a valid entry, "" for an invalid one. Comparing keys with Less is
      comparing ids with FString's `<`. */
  function Key(e: UIListEntry?): string
  {
    if e == null then "" else Folded(e.id)
  }

  function Entries(list: seq<UIListEntry?>): set<UIListEntry>
  {
    set e: UIListEntry | e in list
  }

  // ---------------------------------------------------------------------
  // Specification of each step.

  /** The list with its invalid entries removed, order kept. */
  function NonNull(s: seq<UIListEntry?>): seq<UIListEntry?>
    decreases |s|
  {
    if s == [] then []
    else (if s[0] == null then [] else [s[0]]) + NonNull(s[1..])
  }

  /** TargetOptions: the options keyed by case-folded id. TMap::Add on a key
      already present replaces the whole pair, so a repeated id (in any case)
      holds its last occurrence, with that occurrence's spelling and name. */
  function TargetMap(options: seq<InterfaceListEntry>): map<string, InterfaceListEntry>
    decreases |options|
  {
    if options == [] then map[]
    else
      var last := options[|options| - 1];
      TargetMap(options[..|options| - 1])[Folded(last.id) := last]
  }

  /** CurrentOptions: the valid entries keyed by case-folded id; a repeated
      id keeps its last entry. */
  function LastById(s: seq<UIListEntry?>): map<string, UIListEntry>
    decreases |s|
  {
    if s == [] then map[]
    else
      var last := s[|s| - 1];
      var m := LastById(s[..|s| - 1]);
      if last == null then m else m[Folded(last.id) := last]
  }

  /** The list with every occurrence of the given entries removed. */
  function Without(s: seq<UIListEntry?>, gone: set<UIListEntry>): seq<UIListEntry?>
    decreases |s|
  {
    if s == [] then []
    else (if s[0] in gone then [] else [s[0]]) + Without(s[1..], gone)
  }

  /** The tracked entries whose id is not among the targets. */
  function Stale(current: map<string, UIListEntry>, target: map<string, InterfaceListEntry>): set<UIListEntry>
  {
    set k | k in current && k !in target :: current[k]
  }

  /** The tracked entries whose id is among the targets. */
  function Tracked(current: map<string, UIListEntry>, target: map<string, InterfaceListEntry>): set<UIListEntry>
  {
    set k | k in current && k in target :: current[k]
  }

  /** The entries of the input that are still in the list after the call. */
  function Survivors(list: seq<UIListEntry?>, options: seq<InterfaceListEntry>): seq<UIListEntry?>
  {
    var clean := NonNull(list);
    Without(clean, Stale(LastById(clean), TargetMap(options)))
  }

  /** The entries of the input whose display name is set from the target. */
  function Renamed(list: seq<UIListEntry?>, options: seq<InterfaceListEntry>): set<UIListEntry>
  {
    Tracked(LastById(NonNull(list)), TargetMap(options))
  }

  /** The ids for which a new entry is appended. */
  function AddedIds(list: seq<UIListEntry?>, options: seq<InterfaceListEntry>): set<string>
  {
    TargetMap(options).Keys - LastById(NonNull(list)).Keys
  }

  predicate SortedById(s: seq<UIListEntry?>)
  {
    forall i, j :: 0 <= i < j < |s| ==> !Less(Key(s[j]), Key(s[i]))
  }

  /** No two entries have ids equal ignoring case; "distinct ids" below
      always means this. */
  predicate DistinctIds(s: seq<UIListEntry?>)
  {
    forall i, j :: 0 <= i < j < |s| ==> Key(s[i]) != Key(s[j])
  }

  function Ids(s: seq<UIListEntry?>): set<string>
  {
    set i | 0 <= i < |s| :: Key(s[i])
  }

  /** A list that already shows the targets: valid entries only, one per
      target id, sorted by id. */
  predicate ShowsIds(s: seq<UIListEntry?>, target: map<string, InterfaceListEntry>)
  {
    null !in s && DistinctIds(s) && SortedById(s) && Ids(s) == target.Keys
  }

  /** ... and each entry shows its target's display name. */
  predicate ShowsNames(s: seq<UIListEntry?>, target: map<string, InterfaceListEntry>)
    reads Entries(s)
  {
    forall e :: e in s && e != null && Key(e) in target ==> e.displayName == target[Key(e)].displayName
  }

  /** An appended entry is the target option for its id: same spelling,
      same display name. */
  predicate NewEntryFor(e: UIListEntry, target: map<string, InterfaceListEntry>)
    reads e
  {
    Key(e) in target && e.id == target[Key(e)].id && e.displayName == target[Key(e)].displayName
  }

  // ---------------------------------------------------------------------
  // Properties of the steps.

  /** After the first loop no invalid entry is left, and every valid entry is
      still there. */
  lemma {:induction false} NonNullKeepsValid(s: seq<UIListEntry?>)
    ensures null !in NonNull(s)
    ensures forall e :: e in NonNull(s) <==> e in s && e != null
    decreases |s|
  {
    if s != [] {
      NonNullKeepsValid(s[1..]);
      assert s == [s[0]] + s[1..];
    }
  }

  lemma {:induction false} NonNullOfValid(s: seq<UIListEntry?>)
    requires null !in s
    ensures NonNull(s) == s
    decreases |s|
  {
    if s != [] {
      NonNullOfValid(s[1..]);
      assert s == [s[0]] + s[1..];
    }
  }

  /** The target map has exactly the folded option ids as keys, and holds
      under each key an option whose id folds to it. */
  lemma {:induction false} TargetMapKeys(options: seq<InterfaceListEntry>)
    ensures TargetMap(options).Keys == set i | 0 <= i < |options| :: Folded(options[i].id)
    ensures forall k :: k in TargetMap(options) ==>
              TargetMap(options)[k] in options && Folded(TargetMap(options)[k].id) == k
    decreases |options|
  {
    if options != [] {
      var n := |options| - 1;
      TargetMapKeys(options[..n]);
      assert forall i :: 0 <= i < n ==> options[..n][i] == options[i];
      assert options == options[..n] + [options[n]];
    }
  }

  /** An id maps to its last occurrence, whatever the case of the earlier
      ones. */
  lemma {:induction false} TargetMapLastWins(options: seq<InterfaceListEntry>, i: nat)
    requires i < |options|
    requires forall j :: i < j < |options| ==> Folded(options[j].id) != Folded(options[i].id)
    ensures Folded(options[i].id) in TargetMap(options)
    ensures TargetMap(options)[Folded(options[i].id)] == options[i]
    decreases |options|
  {
    var n := |options| - 1;
    if i < n {
      assert options[..n][i] == options[i];
      TargetMapLastWins(options[..n], i);
    }
  }

  /** The tracked map has exactly the folded valid ids as keys, and maps
      each of them to an entry of the list whose id folds to it. */
  lemma {:induction false} LastByIdKeys(s: seq<UIListEntry?>)
    ensures forall k :: k in LastById(s) ==> LastById(s)[k] in s && Key(LastById(s)[k]) == k
    ensures forall e :: e in s && e != null ==> Key(e) in LastById(s)
    decreases |s|
  {
    if s != [] {
      var n := |s| - 1;
      LastByIdKeys(s[..n]);
      assert s == s[..n] + [s[n]];
    }
  }

  /** An id maps to its last valid entry, whatever the case of the earlier
      ones. */
  lemma {:induction false} LastByIdIsLast(s: seq<UIListEntry?>, i: nat)
    requires i < |s| && s[i] != null
    requires forall j :: i < j < |s| ==> s[j] == null || Key(s[j]) != Key(s[i])
    ensures Key(s[i]) in LastById(s) && LastById(s)[Key(s[i])] == s[i]
    decreases |s|
  {
    var n := |s| - 1;
    if i < n {
      assert s[..n][i] == s[i];
      LastByIdIsLast(s[..n], i);
    }
  }

  /** On ids distinct ignoring case every valid entry is the tracked one for
      its id. */
  lemma DistinctIdsAllTracked(s: seq<UIListEntry?>, e: UIListEntry)
    requires DistinctIds(s) && e in s
    ensures Key(e) in LastById(s) && LastById(s)[Key(e)] == e
  {
    var i :| 0 <= i < |s| && s[i] == e;
    forall j | i < j < |s| ensures s[j] == null || Key(s[j]) != Key(s[i]) {
      assert Key(s[i]) != Key(s[j]);
    }
    LastByIdIsLast(s, i);
  }

  lemma {:induction false} WithoutMembers(s: seq<UIListEntry?>, gone: set<UIListEntry>)
    ensures forall e: UIListEntry? :: e in Without(s, gone) <==> e in s && (e == null || e !in gone)
    decreases |s|
  {
    if s != [] {
      WithoutMembers(s[1..], gone);
      assert s == [s[0]] + s[1..];
    }
  }

  lemma WithoutMember(s: seq<UIListEntry?>, gone: set<UIListEntry>, e: UIListEntry?)
    requires e in Without(s, gone)
    ensures e in s && (e == null || e !in gone)
  {
    WithoutMembers(s, gone);
  }

  lemma {:induction false} WithoutAppend(s: seq<UIListEntry?>, t: seq<UIListEntry?>, gone: set<UIListEntry>)
    ensures Without(s + t, gone) == Without(s, gone) + Without(t, gone)
    decreases |s|
  {
    if s == [] {
      assert s + t == t;
    } else {
      assert (s + t)[1..] == s[1..] + t;
      WithoutAppend(s[1..], t, gone);
    }
  }

  lemma {:induction false} WithoutTwice(s: seq<UIListEntry?>, a: set<UIListEntry>, b: set<UIListEntry>)
    ensures Without(Without(s, a), b) == Without(s, a + b)
    decreases |s|
  {
    if s != [] {
      WithoutTwice(s[1..], a, b);
      var w := Without(s[1..], a);
      if s[0] !in a {
        assert Without(s, a) == [s[0]] + w;
        assert ([s[0]] + w)[1..] == w;
      } else {
        assert Without(s, a) == w;
      }
    }
  }

  lemma {:induction false} WithoutNothing(s: seq<UIListEntry?>, gone: set<UIListEntry>)
    requires forall e :: e in s ==> e !in gone
    ensures Without(s, gone) == s
    decreases |s|
  {
    if s != [] {
      WithoutNothing(s[1..], gone);
      assert s == [s[0]] + s[1..];
    }
  }

  /** With ids distinct ignoring case on input, exactly the entries whose id
      is still a target (in any case) survive, and every one of them gets its
      target's name. */
  lemma DistinctInputSurvivors(list: seq<UIListEntry?>, options: seq<InterfaceListEntry>)
    requires DistinctIds(NonNull(list))
    ensures forall e: UIListEntry? :: e in Survivors(list, options) <==>
              e in list && e != null && Key(e) in TargetMap(options)
    ensures forall e: UIListEntry :: e in Survivors(list, options) ==> e in Renamed(list, options)
  {
    forall e: UIListEntry?
      ensures e in Survivors(list, options) <==> e in list && e != null && Key(e) in TargetMap(options)
    {
      DistinctInputSurvivor(list, options, e);
    }
    forall e: UIListEntry | e in Survivors(list, options)
      ensures e in Renamed(list, options)
    {
      DistinctInputSurvivor(list, options, e);
    }
  }

  lemma DistinctInputSurvivor(list: seq<UIListEntry?>, options: seq<InterfaceListEntry>, e: UIListEntry?)
    requires DistinctIds(NonNull(list))
    ensures e in Survivors(list, options) <==> e in list && e != null && Key(e) in TargetMap(options)
    ensures e in Survivors(list, options) ==> e in Renamed(list, options)
  {
    var clean := NonNull(list);
    var cur := LastById(clean);
    var target := TargetMap(options);
    var stale := Stale(cur, target);
    NonNullKeepsValid(list);
    LastByIdKeys(clean);
    WithoutMembers(clean, stale);
    assert Survivors(list, options) == Without(clean, stale);
    assert Renamed(list, options) == Tracked(cur, target);
    if e in clean {
      DistinctIdsAllTracked(clean, e);
      if e in stale {
        var k :| k in cur && k !in target && cur[k] == e;
      }
    }
  }

  /** With an id repeated on input (in any case), only the last entry of
      that id is tracked: an earlier duplicate whose id is no longer a target
      survives, and one whose id is still a target keeps its old name. */
  lemma EarlierDuplicateIsNotTracked(e1: UIListEntry, e2: UIListEntry, options: seq<InterfaceListEntry>)
    requires e1 != e2 && SameName(e1.id, e2.id)
    ensures e1 !in Renamed([e1, e2], options)
    ensures Key(e1) !in TargetMap(options) ==> Survivors([e1, e2], options) == [e1]
  {
    SameNameIsFoldedEquality(e1.id, e2.id);
    var list: seq<UIListEntry?> := [e1, e2];
    NonNullOfValid(list);
    assert list[..1] == [e1] && [e1][..0] == [];
    assert LastById([e1]) == map[Key(e1) := e1];
    assert LastById(list) == map[Key(e1) := e2];
    if Key(e1) !in TargetMap(options) {
      var gone := Stale(LastById(list), TargetMap(options));
      assert gone == {e2};
      assert list[1..] == [e2] && [e2][1..] == [];
      assert Without([e2], gone) == [];
    }
  }

  /** An option whose id differs from an entry's only in case names that
      entry: the entry survives and is renamed, keeping its own spelling,
      and nothing is appended. */
  lemma CaseOnlyChangeRenamesInPlace(e: UIListEntry, o: InterfaceListEntry)
    requires SameName(e.id, o.id)
    ensures AddedIds([e], [o]) == {}
    ensures Survivors([e], [o]) == [e]
    ensures Renamed([e], [o]) == {e}
  {
    SameNameIsFoldedEquality(e.id, o.id);
    var list: seq<UIListEntry?> := [e];
    NonNullOfValid(list);
    assert list[..0] == [] && [o][..0] == [];
    assert LastById(list) == map[Key(e) := e];
    assert TargetMap([o]) == map[Key(e) := o];
    assert Stale(LastById(list), TargetMap([o])) == {};
    var k := Key(e);
    assert k in LastById(list) && k in TargetMap([o]) && LastById(list)[k] == e;
    assert e in Tracked(LastById(list), TargetMap([o]));
    WithoutNothing(list, {});
  }

  /** When the list already shows the targets, every step is a no-op:
      nothing is dropped, added or removed, and every renamed entry already
      has its name. */
  lemma SynchronisedIsFixedPoint(list: seq<UIListEntry?>, options: seq<InterfaceListEntry>)
    requires ShowsIds(list, TargetMap(options))
    ensures NonNull(list) == list
    ensures AddedIds(list, options) == {}
    ensures Survivors(list, options) == list
    ensures Renamed(list, options) == Entries(list)
  {
    var target := TargetMap(options);
    NonNullOfValid(list);
    ShownKeysTracked(list, target);
    var cur := LastById(list);
    assert Stale(cur, target) == {};
    WithoutNothing(list, {});
    ShownEntriesRenamed(list, target);
  }

  /** A shown list tracks exactly the target ids. */
  lemma ShownKeysTracked(list: seq<UIListEntry?>, target: map<string, InterfaceListEntry>)
    requires ShowsIds(list, target)
    ensures LastById(list).Keys == target.Keys
  {
    LastByIdKeys(list);
    var cur := LastById(list);
    forall k | k in target ensures k in cur {
      assert k in Ids(list);
      var i :| 0 <= i < |list| && Key(list[i]) == k;
    }
    forall k | k in cur ensures k in target {
      var i :| 0 <= i < |list| && list[i] == cur[k];
      assert Key(list[i]) in Ids(list);
    }
  }

  /** Every entry of a shown list is tracked under a target id. */
  lemma ShownEntriesRenamed(list: seq<UIListEntry?>, target: map<string, InterfaceListEntry>)
    requires ShowsIds(list, target)
    ensures Tracked(LastById(list), target) == Entries(list)
  {
    LastByIdKeys(list);
    ShownKeysTracked(list, target);
    forall e | e in Entries(list) ensures e in Tracked(LastById(list), target) {
      DistinctIdsAllTracked(list, e);
    }
  }

  // ---------------------------------------------------------------------
  // Sorting (Algo::Sort with the "invalid is empty" key).

  /** Total preorder on keys used by the sort. */
  lemma NotLessTransitive(a: string, b: string, c: string)
    requires !Less(b, a) && !Less(c, b)
    ensures !Less(c, a)
  {
    if Less(c, a) {
      if a == b {
      } else if b == c {
      } else {
        LessTotal(a, b);
        LessTotal(b, c);
        LessTransitive(c, a, b);
      }
    }
  }

  function Insert(e: UIListEntry?, s: seq<UIListEntry?>): (r: seq<UIListEntry?>)
    requires SortedById(s)
    ensures SortedById(r) && multiset(r) == multiset(s) + multiset{e}
    decreases |s|
  {
    if s == [] || !Less(Key(s[0]), Key(e)) then
      InsertsAtFront(e, s);
      PrependSorted(e, s);
      [e] + s
    else
      var rest := Insert(e, s[1..]);
      InsertsBehindHead(e, s, rest);
      PrependSorted(s[0], rest);
      assert s == [s[0]] + s[1..];
      [s[0]] + rest
  }

  /** A sorted list stays sorted behind an entry no later than any of it. */
  lemma PrependSorted(x: UIListEntry?, s: seq<UIListEntry?>)
    requires SortedById(s)
    requires forall j :: 0 <= j < |s| ==> !Less(Key(s[j]), Key(x))
    ensures SortedById([x] + s)
  {
    var w := [x] + s;
    forall i, j | 0 <= i < j < |w| ensures !Less(Key(w[j]), Key(w[i])) {
      assert w[j] == s[j - 1];
      if i > 0 {
        assert w[i] == s[i - 1];
      }
    }
  }

  /** An entry no later than the head of a sorted list is no later than
      any of it. */
  lemma InsertsAtFront(e: UIListEntry?, s: seq<UIListEntry?>)
    requires SortedById(s)
    requires s == [] || !Less(Key(s[0]), Key(e))
    ensures forall j :: 0 <= j < |s| ==> !Less(Key(s[j]), Key(e))
  {
    forall j | 0 <= j < |s| ensures !Less(Key(s[j]), Key(e)) {
      if j > 0 {
        if Key(e) != Key(s[0]) {
          LessTotal(Key(e), Key(s[0]));
          LessAsymmetric(Key(e), Key(s[0]));
        }
        NotLessTransitive(Key(e), Key(s[0]), Key(s[j]));
      }
    }
  }

  /** When the entry goes behind the head, the head is no later than
      anything of the rest with the entry inserted. */
  lemma InsertsBehindHead(e: UIListEntry?, s: seq<UIListEntry?>, rest: seq<UIListEntry?>)
    requires SortedById(s) && s != [] && Less(Key(s[0]), Key(e))
    requires multiset(rest) == multiset(s[1..]) + multiset{e}
    ensures forall j :: 0 <= j < |rest| ==> !Less(Key(rest[j]), Key(s[0]))
  {
    forall j | 0 <= j < |rest| ensures !Less(Key(rest[j]), Key(s[0])) {
      assert rest[j] in multiset(rest);
      if rest[j] == e {
        LessAsymmetric(Key(s[0]), Key(e));
      } else {
        assert rest[j] in multiset(s[1..]);
        var k :| 0 <= k < |s[1..]| && s[1..][k] == rest[j];
        assert s[k + 1] == rest[j];
      }
    }
  }

  /** A sorted permutation of the list (the model's choice of Algo::Sort). */
  function SortById(s: seq<UIListEntry?>): (r: seq<UIListEntry?>)
    ensures SortedById(r) && multiset(r) == multiset(s)
    decreases |s|
  {
    if s == [] then []
    else
      assert s == [s[0]] + s[1..];
      Insert(s[0], SortById(s[1..]))
  }

  lemma FirstOfSortedIsLeast(a: seq<UIListEntry?>, x: UIListEntry?)
    requires SortedById(a) && x in a
    ensures !Less(Key(x), Key(a[0]))
  {
    var i :| 0 <= i < |a| && a[i] == x;
    if i > 0 {
      assert !Less(Key(a[i]), Key(a[0]));
    } else {
      LessIrreflexive(Key(x));
    }
  }

  /** Algo::Sort is not stable, but on distinct ids every sorted permutation
      is the same list. */
  lemma {:induction false} SortedPermutationIsUnique(a: seq<UIListEntry?>, b: seq<UIListEntry?>)
    requires SortedById(a) && SortedById(b) && multiset(a) == multiset(b)
    requires DistinctIds(a)
    ensures a == b
    decreases |a|
  {
    assert |a| == |multiset(a)| == |b|;
    if a != [] {
      SameHead(a, b);
      var ta, tb := a[1..], b[1..];
      assert a == [a[0]] + ta && b == [a[0]] + tb;
      assert multiset(ta) == multiset(a) - multiset{a[0]};
      assert multiset(tb) == multiset(b) - multiset{a[0]};
      TailKeepsSorted(a);
      TailKeepsDistinct(a);
      TailKeepsSorted(b);
      SortedPermutationIsUnique(ta, tb);
    }
  }

  /** Two sorted permutations of a non-empty list with distinct ids start
      with the same entry. */
  lemma SameHead(a: seq<UIListEntry?>, b: seq<UIListEntry?>)
    requires SortedById(a) && SortedById(b) && multiset(a) == multiset(b)
    requires DistinctIds(a) && a != [] && |b| == |a|
    ensures a[0] == b[0]
  {
    assert b[0] in multiset(a) && a[0] in multiset(b);
    FirstOfSortedIsLeast(a, b[0]);
    FirstOfSortedIsLeast(b, a[0]);
    if Key(a[0]) != Key(b[0]) {
      LessTotal(Key(a[0]), Key(b[0]));
    }
    var i :| 0 <= i < |a| && a[i] == b[0];
    assert Key(a[i]) == Key(a[0]);
  }

  /** Dropping the first entry keeps a list sorted. */
  lemma TailKeepsSorted(a: seq<UIListEntry?>)
    requires a != [] && SortedById(a)
    ensures SortedById(a[1..])
  {
    forall i, j | 0 <= i < j < |a| - 1
      ensures !Less(Key(a[1..][j]), Key(a[1..][i]))
    {
      assert a[1..][i] == a[i + 1] && a[1..][j] == a[j + 1];
    }
  }

  // ---------------------------------------------------------------------
  // What one call leaves behind, and what follows from it.

  /** The appended entries: one per folded id in `ids`, no id twice. */
  predicate NewIds(added: seq<UIListEntry>, ids: set<string>)
  {
    (forall i, j :: 0 <= i < j < |added| ==> Key(added[i]) != Key(added[j])) &&
    IdSet(added) == ids
  }

  function IdSet(added: seq<UIListEntry>): set<string>
  {
    set i | 0 <= i < |added| :: Key(added[i])
  }

  /** A non-empty run of entries has its first id among its ids. */
  lemma FirstIdIsNew(added: seq<UIListEntry>)
    ensures added != [] ==> Key(added[0]) in IdSet(added)
  {
  }

  lemma IdSetAppend(added: seq<UIListEntry>, e: UIListEntry)
    ensures IdSet(added + [e]) == IdSet(added) + {Key(e)}
  {
    var t := added + [e];
    assert t[|added|] == e;
    forall k | k in IdSet(added) ensures k in IdSet(t) {
      var i :| 0 <= i < |added| && Key(added[i]) == k;
      assert t[i] == added[i];
    }
  }

  /** The list after the call: valid entries only, sorted by id, and made of
      the surviving input entries plus the appended ones. */
  predicate ListOutcome(list: seq<UIListEntry?>, options: seq<InterfaceListEntry>,
                        added: seq<UIListEntry>, result: seq<UIListEntry?>)
  {
    null !in result && SortedById(result) &&
    multiset(result) == multiset(Survivors(list, options) + added) &&
    NewIds(added, AddedIds(list, options))
  }

  lemma {:induction false} DistinctCountsOnce(a: seq<UIListEntry?>, x: UIListEntry?)
    requires DistinctIds(a)
    ensures multiset(a)[x] <= 1
    decreases |a|
  {
    if a != [] {
      var t := a[1..];
      assert a == [a[0]] + t;
      assert multiset(a) == multiset{a[0]} + multiset(t);
      TailKeepsDistinct(a);
      DistinctCountsOnce(t, x);
      if a[0] == x {
        forall j | 0 <= j < |t| ensures t[j] != x {
          assert t[j] == a[j + 1];
          assert Key(a[0]) != Key(a[j + 1]);
        }
      }
    }
  }

  lemma TailKeepsDistinct(a: seq<UIListEntry?>)
    requires a != [] && DistinctIds(a)
    ensures DistinctIds(a[1..])
  {
    forall i, j | 0 <= i < j < |a| - 1 ensures Key(a[1..][i]) != Key(a[1..][j]) {
      assert a[1..][i] == a[i + 1] && a[1..][j] == a[j + 1];
    }
  }

  /** Distinct ids are kept by any permutation. */
  lemma PermutationKeepsDistinct(a: seq<UIListEntry?>, b: seq<UIListEntry?>)
    requires multiset(a) == multiset(b) && DistinctIds(a)
    ensures DistinctIds(b)
  {
    forall i, j | 0 <= i < j < |b| ensures Key(b[i]) != Key(b[j]) {
      CountOfTwoIndices(b, i, j);
      DistinctCountsOnce(a, b[i]);
      assert b[i] != b[j];
      assert b[i] in multiset(a) && b[j] in multiset(a);
      var p :| 0 <= p < |a| && a[p] == b[i];
      var q :| 0 <= q < |a| && a[q] == b[j];
      if p < q { assert Key(a[p]) != Key(a[q]); } else { assert Key(a[q]) != Key(a[p]); }
    }
  }

  lemma CountOfTwoIndices(b: seq<UIListEntry?>, i: nat, j: nat)
    requires i < j < |b|
    ensures multiset(b)[b[i]] >= if b[i] == b[j] then 2 else 1
  {
    assert b == b[..j] + b[j..];
    assert b[i] == b[..j][i] && b[j] == b[j..][0];
    assert multiset(b)[b[i]] == multiset(b[..j])[b[i]] + multiset(b[j..])[b[i]];
  }

  lemma IdsOfMembers(s: seq<UIListEntry?>, k: string)
    ensures k in Ids(s) <==> exists x :: x in s && Key(x) == k
  {
    if k in Ids(s) {
      var i :| 0 <= i < |s| && Key(s[i]) == k;
      assert s[i] in s;
    }
    if exists x :: x in s && Key(x) == k {
      var x :| x in s && Key(x) == k;
      var i :| 0 <= i < |s| && s[i] == x;
      assert Key(s[i]) in Ids(s);
    }
  }

  lemma {:induction false} WithoutKeepsDistinct(s: seq<UIListEntry?>, gone: set<UIListEntry>)
    requires DistinctIds(s)
    ensures DistinctIds(Without(s, gone))
    decreases |s|
  {
    if s != [] {
      TailKeepsDistinct(s);
      WithoutKeepsDistinct(s[1..], gone);
      WithoutMembers(s[1..], gone);
      var w := Without(s[1..], gone);
      if s[0] !in gone {
        forall j | 0 <= j < |w| ensures Key(s[0]) != Key(w[j]) {
          WithoutMember(s[1..], gone, w[j]);
          var q :| 0 <= q < |s[1..]| && s[1..][q] == w[j];
          assert s[q + 1] == w[j];
        }
        forall i, j | 0 <= i < j < |[s[0]] + w| ensures Key(([s[0]] + w)[i]) != Key(([s[0]] + w)[j]) {
          if i > 0 {
            assert ([s[0]] + w)[i] == w[i - 1] && ([s[0]] + w)[j] == w[j - 1];
          }
        }
      }
    }
  }

  /** With ids distinct ignoring case on input, the list ends up holding
      exactly one valid entry per target id, sorted by id. */
  lemma DistinctInputShowsTargets(list: seq<UIListEntry?>, options: seq<InterfaceListEntry>,
                                  added: seq<UIListEntry>, result: seq<UIListEntry?>)
    requires ListOutcome(list, options, added, result)
    requires DistinctIds(NonNull(list))
    ensures ShowsIds(result, TargetMap(options))
  {
    var whole := Survivors(list, options) + added;
    UnsortedDistinct(list, options, added);
    PermutationKeepsDistinct(whole, result);
    UnsortedIds(list, options, added);
    IdsOfPermutation(whole, result);
  }

  /** The survivors followed by the new entries have distinct ids. */
  lemma UnsortedDistinct(list: seq<UIListEntry?>, options: seq<InterfaceListEntry>, added: seq<UIListEntry>)
    requires DistinctIds(NonNull(list)) && NewIds(added, AddedIds(list, options))
    ensures DistinctIds(Survivors(list, options) + added)
  {
    var cur := LastById(NonNull(list));
    var surv := Survivors(list, options);
    SurvivorsTracked(list, options);
    forall i | 0 <= i < |surv| ensures Key(surv[i]) in cur.Keys {
      assert surv[i] in surv;
    }
    forall j | 0 <= j < |added| ensures Key(added[j]) !in cur.Keys {
      assert Key(added[j]) in IdSet(added);
    }
    DistinctConcat(surv, added, cur.Keys);
  }

  /** Every survivor is a valid entry of the input, tracked under its id,
      and with distinct input ids the survivors' ids are distinct. */
  lemma SurvivorsTracked(list: seq<UIListEntry?>, options: seq<InterfaceListEntry>)
    requires DistinctIds(NonNull(list))
    ensures forall e :: e in Survivors(list, options) ==> e != null && Key(e) in LastById(NonNull(list))
    ensures DistinctIds(Survivors(list, options))
  {
    var clean := NonNull(list);
    var gone := Stale(LastById(clean), TargetMap(options));
    assert Survivors(list, options) == Without(clean, gone);
    WithoutKeepsDistinct(clean, gone);
    forall e | e in Without(clean, gone) ensures e != null && Key(e) in LastById(clean) {
      WithoutMember(clean, gone, e);
      NonNullKeepsValid(list);
      LastByIdKeys(clean);
    }
  }

  /** Two lists with distinct ids, the first's inside a set of ids and the
      second's outside it, have distinct ids together. */
  lemma DistinctConcat(a: seq<UIListEntry?>, b: seq<UIListEntry>, ks: set<string>)
    requires DistinctIds(a) && forall i, j :: 0 <= i < j < |b| ==> Key(b[i]) != Key(b[j])
    requires forall i :: 0 <= i < |a| ==> Key(a[i]) in ks
    requires forall j :: 0 <= j < |b| ==> Key(b[j]) !in ks
    ensures DistinctIds(a + b)
  {
    var w := a + b;
    forall i, j | 0 <= i < j < |w| ensures Key(w[i]) != Key(w[j]) {
      if j < |a| {
        assert w[i] == a[i] && w[j] == a[j];
      } else if i >= |a| {
        assert w[i] == b[i - |a|] && w[j] == b[j - |a|];
      } else {
        assert w[i] == a[i] && w[j] == b[j - |a|];
      }
    }
  }

  /** The survivors followed by the new entries show exactly the target ids. */
  lemma UnsortedIds(list: seq<UIListEntry?>, options: seq<InterfaceListEntry>, added: seq<UIListEntry>)
    requires DistinctIds(NonNull(list)) && NewIds(added, AddedIds(list, options))
    ensures Ids(Survivors(list, options) + added) == TargetMap(options).Keys
  {
    var clean := NonNull(list);
    var target := TargetMap(options);
    var cur := LastById(clean);
    var surv := Survivors(list, options);
    var whole := surv + added;
    NonNullKeepsValid(list);
    LastByIdKeys(clean);
    DistinctInputSurvivors(list, options);
    forall k ensures k in Ids(whole) <==> k in target {
      IdsOfMembers(whole, k);
      if k in Ids(whole) {
        var x :| x in whole && Key(x) == k;
        if x !in surv {
          assert x in added;
          var i :| 0 <= i < |added| && added[i] == x;
          assert Key(added[i]) in IdSet(added);
        }
      }
      if k in target {
        var x: UIListEntry?;
        if k in cur {
          x := cur[k];
          assert x in clean;
        } else {
          assert k in IdSet(added);
          var i :| 0 <= i < |added| && Key(added[i]) == k;
          x := added[i];
        }
        assert x in whole;
      }
    }
  }

  /** Two lists holding the same entries show the same ids. */
  lemma IdsOfPermutation(a: seq<UIListEntry?>, b: seq<UIListEntry?>)
    requires multiset(a) == multiset(b)
    ensures Ids(a) == Ids(b)
  {
    forall k ensures k in Ids(a) <==> k in Ids(b) {
      IdsOfMembers(a, k);
      IdsOfMembers(b, k);
      if k in Ids(a) {
        var x :| x in a && Key(x) == k;
        assert x in multiset(b);
      }
      if k in Ids(b) {
        var x :| x in b && Key(x) == k;
        assert x in multiset(a);
      }
    }
  }

  /** A second call with the same options, on a list that already shows
      them, leaves the list exactly as it was: same entries, same order,
      nothing appended. */
  lemma SecondRunIsNoOp(list: seq<UIListEntry?>, options: seq<InterfaceListEntry>,
                        added: seq<UIListEntry>, result: seq<UIListEntry?>)
    requires ListOutcome(list, options, added, result)
    requires ShowsIds(list, TargetMap(options))
    ensures added == [] && result == list
  {
    SynchronisedIsFixedPoint(list, options);
    // Every target id is already shown, so no id is new and nothing is added.
    NonNullOfValid(list);
    LastByIdKeys(list);
    assert AddedIds(list, options) == {};
    FirstIdIsNew(added);
    assert added == [];
    assert Survivors(list, options) + added == list;
    SortedPermutationIsUnique(list, result);
  }

  // ---------------------------------------------------------------------
  // The operation.

  /** Lines 17-23: walk the list backwards and remove invalid entries. */
  method RemoveInvalid(list: seq<UIListEntry?>) returns (cur: seq<UIListEntry?>)
    ensures cur == NonNull(list)
  {
    cur := list;
    var i := |list| - 1;
    assert list[|list|..] == [];
    while i >= 0
      invariant -1 <= i < |list|
      invariant cur == list[..i + 1] + NonNull(list[i + 1..])
    {
      assert list[i..][1..] == list[i + 1..];
      assert cur[i] == list[i];
      if cur[i] == null {
        assert list[..i + 1] == list[..i] + [list[i]];
        cur := cur[..i] + cur[i + 1..];
      } else {
        assert list[..i + 1] == list[..i] + [list[i]];
      }
      i := i - 1;
    }
    assert list[0..] == list;
  }

  /** Lines 28-31: the options keyed by folded id. */
  method BuildTargetOptions(options: seq<InterfaceListEntry>) returns (target: map<string, InterfaceListEntry>)
    ensures target == TargetMap(options)
  {
    target := map[];
    var j := 0;
    while j < |options|
      invariant 0 <= j <= |options|
      invariant target == TargetMap(options[..j])
    {
      assert options[..j + 1][..j] == options[..j];
      target := target[Folded(options[j].id) := options[j]];
      j := j + 1;
    }
    assert options[..|options|] == options;
  }

  /** Lines 32-35: the valid entries keyed by folded id. */
  method BuildCurrentOptions(clean: seq<UIListEntry?>) returns (current: map<string, UIListEntry>)
    requires null !in clean
    ensures current == LastById(clean)
  {
    current := map[];
    var j := 0;
    while j < |clean|
      invariant 0 <= j <= |clean|
      invariant current == LastById(clean[..j])
    {
      assert clean[..j + 1][..j] == clean[..j];
      assert clean[j] in clean;
      current := current[Folded(clean[j].id) := clean[j]];
      j := j + 1;
    }
    assert clean[..|clean|] == clean;
  }

  /** Lines 38-50: visit the target ids in the map's (unspecified) order;
      append an entry, spelt as the target option, for an id not yet shown
      (in any case), or write the target's display name into the tracked
      entry for that id, whose own spelling stays. */
  method ApplyTargets(clean: seq<UIListEntry?>, current: map<string, UIListEntry>, target: map<string, InterfaceListEntry>)
    returns (work: seq<UIListEntry?>, ghost added: seq<UIListEntry>)
    requires forall k :: k in current ==> Key(current[k]) == k
    requires forall k :: k in target ==> Folded(target[k].id) == k
    modifies Tracked(current, target)
    ensures work == clean + added
    ensures forall e :: e in added ==> fresh(e)
    ensures NewIds(added, target.Keys - current.Keys)
    ensures forall i :: 0 <= i < |added| ==> NewEntryFor(added[i], target)
    ensures forall k :: k in current && k in target ==> current[k].displayName == target[k].displayName
  {
    work, added := clean, [];
    var pending := target.Keys;
    while pending != {}
      invariant pending <= target.Keys
      invariant work == clean + added
      invariant forall e :: e in added ==> fresh(e)
      invariant forall i :: 0 <= i < |added| ==> NewEntryFor(added[i], target)
      invariant forall i, j :: 0 <= i < j < |added| ==> Key(added[i]) != Key(added[j])
      invariant IdSet(added) == target.Keys - pending - current.Keys
      invariant forall k :: k in current && k in target.Keys - pending ==>
                  current[k].displayName == target[k].displayName
      decreases pending
    {
      var k :| k in pending;
      if k !in current {
        var e := new UIListEntry(target[k].id, target[k].displayName);
        IdSetAppend(added, e);
        work, added := work + [e], added + [e];
      } else if current[k].displayName != target[k].displayName {
        current[k].displayName := target[k].displayName;
      }
      pending := pending - {k};
    }
  }

  /** Lines 53-59: for every tracked id that is no longer a target, remove
      (every occurrence of) its tracked entry. */
  method ApplyRemovals(work: seq<UIListEntry?>, current: map<string, UIListEntry>, target: map<string, InterfaceListEntry>)
    returns (rest: seq<UIListEntry?>)
    ensures rest == Without(work, Stale(current, target))
  {
    rest := work;
    WithoutNothing(work, {});
    var pending := current.Keys;
    ghost var gone: set<UIListEntry> := {};
    while pending != {}
      invariant pending <= current.Keys
      invariant gone == set k | k in current.Keys - pending && k !in target :: current[k]
      invariant rest == Without(work, gone)
      decreases pending
    {
      var k :| k in pending;
      if k !in target {
        WithoutTwice(work, gone, {current[k]});
        rest := Without(rest, {current[k]});
        gone := gone + {current[k]};
      }
      pending := pending - {k};
    }
    assert current.Keys - pending == current.Keys;
  }

  /** After the renames, every tracked entry whose id is a target shows the
      target's display name. */
  lemma TrackedNames(current: map<string, UIListEntry>, target: map<string, InterfaceListEntry>)
    requires forall k :: k in current ==> Key(current[k]) == k
    requires forall k :: k in current && k in target ==> current[k].displayName == target[k].displayName
    ensures forall e :: e in Tracked(current, target) ==> Key(e) in target && e.displayName == target[Key(e)].displayName
  {
  }

  /** The list before sorting is the surviving input entries followed by the
      appended ones. */
  lemma PiecesMakeSurvivors(list: seq<UIListEntry?>, options: seq<InterfaceListEntry>,
                            added: seq<UIListEntry>)
    requires NewIds(added, AddedIds(list, options))
    ensures Without(NonNull(list) + added, Stale(LastById(NonNull(list)), TargetMap(options)))
            == Survivors(list, options) + added
  {
    var clean := NonNull(list);
    var current := LastById(clean);
    var stale := Stale(current, TargetMap(options));
    LastByIdKeys(clean);
    WithoutAppend(clean, added, stale);
    forall e | e in added ensures e !in stale {
      var i :| 0 <= i < |added| && added[i] == e;
      assert Key(e) in IdSet(added);
    }
    WithoutNothing(added, stale);
  }

  lemma OutcomeFromPieces(list: seq<UIListEntry?>, options: seq<InterfaceListEntry>,
                          added: seq<UIListEntry>, rest: seq<UIListEntry?>, result: seq<UIListEntry?>)
    requires NewIds(added, AddedIds(list, options))
    requires rest == Without(NonNull(list) + added, Stale(LastById(NonNull(list)), TargetMap(options)))
    requires SortedById(result) && multiset(result) == multiset(rest)
    ensures ListOutcome(list, options, added, result)
  {
    PiecesMakeSurvivors(list, options, added);
    NonNullKeepsValid(list);
    WithoutMembers(NonNull(list), Stale(LastById(NonNull(list)), TargetMap(options)));
    assert null !in multiset(rest);
  }

  /** Every valid input entry whose id is a target is still in the list. */
  lemma TargetEntriesStay(list: seq<UIListEntry?>, options: seq<InterfaceListEntry>,
                          added: seq<UIListEntry>, result: seq<UIListEntry?>)
    requires multiset(result) == multiset(Survivors(list, options) + added)
    ensures forall e :: e in list && e != null && Key(e) in TargetMap(options) ==> e in result
  {
    var clean := NonNull(list);
    var current := LastById(clean);
    var target := TargetMap(options);
    var stale := Stale(current, target);
    NonNullKeepsValid(list);
    LastByIdKeys(clean);
    WithoutMembers(clean, stale);
    forall e | e in list && e != null && Key(e) in target ensures e in result {
      assert e in clean;
      forall k | k in current && k !in target ensures current[k] != e {
        assert Key(current[k]) == k;
      }
      assert e in Survivors(list, options);
      assert e in multiset(result);
    }
  }

  /** FOSSInterfaceListEntry::SynchroniseToComboBoxList. The in-out list is
      passed in as `list` and handed back as `result`; `added` names the
      entries the call creates. Only the display names of the tracked
      entries whose id is a target may change. */
  method SynchroniseToComboBoxList(options: seq<InterfaceListEntry>, list: seq<UIListEntry?>)
    returns (result: seq<UIListEntry?>, ghost added: seq<UIListEntry>)
    modifies Renamed(list, options)
    ensures ListOutcome(list, options, added, result)
    ensures forall e :: e in added ==> fresh(e)
    ensures forall i :: 0 <= i < |added| ==> NewEntryFor(added[i], TargetMap(options))
    ensures forall e :: e in Renamed(list, options) ==>
              Key(e) in TargetMap(options) && e.displayName == TargetMap(options)[Key(e)].displayName
    ensures forall e :: e in list && e != null && Key(e) in TargetMap(options) ==> e in result
    ensures DistinctIds(NonNull(list)) ==>
              ShowsIds(result, TargetMap(options)) && ShowsNames(result, TargetMap(options))
  {
    var clean := RemoveInvalid(list);
    NonNullKeepsValid(list);
    var target := BuildTargetOptions(options);
    var current := BuildCurrentOptions(clean);
    LastByIdKeys(clean);
    TargetMapKeys(options);
    var work;
    work, added := ApplyTargets(clean, current, target);
    var rest := ApplyRemovals(work, current, target);
    result := SortById(rest);
    TrackedNames(current, target);
    OutcomeFromPieces(list, options, added, rest, result);
    TargetEntriesStay(list, options, added, result);
    if DistinctIds(NonNull(list)) {
      DistinctInputShowsTargets(list, options, added, result);
      DistinctInputNames(list, options, added, result);
    }
  }

  /** With distinct ids on input, every entry left shows its target name,
      given the renames and the names of the appended entries. */
  lemma DistinctInputNames(list: seq<UIListEntry?>, options: seq<InterfaceListEntry>,
                           added: seq<UIListEntry>, result: seq<UIListEntry?>)
    requires DistinctIds(NonNull(list))
    requires multiset(result) == multiset(Survivors(list, options) + added)
    requires forall i :: 0 <= i < |added| ==> NewEntryFor(added[i], TargetMap(options))
    requires forall e :: e in Renamed(list, options) ==>
               Key(e) in TargetMap(options) && e.displayName == TargetMap(options)[Key(e)].displayName
    ensures forall e :: e in result && e != null && Key(e) in TargetMap(options) ==>
              e.displayName == TargetMap(options)[Key(e)].displayName
  {
    DistinctInputSurvivors(list, options);
    forall e | e in result && e != null && Key(e) in TargetMap(options)
      ensures e.displayName == TargetMap(options)[Key(e)].displayName
    {
      assert e in multiset(Survivors(list, options) + added);
      if e in Survivors(list, options) {
      } else {
        var i :| 0 <= i < |added| && added[i] == e;
      }
    }
  }
}
