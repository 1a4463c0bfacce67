/*
 * The list-building loops the getters and handlers share: each walks a list
 * the backend returned and appends one converted entry per item, or per item
 * whose lookup succeeds.
 */
module Lists {
  import opened Wrappers

  /** The converted items that `f` keeps, in order. */
  function Collect<A, B>(items: seq<A>, f: A -> Option<B>): seq<B>
  {
    if items == [] then []
    else (if f(items[0]).Some? then [f(items[0]).value] else []) + Collect(items[1..], f)
  }

  lemma {:induction false} CollectAppend<A, B>(items: seq<A>, x: A, f: A -> Option<B>)
    ensures Collect(items + [x], f) == Collect(items, f) + (if f(x).Some? then [f(x).value] else [])
  {
    if items != [] {
      assert (items + [x])[1..] == items[1..] + [x];
      CollectAppend(items[1..], x, f);
    }
  }

  /** An entry is collected exactly when some item converts to it, and
      there are never more entries than items. */
  lemma {:induction false} CollectMembers<A, B>(items: seq<A>, f: A -> Option<B>)
    ensures |Collect(items, f)| <= |items|
    ensures forall b :: b in Collect(items, f) <==> exists i :: 0 <= i < |items| && f(items[i]) == Some(b)
  {
    if items != [] {
      CollectMembers(items[1..], f);
      forall b
        ensures b in Collect(items, f) <==> exists i :: 0 <= i < |items| && f(items[i]) == Some(b)
      {
        if b in Collect(items[1..], f) {
          var i :| 0 <= i < |items[1..]| && f(items[1..][i]) == Some(b);
          assert f(items[i + 1]) == Some(b);
        }
        if exists i :: 0 <= i < |items| && f(items[i]) == Some(b) {
          var i :| 0 <= i < |items| && f(items[i]) == Some(b);
          if i > 0 {
            assert f(items[1..][i - 1]) == Some(b);
          }
        }
      }
    }
  }

  /** When every item converts, the collected list is the item-by-item
      conversion. */
  lemma {:induction false} CollectTotal<A, B>(items: seq<A>, f: A -> Option<B>)
    requires forall i :: 0 <= i < |items| ==> f(items[i]).Some?
    ensures |Collect(items, f)| == |items|
    ensures forall i :: 0 <= i < |items| ==> Collect(items, f)[i] == f(items[i]).value
  {
    if items != [] {
      CollectTotal(items[1..], f);
    }
  }

  /** The loop that appends one converted entry per item. */
  method MapEach<A, B>(items: seq<A>, f: A -> B) returns (out: seq<B>)
    ensures |out| == |items|
    ensures forall i :: 0 <= i < |items| ==> out[i] == f(items[i])
  {
    out := [];
    for i := 0 to |items|
      invariant |out| == i
      invariant forall j :: 0 <= j < i ==> out[j] == f(items[j])
    {
      out := out + [f(items[i])];
    }
  }

  /** The loop that appends a converted entry for each item that converts. */
  method CollectEach<A, B>(items: seq<A>, f: A -> Option<B>) returns (out: seq<B>)
    ensures out == Collect(items, f)
  {
    out := [];
    for i := 0 to |items|
      invariant out == Collect(items[..i], f)
    {
      CollectAppend(items[..i], items[i], f);
      assert items[..i + 1] == items[..i] + [items[i]];
      var c := f(items[i]);
      if c.Some? {
        out := out + [c.value];
      }
    }
    assert items[..|items|] == items;
  }

  /** The selection loop that stops at the first item satisfying `p`. */
  method FirstWhere<A>(items: seq<A>, p: A -> bool) returns (k: Option<nat>)
    ensures k.None? <==> forall i :: 0 <= i < |items| ==> !p(items[i])
    ensures k.Some? ==> k.value < |items| && p(items[k.value]) &&
                        forall j :: 0 <= j < k.value ==> !p(items[j])
  {
    for i := 0 to |items|
      invariant forall j :: 0 <= j < i ==> !p(items[j])
    {
      if p(items[i]) {
        return Some(i);
      }
    }
    return None;
  }
}
