/**
 * The reveal-on-scroll effect of `initScrollEffects` in main-clean.js. Every
 * observed card starts hidden; the intersection callback makes a card visible
 * when an entry reports it intersecting, and nothing ever hides it again.
 */
module Reveal {

  /** One intersection-observer entry: the observed element (by registration order) and whether it intersects. */
  datatype Entry = Entry(target: nat, isIntersecting: bool)

  /** The visibility flags after the callback has handled `entries` in order. */
  function Revealed(flags: seq<bool>, entries: seq<Entry>): (r: seq<bool>)
    ensures |r| == |flags|
    decreases |entries|
  {
    if entries == [] then flags
    else
      var before := Revealed(flags, entries[..|entries| - 1]);
      var e := entries[|entries| - 1];
      if e.isIntersecting && e.target < |before| then before[e.target := true] else before
  }

  /** Some entry reports element `i` intersecting. */
  predicate SeenIntersecting(entries: seq<Entry>, i: nat) {
    exists j :: 0 <= j < |entries| && entries[j].target == i && entries[j].isIntersecting
  }

  /** An element is visible afterwards exactly when it was visible before or some entry reported it intersecting. */
  lemma {:induction false} RevealedAt(flags: seq<bool>, entries: seq<Entry>, i: nat)
    requires i < |flags|
    ensures Revealed(flags, entries)[i] <==> flags[i] || SeenIntersecting(entries, i)
    decreases |entries|
  {
    if entries != [] {
      var prefix := entries[..|entries| - 1];
      RevealedAt(flags, prefix, i);
      if SeenIntersecting(prefix, i) {
        var j :| 0 <= j < |prefix| && prefix[j].target == i && prefix[j].isIntersecting;
        assert entries[j] == prefix[j];
      }
      if SeenIntersecting(entries, i) {
        var j :| 0 <= j < |entries| && entries[j].target == i && entries[j].isIntersecting;
        if j < |prefix| { assert prefix[j] == entries[j]; }
      }
    }
  }

  /** Reveal is monotone: a visible element stays visible, whatever the entries say. */
  lemma RevealMonotone(flags: seq<bool>, entries: seq<Entry>)
    ensures forall i :: 0 <= i < |flags| && flags[i] ==> Revealed(flags, entries)[i]
  {
    forall i | 0 <= i < |flags| && flags[i]
      ensures Revealed(flags, entries)[i]
    {
      RevealedAt(flags, entries, i);
    }
  }

  /** Non-intersecting entries alone change nothing. */
  lemma NonIntersectingChangesNothing(flags: seq<bool>, entries: seq<Entry>)
    requires forall j :: 0 <= j < |entries| ==> !entries[j].isIntersecting
    ensures Revealed(flags, entries) == flags
  {
    forall i | 0 <= i < |flags|
      ensures Revealed(flags, entries)[i] == flags[i]
    {
      RevealedAt(flags, entries, i);
    }
  }

  /** Reveal is idempotent: handling the same entries again changes nothing. */
  lemma RevealIdempotent(flags: seq<bool>, entries: seq<Entry>)
    ensures Revealed(Revealed(flags, entries), entries) == Revealed(flags, entries)
  {
    var once := Revealed(flags, entries);
    forall i | 0 <= i < |flags|
      ensures Revealed(once, entries)[i] == once[i]
    {
      RevealedAt(once, entries, i);
      RevealedAt(flags, entries, i);
    }
  }

  /** Two callbacks in a row do what one callback with both batches of entries does. */
  lemma {:induction false} RevealBatches(flags: seq<bool>, first: seq<Entry>, second: seq<Entry>)
    ensures Revealed(Revealed(flags, first), second) == Revealed(flags, first + second)
    decreases |second|
  {
    if second != [] {
      var prefix := second[..|second| - 1];
      RevealBatches(flags, first, prefix);
      assert (first + second)[..|first + second| - 1] == first + prefix;
      assert (first + second)[|first + second| - 1] == second[|second| - 1];
    } else {
      assert first + second == first;
    }
  }

  /** The observed elements of one page and their visibility. */
  class RevealObserver {
    /** Element `i` has been made visible (opacity 1, no offset). */
    var visible: seq<bool>

    /** Registration: every one of the `count` matched elements is hidden and observed. */
    constructor (count: nat)
      ensures |visible| == count
      ensures forall i :: 0 <= i < count ==> !visible[i]
    {
      visible := seq(count, _ => false);
    }

    /** The intersection callback. */
    method OnEntries(entries: seq<Entry>)
      modifies this
      ensures visible == Revealed(old(visible), entries)
    {
      var flags := visible;
      var k := 0;
      while k < |entries|
        invariant 0 <= k <= |entries|
        invariant flags == Revealed(visible, entries[..k])
      {
        var entry := entries[k];
        if entry.isIntersecting && entry.target < |flags| {
          flags := flags[entry.target := true];
        }
        assert entries[..k + 1][..k] == entries[..k];
        k := k + 1;
      }
      assert entries[..|entries|] == entries;
      visible := flags;
    }
  }
}
