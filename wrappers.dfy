/** Optional values: the model's stand-in for a JavaScript value that may be null. */
module Wrappers {
  datatype Option<T> = None | Some(value: T)
  {
    predicate IsSome() { this.Some? }

    function GetOr(default: T): T
    {
      match this
      case None => default
      case Some(v) => v
    }
  }

  /** `.filter(Boolean)` after a map that yields null for rejected entries: the present values, in order. */
  function Somes<T>(xs: seq<Option<T>>): (r: seq<T>)
    ensures |r| <= |xs|
    decreases |xs|
  {
    if xs == [] then []
    else Somes(xs[..|xs| - 1]) + (if xs[|xs| - 1].Some? then [xs[|xs| - 1].value] else [])
  }

  /** Every kept value comes from an entry, no present entry is lost, and nothing is dropped when all are present. */
  lemma {:induction false} SomesMembers<T>(xs: seq<Option<T>>)
    ensures forall k :: 0 <= k < |Somes(xs)| ==> Some(Somes(xs)[k]) in xs
    ensures forall i :: 0 <= i < |xs| && xs[i].Some? ==> xs[i].value in Somes(xs)
    ensures (forall i :: 0 <= i < |xs| ==> xs[i].Some?) ==> |Somes(xs)| == |xs|
    decreases |xs|
  {
    if xs != [] {
      var front := xs[..|xs| - 1];
      SomesMembers(front);
      forall k | 0 <= k < |Somes(xs)| ensures Some(Somes(xs)[k]) in xs {
        if k < |Somes(front)| {
          assert Somes(xs)[k] == Somes(front)[k];
          var j :| 0 <= j < |front| && front[j] == Some(Somes(front)[k]);
          assert xs[j] == front[j];
        }
      }
      forall i | 0 <= i < |xs| && xs[i].Some? ensures xs[i].value in Somes(xs) {
        if i < |front| {
          assert front[i] == xs[i];
        }
      }
    }
  }

  /** A property every present entry has, every kept value has. */
  lemma {:induction false} SomesAll<T>(xs: seq<Option<T>>, holds: T -> bool)
    requires forall i :: 0 <= i < |xs| && xs[i].Some? ==> holds(xs[i].value)
    ensures forall k :: 0 <= k < |Somes(xs)| ==> holds(Somes(xs)[k])
    decreases |xs|
  {
    if xs != [] {
      var front := xs[..|xs| - 1];
      assert forall i :: 0 <= i < |front| ==> front[i] == xs[i];
      SomesAll(front, holds);
    }
  }
}
