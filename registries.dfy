/** What the resource managers share: the walk over every entry of a
    name-keyed map that their destructors perform. */
module Registries {

  predicate Distinct(names: seq<string>) {
    forall i, j :: 0 <= i < j < |names| ==> names[i] != names[j]
  }

  /** Visits every entry of `m` exactly once, as a destructor's loop over the
      map does: `values[i]` is the entry stored under `order[i]`. */
  method EachEntryOnce<V>(m: map<string, V>) returns (order: seq<string>, values: seq<V>)
    ensures |order| == |m.Keys| == |values| && Distinct(order)
    ensures forall name :: name in m <==> name in order
    ensures forall i :: 0 <= i < |order| ==> order[i] in m && values[i] == m[order[i]]
  {
    order, values := [], [];
    var remaining := m.Keys;
    while remaining != {}
      invariant remaining <= m.Keys
      invariant forall name :: name in m ==> (name in remaining <==> name !in order)
      invariant |order| == |values| && forall k :: 0 <= k < |order| ==> order[k] in m && values[k] == m[order[k]]
      invariant Distinct(order)
      invariant |order| + |remaining| == |m.Keys|
      decreases |remaining|
    {
      var name :| name in remaining;
      order, values := order + [name], values + [m[name]];
      remaining := remaining - {name};
    }
  }
}
