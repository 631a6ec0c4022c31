/** ORDER BY ... LIMIT: the rows with the smallest keys. A row without a key does not match. */
module Selection {
  import opened Model

  // The matching row not yet taken with the smallest key, among the first n.
  function Smallest(keys: seq<Option<Time>>, taken: seq<nat>, n: nat): (r: Option<nat>)
    requires n <= |keys|
    ensures r.Some? ==> r.value < n && keys[r.value].Some? && r.value !in taken
    ensures forall j :: 0 <= j < n && keys[j].Some? && j !in taken ==> r.Some? && keys[r.value].value <= keys[j].value
  {
    if n == 0 then None
    else
      var best := Smallest(keys, taken, n - 1);
      if keys[n - 1].None? || n - 1 in taken then best
      else if best.Some? && keys[best.value].value <= keys[n - 1].value then best
      else Some(n - 1)
  }

  ghost predicate Ordered(keys: seq<Option<Time>>, ids: seq<nat>) {
    (forall k :: 0 <= k < |ids| ==> ids[k] < |keys| && keys[ids[k]].Some?) &&
    (forall j, k :: 0 <= j < k < |ids| ==> ids[j] != ids[k] && keys[ids[j]].value <= keys[ids[k]].value)
  }

  // Every matching row left out is no earlier than any row taken.
  ghost predicate Least(keys: seq<Option<Time>>, ids: seq<nat>)
    requires Ordered(keys, ids)
  {
    forall i, k :: 0 <= i < |keys| && keys[i].Some? && i !in ids && 0 <= k < |ids| ==> keys[ids[k]].value <= keys[i].value
  }

  // The first `limit` matching rows in key order.
  function TakeEarliest(keys: seq<Option<Time>>, limit: nat): (ids: seq<nat>)
    ensures Ordered(keys, ids) && Least(keys, ids) && |ids| <= limit
    ensures |ids| < limit ==> forall i :: 0 <= i < |keys| && keys[i].Some? ==> i in ids
  {
    if limit == 0 then []
    else
      var ids := TakeEarliest(keys, limit - 1);
      var next := Smallest(keys, ids, |keys|);
      if next.None? then ids else ids + [next.value]
  }
}
