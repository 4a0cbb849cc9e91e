/** The id-keyed lookup dictionaries the join routes build before their main
    counting pass (`{c["id"]: c["name"] for c in companies}` and the like),
    and the `.get(key, default)` reads made on them. */
module Lookup {
  import opened Rows

  /** A dict comprehension over (id, value) pairs: every id becomes a key, and
      when an id repeats, the value of its last row wins. */
  function Index<V>(pairs: seq<(int, V)>): (m: map<int, V>)
    ensures forall k :: k in m <==> exists i :: 0 <= i < |pairs| && pairs[i].0 == k
    ensures forall i :: 0 <= i < |pairs| && (forall j :: i < j < |pairs| ==> pairs[j].0 != pairs[i].0) ==>
              pairs[i].0 in m && m[pairs[i].0] == pairs[i].1
  {
    if |pairs| == 0 then map[]
    else
      var p, last := pairs[..|pairs| - 1], pairs[|pairs| - 1];
      var m := Index(p)[last.0 := last.1];
      assert forall i :: 0 <= i < |p| ==> p[i] == pairs[i];
      m
  }

  /** `m.get(k, default)` for a key read from a row, which may be null; null
      is never a key, since ids are never null. */
  function Get<V>(m: map<int, V>, k: Option<int>, default: V): V
  {
    if k.Some? && k.value in m then m[k.value] else default
  }
}
