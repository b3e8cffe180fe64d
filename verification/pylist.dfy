/** Python list indexing, which the machine uses for both its memory and its
    register file: an index `i` into a list of length `n` is accepted when
    `-n <= i < n`, a negative index counts from the end, and anything else
    raises `IndexError` (modelled here as `None`). */
module PyList {
  import opened Results

  predicate InRange(n: nat, i: int) {
    -(n as int) <= i < n
  }

  /** The position Python actually touches for index `i`. */
  function Slot(n: nat, i: int): (k: nat)
    requires InRange(n, i)
    ensures k < n
    ensures k == i || k == i + n
  {
    if i < 0 then i + n else i
  }

  /** `xs[i]` */
  function Get<T>(xs: seq<T>, i: int): (r: Option<T>)
    ensures r.Some? <==> InRange(|xs|, i)
    ensures r.Some? ==> r.value == xs[Slot(|xs|, i)]
  {
    if InRange(|xs|, i) then Some(xs[Slot(|xs|, i)]) else None
  }

  /** `xs[i] = v`: the list keeps its length and only the addressed cell changes. */
  function Set<T>(xs: seq<T>, i: int, v: T): (r: Option<seq<T>>)
    ensures r.Some? <==> InRange(|xs|, i)
    ensures r.Some? ==> |r.value| == |xs|
    ensures r.Some? ==> r.value[Slot(|xs|, i)] == v
    ensures r.Some? ==> forall k :: 0 <= k < |xs| && k != Slot(|xs|, i) ==> r.value[k] == xs[k]
  {
    if InRange(|xs|, i) then Some(xs[Slot(|xs|, i) := v]) else None
  }

  /** Reading back an index just written yields the written value. */
  lemma GetAfterSet<T>(xs: seq<T>, i: int, v: T)
    requires InRange(|xs|, i)
    ensures Get(Set(xs, i, v).value, i) == Some(v)
  {
  }

  /** Writing a cell back with the value it already holds leaves the list as it was. */
  lemma SetOwnValue<T>(xs: seq<T>, i: int)
    requires InRange(|xs|, i)
    ensures Set(xs, i, Get(xs, i).value) == Some(xs)
  {
    var k := Slot(|xs|, i);
    assert xs[k := xs[k]] == xs;
  }
}
