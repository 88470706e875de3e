/** The shared shape of the source's record-style enumerations: a closed set of
    values, each with an integer code, looked up by `All.FirstOrDefault`. */
module Enumerations {
  import opened Options

  /** `all.FirstOrDefault(x => code(x) == v)`: the first value with code `v`.
      The engine registry uses the same search keyed by engine id. */
  function FirstWithValue<T, K(==)>(all: seq<T>, code: T -> K, v: K): (r: Option<T>)
    ensures r.Some? <==> exists i :: 0 <= i < |all| && code(all[i]) == v
    ensures r.Some? ==> code(r.value) == v
    ensures r.Some? ==> exists i :: 0 <= i < |all| && all[i] == r.value
                                 && forall j :: 0 <= j < i ==> code(all[j]) != v
    decreases |all|
  {
    if |all| == 0 then None
    else if code(all[0]) == v then Some(all[0])
    else
      var rest := FirstWithValue(all[1..], code, v);
      assert forall i :: 1 <= i < |all| ==> all[i] == all[1..][i - 1];
      rest
  }
}
