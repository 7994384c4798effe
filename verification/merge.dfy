/**
 * Python's dict spread `{**a, **b, ...}`: the mappings are written one after
 * another into a fresh dict, so on a shared key the last writer wins.
 */
module Merge {

  /** `{**base, **top}`. */
  function Overlay<K(!new), V>(base: map<K, V>, top: map<K, V>): (r: map<K, V>)
    ensures forall k :: k in r <==> k in base || k in top
    ensures forall k :: k in top ==> r[k] == top[k]
    ensures forall k :: k in base && k !in top ==> r[k] == base[k]
  {
    base + top
  }

  /** `{**sources[0], **sources[1], ...}`: each mapping overlaid on the spread of those before it. */
  function Spread<K(!new), V>(sources: seq<map<K, V>>): (r: map<K, V>)
    ensures forall k :: k in r <==> exists i :: 0 <= i < |sources| && k in sources[i]
    decreases |sources|
  {
    if |sources| == 0 then map[]
    else
      var init := sources[..|sources| - 1];
      assert forall i :: 0 <= i < |init| ==> init[i] == sources[i];
      Overlay(Spread(init), sources[|sources| - 1])
  }

  /** Source `i` holds `k` and no later source does. */
  ghost predicate LastWriter<K(!new), V>(sources: seq<map<K, V>>, k: K, i: int)
  {
    && 0 <= i < |sources|
    && k in sources[i]
    && forall j :: i < j < |sources| ==> k !in sources[j]
  }

  /** In a spread, every key carries the value of the last source that writes it. */
  lemma {:induction false} SpreadLastWriter<K(!new), V>(sources: seq<map<K, V>>, k: K, i: int)
    requires LastWriter(sources, k, i)
    ensures k in Spread(sources) && Spread(sources)[k] == sources[i][k]
    decreases |sources|
  {
    var n := |sources|;
    var init := sources[..n - 1];
    assert Spread(sources) == Overlay(Spread(init), sources[n - 1]);
    if i < n - 1 {
      assert k !in sources[n - 1];
      assert LastWriter(init, k, i) by {
        assert forall j :: i <= j < |init| ==> init[j] == sources[j];
      }
      SpreadLastWriter(init, k, i);
    }
  }

  /** `{**a, **b, **c}`: `c` beats `b`, and `b` beats `a`. */
  lemma SpreadOfThree<K(!new), V>(a: map<K, V>, b: map<K, V>, c: map<K, V>)
    ensures Spread([a, b, c]).Keys == a.Keys + b.Keys + c.Keys
    ensures forall k :: k in c ==> Spread([a, b, c])[k] == c[k]
    ensures forall k :: k in b && k !in c ==> Spread([a, b, c])[k] == b[k]
    ensures forall k :: k in a && k !in b && k !in c ==> Spread([a, b, c])[k] == a[k]
  {
    var sources := [a, b, c];
    var r := Spread(sources);
    forall k | k in c
      ensures k in r && r[k] == c[k]
    {
      SpreadLastWriter(sources, k, 2);
    }
    forall k | k in b && k !in c
      ensures k in r && r[k] == b[k]
    {
      SpreadLastWriter(sources, k, 1);
    }
    forall k | k in a && k !in b && k !in c
      ensures k in r && r[k] == a[k]
    {
      SpreadLastWriter(sources, k, 0);
    }
    forall k | k in r
      ensures k in a.Keys + b.Keys + c.Keys
    {
      var i :| 0 <= i < 3 && k in sources[i];
    }
    forall k | k in a.Keys + b.Keys + c.Keys
      ensures k in r
    {
      if k in a { assert k in sources[0]; }
      else if k in b { assert k in sources[1]; }
      else { assert k in sources[2]; }
    }
  }
}
