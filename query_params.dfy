/** The query component of a URL as the browser's URLSearchParams holds it:
    an ordered list of name/value pairs in which a name may repeat. `get`
    returns the value of the first pair with the name; `set` follows the URL
    Standard (WHATWG, section 5.2, the set(name, value) method): when the name
    is present, the first such pair takes the new value and every later pair
    with that name is removed; otherwise the pair is appended. */
module QueryParams {
  import opened Common

  type Params = seq<(string, string)>

  /** The current location as react-router exposes it: the path and the
      already-parsed query string. */
  datatype Location = Location(pathname: string, search: Params)

  /** A navigation target: a path, and the query string written after a `?`
      (None when the target has no `?` at all). */
  datatype Destination = Destination(path: string, query: Option<Params>)

  predicate HasKey(q: Params, k: string) {
    exists i :: 0 <= i < |q| && q[i].0 == k
  }

  /** URLSearchParams.get: the value of the first pair named `k`, or null. */
  function GetParam(q: Params, k: string): (r: Option<string>)
    ensures r.None? <==> !HasKey(q, k)
    ensures r.Some? ==> exists i :: 0 <= i < |q| && q[i] == (k, r.value) &&
                                   forall j :: 0 <= j < i ==> q[j].0 != k
  {
    if q == [] then None
    else if q[0].0 == k then
      assert q[0] == (k, q[0].1);
      Some(q[0].1)
    else
      var r := GetParam(q[1..], k);
      assert HasKey(q[1..], k) ==> HasKey(q, k) by {
        if i :| 0 <= i < |q[1..]| && q[1..][i].0 == k { assert q[i + 1].0 == k; }
      }
      assert r.Some? ==> exists i :: 0 <= i < |q| && q[i] == (k, r.value) &&
                                     forall j :: 0 <= j < i ==> q[j].0 != k by {
        if r.Some? {
          var i :| 0 <= i < |q[1..]| && q[1..][i] == (k, r.value) &&
                   forall j :: 0 <= j < i ==> q[1..][j].0 != k;
          assert q[i + 1] == (k, r.value);
          assert forall j :: 0 <= j < i + 1 ==> q[j].0 != k by {
            forall j | 0 <= j < i + 1 ensures q[j].0 != k {
              if j > 0 { assert q[j] == q[1..][j - 1]; }
            }
          }
        }
      }
      r
  }

  /** The pairs whose name is not `k`, in their original order. */
  function WithoutKey(q: Params, k: string): (r: Params)
    ensures !HasKey(r, k)
    ensures |r| <= |q|
  {
    if q == [] then []
    else if q[0].0 == k then WithoutKey(q[1..], k)
    else [q[0]] + WithoutKey(q[1..], k)
  }

  /** The first pair named `k` takes the value `v`; later pairs named `k` go. */
  function ReplaceFirst(q: Params, k: string, v: string): Params
    requires HasKey(q, k)
  {
    if q[0].0 == k then [(k, v)] + WithoutKey(q[1..], k)
    else
      assert HasKey(q[1..], k) by {
        var i :| 0 <= i < |q| && q[i].0 == k;
        assert q[1..][i - 1].0 == k;
      }
      [q[0]] + ReplaceFirst(q[1..], k, v)
  }

  /** URLSearchParams.set(k, v). */
  function SetParam(q: Params, k: string, v: string): Params {
    if HasKey(q, k) then ReplaceFirst(q, k, v) else q + [(k, v)]
  }

  /** Number of pairs named `k`. */
  function CountKey(q: Params, k: string): nat {
    if q == [] then 0 else (if q[0].0 == k then 1 else 0) + CountKey(q[1..], k)
  }

  // ---------------------------------------------------------------------------
  // Small facts about the helpers

  lemma HasKeyCons(q: Params, k: string)
    requires q != []
    ensures HasKey(q, k) <==> q[0].0 == k || HasKey(q[1..], k)
  {
    if HasKey(q, k) && q[0].0 != k {
      var i :| 0 <= i < |q| && q[i].0 == k;
      assert q[1..][i - 1].0 == k;
    }
    if HasKey(q[1..], k) {
      var i :| 0 <= i < |q[1..]| && q[1..][i].0 == k;
      assert q[i + 1].0 == k;
    }
  }

  lemma {:induction false} WithoutKeyAbsent(q: Params, k: string)
    requires !HasKey(q, k)
    ensures WithoutKey(q, k) == q
  {
    if q != [] {
      HasKeyCons(q, k);
      WithoutKeyAbsent(q[1..], k);
    }
  }

  lemma {:induction false} WithoutKeyAppend(a: Params, b: Params, k: string)
    ensures WithoutKey(a + b, k) == WithoutKey(a, k) + WithoutKey(b, k)
  {
    if a != [] {
      assert (a + b)[1..] == a[1..] + b;
      WithoutKeyAppend(a[1..], b, k);
    } else {
      assert a + b == b;
    }
  }

  lemma {:induction false} GetWithoutOther(q: Params, k: string, other: string)
    requires other != k
    ensures GetParam(WithoutKey(q, k), other) == GetParam(q, other)
  {
    if q != [] {
      GetWithoutOther(q[1..], k, other);
    }
  }

  lemma {:induction false} CountWithout(q: Params, k: string)
    ensures CountKey(WithoutKey(q, k), k) == 0
  {
    if q != [] {
      CountWithout(q[1..], k);
    }
  }

  lemma {:induction false} GetAppendAbsent(q: Params, k: string, v: string)
    requires !HasKey(q, k)
    ensures GetParam(q + [(k, v)], k) == Some(v)
  {
    if q == [] {
      assert [(k, v)][0].0 == k;
    } else {
      HasKeyCons(q, k);
      assert (q + [(k, v)])[1..] == q[1..] + [(k, v)];
      GetAppendAbsent(q[1..], k, v);
    }
  }

  lemma {:induction false} GetAppendOther(q: Params, k: string, v: string, other: string)
    requires other != k
    ensures GetParam(q + [(k, v)], other) == GetParam(q, other)
  {
    if q == [] {
      assert [(k, v)][1..] == [];
    } else {
      assert (q + [(k, v)])[1..] == q[1..] + [(k, v)];
      GetAppendOther(q[1..], k, v, other);
    }
  }

  lemma {:induction false} CountAppendAbsent(q: Params, k: string, v: string)
    requires !HasKey(q, k)
    ensures CountKey(q + [(k, v)], k) == 1
  {
    if q == [] {
      assert [(k, v)][1..] == [];
    } else {
      HasKeyCons(q, k);
      assert (q + [(k, v)])[1..] == q[1..] + [(k, v)];
      CountAppendAbsent(q[1..], k, v);
    }
  }

  // ---------------------------------------------------------------------------
  // What set() promises

  /** After set(k, v), get(k) yields v. */
  lemma {:induction false} GetAfterSet(q: Params, k: string, v: string)
    ensures GetParam(SetParam(q, k, v), k) == Some(v)
  {
    if HasKey(q, k) {
      ReplaceFirstFacts(q, k, v);
    } else {
      GetAppendAbsent(q, k, v);
    }
  }

  /** set(k, v) leaves exactly one pair named k. */
  lemma {:induction false} SetLeavesOnePair(q: Params, k: string, v: string)
    ensures CountKey(SetParam(q, k, v), k) == 1
  {
    if HasKey(q, k) {
      ReplaceFirstFacts(q, k, v);
    } else {
      CountAppendAbsent(q, k, v);
    }
  }

  /** set(k, v) does not change what get returns for any other name. */
  lemma {:induction false} SetKeepsOtherKeys(q: Params, k: string, v: string, other: string)
    requires other != k
    ensures GetParam(SetParam(q, k, v), other) == GetParam(q, other)
  {
    if HasKey(q, k) {
      ReplaceFirstFacts(q, k, v);
      ReplaceFirstOther(q, k, v, other);
    } else {
      GetAppendOther(q, k, v, other);
    }
  }

  /** The pairs with other names survive set(k, v) unchanged and in order. */
  lemma {:induction false} SetKeepsOtherPairs(q: Params, k: string, v: string)
    ensures WithoutKey(SetParam(q, k, v), k) == WithoutKey(q, k)
  {
    if HasKey(q, k) {
      ReplaceFirstFacts(q, k, v);
    } else {
      WithoutKeyAppend(q, [(k, v)], k);
      assert WithoutKey([(k, v)], k) == WithoutKey([(k, v)][1..], k);
    }
  }

  /** Setting the same pair twice is the same as setting it once. */
  lemma {:induction false} SetIdempotent(q: Params, k: string, v: string)
    ensures SetParam(SetParam(q, k, v), k, v) == SetParam(q, k, v)
  {
    var once := SetParam(q, k, v);
    GetAfterSet(q, k, v);
    assert HasKey(once, k);
    if HasKey(q, k) {
      ReplaceFirstIdempotent(q, k, v);
    } else {
      ReplaceFirstAppended(q, k, v);
    }
  }

  /** An existing first pair is overwritten in place: everything before it is
      untouched, and after it only the other names remain. */
  lemma {:induction false} SetReplacesInPlace(q: Params, k: string, v: string, i: nat)
    requires i < |q| && q[i].0 == k && forall j :: 0 <= j < i ==> q[j].0 != k
    ensures SetParam(q, k, v) == q[..i] + [(k, v)] + WithoutKey(q[i + 1..], k)
  {
    assert HasKey(q, k);
    ReplaceFirstAt(q, k, v, i);
  }

  // ---------------------------------------------------------------------------
  // Proofs about ReplaceFirst

  lemma {:induction false} ReplaceFirstFacts(q: Params, k: string, v: string)
    requires HasKey(q, k)
    ensures GetParam(ReplaceFirst(q, k, v), k) == Some(v)
    ensures CountKey(ReplaceFirst(q, k, v), k) == 1
    ensures WithoutKey(ReplaceFirst(q, k, v), k) == WithoutKey(q, k)
  {
    var r := ReplaceFirst(q, k, v);
    if q[0].0 == k {
      var rest := WithoutKey(q[1..], k);
      assert r == [(k, v)] + rest && r[1..] == rest;
      CountWithout(q[1..], k);
      WithoutKeyAbsent(rest, k);
    } else {
      HasKeyCons(q, k);
      ReplaceFirstFacts(q[1..], k, v);
      assert r[1..] == ReplaceFirst(q[1..], k, v);
    }
  }

  lemma {:induction false} ReplaceFirstOther(q: Params, k: string, v: string, other: string)
    requires HasKey(q, k) && other != k
    ensures GetParam(ReplaceFirst(q, k, v), other) == GetParam(q, other)
  {
    var r := ReplaceFirst(q, k, v);
    if q[0].0 == k {
      assert r[1..] == WithoutKey(q[1..], k);
      GetWithoutOther(q[1..], k, other);
    } else {
      HasKeyCons(q, k);
      ReplaceFirstOther(q[1..], k, v, other);
      assert r[1..] == ReplaceFirst(q[1..], k, v);
    }
  }

  lemma {:induction false} ReplaceFirstIdempotent(q: Params, k: string, v: string)
    requires HasKey(q, k)
    ensures HasKey(ReplaceFirst(q, k, v), k)
    ensures ReplaceFirst(ReplaceFirst(q, k, v), k, v) == ReplaceFirst(q, k, v)
  {
    var r := ReplaceFirst(q, k, v);
    if q[0].0 == k {
      var rest := WithoutKey(q[1..], k);
      assert r == [(k, v)] + rest && r[0].0 == k && r[1..] == rest;
      WithoutKeyAbsent(rest, k);
    } else {
      HasKeyCons(q, k);
      ReplaceFirstIdempotent(q[1..], k, v);
      assert r[0] == q[0] && r[1..] == ReplaceFirst(q[1..], k, v);
      HasKeyCons(r, k);
    }
  }

  lemma {:induction false} ReplaceFirstAppended(q: Params, k: string, v: string)
    requires !HasKey(q, k)
    ensures HasKey(q + [(k, v)], k)
    ensures ReplaceFirst(q + [(k, v)], k, v) == q + [(k, v)]
  {
    var r := q + [(k, v)];
    assert r[|q|].0 == k;
    if q == [] {
      assert r == [(k, v)] && r[1..] == [];
    } else {
      HasKeyCons(q, k);
      ReplaceFirstAppended(q[1..], k, v);
      assert r[1..] == q[1..] + [(k, v)];
    }
  }

  lemma {:induction false} ReplaceFirstAt(q: Params, k: string, v: string, i: nat)
    requires i < |q| && q[i].0 == k && forall j :: 0 <= j < i ==> q[j].0 != k
    requires HasKey(q, k)
    ensures ReplaceFirst(q, k, v) == q[..i] + [(k, v)] + WithoutKey(q[i + 1..], k)
  {
    if i > 0 {
      assert q[1..][i - 1].0 == k;
      ReplaceFirstAt(q[1..], k, v, i - 1);
      assert q[1..][i..] == q[i + 1..];
      assert q[..i] == [q[0]] + q[1..][..i - 1];
    }
  }

  /** The browser object: a mutable list of pairs. */
  class SearchParams {
    var pairs: Params

    /** `new URLSearchParams(init)`. */
    constructor (init: Params)
      ensures pairs == init
    {
      pairs := init;
    }

    function Get(name: string): (r: Option<string>)
      reads this
      ensures r.None? <==> !HasKey(pairs, name)
    {
      GetParam(pairs, name)
    }

    method Set(name: string, value: string)
      modifies this
      ensures pairs == SetParam(old(pairs), name, value)
      ensures Get(name) == Some(value)
      ensures forall other :: other != name ==> Get(other) == old(Get(other))
    {
      GetAfterSet(pairs, name, value);
      forall other | other != name
        ensures GetParam(SetParam(pairs, name, value), other) == GetParam(pairs, other)
      {
        SetKeepsOtherKeys(pairs, name, value, other);
      }
      pairs := SetParam(pairs, name, value);
    }
  }
}
