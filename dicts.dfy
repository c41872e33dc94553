/** Python dictionaries keep insertion order, and the core relies on that order
    (`list(labels.items())[:5]`, the order of notification results). A
    dictionary is therefore modelled as a sequence of key/value pairs whose
    keys are unique; assignment `d[k] = v` replaces in place or appends. */
module Dicts {
  import opened Common

  type Dict<V> = seq<(string, V)>

  ghost predicate KeysUnique<V>(d: Dict<V>) {
    forall i, j :: 0 <= i < j < |d| ==> d[i].0 != d[j].0
  }

  function Keys<V>(d: Dict<V>): (r: seq<string>)
    ensures |r| == |d|
    ensures forall i :: 0 <= i < |d| ==> r[i] == d[i].0
  {
    if d == [] then [] else [d[0].0] + Keys(d[1..])
  }

  function Values<V>(d: Dict<V>): (r: seq<V>)
    ensures |r| == |d|
    ensures forall i :: 0 <= i < |d| ==> r[i] == d[i].1
  {
    if d == [] then [] else [d[0].1] + Values(d[1..])
  }

  /** `d.get(k)` */
  function Get<V>(d: Dict<V>, k: string): (r: Option<V>)
    ensures r.None? <==> k !in Keys(d)
    ensures r.Some? ==> (k, r.value) in d
  {
    if d == [] then None
    else if d[0].0 == k then Some(d[0].1)
    else
      assert Keys(d) == [d[0].0] + Keys(d[1..]);
      Get(d[1..], k)
  }

  /** `d.get(k, default)` */
  function GetOr<V>(d: Dict<V>, k: string, default: V): V {
    match Get(d, k)
    case Some(v) => v
    case None => default
  }

  /** `d[k] = v` */
  function Put<V>(d: Dict<V>, k: string, v: V): (r: Dict<V>)
    ensures k in Keys(d) ==> |r| == |d| && Keys(r) == Keys(d)
    ensures k !in Keys(d) ==> r == d + [(k, v)]
    ensures forall k' :: k' in Keys(r) <==> k' == k || k' in Keys(d)
  {
    if d == [] then [(k, v)]
    else if d[0].0 == k then
      var r := [(k, v)] + d[1..];
      assert Keys(d) == [k] + Keys(d[1..]);
      assert Keys(r) == [k] + Keys(d[1..]);
      r
    else
      assert Keys(d) == [d[0].0] + Keys(d[1..]);
      var r := [d[0]] + Put(d[1..], k, v);
      assert Keys(r) == [d[0].0] + Keys(Put(d[1..], k, v));
      r
  }

  /** `d.update(e)`: the pairs of `e` are assigned in order. */
  function Update<V>(d: Dict<V>, e: Dict<V>): Dict<V>
    decreases |e|
  {
    if e == [] then d else Update(Put(d, e[0].0, e[0].1), e[1..])
  }

  /** A dictionary display or comprehension whose later keys overwrite earlier ones. */
  function FromPairs<V>(pairs: seq<(string, V)>): Dict<V> {
    Update([], pairs)
  }

  lemma {:induction false} GetPut<V>(d: Dict<V>, k: string, v: V, k': string)
    ensures Get(Put(d, k, v), k') == if k' == k then Some(v) else Get(d, k')
  {
    if d != [] && d[0].0 != k {
      GetPut(d[1..], k, v, k');
    }
  }

  lemma {:induction false} PutKeepsKeysUnique<V>(d: Dict<V>, k: string, v: V)
    requires KeysUnique(d)
    ensures KeysUnique(Put(d, k, v))
  {
    var r := Put(d, k, v);
    forall i, j | 0 <= i < j < |r| ensures r[i].0 != r[j].0 {
      assert Keys(r)[i] == r[i].0 && Keys(r)[j] == r[j].0;
      if k in Keys(d) {
        assert Keys(d)[i] == d[i].0 && Keys(d)[j] == d[j].0;
      } else if j < |d| {
        assert r[i] == d[i] && r[j] == d[j];
      } else {
        assert r[i] == d[i] && Keys(d)[i] == d[i].0;
      }
    }
  }

  lemma {:induction false} UpdateKeepsKeysUnique<V>(d: Dict<V>, e: Dict<V>)
    requires KeysUnique(d)
    ensures KeysUnique(Update(d, e))
    decreases |e|
  {
    if e != [] {
      PutKeepsKeysUnique(d, e[0].0, e[0].1);
      UpdateKeepsKeysUnique(Put(d, e[0].0, e[0].1), e[1..]);
    }
  }

  /** After `d.update(e)` a key of `e` maps to its value in `e`, any other key to its old value. */
  lemma {:induction false} GetUpdate<V>(d: Dict<V>, e: Dict<V>, k: string)
    requires KeysUnique(e)
    ensures Get(Update(d, e), k) == if k in Keys(e) then Get(e, k) else Get(d, k)
    decreases |e|
  {
    if e != [] {
      var d' := Put(d, e[0].0, e[0].1);
      assert KeysUnique(e[1..]) by {
        forall i, j | 0 <= i < j < |e[1..]| ensures e[1..][i].0 != e[1..][j].0 {
          assert e[1..][i] == e[i + 1] && e[1..][j] == e[j + 1];
        }
      }
      GetUpdate(d', e[1..], k);
      GetPut(d, e[0].0, e[0].1, k);
      assert Keys(e) == [e[0].0] + Keys(e[1..]);
      if k == e[0].0 {
        assert k !in Keys(e[1..]) by {
          forall i | 0 <= i < |e[1..]| ensures Keys(e[1..])[i] != k {
            assert e[1..][i] == e[i + 1];
          }
        }
      }
    }
  }

  /** Updating with one more pair is one more assignment, so `d.update(e)`
      can be performed by a loop over `e`. */
  lemma {:induction false} UpdateSnoc<V>(d: Dict<V>, e: Dict<V>, k: string, v: V)
    ensures Update(d, e + [(k, v)]) == Put(Update(d, e), k, v)
    decreases |e|
  {
    if e == [] {
      assert Update(Put(d, k, v), []) == Put(d, k, v);
      assert e + [(k, v)] == [(k, v)];
    } else {
      assert (e + [(k, v)])[1..] == e[1..] + [(k, v)];
      UpdateSnoc(Put(d, e[0].0, e[0].1), e[1..], k, v);
    }
  }

  /** A key that `e` does not mention keeps its value. */
  lemma {:induction false} GetUpdateAbsent<V>(d: Dict<V>, e: Dict<V>, k: string)
    requires k !in Keys(e)
    ensures Get(Update(d, e), k) == Get(d, k)
    decreases |e|
  {
    if e != [] {
      assert Keys(e) == [e[0].0] + Keys(e[1..]);
      GetPut(d, e[0].0, e[0].1, k);
      GetUpdateAbsent(Put(d, e[0].0, e[0].1), e[1..], k);
    }
  }

  /** A key takes the value of its last pair in `e`, even when `e` repeats
      keys. */
  lemma {:induction false} GetUpdateLast<V>(d: Dict<V>, e: Dict<V>, i: nat)
    requires i < |e|
    requires forall j :: i < j < |e| ==> e[j].0 != e[i].0
    ensures Get(Update(d, e), e[i].0) == Some(e[i].1)
    decreases |e|
  {
    var d' := Put(d, e[0].0, e[0].1);
    if i == 0 {
      assert e[i].0 !in Keys(e[1..]) by {
        forall j | 0 <= j < |e[1..]| ensures Keys(e[1..])[j] != e[0].0 {
          assert e[1..][j] == e[j + 1];
        }
      }
      GetUpdateAbsent(d', e[1..], e[0].0);
      GetPut(d, e[0].0, e[0].1, e[0].0);
    } else {
      assert e[1..][i - 1] == e[i];
      assert forall j :: i - 1 < j < |e[1..]| ==> e[1..][j] == e[j + 1];
      GetUpdateLast(d', e[1..], i - 1);
    }
  }

  /** Every key of the updated dictionary comes from one of the two operands. */
  lemma {:induction false} KeysUpdate<V>(d: Dict<V>, e: Dict<V>, k: string)
    ensures k in Keys(Update(d, e)) <==> k in Keys(d) || k in Keys(e)
    decreases |e|
  {
    if e != [] {
      var d' := Put(d, e[0].0, e[0].1);
      KeysUpdate(d', e[1..], k);
      assert Keys(e) == [e[0].0] + Keys(e[1..]);
    }
  }

  /** `any(d.values())` */
  predicate AnyTrue(d: Dict<bool>) {
    exists i :: 0 <= i < |d| && d[i].1
  }

  /** `sum(1 for v in d.values() if v)` */
  function CountTrue(d: Dict<bool>): (n: nat)
    ensures n <= |d|
    ensures n > 0 <==> AnyTrue(d)
  {
    if d == [] then 0
    else
      var rest := CountTrue(d[1..]);
      assert AnyTrue(d) <==> d[0].1 || AnyTrue(d[1..]) by {
        if AnyTrue(d[1..]) {
          var i :| 0 <= i < |d[1..]| && d[1..][i].1;
          assert d[i + 1].1;
        }
        if AnyTrue(d) && !d[0].1 {
          var i :| 0 <= i < |d| && d[i].1;
          assert d[1..][i - 1].1;
        }
      }
      (if d[0].1 then 1 else 0) + rest
  }

  /** Python's `repr` of a `dict[str, bool]`, as an f-string prints it. */
  function BoolDictRepr(d: Dict<bool>): string {
    "{" + Join(", ", seq(|d|, i requires 0 <= i < |d| => "'" + d[i].0 + "': " + (if d[i].1 then "True" else "False"))) + "}"
  }
}
