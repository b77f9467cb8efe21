/** Plain JavaScript objects as ordered association lists.
    A JS object iterates its (non-numeric) keys in insertion order; assigning an
    existing key replaces its value in place, assigning a new key appends it.
    `Set` is that assignment, `SetAll` is `Object.assign` and, from an empty
    object, `Object.fromEntries`. */
module Dicts {

  datatype Option<+T> = None | Some(value: T)

  type Dict<V> = seq<(string, V)>

  function Keys<V>(d: Dict<V>): (ks: seq<string>)
    ensures |ks| == |d|
    ensures forall i :: 0 <= i < |d| ==> ks[i] == d[i].0
  {
    seq(|d|, i requires 0 <= i < |d| => d[i].0)
  }

  predicate HasKey<V>(d: Dict<V>, k: string)
  {
    exists i :: 0 <= i < |d| && d[i].0 == k
  }

  /** No key occurs twice: every object built by `Set` has this shape. */
  predicate UniqueKeys<V>(d: Dict<V>)
  {
    forall i, j :: 0 <= i < j < |d| ==> d[i].0 != d[j].0
  }

  /** `d[k]`, with `None` standing for an absent key. */
  function Get<V>(d: Dict<V>, k: string): (r: Option<V>)
    ensures r.Some? <==> HasKey(d, k)
  {
    if d == [] then None
    else if d[0].0 == k then Some(d[0].1)
    else assert forall i :: 1 <= i < |d| ==> d[1..][i - 1] == d[i]; Get(d[1..], k)
  }

  /** `d[k]`, with a fallback for an absent key. */
  function GetOr<V>(d: Dict<V>, k: string, fallback: V): V
  {
    match Get(d, k)
    case Some(v) => v
    case None => fallback
  }

  /** `d[k] = v`. */
  function Set<V>(d: Dict<V>, k: string, v: V): (r: Dict<V>)
    ensures |r| == if HasKey(d, k) then |d| else |d| + 1
  {
    if d == [] then [(k, v)]
    else if d[0].0 == k then [(k, v)] + d[1..]
    else
      assert HasKey(d, k) <==> HasKey(d[1..], k) by {
        if HasKey(d, k) { var i :| 0 <= i < |d| && d[i].0 == k; assert d[1..][i - 1] == d[i]; }
        if HasKey(d[1..], k) { var i :| 0 <= i < |d| - 1 && d[1..][i].0 == k; assert d[i + 1] == d[1..][i]; }
      }
      [d[0]] + Set(d[1..], k, v)
  }

  /** `Object.assign(target, entries)`: each entry assigned in turn. */
  function SetAll<V>(target: Dict<V>, entries: seq<(string, V)>): Dict<V>
    decreases |entries|
  {
    if entries == [] then target
    else SetAll(Set(target, entries[0].0, entries[0].1), entries[1..])
  }

  /** `Object.fromEntries(entries)`. */
  function FromEntries<V>(entries: seq<(string, V)>): Dict<V>
  {
    SetAll([], entries)
  }

  /** The value of the last entry with key `k`, if any. */
  function LastValue<V>(entries: seq<(string, V)>, k: string): Option<V>
    decreases |entries|
  {
    if entries == [] then None
    else
      match LastValue(entries[1..], k)
      case Some(v) => Some(v)
      case None => if entries[0].0 == k then Some(entries[0].1) else None
  }

  lemma {:induction false} GetSet<V>(d: Dict<V>, k: string, v: V, j: string)
    ensures Get(Set(d, k, v), j) == if j == k then Some(v) else Get(d, j)
    decreases |d|
  {
    if d != [] && d[0].0 != k {
      GetSet(d[1..], k, v, j);
    }
  }

  lemma {:induction false} KeysSet<V>(d: Dict<V>, k: string, v: V)
    ensures Keys(Set(d, k, v)) == if HasKey(d, k) then Keys(d) else Keys(d) + [k]
    decreases |d|
  {
    if d != [] && d[0].0 != k {
      KeysSet(d[1..], k, v);
      HasKeyTail(d, k);
      KeysCons(d);
      KeysCons(Set(d, k, v));
      assert Set(d, k, v)[1..] == Set(d[1..], k, v);
    } else if d != [] {
      assert HasKey(d, k) by { assert d[0].0 == k; }
    }
  }

  lemma HasKeyTail<V>(d: Dict<V>, k: string)
    requires d != []
    ensures HasKey(d, k) <==> d[0].0 == k || HasKey(d[1..], k)
  {
    if HasKey(d, k) && d[0].0 != k { var i :| 0 <= i < |d| && d[i].0 == k; assert d[1..][i - 1] == d[i]; }
    if HasKey(d[1..], k) { var i :| 0 <= i < |d| - 1 && d[1..][i].0 == k; assert d[i + 1] == d[1..][i]; }
  }

  lemma KeysCons<V>(d: Dict<V>)
    requires d != []
    ensures Keys(d) == [d[0].0] + Keys(d[1..])
  {
  }

  lemma HasKeyIsInKeys<V>(d: Dict<V>, k: string)
    ensures HasKey(d, k) <==> k in Keys(d)
  {
    if k in Keys(d) {
      var i :| 0 <= i < |d| && Keys(d)[i] == k;
    }
  }

  lemma {:induction false} SetKeepsUnique<V>(d: Dict<V>, k: string, v: V)
    requires UniqueKeys(d)
    ensures UniqueKeys(Set(d, k, v))
  {
    var r := Set(d, k, v);
    KeysSet(d, k, v);
    HasKeyIsInKeys(d, k);
    forall i, j | 0 <= i < j < |r| ensures r[i].0 != r[j].0 {
      assert Keys(r)[i] == r[i].0 && Keys(r)[j] == r[j].0;
      if j < |d| {
        assert Keys(d)[i] == d[i].0 && Keys(d)[j] == d[j].0;
      } else {
        assert Keys(r)[j] == k && i < |d| && Keys(d)[i] == d[i].0;
      }
    }
  }

  /** Setting a key that is not present appends it at the end. */
  lemma {:induction false} SetFresh<V>(d: Dict<V>, k: string, v: V)
    requires !HasKey(d, k)
    ensures Set(d, k, v) == d + [(k, v)]
    decreases |d|
  {
    if d != [] {
      assert d[0].0 != k;
      assert forall i :: 0 <= i < |d[1..]| ==> d[1..][i] == d[i + 1];
      SetFresh(d[1..], k, v);
      assert [d[0]] + (d[1..] + [(k, v)]) == d + [(k, v)];
    }
  }

  /** After `Object.assign`, a key holds the last value the entries gave it,
      or its old value when no entry names it. */
  lemma {:induction false} GetSetAll<V>(target: Dict<V>, entries: seq<(string, V)>, k: string)
    ensures Get(SetAll(target, entries), k) ==
            match LastValue(entries, k)
            case Some(v) => Some(v)
            case None => Get(target, k)
    decreases |entries|
  {
    if entries != [] {
      GetSetAll(Set(target, entries[0].0, entries[0].1), entries[1..], k);
      GetSet(target, entries[0].0, entries[0].1, k);
    }
  }

  /** The last entry with a key is the one `LastValue` reports. */
  lemma {:induction false} LastValueAt<V>(entries: seq<(string, V)>, i: nat)
    requires i < |entries|
    requires forall j :: i < j < |entries| ==> entries[j].0 != entries[i].0
    ensures LastValue(entries, entries[i].0) == Some(entries[i].1)
    decreases i
  {
    var k := entries[i].0;
    if i == 0 {
      LastValueAbsent(entries[1..], k);
    } else {
      LastValueAt(entries[1..], i - 1);
    }
  }

  lemma {:induction false} LastValueAbsent<V>(entries: seq<(string, V)>, k: string)
    requires forall j :: 0 <= j < |entries| ==> entries[j].0 != k
    ensures LastValue(entries, k) == None
    decreases |entries|
  {
    if entries != [] {
      LastValueAbsent(entries[1..], k);
    }
  }

  /** Building an object from entries whose keys are distinct gives back
      exactly those entries, in that order. */
  lemma {:induction false} SetAllFresh<V>(target: Dict<V>, entries: seq<(string, V)>)
    requires UniqueKeys(entries)
    requires forall i :: 0 <= i < |entries| ==> !HasKey(target, entries[i].0)
    ensures SetAll(target, entries) == target + entries
    decreases |entries|
  {
    if entries != [] {
      var e := entries[0];
      SetFresh(target, e.0, e.1);
      var t' := target + [e];
      assert forall j :: 0 <= j < |t'| ==> t'[j] == if j < |target| then target[j] else e;
      forall i | 0 <= i < |entries[1..]| ensures !HasKey(t', entries[1..][i].0) {
        assert entries[1..][i] == entries[i + 1];
        assert !HasKey(target, entries[i + 1].0) && e.0 != entries[i + 1].0;
      }
      assert UniqueKeys(entries[1..]) by {
        forall a, b | 0 <= a < b < |entries[1..]| ensures entries[1..][a].0 != entries[1..][b].0 {
          assert entries[1..][a] == entries[a + 1] && entries[1..][b] == entries[b + 1];
        }
      }
      SetAllFresh(t', entries[1..]);
      assert t' + entries[1..] == target + entries;
    }
  }

  lemma FromEntriesUnique<V>(entries: seq<(string, V)>)
    requires UniqueKeys(entries)
    ensures FromEntries(entries) == entries
  {
    SetAllFresh([], entries);
  }

  lemma {:induction false} GetUnique<V>(d: Dict<V>, i: nat)
    requires UniqueKeys(d) && i < |d|
    ensures Get(d, d[i].0) == Some(d[i].1)
    decreases i
  {
    if i > 0 {
      assert d[0].0 != d[i].0;
      assert UniqueKeys(d[1..]) by {
        forall a, b | 0 <= a < b < |d[1..]| ensures d[1..][a].0 != d[1..][b].0 {
          assert d[1..][a] == d[a + 1] && d[1..][b] == d[b + 1];
        }
      }
      GetUnique(d[1..], i - 1);
    }
  }

  /** Over distinct keys, the last entry with a key is its only entry. */
  lemma {:induction false} LastValueUnique<V>(entries: seq<(string, V)>, k: string)
    requires UniqueKeys(entries)
    ensures LastValue(entries, k) == Get(entries, k)
    decreases |entries|
  {
    if entries != [] {
      assert UniqueKeys(entries[1..]) by {
        forall a, b | 0 <= a < b < |entries[1..]| ensures entries[1..][a].0 != entries[1..][b].0 {
          assert entries[1..][a] == entries[a + 1] && entries[1..][b] == entries[b + 1];
        }
      }
      LastValueUnique(entries[1..], k);
      if entries[0].0 == k {
        LastValueAbsent(entries[1..], k);
      }
    }
  }

  /** `Object.assign(target, source)` for a source with distinct keys: a key
      of the source takes the source's value, any other key keeps its own. */
  lemma GetAssign<V>(target: Dict<V>, source: Dict<V>, k: string)
    requires UniqueKeys(source)
    ensures Get(SetAll(target, source), k) == if HasKey(source, k) then Get(source, k) else Get(target, k)
  {
    GetSetAll(target, source, k);
    LastValueUnique(source, k);
  }

  lemma HasKeySet<V>(d: Dict<V>, k: string, v: V, j: string)
    ensures HasKey(Set(d, k, v), j) <==> j == k || HasKey(d, j)
  {
    GetSet(d, k, v, j);
  }

  /** Every entry of `Set(d, k, v)` is the new one or an entry of `d`. */
  lemma {:induction false} SetEntries<V>(d: Dict<V>, k: string, v: V)
    ensures forall j :: 0 <= j < |Set(d, k, v)| ==> Set(d, k, v)[j] == (k, v) || Set(d, k, v)[j] in d
    decreases |d|
  {
    if d != [] && d[0].0 != k {
      SetEntries(d[1..], k, v);
      var r := Set(d, k, v);
      forall j | 0 <= j < |r| ensures r[j] == (k, v) || r[j] in d {
        if j > 0 {
          assert r[j] == Set(d[1..], k, v)[j - 1];
          if r[j] in d[1..] {
            var i :| 0 <= i < |d[1..]| && d[1..][i] == r[j];
            assert d[i + 1] == r[j];
          }
        }
      }
    } else if d != [] {
      var r := Set(d, k, v);
      forall j | 0 <= j < |r| ensures r[j] == (k, v) || r[j] in d {
        if j > 0 { assert r[j] == d[j]; }
      }
    }
  }
}
