/**
 * A Python `dict` from strings to strings: keys kept in insertion order,
 * and assigning to an existing key changes its value but not its position.
 */
module OrderedDict {

  datatype Dict = Dict(keys: seq<string>, values: map<string, string>) {

    /** Every listed key has a value. */
    predicate Listed() {
      forall i :: 0 <= i < |keys| ==> keys[i] in values
    }

    /** Every key is listed once, and the listed keys are exactly the mapped ones. */
    ghost predicate Valid() {
      Listed() &&
      (forall i, j :: 0 <= i < j < |keys| ==> keys[i] != keys[j]) &&
      (forall k :: k in values ==> k in keys)
    }

    /** `d[k] = v`: a new key goes last; an existing key keeps its place and takes the new value. */
    function Put(k: string, v: string): (d: Dict)
      ensures d.values == values[k := v]
      ensures d.keys == if k in values then keys else keys + [k]
    {
      if k in values then Dict(keys, values[k := v]) else Dict(keys + [k], values[k := v])
    }

    /** `d.items()`, in insertion order. */
    function Items(): (items: seq<(string, string)>)
      requires Listed()
      ensures |items| == |keys|
      ensures forall i :: 0 <= i < |keys| ==> items[i] == (keys[i], values[keys[i]])
    {
      seq(|keys|, i requires 0 <= i < |keys| => (keys[i], values[keys[i]]))
    }
  }

  /** Assignment keeps every key listed exactly once. */
  lemma PutValid(d: Dict, k: string, v: string)
    requires d.Valid()
    ensures d.Put(k, v).Valid()
  {
    var r := d.Put(k, v);
    if k !in d.values {
      forall i, j | 0 <= i < j < |r.keys| ensures r.keys[i] != r.keys[j] {
        if j == |d.keys| {
          assert r.keys[i] == d.keys[i];
        }
      }
    }
  }

  /** `for k, v in entries: d[k] = v` */
  function PutAll(d: Dict, entries: seq<(string, string)>): Dict
    decreases |entries|
  {
    if entries == [] then d
    else
      var n := |entries| - 1;
      PutAll(d, entries[..n]).Put(entries[n].0, entries[n].1)
  }

  /** Shorthand for the prefix of a recursive step. */
  lemma PrefixAt(entries: seq<(string, string)>, n: nat, i: nat)
    requires i < n <= |entries|
    ensures entries[..n][i] == entries[i]
  {
  }

  lemma {:induction false} PutAllValid(d: Dict, entries: seq<(string, string)>)
    requires d.Valid()
    ensures PutAll(d, entries).Valid()
    decreases |entries|
  {
    if entries != [] {
      var n := |entries| - 1;
      PutAllValid(d, entries[..n]);
      PutValid(PutAll(d, entries[..n]), entries[n].0, entries[n].1);
    }
  }

  /** The keys the dict had stay first, in their order. */
  lemma {:induction false} PutAllKeepsOrder(d: Dict, entries: seq<(string, string)>)
    ensures |d.keys| <= |PutAll(d, entries).keys| && PutAll(d, entries).keys[..|d.keys|] == d.keys
    decreases |entries|
  {
    if entries != [] {
      var n := |entries| - 1;
      PutAllKeepsOrder(d, entries[..n]);
    }
  }

  /** Every assigned key is in the result. */
  lemma {:induction false} PutAllHas(d: Dict, entries: seq<(string, string)>, i: nat)
    requires i < |entries|
    ensures entries[i].0 in PutAll(d, entries).values
    decreases |entries|
  {
    var n := |entries| - 1;
    if i < n {
      PrefixAt(entries, n, i);
      PutAllHas(d, entries[..n], i);
    }
  }

  /** A key neither in the dict nor assigned by an entry is not in the result. */
  lemma {:induction false} PutAllOnly(d: Dict, entries: seq<(string, string)>, k: string)
    requires k !in d.values
    requires forall i :: 0 <= i < |entries| ==> entries[i].0 != k
    ensures k !in PutAll(d, entries).values
    decreases |entries|
  {
    if entries != [] {
      var n := |entries| - 1;
      forall i | 0 <= i < n ensures entries[..n][i].0 != k {
        PrefixAt(entries, n, i);
      }
      PutAllOnly(d, entries[..n], k);
    }
  }

  /** A key that no entry assigns keeps its value. */
  lemma {:induction false} PutAllUntouched(d: Dict, entries: seq<(string, string)>, k: string)
    requires k in d.values
    requires forall i :: 0 <= i < |entries| ==> entries[i].0 != k
    ensures k in PutAll(d, entries).values && PutAll(d, entries).values[k] == d.values[k]
    decreases |entries|
  {
    if entries != [] {
      var n := |entries| - 1;
      forall i | 0 <= i < n ensures entries[..n][i].0 != k {
        PrefixAt(entries, n, i);
      }
      PutAllUntouched(d, entries[..n], k);
    }
  }

  /** `entries[i]` is the last entry that assigns `k`. */
  predicate LastEntry(entries: seq<(string, string)>, i: int, k: string) {
    0 <= i < |entries| && entries[i].0 == k && forall j :: i < j < |entries| ==> entries[j].0 != k
  }

  /** The last entry for a key decides its value. */
  lemma {:induction false} PutAllLastWins(d: Dict, entries: seq<(string, string)>, i: nat, k: string)
    requires LastEntry(entries, i, k)
    ensures k in PutAll(d, entries).values && PutAll(d, entries).values[k] == entries[i].1
    decreases |entries|
  {
    var n := |entries| - 1;
    if i < n {
      var prefix := entries[..n];
      forall j | i <= j < n ensures prefix[j] == entries[j] {
        PrefixAt(entries, n, j);
      }
      assert LastEntry(prefix, i, k);
      PutAllLastWins(d, prefix, i, k);
    }
  }

  /** A key the dict did not have gets its value from the last entry that assigns it. */
  lemma {:induction false} PutAllNewKey(d: Dict, entries: seq<(string, string)>, k: string)
    requires k !in d.values && k in PutAll(d, entries).values
    ensures exists i :: LastEntry(entries, i, k) && PutAll(d, entries).values[k] == entries[i].1
    decreases |entries|
  {
    var n := |entries| - 1;
    if entries[n].0 == k {
      assert LastEntry(entries, n, k);
      PutAllLastWins(d, entries, n, k);
    } else {
      var prefix := entries[..n];
      PutAllNewKey(d, prefix, k);
      var i :| LastEntry(prefix, i, k) && PutAll(d, prefix).values[k] == prefix[i].1;
      forall j | i <= j < n ensures prefix[j] == entries[j] {
        PrefixAt(entries, n, j);
      }
      assert LastEntry(entries, i, k);
    }
  }

  /** Entries with distinct new keys are appended in order. */
  lemma {:induction false} PutAllFresh(d: Dict, entries: seq<(string, string)>)
    requires forall i :: 0 <= i < |entries| ==> entries[i].0 !in d.values
    requires forall i, j :: 0 <= i < j < |entries| ==> entries[i].0 != entries[j].0
    ensures |PutAll(d, entries).keys| == |d.keys| + |entries|
    ensures forall i :: 0 <= i < |entries| ==> PutAll(d, entries).keys[|d.keys| + i] == entries[i].0
    decreases |entries|
  {
    if entries != [] {
      var n := |entries| - 1;
      var prefix := entries[..n];
      forall i | 0 <= i < n ensures prefix[i] == entries[i] {
        PrefixAt(entries, n, i);
      }
      PutAllFresh(d, prefix);
      PutAllOnly(d, prefix, entries[n].0);
    }
  }
}
