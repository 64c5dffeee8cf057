/** Insertion-ordered key/value tables.

    The recommender keeps every piece of reference data in a Python `dict`,
    and it relies on the dict's insertion order when it iterates. A table is
    therefore modelled as an ordered sequence of bindings, so that the order
    is explicit, together with the dict operations the recommender uses:
    lookup by key (`d[k]`) and assignment (`d[k] = v`). */
module Tables {

  datatype Option<T> = None | Some(value: T)

  /** One key/value pair of a table. */
  datatype Binding<V> = Binding(key: string, value: V)

  /** A table lists its bindings in insertion order. */
  type Table<V> = seq<Binding<V>>

  /** The keys of a table, in insertion order (`list(d.keys())`). */
  function Keys<V>(t: Table<V>): (r: seq<string>)
  {
    seq(|t|, i requires 0 <= i < |t| => t[i].key)
  }

  predicate HasKey<V>(t: Table<V>, k: string)
  {
    exists i :: 0 <= i < |t| && t[i].key == k
  }

  /** What a Python dict guarantees: no key occurs twice. */
  predicate DistinctKeys<V>(t: Table<V>)
  {
    forall i, j :: 0 <= i < j < |t| ==> t[i].key != t[j].key
  }

  /** `d[k]`: the value bound to `k`, or None where Python raises KeyError. */
  function Lookup<V>(t: Table<V>, k: string): (r: Option<V>)
    ensures r.Some? <==> HasKey(t, k)
    ensures forall i :: 0 <= i < |t| && t[i].key == k && (forall j :: 0 <= j < i ==> t[j].key != k)
                        ==> r == Some(t[i].value)
  {
    if |t| == 0 then None
    else if t[0].key == k then Some(t[0].value)
    else
      var r := Lookup(t[1..], k);
      assert forall i :: 1 <= i < |t| ==> t[1..][i - 1] == t[i];
      r
  }

  /** With distinct keys, the lookup of a binding's key finds that binding. */
  lemma LookupBinding<V>(t: Table<V>, i: int)
    requires DistinctKeys(t) && 0 <= i < |t|
    ensures Lookup(t, t[i].key) == Some(t[i].value)
  {
  }

  /** A present key has a first binding, and the lookup returns its value. */
  lemma {:induction false} FirstBindingOf<V>(t: Table<V>, k: string)
    requires HasKey(t, k)
    ensures exists m :: 0 <= m < |t| && t[m].key == k && (forall p :: 0 <= p < m ==> t[p].key != k) &&
                        Lookup(t, k) == Some(t[m].value)
  {
    if t[0].key != k {
      var i :| 0 <= i < |t| && t[i].key == k;
      assert t[1..][i - 1].key == k;
      FirstBindingOf(t[1..], k);
      var m :| 0 <= m < |t[1..]| && t[1..][m].key == k && (forall p :: 0 <= p < m ==> t[1..][p].key != k) &&
               Lookup(t[1..], k) == Some(t[1..][m].value);
      assert forall p :: 1 <= p < m + 1 ==> t[p] == t[1..][p - 1];
      assert t[m + 1].key == k && (forall p :: 0 <= p < m + 1 ==> t[p].key != k);
    } else {
      assert Lookup(t, k) == Some(t[0].value);
    }
  }

  /** `d[k] = v`: rebinds an existing key where it stands, otherwise appends. */
  function Put<V>(t: Table<V>, k: string, v: V): (r: Table<V>)
    ensures !HasKey(t, k) ==> r == t + [Binding(k, v)]
    ensures HasKey(t, k) ==> Keys(r) == Keys(t)
  {
    if |t| == 0 then [Binding(k, v)]
    else if t[0].key == k then [Binding(k, v)] + t[1..]
    else
      var r := [t[0]] + Put(t[1..], k, v);
      assert forall i :: 1 <= i < |t| ==> t[1..][i - 1] == t[i];
      assert HasKey(t, k) ==> HasKey(t[1..], k);
      assert Keys(r) == [t[0].key] + Keys(Put(t[1..], k, v));
      assert Keys(t) == [t[0].key] + Keys(t[1..]);
      r
  }

  /** After `d[k] = v`, `d[k]` is `v` and every other key reads as before. */
  lemma {:induction false} PutThenLookup<V>(t: Table<V>, k: string, v: V, k': string)
    ensures Lookup(Put(t, k, v), k') == if k' == k then Some(v) else Lookup(t, k')
  {
    if |t| > 0 && t[0].key != k {
      PutThenLookup(t[1..], k, v, k');
      assert ([t[0]] + Put(t[1..], k, v))[1..] == Put(t[1..], k, v);
    } else if |t| > 0 {
      assert ([Binding(k, v)] + t[1..])[1..] == t[1..];
    }
  }
}
