/** Last-writer-wins maps: merging entries by time stamp. */
module Lww {
  import opened Wrappers

  /** Nanoseconds since Go's zero time; 0 is the zero time itself. */
  type Time = nat

  datatype Version<V> = Version(value: V, updated: Time)

  datatype Entry<V> = Entry(key: string, version: Version<V>)

  type Table<V> = map<string, Version<V>>

  function Lookup<V>(t: Table<V>, key: string): Option<Version<V>> {
    if key in t then Some(t[key]) else None
  }

  /** Keep an incoming entry when its key is new or it is strictly newer. */
  function Join<V>(t: Table<V>, e: Entry<V>): Table<V> {
    if e.key in t && e.version.updated <= t[e.key].updated then t else t[e.key := e.version]
  }

  function JoinAll<V>(t: Table<V>, es: seq<Entry<V>>): Table<V>
    decreases es
  {
    if es == [] then t else JoinAll(Join(t, es[0]), es[1..])
  }

  ghost predicate SameElements<T(!new)>(a: seq<T>, b: seq<T>) {
    forall x :: x in a <==> x in b
  }

  lemma {:induction false} JoinAllConcat<V>(t: Table<V>, a: seq<Entry<V>>, b: seq<Entry<V>>)
    ensures JoinAll(t, a + b) == JoinAll(JoinAll(t, a), b)
    decreases a
  {
    if a == [] {
      assert a + b == b;
    } else {
      assert (a + b)[1..] == a[1..] + b;
      JoinAllConcat(Join(t, a[0]), a[1..], b);
    }
  }

  /** v is a version the merge could have kept for the key. */
  predicate Candidate<V(==)>(t: Table<V>, es: seq<Entry<V>>, key: string, v: Version<V>) {
    (key in t && t[key] == v) || Entry(key, v) in es
  }

  /** The merge keeps one of the candidates for each key, and none is newer. */
  lemma {:induction false} JoinAllPicksNewest<V(!new)>(t: Table<V>, es: seq<Entry<V>>, key: string)
    ensures var r := JoinAll(t, es);
            && (key in r <==> exists v :: Candidate(t, es, key, v))
            && (key in r ==> Candidate(t, es, key, r[key]))
            && (forall v :: Candidate(t, es, key, v) ==> key in r && v.updated <= r[key].updated)
    decreases es
  {
    var r := JoinAll(t, es);
    if es != [] {
      var u := Join(t, es[0]);
      JoinAllPicksNewest(u, es[1..], key);
      assert es == [es[0]] + es[1..];
      forall v ensures Candidate(u, es[1..], key, v) ==> Candidate(t, es, key, v)
               ensures Candidate(t, es, key, v) ==> key in r && v.updated <= r[key].updated
      {
        if Candidate(t, es, key, v) {
          var w := if Candidate(u, es[1..], key, v) then v else u[key];
          assert Candidate(u, es[1..], key, w) && v.updated <= w.updated;
        }
      }
    } else if key in t {
      assert Candidate(t, es, key, t[key]);
    }
  }

  /** Two different versions of a key never carry the same stamp. */
  ghost predicate NoClash<V(!new)>(t: Table<V>, es: seq<Entry<V>>) {
    forall key, v, w :: Candidate(t, es, key, v) && Candidate(t, es, key, w) && v.updated == w.updated ==> v == w
  }

  /** Any order and any repetition of the same entries merges to the same table. */
  lemma JoinAllConverges<V(!new)>(t: Table<V>, a: seq<Entry<V>>, b: seq<Entry<V>>)
    requires NoClash(t, a) && SameElements(a, b)
    ensures JoinAll(t, a) == JoinAll(t, b)
  {
    var ra, rb := JoinAll(t, a), JoinAll(t, b);
    forall key ensures (key in ra <==> key in rb) && (key in ra ==> ra[key] == rb[key]) {
      JoinAllPicksNewest(t, a, key);
      JoinAllPicksNewest(t, b, key);
      forall v ensures Candidate(t, a, key, v) <==> Candidate(t, b, key, v) {
      }
      if key in ra {
        assert Candidate(t, b, key, ra[key]);
        assert Candidate(t, a, key, rb[key]);
      }
    }
  }
}
