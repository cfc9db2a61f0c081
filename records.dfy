/** JavaScript plain objects with string keys (`Record<string, V>`), as their members in
    enumeration order. Reading `o[k]` sees the first member with the key; assigning
    `o[k] = v` overwrites that member in place, or appends a new member when the key is new. */
module Records {
  import opened Common

  function Get<V>(members: seq<(string, V)>, key: string): Option<V> {
    if members == [] then None
    else if members[0].0 == key then Some(members[0].1)
    else Get(members[1..], key)
  }

  /** The lookup finds the first member carrying the key. */
  lemma {:induction false} GetFirst<V>(members: seq<(string, V)>, key: string, i: nat)
    requires i < |members| && members[i].0 == key
    requires forall k :: 0 <= k < i ==> members[k].0 != key
    ensures Get(members, key) == Some(members[i].1)
  {
    if i > 0 {
      GetFirst(members[1..], key, i - 1);
    }
  }

  /** The keys of the object (`Object.keys`, as a set). */
  function KeySet<V>(members: seq<(string, V)>): set<string> {
    set i | 0 <= i < |members| :: members[i].0
  }

  /** A lookup succeeds exactly for the keys the object has. */
  lemma {:induction false} GetSomeIffKey<V>(members: seq<(string, V)>, key: string)
    ensures Get(members, key).Some? <==> key in KeySet(members)
  {
    if members != [] {
      GetSomeIffKey(members[1..], key);
      assert KeySet(members) == {members[0].0} + KeySet(members[1..]) by {
        forall k ensures k in KeySet(members) <==> k in {members[0].0} + KeySet(members[1..]) {
          if k in KeySet(members) {
            var i :| 0 <= i < |members| && members[i].0 == k;
            if i > 0 {
              assert members[1..][i - 1].0 == k;
            }
          }
          if k in KeySet(members[1..]) {
            var i :| 0 <= i < |members[1..]| && members[1..][i].0 == k;
            assert members[i + 1].0 == k;
          }
        }
      }
    }
  }

  /** No key is carried by two members, as in every object JavaScript builds. */
  predicate UniqueKeys<V>(members: seq<(string, V)>) {
    forall i, j :: 0 <= i < j < |members| ==> members[i].0 != members[j].0
  }

  /** `o[key] = value`. */
  function Put<V>(members: seq<(string, V)>, key: string, value: V): (r: seq<(string, V)>)
    ensures |r| == |members| || |r| == |members| + 1
  {
    if members == [] then [(key, value)]
    else if members[0].0 == key then [(key, value)] + members[1..]
    else [members[0]] + Put(members[1..], key, value)
  }

  /** After an assignment the key reads back the assigned value and every other key reads
      what it read before. */
  lemma {:induction false} GetPut<V>(members: seq<(string, V)>, key: string, value: V, other: string)
    ensures Get(Put(members, key, value), other) == if other == key then Some(value) else Get(members, other)
  {
    if members != [] && members[0].0 != key {
      GetPut(members[1..], key, value, other);
    }
  }

  /** An assignment adds its key and keeps every other key. */
  lemma {:induction false} KeySetPut<V>(members: seq<(string, V)>, key: string, value: V)
    ensures KeySet(Put(members, key, value)) == KeySet(members) + {key}
  {
    var r := Put(members, key, value);
    forall k ensures k in KeySet(r) <==> k in KeySet(members) + {key} {
      GetSomeIffKey(r, k);
      GetSomeIffKey(members, k);
      GetPut(members, key, value, k);
    }
  }

  /** Assignment never duplicates a key. */
  lemma {:induction false} UniqueKeysPut<V>(members: seq<(string, V)>, key: string, value: V)
    requires UniqueKeys(members)
    ensures UniqueKeys(Put(members, key, value))
  {
    if members != [] && members[0].0 != key {
      var rest := members[1..];
      UniqueKeysPut(rest, key, value);
      KeySetPut(rest, key, value);
      var r := Put(members, key, value);
      assert r == [members[0]] + Put(rest, key, value);
      forall j | 0 < j < |r| ensures r[0].0 != r[j].0 {
        assert r[j].0 in KeySet(Put(rest, key, value)) by {
          assert r[j] == Put(rest, key, value)[j - 1];
        }
        if r[j].0 in KeySet(rest) {
          var i :| 0 <= i < |rest| && rest[i].0 == r[j].0;
          assert members[i + 1].0 == r[j].0;
        }
      }
    } else if members != [] {
      var r := Put(members, key, value);
      forall i, j | 0 <= i < j < |r| ensures r[i].0 != r[j].0 {
        assert r[j].0 == members[j].0;
        if i > 0 {
          assert r[i].0 == members[i].0;
        }
      }
    }
  }
}
