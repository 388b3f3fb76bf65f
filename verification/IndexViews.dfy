/** A secondary index of contracts/registration/src/lib.rs: id lists stored per key, and what
    it means for them to mirror a table. */
module IndexViews {
  import opened Prelude

  type Index<K> = map<K, seq<u64>>

  /** The list stored under a key; an absent key reads as an empty list. */
  function Bucket<K>(index: Index<K>, key: K): seq<u64> {
    if key in index then index[key] else []
  }

  /** `position` followed by `remove`: drops the first occurrence. */
  function Without(ids: seq<u64>, id: u64): seq<u64> {
    if ids == [] then []
    else if ids[0] == id then ids[1..]
    else [ids[0]] + Without(ids[1..], id)
  }

  /** `composite_index_add` / `level_index_add`. */
  function Added<K>(index: Index<K>, key: K, id: u64): Index<K> {
    index[key := Bucket(index, key) + [id]]
  }

  /** `composite_index_remove` / `level_index_remove`. */
  function Removed<K>(index: Index<K>, key: K, id: u64): Index<K> {
    if id in Bucket(index, key) then index[key := Without(Bucket(index, key), id)] else index
  }

  /** `ids` enumerates the set, each member once. */
  ghost predicate Lists(ids: seq<u64>, members: set<u64>) {
    NoDuplicates(ids) && (forall id :: id in ids <==> id in members)
  }

  /** The list of every key enumerates exactly the ids the table files under that key. */
  ghost predicate Views<K(!new)>(index: Index<K>, keyOf: map<u64, K>) {
    forall key: K :: Lists(Bucket(index, key), Under(keyOf, key))
  }

  ghost function Under<K>(keyOf: map<u64, K>, key: K): set<u64> {
    set id | id in keyOf && keyOf[id] == key
  }

  lemma WithoutHead(first: u64, rest: seq<u64>, id: u64)
    ensures Without([first] + rest, id) == if first == id then rest else [first] + Without(rest, id)
  {
    assert ([first] + rest)[1..] == rest;
  }

  /** Removing an id leaves the others in their order. */
  lemma {:induction false} WithoutCuts(before: seq<u64>, id: u64, after: seq<u64>)
    requires id !in before
    ensures Without(before + [id] + after, id) == before + after
  {
    hide Without;
    if before == [] {
      WithoutHead(id, after, id);
      assert before + [id] + after == [id] + after && before + after == after;
    } else {
      var first, rest := before[0], before[1..];
      WithoutCuts(rest, id, after);
      WithoutHead(first, rest + [id] + after, id);
      assert before == [first] + rest;
      assert before + [id] + after == [first] + (rest + [id] + after);
      assert before + after == [first] + (rest + after);
    }
  }

  lemma {:induction false} WithoutElements(ids: seq<u64>, id: u64)
    requires NoDuplicates(ids)
    ensures NoDuplicates(Without(ids, id))
    ensures forall x :: x in Without(ids, id) <==> x in ids && x != id
  {
    if ids != [] {
      var rest := ids[1..];
      assert ids == [ids[0]] + rest;
      WithoutElements(rest, id);
      if ids[0] != id {
        ConcatNoDuplicates([ids[0]], Without(rest, id));
      }
    }
  }

  lemma ListsAdd(ids: seq<u64>, members: set<u64>, id: u64)
    requires Lists(ids, members) && id !in members
    ensures Lists(ids + [id], members + {id})
  {
  }

  lemma ListsRemove(ids: seq<u64>, members: set<u64>, id: u64)
    requires Lists(ids, members)
    ensures Lists(Without(ids, id), members - {id})
  {
    WithoutElements(ids, id);
  }

  /** Enumerating a set, each member once, takes as many places as the set has members. */
  lemma {:induction false} ListsLength(ids: seq<u64>, members: set<u64>)
    requires Lists(ids, members)
    ensures |ids| == |members|
  {
    if ids == [] {
      assert members == {} by {
        forall x ensures x !in members {
          assert x in ids <==> x in members;
        }
      }
    } else {
      var n := |ids| - 1;
      assert ids[n] in members;
      forall x ensures x in ids[..n] <==> x in members - {ids[n]} {
        assert x in ids <==> x in ids[..n] || x == ids[n];
      }
      ListsLength(ids[..n], members - {ids[n]});
    }
  }

  lemma ViewsAdd<K(!new)>(index: Index<K>, keyOf: map<u64, K>, key: K, id: u64)
    requires Views(index, keyOf) && id !in keyOf
    ensures Views(Added(index, key, id), keyOf[id := key])
  {
    var index', keyOf' := Added(index, key, id), keyOf[id := key];
    forall k: K ensures Lists(Bucket(index', k), Under(keyOf', k)) {
      assert Lists(Bucket(index, k), Under(keyOf, k));
      if k == key {
        ListsAdd(Bucket(index, k), Under(keyOf, k), id);
        assert Under(keyOf', k) == Under(keyOf, k) + {id};
      } else {
        assert Under(keyOf', k) == Under(keyOf, k);
      }
    }
  }

  lemma ViewsRemove<K(!new)>(index: Index<K>, keyOf: map<u64, K>, id: u64)
    requires Views(index, keyOf) && id in keyOf
    ensures Views(Removed(index, keyOf[id], id), keyOf - {id})
  {
    var key := keyOf[id];
    var index', keyOf' := Removed(index, key, id), keyOf - {id};
    assert Lists(Bucket(index, key), Under(keyOf, key));
    assert id in Under(keyOf, key);
    forall k: K ensures Lists(Bucket(index', k), Under(keyOf', k)) {
      assert Lists(Bucket(index, k), Under(keyOf, k));
      if k == key {
        ListsRemove(Bucket(index, k), Under(keyOf, k), id);
        assert Under(keyOf', k) == Under(keyOf, k) - {id};
      } else {
        assert Under(keyOf', k) == Under(keyOf, k);
      }
    }
  }
}
