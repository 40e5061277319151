/**
  What it means to list the values of a map in some unspecified order (Go's
  `for ... range` over a map), and what every such listing has in common.
 */
module Tables {

  /** No element of `s` occurs twice. */
  ghost predicate Distinct<K>(s: seq<K>)
  {
    forall i, j :: 0 <= i < j < |s| ==> s[i] != s[j]
  }

  /** `items[i]` is the value `db` holds under key `order[i]`, for every position. */
  ghost predicate ValuesAlong<K, V>(db: map<K, V>, order: seq<K>, items: seq<V>)
  {
    |items| == |order| && forall i :: 0 <= i < |order| ==> order[i] in db && items[i] == db[order[i]]
  }

  /**
    `items` lists the values of `db`, one per key, in the key order `order`,
    which visits every key exactly once.
   */
  ghost predicate IsListing<K, V>(db: map<K, V>, order: seq<K>, items: seq<V>)
  {
    Distinct(order) && (set k | k in order) == db.Keys && ValuesAlong(db, order, items)
  }

  /**
    A walk over `db` that has visited the keys of `order`, collecting their
    values into `items`, and has the keys `unvisited` still to visit.
   */
  ghost predicate PartialListing<K, V>(db: map<K, V>, order: seq<K>, items: seq<V>, unvisited: set<K>)
  {
    && unvisited <= db.Keys
    && unvisited !! (set k | k in order)
    && (set k | k in order) + unvisited == db.Keys
    && |order| + |unvisited| == |db|
    && Distinct(order)
    && ValuesAlong(db, order, items)
  }

  /** Visiting one more unvisited key, and collecting its value, keeps the walk consistent. */
  lemma VisitKey<K, V>(db: map<K, V>, order: seq<K>, items: seq<V>, unvisited: set<K>, k: K)
    requires PartialListing(db, order, items, unvisited) && k in unvisited
    ensures PartialListing(db, order + [k], items + [db[k]], unvisited - {k})
  {
  }

  /** A walk with nothing left to visit is a listing of the whole map. */
  lemma WalkDone<K, V>(db: map<K, V>, order: seq<K>, items: seq<V>)
    requires PartialListing(db, order, items, {})
    ensures IsListing(db, order, items) && |items| == |db|
  {
  }

  /** The keys under which `db` holds `v`. */
  ghost function KeysHolding<K, V>(db: map<K, V>, v: V): set<K>
  {
    set k | k in db && db[k] == v
  }

  /** A sequence without repetitions has as many distinct elements as positions. */
  lemma {:induction false} DistinctCard<K>(s: seq<K>)
    requires Distinct(s)
    ensures |set k | k in s| == |s|
  {
    if s != [] {
      var rest := s[1..];
      assert Distinct(rest) by {
        forall i, j | 0 <= i < j < |rest| ensures rest[i] != rest[j] {
          assert rest[i] == s[i + 1] && rest[j] == s[j + 1];
        }
      }
      DistinctCard(rest);
      assert s[0] !in rest by {
        forall i | 0 <= i < |rest| ensures rest[i] != s[0] {
          assert rest[i] == s[i + 1];
        }
      }
      assert (set k | k in s) == {s[0]} + (set k | k in rest) by {
        assert s == [s[0]] + rest;
      }
    }
  }

  /** A listing has exactly one item per key of the map. */
  lemma ListingLength<K, V>(db: map<K, V>, order: seq<K>, items: seq<V>)
    requires IsListing(db, order, items)
    ensures |items| == |db|
  {
    DistinctCard(order);
    assert |db.Keys| == |db|;
  }

  /** Dropping the first key (and its item) keeps distinct keys and their values aligned. */
  lemma AlongTail<K, V>(db: map<K, V>, order: seq<K>, items: seq<V>)
    requires order != [] && Distinct(order) && ValuesAlong(db, order, items)
    ensures Distinct(order[1..]) && ValuesAlong(db, order[1..], items[1..])
    ensures order[0] !in order[1..]
  {
  }

  /** The keys along `order` holding `v`: the first key if it does, plus those further on. */
  lemma HoldingAlongHead<K, V>(db: map<K, V>, order: seq<K>, v: V)
    requires order != [] && order[0] in db && order[0] !in order[1..]
    ensures |set k | k in order && k in db && db[k] == v|
            == (if db[order[0]] == v then 1 else 0) + |set k | k in order[1..] && k in db && db[k] == v|
  {
    var holding := set k | k in order && k in db && db[k] == v;
    var holding' := set k | k in order[1..] && k in db && db[k] == v;
    assert order == [order[0]] + order[1..];
    if db[order[0]] == v {
      assert holding == {order[0]} + holding';
    } else {
      assert holding == holding';
    }
  }

  /** Along distinct keys, a value occurs as often as there are visited keys holding it. */
  lemma {:induction false} OccurrencesAlong<K, V>(db: map<K, V>, order: seq<K>, items: seq<V>, v: V)
    requires Distinct(order) && ValuesAlong(db, order, items)
    ensures multiset(items)[v] == |set k | k in order && k in db && db[k] == v|
  {
    if order != [] {
      AlongTail(db, order, items);
      OccurrencesAlong(db, order[1..], items[1..], v);
      HoldingAlongHead(db, order, v);
      assert items == [items[0]] + items[1..];
      assert multiset(items) == multiset{items[0]} + multiset(items[1..]);
    }
  }

  /**
    In a listing, every value occurs exactly as often as there are keys holding
    it: the items are the stored values, one per key.
   */
  lemma ListingOccurrences<K, V>(db: map<K, V>, order: seq<K>, items: seq<V>, v: V)
    requires IsListing(db, order, items)
    ensures multiset(items)[v] == |KeysHolding(db, v)|
  {
    OccurrencesAlong(db, order, items, v);
    assert (set k | k in order && k in db && db[k] == v) == KeysHolding(db, v);
  }

  /** A value is listed exactly when the map holds it under some key. */
  lemma ListingMembership<K, V>(db: map<K, V>, order: seq<K>, items: seq<V>, v: V)
    requires IsListing(db, order, items)
    ensures v in items <==> v in db.Values
  {
  }

  /** Any two listings of one map differ only in order: they are permutations of each other. */
  lemma ListingsArePermutations<K, V>(db: map<K, V>, order1: seq<K>, items1: seq<V>,
                                      order2: seq<K>, items2: seq<V>)
    requires IsListing(db, order1, items1)
    requires IsListing(db, order2, items2)
    ensures multiset(items1) == multiset(items2)
  {
    forall v ensures multiset(items1)[v] == multiset(items2)[v] {
      ListingOccurrences(db, order1, items1, v);
      ListingOccurrences(db, order2, items2, v);
    }
  }

  /** Upserting a key adds one entry exactly when the key was absent, and touches no other key. */
  lemma UpsertEffect<K, V>(db: map<K, V>, key: K, v: V)
    ensures |db[key := v]| == if key in db then |db| else |db| + 1
    ensures db[key := v][key] == v
    ensures forall k :: k != key ==> (k in db[key := v] <==> k in db)
    ensures forall k :: k != key && k in db ==> db[key := v][k] == db[k]
  {
  }
}
