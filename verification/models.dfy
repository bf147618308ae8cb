/**
  The persisted shape of a flower (the `flowers` table) and the record
  store that holds the rows, keyed by primary key.
 */
module Models {
  import opened Wrappers

  /** The temperature columns of the `flowers` table are Float columns;
      only presence and equality matter to the logic, so they are
      modelled as integers. */
  type Temperature = int

  /** One row of the `flowers` table. The primary key is the store's key,
      not a field of the row. */
  datatype FlowerRow = FlowerRow(
    name: string,
    wateringIntensity: Option<string>,
    lightLevel: Option<string>,
    temperatureMin: Option<Temperature>,
    temperatureMax: Option<Temperature>,
    comment: Option<string>,
    ownerId: int
  )

  /** All flower rows, by primary key. */
  type Store = map<int, FlowerRow>

  /** The row with the given primary key, if there is one: the
      `query(...).filter(id == ...).first()` lookup. */
  function Lookup(store: Store, id: int): (r: Option<FlowerRow>)
    ensures r.None? <==> id !in store
    ensures r.Some? ==> store[id] == r.value
  {
    if id in store then Some(store[id]) else None
  }

  /** `m` is the greatest element of `ids`. */
  predicate IsMax(m: int, ids: set<int>) {
    m in ids && forall k :: k in ids ==> k <= m
  }

  /** A set without members is the empty set. */
  lemma NoMembersIsEmpty(s: set<int>)
    requires forall x :: x !in s
    ensures s == {}
  {
    assert forall x :: x in s <==> x in {};
  }

  /** A non-empty set has a member. */
  lemma NonEmptyHasMember(s: set<int>)
    requires s != {}
    ensures exists x :: x in s
  {
    if forall x :: x !in s {
      NoMembersIsEmpty(s);
      assert false;
    }
  }

  /** Every non-empty finite set of keys has a greatest element. */
  lemma {:induction false} MaxExists(ids: set<int>)
    requires ids != {}
    ensures exists m :: IsMax(m, ids)
    decreases ids
  {
    NonEmptyHasMember(ids);
    var x :| x in ids;
    var rest := ids - {x};
    if rest == {} {
      assert ids == {x};
      assert IsMax(x, ids);
    } else {
      MaxExists(rest);
      var m :| IsMax(m, rest);
      assert ids == rest + {x};
      if x <= m {
        assert IsMax(m, ids);
      } else {
        assert IsMax(x, ids);
      }
    }
  }

  /** The greatest key in use. */
  function MaxId(ids: set<int>): (m: int)
    requires ids != {}
    ensures m in ids
    ensures forall k :: k in ids ==> k <= m
  {
    MaxExists(ids);
    var m :| IsMax(m, ids); m
  }

  /** The key the database gives a newly inserted row: one past the
      greatest key in use, or 1 in an empty table (the rowid rule of an
      INTEGER PRIMARY KEY column). */
  function NextId(store: Store): (id: int)
    ensures id !in store
    ensures forall k :: k in store ==> k < id
    ensures store == map[] ==> id == 1
  {
    if store == map[] then 1 else MaxId(store.Keys) + 1
  }
}
