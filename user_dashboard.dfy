/**
 * The regular user's dashboard: every store with its average rating and
 * the caller's own rating, a name/address search, and the submit handler
 * that updates the caller's row for a store when the cached own rating is
 * truthy and inserts a new row otherwise, then re-fetches.
 */
module UserDashboard {
  import opened Wrappers
  import opened Text
  import opened Seqs
  import opened Catalog
  import opened Aggregation

  /** One entry of `stores`: the projection of a store row for this caller; the e-mail is dropped. */
  datatype StoreView = StoreView(id: Id, name: string, address: string, averageRating: real, userRating: Option<int>)

  /** `r` is the caller's row for the store. */
  predicate IsPair(r: Rating, userId: Id, storeId: Id)
  {
    r.userId == userId && r.storeId == storeId
  }

  /**
   * Reference definition of the caller's own rating: the value of the
   * first row of the whole table by `userId` on `storeId`.
   */
  function PairRating(rs: seq<Rating>, userId: Id, storeId: Id): Option<int>
  {
    if rs == [] then None
    else if IsPair(rs[0], userId, storeId) then Some(rs[0].rating)
    else PairRating(rs[1..], userId, storeId)
  }

  /**
   * Finding the caller's row among the store's ratings (as the dashboard
   * does) gives the first row of the whole table for the pair.
   */
  lemma {:induction false} OwnRatingIsFirstPairRow(rs: seq<Rating>, userId: Id, storeId: Id)
    ensures FirstRatingBy(ForStore(rs, storeId), userId) == PairRating(rs, userId, storeId)
  {
    if rs != [] {
      OwnRatingIsFirstPairRow(rs[1..], userId, storeId);
      var mine := ForStore(rs, storeId);
      var rest := ForStore(rs[1..], storeId);
      if rs[0].storeId == storeId {
        assert mine == [rs[0]] + rest;
        assert mine[0] == rs[0] && mine[1..] == rest;
      } else {
        assert mine == rest;
      }
    }
  }

  /** The caller's own rating is never another user's: it is the value of a row by the caller on that store. */
  lemma {:induction false} PairRatingIsOwn(rs: seq<Rating>, userId: Id, storeId: Id)
    ensures PairRating(rs, userId, storeId).Some? ==>
              Rating(userId, storeId, PairRating(rs, userId, storeId).value) in rs
    ensures PairRating(rs, userId, storeId).None? <==> forall x :: x in rs ==> !IsPair(x, userId, storeId)
  {
    if rs != [] {
      PairRatingIsOwn(rs[1..], userId, storeId);
      assert rs == [rs[0]] + rs[1..];
    }
  }

  /**
   * The entry built for one store row: its id, name and address, the mean
   * of that store's ratings (0 with none) and the caller's own rating of it.
   */
  function ViewOf(store: Store, ratings: seq<Rating>, userId: Id): (v: StoreView)
    ensures v.id == store.id && v.name == store.name && v.address == store.address
    ensures var mine := ForStore(ratings, store.id);
            v.averageRating == (if |mine| > 0 then Sum(mine) as real / |mine| as real else 0.0)
    ensures v.userRating == PairRating(ratings, userId, store.id)
  {
    OwnRatingIsFirstPairRow(ratings, userId, store.id);
    StoreView(store.id, store.name, store.address,
              StoreAverage(ratings, store.id),
              FirstRatingBy(ForStore(ratings, store.id), userId))
  }

  /** `storesWithRatings`: one entry per store row, in the same order. */
  function StoresWithRatings(stores: seq<Store>, ratings: seq<Rating>, userId: Id): (r: seq<StoreView>)
    ensures |r| == |stores|
    ensures forall i :: 0 <= i < |r| ==> r[i] == ViewOf(stores[i], ratings, userId)
  {
    if stores == [] then []
    else
      var rest := StoresWithRatings(stores[1..], ratings, userId);
      var r := [ViewOf(stores[0], ratings, userId)] + rest;
      assert forall i :: 0 <= i < |r| ==> r[i] == ViewOf(stores[i], ratings, userId) by {
        forall i | 0 <= i < |r| ensures r[i] == ViewOf(stores[i], ratings, userId) {
          if i > 0 {
            assert r[i] == rest[i - 1] && stores[i] == stores[1..][i - 1];
          }
        }
      }
      r
  }

  /** The user-side search: the lower-cased term occurs in the lower-cased name or address. */
  predicate Matches(store: StoreView, term: string)
  {
    Includes(Lower(store.name), Lower(term)) || Includes(Lower(store.address), Lower(term))
  }

  /** `filterStores`: the stores that match, in their original order. */
  function FilterStores(stores: seq<StoreView>, term: string): (r: seq<StoreView>)
    ensures forall s :: s in r <==> s in stores && Matches(s, term)
    ensures SubsequenceOf(r, stores)
  {
    Select(stores, (s: StoreView) => Matches(s, term))
  }

  /** An empty search term keeps every store. */
  lemma EmptySearchKeepsAll(stores: seq<StoreView>)
    ensures FilterStores(stores, "") == stores
  {
    forall s | s in stores ensures Matches(s, "") {
      IncludesEmpty(Lower(s.name));
    }
    SelectAll(stores, (s: StoreView) => Matches(s, ""));
  }

  /** "west" finds a store by its name and another by its address. */
  lemma WestMatchesNameAndAddress(a: StoreView, b: StoreView)
    requires a.name == "Westside Mart" && a.address == "1 Oak"
    requires b.name == "EastCo" && b.address == "2 West Ave"
    ensures FilterStores([a, b], "west") == [a, b]
  {
    WestInName(a);
    WestInAddress(b);
    SelectAll([a, b], (s: StoreView) => Matches(s, "west"));
  }

  lemma WestInName(a: StoreView)
    requires a.name == "Westside Mart"
    ensures Matches(a, "west")
  {
    LowerOfLower("west");
    LowerWest(a.name, 0);
  }

  lemma WestInAddress(b: StoreView)
    requires b.address == "2 West Ave"
    ensures Matches(b, "west")
  {
    LowerOfLower("west");
    LowerWest(b.address, 2);
  }

  /** A string with "West" at position `i` lower-cases to one that includes "west". */
  lemma LowerWest(s: string, i: nat)
    requires i + 4 <= |s| && s[i] == 'W' && s[i + 1] == 'e' && s[i + 2] == 's' && s[i + 3] == 't'
    ensures Includes(Lower(s), "west")
  {
    var l := Lower(s);
    assert l[i] == 'w' && l[i + 1] == 'e' && l[i + 2] == 's' && l[i + 3] == 't';
    assert l[i..i + 4] == "west";
    IncludesAt(l, "west", i);
  }

  // ---- The ratings table and the submit handler ----

  /** There is a row by `userId` on `storeId`. */
  predicate HasRow(rows: seq<Rating>, userId: Id, storeId: Id)
  {
    exists i :: 0 <= i < |rows| && IsPair(rows[i], userId, storeId)
  }

  /** The rows by `userId` on `storeId`, in table order. */
  function RowsFor(rows: seq<Rating>, userId: Id, storeId: Id): seq<Rating>
  {
    Select(rows, (r: Rating) => IsPair(r, userId, storeId))
  }

  predicate SamePair(a: Rating, b: Rating)
  {
    a.userId == b.userId && a.storeId == b.storeId
  }

  /** The intended uniqueness: at most one row per (user, store). */
  predicate AtMostOnePerPair(rows: seq<Rating>)
  {
    forall i, j :: 0 <= i < j < |rows| ==> !SamePair(rows[i], rows[j])
  }

  /** Every stored value is truthy (nonzero), as every value the dialog can submit is. */
  predicate NoZeroRatings(rows: seq<Rating>)
  {
    forall x :: x in rows ==> x.rating != 0
  }

  /** The cached own rating agrees with the table: it is truthy exactly when the caller has a row. */
  predicate Agrees(rows: seq<Rating>, userId: Id, storeId: Id, cached: Option<int>)
  {
    TruthyInt(cached) <==> HasRow(rows, userId, storeId)
  }

  /**
   * `update({ rating }).eq('user_id', userId).eq('store_id', storeId)`:
   * every row of the pair gets the new value; all other rows and fields stay.
   */
  function UpdateWhere(rows: seq<Rating>, userId: Id, storeId: Id, value: int): (r: seq<Rating>)
    ensures |r| == |rows|
    ensures forall i :: 0 <= i < |rows| ==>
              r[i] == if IsPair(rows[i], userId, storeId) then rows[i].(rating := value) else rows[i]
  {
    if rows == [] then []
    else
      var head := if IsPair(rows[0], userId, storeId) then rows[0].(rating := value) else rows[0];
      [head] + UpdateWhere(rows[1..], userId, storeId, value)
  }

  /**
   * The write `handleSubmitRating` performs: update when the cached rating
   * is truthy, insert otherwise. An update that matches no row writes nothing.
   */
  function Upsert(rows: seq<Rating>, userId: Id, storeId: Id, value: int, cached: Option<int>): (r: seq<Rating>)
    ensures |r| == |rows| + (if TruthyInt(cached) then 0 else 1)
    ensures forall i :: 0 <= i < |rows| && !IsPair(rows[i], userId, storeId) ==> r[i] == rows[i]
    ensures !TruthyInt(cached) || HasRow(rows, userId, storeId) ==> Rating(userId, storeId, value) in r
    ensures TruthyInt(cached) && !HasRow(rows, userId, storeId) ==> r == rows
    ensures TruthyInt(cached) ==> forall i :: 0 <= i < |rows| && IsPair(rows[i], userId, storeId) ==>
              r[i] == rows[i].(rating := value)
    ensures !TruthyInt(cached) ==> r[..|rows|] == rows && r[|rows|] == Rating(userId, storeId, value)
  {
    if TruthyInt(cached) then
      var r := UpdateWhere(rows, userId, storeId, value);
      assert HasRow(rows, userId, storeId) ==> Rating(userId, storeId, value) in r by {
        if HasRow(rows, userId, storeId) {
          var k :| 0 <= k < |rows| && IsPair(rows[k], userId, storeId);
          assert r[k] == Rating(userId, storeId, value);
        }
      }
      assert !HasRow(rows, userId, storeId) ==> r == rows;
      r
    else rows + [Rating(userId, storeId, value)]
  }

  /** In a table with at most one row per pair, a row of the pair is the only one. */
  lemma RowsForSingle(rows: seq<Rating>, userId: Id, storeId: Id, k: nat)
    requires AtMostOnePerPair(rows) && k < |rows| && IsPair(rows[k], userId, storeId)
    ensures RowsFor(rows, userId, storeId) == [rows[k]]
  {
    var keep := (r: Rating) => IsPair(r, userId, storeId);
    forall j | 0 <= j < |rows| && j != k ensures !keep(rows[j]) {
      if j < k {
        assert !SamePair(rows[j], rows[k]);
      } else {
        assert !SamePair(rows[k], rows[j]);
      }
    }
    SelectOnly(rows, keep, k);
  }

  /**
   * If the table had at most one row per pair and the cached rating agreed
   * with it, a successful submit leaves exactly one row for the pair, holding
   * the submitted value, and keeps every other pair unique.
   */
  lemma UpsertKeepsUnique(rows: seq<Rating>, userId: Id, storeId: Id, value: int, cached: Option<int>)
    requires AtMostOnePerPair(rows) && Agrees(rows, userId, storeId, cached)
    ensures AtMostOnePerPair(Upsert(rows, userId, storeId, value, cached))
    ensures RowsFor(Upsert(rows, userId, storeId, value, cached), userId, storeId) == [Rating(userId, storeId, value)]
  {
    var r := Upsert(rows, userId, storeId, value, cached);
    if TruthyInt(cached) {
      var k :| 0 <= k < |rows| && IsPair(rows[k], userId, storeId);
      assert forall i :: 0 <= i < |rows| ==> SamePair(r[i], rows[i]);
      assert AtMostOnePerPair(r) by {
        forall i, j | 0 <= i < j < |r| ensures !SamePair(r[i], r[j]) {
          assert !SamePair(rows[i], rows[j]);
        }
      }
      assert r[k] == Rating(userId, storeId, value);
      RowsForSingle(r, userId, storeId, k);
    } else {
      assert AtMostOnePerPair(r) by {
        forall i, j | 0 <= i < j < |r| ensures !SamePair(r[i], r[j]) {
          if j == |rows| {
            assert !IsPair(rows[i], userId, storeId);
          } else {
            assert !SamePair(rows[i], rows[j]);
          }
        }
      }
      RowsForSingle(r, userId, storeId, |rows|);
    }
  }

  /** A freshly fetched own rating agrees with the table when no stored value is zero. */
  lemma FetchedRatingAgrees(rows: seq<Rating>, userId: Id, storeId: Id)
    requires NoZeroRatings(rows)
    ensures Agrees(rows, userId, storeId, PairRating(rows, userId, storeId))
  {
    PairRatingIsOwn(rows, userId, storeId);
    var c := PairRating(rows, userId, storeId);
    if c.Some? {
      var x := Rating(userId, storeId, c.value);
      var i :| 0 <= i < |rows| && rows[i] == x;
      assert IsPair(rows[i], userId, storeId);
    }
  }

  /**
   * The table does not enforce uniqueness itself: a stale cache that misses
   * the caller's row makes a submit insert a second row for the pair.
   */
  lemma StaleCacheDuplicates(rows: seq<Rating>, userId: Id, storeId: Id, value: int)
    requires HasRow(rows, userId, storeId)
    ensures !AtMostOnePerPair(Upsert(rows, userId, storeId, value, None))
  {
    var r := Upsert(rows, userId, storeId, value, None);
    var i :| 0 <= i < |rows| && IsPair(rows[i], userId, storeId);
    assert SamePair(r[i], r[|rows|]);
  }

  /** Submitting `values` one after another, each time from a freshly fetched own rating. */
  function SubmitAll(rows: seq<Rating>, userId: Id, storeId: Id, values: seq<int>): seq<Rating>
    decreases |values|
  {
    if values == [] then rows
    else
      var next := Upsert(rows, userId, storeId, values[0], PairRating(rows, userId, storeId));
      SubmitAll(next, userId, storeId, values[1..])
  }

  /**
   * After any nonempty series of submits by one user on one store, starting
   * from a table with at most one row per pair, exactly one row exists for
   * the pair and it holds the last submitted value.
   */
  lemma {:induction false} RepeatedSubmits(rows: seq<Rating>, userId: Id, storeId: Id, values: seq<int>)
    requires AtMostOnePerPair(rows) && NoZeroRatings(rows)
    requires |values| > 0 && forall v :: v in values ==> v != 0
    ensures AtMostOnePerPair(SubmitAll(rows, userId, storeId, values))
    ensures RowsFor(SubmitAll(rows, userId, storeId, values), userId, storeId) ==
              [Rating(userId, storeId, values[|values| - 1])]
    decreases |values|
  {
    var cached := PairRating(rows, userId, storeId);
    FetchedRatingAgrees(rows, userId, storeId);
    UpsertKeepsUnique(rows, userId, storeId, values[0], cached);
    var next := Upsert(rows, userId, storeId, values[0], cached);
    assert values[0] in values;
    assert NoZeroRatings(next) by {
      if TruthyInt(cached) {
        forall x | x in next ensures x.rating != 0 {
          var i :| 0 <= i < |next| && next[i] == x;
          assert rows[i] in rows;
        }
      }
    }
    if |values| > 1 {
      assert forall v :: v in values[1..] ==> v in values;
      RepeatedSubmits(next, userId, storeId, values[1..]);
    }
  }

  /** Rating 3 and then 5 leaves the single row (U, S, 5). */
  lemma RateThenUpdate(rows: seq<Rating>)
    requires AtMostOnePerPair(rows) && NoZeroRatings(rows)
    ensures RowsFor(SubmitAll(rows, "U", "S", [3, 5]), "U", "S") == [Rating("U", "S", 5)]
  {
    RepeatedSubmits(rows, "U", "S", [3, 5]);
  }

  /** A view built by a fetch carries an own rating that agrees with the table it was read from. */
  lemma FetchedViewAgrees(stores: seq<Store>, ratings: seq<Rating>, userId: Id, i: nat)
    requires NoZeroRatings(ratings) && i < |stores|
    ensures var v := StoresWithRatings(stores, ratings, userId)[i];
            Agrees(ratings, userId, v.id, v.userRating)
  {
    FetchedRatingAgrees(ratings, userId, stores[i].id);
  }

  /** The dashboard's state; `db` stands for the hosted tables it reads and writes. */
  class Component {
    const db: Database
    const userId: Id
    var stores: seq<StoreView>
    var loading: bool
    var selectedStore: Option<StoreView>

    /** `stores` holds what a fetch computes from the tables as they are now. */
    ghost predicate UpToDate()
      reads this, db
    {
      stores == StoresWithRatings(db.stores, db.ratings, userId)
    }

    constructor (db: Database, userId: Id)
      ensures this.db == db && this.userId == userId
      ensures stores == [] && loading && selectedStore == None
    {
      this.db := db;
      this.userId := userId;
      stores := [];
      loading := true;
      selectedStore := None;
    }

    /** `fetchStores`: on success `stores` is rebuilt from both tables; either failure keeps it. */
    method FetchStores(storesOk: bool, ratingsOk: bool)
      modifies this`stores, this`loading
      ensures !loading
      ensures stores == if storesOk && ratingsOk then StoresWithRatings(db.stores, db.ratings, userId)
                        else old(stores)
      ensures storesOk && ratingsOk ==> UpToDate()
    {
      loading := true;
      if !storesOk {
        loading := false;
        return;
      }
      if !ratingsOk {
        loading := false;
        return;
      }
      stores := StoresWithRatings(db.stores, db.ratings, userId);
      loading := false;
    }

    /** `handleRateStore`: remember the store whose dialog is opened. */
    method RateStore(store: StoreView)
      modifies this`selectedStore
      ensures selectedStore == Some(store)
    {
      selectedStore := Some(store);
    }

    /**
     * `handleSubmitRating`: nothing without a selected store; otherwise the
     * update-or-insert write, and on its success a re-fetch.
     */
    method SubmitRating(rating: int, writeOk: bool, storesOk: bool, ratingsOk: bool)
      modifies this`stores, this`loading, db`ratings
      ensures selectedStore.None? ==>
                db.ratings == old(db.ratings) && stores == old(stores) && loading == old(loading)
      ensures selectedStore.Some? ==>
                var store := selectedStore.value;
                db.ratings == if writeOk then Upsert(old(db.ratings), userId, store.id, rating, store.userRating)
                              else old(db.ratings)
      ensures selectedStore.Some? && !writeOk ==> stores == old(stores) && loading == old(loading)
      ensures selectedStore.Some? && writeOk ==>
                !loading &&
                stores == if storesOk && ratingsOk then StoresWithRatings(db.stores, db.ratings, userId)
                          else old(stores)
      ensures selectedStore.Some? && writeOk && old(AtMostOnePerPair(db.ratings)) &&
              Agrees(old(db.ratings), userId, selectedStore.value.id, selectedStore.value.userRating) ==>
                AtMostOnePerPair(db.ratings) &&
                RowsFor(db.ratings, userId, selectedStore.value.id) == [Rating(userId, selectedStore.value.id, rating)]
    {
      if selectedStore.None? {
        return;
      }
      var store := selectedStore.value;
      if !writeOk {
        return;
      }
      if AtMostOnePerPair(db.ratings) && Agrees(db.ratings, userId, store.id, store.userRating) {
        UpsertKeepsUnique(db.ratings, userId, store.id, rating, store.userRating);
      }
      db.ratings := Upsert(db.ratings, userId, store.id, rating, store.userRating);
      FetchStores(storesOk, ratingsOk);
    }

    /** `filteredStores` for the current search term. */
    function Visible(term: string): seq<StoreView>
      reads this
    {
      FilterStores(stores, term)
    }
  }
}
