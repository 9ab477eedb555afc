/**
 * The store owner's dashboard: the single store whose `owner_id` is the
 * caller, that store's ratings joined with their authors' name and e-mail,
 * and their average; with an explicit "no store assigned" state when the
 * lookup does not yield exactly one store.
 */
module OwnerDashboard {
  import opened Wrappers
  import opened Seqs
  import opened Catalog
  import opened Aggregation
  import StoreCard

  /** The `users (name, email)` embedded in a rating row. */
  datatype Customer = Customer(name: string, email: string)

  /** A row of the customer table: the rating and its author, if the author row exists. */
  datatype RatingRow = RatingRow(rating: Rating, customer: Option<Customer>)

  /** What the dashboard renders. */
  datatype Screen =
    | Spinner
    | NoStore
    | StorePage(store: Store, averageRating: real, rows: seq<RatingRow>)

  predicate OwnedBy(s: Store, ownerId: Id)
  {
    s.ownerId == Some(ownerId)
  }

  /**
   * `from('stores').select('*').eq('owner_id', ownerId).single()`: the one
   * store owned by `ownerId`; none (the query fails) when there are zero or
   * several.
   */
  function StoreOfOwner(stores: seq<Store>, ownerId: Id): (r: Option<Store>)
    ensures r.Some? <==> |Select(stores, (s: Store) => OwnedBy(s, ownerId))| == 1
    ensures r.Some? ==> r.value in stores && OwnedBy(r.value, ownerId)
    ensures r.Some? ==> forall s :: s in stores && OwnedBy(s, ownerId) ==> s == r.value
  {
    var mine := Select(stores, (s: Store) => OwnedBy(s, ownerId));
    if |mine| == 1 then
      assert mine == [mine[0]];
      assert forall s :: s in mine ==> s == mine[0];
      Some(mine[0])
    else None
  }

  /** The author of a rating: the user row with that id, if any. */
  function CustomerOf(users: seq<User>, id: Id): (c: Option<Customer>)
    ensures c.Some? ==> exists u :: u in users && u.id == id && c.value == Customer(u.name, u.email)
    ensures c.None? <==> forall u :: u in users ==> u.id != id
  {
    if users == [] then None
    else if users[0].id == id then Some(Customer(users[0].name, users[0].email))
    else
      var c := CustomerOf(users[1..], id);
      assert forall u :: u in users[1..] ==> u in users;
      assert users == [users[0]] + users[1..];
      c
  }

  /** Each rating joined with its author. */
  function Join(rs: seq<Rating>, users: seq<User>): (r: seq<RatingRow>)
    ensures |r| == |rs|
    ensures forall i :: 0 <= i < |r| ==> r[i].rating == rs[i] && r[i].customer == CustomerOf(users, rs[i].userId)
  {
    if rs == [] then []
    else [RatingRow(rs[0], CustomerOf(users, rs[0].userId))] + Join(rs[1..], users)
  }

  /** The ratings behind a list of rows. */
  function RatingsOf(rows: seq<RatingRow>): (r: seq<Rating>)
    ensures |r| == |rows|
    ensures forall i :: 0 <= i < |r| ==> r[i] == rows[i].rating
  {
    if rows == [] then [] else [rows[0].rating] + RatingsOf(rows[1..])
  }

  /** `from('ratings').select('*, users (name, email)').eq('store_id', storeId)`. */
  function RowsOfStore(ratings: seq<Rating>, users: seq<User>, storeId: Id): seq<RatingRow>
  {
    Join(ForStore(ratings, storeId), users)
  }

  /**
   * The rows shown are exactly that store's ratings, in table order, each
   * joined with its own author; no rating of another store appears, so no
   * other store's customer is ever exposed.
   */
  lemma RowsAreThatStoresOnly(ratings: seq<Rating>, users: seq<User>, storeId: Id)
    ensures RatingsOf(RowsOfStore(ratings, users, storeId)) == ForStore(ratings, storeId)
    ensures forall row :: row in RowsOfStore(ratings, users, storeId) ==>
              row.rating in ratings && row.rating.storeId == storeId &&
              row.customer == CustomerOf(users, row.rating.userId)
    ensures forall x :: x in ratings && x.storeId == storeId ==>
              exists row :: row in RowsOfStore(ratings, users, storeId) && row.rating == x
  {
    var rows := RowsOfStore(ratings, users, storeId);
    var mine := ForStore(ratings, storeId);
    assert RatingsOf(rows) == mine;
    forall x | x in ratings && x.storeId == storeId
      ensures exists row :: row in rows && row.rating == x
    {
      var i :| 0 <= i < |mine| && mine[i] == x;
      assert rows[i] in rows;
    }
  }

  /** The name column: the author's name, or "Unknown" when missing or empty. */
  function ShownName(row: RatingRow): (s: string)
    ensures s == "Unknown" <==> row.customer.None? || row.customer.value.name in {"", "Unknown"}
    ensures s != "Unknown" ==> row.customer.Some? && s == row.customer.value.name
  {
    if row.customer.Some? && row.customer.value.name != "" then row.customer.value.name else "Unknown"
  }

  /** The e-mail column: the author's e-mail, or "N/A" when missing or empty. */
  function ShownEmail(row: RatingRow): (s: string)
    ensures s == "N/A" <==> row.customer.None? || row.customer.value.email in {"", "N/A"}
    ensures s != "N/A" ==> row.customer.Some? && s == row.customer.value.email
  {
    if row.customer.Some? && row.customer.value.email != "" then row.customer.value.email else "N/A"
  }

  /** "Based on 1 rating", "Based on 2 ratings", ... */
  function RatingsWord(count: int): (w: string)
    ensures w == "rating" <==> count == 1
    ensures w == "ratings" <==> count != 1
  {
    if count == 1 then "rating" else "ratings"
  }

  /** The five stars next to a rating value. */
  function RowStars(row: RatingRow): (r: seq<bool>)
    ensures |r| == 5
    ensures forall i :: 0 <= i < 5 ==> (r[i] <==> i + 1 <= row.rating.rating)
  {
    StoreCard.Stars(row.rating.rating)
  }

  /** The render branches: the spinner while loading, then "no store", then the store page. */
  function Render(loading: bool, store: Option<Store>, averageRating: real, rows: seq<RatingRow>): (s: Screen)
    ensures s.Spinner? <==> loading
    ensures s.NoStore? <==> !loading && store.None?
    ensures s.StorePage? ==> s == StorePage(store.value, averageRating, rows)
  {
    if loading then Spinner
    else if store.None? then NoStore
    else StorePage(store.value, averageRating, rows)
  }

  /** The dashboard's state; `db` stands for the hosted tables. */
  class Component {
    const db: Database
    const userId: Id
    var store: Option<Store>
    var averageRating: real
    var ratings: seq<RatingRow>
    var loading: bool

    /** The average on screen is the mean of the rating rows on screen (0 with none). */
    ghost predicate Consistent()
      reads this
    {
      averageRating == Average(RatingsOf(ratings))
    }

    constructor (db: Database, userId: Id)
      ensures this.db == db && this.userId == userId
      ensures store == None && averageRating == 0.0 && ratings == [] && loading
      ensures Consistent()
    {
      this.db := db;
      this.userId := userId;
      store := None;
      averageRating := 0.0;
      ratings := [];
      loading := true;
    }

    /**
     * `fetchStoreData`: a failed store lookup changes nothing but `loading`;
     * after a successful one `store` is set, and only a successful ratings
     * query replaces `ratings` and `averageRating`.
     */
    method FetchStoreData(storeQueryOk: bool, ratingsQueryOk: bool)
      modifies this`store, this`averageRating, this`ratings, this`loading
      ensures !loading
      ensures var found := if storeQueryOk then StoreOfOwner(db.stores, userId) else None;
              (found.None? ==>
                 store == old(store) && ratings == old(ratings) && averageRating == old(averageRating)) &&
              (found.Some? ==> store == found) &&
              (found.Some? && ratingsQueryOk ==>
                 ratings == RowsOfStore(db.ratings, db.users, found.value.id) &&
                 averageRating == StoreAverage(db.ratings, found.value.id)) &&
              (found.Some? && !ratingsQueryOk ==>
                 ratings == old(ratings) && averageRating == old(averageRating))
      ensures old(Consistent()) ==> Consistent()
    {
      loading := true;
      var found := if storeQueryOk then StoreOfOwner(db.stores, userId) else None;
      if found.None? {
        loading := false;
        return;
      }
      store := found;
      if !ratingsQueryOk {
        loading := false;
        return;
      }
      var rows := RowsOfStore(db.ratings, db.users, found.value.id);
      RowsAreThatStoresOnly(db.ratings, db.users, found.value.id);
      averageRating := Average(RatingsOf(rows));
      ratings := rows;
      loading := false;
    }

    function Screen(): Screen
      reads this
    {
      Render(loading, store, averageRating, ratings)
    }
  }

  /** On a fresh dashboard, any failure of the store lookup ends in the "no store assigned" screen. */
  method FailedLookupShowsNoStore(db: Database, userId: Id, storeQueryOk: bool, ratingsQueryOk: bool)
    returns (s: Screen)
    requires !storeQueryOk || StoreOfOwner(db.stores, userId).None?
    ensures s == NoStore
  {
    var c := new Component(db, userId);
    c.FetchStoreData(storeQueryOk, ratingsQueryOk);
    s := c.Screen();
  }

  /** On a fresh dashboard whose lookup and ratings query succeed, the page shows that store, its rows and their mean. */
  method LoadedPageShowsOwnStore(db: Database, userId: Id) returns (s: Screen)
    requires StoreOfOwner(db.stores, userId).Some?
    ensures var st := StoreOfOwner(db.stores, userId).value;
            s == StorePage(st, StoreAverage(db.ratings, st.id), RowsOfStore(db.ratings, db.users, st.id))
    ensures s.StorePage? ==> s.store.ownerId == Some(userId) &&
                             forall row :: row in s.rows ==> row.rating.storeId == s.store.id
  {
    var c := new Component(db, userId);
    c.FetchStoreData(true, true);
    s := c.Screen();
    RowsAreThatStoresOnly(db.ratings, db.users, s.store.id);
  }
}
