/**
 * The administrator's dashboard: all users and stores, each store with its
 * average rating, the three totals and the list of owners; searches over
 * users and stores; and the two forms, which validate their fields before
 * signing a user up or inserting a store.
 */
module AdminDashboard {
  import opened Wrappers
  import opened Text
  import opened Seqs
  import opened Catalog
  import opened Aggregation
  import StoreCard

  /** `{ ...store, averageRating }`: the store row, every field kept, with its average. */
  datatype RatedStore = RatedStore(store: Store, averageRating: real)

  datatype Stats = Stats(totalUsers: nat, totalStores: nat, totalRatings: nat)

  /** The add-user form. */
  datatype NewUser = NewUser(name: string, email: string, address: string, password: string, role: string)

  /** The add-store form; an owner of `""` means "No Owner". */
  datatype NewStore = NewStore(name: string, email: string, address: string, ownerId: string)

  /** The form fields, in the order the schemas list them. */
  datatype Field = Name | Email | Address | Password | Role

  const BlankUser := NewUser("", "", "", "", "user")
  const BlankStore := NewStore("", "", "", "")

  /** `storesWithRatings`: the stores in order, each with the mean of its own ratings (0 with none). */
  function StoresWithRatings(stores: seq<Store>, ratings: seq<Rating>): (r: seq<RatedStore>)
    ensures |r| == |stores|
    ensures forall i :: 0 <= i < |r| ==> r[i].store == stores[i]
    ensures forall i :: 0 <= i < |r| ==>
              var mine := ForStore(ratings, stores[i].id);
              r[i].averageRating == (if |mine| > 0 then Sum(mine) as real / |mine| as real else 0.0)
  {
    if stores == [] then []
    else [RatedStore(stores[0], StoreAverage(ratings, stores[0].id))] + StoresWithRatings(stores[1..], ratings)
  }

  /** When every value is in 1..5, every store that has ratings averages between 1 and 5. */
  lemma AveragesWithinStars(stores: seq<Store>, ratings: seq<Rating>, i: nat)
    requires AllWithin(ratings, 1, 5) && i < |stores|
    ensures var mine := ForStore(ratings, stores[i].id);
            var avg := StoresWithRatings(stores, ratings)[i].averageRating;
            (|mine| == 0 ==> avg == 0.0) && (|mine| > 0 ==> 1.0 <= avg <= 5.0)
  {
    var mine := ForStore(ratings, stores[i].id);
    if |mine| > 0 {
      AverageBounds(mine, 1, 5);
    }
  }

  /** The three totals. */
  function StatsOf(users: seq<User>, stores: seq<Store>, ratings: seq<Rating>): Stats
  {
    Stats(|users|, |stores|, |ratings|)
  }

  /** `users.filter(u => u.role === 'owner')`: the owners, in order. */
  function Owners(users: seq<User>): (r: seq<User>)
    ensures forall u :: u in r <==> u in users && u.role == "owner"
    ensures SubsequenceOf(r, users)
  {
    Select(users, (u: User) => u.role == "owner")
  }

  /** The user search: the lower-cased term occurs in the lower-cased name, e-mail, address or role. */
  predicate UserMatches(u: User, term: string)
  {
    var t := Lower(term);
    Includes(Lower(u.name), t) || Includes(Lower(u.email), t) ||
    Includes(Lower(u.address), t) || Includes(Lower(u.role), t)
  }

  /** `filterUsers`: the matching users, in order. */
  function FilterUsers(users: seq<User>, term: string): (r: seq<User>)
    ensures forall u :: u in r <==> u in users && UserMatches(u, term)
    ensures SubsequenceOf(r, users)
  {
    Select(users, (u: User) => UserMatches(u, term))
  }

  /** An empty search term keeps every user. */
  lemma EmptyTermKeepsAllUsers(users: seq<User>)
    ensures FilterUsers(users, "") == users
  {
    forall u | u in users ensures UserMatches(u, "") {
      IncludesEmpty(Lower(u.name));
    }
    SelectAll(users, (u: User) => UserMatches(u, ""));
  }

  /** The store search: name or address, or the e-mail when it is present (a nonempty string). */
  predicate StoreMatches(s: RatedStore, term: string)
  {
    var t := Lower(term);
    Includes(Lower(s.store.name), t) || Includes(Lower(s.store.address), t) ||
    (TruthyString(s.store.email) && Includes(Lower(s.store.email.value), t))
  }

  /** `filterStores`: the matching stores, in order. */
  function FilterStores(stores: seq<RatedStore>, term: string): (r: seq<RatedStore>)
    ensures forall s :: s in r <==> s in stores && StoreMatches(s, term)
    ensures SubsequenceOf(r, stores)
  {
    Select(stores, (s: RatedStore) => StoreMatches(s, term))
  }

  /** A store without an e-mail is found only through its name or address. */
  lemma NoEmailMatchesByNameOrAddress(stores: seq<RatedStore>, term: string, s: RatedStore)
    requires s.store.email.None?
    ensures s in FilterStores(stores, term) <==>
              s in stores && (Includes(Lower(s.store.name), Lower(term)) || Includes(Lower(s.store.address), Lower(term)))
  {
  }

  /** The card each store is shown with on this dashboard. */
  function Card(s: RatedStore): (v: StoreCard.CardView)
    ensures v.footer.None?
    ensures v.email.Some? <==> TruthyString(s.store.email)
    ensures v.title == s.store.name && v.address == s.store.address
    ensures v.overallStars == StoreCard.Stars(StoreCard.Round(s.averageRating))
  {
    StoreCard.Render(StoreCard.CardStore(s.store.id, s.store.name, s.store.address, s.store.email,
                                         s.averageRating, None), true)
  }

  /**
   * With every stored value in 1..5, the card of a store that has ratings
   * fills between one and five stars: the rounded average.
   */
  lemma RatedCardFillsRoundedAverage(stores: seq<Store>, ratings: seq<Rating>, i: nat)
    requires AllWithin(ratings, 1, 5) && i < |stores| && |ForStore(ratings, stores[i].id)| > 0
    ensures var s := StoresWithRatings(stores, ratings)[i];
            var n := StoreCard.Round(s.averageRating);
            1 <= n <= 5 && CountTrue(Card(s).overallStars) == n
  {
    var s := StoresWithRatings(stores, ratings)[i];
    AveragesWithinStars(stores, ratings, i);
    StoreCard.RoundWithin(s.averageRating, 1, 5);
    StoreCard.FilledStars(StoreCard.Round(s.averageRating));
  }

  // ---- Form validation ----

  /** The characters the password must contain one of. */
  const Specials: string := "!@#$%^&*(),.?\":{}|<>"

  predicate HasUpper(p: string)
  {
    exists i :: 0 <= i < |p| && IsUpperAscii(p[i])
  }

  predicate HasSpecial(p: string)
  {
    exists i :: 0 <= i < |p| && p[i] in Specials
  }

  predicate UserFieldOk(u: NewUser, f: Field, isEmail: string -> bool)
  {
    match f
    case Name => 20 <= |Trim(u.name)| <= 60
    case Email => isEmail(Trim(u.email))
    case Address => |Trim(u.address)| <= 400
    case Password => 8 <= |u.password| <= 16 && HasUpper(u.password) && HasSpecial(u.password)
    case Role => u.role in {"admin", "user", "owner"}
  }

  /** The five fields are all there are. */
  lemma AllUserFields(u: NewUser, isEmail: string -> bool)
    requires UserFieldOk(u, Name, isEmail) && UserFieldOk(u, Email, isEmail) && UserFieldOk(u, Address, isEmail)
    requires UserFieldOk(u, Password, isEmail) && UserFieldOk(u, Role, isEmail)
    ensures forall f :: UserFieldOk(u, f, isEmail)
  {
    forall f ensures UserFieldOk(u, f, isEmail) {
      match f
      case Name =>
      case Email =>
      case Address =>
      case Password =>
      case Role =>
    }
  }

  /**
   * `userSchema.safeParse(newUser)`: the first field, in schema order,
   * that fails, or none when the form is valid; `isEmail` is the e-mail
   * shape check.
   */
  function UserIssue(u: NewUser, isEmail: string -> bool): (r: Option<Field>)
    ensures r.None? <==> forall f :: UserFieldOk(u, f, isEmail)
    ensures r.Some? ==> !UserFieldOk(u, r.value, isEmail)
    ensures r == Some(Email) ==> UserFieldOk(u, Name, isEmail)
    ensures r == Some(Address) ==> UserFieldOk(u, Name, isEmail) && UserFieldOk(u, Email, isEmail)
    ensures r == Some(Password) ==>
              UserFieldOk(u, Name, isEmail) && UserFieldOk(u, Email, isEmail) && UserFieldOk(u, Address, isEmail)
    ensures r == Some(Role) ==>
              UserFieldOk(u, Name, isEmail) && UserFieldOk(u, Email, isEmail) &&
              UserFieldOk(u, Address, isEmail) && UserFieldOk(u, Password, isEmail)
  {
    if !UserFieldOk(u, Name, isEmail) then Some(Name)
    else if !UserFieldOk(u, Email, isEmail) then Some(Email)
    else if !UserFieldOk(u, Address, isEmail) then Some(Address)
    else if !UserFieldOk(u, Password, isEmail) then Some(Password)
    else if !UserFieldOk(u, Role, isEmail) then Some(Role)
    else
      AllUserFields(u, isEmail);
      None
  }

  predicate StoreFieldOk(s: NewStore, f: Field, isEmail: string -> bool)
  {
    match f
    case Name => |Trim(s.name)| >= 1
    case Email => isEmail(Trim(s.email))
    case Address => |Trim(s.address)| >= 1
    case Password => true
    case Role => true
  }

  lemma AllStoreFields(s: NewStore, isEmail: string -> bool)
    requires StoreFieldOk(s, Name, isEmail) && StoreFieldOk(s, Email, isEmail) && StoreFieldOk(s, Address, isEmail)
    ensures forall f :: StoreFieldOk(s, f, isEmail)
  {
    forall f ensures StoreFieldOk(s, f, isEmail) {
      match f
      case Name =>
      case Email =>
      case Address =>
      case Password =>
      case Role =>
    }
  }

  /** `storeSchema.safeParse(newStore)`: the first failing field of name, e-mail and address, or none. */
  function StoreIssue(s: NewStore, isEmail: string -> bool): (r: Option<Field>)
    ensures r.None? <==> forall f :: StoreFieldOk(s, f, isEmail)
    ensures r.Some? ==> !StoreFieldOk(s, r.value, isEmail) && r.value in {Name, Email, Address}
    ensures r == Some(Email) ==> StoreFieldOk(s, Name, isEmail)
    ensures r == Some(Address) ==> StoreFieldOk(s, Name, isEmail) && StoreFieldOk(s, Email, isEmail)
  {
    if !StoreFieldOk(s, Name, isEmail) then Some(Name)
    else if !StoreFieldOk(s, Email, isEmail) then Some(Email)
    else if !StoreFieldOk(s, Address, isEmail) then Some(Address)
    else
      AllStoreFields(s, isEmail);
      None
  }

  /** A store passes validation exactly when its trimmed name and address are nonempty and its e-mail has the right shape. */
  lemma StoreValidIff(s: NewStore, isEmail: string -> bool)
    ensures StoreIssue(s, isEmail).None? <==>
              Trim(s.name) != "" && Trim(s.address) != "" && isEmail(Trim(s.email))
  {
    if Trim(s.name) != "" && Trim(s.address) != "" && isEmail(Trim(s.email)) {
      assert StoreFieldOk(s, Name, isEmail) && StoreFieldOk(s, Email, isEmail) && StoreFieldOk(s, Address, isEmail);
    }
  }

  /** `owner_id || null`: the empty choice is stored as null, any other id as it is. */
  function NormalizeOwner(ownerId: string): (r: Option<Id>)
    ensures r.None? <==> ownerId == ""
    ensures r.Some? ==> r.value == ownerId
  {
    if ownerId == "" then None else Some(ownerId)
  }

  /** The row `handleAddStore` inserts: the form's fields as entered, with the owner normalised. */
  function StoreRow(id: Id, s: NewStore): Store
  {
    Store(id, s.name, Some(s.email), s.address, NormalizeOwner(s.ownerId))
  }

  /** The dashboard's state; `db` stands for the hosted tables. */
  class Component {
    const db: Database
    var stats: Stats
    var users: seq<User>
    var stores: seq<RatedStore>
    var owners: seq<User>
    var loading: bool
    var newUser: NewUser
    var newStore: NewStore

    /** The lists and totals are what a fetch computes from the tables as they are now. */
    ghost predicate ShowsTables()
      reads this, db
    {
      users == db.users && stores == StoresWithRatings(db.stores, db.ratings) &&
      owners == Owners(db.users) && stats == StatsOf(db.users, db.stores, db.ratings)
    }

    constructor (db: Database)
      ensures this.db == db
      ensures stats == Stats(0, 0, 0) && users == [] && stores == [] && owners == [] && loading
      ensures newUser == BlankUser && newStore == BlankStore
    {
      this.db := db;
      stats := Stats(0, 0, 0);
      users := [];
      stores := [];
      owners := [];
      loading := true;
      newUser := BlankUser;
      newStore := BlankStore;
    }

    /** `fetchData`: all three reads must succeed for anything but `loading` to change. */
    method FetchData(usersOk: bool, storesOk: bool, ratingsOk: bool)
      modifies this`stats, this`users, this`stores, this`owners, this`loading
      ensures !loading
      ensures usersOk && storesOk && ratingsOk ==> ShowsTables()
      ensures !(usersOk && storesOk && ratingsOk) ==>
                stats == old(stats) && users == old(users) && stores == old(stores) && owners == old(owners)
    {
      loading := true;
      if !usersOk || !storesOk || !ratingsOk {
        loading := false;
        return;
      }
      var rated := StoresWithRatings(db.stores, db.ratings);
      users := db.users;
      stores := rated;
      owners := Owners(db.users);
      stats := StatsOf(db.users, db.stores, db.ratings);
      loading := false;
    }

    /** Typing in the add-user form. */
    method EditNewUser(u: NewUser)
      modifies this`newUser
      ensures newUser == u
    {
      newUser := u;
    }

    /** Typing in the add-store form. */
    method EditNewStore(s: NewStore)
      modifies this`newStore
      ensures newStore == s
    {
      newStore := s;
    }

    /**
     * `handleAddUser`: sign-up is attempted only for a valid form; after a
     * successful sign-up the form is cleared and the data re-fetched.
     */
    method AddUser(isEmail: string -> bool, signUpOk: bool, usersOk: bool, storesOk: bool, ratingsOk: bool)
      returns (signUpCalled: bool)
      modifies this`stats, this`users, this`stores, this`owners, this`loading, this`newUser
      ensures signUpCalled <==> UserIssue(old(newUser), isEmail).None?
      ensures !(signUpCalled && signUpOk) ==>
                stats == old(stats) && users == old(users) && stores == old(stores) &&
                owners == old(owners) && loading == old(loading) && newUser == old(newUser)
      ensures signUpCalled && signUpOk ==> newUser == BlankUser && !loading
      ensures signUpCalled && signUpOk && usersOk && storesOk && ratingsOk ==> ShowsTables()
      ensures signUpCalled && signUpOk && !(usersOk && storesOk && ratingsOk) ==>
                stats == old(stats) && users == old(users) && stores == old(stores) && owners == old(owners)
    {
      if UserIssue(newUser, isEmail).Some? {
        return false;
      }
      signUpCalled := true;
      if !signUpOk {
        return;
      }
      newUser := BlankUser;
      FetchData(usersOk, storesOk, ratingsOk);
    }

    /**
     * `handleAddStore`: a valid form is inserted as a new row with id
     * `newId` (chosen by the database); after a successful insert the form
     * is cleared and the data re-fetched.
     */
    method AddStore(isEmail: string -> bool, newId: Id, insertOk: bool, usersOk: bool, storesOk: bool, ratingsOk: bool)
      returns (inserted: bool)
      modifies this`stats, this`users, this`stores, this`owners, this`loading, this`newStore, db`stores
      ensures inserted <==> StoreIssue(old(newStore), isEmail).None? && insertOk
      ensures db.stores == if inserted then old(db.stores) + [StoreRow(newId, old(newStore))] else old(db.stores)
      ensures !inserted ==>
                stats == old(stats) && users == old(users) && stores == old(stores) &&
                owners == old(owners) && loading == old(loading) && newStore == old(newStore)
      ensures inserted ==> newStore == BlankStore && !loading
      ensures inserted && usersOk && storesOk && ratingsOk ==> ShowsTables()
      ensures inserted && !(usersOk && storesOk && ratingsOk) ==>
                stats == old(stats) && users == old(users) && stores == old(stores) && owners == old(owners)
    {
      if StoreIssue(newStore, isEmail).Some? {
        return false;
      }
      if !insertOk {
        return false;
      }
      db.stores := db.stores + [StoreRow(newId, newStore)];
      inserted := true;
      newStore := BlankStore;
      FetchData(usersOk, storesOk, ratingsOk);
    }

    /** `filteredUsers` for a search term. */
    function VisibleUsers(term: string): seq<User>
      reads this
    {
      FilterUsers(users, term)
    }

    /** `filteredStores` for a search term. */
    function VisibleStores(term: string): seq<RatedStore>
      reads this
    {
      FilterStores(stores, term)
    }
  }
}
