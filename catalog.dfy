/**
 * The three tables the dashboards read and write (`users`, `stores`,
 * `ratings`), as records, and an in-memory stand-in for the hosted database
 * that holds them.
 */
module Catalog {
  import opened Wrappers

  /** Identifiers are opaque strings (UUIDs in the hosted database). */
  type Id = string

  /** A row of `users`; `role` is kept as the string the database returns. */
  datatype User = User(id: Id, name: string, email: string, address: string, role: string)

  /** A row of `stores`; `email` and `owner_id` may be null. */
  datatype Store = Store(id: Id, name: string, email: Option<string>, address: string, ownerId: Option<Id>)

  /** A row of `ratings`: who rated which store, and the value. */
  datatype Rating = Rating(userId: Id, storeId: Id, rating: int)

  /** The tables, read and written in place by the dashboards' handlers. */
  class Database {
    var users: seq<User>
    var stores: seq<Store>
    var ratings: seq<Rating>

    constructor (users: seq<User>, stores: seq<Store>, ratings: seq<Rating>)
      ensures this.users == users && this.stores == stores && this.ratings == ratings
    {
      this.users := users;
      this.stores := stores;
      this.ratings := ratings;
    }
  }
}
