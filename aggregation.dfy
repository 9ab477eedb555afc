/**
 * The per-store rating summary the three dashboards compute in the same way:
 * keep the ratings whose `store_id` is the store's id, and take
 * `sum / count`, or 0 when there are none; and the caller's own rating,
 * found as the first matching row.
 */
module Aggregation {
  import opened Wrappers
  import opened Catalog
  import opened Seqs

  /** The number of ratings in `rs` (`storeRatings.length`). */
  function Count(rs: seq<Rating>): (n: nat)
    ensures n == |rs|
  {
    if rs == [] then 0 else 1 + Count(rs[1..])
  }

  /** `rs.reduce((sum, r) => sum + r.rating, 0)`. */
  function Sum(rs: seq<Rating>): int
  {
    if rs == [] then 0 else rs[0].rating + Sum(rs[1..])
  }

  /** The mean rating, or 0 when there are no ratings. */
  function Average(rs: seq<Rating>): (avg: real)
    ensures Count(rs) == 0 ==> avg == 0.0
    ensures Count(rs) > 0 ==> avg * (Count(rs) as real) == Sum(rs) as real
  {
    if Count(rs) > 0 then Sum(rs) as real / Count(rs) as real else 0.0
  }

  /** `ratings.filter(r => r.store_id === storeId)`. */
  function ForStore(rs: seq<Rating>, storeId: Id): (r: seq<Rating>)
    ensures forall x :: x in r <==> x in rs && x.storeId == storeId
    ensures SubsequenceOf(r, rs)
  {
    Select(rs, (x: Rating) => x.storeId == storeId)
  }

  /** The average shown for one store. */
  function StoreAverage(rs: seq<Rating>, storeId: Id): real
  {
    Average(ForStore(rs, storeId))
  }

  /** Sums add up over concatenation. */
  lemma {:induction false} SumAppend(a: seq<Rating>, b: seq<Rating>)
    ensures Sum(a + b) == Sum(a) + Sum(b)
  {
    if a == [] {
      assert a + b == b;
    } else {
      assert (a + b)[1..] == a[1..] + b;
      SumAppend(a[1..], b);
    }
  }

  /**
   * A new row for a store (the insert of a first rating) extends that
   * store's ratings by the row, adding its value to the sum and one to the count.
   */
  lemma NewRatingExtendsStore(rs: seq<Rating>, x: Rating)
    ensures ForStore(rs + [x], x.storeId) == ForStore(rs, x.storeId) + [x]
    ensures Sum(ForStore(rs + [x], x.storeId)) == Sum(ForStore(rs, x.storeId)) + x.rating
    ensures Count(ForStore(rs + [x], x.storeId)) == Count(ForStore(rs, x.storeId)) + 1
  {
    var keep := (y: Rating) => y.storeId == x.storeId;
    SelectAppend(rs, [x], keep);
    assert [x][1..] == [];
    assert Select([x], keep) == [x];
    SumAppend(ForStore(rs, x.storeId), [x]);
  }

  /** Every rating value in `rs` lies in `lo..hi`. */
  predicate AllWithin(rs: seq<Rating>, lo: int, hi: int)
  {
    forall x :: x in rs ==> lo <= x.rating <= hi
  }

  /** With every value in `lo..hi`, the sum lies between `lo` and `hi` times the count. */
  lemma {:induction false} SumBounds(rs: seq<Rating>, lo: int, hi: int)
    requires AllWithin(rs, lo, hi)
    ensures lo * |rs| <= Sum(rs) <= hi * |rs|
  {
    if rs != [] {
      assert rs[0] in rs;
      assert AllWithin(rs[1..], lo, hi) by {
        forall x | x in rs[1..] ensures lo <= x.rating <= hi {
          assert x in rs;
        }
      }
      SumBounds(rs[1..], lo, hi);
      MulSucc(lo, |rs[1..]|);
      MulSucc(hi, |rs[1..]|);
    }
  }

  lemma MulSucc(a: int, n: nat)
    ensures a * (n + 1) == a * n + a
  {
  }

  /** With every value in `lo..hi` and at least one rating, the average lies in `lo..hi`. */
  lemma AverageBounds(rs: seq<Rating>, lo: int, hi: int)
    requires |rs| > 0 && AllWithin(rs, lo, hi)
    ensures lo as real <= Average(rs) <= hi as real
  {
    SumBounds(rs, lo, hi);
    var n := |rs| as real;
    var avg := Average(rs);
    assert avg * n == Sum(rs) as real;
    assert (lo as real) * n <= avg * n;
    assert avg * n <= (hi as real) * n;
  }

  /** A store's summary looks only at that store's ratings: rows of other stores never change it. */
  lemma OtherStoresIgnored(rs: seq<Rating>, other: seq<Rating>, storeId: Id)
    requires forall x :: x in other ==> x.storeId != storeId
    ensures ForStore(rs + other, storeId) == ForStore(rs, storeId)
    ensures StoreAverage(rs + other, storeId) == StoreAverage(rs, storeId)
  {
    var keep := (x: Rating) => x.storeId == storeId;
    SelectAppend(rs, other, keep);
    SelectNone(other, keep);
    assert ForStore(rs, storeId) + [] == ForStore(rs, storeId);
  }

  /**
   * `rs.find(r => r.user_id === userId)?.rating`: the value of the first
   * row by `userId`, or `None` when there is none.
   */
  function FirstRatingBy(rs: seq<Rating>, userId: Id): (r: Option<int>)
    ensures r.None? <==> forall i :: 0 <= i < |rs| ==> rs[i].userId != userId
    ensures r.Some? ==> exists i :: 0 <= i < |rs| && rs[i].userId == userId && rs[i].rating == r.value &&
                                    forall j :: 0 <= j < i ==> rs[j].userId != userId
  {
    if rs == [] then None
    else if rs[0].userId == userId then Some(rs[0].rating)
    else
      var r := FirstRatingBy(rs[1..], userId);
      assert r.Some? ==> exists i :: 0 <= i < |rs[1..]| && rs[1..][i].userId == userId && rs[1..][i].rating == r.value &&
                                     forall j :: 0 <= j < i ==> rs[1..][j].userId != userId;
      if r.Some? then
        var i :| 0 <= i < |rs[1..]| && rs[1..][i].userId == userId && rs[1..][i].rating == r.value &&
                 forall j :: 0 <= j < i ==> rs[1..][j].userId != userId;
        assert forall j :: 0 <= j < i + 1 ==> rs[j].userId != userId by {
          forall j | 0 <= j < i + 1 ensures rs[j].userId != userId {
            if j > 0 { assert rs[j] == rs[1..][j - 1]; }
          }
        }
        r
      else r
  }

  /**
   * The three ratings 5, 3 and 4 from different users average to exactly 4,
   * with a count of 3.
   */
  lemma ThreeRatingsAverageFour()
    ensures var rs := [Rating("u1", "A", 5), Rating("u2", "A", 3), Rating("u3", "A", 4)];
            Count(ForStore(rs, "A")) == 3 && StoreAverage(rs, "A") == 4.0
  {
    var rs := [Rating("u1", "A", 5), Rating("u2", "A", 3), Rating("u3", "A", 4)];
    SelectAll(rs, (x: Rating) => x.storeId == "A");
    assert ForStore(rs, "A") == rs;
    assert rs[1..][1..][1..] == [];
    assert Sum(rs[1..][1..]) == 4;
    assert Sum(rs[1..]) == 7;
    assert Sum(rs) == 12;
  }
}
