/**
 * The store card: overall stars, the address, the e-mail for an
 * administrator only, and for everyone else a footer that offers
 * "Modify Rating" when the caller has rated the store and "Submit Rating"
 * otherwise.
 */
module StoreCard {
  import opened Wrappers
  import opened Catalog
  import opened Seqs

  /** The `store` prop. */
  datatype CardStore = CardStore(id: Id, name: string, address: string, email: Option<string>,
                                 averageRating: real, userRating: Option<int>)

  /** The footer of a card that is not an administrator's. */
  datatype Footer =
    | Rated(yourStars: seq<bool>, yourRating: int)
    | Unrated

  /** What a card shows. */
  datatype CardView = CardView(title: string, address: string, email: Option<string>,
                               overallStars: seq<bool>, footer: Option<Footer>)

  /** `renderStars(rating)` for a whole number: star `k` (1..5, at index `k - 1`) is filled when `k <= rating`. */
  function Stars(rating: int): (r: seq<bool>)
    ensures |r| == 5
    ensures forall i :: 0 <= i < 5 ==> (r[i] <==> i + 1 <= rating)
  {
    [1 <= rating, 2 <= rating, 3 <= rating, 4 <= rating, 5 <= rating]
  }

  /** Exactly `min(max(rating, 0), 5)` stars are filled. */
  lemma FilledStars(rating: int)
    ensures CountTrue(Stars(rating)) == Clamp5(rating)
  {
    var s := Stars(rating);
    assert s[4..][1..] == [];
    assert CountTrue(s[4..]) == if 5 <= rating then 1 else 0;
    assert CountTrue(s[3..]) == (if 4 <= rating then 1 else 0) + CountTrue(s[4..]);
    assert CountTrue(s[2..]) == (if 3 <= rating then 1 else 0) + CountTrue(s[3..]);
    assert CountTrue(s[1..]) == (if 2 <= rating then 1 else 0) + CountTrue(s[2..]);
  }

  /** `Math.round(x)` on an exact value: the nearest whole number, halves rounded up. */
  function Round(x: real): (r: int)
    ensures r as real <= x + 0.5 < r as real + 1.0
  {
    (x + 0.5).Floor
  }

  /** Rounding a value between two whole numbers stays between them. */
  lemma RoundWithin(x: real, lo: int, hi: int)
    requires lo as real <= x <= hi as real
    ensures lo <= Round(x) <= hi
  {
  }

  /** The label of the footer's button. */
  function ButtonLabel(f: Footer): (caption: string)
    ensures caption == "Modify Rating" <==> f.Rated?
    ensures caption == "Submit Rating" <==> f.Unrated?
  {
    match f
    case Rated(_, _) => "Modify Rating"
    case Unrated => "Submit Rating"
  }

  /** The card for `store`, as rendered with the `isAdmin` prop. */
  function Render(store: CardStore, isAdmin: bool): (v: CardView)
    ensures v.title == store.name && v.address == store.address
    ensures v.overallStars == Stars(Round(store.averageRating))
    ensures v.email.Some? <==> isAdmin && TruthyString(store.email)
    ensures v.email.Some? ==> v.email == store.email
    ensures v.footer.None? <==> isAdmin
    ensures v.footer.Some? && v.footer.value.Rated? <==>
              !isAdmin && store.userRating.Some? && store.userRating.value > 0
    ensures v.footer.Some? && v.footer.value.Rated? ==>
              v.footer.value == Rated(Stars(store.userRating.value), store.userRating.value)
  {
    var email := if isAdmin && TruthyString(store.email) then store.email else None;
    var footer :=
      if isAdmin then None
      else if store.userRating.Some? && store.userRating.value > 0 then
        Some(Rated(Stars(store.userRating.value), store.userRating.value))
      else Some(Unrated);
    CardView(store.name, store.address, email, Stars(Round(store.averageRating)), footer)
  }

  /** A card offers "Modify Rating" exactly when the caller has a positive rating for the store. */
  lemma ModifyIffRated(store: CardStore)
    ensures var f := Render(store, false).footer;
            f.Some? && (ButtonLabel(f.value) == "Modify Rating" <==> store.userRating.Some? && store.userRating.value > 0)
  {
  }
}
