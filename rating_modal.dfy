/**
 * The rating dialog: five star buttons that set `selectedRating` on click
 * and `hoverRating` on hover, a submit button that hands the selection to
 * `onSubmit` only when it is positive, and a cancel path that never does;
 * both paths put the selection back to `currentRating || 0`.
 */
module RatingModal {
  import opened Wrappers
  import opened Seqs

  /** The callbacks one handler invokes: the value passed to `onSubmit`, if any, and whether `onClose` ran. */
  datatype Effects = Effects(submitted: Option<int>, closed: bool)

  /** `currentRating || 0`: the selection the dialog starts from and is reset to. */
  function InitialSelection(currentRating: Option<int>): (r: int)
    ensures TruthyInt(currentRating) ==> r == currentRating.value
    ensures !TruthyInt(currentRating) ==> r == 0
  {
    OrZero(currentRating)
  }

  /** Star `star` is drawn filled: the hovered star wins, otherwise the selection. */
  predicate Highlighted(star: int, hoverRating: int, selectedRating: int)
  {
    hoverRating >= star || (hoverRating == 0 && selectedRating >= star)
  }

  /** The five stars, left to right. */
  function Highlights(hoverRating: int, selectedRating: int): (r: seq<bool>)
    ensures |r| == 5
    ensures forall i :: 0 <= i < 5 ==> r[i] == Highlighted(i + 1, hoverRating, selectedRating)
  {
    seq(5, i => Highlighted(i + 1, hoverRating, selectedRating))
  }

  /** While a star is hovered it alone decides how many stars light up; otherwise the selection does. */
  lemma HighlightCount(hoverRating: int, selectedRating: int)
    ensures CountTrue(Highlights(hoverRating, selectedRating)) ==
            if hoverRating == 0 then Clamp5(selectedRating) else Clamp5(hoverRating)
  {
    var s := Highlights(hoverRating, selectedRating);
    var lit := if hoverRating == 0 then selectedRating else hoverRating;
    assert forall i :: 0 <= i < 5 ==> (s[i] <==> i + 1 <= lit);
    assert s[4..][1..] == [];
    assert CountTrue(s[4..]) == if 5 <= lit then 1 else 0;
    assert CountTrue(s[3..]) == (if 4 <= lit then 1 else 0) + CountTrue(s[4..]);
    assert CountTrue(s[2..]) == (if 3 <= lit then 1 else 0) + CountTrue(s[3..]);
    assert CountTrue(s[1..]) == (if 2 <= lit then 1 else 0) + CountTrue(s[2..]);
  }

  /** The dialog title. */
  function Title(isEditing: bool): (t: string)
    ensures t == "Update Rating" <==> isEditing
    ensures t == "Rate Store" <==> !isEditing
  {
    if isEditing then "Update Rating" else "Rate Store"
  }

  /** The caption of the confirm button. */
  function SubmitCaption(isEditing: bool): (t: string)
    ensures t == "Update Rating" <==> isEditing
    ensures t == "Submit Rating" <==> !isEditing
  {
    if isEditing then "Update Rating" else "Submit Rating"
  }

  /** The confirm button is disabled exactly while nothing is selected. */
  predicate SubmitDisabled(selectedRating: int)
  {
    selectedRating == 0
  }

  /** "1 star selected", "2 stars selected", ...: the unit word under the stars. */
  function UnitWord(selectedRating: int): (w: string)
    ensures w == "star" <==> selectedRating == 1
    ensures w == "stars" <==> selectedRating != 1
  {
    if selectedRating == 1 then "star" else "stars"
  }

  /** The dialog and its two state fields; `currentRating` and `isEditing` are its props. */
  class Component {
    var currentRating: Option<int>
    var isEditing: bool
    var selectedRating: int
    var hoverRating: int

    /** Both state fields and the reset value stay in the range of the five stars. */
    ghost predicate InRange()
      reads this
    {
      0 <= selectedRating <= 5 && 0 <= hoverRating <= 5 && 0 <= InitialSelection(currentRating) <= 5
    }

    /** Mounting: `useState(currentRating || 0)` and `useState(0)`. */
    constructor (currentRating: Option<int>, isEditing: bool)
      ensures this.currentRating == currentRating && this.isEditing == isEditing
      ensures selectedRating == InitialSelection(currentRating) && hoverRating == 0
      ensures 0 <= InitialSelection(currentRating) <= 5 ==> InRange()
    {
      this.currentRating := currentRating;
      this.isEditing := isEditing;
      selectedRating := InitialSelection(currentRating);
      hoverRating := 0;
    }

    /**
     * A re-render with new props, as the dialog is written: the state
     * initialisers do not run again, so the selection is kept.
     */
    method SetProps(currentRating: Option<int>, isEditing: bool)
      modifies this
      ensures this.currentRating == currentRating && this.isEditing == isEditing
      ensures selectedRating == old(selectedRating) && hoverRating == old(hoverRating)
      ensures old(InRange()) && 0 <= InitialSelection(currentRating) <= 5 ==> InRange()
    {
      this.currentRating := currentRating;
      this.isEditing := isEditing;
    }

    /**
     * Opening the dialog for a store with fresh state, as a remount keyed
     * by the store would do: the selection starts from that store's rating.
     */
    method Open(currentRating: Option<int>, isEditing: bool)
      modifies this
      ensures this.currentRating == currentRating && this.isEditing == isEditing
      ensures selectedRating == InitialSelection(currentRating) && hoverRating == 0
      ensures 0 <= InitialSelection(currentRating) <= 5 ==> InRange()
    {
      this.currentRating := currentRating;
      this.isEditing := isEditing;
      selectedRating := InitialSelection(currentRating);
      hoverRating := 0;
    }

    /** Clicking star `star`. */
    method ClickStar(star: int)
      requires 1 <= star <= 5
      modifies this`selectedRating
      ensures selectedRating == star
      ensures old(InRange()) ==> InRange()
    {
      selectedRating := star;
    }

    /** The pointer enters star `star`. */
    method EnterStar(star: int)
      requires 1 <= star <= 5
      modifies this`hoverRating
      ensures hoverRating == star
      ensures old(InRange()) ==> InRange()
    {
      hoverRating := star;
    }

    /** The pointer leaves a star. */
    method LeaveStar()
      modifies this`hoverRating
      ensures hoverRating == 0
      ensures old(InRange()) ==> InRange()
    {
      hoverRating := 0;
    }

    /** `handleSubmit`: submit and close only with a positive selection, then reset. */
    method Submit() returns (e: Effects)
      modifies this`selectedRating, this`hoverRating
      ensures old(selectedRating) > 0 ==>
                e == Effects(Some(old(selectedRating)), true) &&
                selectedRating == InitialSelection(currentRating) && hoverRating == 0
      ensures old(selectedRating) <= 0 ==>
                e == Effects(None, false) &&
                selectedRating == old(selectedRating) && hoverRating == old(hoverRating)
      ensures old(InRange()) ==> InRange()
      ensures old(InRange()) && e.submitted.Some? ==> 1 <= e.submitted.value <= 5
      ensures old(InRange()) ==> (e.submitted.Some? <==> !SubmitDisabled(old(selectedRating)))
    {
      if selectedRating > 0 {
        e := Effects(Some(selectedRating), true);
        selectedRating := InitialSelection(currentRating);
        hoverRating := 0;
      } else {
        e := Effects(None, false);
      }
    }

    /** `handleClose`: close without submitting, then reset. */
    method Close() returns (e: Effects)
      modifies this`selectedRating, this`hoverRating
      ensures e == Effects(None, true)
      ensures selectedRating == InitialSelection(currentRating) && hoverRating == 0
      ensures old(InRange()) ==> InRange()
    {
      e := Effects(None, true);
      selectedRating := InitialSelection(currentRating);
      hoverRating := 0;
    }

    /** The five stars as currently drawn. */
    function Stars(): seq<bool>
      reads this
    {
      Highlights(hoverRating, selectedRating)
    }
  }

  /** Whatever the dialog was opened with, a click on star `star` followed by submit hands exactly `star` to `onSubmit`. */
  method ClickedStarIsSubmitted(currentRating: Option<int>, isEditing: bool, star: int) returns (submitted: Option<int>)
    requires 1 <= star <= 5
    ensures submitted == Some(star)
  {
    var m := new Component(currentRating, isEditing);
    m.ClickStar(star);
    var e := m.Submit();
    submitted := e.submitted;
  }

  /**
   * The dialog as written stays mounted when the user moves from one store
   * to another: after closing it on a store rated 4 and opening it on an
   * unrated store, an immediate submit sends 4 for the unrated store.
   */
  method StaleSelectionAcrossStores() returns (submitted: Option<int>)
    ensures submitted == Some(4)
  {
    var m := new Component(Some(4), true);
    var closed := m.Close();
    m.SetProps(None, false);
    var e := m.Submit();
    submitted := e.submitted;
  }

  /** With the dialog reopened afresh, the same steps submit nothing for the unrated store. */
  method FreshSelectionAcrossStores() returns (submitted: Option<int>)
    ensures submitted == None
  {
    var m := new Component(Some(4), true);
    var closed := m.Close();
    m.Open(None, false);
    var e := m.Submit();
    submitted := e.submitted;
  }

  /** While the confirm button is enabled, pressing it submits the current selection. */
  method EnabledSubmits(m: Component) returns (submitted: Option<int>)
    requires m.InRange() && !SubmitDisabled(m.selectedRating)
    modifies m
    ensures submitted == Some(old(m.selectedRating))
  {
    var e := m.Submit();
    submitted := e.submitted;
  }

  /** After `Open`, an immediate submit sends the store's own rating when it has one, and nothing otherwise. */
  method OpenThenSubmit(currentRating: Option<int>, isEditing: bool) returns (submitted: Option<int>)
    ensures submitted == if InitialSelection(currentRating) > 0 then Some(InitialSelection(currentRating)) else None
  {
    var m := new Component(None, false);
    m.Open(currentRating, isEditing);
    var e := m.Submit();
    submitted := e.submitted;
  }
}
