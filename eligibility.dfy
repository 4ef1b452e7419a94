/** Step 2, the eligibility gate (src/components/EligibilityGate.jsx): a list
    of restricted categories to tick, and a "none of the above" box that
    excludes them. Any ticked category blocks onboarding. */
module EligibilityStep {
  import opened Common
  import opened Onboarding

  const ConfirmError := "Please confirm that none of the above apply to you."

  /** The two pieces of local state the checkboxes drive. */
  datatype Selection = Selection(checkedItems: seq<string>, noneOfAbove: bool)

  /** A category and "none of the above" are never both ticked. */
  predicate Exclusive(s: Selection)
  {
    !(|s.checkedItems| > 0 && s.noneOfAbove)
  }

  /** `handleCheckItem(itemId)`: toggles the category and clears "none of the above". */
  function CheckItem(s: Selection, item: string): (r: Selection)
    ensures !r.noneOfAbove
    ensures item in r.checkedItems <==> item !in s.checkedItems
    ensures forall other :: other != item ==> (other in r.checkedItems <==> other in s.checkedItems)
    ensures item !in s.checkedItems ==> r.checkedItems == s.checkedItems + [item]
    ensures Exclusive(r)
  {
    Selection(Toggle(s.checkedItems, item), false)
  }

  /** `handleNoneOfAbove()`: empties the categories and flips the box. */
  function NoneOfAbove(s: Selection): (r: Selection)
    ensures r.checkedItems == [] && r.noneOfAbove == !s.noneOfAbove
    ensures Exclusive(r)
  {
    Selection([], !s.noneOfAbove)
  }

  /** Ticking "none of the above" twice restores its state and leaves no category ticked. */
  lemma NoneOfAboveTwice(s: Selection)
    ensures NoneOfAbove(NoneOfAbove(s)) == Selection([], s.noneOfAbove)
  {
  }

  /** Ticking the same category twice from a list without it gives the list back. */
  lemma CheckItemTwice(s: Selection, item: string)
    requires item !in s.checkedItems
    ensures CheckItem(CheckItem(s, item), item).checkedItems == s.checkedItems
  {
    var once := s.checkedItems + [item];
    assert CheckItem(s, item).checkedItems == once;
    RemoveAppended(s.checkedItems, item);
  }

  /** Removing an element that was appended to a list without it gives the list back. */
  lemma {:induction false} RemoveAppended(xs: seq<string>, x: string)
    requires x !in xs
    ensures RemoveAll(xs + [x], x) == xs
  {
    if xs == [] {
      assert RemoveAll([x], x) == [] + RemoveAll([x][1..], x);
      assert [x][1..] == [];
    } else {
      assert (xs + [x])[0] == xs[0];
      assert (xs + [x])[1..] == xs[1..] + [x];
      RemoveAppended(xs[1..], x);
      assert xs == [xs[0]] + xs[1..];
    }
  }

  datatype Outcome = Reject | NeedConfirmation | Proceed

  /** The order of `handleContinue`'s checks: any ticked category rejects,
      then "none of the above" must be ticked. */
  function ContinueOutcome(s: Selection): (r: Outcome)
    ensures r == Reject <==> |s.checkedItems| > 0
    ensures r == NeedConfirmation <==> s.checkedItems == [] && !s.noneOfAbove
    ensures r == Proceed <==> s.checkedItems == [] && s.noneOfAbove
  {
    if |s.checkedItems| > 0 then Reject
    else if !s.noneOfAbove then NeedConfirmation
    else Proceed
  }

  /** The one eligibility record the gate ever writes. */
  const Confirmed := Eligibility(true, true, [])

  /** What a successful continue leaves in the store: both writes composed. */
  function AfterContinue(p: Profile): (r: Profile)
    ensures r.eligibility.completed && r.eligibility.checkedItems == []
    ensures r.currentStep == 3
    ensures r == p.(eligibility := Confirmed, currentStep := 3)
  {
    var withEligibility := p.(eligibility := MergeEligibility(p.eligibility,
                               EligibilityUpdate(Some(true), Some(true), Some([]))));
    MergeRoot(withEligibility, StepUpdate(3))
  }

  /** The view sends the user to step 1 when no client type is chosen. */
  predicate Redirects(p: Profile)
  {
    p.clientType.None?
  }

  class Gate {
    var checkedItems: seq<string>
    var noneOfAbove: bool
    var showRejectionModal: bool
    var error: string
    const store: Store

    function Current(): Selection
      reads this
    {
      Selection(checkedItems, noneOfAbove)
    }

    /** The local state starts from the stored eligibility section. */
    constructor (store: Store)
      ensures this.store == store
      ensures checkedItems == store.profile.eligibility.checkedItems
      ensures noneOfAbove == store.profile.eligibility.noneOfAbove
      ensures !showRejectionModal && error == ""
    {
      this.store := store;
      checkedItems := store.profile.eligibility.checkedItems;
      noneOfAbove := store.profile.eligibility.noneOfAbove;
      showRejectionModal := false;
      error := "";
    }

    method HandleCheckItem(item: string)
      modifies this
      ensures Current() == CheckItem(old(Current()), item) && Exclusive(Current())
      ensures error == "" && showRejectionModal == old(showRejectionModal)
    {
      var next := CheckItem(Current(), item);
      checkedItems, noneOfAbove := next.checkedItems, next.noneOfAbove;
      error := "";
    }

    method HandleNoneOfAbove()
      modifies this
      ensures Current() == NoneOfAbove(old(Current())) && Exclusive(Current())
      ensures error == "" && showRejectionModal == old(showRejectionModal)
    {
      var next := NoneOfAbove(Current());
      checkedItems, noneOfAbove := next.checkedItems, next.noneOfAbove;
      error := "";
    }

    /** `handleContinue`: a ticked category opens the rejection modal, an
        unconfirmed form sets the error, and only a confirmed one writes the
        store. */
    method HandleContinue() returns (navigated: bool)
      modifies this, store
      ensures Current() == old(Current())
      ensures var o := ContinueOutcome(old(Current()));
              && navigated == (o == Proceed)
              && (o == Reject ==> showRejectionModal && error == old(error) && store.profile == old(store.profile))
              && (o == NeedConfirmation ==>
                    (error == ConfirmError && showRejectionModal == old(showRejectionModal)
                     && store.profile == old(store.profile)))
              && (o == Proceed ==>
                    (store.profile == AfterContinue(old(store.profile))
                     && error == old(error) && showRejectionModal == old(showRejectionModal)))
    {
      var o := ContinueOutcome(Current());
      if o == Reject {
        showRejectionModal := true;
        return false;
      }
      if o == NeedConfirmation {
        error := ConfirmError;
        return false;
      }
      store.UpdateEligibility(EligibilityUpdate(Some(true), Some(true), Some([])));
      store.UpdateState(StepUpdate(3));
      return true;
    }

    /** The modal's close button. */
    method DismissRejection()
      modifies this
      ensures !showRejectionModal && Current() == old(Current()) && error == old(error)
    {
      showRejectionModal := false;
    }

    /** "Go Back and Review": closes the modal and unticks every category. */
    method GoBackAndReview()
      modifies this
      ensures !showRejectionModal && checkedItems == [] && noneOfAbove == old(noneOfAbove)
      ensures error == old(error) && Exclusive(Current())
    {
      showRejectionModal := false;
      checkedItems := [];
    }

    /** `handleBack`. */
    method HandleBack()
      modifies store
      ensures store.profile == old(store.profile).(currentStep := 1)
    {
      store.UpdateState(StepUpdate(1));
    }
  }
}
