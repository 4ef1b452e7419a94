/** Step 5, beneficial ownership (src/components/UboForm.jsx): the owner
    cards, the ownership total, the individual's pre-fill and the per-owner
    phone verification. */
module UboStep {
  import opened Common
  import opened Onboarding

  /** `ownerSchema`: names and a valid e-mail, and a percentage in [0, 100]
      (an empty percentage is not a number and fails). */
  predicate OwnerValid(o: Owner, isEmail: string -> bool)
  {
    && Required(o.firstName)
    && Required(o.lastName)
    && Required(o.email) && isEmail(o.email)
    && o.ownershipPercentage.Pct?
    && 0 <= o.ownershipPercentage.n <= 100
  }

  /** `uboSchema`: every owner valid, and the certification ticked. */
  predicate UboValid(owners: seq<Owner>, certified: bool, isEmail: string -> bool)
  {
    (forall i :: 0 <= i < |owners| ==> OwnerValid(owners[i], isEmail)) && certified
  }

  /** `parseFloat(owner.ownershipPercentage) || 0`. */
  function PercentValue(p: Percentage): (r: int)
    ensures p.Blank? ==> r == 0
    ensures p.Pct? ==> r == p.n
  {
    match p
    case Blank => 0
    case Pct(n) => n
  }

  /** `getTotalOwnership(owners)`: the `reduce` from the left. */
  function TotalOwnership(owners: seq<Owner>): int
  {
    if owners == [] then 0
    else TotalOwnership(owners[..|owners| - 1]) + PercentValue(owners[|owners| - 1].ownershipPercentage)
  }

  /** The total of a list split in two is the sum of the parts' totals. */
  lemma {:induction false} TotalAppend(a: seq<Owner>, b: seq<Owner>)
    ensures TotalOwnership(a + b) == TotalOwnership(a) + TotalOwnership(b)
    decreases |b|
  {
    if b != [] {
      assert (a + b)[..|a + b| - 1] == a + b[..|b| - 1];
      assert (a + b)[|a + b| - 1] == b[|b| - 1];
      TotalAppend(a, b[..|b| - 1]);
    } else {
      assert a + b == a;
    }
  }

  /** A list of valid owners totals between 0 and 100 per owner. */
  lemma {:induction false} TotalOfValidOwners(owners: seq<Owner>, isEmail: string -> bool)
    requires forall i :: 0 <= i < |owners| ==> OwnerValid(owners[i], isEmail)
    ensures 0 <= TotalOwnership(owners) <= 100 * |owners|
  {
    if owners != [] {
      TotalOfValidOwners(owners[..|owners| - 1], isEmail);
    }
  }

  /** Appending a blank owner leaves the total as it was. */
  lemma TotalAfterAdd(owners: seq<Owner>, id: int)
    ensures TotalOwnership(AppendOwner(owners, id)) == TotalOwnership(owners)
  {
    TotalAppend(owners, [NewOwner(id)]);
    assert [NewOwner(id)][..0] == [];
  }

  /** The total of a list with one owner singled out. */
  lemma TotalSplit(before: seq<Owner>, o: Owner, after: seq<Owner>)
    ensures TotalOwnership(before + [o] + after)
              == TotalOwnership(before) + PercentValue(o.ownershipPercentage) + TotalOwnership(after)
  {
    TotalAppend(before + [o], after);
    TotalAppend(before, [o]);
    assert [o][..0] == [];
  }

  /** A list is its prefix, one element and its suffix. */
  lemma SplitAround(owners: seq<Owner>, k: int)
    requires 0 <= k < |owners|
    ensures owners == owners[..k] + [owners[k]] + owners[k + 1..]
  {
  }

  /** With unique ids, removing an owner takes away exactly its percentage. */
  lemma TotalAfterRemove(owners: seq<Owner>, k: int)
    requires UniqueIds(owners) && 0 <= k < |owners|
    ensures TotalOwnership(RemoveOwners(owners, owners[k].id))
              == TotalOwnership(owners) - PercentValue(owners[k].ownershipPercentage)
  {
    var before, o, after := owners[..k], owners[k], owners[k + 1..];
    RemoveOwnersUnique(owners, k);
    SplitAround(owners, k);
    TotalSplit(before, o, after);
    TotalAppend(before, after);
  }

  /** The submit button's `disabled={!isIndividual && totalOwnership > 100}`, negated. */
  predicate SubmitEnabled(individual: bool, total: int)
  {
    individual || total <= 100
  }

  /** What the ownership summary shows for an entity. */
  datatype TotalStatus = OverLimit | Complete | RemainingHeld | NoneDeclared

  function StatusOf(total: int): (s: TotalStatus)
    ensures s == OverLimit <==> total > 100
    ensures s == Complete <==> total == 100
    ensures s == RemainingHeld <==> 0 < total < 100
    ensures s == NoneDeclared <==> total <= 0
  {
    if total > 100 then OverLimit
    else if total == 100 then Complete
    else if 0 < total then RemainingHeld
    else NoneDeclared
  }

  /** For an entity only an over-allocated total blocks the submit: the
      "remaining" warning does not. */
  lemma EntitySubmitBlockedIffOver(total: int)
    ensures !SubmitEnabled(false, total) <==> StatusOf(total) == OverLimit
  {
  }

  /** Two owners declaring 60% and 50% total 110%, so an entity cannot submit. */
  lemma OverAllocatedExample(a: Owner, b: Owner)
    requires a.ownershipPercentage == Pct(60) && b.ownershipPercentage == Pct(50)
    ensures TotalOwnership([a, b]) == 110
    ensures !SubmitEnabled(false, TotalOwnership([a, b]))
  {
    assert [a, b][..1] == [a];
    assert [a][..0] == [];
    assert TotalOwnership([a]) == 60;
  }

  /** The pre-fill effect's condition: an individual with a single owner whose first name is empty. */
  predicate PrefillApplies(p: Profile)
  {
    p.clientType == Some(Individual) && |p.ubo.owners| == 1 && p.ubo.owners[0].firstName == ""
  }

  /** The keys the pre-fill writes: the applicant's names and e-mail, and 100%. */
  function PrefillUpdate(b: Basics): OwnerUpdate
  {
    NoOwnerUpdate.(firstName := Some(b.firstName), lastName := Some(b.lastName),
                   email := Some(b.email), ownershipPercentage := Some(Pct(100)))
  }

  /** The pre-fill makes the single owner the applicant, with 100%, and keeps
      its id and flags. */
  function Prefill(p: Profile): (r: Profile)
    requires PrefillApplies(p)
    ensures |r.ubo.owners| == 1
    ensures r.ubo.owners[0] == p.ubo.owners[0].(firstName := p.basics.firstName,
              lastName := p.basics.lastName, email := p.basics.email, ownershipPercentage := Pct(100))
    ensures r == p.(ubo := r.ubo) && r.ubo.certified == p.ubo.certified
    ensures TotalOwnership(r.ubo.owners) == 100
  {
    var owners := UpdateOwners(p.ubo.owners, p.ubo.owners[0].id, PrefillUpdate(p.basics));
    assert owners[..0] == [];
    p.(ubo := p.ubo.(owners := owners))
  }

  /** Once the applicant's first name is filled in, the pre-fill does not fire
      again, so with a non-empty first name it runs once. */
  lemma PrefillRunsOnce(p: Profile)
    requires PrefillApplies(p) && p.basics.firstName != ""
    ensures !PrefillApplies(Prefill(p))
  {
  }

  /** The owner update the verification success writes. */
  const VerifiedUpdate := NoOwnerUpdate.(verified := Some(true))

  /** A verification success marks that one owner verified and changes nothing else. */
  lemma VerificationMarksOnlyThatOwner(owners: seq<Owner>, id: int)
    ensures var r := UpdateOwners(owners, id, VerifiedUpdate);
            && |r| == |owners|
            && forall i :: 0 <= i < |owners| ==>
                 r[i] == (if owners[i].id == id then owners[i].(verified := true) else owners[i])
  {
  }

  /** The view sends the user to step 1 without a client type or before step 5. */
  predicate Redirects(p: Profile)
  {
    p.clientType.None? || p.currentStep < 5
  }

  /** The verification modal's local record. */
  datatype ModalState = ModalState(isOpen: bool, ownerId: Option<int>, ownerName: string, phone: string)

  const ClosedModal := ModalState(false, None, "", "")

  class Form {
    var modal: ModalState
    const store: Store

    constructor (store: Store)
      ensures this.store == store && modal == ClosedModal
    {
      this.store := store;
      modal := ClosedModal;
    }

    predicate IsIndividual()
      reads store
    {
      store.profile.clientType == Some(Individual)
    }

    /** The pre-fill effect, run after a render. */
    method RunPrefill()
      modifies store
      ensures PrefillApplies(old(store.profile)) ==> store.profile == Prefill(old(store.profile))
      ensures !PrefillApplies(old(store.profile)) ==> store.profile == old(store.profile)
    {
      if PrefillApplies(store.profile) {
        store.UpdateOwner(store.profile.ubo.owners[0].id, PrefillUpdate(store.profile.basics));
      }
    }

    /** "Add Another Owner", shown only to entities; `id` is the store's `Date.now()`. */
    method AddOwner(id: int) returns (added: bool)
      modifies store
      ensures added == !old(IsIndividual())
      ensures added ==> store.profile == old(store.profile).(ubo := old(store.profile).ubo.(
                          owners := AppendOwner(old(store.profile).ubo.owners, id)))
      ensures !added ==> store.profile == old(store.profile)
      ensures (UniqueIds(old(store.profile.ubo.owners)) && !HasId(old(store.profile.ubo.owners), id))
              ==> UniqueIds(store.profile.ubo.owners)
    {
      if IsIndividual() {
        return false;
      }
      if UniqueIds(store.profile.ubo.owners) && !HasId(store.profile.ubo.owners, id) {
        AppendOwnerKeepsIdsUnique(store.profile.ubo.owners, id);
      }
      store.AddOwner(id);
      return true;
    }

    /** The trash button, shown only to entities with more than one owner. */
    method RemoveOwner(id: int) returns (removed: bool)
      modifies store
      ensures removed == (!old(IsIndividual()) && |old(store.profile.ubo.owners)| > 1)
      ensures removed ==> store.profile == old(store.profile).(ubo := old(store.profile).ubo.(
                            owners := RemoveOwners(old(store.profile.ubo.owners), id)))
      ensures !removed ==> store.profile == old(store.profile)
    {
      if IsIndividual() || |store.profile.ubo.owners| <= 1 {
        return false;
      }
      store.RemoveOwner(id);
      return true;
    }

    /** Formik's submit: it runs only when the button is enabled and the schema
        accepts the values; it writes the owners and the certification and
        moves to step 6. */
    method HandleSubmit(owners: seq<Owner>, certified: bool, isEmail: string -> bool) returns (navigated: bool)
      modifies store
      ensures navigated == (SubmitEnabled(old(IsIndividual()), TotalOwnership(owners))
                            && UboValid(owners, certified, isEmail))
      ensures navigated ==> store.profile == old(store.profile).(ubo := Ubo(owners, certified), currentStep := 6)
      ensures !navigated ==> store.profile == old(store.profile)
    {
      if !SubmitEnabled(IsIndividual(), TotalOwnership(owners)) || !UboValid(owners, certified, isEmail) {
        return false;
      }
      store.UpdateUbo(UboUpdate(Some(owners), Some(certified)));
      store.UpdateState(StepUpdate(6));
      return true;
    }

    /** `handleBack`. */
    method HandleBack()
      modifies store
      ensures store.profile == old(store.profile).(currentStep := 4)
    {
      store.UpdateState(StepUpdate(4));
    }

    /** `openVerificationModal(owner)`: the applicant's own phone for an individual. */
    method OpenVerificationModal(owner: Owner)
      modifies this
      ensures modal == ModalState(true, Some(owner.id), owner.firstName + " " + owner.lastName,
                                  if IsIndividual() then store.profile.basics.phone else "")
    {
      modal := ModalState(true, Some(owner.id), owner.firstName + " " + owner.lastName,
                          if IsIndividual() then store.profile.basics.phone else "");
    }

    /** `handleVerificationSuccess`: marks the modal's owner verified (no owner
        when none was recorded) and closes the modal. */
    method HandleVerificationSuccess()
      modifies this, store
      ensures modal == ClosedModal
      ensures old(modal.ownerId).None? ==> store.profile == old(store.profile)
      ensures old(modal.ownerId).Some? ==>
                store.profile == old(store.profile).(ubo := old(store.profile).ubo.(
                  owners := UpdateOwners(old(store.profile.ubo.owners), old(modal.ownerId).value, VerifiedUpdate)))
    {
      if modal.ownerId.Some? {
        store.UpdateOwner(modal.ownerId.value, VerifiedUpdate);
      }
      modal := ClosedModal;
    }
  }
}
