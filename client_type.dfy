/** Step 1, the client-type selector (src/components/ClientTypeSelector.jsx). */
module ClientTypeStep {
  import opened Common
  import opened Onboarding

  const SelectTypeError := "Please select a client type to continue."
  const DisclaimerError := "Please acknowledge the disclaimer to continue."

  /** The checks of `handleContinue`, in their order: first a client type,
      then the disclaimer; on success, the type to store. */
  function ContinueCheck(clientType: Option<ClientType>, safeDisclaimer: bool): (r: Result<ClientType, string>)
    ensures clientType.None? ==> r == Err(SelectTypeError)
    ensures clientType.Some? && !safeDisclaimer ==> r == Err(DisclaimerError)
    ensures r.Ok? <==> clientType.Some? && safeDisclaimer
    ensures r.Ok? ==> r.value == clientType.value
  {
    if clientType.None? then Err(SelectTypeError)
    else if !safeDisclaimer then Err(DisclaimerError)
    else Ok(clientType.value)
  }

  /** The continue button's `disabled={!clientType || !safeDisclaimer}`, negated. */
  predicate ContinueEnabled(clientType: Option<ClientType>, safeDisclaimer: bool)
  {
    clientType.Some? && safeDisclaimer
  }

  /** The button is enabled exactly when continuing would succeed, so the
      error messages are reachable only through a disabled button. */
  lemma EnabledIffContinueSucceeds(clientType: Option<ClientType>, safeDisclaimer: bool)
    ensures ContinueEnabled(clientType, safeDisclaimer) <==> ContinueCheck(clientType, safeDisclaimer).Ok?
  {
  }

  /** The single merge a successful continue performs. */
  function ContinueUpdate(t: ClientType): RootUpdate
  {
    NoRootUpdate.(clientType := Some(Some(t)), safeDisclaimer := Some(true), currentStep := Some(2))
  }

  /** A successful continue changes only the type, the disclaimer and the step. */
  lemma ContinueWritesOnlyStepOne(p: Profile, t: ClientType)
    ensures MergeRoot(p, ContinueUpdate(t)) == p.(clientType := Some(t), safeDisclaimer := true, currentStep := 2)
  {
  }

  class Selector {
    var clientType: Option<ClientType>
    var safeDisclaimer: bool
    var error: string
    const store: Store

    /** The local state starts from what the store holds. */
    constructor (store: Store)
      ensures this.store == store
      ensures clientType == store.profile.clientType
      ensures safeDisclaimer == store.profile.safeDisclaimer
      ensures error == ""
    {
      this.store := store;
      clientType := store.profile.clientType;
      safeDisclaimer := store.profile.safeDisclaimer;
      error := "";
    }

    /** Clicking a type card. */
    method Select(t: ClientType)
      modifies this
      ensures clientType == Some(t) && error == ""
      ensures safeDisclaimer == old(safeDisclaimer)
    {
      clientType := Some(t);
      error := "";
    }

    /** Ticking or unticking the disclaimer. */
    method SetDisclaimer(checked: bool)
      modifies this
      ensures safeDisclaimer == checked && error == ""
      ensures clientType == old(clientType)
    {
      safeDisclaimer := checked;
      error := "";
    }

    /** `handleContinue`: on a failed check it sets the error and writes
        nothing; otherwise one merge writes the type, the disclaimer and step 2. */
    method HandleContinue() returns (navigated: bool)
      modifies this, store
      ensures var c := ContinueCheck(old(clientType), old(safeDisclaimer));
              && navigated == c.Ok?
              && (c.Err? ==> error == c.error && store.profile == old(store.profile))
              && (c.Ok? ==> error == old(error) && store.profile == MergeRoot(old(store.profile), ContinueUpdate(c.value)))
      ensures clientType == old(clientType) && safeDisclaimer == old(safeDisclaimer)
    {
      var c := ContinueCheck(clientType, safeDisclaimer);
      if c.Err? {
        error := c.error;
        return false;
      }
      store.UpdateState(ContinueUpdate(c.value));
      return true;
    }
  }
}
