/** Step 4, the address form (src/components/AddressForm.jsx): a registered
    address and, optionally, a separate physical one. */
module AddressStep {
  import opened Common
  import opened Onboarding

  const ZipPlain := [Digits(5)]
  const ZipPlusFour := [Digits(5), Hyphen, Digits(4)]

  /** `^\d{5}(-\d{4})?$`. */
  predicate UsZipOk(zip: string)
  {
    Matches(ZipPlain, zip) || Matches(ZipPlusFour, zip)
  }

  /** `addressSchema`. The physical ZIP has no format check. */
  predicate AddressValid(v: Address)
  {
    && Required(v.country)
    && Required(v.street1)
    && Required(v.city)
    && (v.country == "US" ==> Required(v.state))
    && Required(v.zip)
    && (v.country == "US" ==> UsZipOk(v.zip))
    && (v.hasSeparatePhysical ==> Required(v.physicalStreet1))
    && (v.hasSeparatePhysical ==> Required(v.physicalCity))
    && (v.hasSeparatePhysical && v.physicalCountry == "US" ==> Required(v.physicalState))
    && (v.hasSeparatePhysical ==> Required(v.physicalZip))
  }

  /** A US ZIP is five digits, or five digits, a hyphen and four digits. */
  lemma UsZipShape(zip: string)
    requires UsZipOk(zip)
    ensures |zip| == 5 || (|zip| == 10 && zip[5] == '-')
    ensures |KeepDigits(zip)| == 5 || |KeepDigits(zip)| == 9
  {
    if Matches(ZipPlain, zip) {
      assert ZipPlain[1..] == [];
      MatchesDigitCount(ZipPlain, zip);
    } else {
      assert ZipPlusFour[1..] == [Hyphen, Digits(4)];
      assert [Hyphen, Digits(4)][1..] == [Digits(4)];
      assert [Digits(4)][1..] == [];
      MatchesDigitCount(ZipPlusFour, zip);
    }
  }

  /** The state is required exactly for a US address: a valid US address has
      one, and outside the US any state, the empty one included, will do. */
  lemma StateRequiredIffUs(v: Address, state: string)
    ensures AddressValid(v) && v.country == "US" ==> v.state != ""
    ensures v.country != "US" ==> (AddressValid(v) <==> AddressValid(v.(state := state)))
    ensures v.country == "US" && state == "" ==> !AddressValid(v.(state := state))
  {
  }

  /** Without a separate physical address the physical fields impose nothing. */
  lemma PhysicalIgnoredUnlessSeparate(v: Address, country: string, street1: string, street2: string,
                                      city: string, state: string, zip: string)
    requires !v.hasSeparatePhysical
    ensures AddressValid(v) <==> AddressValid(v.(physicalCountry := country, physicalStreet1 := street1,
                                                 physicalStreet2 := street2, physicalCity := city,
                                                 physicalState := state, physicalZip := zip))
  {
  }

  /** With a separate physical address its ZIP must be present but may have any form,
      and its state is needed only in the US. */
  lemma PhysicalRules(v: Address, zip: string, state: string)
    requires v.hasSeparatePhysical
    ensures zip != "" && v.physicalZip != "" ==> (AddressValid(v) <==> AddressValid(v.(physicalZip := zip)))
    ensures !AddressValid(v.(physicalZip := ""))
    ensures v.physicalCountry != "US" ==> (AddressValid(v) <==> AddressValid(v.(physicalState := state)))
    ensures v.physicalCountry == "US" ==> !AddressValid(v.(physicalState := ""))
  {
  }

  /** `initialValues`: the stored section, with 'US' for an empty country. */
  function InitialValues(a: Address): (v: Address)
    ensures v.country == OrUs(a.country) && v.physicalCountry == OrUs(a.physicalCountry)
    ensures v.(country := a.country, physicalCountry := a.physicalCountry) == a
  {
    a.(country := OrUs(a.country), physicalCountry := OrUs(a.physicalCountry))
  }

  function OrUs(s: string): string
  {
    if s != "" then s else "US"
  }

  /** `updateAddress(values)`: the form carries every key of the section. */
  function SubmitUpdate(v: Address): AddressUpdate
  {
    AddressUpdate(Some(v.country), Some(v.street1), Some(v.street2), Some(v.city), Some(v.state),
                  Some(v.zip), Some(v.hasSeparatePhysical), Some(v.physicalCountry),
                  Some(v.physicalStreet1), Some(v.physicalStreet2), Some(v.physicalCity),
                  Some(v.physicalState), Some(v.physicalZip))
  }

  /** Because the form carries every key, the submitted values replace the section,
      and loading the form again gives them back. */
  lemma SubmitReplacesSection(a: Address, v: Address)
    ensures MergeAddress(a, SubmitUpdate(v)) == v
    ensures v.country != "" && v.physicalCountry != "" ==> InitialValues(MergeAddress(a, SubmitUpdate(v))) == v
  {
  }

  /** The view sends the user to step 1 without a client type or before step 4. */
  predicate Redirects(p: Profile)
  {
    p.clientType.None? || p.currentStep < 4
  }

  /** Formik's submit: `handleSubmit` runs only when the schema accepts the
      values; it writes the section and moves to step 5. */
  method HandleSubmit(store: Store, values: Address) returns (navigated: bool)
    modifies store
    ensures navigated == AddressValid(values)
    ensures navigated ==> store.profile == old(store.profile).(address := values, currentStep := 5)
    ensures !navigated ==> store.profile == old(store.profile)
  {
    if !AddressValid(values) {
      return false;
    }
    store.UpdateAddress(SubmitUpdate(values));
    SubmitReplacesSection(old(store.profile.address), values);
    store.UpdateState(StepUpdate(5));
    return true;
  }

  /** `handleBack`. */
  method HandleBack(store: Store)
    modifies store
    ensures store.profile == old(store.profile).(currentStep := 3)
  {
    store.UpdateState(StepUpdate(3));
  }
}
