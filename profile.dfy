/** The profile store (src/contexts/OnboardingContext.jsx): one onboarding
    record, replaced as a whole by every updater. Each section updater is a
    shallow merge `{ ...prev.section, ...updates }`, modelled by an update
    record whose absent keys are `None`. */
module Onboarding {
  import opened Common
  import Chainalysis

  datatype ClientType = Individual | Entity

  /** An owner's ownership percentage: the form's empty string or a number.
      Only whole numbers are modelled. */
  datatype Percentage = Blank | Pct(n: int)

  datatype Owner = Owner(
    id: int,
    firstName: string,
    lastName: string,
    email: string,
    ownershipPercentage: Percentage,
    isControlPerson: bool,
    idUploaded: bool,
    verified: bool)

  datatype Eligibility = Eligibility(completed: bool, noneOfAbove: bool, checkedItems: seq<string>)

  /** One flat record for both applicant kinds, as the store keeps it. */
  datatype Basics = Basics(
    firstName: string,
    middleName: string,
    lastName: string,
    suffix: string,
    email: string,
    phone: string,
    phoneCountryCode: string,
    citizenship: string,
    ssn: string,
    dob: string,
    legalBusinessName: string,
    hasDba: bool,
    dbaName: string,
    countryOfIncorporation: string,
    stateOfIncorporation: string,
    ein: string,
    einDocumentUploaded: bool,
    businessPhone: string,
    website: string,
    industry: string,
    activityDescription: string)

  datatype Address = Address(
    country: string,
    street1: string,
    street2: string,
    city: string,
    state: string,
    zip: string,
    hasSeparatePhysical: bool,
    physicalCountry: string,
    physicalStreet1: string,
    physicalStreet2: string,
    physicalCity: string,
    physicalState: string,
    physicalZip: string)

  datatype Ubo = Ubo(owners: seq<Owner>, certified: bool)

  datatype Activity = Activity(
    usageDescription: string,
    sourcesOfFunds: seq<string>,
    expectedTradeSize: string,
    monthlyVolume: string,
    operatingCountries: seq<string>,
    highRiskAcknowledged: bool)

  datatype Wallet = Wallet(address: string, scanCompleted: bool, scanResult: Option<Chainalysis.ScanResult>)

  datatype Profile = Profile(
    currentStep: int,
    clientType: Option<ClientType>,
    safeDisclaimer: bool,
    eligibility: Eligibility,
    basics: Basics,
    address: Address,
    ubo: Ubo,
    activity: Activity,
    wallet: Wallet,
    submitted: bool,
    submittedAt: Option<string>)

  /** The owner record the store appends, and the one `initialState` holds with id 1. */
  function NewOwner(id: int): (o: Owner)
    ensures o.id == id && o.firstName == "" && o.lastName == "" && o.email == ""
    ensures o.ownershipPercentage == Blank
    ensures !o.isControlPerson && !o.idUploaded && !o.verified
  {
    Owner(id, "", "", "", Blank, false, false, false)
  }

  /** `initialState`. */
  const Initial := Profile(
    1,
    None,
    false,
    Eligibility(false, false, []),
    Basics("", "", "", "", "", "", "+1", "", "", "", "", false, "", "", "", "", false, "", "", "", ""),
    Address("US", "", "", "", "", "", false, "US", "", "", "", "", ""),
    Ubo([NewOwner(1)], false),
    Activity("", [], "", "", ["US"], false),
    Wallet("", false, None),
    false,
    None)

  /** The documented default profile: step 1, no client type, one blank owner with id 1. */
  lemma InitialProfile()
    ensures Initial.currentStep == 1 && Initial.clientType.None? && !Initial.safeDisclaimer
    ensures !Initial.eligibility.completed && Initial.eligibility.checkedItems == []
    ensures Initial.ubo.owners == [NewOwner(1)] && !Initial.ubo.certified
    ensures Initial.activity.operatingCountries == ["US"] && !Initial.activity.highRiskAcknowledged
    ensures Initial.wallet.scanResult.None? && !Initial.wallet.scanCompleted
    ensures !Initial.submitted && Initial.submittedAt.None?
  {
  }

  /** One key of a shallow merge: the supplied value if there is one, else the current one. */
  function Pick<T>(upd: Option<T>, current: T): T
  {
    if upd.Some? then upd.value else current
  }

  /** The keys an update of the top level may carry; `None` means the key is absent. */
  datatype RootUpdate = RootUpdate(
    currentStep: Option<int>,
    clientType: Option<Option<ClientType>>,
    safeDisclaimer: Option<bool>,
    eligibility: Option<Eligibility>,
    basics: Option<Basics>,
    address: Option<Address>,
    ubo: Option<Ubo>,
    activity: Option<Activity>,
    wallet: Option<Wallet>,
    submitted: Option<bool>,
    submittedAt: Option<Option<string>>)

  const NoRootUpdate := RootUpdate(None, None, None, None, None, None, None, None, None, None, None)

  /** `{ ...p, ...updates }`. */
  function MergeRoot(p: Profile, upd: RootUpdate): (r: Profile)
    ensures upd == NoRootUpdate ==> r == p
  {
    Profile(
      Pick(upd.currentStep, p.currentStep),
      Pick(upd.clientType, p.clientType),
      Pick(upd.safeDisclaimer, p.safeDisclaimer),
      Pick(upd.eligibility, p.eligibility),
      Pick(upd.basics, p.basics),
      Pick(upd.address, p.address),
      Pick(upd.ubo, p.ubo),
      Pick(upd.activity, p.activity),
      Pick(upd.wallet, p.wallet),
      Pick(upd.submitted, p.submitted),
      Pick(upd.submittedAt, p.submittedAt))
  }

  /** The keys an update of eligibility may carry; `None` means the key is absent. */
  datatype EligibilityUpdate = EligibilityUpdate(
    completed: Option<bool>,
    noneOfAbove: Option<bool>,
    checkedItems: Option<seq<string>>)

  const NoEligibilityUpdate := EligibilityUpdate(None, None, None)

  /** `{ ...e, ...updates }`. */
  function MergeEligibility(e: Eligibility, upd: EligibilityUpdate): (r: Eligibility)
    ensures upd == NoEligibilityUpdate ==> r == e
  {
    Eligibility(
      Pick(upd.completed, e.completed),
      Pick(upd.noneOfAbove, e.noneOfAbove),
      Pick(upd.checkedItems, e.checkedItems))
  }

  /** The keys an update of basics may carry; `None` means the key is absent. */
  datatype BasicsUpdate = BasicsUpdate(
    firstName: Option<string>,
    middleName: Option<string>,
    lastName: Option<string>,
    suffix: Option<string>,
    email: Option<string>,
    phone: Option<string>,
    phoneCountryCode: Option<string>,
    citizenship: Option<string>,
    ssn: Option<string>,
    dob: Option<string>,
    legalBusinessName: Option<string>,
    hasDba: Option<bool>,
    dbaName: Option<string>,
    countryOfIncorporation: Option<string>,
    stateOfIncorporation: Option<string>,
    ein: Option<string>,
    einDocumentUploaded: Option<bool>,
    businessPhone: Option<string>,
    website: Option<string>,
    industry: Option<string>,
    activityDescription: Option<string>)

  const NoBasicsUpdate := BasicsUpdate(None, None, None, None, None, None, None, None, None, None, None, None, None, None, None, None, None, None, None, None, None)

  /** `{ ...b, ...updates }`. */
  function MergeBasics(b: Basics, upd: BasicsUpdate): (r: Basics)
    ensures upd == NoBasicsUpdate ==> r == b
  {
    Basics(
      Pick(upd.firstName, b.firstName),
      Pick(upd.middleName, b.middleName),
      Pick(upd.lastName, b.lastName),
      Pick(upd.suffix, b.suffix),
      Pick(upd.email, b.email),
      Pick(upd.phone, b.phone),
      Pick(upd.phoneCountryCode, b.phoneCountryCode),
      Pick(upd.citizenship, b.citizenship),
      Pick(upd.ssn, b.ssn),
      Pick(upd.dob, b.dob),
      Pick(upd.legalBusinessName, b.legalBusinessName),
      Pick(upd.hasDba, b.hasDba),
      Pick(upd.dbaName, b.dbaName),
      Pick(upd.countryOfIncorporation, b.countryOfIncorporation),
      Pick(upd.stateOfIncorporation, b.stateOfIncorporation),
      Pick(upd.ein, b.ein),
      Pick(upd.einDocumentUploaded, b.einDocumentUploaded),
      Pick(upd.businessPhone, b.businessPhone),
      Pick(upd.website, b.website),
      Pick(upd.industry, b.industry),
      Pick(upd.activityDescription, b.activityDescription))
  }

  /** The keys an update of address may carry; `None` means the key is absent. */
  datatype AddressUpdate = AddressUpdate(
    country: Option<string>,
    street1: Option<string>,
    street2: Option<string>,
    city: Option<string>,
    state: Option<string>,
    zip: Option<string>,
    hasSeparatePhysical: Option<bool>,
    physicalCountry: Option<string>,
    physicalStreet1: Option<string>,
    physicalStreet2: Option<string>,
    physicalCity: Option<string>,
    physicalState: Option<string>,
    physicalZip: Option<string>)

  const NoAddressUpdate := AddressUpdate(None, None, None, None, None, None, None, None, None, None, None, None, None)

  /** `{ ...a, ...updates }`. */
  function MergeAddress(a: Address, upd: AddressUpdate): (r: Address)
    ensures upd == NoAddressUpdate ==> r == a
  {
    Address(
      Pick(upd.country, a.country),
      Pick(upd.street1, a.street1),
      Pick(upd.street2, a.street2),
      Pick(upd.city, a.city),
      Pick(upd.state, a.state),
      Pick(upd.zip, a.zip),
      Pick(upd.hasSeparatePhysical, a.hasSeparatePhysical),
      Pick(upd.physicalCountry, a.physicalCountry),
      Pick(upd.physicalStreet1, a.physicalStreet1),
      Pick(upd.physicalStreet2, a.physicalStreet2),
      Pick(upd.physicalCity, a.physicalCity),
      Pick(upd.physicalState, a.physicalState),
      Pick(upd.physicalZip, a.physicalZip))
  }

  /** The keys an update of ubo may carry; `None` means the key is absent. */
  datatype UboUpdate = UboUpdate(
    owners: Option<seq<Owner>>,
    certified: Option<bool>)

  const NoUboUpdate := UboUpdate(None, None)

  /** `{ ...u, ...updates }`. */
  function MergeUbo(u: Ubo, upd: UboUpdate): (r: Ubo)
    ensures upd == NoUboUpdate ==> r == u
  {
    Ubo(
      Pick(upd.owners, u.owners),
      Pick(upd.certified, u.certified))
  }

  /** The keys an update of activity may carry; `None` means the key is absent. */
  datatype ActivityUpdate = ActivityUpdate(
    usageDescription: Option<string>,
    sourcesOfFunds: Option<seq<string>>,
    expectedTradeSize: Option<string>,
    monthlyVolume: Option<string>,
    operatingCountries: Option<seq<string>>,
    highRiskAcknowledged: Option<bool>)

  const NoActivityUpdate := ActivityUpdate(None, None, None, None, None, None)

  /** `{ ...a, ...updates }`. */
  function MergeActivity(a: Activity, upd: ActivityUpdate): (r: Activity)
    ensures upd == NoActivityUpdate ==> r == a
  {
    Activity(
      Pick(upd.usageDescription, a.usageDescription),
      Pick(upd.sourcesOfFunds, a.sourcesOfFunds),
      Pick(upd.expectedTradeSize, a.expectedTradeSize),
      Pick(upd.monthlyVolume, a.monthlyVolume),
      Pick(upd.operatingCountries, a.operatingCountries),
      Pick(upd.highRiskAcknowledged, a.highRiskAcknowledged))
  }

  /** The keys an update of wallet may carry; `None` means the key is absent. */
  datatype WalletUpdate = WalletUpdate(
    address: Option<string>,
    scanCompleted: Option<bool>,
    scanResult: Option<Option<Chainalysis.ScanResult>>)

  const NoWalletUpdate := WalletUpdate(None, None, None)

  /** `{ ...w, ...updates }`. */
  function MergeWallet(w: Wallet, upd: WalletUpdate): (r: Wallet)
    ensures upd == NoWalletUpdate ==> r == w
  {
    Wallet(
      Pick(upd.address, w.address),
      Pick(upd.scanCompleted, w.scanCompleted),
      Pick(upd.scanResult, w.scanResult))
  }

  /** The keys an update of owner may carry; `None` means the key is absent. */
  datatype OwnerUpdate = OwnerUpdate(
    id: Option<int>,
    firstName: Option<string>,
    lastName: Option<string>,
    email: Option<string>,
    ownershipPercentage: Option<Percentage>,
    isControlPerson: Option<bool>,
    idUploaded: Option<bool>,
    verified: Option<bool>)

  const NoOwnerUpdate := OwnerUpdate(None, None, None, None, None, None, None, None)

  /** `{ ...o, ...updates }`. */
  function MergeOwner(o: Owner, upd: OwnerUpdate): (r: Owner)
    ensures upd == NoOwnerUpdate ==> r == o
  {
    Owner(
      Pick(upd.id, o.id),
      Pick(upd.firstName, o.firstName),
      Pick(upd.lastName, o.lastName),
      Pick(upd.email, o.email),
      Pick(upd.ownershipPercentage, o.ownershipPercentage),
      Pick(upd.isControlPerson, o.isControlPerson),
      Pick(upd.idUploaded, o.idUploaded),
      Pick(upd.verified, o.verified))
  }

  /** An update that sets `currentStep` and nothing else (`updateState({ currentStep: n })`). */
  function StepUpdate(n: int): (u: RootUpdate)
  {
    NoRootUpdate.(currentStep := Some(n))
  }

  /** Writing the step through `updateState` keeps every section as it was:
      back and forward moves never discard entered data. */
  lemma StepUpdateKeepsData(p: Profile, n: int)
    ensures MergeRoot(p, StepUpdate(n)) == p.(currentStep := n)
  {
  }

  /** The first supplied of two values of one key: the later update's, else the earlier one's. */
  function Later<T>(later: Option<T>, earlier: Option<T>): Option<T>
  {
    if later.Some? then later else earlier
  }

  /** The single update that `u` followed by `v` amounts to. */
  function ThenRoot(u: RootUpdate, v: RootUpdate): RootUpdate
  {
    RootUpdate(
      Later(v.currentStep, u.currentStep),
      Later(v.clientType, u.clientType),
      Later(v.safeDisclaimer, u.safeDisclaimer),
      Later(v.eligibility, u.eligibility),
      Later(v.basics, u.basics),
      Later(v.address, u.address),
      Later(v.ubo, u.ubo),
      Later(v.activity, u.activity),
      Later(v.wallet, u.wallet),
      Later(v.submitted, u.submitted),
      Later(v.submittedAt, u.submittedAt))
  }

  /** No key is supplied by both updates. */
  predicate RootDisjoint(u: RootUpdate, v: RootUpdate)
  {
    && (u.currentStep.None? || v.currentStep.None?)
    && (u.clientType.None? || v.clientType.None?)
    && (u.safeDisclaimer.None? || v.safeDisclaimer.None?)
    && (u.eligibility.None? || v.eligibility.None?)
    && (u.basics.None? || v.basics.None?)
    && (u.address.None? || v.address.None?)
    && (u.ubo.None? || v.ubo.None?)
    && (u.activity.None? || v.activity.None?)
    && (u.wallet.None? || v.wallet.None?)
    && (u.submitted.None? || v.submitted.None?)
    && (u.submittedAt.None? || v.submittedAt.None?)
  }

  /** Two merges are one merge in which every key the later update supplies
      wins (last write wins, key by key); a key only the earlier update
      supplies keeps its value; and updates that supply different keys
      commute. */
  lemma RootMergesCompose(p: Profile, u: RootUpdate, v: RootUpdate)
    ensures MergeRoot(MergeRoot(p, u), v) == MergeRoot(p, ThenRoot(u, v))
    ensures v.currentStep.Some? ==> MergeRoot(MergeRoot(p, u), v).currentStep == v.currentStep.value
    ensures v.currentStep.None? && u.currentStep.Some? ==>
              MergeRoot(MergeRoot(p, u), v).currentStep == u.currentStep.value
    ensures RootDisjoint(u, v) ==> MergeRoot(MergeRoot(p, u), v) == MergeRoot(MergeRoot(p, v), u)
  {
  }

  // Applying the same update twice is applying it once.

  lemma RootMergeIdempotent(x: Profile, u: RootUpdate)
    ensures MergeRoot(MergeRoot(x, u), u) == MergeRoot(x, u)
  {
  }

  lemma EligibilityMergeIdempotent(x: Eligibility, u: EligibilityUpdate)
    ensures MergeEligibility(MergeEligibility(x, u), u) == MergeEligibility(x, u)
  {
  }

  lemma BasicsMergeIdempotent(x: Basics, u: BasicsUpdate)
    ensures MergeBasics(MergeBasics(x, u), u) == MergeBasics(x, u)
  {
  }

  lemma AddressMergeIdempotent(x: Address, u: AddressUpdate)
    ensures MergeAddress(MergeAddress(x, u), u) == MergeAddress(x, u)
  {
  }

  lemma UboMergeIdempotent(x: Ubo, u: UboUpdate)
    ensures MergeUbo(MergeUbo(x, u), u) == MergeUbo(x, u)
  {
  }

  lemma ActivityMergeIdempotent(x: Activity, u: ActivityUpdate)
    ensures MergeActivity(MergeActivity(x, u), u) == MergeActivity(x, u)
  {
  }

  lemma WalletMergeIdempotent(x: Wallet, u: WalletUpdate)
    ensures MergeWallet(MergeWallet(x, u), u) == MergeWallet(x, u)
  {
  }

  lemma OwnerMergeIdempotent(x: Owner, u: OwnerUpdate)
    ensures MergeOwner(MergeOwner(x, u), u) == MergeOwner(x, u)
  {
  }

  // ---------------------------------------------------------------------------
  // The owner list

  predicate UniqueIds(owners: seq<Owner>)
  {
    forall i, j :: 0 <= i < j < |owners| ==> owners[i].id != owners[j].id
  }

  predicate HasId(owners: seq<Owner>, id: int)
  {
    exists i :: 0 <= i < |owners| && owners[i].id == id
  }

  /** `addOwner`: `[...owners, newOwner]`. */
  function AppendOwner(owners: seq<Owner>, id: int): (r: seq<Owner>)
    ensures |r| == |owners| + 1 && r[..|owners|] == owners && r[|owners|] == NewOwner(id)
  {
    owners + [NewOwner(id)]
  }

  /** With a fresh id, appending keeps the ids unique. */
  lemma AppendOwnerKeepsIdsUnique(owners: seq<Owner>, id: int)
    requires UniqueIds(owners) && !HasId(owners, id)
    ensures UniqueIds(AppendOwner(owners, id))
  {
    var r := AppendOwner(owners, id);
    forall i, j | 0 <= i < j < |r| ensures r[i].id != r[j].id {
      if j == |owners| {
        assert r[i] == owners[i];
      } else {
        assert r[i] == owners[i] && r[j] == owners[j];
      }
    }
  }

  /** The callback of `updateOwner`'s map: merge the owner whose id matches, keep the others. */
  function UpdateIfId(o: Owner, id: int, upd: OwnerUpdate): Owner
  {
    if o.id == id then MergeOwner(o, upd) else o
  }

  /** `updateOwner`: `owners.map(o => o.id === id ? { ...o, ...updates } : o)`. */
  function UpdateOwners(owners: seq<Owner>, id: int, upd: OwnerUpdate): (r: seq<Owner>)
    ensures |r| == |owners|
    ensures forall i :: 0 <= i < |owners| ==> r[i] == UpdateIfId(owners[i], id, upd)
    ensures !HasId(owners, id) ==> r == owners
  {
    if owners == [] then []
    else
      var rest := UpdateOwners(owners[1..], id, upd);
      assert forall i :: 1 <= i < |owners| ==> owners[i] == owners[1..][i - 1];
      assert !HasId(owners, id) ==> !HasId(owners[1..], id);
      [UpdateIfId(owners[0], id, upd)] + rest
  }

  /** An update that does not touch `id` keeps the ids unique. */
  lemma UpdateOwnersKeepsIds(owners: seq<Owner>, id: int, upd: OwnerUpdate)
    requires upd.id.None?
    ensures forall i :: 0 <= i < |owners| ==> UpdateOwners(owners, id, upd)[i].id == owners[i].id
    ensures UniqueIds(owners) ==> UniqueIds(UpdateOwners(owners, id, upd))
  {
  }

  /** `removeOwner`: `owners.filter(o => o.id !== id)`. */
  function RemoveOwners(owners: seq<Owner>, id: int): (r: seq<Owner>)
    ensures forall o :: o in r <==> o in owners && o.id != id
    ensures |r| <= |owners|
    ensures !HasId(owners, id) ==> r == owners
  {
    if owners == [] then []
    else
      assert !HasId(owners, id) ==> !HasId(owners[1..], id);
      (if owners[0].id != id then [owners[0]] else []) + RemoveOwners(owners[1..], id)
  }

  /** The filter works element by element, so it keeps the original order. */
  lemma {:induction false} RemoveOwnersAppend(a: seq<Owner>, b: seq<Owner>, id: int)
    ensures RemoveOwners(a + b, id) == RemoveOwners(a, id) + RemoveOwners(b, id)
  {
    if a == [] {
      assert a + b == b;
    } else {
      assert (a + b)[0] == a[0];
      assert (a + b)[1..] == a[1..] + b;
      RemoveOwnersAppend(a[1..], b, id);
    }
  }

  /** With unique ids, removing the owner at position k leaves the others in their order. */
  lemma RemoveOwnersUnique(owners: seq<Owner>, k: int)
    requires UniqueIds(owners) && 0 <= k < |owners|
    ensures RemoveOwners(owners, owners[k].id) == owners[..k] + owners[k + 1..]
    ensures |RemoveOwners(owners, owners[k].id)| == |owners| - 1
  {
    var id := owners[k].id;
    var before, after := owners[..k], owners[k + 1..];
    assert owners == before + ([owners[k]] + after);
    assert !HasId(before, id) by {
      forall i | 0 <= i < |before| ensures before[i].id != id {
        assert before[i] == owners[i];
      }
    }
    assert !HasId(after, id) by {
      forall i | 0 <= i < |after| ensures after[i].id != id {
        assert after[i] == owners[k + 1 + i];
      }
    }
    assert RemoveOwners([owners[k]], id) == [] by {
      assert [owners[k]][1..] == [];
    }
    RemoveOwnersAppend([owners[k]], after, id);
    assert RemoveOwners([owners[k]] + after, id) == after;
    RemoveOwnersAppend(before, [owners[k]] + after, id);
  }

  // ---------------------------------------------------------------------------
  // Steps

  /** `getStepCount()`. */
  const StepCount := 8

  /** `getStepLabel(step)`: `labels[step] || ''`. */
  function StepLabel(step: int): (r: string)
    ensures r != "" <==> 1 <= step <= StepCount
  {
    match step
    case 1 => "Client Type"
    case 2 => "Eligibility"
    case 3 => "Basic Info"
    case 4 => "Address"
    case 5 => "Ownership"
    case 6 => "Activity"
    case 7 => "Wallet"
    case 8 => "Review"
    case _ => ""
  }

  /** `Math.max(1, step - 1)`. */
  function PrevStepOf(step: int): (r: int)
    ensures r >= 1
    ensures step > 1 ==> r == step - 1
    ensures step <= 1 ==> r == 1
  {
    if step - 1 > 1 then step - 1 else 1
  }

  // ---------------------------------------------------------------------------
  // The store

  /** What the browser's storage slot yields at start-up: nothing, a value that
      does not parse, or a parsed profile. */
  datatype Saved = Missing | Malformed | Stored(profile: Profile)

  class Store {
    var profile: Profile

    /** The lazy initial state: the saved profile when one parses, `initialState` otherwise. */
    constructor Load(saved: Saved)
      ensures profile == (if saved.Stored? then saved.profile else Initial)
    {
      profile := if saved.Stored? then saved.profile else Initial;
    }

    /** `updateState(updates)`: a shallow merge of the top level. */
    method UpdateState(upd: RootUpdate)
      modifies this
      ensures profile == MergeRoot(old(profile), upd)
    {
      profile := MergeRoot(profile, upd);
    }

    method UpdateEligibility(upd: EligibilityUpdate)
      modifies this
      ensures profile == old(profile).(eligibility := MergeEligibility(old(profile).eligibility, upd))
    {
      profile := profile.(eligibility := MergeEligibility(profile.eligibility, upd));
    }

    method UpdateBasics(upd: BasicsUpdate)
      modifies this
      ensures profile == old(profile).(basics := MergeBasics(old(profile).basics, upd))
    {
      profile := profile.(basics := MergeBasics(profile.basics, upd));
    }

    method UpdateAddress(upd: AddressUpdate)
      modifies this
      ensures profile == old(profile).(address := MergeAddress(old(profile).address, upd))
    {
      profile := profile.(address := MergeAddress(profile.address, upd));
    }

    method UpdateUbo(upd: UboUpdate)
      modifies this
      ensures profile == old(profile).(ubo := MergeUbo(old(profile).ubo, upd))
    {
      profile := profile.(ubo := MergeUbo(profile.ubo, upd));
    }

    method UpdateActivity(upd: ActivityUpdate)
      modifies this
      ensures profile == old(profile).(activity := MergeActivity(old(profile).activity, upd))
    {
      profile := profile.(activity := MergeActivity(profile.activity, upd));
    }

    method UpdateWallet(upd: WalletUpdate)
      modifies this
      ensures profile == old(profile).(wallet := MergeWallet(old(profile).wallet, upd))
    {
      profile := profile.(wallet := MergeWallet(profile.wallet, upd));
    }

    method AddOwner(id: int)
      modifies this
      ensures profile == old(profile).(ubo := old(profile).ubo.(owners := AppendOwner(old(profile).ubo.owners, id)))
    {
      profile := profile.(ubo := profile.ubo.(owners := AppendOwner(profile.ubo.owners, id)));
    }

    method UpdateOwner(id: int, upd: OwnerUpdate)
      modifies this
      ensures profile == old(profile).(ubo := old(profile).ubo.(owners := UpdateOwners(old(profile).ubo.owners, id, upd)))
    {
      profile := profile.(ubo := profile.ubo.(owners := UpdateOwners(profile.ubo.owners, id, upd)));
    }

    /** No minimum size is enforced here; the ownership form only offers removal with two or more owners. */
    method RemoveOwner(id: int)
      modifies this
      ensures profile == old(profile).(ubo := old(profile).ubo.(owners := RemoveOwners(old(profile).ubo.owners, id)))
    {
      profile := profile.(ubo := profile.ubo.(owners := RemoveOwners(profile.ubo.owners, id)));
    }

    method SetStep(step: int)
      modifies this
      ensures profile == old(profile).(currentStep := step)
    {
      profile := profile.(currentStep := step);
    }

    /** No upper clamp: the step can go past `StepCount`. */
    method NextStep()
      modifies this
      ensures profile == old(profile).(currentStep := old(profile).currentStep + 1)
    {
      profile := profile.(currentStep := profile.currentStep + 1);
    }

    method PrevStep()
      modifies this
      ensures profile == old(profile).(currentStep := PrevStepOf(old(profile).currentStep))
      ensures profile.currentStep >= 1
    {
      profile := profile.(currentStep := PrevStepOf(profile.currentStep));
    }

    /** `resetOnboarding()`; clearing the storage slot is not modelled. */
    method Reset()
      modifies this
      ensures profile == Initial
    {
      profile := Initial;
    }
  }
}
