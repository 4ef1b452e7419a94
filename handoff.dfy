/** The hand-off mock (src/mocks/handoffMock.js): the application record sent
    to the business-development team, its identifier, and the hand-off result.
    The clock, the random draw and the storage write are parameters. */
module Handoff {
  import opened Common
  import opened Onboarding
  import Chainalysis

  // ---------------------------------------------------------------------------
  // Number rendering

  /** The digit JavaScript's `toString(radix)` writes for `d`. */
  function DigitChar(d: nat): (c: char)
    requires d < 36
    ensures d < 10 ==> '0' <= c <= '9'
    ensures d >= 10 ==> 'a' <= c <= 'z'
  {
    if d < 10 then (('0' as int) + d) as char else (('a' as int) + d - 10) as char
  }

  /** The value of a digit, either case. */
  function DigitValue(c: char): nat
  {
    if '0' <= c <= '9' then (c as int) - ('0' as int)
    else if 'a' <= c <= 'z' then (c as int) - ('a' as int) + 10
    else if 'A' <= c <= 'Z' then (c as int) - ('A' as int) + 10
    else 0
  }

  /** `n.toString(radix)` for a non-negative integer. */
  function ToRadix(n: nat, radix: nat): (s: string)
    requires 2 <= radix <= 36
    ensures |s| >= 1
    decreases n
  {
    if n < radix then [DigitChar(n)] else ToRadix(n / radix, radix) + [DigitChar(n % radix)]
  }

  /** Reading digits back, most significant first. */
  function ParseRadix(s: string, radix: nat): nat
  {
    if s == [] then 0 else ParseRadix(s[..|s| - 1], radix) * radix + DigitValue(s[|s| - 1])
  }

  lemma DigitRoundTrip(d: nat)
    requires d < 36
    ensures DigitValue(DigitChar(d)) == d
  {
  }

  lemma DivMod(n: nat, radix: nat)
    requires 2 <= radix && n >= radix
    ensures n / radix < n
    ensures n == (n / radix) * radix + n % radix
  {
  }

  /** Reading one more digit multiplies by the radix and adds the digit. */
  lemma ParseSnoc(t: string, c: char, radix: nat)
    ensures ParseRadix(t + [c], radix) == ParseRadix(t, radix) * radix + DigitValue(c)
  {
    assert (t + [c])[..|t|] == t;
  }

  /** Rendering and reading back give the number again. */
  lemma {:induction false} RadixRoundTrip(n: nat, radix: nat)
    requires 2 <= radix <= 36
    ensures ParseRadix(ToRadix(n, radix), radix) == n
    decreases n
  {
    if n < radix {
      DigitRoundTrip(n);
      assert [DigitChar(n)][..0] == [];
    } else {
      DivMod(n, radix);
      var q, d := n / radix, n % radix;
      var t := ToRadix(q, radix);
      assert ToRadix(n, radix) == t + [DigitChar(d)];
      ParseSnoc(t, DigitChar(d), radix);
      RadixRoundTrip(q, radix);
      DigitRoundTrip(d);
    }
  }

  /** `String(n)` for an integer. */
  function IntText(n: int): (s: string)
    ensures n >= 0 ==> s == ToRadix(n, 10)
    ensures n < 0 ==> s == "-" + ToRadix(-n, 10)
  {
    if n >= 0 then ToRadix(n, 10) else "-" + ToRadix(-n, 10)
  }

  /** `String(c).toUpperCase()` for the characters an identifier holds. */
  function UpperChar(c: char): (u: char)
    ensures 'a' <= c <= 'z' ==> 'A' <= u <= 'Z' && DigitValue(u) == DigitValue(c)
    ensures !('a' <= c <= 'z') ==> u == c
  {
    if 'a' <= c <= 'z' then ((c as int) - ('a' as int) + ('A' as int)) as char else c
  }

  function ToUpper(s: string): (r: string)
    ensures |r| == |s|
    ensures forall i :: 0 <= i < |s| ==> r[i] == UpperChar(s[i])
  {
    if s == [] then [] else [UpperChar(s[0])] + ToUpper(s[1..])
  }

  /** Upper-casing works character by character, so it distributes over concatenation. */
  lemma ToUpperAppend(a: string, b: string)
    ensures ToUpper(a + b) == ToUpper(a) + ToUpper(b)
  {
    assert forall i :: 0 <= i < |a + b| ==> ToUpper(a + b)[i] == (ToUpper(a) + ToUpper(b))[i];
  }

  /** Upper-casing does not change the value a digit string reads as. */
  lemma {:induction false} ParseUpper(s: string, radix: nat)
    ensures ParseRadix(ToUpper(s), radix) == ParseRadix(s, radix)
    decreases |s|
  {
    if s != [] {
      var u := ToUpper(s);
      assert u[..|u| - 1] == ToUpper(s[..|s| - 1]);
      ParseUpper(s[..|s| - 1], radix);
    }
  }

  // ---------------------------------------------------------------------------
  // Application identifier

  /** `ARQ-${Date.now().toString(36)}-${random}` upper-cased, where `random` is
      the base-36 rendering of `Math.random()` cut to characters 2..8. */
  function GenerateApplicationId(now: nat, randomText: string): (id: string)
  {
    ToUpper("ARQ-" + ToRadix(now, 36) + "-" + Slice(randomText, 2, 8))
  }

  /** Upper-casing the whole identifier leaves the fixed parts as they are. */
  lemma ApplicationIdParts(now: nat, randomText: string)
    ensures GenerateApplicationId(now, randomText)
            == "ARQ-" + ToUpper(ToRadix(now, 36)) + "-" + ToUpper(Slice(randomText, 2, 8))
  {
    var stamp := ToRadix(now, 36);
    var rnd := Slice(randomText, 2, 8);
    ToUpperAppend("ARQ-" + stamp + "-", rnd);
    ToUpperAppend("ARQ-" + stamp, "-");
    ToUpperAppend("ARQ-", stamp);
    assert ToUpper("ARQ-") == "ARQ-" by {
      assert forall i :: 0 <= i < 4 ==> ToUpper("ARQ-")[i] == "ARQ-"[i];
    }
    assert ToUpper("-") == "-";
  }

  /** The identifier starts with 'ARQ-', then the upper-cased base-36 time,
      which reads back as the time, then '-' and at most six random characters. */
  lemma ApplicationIdShape(now: nat, randomText: string)
    ensures var id := GenerateApplicationId(now, randomText);
            var stamp := ToUpper(ToRadix(now, 36));
            && id[..4] == "ARQ-" && id[4..4 + |stamp|] == stamp && id[4 + |stamp|] == '-'
            && ParseRadix(stamp, 36) == now
            && |id| <= 4 + |stamp| + 1 + 6
  {
    ApplicationIdParts(now, randomText);
    var stamp := ToUpper(ToRadix(now, 36));
    var id := "ARQ-" + stamp + "-" + ToUpper(Slice(randomText, 2, 8));
    assert id[..4] == "ARQ-";
    assert id[4..4 + |stamp|] == stamp;
    RadixRoundTrip(now, 36);
    ParseUpper(ToRadix(now, 36), 36);
  }

  // ---------------------------------------------------------------------------
  // The application record

  datatype ApplicantInfo =
    | PersonInfo(name: string, email: string, phone: string, citizenship: string, dob: string)
    | CompanyInfo(legalName: string, dba: Option<string>, jurisdiction: string, ein: string,
                  phone: string, website: string, industry: string, description: string)

  datatype PostalAddress = PostalAddress(street: string, city: string, state: string, zip: string, country: string)

  datatype OwnerSummary = OwnerSummary(name: string, email: string, ownership: string,
                                       isControlPerson: bool, idVerified: bool)

  datatype ActivitySummary = ActivitySummary(intendedUse: string, sourcesOfFunds: seq<string>,
                                             expectedTradeSize: string, monthlyVolume: string,
                                             operatingCountries: seq<string>)

  /** `wallet.scanResult?.…`: absent when there is no scan. */
  datatype WalletSummary = WalletSummary(address: string, riskLevel: Option<string>, riskScore: Option<int>,
                                         scanReason: Option<string>, scannedAt: Option<string>)

  datatype Compliance = Compliance(eligibilityConfirmed: bool, safeDisclaimer: bool, uboCertified: bool)

  datatype Application = Application(
    applicationId: string,
    submittedAt: string,
    clientType: string,
    applicantInfo: ApplicantInfo,
    primary: PostalAddress,
    physical: Option<PostalAddress>,
    beneficialOwners: seq<OwnerSummary>,
    activityProfile: ActivitySummary,
    walletVerification: WalletSummary,
    compliance: Compliance)

  /** `${street1}${street2 ? ', ' + street2 : ''}`. */
  function JoinStreet(street1: string, street2: string): (r: string)
    ensures street2 == "" ==> r == street1
    ensures street2 != "" ==> |r| == |street1| + 2 + |street2| && r[..|street1|] == street1
                              && r[|street1|..|street1| + 2] == ", " && r[|street1| + 2..] == street2
  {
    if street2 != "" then street1 + ", " + street2 else street1
  }

  /** The applicant's full name: middle name and suffix only when present. */
  function FullName(b: Basics): string
  {
    b.firstName + " " + (if b.middleName != "" then b.middleName + " " else "") + b.lastName
    + (if b.suffix != "" then " " + b.suffix else "")
  }

  /** `${owner.ownershipPercentage}%`: an empty percentage gives just '%'. */
  function OwnershipText(p: Percentage): (r: string)
    ensures |r| >= 1 && r[|r| - 1] == '%'
    ensures p.Blank? ==> r == "%"
  {
    (if p.Pct? then IntText(p.n) else "") + "%"
  }

  /** The number in front of the '%' reads back as the owner's percentage. */
  lemma OwnershipTextReadsBack(n: nat)
    ensures var r := OwnershipText(Pct(n));
            r == ToRadix(n, 10) + "%" && ParseRadix(r[..|r| - 1], 10) == n
  {
    var r := OwnershipText(Pct(n));
    assert r[..|r| - 1] == ToRadix(n, 10);
    RadixRoundTrip(n, 10);
  }

  function SummarizeOwner(o: Owner): OwnerSummary
  {
    OwnerSummary(o.firstName + " " + o.lastName, o.email, OwnershipText(o.ownershipPercentage),
                 o.isControlPerson, o.verified)
  }

  /** `ubo.owners.map(...)`. */
  function SummarizeOwners(owners: seq<Owner>): (r: seq<OwnerSummary>)
    ensures |r| == |owners|
    ensures forall i :: 0 <= i < |owners| ==> r[i] == SummarizeOwner(owners[i])
  {
    if owners == [] then [] else [SummarizeOwner(owners[0])] + SummarizeOwners(owners[1..])
  }

  function ApplicantOf(clientType: Option<ClientType>, b: Basics): ApplicantInfo
  {
    if clientType == Some(Individual) then
      PersonInfo(FullName(b), b.email, b.phoneCountryCode + " " + b.phone, b.citizenship, b.dob)
    else
      CompanyInfo(b.legalBusinessName, if b.hasDba then Some(b.dbaName) else None,
                  b.stateOfIncorporation + ", " + b.countryOfIncorporation, b.ein, b.businessPhone,
                  b.website, b.industry, b.activityDescription)
  }

  function WalletOf(w: Wallet): WalletSummary
  {
    match w.scanResult
    case None => WalletSummary(w.address, None, None, None, None)
    case Some(s) => WalletSummary(w.address, Some(Chainalysis.RiskName(s.risk)), Some(s.score),
                                  Some(s.reason), Some(s.timestamp))
  }

  /** `formatApplicationData(state)`, with the generated identifier and the
      submission time as parameters. */
  function FormatApplicationData(p: Profile, applicationId: string, submittedAt: string): (a: Application)
    ensures a.applicationId == applicationId && a.submittedAt == submittedAt
    ensures a.clientType == (if p.clientType == Some(Individual) then "Individual (HNW)" else "Entity/Company")
    ensures a.applicantInfo.PersonInfo? <==> p.clientType == Some(Individual)
    ensures a.applicantInfo.CompanyInfo? ==>
              (a.applicantInfo.dba.Some? <==> p.basics.hasDba)
              && (p.basics.hasDba ==> a.applicantInfo.dba == Some(p.basics.dbaName))
    ensures a.primary.street == JoinStreet(p.address.street1, p.address.street2)
    ensures a.physical.None? <==> !p.address.hasSeparatePhysical
    ensures a.physical.Some? ==>
              a.physical.value.street == JoinStreet(p.address.physicalStreet1, p.address.physicalStreet2)
              && a.physical.value.country == p.address.physicalCountry
    ensures |a.beneficialOwners| == |p.ubo.owners|
    ensures forall i :: 0 <= i < |p.ubo.owners| ==>
              && a.beneficialOwners[i].ownership == OwnershipText(p.ubo.owners[i].ownershipPercentage)
              && a.beneficialOwners[i].idVerified == p.ubo.owners[i].verified
              && a.beneficialOwners[i].email == p.ubo.owners[i].email
    ensures a.compliance == Compliance(true, true, p.ubo.certified)
    ensures a.activityProfile.operatingCountries == p.activity.operatingCountries
    ensures a.walletVerification.address == p.wallet.address
    ensures a.walletVerification.riskLevel.Some? <==> p.wallet.scanResult.Some?
    ensures p.wallet.scanResult.Some? ==>
              var s := p.wallet.scanResult.value;
              && a.walletVerification.riskLevel == Some(Chainalysis.RiskName(s.risk))
              && a.walletVerification.riskScore == Some(s.score)
              && a.walletVerification.scanReason == Some(s.reason)
              && a.walletVerification.scannedAt == Some(s.timestamp)
    ensures p.wallet.scanResult.None? ==>
              a.walletVerification == WalletSummary(p.wallet.address, None, None, None, None)
  {
    Application(
      applicationId,
      submittedAt,
      if p.clientType == Some(Individual) then "Individual (HNW)" else "Entity/Company",
      ApplicantOf(p.clientType, p.basics),
      PostalAddress(JoinStreet(p.address.street1, p.address.street2), p.address.city, p.address.state,
                    p.address.zip, p.address.country),
      if p.address.hasSeparatePhysical then
        Some(PostalAddress(JoinStreet(p.address.physicalStreet1, p.address.physicalStreet2),
                           p.address.physicalCity, p.address.physicalState, p.address.physicalZip,
                           p.address.physicalCountry))
      else None,
      SummarizeOwners(p.ubo.owners),
      ActivitySummary(p.activity.usageDescription, p.activity.sourcesOfFunds, p.activity.expectedTradeSize,
                      p.activity.monthlyVolume, p.activity.operatingCountries),
      WalletOf(p.wallet),
      Compliance(true, true, p.ubo.certified))
  }

  /** An individual's name skips an empty middle name and suffix. */
  lemma FullNameParts(b: Basics)
    ensures b.middleName == "" && b.suffix == "" ==> FullName(b) == b.firstName + " " + b.lastName
    ensures b.middleName != "" && b.suffix == "" ==>
              FullName(b) == b.firstName + " " + b.middleName + " " + b.lastName
    ensures b.middleName == "" && b.suffix != "" ==>
              FullName(b) == b.firstName + " " + b.lastName + " " + b.suffix
    ensures b.middleName != "" && b.suffix != "" ==>
              FullName(b) == b.firstName + " " + b.middleName + " " + b.lastName + " " + b.suffix
  {
  }

  // ---------------------------------------------------------------------------
  // The hand-off

  datatype HandoffResult = HandoffResult(success: bool, applicationId: Option<string>, message: string,
                                         application: Option<Application>)

  const HandoffError := "An error occurred while submitting your application. Please try again."

  const SuccessTail := " has been submitted successfully. Our business development team will contact you within 1-2 business days."

  function SuccessMessage(id: string): string
  {
    "Application " + id + SuccessTail
  }

  /** `completeHandoff(state)`: `saved` says whether the storage write went
      through; when it throws the result carries no identifier. */
  function CompleteHandoff(p: Profile, now: nat, randomText: string, nowIso: string, saved: bool): (r: HandoffResult)
    ensures r.success <==> saved
    ensures r.success ==> && r.applicationId == Some(GenerateApplicationId(now, randomText))
                          && r.application == Some(FormatApplicationData(p, r.applicationId.value, nowIso))
                          && r.message == SuccessMessage(r.applicationId.value)
    ensures !r.success ==> r.applicationId.None? && r.application.None? && r.message == HandoffError
  {
    var id := GenerateApplicationId(now, randomText);
    if saved then
      HandoffResult(true, Some(id), SuccessMessage(id), Some(FormatApplicationData(p, id, nowIso)))
    else
      HandoffResult(false, None, HandoffError, None)
  }
}
