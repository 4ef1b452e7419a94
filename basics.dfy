/** Step 3, the basic-information form (src/components/BasicsForm.jsx): one
    schema for individuals, another for entities, the SSN and EIN input
    formatters, and the submit and back handlers. */
module BasicsStep {
  import opened Common
  import opened Onboarding

  /** The Formik values: the individual form's fields or the entity form's. */
  datatype BasicsValues =
    | IndividualValues(
        firstName: string,
        middleName: string,
        lastName: string,
        suffix: string,
        email: string,
        phone: string,
        phoneCountryCode: string,
        citizenship: string,
        ssn: string,
        dob: string)
    | EntityValues(
        legalBusinessName: string,
        hasDba: bool,
        dbaName: string,
        countryOfIncorporation: string,
        stateOfIncorporation: string,
        ein: string,
        businessPhone: string,
        phoneCountryCode: string,
        website: string,
        industry: string,
        activityDescription: string)

  /** What the schemas take from outside: Yup's e-mail test, Yup's date
      parsing (to milliseconds since the epoch), and the clock reading taken
      when the schema module was loaded. */
  datatype Env = Env(isEmail: string -> bool, parseDate: string -> Option<int>, loadTime: int)

  const MsPerDay: int := 24 * 60 * 60 * 1000

  /** `Date.now() - 18 * 365 * 24 * 60 * 60 * 1000`, read once, when the schema is built. */
  function AdultCutoff(loadTime: int): int
  {
    loadTime - 18 * 365 * MsPerDay
  }

  /** `^[0-9]{10,15}$`. */
  predicate PhoneOk(s: string)
  {
    10 <= |s| <= 15 && AllDigits(s)
  }

  const SsnPattern := [Digits(3), OptHyphen, Digits(2), OptHyphen, Digits(4)]

  const EinPattern := [Digits(2), OptHyphen, Digits(7)]

  /** `^\d{3}-?\d{2}-?\d{4}$`. */
  predicate SsnOk(s: string) { Matches(SsnPattern, s) }

  /** `^\d{2}-?\d{7}$`. */
  predicate EinOk(s: string) { Matches(EinPattern, s) }

  /** `Yup.date().max(cutoff).required()`. */
  predicate DobOk(dob: string, env: Env)
  {
    Required(dob) && env.parseDate(dob).Some? && env.parseDate(dob).value <= AdultCutoff(env.loadTime)
  }

  /** `individualSchema`. */
  predicate IndividualValid(v: BasicsValues, env: Env)
  {
    && v.IndividualValues?
    && Required(v.firstName)
    && Required(v.lastName)
    && Required(v.email) && env.isEmail(v.email)
    && PhoneOk(v.phone)
    && Required(v.citizenship)
    && SsnOk(v.ssn)
    && DobOk(v.dob, env)
  }

  /** `entitySchema`: the state of incorporation is required only for 'US'. */
  predicate EntityValid(v: BasicsValues)
  {
    && v.EntityValues?
    && Required(v.legalBusinessName)
    && Required(v.countryOfIncorporation)
    && (v.countryOfIncorporation == "US" ==> Required(v.stateOfIncorporation))
    && EinOk(v.ein)
    && PhoneOk(v.businessPhone)
    && Required(v.industry)
    && |v.activityDescription| >= 20
  }

  /** `validationSchema={isIndividual ? individualSchema : entitySchema}`. */
  predicate SchemaAccepts(clientType: Option<ClientType>, v: BasicsValues, env: Env)
  {
    if clientType == Some(Individual) then IndividualValid(v, env) else EntityValid(v)
  }

  /** A valid SSN carries exactly nine digits and at most two hyphens; a valid EIN nine digits. */
  lemma IdentifierDigits(s: string)
    ensures SsnOk(s) ==> |KeepDigits(s)| == 9 && 9 <= |s| <= 11
    ensures EinOk(s) ==> |KeepDigits(s)| == 9 && 9 <= |s| <= 10
  {
    if SsnOk(s) {
      MatchesDigitCount(SsnPattern, s);
      SsnLength(s);
    }
    if EinOk(s) {
      MatchesDigitCount(EinPattern, s);
      EinLength(s);
    }
  }

  lemma SsnLength(s: string)
    requires SsnOk(s)
    ensures 9 <= |s| <= 11
  {
    var t1 := s[3..];
    assert Matches([OptHyphen, Digits(2), OptHyphen, Digits(4)], t1) by {
      assert SsnPattern[1..] == [OptHyphen, Digits(2), OptHyphen, Digits(4)];
    }
    var t2 := if |t1| > 0 && t1[0] == '-' && Matches([Digits(2), OptHyphen, Digits(4)], t1[1..]) then t1[1..] else t1;
    assert Matches([Digits(2), OptHyphen, Digits(4)], t2) by {
      assert [OptHyphen, Digits(2), OptHyphen, Digits(4)][1..] == [Digits(2), OptHyphen, Digits(4)];
    }
    var t3 := t2[2..];
    assert Matches([OptHyphen, Digits(4)], t3) by {
      assert [Digits(2), OptHyphen, Digits(4)][1..] == [OptHyphen, Digits(4)];
    }
    var t4 := if |t3| > 0 && t3[0] == '-' && Matches([Digits(4)], t3[1..]) then t3[1..] else t3;
    assert Matches([Digits(4)], t4) by {
      assert [OptHyphen, Digits(4)][1..] == [Digits(4)];
    }
    assert [Digits(4)][1..] == [];
    assert |t4| == 4;
  }

  lemma EinLength(s: string)
    requires EinOk(s)
    ensures 9 <= |s| <= 10
  {
    var t1 := s[2..];
    assert Matches([OptHyphen, Digits(7)], t1) by {
      assert EinPattern[1..] == [OptHyphen, Digits(7)];
    }
    var t2 := if |t1| > 0 && t1[0] == '-' && Matches([Digits(7)], t1[1..]) then t1[1..] else t1;
    assert Matches([Digits(7)], t2) by {
      assert [OptHyphen, Digits(7)][1..] == [Digits(7)];
    }
    assert [Digits(7)][1..] == [];
    assert |t2| == 7;
  }

  /** Outside the US the state of incorporation does not matter to the entity schema. */
  lemma StateRequiredOnlyInUs(v: BasicsValues, state: string)
    requires v.EntityValues?
    ensures EntityValid(v) && v.countryOfIncorporation == "US" ==> v.stateOfIncorporation != ""
    ensures v.countryOfIncorporation != "US" ==>
              (EntityValid(v) <==> EntityValid(v.(stateOfIncorporation := state)))
  {
  }

  /** An accepted date of birth lies at least 18 years of 365 days before the load time. */
  lemma AcceptedDobIsAdult(v: BasicsValues, env: Env)
    requires IndividualValid(v, env)
    ensures env.loadTime - env.parseDate(v.dob).value >= 18 * 365 * MsPerDay
  {
  }

  // ---------------------------------------------------------------------------
  // Input formatters

  /** The first nine digits of `d` (or all of them when there are fewer). */
  function FirstNine(d: string): string
  {
    d[..Min(|d|, 9)]
  }

  /** `formatSSN(value)`: the digits cut to nine, with a hyphen after the
      third digit once there are more than three and after the fifth once
      there are more than five. */
  function FormatSsn(value: string): (r: string)
    ensures |KeepDigits(value)| <= 3 ==> r == KeepDigits(value)
    ensures 3 < |KeepDigits(value)| <= 5 ==> |r| == |KeepDigits(value)| + 1
    ensures |KeepDigits(value)| > 5 ==> |r| == Min(|KeepDigits(value)|, 9) + 2
    ensures var d := KeepDigits(value);
            && (|d| > 3 ==> r[..3] == d[..3] && r[3] == '-')
            && (3 < |d| <= 5 ==> r[4..] == d[3..])
            && (|d| > 5 ==> r[4..6] == d[3..5] && r[6] == '-' && r[7..] == FirstNine(d)[5..])
  {
    var d := KeepDigits(value);
    if |d| <= 3 then d
    else if |d| <= 5 then d[..3] + "-" + d[3..]
    else
      var r := d[..3] + "-" + d[3..5] + "-" + Slice(d, 5, 9);
      assert r[7..] == Slice(d, 5, 9) == FirstNine(d)[5..];
      r
  }

  /** `formatEIN(value)`: the digits cut to nine, with a hyphen after the
      second digit once there are more than two. */
  function FormatEin(value: string): (r: string)
    ensures |KeepDigits(value)| <= 2 ==> r == KeepDigits(value)
    ensures |KeepDigits(value)| > 2 ==> |r| == Min(|KeepDigits(value)|, 9) + 1
    ensures var d := KeepDigits(value);
            |d| > 2 ==> r[..2] == d[..2] && r[2] == '-' && r[3..] == FirstNine(d)[2..]
  {
    var d := KeepDigits(value);
    if |d| <= 2 then d
    else
      var r := d[..2] + "-" + Slice(d, 2, 9);
      assert r[3..] == Slice(d, 2, 9) == FirstNine(d)[2..];
      r
  }

  lemma DigitsOfHyphen()
    ensures KeepDigits("-") == []
  {
    assert "-"[1..] == [];
  }

  /** Digits followed by a hyphen keep just the digits. */
  lemma DigitsThenHyphen(a: string)
    requires AllDigits(a)
    ensures KeepDigits(a + "-") == a
  {
    DigitsOfHyphen();
    KeepDigitsAppend(a, "-");
  }

  /** A hyphen between two strings adds no digit. */
  lemma HyphenDropped(x: string, y: string)
    ensures KeepDigits(x + "-" + y) == KeepDigits(x) + KeepDigits(y)
  {
    DigitsOfHyphen();
    KeepDigitsAppend(x, "-");
    KeepDigitsAppend(x + "-", y);
  }

  /** One hyphen inserted into a digit string leaves the same digits. */
  lemma DigitsAroundHyphen(a: string, b: string)
    requires AllDigits(a) && AllDigits(b)
    ensures KeepDigits(a + "-" + b) == a + b
  {
    HyphenDropped(a, b);
  }

  /** Two hyphens inserted into a digit string leave the same digits. */
  lemma DigitsAroundHyphens(a: string, b: string, c: string)
    requires AllDigits(a) && AllDigits(b) && AllDigits(c)
    ensures KeepDigits(a + "-" + b + "-" + c) == a + b + c
  {
    var x := a + "-" + b;
    HyphenDropped(x, c);
    HyphenDropped(a, b);
    assert KeepDigits(x) == a + b;
  }

  lemma SsnDigitsMid(d: string)
    requires AllDigits(d) && 3 < |d| <= 5
    ensures KeepDigits(d[..3] + "-" + d[3..]) == FirstNine(d)
  {
    DigitsAroundHyphen(d[..3], d[3..]);
    assert d[..3] + d[3..] == d;
  }

  lemma SsnDigitsLong(d: string)
    requires AllDigits(d) && |d| > 5
    ensures KeepDigits(d[..3] + "-" + d[3..5] + "-" + Slice(d, 5, 9)) == FirstNine(d)
  {
    var s := Slice(d, 5, 9);
    DigitsAroundHyphens(d[..3], d[3..5], s);
    assert d[..3] + d[3..5] + s == FirstNine(d);
  }

  /** The digits of a formatted SSN are the input's first nine digits. */
  lemma FormatSsnDigits(value: string)
    ensures KeepDigits(FormatSsn(value)) == FirstNine(KeepDigits(value))
  {
    var d := KeepDigits(value);
    if 3 < |d| <= 5 {
      assert FormatSsn(value) == d[..3] + "-" + d[3..];
      SsnDigitsMid(d);
    } else if |d| > 5 {
      assert FormatSsn(value) == d[..3] + "-" + d[3..5] + "-" + Slice(d, 5, 9);
      SsnDigitsLong(d);
    }
  }

  /** The digits of a formatted EIN are the input's first nine digits. */
  lemma FormatEinDigits(value: string)
    ensures KeepDigits(FormatEin(value)) == FirstNine(KeepDigits(value))
  {
    var d := KeepDigits(value);
    if |d| > 2 {
      var x := d[..2] + "-";
      DigitsThenHyphen(d[..2]);
      KeepDigitsAppend(x, Slice(d, 2, 9));
      assert FormatEin(value) == x + Slice(d, 2, 9);
      assert d[..2] + Slice(d, 2, 9) == FirstNine(d);
    }
  }

  /** Formatting an already formatted SSN changes nothing. */
  lemma FormatSsnIdempotent(value: string)
    ensures FormatSsn(FormatSsn(value)) == FormatSsn(value)
  {
    FormatSsnDigits(value);
    var d := KeepDigits(value);
    var e := FirstNine(d);
    assert KeepDigits(FormatSsn(value)) == e;
    if |d| > 5 {
      assert e[..3] == d[..3] && e[3..5] == d[3..5] && Slice(e, 5, 9) == Slice(d, 5, 9);
    } else if |d| > 3 {
      assert e == d;
    }
  }

  /** Formatting an already formatted EIN changes nothing. */
  lemma FormatEinIdempotent(value: string)
    ensures FormatEin(FormatEin(value)) == FormatEin(value)
  {
    FormatEinDigits(value);
    var d := KeepDigits(value);
    var e := FirstNine(d);
    if |d| > 2 {
      assert e[..2] == d[..2] && Slice(e, 2, 9) == Slice(d, 2, 9);
    }
  }

  /** The canonical `XXX-XX-XXXX` shape matches the SSN pattern. */
  lemma CanonicalSsnMatches(a: string, b: string, c: string)
    requires |a| == 3 && |b| == 2 && |c| == 4 && AllDigits(a) && AllDigits(b) && AllDigits(c)
    ensures SsnOk(a + ("-" + (b + ("-" + c))))
  {
    assert Matches([Digits(4)], c) by {
      assert [Digits(4)][1..] == [];
      assert c[..4] == c && c[4..] == [];
    }
    MatchesOptHyphenThen([Digits(4)], c);
    MatchesDigitsThen(2, [OptHyphen, Digits(4)], b, "-" + c);
    assert [Digits(2)] + [OptHyphen, Digits(4)] == [Digits(2), OptHyphen, Digits(4)];
    MatchesOptHyphenThen([Digits(2), OptHyphen, Digits(4)], b + ("-" + c));
    MatchesDigitsThen(3, [OptHyphen, Digits(2), OptHyphen, Digits(4)], a, "-" + (b + ("-" + c)));
    assert [Digits(3)] + [OptHyphen, Digits(2), OptHyphen, Digits(4)] == SsnPattern;
  }

  lemma SsnShapeRegrouped(d: string)
    requires |d| >= 9
    ensures d[..3] + "-" + d[3..5] + "-" + Slice(d, 5, 9) == d[..3] + ("-" + (d[3..5] + ("-" + d[5..9])))
  {
  }

  /** A formatted SSN passes the schema's pattern exactly when the input had at least nine digits. */
  lemma FormatSsnAccepted(value: string)
    ensures SsnOk(FormatSsn(value)) <==> |KeepDigits(value)| >= 9
  {
    var d := KeepDigits(value);
    var r := FormatSsn(value);
    if |d| >= 9 {
      assert r == d[..3] + "-" + d[3..5] + "-" + Slice(d, 5, 9);
      SsnShapeRegrouped(d);
      CanonicalSsnMatches(d[..3], d[3..5], d[5..9]);
    } else if SsnOk(r) {
      FormatSsnDigits(value);
      MatchesDigitCount(SsnPattern, r);
      assert false;
    }
  }

  /** The canonical `XX-XXXXXXX` shape matches the EIN pattern. */
  lemma CanonicalEinMatches(a: string, b: string)
    requires |a| == 2 && |b| == 7 && AllDigits(a) && AllDigits(b)
    ensures EinOk(a + ("-" + b))
  {
    assert Matches([Digits(7)], b) by {
      assert [Digits(7)][1..] == [];
      assert b[..7] == b && b[7..] == [];
    }
    MatchesOptHyphenThen([Digits(7)], b);
    MatchesDigitsThen(2, [OptHyphen, Digits(7)], a, "-" + b);
    assert [Digits(2)] + [OptHyphen, Digits(7)] == EinPattern;
  }

  /** A formatted EIN passes the schema's pattern exactly when the input had at least nine digits. */
  lemma FormatEinAccepted(value: string)
    ensures EinOk(FormatEin(value)) <==> |KeepDigits(value)| >= 9
  {
    var d := KeepDigits(value);
    var r := FormatEin(value);
    if |d| >= 9 {
      assert r == d[..2] + ("-" + d[2..9]);
      CanonicalEinMatches(d[..2], d[2..9]);
    } else if EinOk(r) {
      FormatEinDigits(value);
      MatchesDigitCount(EinPattern, r);
      assert false;
    }
  }

  // ---------------------------------------------------------------------------
  // The form

  /** `x || fallback` on a string. */
  function OrDefault(s: string, fallback: string): string
  {
    if s != "" then s else fallback
  }

  /** `initialValues`: the stored section, with '+1' for an empty country code. */
  function InitialValues(b: Basics, individual: bool): (v: BasicsValues)
    ensures v.IndividualValues? <==> individual
    ensures v.phoneCountryCode == OrDefault(b.phoneCountryCode, "+1")
  {
    if individual then
      IndividualValues(b.firstName, b.middleName, b.lastName, b.suffix, b.email, b.phone,
                       OrDefault(b.phoneCountryCode, "+1"), b.citizenship, b.ssn, b.dob)
    else
      EntityValues(b.legalBusinessName, b.hasDba, b.dbaName, b.countryOfIncorporation,
                   b.stateOfIncorporation, b.ein, b.businessPhone, OrDefault(b.phoneCountryCode, "+1"),
                   b.website, b.industry, b.activityDescription)
  }

  /** `{ ...values, einDocumentUploaded: einUploaded }`: the keys the submitted form carries. */
  function SubmitUpdate(v: BasicsValues, einUploaded: bool): BasicsUpdate
  {
    match v
    case IndividualValues(firstName, middleName, lastName, suffix, email, phone, code, citizenship, ssn, dob) =>
      NoBasicsUpdate.(firstName := Some(firstName), middleName := Some(middleName), lastName := Some(lastName),
                      suffix := Some(suffix), email := Some(email), phone := Some(phone),
                      phoneCountryCode := Some(code), citizenship := Some(citizenship), ssn := Some(ssn),
                      dob := Some(dob), einDocumentUploaded := Some(einUploaded))
    case EntityValues(name, hasDba, dbaName, country, state, ein, businessPhone, code, website, industry, description) =>
      NoBasicsUpdate.(legalBusinessName := Some(name), hasDba := Some(hasDba), dbaName := Some(dbaName),
                      countryOfIncorporation := Some(country), stateOfIncorporation := Some(state),
                      ein := Some(ein), businessPhone := Some(businessPhone), phoneCountryCode := Some(code),
                      website := Some(website), industry := Some(industry),
                      activityDescription := Some(description), einDocumentUploaded := Some(einUploaded))
  }

  /** The merged section holds the submitted values, and the form would load them back; an individual's
      submit keeps every entity field as it was (and the other way round). */
  lemma SubmitMerge(b: Basics, v: BasicsValues, einUploaded: bool)
    ensures var r := MergeBasics(b, SubmitUpdate(v, einUploaded));
            && r.einDocumentUploaded == einUploaded
            && r.phoneCountryCode == v.phoneCountryCode
            && (v.phoneCountryCode != "" ==> InitialValues(r, v.IndividualValues?) == v)
            && (v.IndividualValues? ==>
                  && r.legalBusinessName == b.legalBusinessName && r.hasDba == b.hasDba
                  && r.dbaName == b.dbaName && r.countryOfIncorporation == b.countryOfIncorporation
                  && r.stateOfIncorporation == b.stateOfIncorporation && r.ein == b.ein
                  && r.businessPhone == b.businessPhone && r.website == b.website
                  && r.industry == b.industry && r.activityDescription == b.activityDescription)
            && (v.EntityValues? ==>
                  && r.firstName == b.firstName && r.middleName == b.middleName
                  && r.lastName == b.lastName && r.suffix == b.suffix && r.email == b.email
                  && r.phone == b.phone && r.citizenship == b.citizenship
                  && r.ssn == b.ssn && r.dob == b.dob)
  {
  }

  /** Submitting the untouched initial values leaves a section with a country code as it was. */
  lemma ResubmitInitialValues(b: Basics, individual: bool)
    requires b.phoneCountryCode != ""
    ensures MergeBasics(b, SubmitUpdate(InitialValues(b, individual), b.einDocumentUploaded)) == b
  {
  }

  /** The view sends the user to step 1 without a client type or a completed eligibility check. */
  predicate Redirects(p: Profile)
  {
    p.clientType.None? || !p.eligibility.completed
  }

  class Form {
    var einUploaded: bool
    const store: Store

    constructor (store: Store)
      ensures this.store == store
      ensures einUploaded == store.profile.basics.einDocumentUploaded
    {
      this.store := store;
      einUploaded := store.profile.basics.einDocumentUploaded;
    }

    /** The EIN document upload button (a simulated upload). */
    method UploadEinDocument()
      modifies this
      ensures einUploaded
    {
      einUploaded := true;
    }

    /** Formik's submit: `handleSubmit` runs only when the schema accepts the
        values; it merges them with the upload flag into the basics section
        and moves to step 4. */
    method HandleSubmit(values: BasicsValues, env: Env) returns (navigated: bool)
      modifies store
      ensures navigated == SchemaAccepts(old(store.profile.clientType), values, env)
      ensures navigated ==> store.profile == old(store.profile).(
                basics := MergeBasics(old(store.profile.basics), SubmitUpdate(values, einUploaded)),
                currentStep := 4)
      ensures !navigated ==> store.profile == old(store.profile)
    {
      if !SchemaAccepts(store.profile.clientType, values, env) {
        return false;
      }
      store.UpdateBasics(SubmitUpdate(values, einUploaded));
      store.UpdateState(StepUpdate(4));
      return true;
    }

    /** `handleBack`. */
    method HandleBack()
      modifies store
      ensures store.profile == old(store.profile).(currentStep := 2)
    {
      store.UpdateState(StepUpdate(2));
    }
  }
}
