/** Step 6, the trading-activity form (src/components/ActivityForm.jsx): the
    activity schema, the sources-of-funds checkboxes, and the high-risk
    country warning that must be acknowledged before submitting. */
module ActivityStep {
  import opened Common
  import opened Onboarding

  /** `activitySchema`. */
  predicate ActivityValid(v: Activity)
  {
    && |v.usageDescription| >= 50
    && |v.sourcesOfFunds| >= 1
    && Required(v.expectedTradeSize)
    && Required(v.monthlyVolume)
    && |v.operatingCountries| >= 1
  }

  /** `countries.filter(c => highRiskCodes.includes(c))`. */
  function SelectHighRisk(countries: seq<string>, highRiskCodes: seq<string>): (r: seq<string>)
    ensures forall c :: c in r <==> c in countries && c in highRiskCodes
    ensures |r| <= |countries|
    ensures (forall c :: c in countries ==> c in highRiskCodes) ==> r == countries
  {
    if countries == [] then []
    else
      (if countries[0] in highRiskCodes then [countries[0]] else [])
      + SelectHighRisk(countries[1..], highRiskCodes)
  }

  /** The filter works element by element, so the selected codes keep the
      order in which the countries were chosen. */
  lemma {:induction false} SelectHighRiskAppend(a: seq<string>, b: seq<string>, highRiskCodes: seq<string>)
    ensures SelectHighRisk(a + b, highRiskCodes) == SelectHighRisk(a, highRiskCodes) + SelectHighRisk(b, highRiskCodes)
  {
    if a == [] {
      assert a + b == b;
    } else {
      assert (a + b)[0] == a[0];
      assert (a + b)[1..] == a[1..] + b;
      SelectHighRiskAppend(a[1..], b, highRiskCodes);
    }
  }

  /** The display name of each selected high-risk code: its label in the
      country list, or the code itself. */
  function NamesOf(codes: seq<string>, allCountries: seq<Choice>): (r: seq<string>)
    ensures |r| == |codes|
    ensures forall i :: 0 <= i < |codes| ==> r[i] == LabelFor(allCountries, codes[i])
  {
    if codes == [] then []
    else [LabelFor(allCountries, codes[0])] + NamesOf(codes[1..], allCountries)
  }

  /** What `checkHighRiskCountries` reports. */
  predicate HasHighRisk(countries: seq<string>, highRiskCodes: seq<string>)
  {
    |SelectHighRisk(countries, highRiskCodes)| > 0
  }

  /** The check fires exactly when some selected country is on the high-risk list. */
  lemma HasHighRiskIff(countries: seq<string>, highRiskCodes: seq<string>)
    ensures HasHighRisk(countries, highRiskCodes) <==> exists c :: c in countries && c in highRiskCodes
  {
    var r := SelectHighRisk(countries, highRiskCodes);
    if exists c :: c in countries && c in highRiskCodes {
      var c :| c in countries && c in highRiskCodes;
      assert c in r;
    }
    if |r| > 0 {
      assert r[0] in r;
    }
  }

  /** Whether `handleSubmit` goes on to write the store: the schema must accept
      the values, and a high-risk selection must have been acknowledged. */
  predicate SubmitProceeds(v: Activity, highRiskCodes: seq<string>)
  {
    ActivityValid(v) && !(HasHighRisk(v.operatingCountries, highRiskCodes) && !v.highRiskAcknowledged)
  }

  /** The acknowledgement gate: without a high-risk country it is irrelevant,
      and once acknowledged only the schema decides. */
  lemma AcknowledgementGate(v: Activity, highRiskCodes: seq<string>)
    ensures !HasHighRisk(v.operatingCountries, highRiskCodes) ==> (SubmitProceeds(v, highRiskCodes) <==> ActivityValid(v))
    ensures SubmitProceeds(v.(highRiskAcknowledged := true), highRiskCodes) <==> ActivityValid(v)
    ensures HasHighRisk(v.operatingCountries, highRiskCodes) && !v.highRiskAcknowledged ==> !SubmitProceeds(v, highRiskCodes)
  {
  }

  /** `updateActivity(values)`: the form carries every key of the section. */
  function SubmitUpdate(v: Activity): ActivityUpdate
  {
    ActivityUpdate(Some(v.usageDescription), Some(v.sourcesOfFunds), Some(v.expectedTradeSize),
                   Some(v.monthlyVolume), Some(v.operatingCountries), Some(v.highRiskAcknowledged))
  }

  /** The submitted values replace the section. */
  lemma SubmitReplacesSection(a: Activity, v: Activity)
    ensures MergeActivity(a, SubmitUpdate(v)) == v
  {
  }

  /** The view sends the user to step 1 without a client type or before step 6. */
  predicate Redirects(p: Profile)
  {
    p.clientType.None? || p.currentStep < 6
  }

  class Form {
    /** The Formik values. */
    var values: Activity
    var showHighRiskModal: bool
    var highRiskCountries: seq<string>
    const store: Store
    /** `HIGH_RISK_COUNTRIES` (their codes) and `ALL_COUNTRIES`, option tables
        defined outside this model. */
    const highRiskCodes: seq<string>
    const allCountries: seq<Choice>

    /** The initial values are the stored section (every `||` fallback there
        yields the stored value, since an array is always truthy). */
    constructor (store: Store, highRiskCodes: seq<string>, allCountries: seq<Choice>)
      ensures this.store == store && this.highRiskCodes == highRiskCodes && this.allCountries == allCountries
      ensures values == store.profile.activity
      ensures !showHighRiskModal && highRiskCountries == []
    {
      this.store := store;
      this.highRiskCodes := highRiskCodes;
      this.allCountries := allCountries;
      values := store.profile.activity;
      showHighRiskModal := false;
      highRiskCountries := [];
    }

    /** `checkHighRiskCountries(countries)`: on a hit it records the names and
        opens the modal; otherwise it changes nothing. */
    method CheckHighRiskCountries(countries: seq<string>) returns (found: bool)
      modifies this
      ensures found == HasHighRisk(countries, highRiskCodes)
      ensures found ==> showHighRiskModal
                        && highRiskCountries == NamesOf(SelectHighRisk(countries, highRiskCodes), allCountries)
      ensures !found ==> showHighRiskModal == old(showHighRiskModal) && highRiskCountries == old(highRiskCountries)
      ensures values == old(values)
    {
      var selected := SelectHighRisk(countries, highRiskCodes);
      if |selected| > 0 {
        highRiskCountries := NamesOf(selected, allCountries);
        showHighRiskModal := true;
        return true;
      }
      return false;
    }

    /** Typing in the three text fields. */
    method EditText(usageDescription: string, expectedTradeSize: string, monthlyVolume: string)
      modifies this
      ensures values == old(values).(usageDescription := usageDescription,
                                     expectedTradeSize := expectedTradeSize, monthlyVolume := monthlyVolume)
      ensures showHighRiskModal == old(showHighRiskModal) && highRiskCountries == old(highRiskCountries)
    {
      values := values.(usageDescription := usageDescription, expectedTradeSize := expectedTradeSize,
                        monthlyVolume := monthlyVolume);
    }

    /** A source-of-funds checkbox: removes a selected source, appends another. */
    method ToggleFundSource(source: string)
      modifies this
      ensures values == old(values).(sourcesOfFunds := Toggle(old(values.sourcesOfFunds), source))
      ensures source in values.sourcesOfFunds <==> source !in old(values.sourcesOfFunds)
      ensures showHighRiskModal == old(showHighRiskModal) && highRiskCountries == old(highRiskCountries)
    {
      values := values.(sourcesOfFunds := Toggle(values.sourcesOfFunds, source));
    }

    /** The country selector: stores the selection and runs the check on a
        non-empty one. An earlier acknowledgement is kept. */
    method SetCountries(countries: seq<string>)
      modifies this
      ensures values == old(values).(operatingCountries := countries)
      ensures values.highRiskAcknowledged == old(values.highRiskAcknowledged)
      ensures HasHighRisk(countries, highRiskCodes) ==>
                showHighRiskModal
                && highRiskCountries == NamesOf(SelectHighRisk(countries, highRiskCodes), allCountries)
      ensures !HasHighRisk(countries, highRiskCodes) ==>
                showHighRiskModal == old(showHighRiskModal) && highRiskCountries == old(highRiskCountries)
    {
      values := values.(operatingCountries := countries);
      if |countries| > 0 {
        var _ := CheckHighRiskCountries(countries);
      }
    }

    /** `handleAcknowledgeHighRisk`. */
    method AcknowledgeHighRisk()
      modifies this
      ensures values == old(values).(highRiskAcknowledged := true)
      ensures !showHighRiskModal && highRiskCountries == old(highRiskCountries)
    {
      values := values.(highRiskAcknowledged := true);
      showHighRiskModal := false;
    }

    /** The modal's close and cancel buttons. */
    method CloseHighRiskModal()
      modifies this
      ensures !showHighRiskModal && values == old(values) && highRiskCountries == old(highRiskCountries)
    {
      showHighRiskModal := false;
    }

    /** Formik's submit: `handleSubmit` runs only when the schema accepts the
        values; it re-runs the check, stops on an unacknowledged high-risk
        selection, and otherwise writes the section and moves to step 7. */
    method HandleSubmit() returns (navigated: bool)
      modifies this, store
      ensures navigated == SubmitProceeds(old(values), highRiskCodes)
      ensures navigated ==> store.profile == old(store.profile).(activity := old(values), currentStep := 7)
      ensures !navigated ==> store.profile == old(store.profile)
      ensures ActivityValid(old(values)) && HasHighRisk(old(values).operatingCountries, highRiskCodes) ==>
                showHighRiskModal
                && highRiskCountries == NamesOf(SelectHighRisk(old(values).operatingCountries, highRiskCodes), allCountries)
      ensures !(ActivityValid(old(values)) && HasHighRisk(old(values).operatingCountries, highRiskCodes)) ==>
                showHighRiskModal == old(showHighRiskModal) && highRiskCountries == old(highRiskCountries)
      ensures values == old(values)
    {
      if !ActivityValid(values) {
        return false;
      }
      var hasHighRisk := CheckHighRiskCountries(values.operatingCountries);
      if hasHighRisk && !values.highRiskAcknowledged {
        return false;
      }
      store.UpdateActivity(SubmitUpdate(values));
      SubmitReplacesSection(old(store.profile.activity), values);
      store.UpdateState(StepUpdate(7));
      return true;
    }

    /** `handleBack`. */
    method HandleBack()
      modifies store
      ensures store.profile == old(store.profile).(currentStep := 5)
    {
      store.UpdateState(StepUpdate(5));
    }
  }
}
