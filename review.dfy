/** Step 8, the review screen (src/components/ReviewSummary.jsx): the final
    hand-off, the per-section edit buttons, and the masked display of the SSN. */
module ReviewStep {
  import opened Common
  import opened Onboarding
  import opened Handoff
  import BasicsStep

  const SubmissionError := "An error occurred during submission. Please try again."

  const SuccessAlertHead := "Profile handed off to bizdev team!\n\nApplication ID: "

  function SuccessAlert(id: string): string
  {
    SuccessAlertHead + id
  }

  /** The sections with an edit button, in screen order. */
  datatype Section = BasicsSection | AddressSection | OwnershipSection | ActivitySection | WalletSection

  /** The step each edit button returns to. */
  function EditStep(s: Section): (step: int)
    ensures 3 <= step <= 7
    ensures StepLabel(step) == match s
                               case BasicsSection => "Basic Info"
                               case AddressSection => "Address"
                               case OwnershipSection => "Ownership"
                               case ActivitySection => "Activity"
                               case WalletSection => "Wallet"
  {
    match s
    case BasicsSection => 3
    case AddressSection => 4
    case OwnershipSection => 5
    case ActivitySection => 6
    case WalletSection => 7
  }

  /** Different sections lead to different steps. */
  lemma EditStepsDistinct(a: Section, b: Section)
    requires a != b
    ensures EditStep(a) != EditStep(b)
  {
  }

  /** `getLabel(options, value)`: the label of the first option whose value matches, or the value. */
  function GetLabel(options: seq<Choice>, value: string): (r: string)
    ensures (forall i :: 0 <= i < |options| ==> options[i].value != value) ==> r == value
    ensures forall i :: (0 <= i < |options| && options[i].value == value
                          && (forall j :: 0 <= j < i ==> options[j].value != value))
                          ==> r == (if options[i].labelText != "" then options[i].labelText else value)
    ensures r == value || exists i :: 0 <= i < |options| && options[i].value == value && options[i].labelText == r
  {
    LabelFor(options, value)
  }

  /** `ssn ? '***-**-' + ssn.slice(-4) : '-'`. */
  function SsnMask(ssn: string): (r: string)
    ensures ssn == "" ==> r == "-"
    ensures ssn != "" ==> && |r| == 7 + Min(4, |ssn|) && r[..7] == "***-**-"
                          && r[7..] == ssn[|ssn| - Min(4, |ssn|)..]
  {
    if ssn == "" then "-"
    else
      var r := "***-**-" + ssn[|ssn| - Min(4, |ssn|)..];
      assert r[7..] == ssn[|ssn| - Min(4, |ssn|)..];
      r
  }

  /** The mask shows no character of the SSN other than its last four: two
      numbers are masked alike exactly when they end alike. */
  lemma SsnMaskHidesAllButLastFour(p: string, q: string)
    requires |p| >= 4 && |q| >= 4
    ensures SsnMask(p) == SsnMask(q) <==> p[|p| - 4..] == q[|q| - 4..]
  {
    if SsnMask(p) == SsnMask(q) {
      assert SsnMask(p)[7..] == SsnMask(q)[7..];
    }
  }

  /** A number the basics form formatted from nine or more digits is shown
      with exactly its last four digits. */
  lemma MaskOfFormattedSsn(value: string)
    requires |KeepDigits(value)| >= 9
    ensures SsnMask(BasicsStep.FormatSsn(value)) == "***-**-" + KeepDigits(value)[5..9]
  {
    var d := KeepDigits(value);
    var f := BasicsStep.FormatSsn(value);
    assert |f| == 11 && f[7..] == d[5..9];
    assert f[|f| - 4..] == d[5..9];
  }

  /** The view sends the user to step 1 without a client type or before step 8. */
  predicate Redirects(p: Profile)
  {
    p.clientType.None? || p.currentStep < 8
  }

  /** The merge a successful hand-off writes. */
  function SubmittedUpdate(at: string): RootUpdate
  {
    NoRootUpdate.(submitted := Some(true), submittedAt := Some(Some(at)))
  }

  class Review {
    var submitting: bool
    var submitted: bool
    var applicationId: Option<string>
    const store: Store

    constructor (store: Store)
      ensures this.store == store
      ensures !submitting && submitted == store.profile.submitted && applicationId.None?
    {
      this.store := store;
      submitting := false;
      submitted := store.profile.submitted;
      applicationId := None;
    }

    /** `handleSubmit`: hands the profile off (`now`, `randomText` and
        `handoffTime` feed `CompleteHandoff`, `saved` says whether its storage
        write went through, `threw` whether the call threw) and reports the
        outcome in `alertText`. Only a successful hand-off writes the store,
        and it records the identifier the hand-off generated. */
    method HandleSubmit(now: nat, randomText: string, handoffTime: string, saved: bool, threw: bool,
                        submittedAt: string) returns (alertText: string)
      modifies this, store
      ensures !threw && saved ==>
                && applicationId == Some(GenerateApplicationId(now, randomText)) && submitted
                && store.profile == old(store.profile).(submitted := true, submittedAt := Some(submittedAt))
                && alertText == SuccessAlert(applicationId.value)
      ensures !threw && !saved ==>
                && applicationId == old(applicationId) && submitted == old(submitted)
                && store.profile == old(store.profile) && alertText == HandoffError
      ensures threw ==>
                && applicationId == old(applicationId) && submitted == old(submitted)
                && store.profile == old(store.profile) && alertText == SubmissionError
      ensures !submitting
    {
      submitting := true;
      if threw {
        alertText := SubmissionError;
      } else {
        var r := CompleteHandoff(store.profile, now, randomText, handoffTime, saved);
        assert r.success == saved;
        assert saved ==> r.applicationId == Some(GenerateApplicationId(now, randomText));
        assert !saved ==> r.message == HandoffError;
        if r.success {
          applicationId := r.applicationId;
          submitted := true;
          store.UpdateState(SubmittedUpdate(submittedAt));
          alertText := SuccessAlert(r.applicationId.value);
        } else {
          alertText := r.message;
        }
      }
      submitting := false;
    }

    /** A section's edit button. */
    method Edit(section: Section)
      modifies store
      ensures store.profile == old(store.profile).(currentStep := EditStep(section))
    {
      store.UpdateState(StepUpdate(EditStep(section)));
    }

    /** `handleBack`. */
    method HandleBack()
      modifies store
      ensures store.profile == old(store.profile).(currentStep := 7)
    {
      store.UpdateState(StepUpdate(7));
    }

    /** "Start New": the whole profile goes back to its initial state. */
    method StartNew()
      modifies store
      ensures store.profile == Initial
    {
      store.Reset();
    }
  }
}
