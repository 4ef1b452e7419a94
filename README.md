# ArqDeal onboarding wizard — a Dafny model

ArqDeal's client onboarding is an eight-step wizard:

1. client type;
2. eligibility;
3. basic information;
4. address;
5. beneficial ownership (UBO);
6. trading activity;
7. wallet screening;
8. review and hand-off.

Every step reads and writes one profile. The profile lives in a React context store and is persisted to the browser's storage.

This project models in Dafny:
- the profile store and its shallow-merge updaters;
- the progress stepper;
- each step's validation schema and handlers;
- the wallet-screening mock;
- the identity-verification mock and its dialog;
- the hand-off mock that formats the application and gives it an identifier.

It proves what these promise: which inputs each form accepts, what each handler writes and what it leaves alone, the formatters' round trips and idempotence, the owner-list invariants, the ordering of the gates, and the shape of the generated identifiers.

Layout, one module per source file:
- `common.dfy` (`Common`): Option/Result, digits, JavaScript's `slice`, the toggle idiom, label lookup, and a matcher for the anchored digit patterns the schemas use.
- `profile.dfy` (`Onboarding`): the profile records, the update (patch) records with their merges, the owner list, step labels, and the `Store` class.
- `stepper.dfy`, `client_type.dfy`, `eligibility.dfy`, `basics.dfy`, `address.dfy`, `ubo.dfy`, `activity.dfy`, `wallet.dfy`, `review.dfy`: the wizard's screens. A screen's local React state is a class whose methods write that state and the shared `Store`.
- `scan.dfy` (`Chainalysis`), `handoff.dfy` (`Handoff`), `verification.dfy` (`Verification`): the three mocks, as pure functions.
- `modal.dfy` (`VerificationModal`): the verification dialog's state machine.

Modelling conventions:
- A JavaScript `{ ...prev, ...updates }` is a `Merge…` function over an update record whose fields are `Option`s. `None` means the key was not supplied.
- Formik only calls a form's `onSubmit` once its Yup schema accepts the values. So each `HandleSubmit` first evaluates the schema predicate and writes nothing when it fails.
- Navigation is left out. A view's redirect guard is a `Redirects` predicate on the profile.
- `Math.random()` draws are parameters: reals in [0, 1), or the text its base-36 rendering gives. So are the clock readings, the ISO time stamps, Yup's e-mail test (`isEmail`) and its date parser (`parseDate`).

Where the code departs from what a reader might expect, the model follows the code:
- **Date of birth.** The individual schema is built once, when the module loads. Its cutoff is therefore the load time minus 18 × 365 days, whenever the form is submitted. `BasicsStep.Env.loadTime` carries that instant.
- **Wallet submit.** Submitting the wallet step does not check that the scan result belongs to the address being submitted. If the address is edited after a scan, the stored wallet pairs the new address with the old result (`WalletStep.SubmitKeepsResultOfAnotherAddress`).
- **Verification dialog.** The ownership form mounts the verification dialog once, on its first render, with an empty phone (src/components/UboForm.jsx:38-43 and 461-467). The dialog copies its `phone` property into the SMS field only when it is created (src/components/MobileVerificationModal.jsx:23). So the individual's phone that `openVerificationModal` records never reaches the SMS field. The dialog's session identifier is also drawn once, so every owner's verification shares it. The model keeps the form's record (`UboStep.Form.modal`) and the dialog (`VerificationModal.Modal`) apart, so it states neither effect; this follows from reading the code only.

## Model

| member | source | states |
|---|---|---|
| Common.Slice | src/mocks/handoffMock.js:12 | `substring(i, j)` clamps both bounds to the length; the result is the characters from `i` on |
| Common.KeepDigits | src/components/BasicsForm.jsx:78 | `replace(/\D/g, '')` yields only digits, is no longer than its input, leaves an all-digit string unchanged and turns a string without digits into the empty string; with `KeepDigitsAppend` this fixes the result on every input (each digit kept, in order) |
| Common.KeepDigitsAppend | src/components/BasicsForm.jsx:78 | removing non-digits distributes over concatenation |
| Common.RemoveAll | src/components/EligibilityGate.jsx:28-30 | `filter(y => y !== x)` removes `x`, keeps every other element's membership, shrinks the list iff `x` was present |
| Common.Toggle | src/components/EligibilityGate.jsx:28-30 | checking an item flips its membership, leaves others' membership, appends at the end when absent |
| Common.LabelFor | src/components/ReviewSummary.jsx:139-142 | the first option whose value matches supplies the label (falling back to the value when the label is empty); with no match the raw value is returned |
| Common.MatchesDigitCount | src/components/BasicsForm.jsx:26 | a string matching an anchored digit pattern holds exactly as many digits as the pattern asks for |
| Chainalysis.CharCodeSum | src/mocks/chainalysisMock.js:52-54 | the sum of the address's character codes, as `reduce` from the left (one code per character) |
| Chainalysis.RiskOf | src/mocks/chainalysisMock.js:52-66 | risk is low iff the character-code sum mod 100 is below 70, medium iff 70-89, high iff 90 or more |
| Chainalysis.PickReason | src/mocks/chainalysisMock.js:79 | the reason drawn is always one of the list's entries |
| Chainalysis.ScoreFor | src/mocks/chainalysisMock.js:80-82 | scores fall in 0-29 for low, 30-69 for medium, 70-99 for high, and each band identifies its level |
| Chainalysis.ContextualFlag | src/mocks/chainalysisMock.js:85-110 | a flagged jurisdiction always yields the jurisdiction flag (overriding the volume flag); the volume flag appears iff '10M' is declared, risk is low, score < 20 and no flagged jurisdiction; otherwise no flag |
| Chainalysis.ScanWallet | src/mocks/chainalysisMock.js:40-126 | rejects exactly addresses shorter than 26 with the format error; otherwise echoes the address, buckets the risk, picks a reason of that level, gives a score in that level's band (0-29, 30-69, 70-99), risk factors are empty iff low and otherwise `[reason]`, 50 ≤ transactions < 1050, flag as above |
| Chainalysis.ScanRiskDeterministic | src/mocks/chainalysisMock.js:50-66 | two scans of one address agree on the risk whatever the draws and context |
| Chainalysis.RiskColor | src/mocks/chainalysisMock.js:133-144 | any value other than low/medium/high gets the gray default |
| Chainalysis.RiskBgColor | src/mocks/chainalysisMock.js:151-162 | any value other than low/medium/high gets the gray default |
| Chainalysis.RiskColorsDistinct | src/mocks/chainalysisMock.js:133-162 | the three levels get pairwise distinct colours and backgrounds, none equal to the default |
| Onboarding.NewOwner | src/contexts/OnboardingContext.jsx:152-161 | the appended owner has the given id, empty names and e-mail, empty percentage, all flags false |
| Onboarding.InitialProfile | src/contexts/OnboardingContext.jsx:7-86 | `initialState`: step 1, no client type, eligibility not completed, one blank owner with id 1, countries `['US']`, no scan, not submitted |
| Onboarding.MergeRoot | src/contexts/OnboardingContext.jsx:108-113 | the empty update leaves the profile unchanged |
| Onboarding.MergeEligibility | src/contexts/OnboardingContext.jsx:209-217 | the empty update leaves the section unchanged |
| Onboarding.MergeBasics | src/contexts/OnboardingContext.jsx:115-123 | the empty update leaves the section unchanged |
| Onboarding.MergeAddress | src/contexts/OnboardingContext.jsx:125-133 | the empty update leaves the section unchanged |
| Onboarding.MergeUbo | src/contexts/OnboardingContext.jsx:135-143 | the empty update leaves the section unchanged |
| Onboarding.MergeActivity | src/contexts/OnboardingContext.jsx:189-197 | the empty update leaves the section unchanged |
| Onboarding.MergeWallet | src/contexts/OnboardingContext.jsx:199-207 | the empty update leaves the section unchanged |
| Onboarding.MergeOwner | src/contexts/OnboardingContext.jsx:173 | the empty update leaves the owner unchanged |
| Onboarding.RootMergeIdempotent | src/contexts/OnboardingContext.jsx:108-113 | applying the same top-level update twice equals applying it once |
| Onboarding.EligibilityMergeIdempotent | src/contexts/OnboardingContext.jsx:209-217 | a repeated eligibility update changes nothing more |
| Onboarding.BasicsMergeIdempotent | src/contexts/OnboardingContext.jsx:115-123 | a repeated basics update changes nothing more |
| Onboarding.AddressMergeIdempotent | src/contexts/OnboardingContext.jsx:125-133 | a repeated address update changes nothing more |
| Onboarding.UboMergeIdempotent | src/contexts/OnboardingContext.jsx:135-143 | a repeated ownership update changes nothing more |
| Onboarding.ActivityMergeIdempotent | src/contexts/OnboardingContext.jsx:189-197 | a repeated activity update changes nothing more |
| Onboarding.WalletMergeIdempotent | src/contexts/OnboardingContext.jsx:199-207 | a repeated wallet update changes nothing more |
| Onboarding.OwnerMergeIdempotent | src/contexts/OnboardingContext.jsx:173 | a repeated owner update changes nothing more |
| Onboarding.StepUpdateKeepsData | src/contexts/OnboardingContext.jsx:108-113 | `updateState({currentStep: n})` changes the step and nothing else |
| Onboarding.RootMergesCompose | src/contexts/OnboardingContext.jsx:108-113 | two merges equal one merge in which every key the later update supplies wins and the other keys keep the earlier update's value; updates that supply disjoint keys commute |
| Onboarding.AppendOwner | src/contexts/OnboardingContext.jsx:145-165 | exactly one owner is appended at the end; the existing owners keep their order and values |
| Onboarding.AppendOwnerKeepsIdsUnique | src/contexts/OnboardingContext.jsx:145-165 | with a fresh id, owner ids stay unique |
| Onboarding.UpdateOwners | src/contexts/OnboardingContext.jsx:167-177 | length and order are kept, each owner is merged iff its id matches, and with no match the list is unchanged |
| Onboarding.UpdateOwnersKeepsIds | src/contexts/OnboardingContext.jsx:167-177 | an update without `id` keeps every id, so unique ids stay unique |
| Onboarding.RemoveOwners | src/contexts/OnboardingContext.jsx:179-187 | exactly the owners with a different id remain; with no match the list is unchanged |
| Onboarding.RemoveOwnersAppend | src/contexts/OnboardingContext.jsx:184 | the filter works element by element, so it keeps the original order |
| Onboarding.RemoveOwnersUnique | src/contexts/OnboardingContext.jsx:179-187 | with unique ids, removing owner k leaves `owners[..k] + owners[k+1..]`, one shorter; no minimum size is enforced |
| Onboarding.StepLabel | src/contexts/OnboardingContext.jsx:249-261 | the label is non-empty exactly for steps 1..8 |
| Onboarding.PrevStepOf | src/contexts/OnboardingContext.jsx:233-238 | `max(1, step - 1)`: never below 1, one less above 1 |
| Onboarding.Store.Load | src/contexts/OnboardingContext.jsx:89-101 | the saved profile when one parses, `initialState` when nothing is saved or parsing fails |
| Onboarding.Store.UpdateState | src/contexts/OnboardingContext.jsx:108-113 | the new profile is the shallow merge of the old one with the update |
| Onboarding.Store.UpdateEligibility | src/contexts/OnboardingContext.jsx:209-217 | only the eligibility section changes, by a merge |
| Onboarding.Store.UpdateBasics | src/contexts/OnboardingContext.jsx:115-123 | only the basics section changes, by a merge |
| Onboarding.Store.UpdateAddress | src/contexts/OnboardingContext.jsx:125-133 | only the address section changes, by a merge |
| Onboarding.Store.UpdateUbo | src/contexts/OnboardingContext.jsx:135-143 | only the ownership section changes, by a merge |
| Onboarding.Store.UpdateActivity | src/contexts/OnboardingContext.jsx:189-197 | only the activity section changes, by a merge |
| Onboarding.Store.UpdateWallet | src/contexts/OnboardingContext.jsx:199-207 | only the wallet section changes, by a merge |
| Onboarding.Store.AddOwner | src/contexts/OnboardingContext.jsx:145-165 | only the owner list changes: a blank owner is appended |
| Onboarding.Store.UpdateOwner | src/contexts/OnboardingContext.jsx:167-177 | only the owner list changes: the matching owners are merged |
| Onboarding.Store.RemoveOwner | src/contexts/OnboardingContext.jsx:179-187 | only the owner list changes: the matching owners are dropped |
| Onboarding.Store.SetStep | src/contexts/OnboardingContext.jsx:219-224 | only the step changes, to the given value |
| Onboarding.Store.NextStep | src/contexts/OnboardingContext.jsx:226-231 | the step grows by one, with no upper clamp |
| Onboarding.Store.PrevStep | src/contexts/OnboardingContext.jsx:233-238 | the step becomes `max(1, step - 1)` and is at least 1 |
| Onboarding.Store.Reset | src/contexts/OnboardingContext.jsx:240-243 | the profile becomes `initialState` |
| Stepper.RenderedSteps | src/components/ProgressStepper.jsx:6 | the rendered steps are 1, 2, …, 8 in order |
| Stepper.CanNavigate | src/components/ProgressStepper.jsx:9-14 | `canNavigateToStep`: a step can be reached iff it comes before the current step; never forward |
| Stepper.IsCompleted | src/components/ProgressStepper.jsx:46 | a step is shown as completed iff it comes before the current step |
| Stepper.IsCurrent | src/components/ProgressStepper.jsx:47 | a step is shown as current iff it equals the current step |
| Stepper.RenderedStepsAreOneToCount | src/components/ProgressStepper.jsx:6 | a step is rendered iff it lies in 1..`getStepCount()` |
| Stepper.ExactlyOneCurrent | src/components/ProgressStepper.jsx:9-48 | with the current step in 1..8 exactly one rendered step is current; a step is clickable iff completed; no completed step is current |
| Stepper.NoCurrentPastTheEnd | src/components/ProgressStepper.jsx:46-47 | past step 8 every rendered step shows as completed and none as current |
| Stepper.HandleStepClick | src/components/ProgressStepper.jsx:16-20 | sets the step only when it is below the current one, so a click never increases the step |
| ClientTypeStep.ContinueCheck | src/components/ClientTypeSelector.jsx:13-22 | no type gives the select-type error (checked first); a type without the disclaimer gives the disclaimer error; otherwise success with the chosen type |
| ClientTypeStep.ContinueEnabled | src/components/ClientTypeSelector.jsx:202 | the continue button is enabled iff a type is chosen and the disclaimer is ticked |
| ClientTypeStep.EnabledIffContinueSucceeds | src/components/ClientTypeSelector.jsx:202 | the continue button is enabled iff continuing succeeds |
| ClientTypeStep.ContinueWritesOnlyStepOne | src/components/ClientTypeSelector.jsx:23-27 | success writes the client type, the disclaimer (true) and step 2, and nothing else |
| ClientTypeStep.Selector.constructor | src/components/ClientTypeSelector.jsx:9-11 | local state starts from the stored type and disclaimer, with no error |
| ClientTypeStep.Selector.Select | src/components/ClientTypeSelector.jsx:76-80 | choosing a type clears the error |
| ClientTypeStep.Selector.SetDisclaimer | src/components/ClientTypeSelector.jsx:157-161 | ticking the disclaimer clears the error |
| ClientTypeStep.Selector.HandleContinue | src/components/ClientTypeSelector.jsx:13-29 | a failed check sets its error and leaves the store; success merges the three keys and navigates |
| EligibilityStep.CheckItem | src/components/EligibilityGate.jsx:23-34 | toggles the item's membership (appending when absent), leaves others, always clears "none of the above", so the two never hold together |
| EligibilityStep.NoneOfAbove | src/components/EligibilityGate.jsx:36-42 | empties the checked items and flips "none of the above" |
| EligibilityStep.NoneOfAboveTwice | src/components/EligibilityGate.jsx:36-42 | toggling "none of the above" twice restores the flag, with no items |
| EligibilityStep.CheckItemTwice | src/components/EligibilityGate.jsx:23-34 | checking and unchecking a new item restores the list |
| EligibilityStep.ContinueOutcome | src/components/EligibilityGate.jsx:44-60 | rejection iff an item is checked; confirmation needed iff nothing is checked and the flag is off; proceed iff nothing is checked and the flag is on |
| EligibilityStep.AfterContinue | src/components/EligibilityGate.jsx:55-60 | proceeding writes `{completed, noneOfAbove, checkedItems: []}` and step 3, and nothing else |
| EligibilityStep.Gate.constructor | src/components/EligibilityGate.jsx:11-14 | local state starts from the stored selection, modal closed, no error |
| EligibilityStep.Gate.HandleCheckItem | src/components/EligibilityGate.jsx:23-34 | the selection becomes `CheckItem` of the old one and the error is cleared |
| EligibilityStep.Gate.HandleNoneOfAbove | src/components/EligibilityGate.jsx:36-42 | the selection becomes `NoneOfAbove` of the old one and the error is cleared |
| EligibilityStep.Gate.HandleContinue | src/components/EligibilityGate.jsx:44-62 | rejection opens the modal and writes nothing; a missing confirmation sets the error and writes nothing; proceeding writes the confirmed section and step 3 |
| EligibilityStep.Gate.DismissRejection | src/components/EligibilityGate.jsx:239 | closes the modal and keeps the selection |
| EligibilityStep.Gate.GoBackAndReview | src/components/EligibilityGate.jsx:270-273 | closes the modal and clears the checked items |
| EligibilityStep.Gate.HandleBack | src/components/EligibilityGate.jsx:64-67 | sets step 1 and nothing else |
| EligibilityStep.Redirects | src/components/EligibilityGate.jsx:17-21 | the view redirects to the start iff no client type is chosen |
| BasicsStep.PhoneOk | src/components/BasicsForm.jsx:21-23 | accepts exactly 10 to 15 characters, all decimal digits (the entity's business phone uses the same test) |
| BasicsStep.SsnOk | src/components/BasicsForm.jsx:25-27 | accepts 3 digits, an optional '-', 2 digits, an optional '-', 4 digits, and nothing else |
| BasicsStep.EinOk | src/components/BasicsForm.jsx:41-43 | accepts 2 digits, an optional '-', 7 digits, and nothing else |
| BasicsStep.DobOk | src/components/BasicsForm.jsx:28-30 | accepts a non-empty date that parses and lies at or before the load time minus 18 × 365 days |
| BasicsStep.IndividualValid | src/components/BasicsForm.jsx:18-31 | individual values with first and last name, a valid e-mail, a valid phone, citizenship, a valid SSN and an adult birth date |
| BasicsStep.EntityValid | src/components/BasicsForm.jsx:33-51 | entity values with a legal name, a country of incorporation (and a state when it is 'US'), a valid EIN, a valid business phone, an industry and a description of at least 20 characters |
| BasicsStep.SchemaAccepts | src/components/BasicsForm.jsx:149 | the individual schema for an individual client, the entity schema otherwise |
| BasicsStep.IdentifierDigits | src/components/BasicsForm.jsx:25-43 | an accepted SSN holds 9 digits in 9-11 characters; an accepted EIN holds 9 digits in 9-10 characters |
| BasicsStep.StateRequiredOnlyInUs | src/components/BasicsForm.jsx:36-40 | an accepted US entity has a state of incorporation; outside the US the state does not affect acceptance |
| BasicsStep.AcceptedDobIsAdult | src/components/BasicsForm.jsx:28-30 | an accepted birth date lies at least 18 × 365 days before the schema's load time |
| BasicsStep.FormatSsn | src/components/BasicsForm.jsx:77-82 | up to 3 digits are returned bare; otherwise hyphens follow the 3rd digit and (past 5 digits) the 5th, with at most 9 digits |
| BasicsStep.FormatEin | src/components/BasicsForm.jsx:84-88 | up to 2 digits are returned bare; otherwise a hyphen follows the 2nd digit, with at most 9 digits |
| BasicsStep.FormatSsnDigits | src/components/BasicsForm.jsx:77-82 | the formatted SSN holds exactly the input's first nine digits |
| BasicsStep.FormatEinDigits | src/components/BasicsForm.jsx:84-88 | the formatted EIN holds exactly the input's first nine digits |
| BasicsStep.FormatSsnIdempotent | src/components/BasicsForm.jsx:77-82 | formatting a formatted SSN changes nothing |
| BasicsStep.FormatEinIdempotent | src/components/BasicsForm.jsx:84-88 | formatting a formatted EIN changes nothing |
| BasicsStep.FormatSsnAccepted | src/components/BasicsForm.jsx:77-82 | the formatted SSN passes the schema's pattern iff the input has at least nine digits |
| BasicsStep.FormatEinAccepted | src/components/BasicsForm.jsx:84-88 | the formatted EIN passes the schema's pattern iff the input has at least nine digits |
| BasicsStep.InitialValues | src/components/BasicsForm.jsx:90-115 | the form takes the individual shape iff the client is an individual; the phone country code defaults to '+1' |
| BasicsStep.SubmitMerge | src/components/BasicsForm.jsx:66-115 | submit stores every submitted field and the upload flag, leaves the other kind's fields alone, and reloading the form gives back the submitted values |
| BasicsStep.ResubmitInitialValues | src/components/BasicsForm.jsx:66-115 | submitting the form unchanged leaves the basics section as it was |
| BasicsStep.Form.constructor | src/components/BasicsForm.jsx:56 | the upload flag starts from the stored one |
| BasicsStep.Form.UploadEinDocument | src/components/BasicsForm.jsx:510 | the upload flag becomes true |
| BasicsStep.Form.HandleSubmit | src/components/BasicsForm.jsx:66-70 | the store changes iff the schema for the client type accepts the values, and then exactly by the merged values and step 4 |
| BasicsStep.Form.HandleBack | src/components/BasicsForm.jsx:72-75 | sets step 2 and nothing else |
| BasicsStep.Redirects | src/components/BasicsForm.jsx:60-64 | the view redirects to the start iff no client type is chosen or the eligibility step is not completed |
| AddressStep.UsZipOk | src/components/AddressForm.jsx:19-24 | accepts `\d{5}` or `\d{5}-\d{4}` exactly |
| AddressStep.AddressValid | src/components/AddressForm.jsx:10-45 | country, street, city and ZIP required; a state and a well-formed ZIP for 'US'; with a separate physical address its street, city and ZIP required, and its state when its country is 'US' |
| AddressStep.UsZipShape | src/components/AddressForm.jsx:19-24 | an accepted US ZIP is 5 digits, or 5 digits, '-' and 4 digits |
| AddressStep.StateRequiredIffUs | src/components/AddressForm.jsx:14-18 | a US address needs a state; outside the US the state does not affect acceptance |
| AddressStep.PhysicalIgnoredUnlessSeparate | src/components/AddressForm.jsx:25-44 | without a separate physical address the physical fields do not affect acceptance |
| AddressStep.PhysicalRules | src/components/AddressForm.jsx:25-44 | with a separate physical address its ZIP is required but never format-checked, and its state is required iff its country is US |
| AddressStep.InitialValues | src/components/AddressForm.jsx:69-83 | both countries default to 'US'; every other field is taken as stored |
| AddressStep.SubmitReplacesSection | src/components/AddressForm.jsx:58-83 | submit replaces the whole section with the values, and reloading the form gives them back |
| AddressStep.HandleSubmit | src/components/AddressForm.jsx:58-62 | the store changes iff the schema accepts, and then to the values and step 5 |
| AddressStep.HandleBack | src/components/AddressForm.jsx:64-67 | sets step 3 and nothing else |
| AddressStep.Redirects | src/components/AddressForm.jsx:52-56 | the view redirects to the start iff no client type is chosen or the current step is below 4 |
| UboStep.OwnerValid | src/components/UboForm.jsx:20-28 | first and last name, a valid e-mail, and a percentage that is a number in 0..100 |
| UboStep.UboValid | src/components/UboForm.jsx:30-33 | every owner valid and the certification ticked |
| UboStep.TotalOwnership | src/components/UboForm.jsx:93-95 | the left-to-right sum of the owners' percentages, a blank one counting 0 |
| UboStep.SubmitEnabled | src/components/UboForm.jsx:447 | the submit button is enabled for an individual, and for an entity iff the total is at most 100 |
| UboStep.PercentValue | src/components/UboForm.jsx:94 | an empty percentage counts as 0 |
| UboStep.TotalAppend | src/components/UboForm.jsx:93-95 | the total of two lists is the sum of their totals |
| UboStep.TotalOfValidOwners | src/components/UboForm.jsx:93-95 | owners that pass the schema total between 0 and 100 per owner |
| UboStep.TotalAfterAdd | src/components/UboForm.jsx:344-361 | adding an owner leaves the total unchanged |
| UboStep.TotalAfterRemove | src/components/UboForm.jsx:155-160 | removing an owner lowers the total by exactly that owner's percentage |
| UboStep.StatusOf | src/components/UboForm.jsx:377-396 | over 100 is the error state, exactly 100 the clean state, 0-100 exclusive the "remaining" warning, none otherwise |
| UboStep.EntitySubmitBlockedIffOver | src/components/UboForm.jsx:447 | for entities submit is disabled iff the total exceeds 100 |
| UboStep.OverAllocatedExample | src/components/UboForm.jsx:447 | two owners at 60% and 50% total 110 and block an entity's submit |
| UboStep.Prefill | src/components/UboForm.jsx:54-63 | the single owner gets the basics' names and e-mail and 100%; nothing else changes; the total becomes 100 |
| UboStep.PrefillApplies | src/components/UboForm.jsx:55 | the pre-fill runs iff the client is an individual with exactly one owner whose first name is empty |
| UboStep.PrefillRunsOnce | src/components/UboForm.jsx:54-63 | after a pre-fill with a non-empty first name the pre-fill condition no longer holds |
| UboStep.VerificationMarksOnlyThatOwner | src/components/UboForm.jsx:88-91 | verification success sets `verified` on the owner with that id and changes no other owner or field |
| UboStep.Form.constructor | src/components/UboForm.jsx:38-43 | the verification modal starts closed |
| UboStep.Form.RunPrefill | src/components/UboForm.jsx:54-63 | the effect writes the pre-filled profile when its condition holds and nothing otherwise |
| UboStep.Form.AddOwner | src/components/UboForm.jsx:344-361 | only entities can add; the store gains one blank owner; unique ids stay unique with a fresh id |
| UboStep.Form.RemoveOwner | src/components/UboForm.jsx:155-160 | only entities with more than one owner can remove; then exactly the owners with that id go |
| UboStep.Form.HandleSubmit | src/components/UboForm.jsx:65-72 | the store changes iff the schema accepts (certified included) and an entity's total is at most 100, and then to the owners, certification and step 6 |
| UboStep.Form.HandleBack | src/components/UboForm.jsx:74-77 | sets step 4 and nothing else |
| UboStep.Redirects | src/components/UboForm.jsx:47-51 | the view redirects to the start iff no client type is chosen or the current step is below 5 |
| UboStep.Form.OpenVerificationModal | src/components/UboForm.jsx:79-86 | the modal opens for that owner with "first last" and the phone only for individuals |
| UboStep.Form.HandleVerificationSuccess | src/components/UboForm.jsx:88-91 | marks the recorded owner verified (nothing when none is recorded) and closes the modal |
| ActivityStep.SelectHighRisk | src/components/ActivityForm.jsx:120-122 | keeps exactly the selected codes that are high-risk; all of them when every code is |
| ActivityStep.SelectHighRiskAppend | src/components/ActivityForm.jsx:122 | the filter distributes over concatenation, so the selected codes keep the order of the selection |
| ActivityStep.ActivityValid | src/components/ActivityForm.jsx:24-36 | a usage description of at least 50 characters, at least one source of funds, a trade size, a monthly volume and at least one operating country |
| ActivityStep.NamesOf | src/components/ActivityForm.jsx:124-126 | each flagged code is reported by its label, falling back to the code |
| ActivityStep.HasHighRiskIff | src/components/ActivityForm.jsx:120-132 | the check reports true iff some selected code is high-risk |
| ActivityStep.HasHighRisk | src/components/ActivityForm.jsx:120-132 | `checkHighRiskCountries` reports true iff the filtered high-risk selection is non-empty |
| ActivityStep.SubmitProceeds | src/components/ActivityForm.jsx:134-145 | the schema accepts and the selection is not high-risk-and-unacknowledged |
| ActivityStep.AcknowledgementGate | src/components/ActivityForm.jsx:134-145 | without a high-risk country submit proceeds iff valid; acknowledging makes it proceed iff valid; unacknowledged high risk never proceeds |
| ActivityStep.SubmitReplacesSection | src/components/ActivityForm.jsx:142 | submit replaces the whole activity section with the values |
| ActivityStep.Form.constructor | src/components/ActivityForm.jsx:106-165 | the form starts from the stored section with the modal closed |
| ActivityStep.Form.CheckHighRiskCountries | src/components/ActivityForm.jsx:120-132 | returns whether a high-risk code is selected; if so it opens the modal with their labels, otherwise it changes nothing |
| ActivityStep.Form.EditText | src/components/ActivityForm.jsx:24-36 | only the three text fields change |
| ActivityStep.Form.ToggleFundSource | src/components/ActivityForm.jsx:246-251 | the source is removed when selected and appended otherwise |
| ActivityStep.Form.SetCountries | src/components/ActivityForm.jsx:348-354 | the countries change, the acknowledgement is kept; a high-risk selection opens the modal with the labels of the selected high-risk codes, otherwise the modal and names are unchanged |
| ActivityStep.Form.AcknowledgeHighRisk | src/components/ActivityForm.jsx:152-155 | sets the acknowledgement and closes the modal |
| ActivityStep.Form.CloseHighRiskModal | src/components/ActivityForm.jsx:398 | closes the modal and changes nothing else |
| ActivityStep.Form.HandleSubmit | src/components/ActivityForm.jsx:134-145 | the store changes iff the gate lets the submit through, and then to the values and step 7; a valid high-risk selection opens the modal with the selected codes' labels, otherwise the modal and names are unchanged |
| ActivityStep.Form.HandleBack | src/components/ActivityForm.jsx:147-150 | sets step 5 and nothing else |
| ActivityStep.Redirects | src/components/ActivityForm.jsx:114-118 | the view redirects to the start iff no client type is chosen or the current step is below 6 |
| WalletStep.WalletValid | src/components/WalletVerification.jsx:20-25 | a non-empty address of 26 to 62 characters |
| WalletStep.ScanEnabled | src/components/WalletVerification.jsx:146 | the scan button is enabled iff the address is non-empty, at least 26 characters, and no scan is running |
| WalletStep.ScanButtonMatchesScreening | src/components/WalletVerification.jsx:146 | an enabled scan button never hits the mock's format error; a valid address enables it; an over-long address enables it though the schema rejects it |
| WalletStep.ContextOf | src/components/WalletVerification.jsx:46-49 | the scan context is the activity's monthly volume and countries |
| WalletStep.View.constructor | src/components/WalletVerification.jsx:30-32 | the view starts from the stored address and result, not scanning, no error |
| WalletStep.View.EditAddress | src/components/WalletVerification.jsx:134-142 | only the address changes |
| WalletStep.View.HandleScan | src/components/WalletVerification.jsx:40-62 | a successful scan shows and stores the result for that address; a failed one clears the result, shows the error and leaves the store; scanning ends false |
| WalletStep.View.HandleSubmit | src/components/WalletVerification.jsx:64-77 | the store changes iff the address is valid and a result exists (any risk), then to the address, `scanCompleted` and the result with step 8; without a result the scan-first error is shown; otherwise the error, the scanning flag, the address and the result are kept |
| WalletStep.View.HandleBack | src/components/WalletVerification.jsx:79-82 | sets step 6 and nothing else |
| WalletStep.Redirects | src/components/WalletVerification.jsx:34-38 | the view redirects to the start iff no client type is chosen or the current step is below 7 |
| WalletStep.SubmitKeepsResultOfAnotherAddress | src/components/WalletVerification.jsx:64-77 | the submitted wallet can pair an address with the result of a different scanned address |
| Handoff.ToRadix | src/mocks/handoffMock.js:11 | `toString(radix)` writes at least one digit |
| Handoff.RadixRoundTrip | src/mocks/handoffMock.js:11 | reading a rendered number back gives the number |
| Handoff.ToUpper | src/mocks/handoffMock.js:14 | upper-casing keeps the length and works character by character |
| Handoff.ParseUpper | src/mocks/handoffMock.js:11-14 | upper-casing does not change the value a digit string reads as |
| Handoff.GenerateApplicationId | src/mocks/handoffMock.js:10-14 | 'ARQ-', the base-36 time, '-' and characters 2..8 of the random text, upper-cased as a whole |
| Handoff.ApplicationIdParts | src/mocks/handoffMock.js:10-14 | the identifier is 'ARQ-', the upper-cased time stamp, '-', the upper-cased random part |
| Handoff.ApplicationIdShape | src/mocks/handoffMock.js:10-14 | the identifier starts 'ARQ-', its stamp reads back as the time, and at most six random characters follow the '-' |
| Handoff.JoinStreet | src/mocks/handoffMock.js:50-58 | street1 alone when street2 is empty, otherwise street1, ', ' and street2 |
| Handoff.OwnershipText | src/mocks/handoffMock.js:70 | the ownership text always ends in '%'; an empty percentage gives '%' alone |
| Handoff.OwnershipTextReadsBack | src/mocks/handoffMock.js:70 | a numeric percentage is its decimal digits then '%', and the digits read back as the number |
| Handoff.SummarizeOwners | src/mocks/handoffMock.js:67-73 | one summary per owner, in order |
| Handoff.SummarizeOwner | src/mocks/handoffMock.js:67-73 | an owner's summary: "first last", the e-mail, the ownership text, the control-person flag and `verified` as `idVerified` |
| Handoff.FormatApplicationData | src/mocks/handoffMock.js:21-99 | client type label iff individual; person shape iff individual; `dba` only when flagged; streets joined; physical address null iff not separate; owners one-to-one with ownership text, e-mail and `idVerified`; compliance `(true, true, certified)`; countries and address carried over; the scan's risk level, score, reason and time carried over, all absent without a scan |
| Handoff.FullNameParts | src/mocks/handoffMock.js:31 | the name is "first last"; the middle name and the suffix are each inserted only when present, in all four combinations |
| Handoff.FullName | src/mocks/handoffMock.js:31 | first name, the middle name followed by a space when present, last name, and a space and the suffix when present |
| Handoff.ApplicantOf | src/mocks/handoffMock.js:29-46 | an individual gets the person shape (full name, e-mail, "code phone", citizenship, birth date); anyone else the company shape, with `dba` only when flagged and the jurisdiction "state, country" |
| Handoff.WalletOf | src/mocks/handoffMock.js:83-89 | the wallet address, and the scan's risk level, score, reason and time, each absent without a scan |
| Handoff.CompleteHandoff | src/mocks/handoffMock.js:185-217 | success iff the save goes through, with the generated identifier, the formatted application and the success message; otherwise no identifier, no application, the error message |
| ReviewStep.EditStep | src/components/ReviewSummary.jsx:205-382 | each section's edit button targets a step in 3..7 whose label is that section's |
| ReviewStep.EditStepsDistinct | src/components/ReviewSummary.jsx:205-382 | different sections' edit buttons target different steps |
| ReviewStep.GetLabel | src/components/ReviewSummary.jsx:139-142 | the first matching option's label when non-empty, else the value; the value itself when no option matches |
| ReviewStep.SsnMask | src/components/ReviewSummary.jsx:226 | '-' for an empty SSN, otherwise '***-**-' and the last four characters |
| ReviewStep.SsnMaskHidesAllButLastFour | src/components/ReviewSummary.jsx:226 | two SSNs of four or more characters are masked alike exactly when their last four characters agree |
| ReviewStep.MaskOfFormattedSsn | src/components/BasicsForm.jsx:77-82 | a formatted SSN is masked to '***-**-' and its 6th to 9th digits |
| ReviewStep.Review.constructor | src/components/ReviewSummary.jsx:92-94 | not submitting, `submitted` from the store, no identifier |
| ReviewStep.Review.HandleSubmit | src/components/ReviewSummary.jsx:104-127 | success records the generated identifier, sets `submitted` and `submittedAt` and alerts it; a failed hand-off or an exception leaves the store and alerts the message; `submitting` ends false |
| ReviewStep.Review.Edit | src/components/ReviewSummary.jsx:205-208 | sets the section's step and nothing else |
| ReviewStep.Review.HandleBack | src/components/ReviewSummary.jsx:129-132 | sets step 7 and nothing else |
| ReviewStep.Redirects | src/components/ReviewSummary.jsx:98-102 | the view redirects to the start iff no client type is chosen or the current step is below 8 |
| ReviewStep.Review.StartNew | src/components/ReviewSummary.jsx:134-137 | the profile becomes `initialState` |
| Verification.GenerateSessionId | src/mocks/verificationMock.js:17-19 | 'vs_', the decimal time, '_' and characters 2..11 of the random text |
| Verification.SessionIdShape | src/mocks/verificationMock.js:17-19 | the session identifier is 'vs_', the decimal time (all digits, reading back as the time), '_' and at most nine random characters |
| Verification.SessionIdsDifferInTime | src/mocks/verificationMock.js:17-19 | sessions started at different times get different identifiers |
| Verification.QrCodeData | src/mocks/verificationMock.js:26-29 | the link is the session URL prefix followed by the session identifier |
| Verification.QrCodeDataInjective | src/mocks/verificationMock.js:26-29 | different sessions get different links |
| Verification.LastFour | src/mocks/verificationMock.js:55 | `slice(-4)` gives the last four characters, or all of a shorter string |
| Verification.PadStart | src/mocks/verificationMock.js:55 | `padStart` leaves a long enough string alone, otherwise fills on the left up to the length |
| Verification.MaskPhone | src/mocks/verificationMock.js:55 | the mask has the number's length, keeps its last four characters and has '*' elsewhere |
| Verification.MaskHidesAllButLastFour | src/mocks/verificationMock.js:55 | numbers of one length with the same last four characters are masked alike |
| Verification.SendVerificationSms | src/mocks/verificationMock.js:37-59 | a number shorter than ten fails with the format message and no session; otherwise delivery succeeds iff the draw is below 0.95, with the masked number or the failure message, and the session is echoed |
| Verification.SmsMessageRevealsOnlyLastFour | src/mocks/verificationMock.js:52-58 | the SMS result depends on the number only through its length and last four characters |
| Verification.SimulateVerification | src/mocks/verificationMock.js:84-136 | success iff the draw is below the rate (0.85 by default); success is 'completed', verified, score 85-99, the owner's name ('Unknown' by default); failure is 'failed', not verified, retryable, with one of the five reasons |
| Verification.SuccessRateBounds | src/mocks/verificationMock.js:85-95 | without options the rate is 0.85; a rate of 1 or more always succeeds and 0 or less always fails |
| Verification.StatusMatchesVerified | src/mocks/verificationMock.js:97-135 | the status is 'completed' iff the result is verified, and 'failed' iff it is not |
| VerificationModal.SendPressableOnlyWhenIdle | src/components/MobileVerificationModal.jsx:232-234 | the send button is on screen and enabled exactly when the status is idle |
| VerificationModal.ControlsShown | src/components/MobileVerificationModal.jsx:117-148 | the QR and SMS controls are shown iff the status is neither verifying, success nor failed |
| VerificationModal.SendEnabled | src/components/MobileVerificationModal.jsx:234 | the send button is disabled iff an SMS is being sent |
| VerificationModal.RetryShown | src/components/MobileVerificationModal.jsx:140-148 | "Try Again" is shown iff the status is failed and the result allows a retry |
| VerificationModal.Modal.constructor | src/components/MobileVerificationModal.jsx:19-26 | one session identifier and its link, QR tab, phone from the property, idle, no message, no retry |
| VerificationModal.Modal.Close | src/components/MobileVerificationModal.jsx:28-34 | closing resets status to idle, the message to '' and the retry flag, keeping the tab and phone |
| VerificationModal.Modal.SelectMode | src/components/MobileVerificationModal.jsx:164-177 | only the tab changes |
| VerificationModal.Modal.EditPhone | src/components/MobileVerificationModal.jsx:218-225 | only the phone field changes |
| VerificationModal.Modal.HandleSendSms | src/components/MobileVerificationModal.jsx:36-44 | a number shorter than ten only sets the message and leaves the status; otherwise the status becomes sending with no message |
| VerificationModal.Modal.StartVerification | src/components/MobileVerificationModal.jsx:56-58 | the status becomes verifying with the waiting message |
| VerificationModal.Modal.HandleQrScan | src/components/MobileVerificationModal.jsx:79-82 | the QR path starts the verification |
| VerificationModal.Modal.OnSmsResult | src/components/MobileVerificationModal.jsx:45-53 | a delivered SMS moves to verifying; a failure returns to idle with the mock's message |
| VerificationModal.Modal.OnVerificationResult | src/components/MobileVerificationModal.jsx:60-76 | success iff the draw is below 0.85, showing the mock's message and handing its result to `onSuccess`; failure shows the reason and allows a retry |
| VerificationModal.Modal.Retry | src/components/MobileVerificationModal.jsx:84-88 | offered only on a retryable failure; returns to idle and clears the message and the retry flag |

## Left out

- Rendering, styling, icons, animations, the progress bar's width and all `toFixed`/`toLocaleString` display formatting.
- Routing. `navigate(...)` calls are left out; each view's redirect effect is a `Redirects` predicate on the profile.
- Persistence. Writing the profile to the browser's storage on every change, `saveApplication`, `getAllApplications` and clearing the storage slot on reset are I/O. The store's start-up reads an abstract `Saved` value instead: missing, malformed or a stored profile. The hand-off's storage write is the `saved` flag.
- Asynchrony and latency. Every `await` is a point where a handler splits. Scanning (`WalletStep.View.HandleScan`) and the hand-off (`ReviewStep.Review.HandleSubmit`) run atomically. The dialog's continuations (`OnSmsResult`, `OnVerificationResult`) may run in any state. The `Valid` invariant (a retry is offered only after a failure) is only promised when no retry was pending. The 1.5-second delay before `onSuccess` is not modelled.
- Randomness and the clock are parameters, not sources: draws in [0, 1), random base-36 text, millisecond times, ISO time stamps. The randomly generated `firstSeen` and `totalVolume` strings of a scan are parameters as well.
- Yup's e-mail test and date parsing are the parameters `isEmail` and `parseDate`. Their own rules are not part of this model.
- The option tables of `src/constants/formOptions` (countries, high-risk countries, fund sources, eligibility items) are not part of this model. The forms take them as parameters (`highRiskCodes`, `allCountries`).
- UboStep.Form.HandleSubmit: takes the submitted owner list as a parameter. It does not model Formik's own copy of the owners (`push`/`remove` in the field array), `enableReinitialize`, or the two independent `Date.now()` ids that the add button gives the Formik copy and the store copy.
- UboStep.PercentValue: percentages are empty or whole numbers. Fractional values and `parseFloat` of non-numeric text (which counts as 0) are not modelled.
- Lengths are counted in Dafny characters, not JavaScript UTF-16 code units.
- Chainalysis.CharCodeSum: adds one code per character, which equals JavaScript's sum of `charCodeAt` only for characters in the Basic Multilingual Plane; a character outside it contributes two surrogate code units in JavaScript, so `RiskOf` can differ for such addresses. No Unicode case mapping is modelled beyond ASCII letters in the identifiers.
- `notifyBizDevTeam` (its e-mail text and delay), `checkVerificationStatus`, `uploadDocument` and the QR-code image are mock side effects with nothing to state. The `duration` option of `simulateVerification` only sets a delay.
- Console logging and `alert` dialogs. The review step's alert text is returned as a value instead.

