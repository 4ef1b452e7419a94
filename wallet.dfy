/** Step 7, wallet verification (src/components/WalletVerification.jsx): the
    address is screened with the wallet-screening mock before it can be
    submitted. */
module WalletStep {
  import opened Common
  import opened Onboarding
  import opened Chainalysis

  const ScanFirstError := "Please scan the wallet address before continuing"

  /** `walletSchema`: an address of 26 to 62 characters. */
  predicate WalletValid(address: string)
  {
    Required(address) && 26 <= |address| <= 62
  }

  /** The scan button's `disabled={!address || address.length < 26 || scanning}`, negated. */
  predicate ScanEnabled(address: string, scanning: bool)
  {
    address != "" && |address| >= 26 && !scanning
  }

  /** The scan button is enabled only for addresses the screening accepts, and
      every address the schema accepts can be scanned when no scan is running.
      An address longer than 62 characters can be scanned but not submitted. */
  lemma ScanButtonMatchesScreening(address: string, scanning: bool, ctx: ScanContext, d: Draws)
    requires ValidDraws(d)
    ensures ScanEnabled(address, scanning) ==> ScanWallet(address, ctx, d).Ok?
    ensures WalletValid(address) ==> ScanEnabled(address, false)
    ensures |address| > 62 ==> ScanEnabled(address, false) && !WalletValid(address)
  {
  }

  /** What the screening is told about the applicant: the stored activity section. */
  function ContextOf(a: Activity): (ctx: ScanContext)
    ensures ctx.monthlyVolume == a.monthlyVolume && ctx.operatingCountries == a.operatingCountries
  {
    ScanContext(a.monthlyVolume, a.operatingCountries)
  }

  /** The wallet section a completed scan or a submit writes. */
  function ScannedWallet(address: string, result: ScanResult): WalletUpdate
  {
    WalletUpdate(Some(address), Some(true), Some(Some(result)))
  }

  /** The view sends the user to step 1 without a client type or before step 7. */
  predicate Redirects(p: Profile)
  {
    p.clientType.None? || p.currentStep < 7
  }

  class View {
    /** The Formik value of the address field. */
    var address: string
    var scanning: bool
    var scanResult: Option<ScanResult>
    var scanError: string
    const store: Store

    /** The local state starts from the stored wallet section. */
    constructor (store: Store)
      ensures this.store == store
      ensures address == store.profile.wallet.address && scanResult == store.profile.wallet.scanResult
      ensures !scanning && scanError == ""
    {
      this.store := store;
      address := store.profile.wallet.address;
      scanResult := store.profile.wallet.scanResult;
      scanning := false;
      scanError := "";
    }

    method EditAddress(value: string)
      modifies this
      ensures address == value
      ensures scanning == old(scanning) && scanResult == old(scanResult) && scanError == old(scanError)
    {
      address := value;
    }

    /** `handleScan(address)`, with the mock's draws as a parameter: the old
        result and error are cleared; a result is kept locally and written to
        the wallet section, a rejection only sets the error. */
    method HandleScan(d: Draws)
      requires ValidDraws(d)
      modifies this, store
      ensures var r := ScanWallet(old(address), ContextOf(old(store.profile.activity)), d);
              && (r.Ok? ==> scanResult == Some(r.value) && scanError == ""
                            && store.profile == old(store.profile).(wallet := MergeWallet(old(store.profile.wallet),
                                                                      ScannedWallet(old(address), r.value))))
              && (r.Err? ==> scanResult.None? && scanError == r.error && store.profile == old(store.profile))
      ensures !scanning && address == old(address)
    {
      scanning := true;
      scanError := "";
      scanResult := None;
      var r := ScanWallet(address, ContextOf(store.profile.activity), d);
      if r.Ok? {
        scanResult := Some(r.value);
        store.UpdateWallet(ScannedWallet(address, r.value));
      } else {
        scanError := r.error;
      }
      scanning := false;
    }

    /** Formik's submit: `handleSubmit` runs only when the schema accepts the
        address; without a scan result it sets the error, otherwise it writes
        the address, the completed flag and the result (whatever its risk) and
        moves to step 8. */
    method HandleSubmit() returns (navigated: bool)
      modifies this, store
      ensures navigated == (WalletValid(old(address)) && old(scanResult).Some?)
      ensures WalletValid(old(address)) && old(scanResult).None? ==> scanError == ScanFirstError
      ensures !navigated ==> store.profile == old(store.profile)
      ensures navigated ==> store.profile == old(store.profile).(
                wallet := Wallet(old(address), true, old(scanResult)), currentStep := 8)
      ensures !(WalletValid(old(address)) && old(scanResult).None?) ==> scanError == old(scanError)
      ensures address == old(address) && scanResult == old(scanResult) && scanning == old(scanning)
    {
      if !WalletValid(address) {
        return false;
      }
      if scanResult.None? {
        scanError := ScanFirstError;
        return false;
      }
      store.UpdateWallet(ScannedWallet(address, scanResult.value));
      store.UpdateState(StepUpdate(8));
      return true;
    }

    /** `handleBack`. */
    method HandleBack()
      modifies store
      ensures store.profile == old(store.profile).(currentStep := 6)
    {
      store.UpdateState(StepUpdate(6));
    }
  }

  /** The submit does not check that the kept result belongs to the submitted
      address: a scan of one address followed by an edit stores a wallet whose
      address and result disagree. */
  lemma SubmitKeepsResultOfAnotherAddress(w: Wallet, scanned: ScanResult, edited: string)
    requires scanned.walletAddress != edited
    ensures var r := MergeWallet(w, ScannedWallet(edited, scanned));
            r.address == edited && r.scanResult == Some(scanned) && r.address != r.scanResult.value.walletAddress
  {
  }
}
