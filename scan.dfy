/** The wallet-screening mock (src/mocks/chainalysisMock.js). Its risk level is
    a deterministic function of the address (the sum of its character codes
    modulo 100); its score, reason and transaction count come from random
    draws, which are parameters here, as are its clock readings. */
module Chainalysis {
  import opened Common

  datatype Risk = Low | Medium | High

  /** The name under which the mock reports a risk level. */
  function RiskName(r: Risk): string
  {
    match r
    case Low => "low"
    case Medium => "medium"
    case High => "high"
  }

  datatype Flag = Flag(kind: string, message: string, severity: string)

  datatype Details = Details(
    transactionCount: int,
    firstSeen: string,
    totalVolume: string,
    riskFactors: seq<string>,
    contextualFlag: Option<Flag>)

  datatype ScanResult = ScanResult(
    risk: Risk,
    score: int,
    reason: string,
    walletAddress: string,
    timestamp: string,
    details: Details)

  /** What the wallet step passes from the activity profile. An empty
      `monthlyVolume` and an empty country list behave exactly as absent ones. */
  datatype ScanContext = ScanContext(monthlyVolume: string, operatingCountries: seq<string>)

  /** The values `Math.random()` and the clock supply to one scan. */
  datatype Draws = Draws(
    reason: real,
    score: real,
    transactions: real,
    timestamp: string,
    firstSeen: string,
    totalVolume: string)

  /** `Math.random()` lies in [0, 1). */
  predicate ValidDraws(d: Draws)
  {
    0.0 <= d.reason < 1.0 && 0.0 <= d.score < 1.0 && 0.0 <= d.transactions < 1.0
  }

  const LowRiskReasons: seq<string> := [
    "Clean transaction history",
    "No flagged interactions detected",
    "Wallet activity consistent with declared usage",
    "All sources verified and legitimate",
    "Standard trading patterns observed"]

  const MediumRiskReasons: seq<string> := [
    "Minor exposure to unhosted wallets",
    "Some transactions with unlicensed exchanges",
    "Occasional privacy tool usage detected",
    "Cross-chain transfers requiring review",
    "Indirect exposure to flagged entities (<1%)"]

  const HighRiskReasons: seq<string> := [
    "Direct interaction with sanctioned addresses",
    "High exposure to darknet markets",
    "Tainted USDT from known mixer services",
    "Significant ransomware-linked funds detected",
    "Multiple transactions with OFAC-listed entities",
    "Funds traced to known scam operations",
    "High-volume transfers from restricted jurisdictions"]

  /** The country codes the mock itself treats as high-risk. */
  const FlaggedJurisdictions: seq<string> := ["CU", "IR", "KP", "SY", "RU"]

  const VolumeMismatch := Flag("volume_mismatch", "High declared volume with limited on-chain history", "info")

  const JurisdictionRisk := Flag("jurisdiction_risk", "Operating in restricted or high-risk jurisdiction", "warning")

  const InvalidAddress := "Invalid wallet address format"

  /** `address.split('').reduce((sum, ch) => sum + ch.charCodeAt(0), 0)` for
      addresses in the Basic Multilingual Plane, where each character is one
      UTF-16 code unit. */
  function CharCodeSum(s: string): nat
  {
    if s == [] then 0 else CharCodeSum(s[..|s| - 1]) + s[|s| - 1] as nat
  }

  /** The bucketing `rand = (sum % 100) / 100; rand < 0.7 ? low : rand < 0.9 ? medium : high`,
      computed on exact rationals; the contract states the integer thresholds. */
  function RiskOf(addressSum: nat): (r: Risk)
    ensures r == Low <==> addressSum % 100 < 70
    ensures r == Medium <==> 70 <= addressSum % 100 < 90
    ensures r == High <==> 90 <= addressSum % 100
  {
    var rand := (addressSum % 100) as real / 100.0;
    if rand < 0.7 then Low else if rand < 0.9 then Medium else High
  }

  /** `Math.floor(draw * n)` for a draw in [0, 1) is an index below n. */
  lemma FloorBelow(draw: real, n: nat)
    requires 0.0 <= draw < 1.0 && n > 0
    ensures 0 <= (draw * n as real).Floor < n
  {
    assert draw * n as real < n as real;
  }

  /** `list[Math.floor(Math.random() * list.length)]`. */
  function PickReason(reasons: seq<string>, draw: real): (r: string)
    requires |reasons| > 0 && 0.0 <= draw < 1.0
    ensures r in reasons
  {
    FloorBelow(draw, |reasons|);
    reasons[(draw * |reasons| as real).Floor]
  }

  function ReasonsFor(risk: Risk): (reasons: seq<string>)
    ensures |reasons| > 0
  {
    match risk
    case High => HighRiskReasons
    case Medium => MediumRiskReasons
    case Low => LowRiskReasons
  }

  /** The score draws: low 0-29, medium 30-69, high 70-99. */
  function ScoreFor(risk: Risk, draw: real): (score: int)
    requires 0.0 <= draw < 1.0
    ensures risk == Low <==> 0 <= score <= 29
    ensures risk == Medium <==> 30 <= score <= 69
    ensures risk == High <==> 70 <= score <= 99
  {
    FloorBelow(draw, 30);
    FloorBelow(draw, 40);
    match risk
    case Low => (draw * 30.0).Floor
    case Medium => 30 + (draw * 40.0).Floor
    case High => 70 + (draw * 30.0).Floor
  }

  predicate OccursAt(s: string, sub: string, i: int)
  {
    0 <= i && i + |sub| <= |s| && s[i..i + |sub|] == sub
  }

  /** `s.includes(sub)`. */
  predicate Contains(s: string, sub: string)
  {
    exists i :: 0 <= i <= |s| - |sub| && OccursAt(s, sub, i)
  }

  /** `countries.some(c => ['CU', 'IR', 'KP', 'SY', 'RU'].includes(c))`. */
  predicate InFlaggedJurisdiction(countries: seq<string>)
  {
    exists i :: 0 <= i < |countries| && countries[i] in FlaggedJurisdictions
  }

  /** The two ordered checks: a volume flag first, which a jurisdiction flag then overrides. */
  function ContextualFlag(risk: Risk, score: int, ctx: ScanContext): (r: Option<Flag>)
    ensures InFlaggedJurisdiction(ctx.operatingCountries) ==> r == Some(JurisdictionRisk)
    ensures r == Some(VolumeMismatch) <==>
              Contains(ctx.monthlyVolume, "10M") && risk == Low && score < 20
              && !InFlaggedJurisdiction(ctx.operatingCountries)
    ensures r.None? <==>
              !InFlaggedJurisdiction(ctx.operatingCountries)
              && !(Contains(ctx.monthlyVolume, "10M") && risk == Low && score < 20)
  {
    var volumeFlag :=
      if ctx.monthlyVolume != "" && Contains(ctx.monthlyVolume, "10M") && risk == Low && score < 20
      then Some(VolumeMismatch) else None;
    if InFlaggedJurisdiction(ctx.operatingCountries) then Some(JurisdictionRisk) else volumeFlag
  }

  /** `scanWallet(address, context)`: rejects an empty address or one shorter
      than 26 characters; otherwise reports the bucketed risk. */
  function ScanWallet(address: string, ctx: ScanContext, d: Draws): (r: Result<ScanResult, string>)
    requires ValidDraws(d)
    ensures r.Err? <==> |address| < 26
    ensures r.Err? ==> r.error == InvalidAddress
    ensures r.Ok? ==>
              && r.value.walletAddress == address
              && r.value.risk == RiskOf(CharCodeSum(address))
              && r.value.reason in ReasonsFor(r.value.risk)
              && r.value.score == ScoreFor(r.value.risk, d.score)
              && (r.value.risk == Low <==> 0 <= r.value.score <= 29)
              && (r.value.risk == Medium <==> 30 <= r.value.score <= 69)
              && (r.value.risk == High <==> 70 <= r.value.score <= 99)
              && (r.value.details.riskFactors == [] <==> r.value.risk == Low)
              && (r.value.risk != Low ==> r.value.details.riskFactors == [r.value.reason])
              && 50 <= r.value.details.transactionCount < 1050
              && r.value.details.contextualFlag == ContextualFlag(r.value.risk, r.value.score, ctx)
  {
    if address == "" || |address| < 26 then Err(InvalidAddress)
    else
      var risk := RiskOf(CharCodeSum(address));
      var reason := PickReason(ReasonsFor(risk), d.reason);
      var score := ScoreFor(risk, d.score);
      FloorBelow(d.transactions, 1000);
      Ok(ScanResult(
        risk, score, reason, address, d.timestamp,
        Details(
          (d.transactions * 1000.0).Floor + 50,
          d.firstSeen,
          d.totalVolume,
          if risk != Low then [reason] else [],
          ContextualFlag(risk, score, ctx))))
  }

  /** The risk level is a function of the address alone: two scans of one
      address agree on it whatever the draws and the context. */
  lemma ScanRiskDeterministic(address: string, c1: ScanContext, c2: ScanContext, d1: Draws, d2: Draws)
    requires ValidDraws(d1) && ValidDraws(d2) && |address| >= 26
    ensures ScanWallet(address, c1, d1).Ok? && ScanWallet(address, c2, d2).Ok?
    ensures ScanWallet(address, c1, d1).value.risk == ScanWallet(address, c2, d2).value.risk
  {
  }

  /** `getRiskColor`. */
  function RiskColor(risk: string): (r: string)
    ensures risk != "low" && risk != "medium" && risk != "high" ==> r == "text-gray-400"
  {
    match risk
    case "low" => "text-green-400"
    case "medium" => "text-yellow-400"
    case "high" => "text-red-400"
    case _ => "text-gray-400"
  }

  /** `getRiskBgColor`. */
  function RiskBgColor(risk: string): (r: string)
    ensures risk != "low" && risk != "medium" && risk != "high" ==> r == "bg-gray-500/10 border-gray-500/30"
  {
    match risk
    case "low" => "bg-green-500/10 border-green-500/30"
    case "medium" => "bg-yellow-500/10 border-yellow-500/30"
    case "high" => "bg-red-500/10 border-red-500/30"
    case _ => "bg-gray-500/10 border-gray-500/30"
  }

  /** Each risk level gets its own colour and background, and none of them is the gray default. */
  lemma RiskColorsDistinct(a: Risk, b: Risk, other: string)
    requires a != b
    requires other != "low" && other != "medium" && other != "high"
    ensures RiskColor(RiskName(a)) != RiskColor(RiskName(b))
    ensures RiskBgColor(RiskName(a)) != RiskBgColor(RiskName(b))
    ensures RiskColor(RiskName(a)) != RiskColor(other)
    ensures RiskBgColor(RiskName(a)) != RiskBgColor(other)
  {
  }
}
