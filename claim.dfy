/** The reward claim: after the wallet authorises the page, the
    contract's eligibility is read afresh; an ineligible account is
    meant to be told how many whole hours to wait with nothing sent (the
    code as written fails there, see `ClaimFlowAsWritten`), an eligible
    one submits `claimReward(score)` and waits for confirmation. */
module RewardClaim {
  import opened Results

  const SECONDS_PER_HOUR: nat := 3600

  /** The pair returned by the contract's `getEligibility()`. */
  datatype Eligibility = Eligibility(eligible: bool, secsUntilNext: nat)

  /** What the wallet, the node and the chain answer during one claim
      attempt. */
  datatype ClaimEnv = ClaimEnv(
    hasProvider: bool,                 // an injected wallet provider exists
    authorized: bool,                  // the account request and the signer succeed
    eligibility: Option<Eligibility>,  // None: the eligibility read failed
    txAccepted: bool,                  // the wallet signs and the node accepts the claim
    txConfirmed: bool)                 // the transaction is mined without revert
  {
    /** The eligibility read happened and succeeded. */
    predicate ReachesEligibility() {
      hasProvider && authorized && eligibility.Some?
    }
  }

  /** The step at which a claim attempt failed and was reported as such. */
  datatype ClaimStage = Authorization | EligibilityRead | WaitComputation | Submission | Confirmation

  /** How one claim attempt ends. */
  datatype ClaimOutcome =
    | ProviderMissing          // alert, nothing sent
    | MustWait(hours: int)     // alert with the wait, nothing sent
    | ClaimFailed(stage: ClaimStage)
    | Claimed(score: int)
  {
    /** A claim transaction was submitted to the chain. */
    predicate TransactionSent() {
      Claimed? || (ClaimFailed? && stage == Confirmation)
    }
  }

  // ---------------------------------------------------------------
  // Waiting time
  // ---------------------------------------------------------------

  /** Whole hours to wait, rounded up, in integer arithmetic. */
  function WaitHours(secs: nat): (h: nat)
    ensures (h - 1) * SECONDS_PER_HOUR < secs <= h * SECONDS_PER_HOUR
  {
    (secs + SECONDS_PER_HOUR - 1) / SECONDS_PER_HOUR
  }

  /** JavaScript's `Math.ceil` on a number, modelled on the reals. */
  function MathCeil(x: real): (c: int)
    ensures x <= c as real < x + 1.0
  {
    -((-x).Floor)
  }

  /** The integer formula is `Math.ceil(secs / 3600)` on numbers. */
  lemma WaitHoursIsMathCeil(secs: nat)
    ensures WaitHours(secs) == MathCeil(secs as real / SECONDS_PER_HOUR as real)
  {
  }

  /** The ceiling is the only whole number of hours that covers the
      wait without a spare hour. */
  lemma WaitHoursUnique(secs: nat, h: int)
    requires (h - 1) * SECONDS_PER_HOUR < secs <= h * SECONDS_PER_HOUR
    ensures h == WaitHours(secs)
  {
  }

  // ---------------------------------------------------------------
  // The claim decision
  // ---------------------------------------------------------------

  /** One claim attempt with the score held by the session (None when
      no capture has produced one, which the contract binding cannot
      encode as a `uint256`). */
  function ClaimFlow(env: ClaimEnv, score: Option<int>): (o: ClaimOutcome)
    ensures !env.hasProvider <==> o == ProviderMissing
    ensures o.MustWait? <==> env.ReachesEligibility() && !env.eligibility.value.eligible
    ensures o.MustWait? ==> o.hours == WaitHours(env.eligibility.value.secsUntilNext)
    ensures o.TransactionSent() <==>
              env.ReachesEligibility() && env.eligibility.value.eligible && score.Some? && env.txAccepted
    ensures o.Claimed? <==> o.TransactionSent() && env.txConfirmed
    ensures o.Claimed? ==> score == Some(o.score)
    ensures o != ClaimFailed(WaitComputation)
  {
    if !env.hasProvider then ProviderMissing
    else if !env.authorized then ClaimFailed(Authorization)
    else if env.eligibility.None? then ClaimFailed(EligibilityRead)
    else if !env.eligibility.value.eligible then MustWait(WaitHours(env.eligibility.value.secsUntilNext))
    else if score.None? || !env.txAccepted then ClaimFailed(Submission)
    else if !env.txConfirmed then ClaimFailed(Confirmation)
    else Claimed(score.value)
  }

  /** A claim is never sent for an account the contract calls
      ineligible, whatever the wallet and the score. */
  lemma NoClaimWhenIneligible(env: ClaimEnv, score: Option<int>)
    requires env.eligibility.Some? && !env.eligibility.value.eligible
    ensures !ClaimFlow(env, score).TransactionSent()
  {
  }

  /** The worked example: 5400 seconds left is shown as 2 hours. */
  lemma WaitExample(score: Option<int>)
    ensures ClaimFlow(ClaimEnv(true, true, Some(Eligibility(false, 5400)), true, true), score) == MustWait(2)
  {
  }

  // ---------------------------------------------------------------
  // The wait computation as the code writes it
  // ---------------------------------------------------------------

  /** A JavaScript numeric value: a number (modelled on the reals) or a BigInt. */
  datatype JsNumeric = Number(x: real) | BigInt(n: int)

  datatype JsError = TypeError

  /** The contract binding returns every `uint256` as a BigInt. */
  function DecodeUint256(n: nat): JsNumeric {
    BigInt(n)
  }

  /** `Math.ceil(v / 3600)`: dividing a BigInt by a number throws a
      TypeError; on a number it is the real ceiling. */
  function CeilHoursOf(v: JsNumeric): (r: Result<int, JsError>)
    ensures v.BigInt? <==> r.Failure?
    ensures v.Number? ==> v.x <= r.value as real * 3600.0 < v.x + 3600.0
  {
    match v
    case Number(x) => Success(MathCeil(x / 3600.0))
    case BigInt(_) => Failure(TypeError)
  }

  /** The claim attempt as written: the steps up to the eligibility
      read and the eligible branch are those of `ClaimFlow`; in the
      ineligible branch the wait is computed on the decoded BigInt, so
      it throws and is reported as a failed claim. */
  function ClaimFlowAsWritten(env: ClaimEnv, score: Option<int>): (o: ClaimOutcome)
    ensures !o.MustWait?
    ensures o.TransactionSent() ==> env.ReachesEligibility() && env.eligibility.value.eligible
  {
    if env.ReachesEligibility() && !env.eligibility.value.eligible then
      match CeilHoursOf(DecodeUint256(env.eligibility.value.secsUntilNext))
      case Success(hours) => MustWait(hours)
      case Failure(_) => ClaimFailed(WaitComputation)
    else ClaimFlow(env, score)
  }

  /** The two differ exactly on an ineligible account: the code as
      written reports a failed claim where the wait was meant to be
      shown; everywhere else they agree. */
  lemma AsWrittenDivergesWhenIneligible(env: ClaimEnv, score: Option<int>)
    ensures env.ReachesEligibility() && !env.eligibility.value.eligible ==>
              ClaimFlowAsWritten(env, score) == ClaimFailed(WaitComputation) &&
              ClaimFlow(env, score) == MustWait(WaitHours(env.eligibility.value.secsUntilNext))
    ensures !(env.ReachesEligibility() && !env.eligibility.value.eligible) ==>
              ClaimFlowAsWritten(env, score) == ClaimFlow(env, score)
  {
  }

  /** The worked example as written: 5400 seconds left gives a failed
      claim instead of a 2-hour wait. */
  lemma AsWrittenWaitExample(score: Option<int>)
    ensures ClaimFlowAsWritten(ClaimEnv(true, true, Some(Eligibility(false, 5400)), true, true), score)
              == ClaimFailed(WaitComputation)
  {
  }
}
