/** The page's session: the connection flags, the last photo, score and
    image id, and the enabled or hidden state of the controls, changed
    by one handler per user action. Each handler runs as one atomic
    step; what the wallet, the camera, the face detector and the random
    generator answer is passed in. */
module SmileSession {
  import opened Results
  import opened SmileScoring
  import opened RewardClaim

  /** The encoded still image taken from the video. */
  type Photo = string

  /** The text of the score display: score, message and image id. */
  datatype ScoreCard = ScoreCard(score: int, tier: SmileTier, imageId: string)

  /** The account request's answer. */
  datatype AccountsResponse = Rejected | Granted(accounts: seq<string>)

  /** What the status line says, as a tag. */
  datatype Status =
    | LoadingModels | ModelsReady | FallbackMode
    | NoWalletProvider | WalletFailed | WalletConnected
    | CameraReady | CameraDenied
    | AnalysisDone | CaptureError(error: CaptureError)
    | ClaimFailedStatus | RewardClaimed
    | ReadyForAnother

  /** The wallet connection succeeds: a provider, at least one account,
      and a signer with an address. */
  predicate WalletGranted(hasProvider: bool, response: AccountsResponse, signerOk: bool) {
    hasProvider && response.Granted? && |response.accounts| > 0 && signerOk
  }

  /** The status line after a claim attempt; the alerts leave it as it was. */
  function ClaimStatus(o: ClaimOutcome, before: Status): Status {
    match o
    case ProviderMissing => before
    case MustWait(_) => before
    case ClaimFailed(_) => ClaimFailedStatus
    case Claimed(_) => RewardClaimed
  }

  /** The status line says a reward was claimed only when an eligible
      account's claim, carrying a score, was accepted and confirmed. */
  lemma ClaimedStatusOnlyWhenConfirmed(env: ClaimEnv, score: Option<int>, before: Status)
    requires before != RewardClaimed
    ensures ClaimStatus(ClaimFlow(env, score), before) == RewardClaimed <==>
              env.ReachesEligibility() && env.eligibility.value.eligible && score.Some? &&
              env.txAccepted && env.txConfirmed
  {
  }

  /** An ineligible account never sees the "claimed" status appear. */
  lemma IneligibleKeepsStatusUnclaimed(env: ClaimEnv, score: Option<int>, before: Status)
    requires env.ReachesEligibility() && !env.eligibility.value.eligible
    ensures ClaimStatus(ClaimFlow(env, score), before) == before
  {
  }

  class Session {
    var isConnected: bool
    var farcasterConnected: bool
    var modelsLoaded: bool
    var currentPhoto: Option<Photo>
    var smileScore: Option<int>
    var ipfsCid: Option<string>
    var scoreCard: Option<ScoreCard>
    var connectDisabled: bool
    var farcasterDisabled: bool
    var captureDisabled: bool
    var postDisabled: bool
    var cameraHidden: bool
    var scoreHidden: bool
    var claimHidden: bool
    var postHidden: bool
    var status: Status

    /** The invariant of every reachable session. */
    ghost predicate Valid()
      reads this
    {
      // the simulated Farcaster gate opens only after the wallet
      (farcasterConnected ==> isConnected) &&
      (isConnected ==> connectDisabled) &&
      (!farcasterDisabled ==> isConnected) &&
      (!captureDisabled ==> farcasterConnected) &&
      (!cameraHidden ==> farcasterConnected) &&
      // a score exists only for a photo, and always in range
      (smileScore.Some? ==> currentPhoto.Some? && MINIMUM_SCORE <= smileScore.value <= 100) &&
      (ipfsCid.Some? ==> smileScore.Some?) &&
      // the display shows the current score, its message and image id
      (scoreCard.Some? ==>
         smileScore == Some(scoreCard.value.score) &&
         ipfsCid == Some(scoreCard.value.imageId) &&
         scoreCard.value.tier == SmileMessage(scoreCard.value.score)) &&
      (!scoreHidden ==> scoreCard.Some?) &&
      (!claimHidden ==> smileScore.Some?) &&
      (!postHidden ==> ipfsCid.Some?)
    }

    /** A freshly loaded page, while the face models load: only the
        connect and post buttons are enabled and nothing is shown. */
    constructor ()
      ensures Valid()
      ensures !isConnected && !farcasterConnected && !modelsLoaded
      ensures currentPhoto == None && smileScore == None && ipfsCid == None && scoreCard == None
      ensures !connectDisabled && farcasterDisabled && captureDisabled && !postDisabled
      ensures cameraHidden && scoreHidden && claimHidden && postHidden
      ensures status == LoadingModels
    {
      isConnected, farcasterConnected, modelsLoaded := false, false, false;
      currentPhoto, smileScore, ipfsCid, scoreCard := None, None, None, None;
      connectDisabled, farcasterDisabled, captureDisabled, postDisabled := false, true, true, false;
      cameraHidden, scoreHidden, claimHidden, postHidden := true, true, true, true;
      status := LoadingModels;
    }

    /** The face models finished loading, or failed to. */
    method ModelsLoaded(ok: bool)
      requires Valid()
      modifies this`modelsLoaded, this`status
      ensures Valid()
      ensures modelsLoaded == ok
      ensures status == if ok then ModelsReady else FallbackMode
    {
      modelsLoaded := ok;
      status := if ok then ModelsReady else FallbackMode;
    }

    /** The connect button: ask the provider for accounts and build a
        signer. Only success touches the flags and the buttons. */
    method ConnectWallet(hasProvider: bool, response: AccountsResponse, signerOk: bool)
      requires Valid()
      modifies this`isConnected, this`connectDisabled, this`farcasterDisabled, this`status
      ensures Valid()
      ensures WalletGranted(hasProvider, response, signerOk) ==>
                isConnected && connectDisabled && !farcasterDisabled && status == WalletConnected
      ensures !WalletGranted(hasProvider, response, signerOk) ==>
                isConnected == old(isConnected) && connectDisabled == old(connectDisabled) &&
                farcasterDisabled == old(farcasterDisabled) &&
                status == if hasProvider then WalletFailed else NoWalletProvider
    {
      if !hasProvider {
        status := NoWalletProvider;
        return;
      }
      if response.Rejected? || |response.accounts| == 0 || !signerOk {
        status := WalletFailed;
        return;
      }
      status := WalletConnected;
      isConnected := true;
      connectDisabled := true;
      farcasterDisabled := false;
    }

    /** The Farcaster button: refused before the wallet; otherwise the
        gate opens for good and the camera is requested, and a denied
        camera leaves capture disabled. */
    method ConnectFarcaster(cameraOk: bool)
      requires Valid()
      modifies this`farcasterConnected, this`farcasterDisabled, this`captureDisabled,
               this`cameraHidden, this`status
      ensures Valid()
      ensures !old(isConnected) ==>
                farcasterConnected == old(farcasterConnected) && farcasterDisabled == old(farcasterDisabled) &&
                captureDisabled == old(captureDisabled) && cameraHidden == old(cameraHidden) &&
                status == old(status)
      ensures old(isConnected) ==>
                farcasterConnected && farcasterDisabled &&
                captureDisabled == !cameraOk &&
                cameraHidden == (old(cameraHidden) && !cameraOk) &&
                status == if cameraOk then CameraReady else CameraDenied
    {
      if !isConnected {
        return;
      }
      farcasterConnected := true;
      farcasterDisabled := true;
      captureDisabled := false;
      if cameraOk {
        cameraHidden := false;
        status := CameraReady;
      } else {
        status := CameraDenied;
        captureDisabled := true;
      }
    }

    /** The capture button: take a photo, score it, store the mock image
        id and show the result. A capture that gives no score keeps the
        previous score; the button is usable again either way. */
    method CaptureSmile(photo: Photo, run: DetectorRun, draw: Draw, cid: string)
      requires Valid()
      modifies this`captureDisabled, this`currentPhoto, this`smileScore, this`ipfsCid,
               this`scoreCard, this`scoreHidden, this`claimHidden, this`postHidden, this`status
      ensures Valid()
      ensures !old(farcasterConnected) ==>
                captureDisabled == old(captureDisabled) && currentPhoto == old(currentPhoto) &&
                smileScore == old(smileScore) && ipfsCid == old(ipfsCid) && scoreCard == old(scoreCard) &&
                scoreHidden == old(scoreHidden) && claimHidden == old(claimHidden) &&
                postHidden == old(postHidden) && status == old(status)
      ensures old(farcasterConnected) ==> !captureDisabled && currentPhoto == Some(photo)
      ensures old(farcasterConnected) && ScoreCapture(modelsLoaded, run, draw).Failure? ==>
                smileScore == old(smileScore) && ipfsCid == old(ipfsCid) && scoreCard == old(scoreCard) &&
                scoreHidden == old(scoreHidden) && claimHidden == old(claimHidden) &&
                postHidden == old(postHidden) &&
                status == CaptureError(ScoreCapture(modelsLoaded, run, draw).error)
      ensures old(farcasterConnected) && ScoreCapture(modelsLoaded, run, draw).Success? ==>
                var score := ScoreCapture(modelsLoaded, run, draw).value;
                smileScore == Some(score) && ipfsCid == Some(cid) &&
                scoreCard == Some(ScoreCard(score, SmileMessage(score), cid)) &&
                !scoreHidden && !claimHidden && !postHidden && status == AnalysisDone
    {
      if !farcasterConnected {
        return;
      }
      captureDisabled := true;
      currentPhoto := Some(photo);
      var r := ScoreCapture(modelsLoaded, run, draw);
      if r.Failure? {
        status := CaptureError(r.error);
      } else {
        smileScore := Some(r.value);
        ipfsCid := Some(cid);
        scoreHidden := false;
        scoreCard := Some(ScoreCard(r.value, SmileMessage(r.value), cid));
        claimHidden := false;
        postHidden := false;
        status := AnalysisDone;
      }
      captureDisabled := false;
    }

    /** The claim button: one claim attempt with the session's score;
        only the status line changes. */
    method ClaimReward(env: ClaimEnv) returns (o: ClaimOutcome)
      requires Valid()
      modifies this`status
      ensures Valid()
      ensures o == ClaimFlow(env, smileScore)
      ensures o.Claimed? ==> MINIMUM_SCORE <= o.score <= 100
      ensures o.Claimed? ==> status == RewardClaimed
      ensures o.ClaimFailed? ==> status == ClaimFailedStatus
      ensures o.ProviderMissing? || o.MustWait? ==> status == old(status)
    {
      o := ClaimFlow(env, smileScore);
      status := ClaimStatus(o, status);
    }

    /** The post button, through both of its delays: the post button is
        disabled while the simulated post runs, then the page returns to
        the ready state, hiding the result and the claim and post
        buttons and enabling post again; the score and image id stay in
        memory. */
    method PostToFarcaster()
      requires Valid()
      modifies this`scoreHidden, this`postHidden, this`claimHidden, this`postDisabled, this`status
      ensures Valid()
      ensures scoreHidden && postHidden && claimHidden && !postDisabled
      ensures status == ReadyForAnother
    {
      postDisabled := true;
      // after the 1500 ms post delay and the 2000 ms reset delay
      scoreHidden := true;
      postHidden := true;
      claimHidden := true;
      postDisabled := false;
      status := ReadyForAnother;
    }
  }

  /** The gate invariant holds along any run: after a wallet connect
      that failed, a Farcaster connect leaves the gate closed; after a
      successful one and a denied camera, the gate is open with capture
      disabled. */
  method GateScenario(cameraOk: bool) returns (gateAfterFailure: bool, gateAfterSuccess: bool, captureUsable: bool)
    ensures !gateAfterFailure
    ensures gateAfterSuccess
    ensures captureUsable == cameraOk
  {
    var s := new Session();
    s.ConnectWallet(true, Granted([]), true);
    s.ConnectFarcaster(cameraOk);
    gateAfterFailure := s.farcasterConnected;
    s.ConnectWallet(true, Granted(["0x1"]), true);
    s.ConnectFarcaster(cameraOk);
    gateAfterSuccess := s.farcasterConnected;
    captureUsable := !s.captureDisabled;
  }
}
