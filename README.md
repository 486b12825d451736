# Smile Challenge session model

A Dafny model of the logic in `app.js` of the Smile Challenge page. The page
connects a wallet, opens a simulated Farcaster gate, starts the camera, scores
one captured frame for "smile happiness", shows a message tier, and then lets
the user either claim an on-chain reward (at most once per 24 hours) or make a
simulated Farcaster post.

The model has four modules:

- `Results` (`results.dfy`): `Option`, for the page's possibly-undefined
  globals, and `Result`, for the exceptions that the handlers catch.
- `SmileScoring` (`scoring.dfy`): pure functions.
  - `getSmileMessage` becomes `SmileMessage`, over six `SmileTier`s.
  - The detection path of `analyzeSmile` becomes `AnalyzeSmile`. The first
    face's happiness is raised to at least 10. No face, or a detector error,
    gives no score.
  - The fallback score `floor(random*41)+60` becomes `FallbackScore`.
  - The choice between the two paths becomes `ScoreCapture`.
- `RewardClaim` (`claim.dfy`): the decision inside `claimReward`.
  - If the provider is missing, nothing happens.
  - If the account request, the signer or the eligibility read fails, the claim
    fails.
  - If the account is ineligible, the page is meant to show a wait of
    `ceil(secsUntilNext / 3600)` hours and send nothing. As written, the
    division throws and the attempt is reported as a failed claim (see
    "## Findings"). `ClaimFlow` models the intended behaviour and
    `ClaimFlowAsWritten` the written one.
  - Otherwise the page submits `claimReward(score)` and waits for confirmation.
- `SmileSession` (`session.dfy`): the page's globals and the state of its
  controls, held in the class `Session`.
  - It has one method per handler: `ModelsLoaded` (the end of
    `loadFaceApiModels`), `ConnectWallet`, `ConnectFarcaster`, `CaptureSmile`,
    `ClaimReward` and `PostToFarcaster`.
  - Every method keeps the invariant `Valid()`. In particular, the Farcaster
    flag is never true while the wallet flag is false.
  - A stored score always lies in [10, 100].
  - The score display always shows the stored score, its tier message and its
    image id.

Each handler runs as one atomic step. The answers of the outside world are
method parameters:

- whether a wallet provider exists;
- the account list, or a rejection;
- whether the signer works;
- whether the camera starts;
- what the face detector returns;
- the random draw;
- the mock image id;
- the eligibility pair;
- whether the transaction is accepted and confirmed.

Happiness is a whole percentage from 0 to 100, already rounded. A face whose
detector result has no happiness value counts as 0, which models `|| 0`.

A claim made before any capture passes an undefined score. The contract binding
cannot encode that as a `uint256`, so the model treats it as a failed
submission.

The page's initial control state comes from `index.html`, which is not part of
this model. The constructor assumes this state:

- connect is enabled;
- Farcaster and capture are disabled;
- post is enabled;
- the camera, score, claim and post elements are hidden.

## Model

| member | source | states |
|---|---|---|
| `SmileScoring.SmileMessage` | app.js:264-271 | The message is the most enthusiastic tier whose inclusive lower bound (50, 60, 70, 80, 90) the score reaches. Every more enthusiastic tier is out of reach. The function is total on the integers. |
| `SmileScoring.SmileMessageBands` | app.js:264-271 | The six tiers partition the integers into the bands <50, [50,60), [60,70), [70,80), [80,90) and ≥90, as if-and-only-ifs. |
| `SmileScoring.SmileMessageMonotone` | app.js:264-271 | A higher score never gets a less enthusiastic message. |
| `SmileScoring.EveryTierReachable` | app.js:264-271 | Each of the six messages is shown for some score in [10, 100], the range of the detection path. |
| `SmileScoring.AnalyzeSmile` | app.js:238-259 | A detector error fails, and so does a run with no face (as "no face detected"). Otherwise the score is the first face's happiness, raised to 10 when below 10, so it always lies in [10, 100]. |
| `SmileScoring.OnlyFirstFaceCounts` | app.js:249-254 | Faces after the first one play no part in the score. |
| `SmileScoring.DetectedScoresCoverRange` | app.js:251-254 | Every score from 10 to 100 is the result for some single detected face. |
| `SmileScoring.DetectionExamples` | app.js:247-254 | Happiness 95 gives 95 and the top message. Happiness 0, or no happiness value, gives 10 and the bottom message. No face gives no score. |
| `SmileScoring.FallbackScore` | app.js:211-214 | For a draw in [0, 40], the fallback score lies in [60, 100]. |
| `SmileScoring.FallbackCoversRange` | app.js:213 | Each score in [60, 100] comes from exactly one draw. |
| `SmileScoring.FallbackMessageAtLeastGood` | app.js:208-222 | A fallback score never gets one of the two lowest messages. |
| `SmileScoring.ScoreCapture` | app.js:207-214 | Any score lies in [10, 100]. Without the models there is always a score of at least 60. Only the detection path can fail, and it fails exactly when the detector errs or finds no face. |
| `SmileScoring.FallbackIgnoresDetector` | app.js:208-214 | Without the models, the detector's answer does not affect the capture result, so detection is never used. |
| `SmileScoring.DetectionIgnoresDraw` | app.js:208-214 | With the models loaded, the random draw does not affect the capture result. |
| `RewardClaim.WaitHours` | app.js:312 | The wait is the ceiling in whole hours: `(h-1)*3600 < secs <= h*3600`. |
| `RewardClaim.MathCeil` | app.js:312 | `Math.ceil` on reals: the least integer at or above its argument. |
| `RewardClaim.WaitHoursIsMathCeil` | app.js:312 | The integer formula equals `Math.ceil(secs / 3600)` computed on numbers. |
| `RewardClaim.WaitHoursUnique` | app.js:312 | Exactly one whole number of hours satisfies the ceiling bounds. |
| `RewardClaim.ClaimFlow` | app.js:287-327 | A missing provider, and only that, gives the "not detected" outcome. A wait is shown if and only if eligibility was read and is false, and it is `WaitHours(secsUntilNext)`. A transaction is sent if and only if the account is eligible, a score exists and the wallet accepts the transaction. The claim succeeds if and only if the sent transaction is confirmed, and it carries the session's score. |
| `RewardClaim.NoClaimWhenIneligible` | app.js:310-318 | No transaction is ever sent when the contract says the account is ineligible. |
| `RewardClaim.WaitExample` | app.js:310-314 | An ineligible account with 5400 seconds left is told to wait 2 hours. |
| `RewardClaim.CeilHoursOf` | app.js:312 | Dividing a BigInt by a number is a TypeError. On a number, the result is its ceiling in hours. |
| `RewardClaim.ClaimFlowAsWritten` | app.js:287-327 | Following the code as written, a wait is never shown, and a transaction is still sent only for an eligible account. |
| `RewardClaim.AsWrittenDivergesWhenIneligible` | app.js:310-326 | For an ineligible account, the code as written reports a failed claim where `ClaimFlow` shows the wait. On every other input the two agree. |
| `RewardClaim.AsWrittenWaitExample` | app.js:310-326 | As written, 5400 seconds left gives a failed claim, not a 2-hour wait. |
| `SmileSession.ClaimedStatusOnlyWhenConfirmed` | app.js:310-321 | Starting from any other status, the status line reads "claimed" if and only if eligibility was read and is true, a score exists, and the transaction was accepted and confirmed. |
| `SmileSession.IneligibleKeepsStatusUnclaimed` | app.js:311-314 | For an ineligible account the status line is left as it was (the wait goes to an alert). |
| `SmileSession.Session.constructor` | app.js:53-57 | The session starts disconnected, with no photo, score or image id, and with the initial control state assumed above. |
| `SmileSession.Session.ModelsLoaded` | app.js:81-99 | Records whether the face models loaded. Only that flag and the status change. |
| `SmileSession.Session.ConnectWallet` | app.js:130-159 | Success means a provider, a non-empty account list and a working signer. It sets `isConnected`, disables connect and enables Farcaster. A missing provider, or a rejected or empty account list, or a signer failure, changes only the status. The invariant is kept. |
| `SmileSession.Session.ConnectFarcaster` | app.js:164-186 | Before the wallet is connected, nothing changes. Otherwise the gate opens and its button is disabled. Capture is enabled and the camera shown only if the camera starts. A denied camera leaves the gate open with capture disabled. |
| `SmileSession.Session.CaptureSmile` | app.js:191-233 | Before the gate opens, nothing changes. Otherwise the photo is stored, and capture is enabled again whether scoring succeeded or failed. A failure keeps the previous score, image id and display. A success stores the score and image id, shows the score card with `SmileMessage(score)`, and reveals claim and post. |
| `SmileSession.Session.ClaimReward` | app.js:287-327 | The outcome is the corrected `ClaimFlow` with the session's score. A successful claim carries a score in [10, 100]. Only the status line changes: "claimed" after a confirmed claim, "claim failed" after any caught failure, and unchanged after the two alerts (no provider, wait). |
| `SmileSession.Session.PostToFarcaster` | app.js:332-348 | After both delays, the score, claim and post elements are hidden and post is enabled again. The status is back to "ready". The score and image id stay in memory. |
| `SmileSession.GateScenario` | app.js:130-186 | A Farcaster connect after a failed wallet connect leaves the gate closed. After a successful wallet connect it opens the gate. Capture is usable afterwards exactly when the camera started. |

## Left out

- Wallet and contract calls are replaced by their results. This covers the account request, the `BrowserProvider`/`getSigner`/`Contract` binding, `tx.wait()` and the contract's own eligibility bookkeeping. These are foreign library and network calls.
- The face detector and its models are replaced by their results, for the same reason. The floating-point `Math.round(happiness * 100)` is left out as floating point, so happiness enters already rounded.
- Canvas capture and `toDataURL` are left out: the photo is an opaque string.
- The mock upload's random `IMG…` token is left out: the image id is a parameter.
- The camera stream is left out. Only whether it started is modelled.
- The `setStatus` strings and `console.log` are reduced to a `Status` tag. The `alert` pop-ups are left out. The score display's text layout is reduced to the `ScoreCard` fields.
- Some statuses are overwritten within the same handler: "Connecting…", "Capturing…", "AI analyzing…", "Processing…", "Claim transaction sent" and "Posting…". Handlers are atomic here, so these statuses are not modelled.
- The `setTimeout` delays (800 ms, 1500 ms, 2000 ms) are left out as timing. `PostToFarcaster` is one step from click to reset.
- Re-entrant clicks and interleaving of suspended handlers are left out as concurrency.
- The distribution of `Math.random` is left out. The draw is any integer in [0, 40].
- The `provider` and `signer` globals are not read anywhere else, so they are left out. The same goes for the `window.web3` fallback in `getEthereumProvider` and the unused `lastClaimTime`/`rewardRate` entries of the ABI.
- The contract address, the RPC URL and the ABI text are left out as data only.
- `SmileSession.Session.ClaimReward` follows the corrected `ClaimFlow`. For an ineligible account it leaves the status line unchanged and reports the wait. The page as written shows "Claim failed" instead; `ClaimFlowAsWritten` models that (see "## Findings").
- Clicks on disabled or hidden controls never reach a handler in a browser. No handler is guarded by that here: every method accepts every call.

## Findings

| source | as written | input that shows it | evidently intended | confidence | as-written member | corrected member |
|---|---|---|---|---|---|---|
| app.js:310-313 | `Math.ceil(secsUntilNext / 3600)` divides the `uint256` returned by `getEligibility()`. The ethers v6 binding returns that value as a BigInt, and dividing a BigInt by a number throws a TypeError. The `catch` at app.js:323-326 then reports "Claim failed" and the wait alert never appears. | eligible = false, secsUntilNext = 5400 | An alert asking the user to wait 2 hours, with no transaction sent | medium, not executed (relies on ethers v6 decoding `uint256` as BigInt) | `RewardClaim.ClaimFlowAsWritten`, shown by `RewardClaim.AsWrittenWaitExample` and `RewardClaim.AsWrittenDivergesWhenIneligible` | `RewardClaim.ClaimFlow`, with `RewardClaim.WaitHours` and `RewardClaim.WaitHoursIsMathCeil`, used by `SmileSession.Session.ClaimReward` |
