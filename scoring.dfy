/** How a captured frame becomes a smile score and a message:
    the face-detection path with its minimum score of 10, the random
    fallback used when the face models did not load, and the six
    message tiers of the score display. */
module SmileScoring {
  import opened Results

  /** A happiness measure already scaled to a whole percentage. */
  type Percent = x: int | 0 <= x <= 100

  /** The integer `floor(Math.random() * 41)` drawn by the fallback path. */
  type Draw = k: int | 0 <= k <= 40

  /** Every detected score is raised to at least this value. */
  const MINIMUM_SCORE: int := 10

  /** The lowest score the fallback path adds to its draw. */
  const FALLBACK_BASE: int := 60

  // ---------------------------------------------------------------
  // Message tiers
  // ---------------------------------------------------------------

  /** The six messages of the score display, least enthusiastic first. */
  datatype SmileTier = TryAgain | NotBad | Good | Nice | Great | Amazing {

    /** Position in the order of enthusiasm. */
    function Rank(): (k: nat)
      ensures k <= 5
      ensures k == 0 <==> this == TryAgain
    {
      match this
      case TryAgain => 0
      case NotBad => 1
      case Good => 2
      case Nice => 3
      case Great => 4
      case Amazing => 5
    }

    /** Whether `score` reaches this tier's inclusive lower bound;
        the bottom tier has none. */
    predicate EarnedBy(score: int) {
      match this
      case TryAgain => true
      case NotBad => score >= 50
      case Good => score >= 60
      case Nice => score >= 70
      case Great => score >= 80
      case Amazing => score >= 90
    }

    /** The text shown under the score. */
    function Text(): string {
      match this
      case TryAgain => "\U{1F614} Try again!"
      case NotBad => "\U{1F610} Not bad!"
      case Good => "\U{1F642} Good smile!"
      case Nice => "\U{1F60A} Nice smile!"
      case Great => "\U{1F604} Great smile!"
      case Amazing => "\U{1F31F} Amazing smile!"
    }
  }

  /** The message for a score: the most enthusiastic tier whose lower
      bound the score reaches. Defined for every integer. */
  function SmileMessage(score: int): (t: SmileTier)
    ensures t.EarnedBy(score)
    ensures forall u: SmileTier :: u.Rank() > t.Rank() ==> !u.EarnedBy(score)
  {
    if score >= 90 then Amazing
    else if score >= 80 then Great
    else if score >= 70 then Nice
    else if score >= 60 then Good
    else if score >= 50 then NotBad
    else TryAgain
  }

  /** The six bands partition the integers at 50, 60, 70, 80 and 90. */
  lemma SmileMessageBands(score: int)
    ensures SmileMessage(score) == Amazing <==> 90 <= score
    ensures SmileMessage(score) == Great <==> 80 <= score < 90
    ensures SmileMessage(score) == Nice <==> 70 <= score < 80
    ensures SmileMessage(score) == Good <==> 60 <= score < 70
    ensures SmileMessage(score) == NotBad <==> 50 <= score < 60
    ensures SmileMessage(score) == TryAgain <==> score < 50
  {
  }

  /** A higher score never gets a less enthusiastic message. */
  lemma SmileMessageMonotone(a: int, b: int)
    requires a <= b
    ensures SmileMessage(a).Rank() <= SmileMessage(b).Rank()
  {
  }

  /** Every tier is shown for some score that the detection path can
      produce, so none of the six messages is dead. */
  lemma EveryTierReachable(t: SmileTier)
    ensures exists score :: MINIMUM_SCORE <= score <= 100 && SmileMessage(score) == t
  {
    var score := match t
      case TryAgain => 10
      case NotBad => 50
      case Good => 60
      case Nice => 70
      case Great => 80
      case Amazing => 90;
    assert SmileMessage(score) == t;
  }

  // ---------------------------------------------------------------
  // Detection path
  // ---------------------------------------------------------------

  /** One face returned by the detector, with its happiness expression
      when the detector reports one. */
  datatype Detection = Face(happiness: Option<Percent>)

  /** What one call of the face detector gives back. */
  datatype DetectorRun = DetectorError | Faces(found: seq<Detection>)

  /** Why a capture produced no score. */
  datatype CaptureError = NoFaceDetected | FaceApiError

  /** The happiness of a face, 0 when the detector gave none. */
  function Happiness(d: Detection): Percent {
    d.happiness.GetOr(0)
  }

  /** The detection-path score: the first face's happiness, raised to
      the minimum score; a run with no face, or a detector error, gives
      no score. */
  function AnalyzeSmile(run: DetectorRun): (r: Result<int, CaptureError>)
    ensures r.Failure? <==> run.DetectorError? || |run.found| == 0
    ensures run.Faces? && |run.found| == 0 ==> r == Failure(NoFaceDetected)
    ensures r.Success? ==> MINIMUM_SCORE <= r.value <= 100
    ensures r.Success? ==> r.value >= Happiness(run.found[0])
    ensures r.Success? && Happiness(run.found[0]) >= MINIMUM_SCORE ==> r.value == Happiness(run.found[0])
    ensures r.Success? && Happiness(run.found[0]) < MINIMUM_SCORE ==> r.value == MINIMUM_SCORE
  {
    match run
    case DetectorError => Failure(FaceApiError)
    case Faces(found) =>
      if |found| == 0 then Failure(NoFaceDetected)
      else
        var h := Happiness(found[0]);
        Success(if h < MINIMUM_SCORE then MINIMUM_SCORE else h)
  }

  /** Only the first face the detector returns decides the score. */
  lemma OnlyFirstFaceCounts(first: Detection, rest1: seq<Detection>, rest2: seq<Detection>)
    ensures AnalyzeSmile(Faces([first] + rest1)) == AnalyzeSmile(Faces([first] + rest2))
  {
  }

  /** Every score from 10 to 100 is produced by some detected face. */
  lemma DetectedScoresCoverRange(score: int)
    requires MINIMUM_SCORE <= score <= 100
    ensures exists d: Detection :: AnalyzeSmile(Faces([d])) == Success(score)
  {
    var d := Face(Some(score));
    assert AnalyzeSmile(Faces([d])) == Success(score);
  }

  // ---------------------------------------------------------------
  // Fallback path
  // ---------------------------------------------------------------

  /** The score used when the face models did not load. */
  function FallbackScore(draw: Draw): (s: int)
    ensures FALLBACK_BASE <= s <= 100
  {
    draw + FALLBACK_BASE
  }

  /** Every score from 60 to 100 is drawn by exactly one draw. */
  lemma FallbackCoversRange(s: int)
    requires FALLBACK_BASE <= s <= 100
    ensures exists draw: Draw :: FallbackScore(draw) == s
    ensures forall d1: Draw, d2: Draw :: FallbackScore(d1) == s && FallbackScore(d2) == s ==> d1 == d2
  {
    var draw: Draw := s - FALLBACK_BASE;
    assert FallbackScore(draw) == s;
  }

  /** A fallback score never gets one of the two lowest messages. */
  lemma FallbackMessageAtLeastGood(draw: Draw)
    ensures SmileMessage(FallbackScore(draw)).Rank() >= Good.Rank()
  {
  }

  // ---------------------------------------------------------------
  // Choice of path
  // ---------------------------------------------------------------

  /** The score of one capture: the detector when the models loaded,
      the fallback draw otherwise. */
  function ScoreCapture(modelsLoaded: bool, run: DetectorRun, draw: Draw): (r: Result<int, CaptureError>)
    ensures r.Success? ==> MINIMUM_SCORE <= r.value <= 100
    ensures !modelsLoaded ==> r.Success? && FALLBACK_BASE <= r.value
    ensures r.Failure? ==> modelsLoaded
    ensures modelsLoaded ==> (r.Failure? <==> run.DetectorError? || |run.found| == 0)
  {
    if modelsLoaded then AnalyzeSmile(run) else Success(FallbackScore(draw))
  }

  /** Without the models the detector's answer plays no part. */
  lemma FallbackIgnoresDetector(run1: DetectorRun, run2: DetectorRun, draw: Draw)
    ensures ScoreCapture(false, run1, draw) == ScoreCapture(false, run2, draw)
  {
  }

  /** With the models loaded the random draw plays no part. */
  lemma DetectionIgnoresDraw(run: DetectorRun, draw1: Draw, draw2: Draw)
    ensures ScoreCapture(true, run, draw1) == ScoreCapture(true, run, draw2)
  {
  }

  /** The worked examples: happiness 95 gives 95 and the top message,
      happiness 0 gives the minimum 10 and the bottom message, and no
      face gives no score. */
  lemma DetectionExamples()
    ensures AnalyzeSmile(Faces([Face(Some(95))])) == Success(95)
    ensures SmileMessage(95) == Amazing
    ensures AnalyzeSmile(Faces([Face(Some(0))])) == Success(10)
    ensures AnalyzeSmile(Faces([Face(None)])) == Success(10)
    ensures SmileMessage(10) == TryAgain
    ensures AnalyzeSmile(Faces([])) == Failure(NoFaceDetected)
  {
  }
}
