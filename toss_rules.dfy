/**
 * The rules of the paper-toss gameplay scene as pure definitions: the scalar
 * state the scene keeps, the engine events that change it, the arithmetic of
 * a throw and of one frame, and the properties of the Intro -> Play -> End
 * cycle. The class GameScene in module TossScene is proved to follow them.
 */
module TossRules {

  const WinScore: int := 5
  const RoundSeconds: int := 60
  const MaxWind: int := 200
  const HandCycle: int := 30
  const FanFrames: int := 5
  const LaunchX: real := 1400.0
  const LaunchY: real := 900.0
  /** Air resistance applied to both velocity components every frame. */
  const Damping: real := 0.98
  /** Share of the wind force added to the horizontal velocity every frame. */
  const WindPerFrame: real := 0.016

  /** Which of the three scenes runs; End carries the outcome handed to the end screen. */
  datatype Phase = Intro | Play | End(won: bool, finalScore: int)

  /** A repeating timer handle: never created, running, or removed. */
  datatype Handle = Unset | Active | Removed

  datatype Colour = Green | Yellow | Red

  datatype HandPose = HandIdle | HandBack | HandForward

  // ---------------------------------------------------------------------------
  // Arithmetic of the scene
  // ---------------------------------------------------------------------------

  /** JavaScript's `%`, which truncates toward zero. */
  function JsRem(a: int, n: int): (r: int)
    requires n > 0
    ensures 0 <= a ==> 0 <= r < n && r == a % n
    ensures a < 0 ==> -n < r <= 0
  {
    if a >= 0 then a % n else -((-a) % n)
  }

  /** Launch speed for a power reading: power 0..100 spans 400..1200 px/s linearly. */
  function LaunchSpeed(power: real): (speed: real)
    ensures 0.0 <= power <= 100.0 ==> 400.0 <= speed <= 1200.0
  {
    400.0 + (power / 100.0) * 800.0
  }

  lemma LaunchSpeedIncreasing(p: real, q: real)
    requires p < q
    ensures LaunchSpeed(p) < LaunchSpeed(q)
  {
  }

  lemma LaunchSpeedSamples()
    ensures LaunchSpeed(0.0) == 400.0
    ensures LaunchSpeed(50.0) == 800.0
    ensures LaunchSpeed(100.0) == 1200.0
  {
  }

  /** Colour of the power meter: green below 50, yellow below 80, red from 80. */
  function MeterColour(power: real): (c: Colour)
    ensures c == Green <==> power < 50.0
    ensures c == Yellow <==> 50.0 <= power < 80.0
    ensures c == Red <==> 80.0 <= power
  {
    if power < 50.0 then Green else if power < 80.0 then Yellow else Red
  }

  /** Angle of the wind indicator: pointing right only for a strictly positive wind. */
  function WindAngle(wind: int): (angle: int)
    ensures angle == 0 <==> 0 < wind
    ensures angle == 180 <==> wind <= 0
  {
    if wind > 0 then 0 else 180
  }

  /** The hand animation's next frame. */
  function NextHandFrame(f: int): (g: int)
    ensures 0 <= f ==> 0 <= g < HandCycle
    ensures 0 <= f < HandCycle - 1 ==> g == f + 1
    ensures f == HandCycle - 1 ==> g == 0
  {
    JsRem(f + 1, HandCycle)
  }

  /** Hand texture for a frame: forward for frames 10..19, back otherwise. */
  function PoseFor(f: int): (pose: HandPose)
    ensures pose == HandForward <==> 10 <= f < 20
    ensures pose != HandIdle
  {
    if f < 10 then HandBack else if f < 20 then HandForward else HandBack
  }

  /** The fan blade's next texture number. */
  function NextFanFrame(f: int): (g: int)
    ensures 0 <= f ==> 1 <= g <= FanFrames
    ensures 1 <= f < FanFrames ==> g == f + 1
    ensures f == FanFrames ==> g == 1
  {
    JsRem(f, FanFrames) + 1
  }

  function HandFrameAfter(f: int, k: nat): int {
    if k == 0 then f else NextHandFrame(HandFrameAfter(f, k - 1))
  }

  function FanFrameAfter(f: int, k: nat): int {
    if k == 0 then f else NextFanFrame(FanFrameAfter(f, k - 1))
  }

  /** After k hand ticks the frame has advanced k steps round the 30-frame cycle. */
  lemma {:induction false} HandFramesCycle(f: int, k: nat)
    requires 0 <= f < HandCycle
    ensures HandFrameAfter(f, k) == (f + k) % HandCycle
  {
    if k > 0 {
      HandFramesCycle(f, k - 1);
      HandTickMod(f + k - 1);
    }
  }

  lemma HandTickMod(a: nat)
    ensures NextHandFrame(a % HandCycle) == (a + 1) % HandCycle
  {
  }

  /** After k fan ticks the blade has advanced k steps round 1, 2, 3, 4, 5, 1, ... */
  lemma {:induction false} FanFramesCycle(f: int, k: nat)
    requires 1 <= f <= FanFrames
    ensures FanFrameAfter(f, k) == (f - 1 + k) % FanFrames + 1
  {
    if k > 0 {
      FanFramesCycle(f, k - 1);
      FanTickMod(f - 1 + k - 1);
    }
  }

  lemma FanTickMod(a: nat)
    ensures NextFanFrame(a % FanFrames + 1) == (a + 1) % FanFrames + 1
  {
  }

  /** One frame of air resistance on a velocity component: it shrinks toward 0 and keeps its sign. */
  function Damped(v: real): (d: real)
    ensures 0.0 < v ==> 0.0 < d < v
    ensures v < 0.0 ==> v < d < 0.0
    ensures v == 0.0 ==> d == 0.0
  {
    v * Damping
  }

  /** One frame of wind then air resistance on the horizontal velocity. */
  function WindDamped(vx: real, wind: int): (d: real)
    ensures wind == 0 ==> d == Damped(vx)
    ensures 0 < wind ==> Damped(vx) < d
    ensures wind < 0 ==> d < Damped(vx)
  {
    Damped(vx + wind as real * WindPerFrame)
  }

  lemma DampingSamples()
    ensures Damped(100.0) == 98.0 && Damped(-100.0) == -98.0
    ensures WindDamped(100.0, 0) == 98.0
  {
  }

  /** Outside the play bounds: below y = 1200 or left of -100 or right of 2020. */
  predicate OffScreen(x: real, y: real)
    ensures 0.0 <= x <= 1920.0 && 0.0 <= y <= 1080.0 ==> !OffScreen(x, y)
    ensures 1200.0 < y ==> OffScreen(x, y)
  {
    y > 1200.0 || x < -100.0 || x > 2020.0
  }

  // ---------------------------------------------------------------------------
  // Paper balls
  // ---------------------------------------------------------------------------

  /** The fields of a paper ball the scene reads and writes; `alive` means it still has a body. */
  datatype BallState = BallState(x: real, y: real, vx: real, vy: real, alive: bool)

  /** What one frame does to a ball: a ball without a body is left alone. */
  function StepBall(b: BallState, wind: int): (r: BallState)
    ensures !b.alive ==> r == b
    ensures b.alive ==> r.x == b.x && r.y == b.y
    ensures b.alive ==> r.vx == WindDamped(b.vx, wind) && r.vy == Damped(b.vy)
    ensures r.alive <==> b.alive && !OffScreen(b.x, b.y)
  {
    if !b.alive then b
    else BallState(b.x, b.y, WindDamped(b.vx, wind), Damped(b.vy), !OffScreen(b.x, b.y))
  }

  /** A ball one frame removes from the list: one with a body that is off screen. */
  predicate Removal(b: BallState) {
    b.alive && OffScreen(b.x, b.y)
  }

  // ---------------------------------------------------------------------------
  // Scene state and its transitions
  // ---------------------------------------------------------------------------

  /** The scalar state of the gameplay scene (the ball list is kept by the class). */
  datatype SceneState = SceneState(
    phase: Phase,
    score: int,
    timeRemaining: int,
    windForce: int,
    windAngle: int,
    currentPower: real,
    meterColour: Colour,
    oscillationTime: real,
    handAnimFrame: int,
    handPose: HandPose,
    fanBladeFrame: int,
    timerEvent: Handle,
    windEvent: Handle,
    handAnimEvent: Handle)

  /**
   * The values the scene constructor gives. The display fields (wind angle, meter
   * colour, hand pose, fan frame) are only set by create(); before it they hold the
   * neutral values below.
   */
  function Initial(): (r: SceneState)
    ensures r.phase == Intro && r.score == 0 && r.timeRemaining == RoundSeconds
    ensures r.timerEvent == Unset && r.windEvent == Unset && r.handAnimEvent == Unset
  {
    SceneState(Intro, 0, RoundSeconds, 0, WindAngle(0), 0.0, Green, 0.0, 0, HandIdle, 0,
               Unset, Unset, Unset)
  }

  /** Removing a handle that exists; a missing one is skipped. */
  function Cancel(h: Handle): (c: Handle)
    ensures c != Active
    ensures c == Unset <==> h == Unset
  {
    if h == Unset then Unset else Removed
  }

  /** endGame: stop the three timers, hand the outcome and the score to the end screen. */
  function Ended(s: SceneState, won: bool): (r: SceneState)
    ensures r.phase == End(won, s.score)
    ensures r.timerEvent != Active && r.windEvent != Active && r.handAnimEvent != Active
    ensures r.(phase := s.phase, timerEvent := s.timerEvent, windEvent := s.windEvent,
               handAnimEvent := s.handAnimEvent) == s
  {
    s.(timerEvent := Cancel(s.timerEvent), windEvent := Cancel(s.windEvent),
       handAnimEvent := Cancel(s.handAnimEvent), phase := End(won, s.score))
  }

  /** updateTimer: one second less; the round is lost when nothing is left. */
  function TimerTicked(s: SceneState): (r: SceneState)
    ensures r.timeRemaining == s.timeRemaining - 1 && r.score == s.score
    ensures s.timeRemaining <= 1 ==> r.phase == End(false, s.score) && r.timerEvent != Active
    ensures 1 < s.timeRemaining ==> r == s.(timeRemaining := s.timeRemaining - 1)
  {
    var t := s.(timeRemaining := s.timeRemaining - 1);
    if t.timeRemaining <= 0 then Ended(t, false) else t
  }

  /** onPaperInBin: one point more; the round is won at five. */
  function Scored(s: SceneState): (r: SceneState)
    ensures r.score == s.score + 1 && r.timeRemaining == s.timeRemaining
    ensures WinScore <= s.score + 1 ==> r.phase == End(true, s.score + 1) && r.timerEvent != Active
    ensures s.score + 1 < WinScore ==> r == s.(score := s.score + 1)
  {
    var t := s.(score := s.score + 1);
    if t.score >= WinScore then Ended(t, true) else t
  }

  /** changeWind with the random draw supplied. */
  function WindChanged(s: SceneState, draw: int): (r: SceneState)
    ensures r.windForce == draw && (r.windAngle == 0 <==> 0 < draw)
    ensures r.(windForce := s.windForce, windAngle := s.windAngle) == s
  {
    s.(windForce := draw, windAngle := WindAngle(draw))
  }

  /** The hand timer's callback: next frame and its texture. */
  function HandAdvanced(s: SceneState): (r: SceneState)
    ensures 0 <= s.handAnimFrame ==> 0 <= r.handAnimFrame < HandCycle
    ensures r.handPose != HandIdle
    ensures r.(handAnimFrame := s.handAnimFrame, handPose := s.handPose) == s
  {
    var f := NextHandFrame(s.handAnimFrame);
    s.(handAnimFrame := f, handPose := PoseFor(f))
  }

  /** The fan timer's callback: the next blade texture. */
  function FanAdvanced(s: SceneState): (r: SceneState)
    ensures 0 <= s.fanBladeFrame ==> 1 <= r.fanBladeFrame <= FanFrames
    ensures r.(fanBladeFrame := s.fanBladeFrame) == s
  {
    s.(fanBladeFrame := NextFanFrame(s.fanBladeFrame))
  }

  /** The scalar part of update(time, delta), with the sine reading supplied as `power`. */
  function FrameAdvanced(s: SceneState, delta: real, power: real): (r: SceneState)
    ensures 0.0 <= delta ==> s.oscillationTime <= r.oscillationTime
    ensures r.currentPower == power && (r.meterColour == Red <==> 80.0 <= power)
    ensures r.(oscillationTime := s.oscillationTime, currentPower := s.currentPower,
               meterColour := s.meterColour) == s
  {
    s.(oscillationTime := s.oscillationTime + delta, currentPower := power,
       meterColour := MeterColour(power))
  }

  /** create() as the source has it: it starts the timers but resets none of the session counters. */
  function StartedAsWritten(s: SceneState, draw: int): (r: SceneState)
    ensures r.phase == Play && r.windForce == draw
    ensures r.timerEvent == Active && r.windEvent == Active && r.handAnimEvent == Active
    ensures r.score == s.score && r.timeRemaining == s.timeRemaining
    ensures r.handAnimFrame == s.handAnimFrame && r.currentPower == s.currentPower
  {
    var c := s.(phase := Play, fanBladeFrame := 1, handPose := HandIdle, handAnimEvent := Active,
                meterColour := Green, timerEvent := Active, windEvent := Active);
    WindChanged(c, draw)
  }

  /** create() with the constructor's session values re-established first: every round starts fresh. */
  function Started(draw: int): (r: SceneState)
    ensures r.phase == Play && r.score == 0 && r.timeRemaining == RoundSeconds
    ensures r.windForce == draw && r.handAnimFrame == 0 && r.currentPower == 0.0
  {
    StartedAsWritten(Initial(), draw)
  }

  /** The end screen's delayed call back to the intro. */
  function Restarted(s: SceneState): (r: SceneState)
    ensures r.phase == Intro && r.(phase := s.phase) == s
  {
    s.(phase := Intro)
  }

  /** The callbacks the engine delivers to the scene; random draws and sine readings are supplied. */
  datatype Event =
    | IntroFinished(draw: int)
    | TimerFired
    | WindFired(draw: int)
    | HandFired
    | FanFired
    | PaperInBin
    | Frame(delta: real, power: real)
    | EndDelayElapsed

  /**
   * When the engine can deliver an event: a repeating timer only while its handle is
   * active, the fan timer, overlaps and frames only while the scene runs.
   */
  predicate Enabled(s: SceneState, e: Event)
    ensures Inv(s) && Enabled(s, e) ==>
      (s.phase.Intro? <==> e.IntroFinished?) && (s.phase.End? <==> e == EndDelayElapsed)
  {
    match e
    case IntroFinished(draw) => s.phase.Intro? && -MaxWind <= draw <= MaxWind
    case TimerFired => s.timerEvent == Active
    case WindFired(draw) => s.windEvent == Active && -MaxWind <= draw <= MaxWind
    case HandFired => s.handAnimEvent == Active
    case FanFired => s.phase.Play?
    case PaperInBin => s.phase.Play?
    case Frame(delta, power) => s.phase.Play? && 0.0 <= delta && 0.0 <= power <= 100.0
    case EndDelayElapsed => s.phase.End?
  }

  /**
   * What each callback does. Only a basket or a new round changes the score, and only a
   * countdown tick or a new round changes the time.
   */
  function Step(s: SceneState, e: Event): (r: SceneState)
    ensures !e.IntroFinished? && e != PaperInBin ==> r.score == s.score
    ensures !e.IntroFinished? && e != TimerFired ==> r.timeRemaining == s.timeRemaining
  {
    match e
    case IntroFinished(draw) => Started(draw)
    case TimerFired => TimerTicked(s)
    case WindFired(draw) => WindChanged(s, draw)
    case HandFired => HandAdvanced(s)
    case FanFired => FanAdvanced(s)
    case PaperInBin => Scored(s)
    case Frame(delta, power) => FrameAdvanced(s, delta, power)
    case EndDelayElapsed => Restarted(s)
  }

  /** The scene invariant: bounded counters, consistent displays, timers alive exactly during play. */
  ghost predicate Inv(s: SceneState) {
    && 0 <= s.score <= WinScore
    && 0 <= s.timeRemaining <= RoundSeconds
    && -MaxWind <= s.windForce <= MaxWind
    && 0.0 <= s.currentPower <= 100.0
    && s.meterColour == MeterColour(s.currentPower)
    && 0.0 <= s.oscillationTime
    && 0 <= s.handAnimFrame < HandCycle
    && (s.handPose == HandIdle || s.handPose == PoseFor(s.handAnimFrame))
    && 0 <= s.fanBladeFrame <= FanFrames
    && (s.phase.Play? <==> s.timerEvent == Active)
    && (s.phase.Play? <==> s.windEvent == Active)
    && (s.phase.Play? <==> s.handAnimEvent == Active)
    && (s.phase.Play? ==>
          s.score < WinScore && 0 < s.timeRemaining && 1 <= s.fanBladeFrame
          && s.windAngle == WindAngle(s.windForce))
    && (s.phase.End? ==>
          s.phase.finalScore == s.score
          && (s.phase.won <==> s.score == WinScore)
          && (!s.phase.won ==> s.timeRemaining == 0))
  }

  lemma InitialInv()
    ensures Inv(Initial()) && Initial().phase == Intro
  {
  }

  /**
   * A freshly started round satisfies the invariant, and a start from any state is the same
   * fresh round: nothing of the previous round carries over.
   */
  lemma StartedFresh(draw: int)
    requires -MaxWind <= draw <= MaxWind
    ensures Inv(Started(draw))
    ensures forall s :: Step(s, IntroFinished(draw)) == Started(draw)
  {
  }

  /** Every event the engine can deliver keeps the invariant. */
  lemma StepKeepsInv(s: SceneState, e: Event)
    requires Inv(s) && Enabled(s, e)
    ensures Inv(Step(s, e))
  {
    match e
    case IntroFinished(draw) => StartedFresh(draw);
    case TimerFired =>
    case WindFired(draw) =>
    case HandFired =>
    case FanFired =>
    case PaperInBin =>
    case Frame(delta, power) =>
    case EndDelayElapsed =>
  }

  /** The phase cycle: Intro -> Play -> End -> Intro, or no change. */
  predicate Advances(from: Phase, to: Phase) {
    || from == to
    || (from.Intro? && to.Play?)
    || (from.Play? && to.End?)
    || (from.End? && to.Intro?)
  }

  /**
   * No transition outside the cycle exists, and each one has a single cause: the intro
   * finishing, the countdown running out or the fifth basket, and the end screen's delay.
   */
  lemma PhaseCycle(s: SceneState, e: Event)
    requires Inv(s) && Enabled(s, e)
    ensures Advances(s.phase, Step(s, e).phase)
    ensures s.phase.Intro? && Step(s, e).phase != Intro ==> e.IntroFinished?
    ensures s.phase.Play? && Step(s, e).phase != Play ==>
      (e == TimerFired && Step(s, e).phase == End(false, s.score)
                       && s.timeRemaining == 1)
      || (e == PaperInBin && Step(s, e).phase == End(true, s.score + 1)
                          && s.score + 1 == WinScore)
    ensures s.phase.End? && Step(s, e).phase != s.phase ==> e == EndDelayElapsed
  {
  }

  /** Outside play no repeating timer of the scene can fire any more. */
  lemma TimersSilentOutsidePlay(s: SceneState, draw: int)
    requires Inv(s) && !s.phase.Play?
    ensures !Enabled(s, TimerFired) && !Enabled(s, WindFired(draw)) && !Enabled(s, HandFired)
  {
  }

  /** A basket raises the score by exactly one and ends the round exactly when it reaches five. */
  lemma BasketScores(s: SceneState)
    requires Inv(s) && Enabled(s, PaperInBin)
    ensures Step(s, PaperInBin).score == s.score + 1
    ensures Step(s, PaperInBin).phase.End? <==> s.score + 1 >= WinScore
    ensures Step(s, PaperInBin).timeRemaining == s.timeRemaining
  {
  }

  /** A timer tick lowers the time by exactly one and ends the round exactly when none is left. */
  lemma TimerCounts(s: SceneState)
    requires Inv(s) && Enabled(s, TimerFired)
    ensures Step(s, TimerFired).timeRemaining == s.timeRemaining - 1
    ensures Step(s, TimerFired).phase.End? <==> s.timeRemaining - 1 <= 0
    ensures Step(s, TimerFired).score == s.score
  {
  }

  // ---------------------------------------------------------------------------
  // Runs of events
  // ---------------------------------------------------------------------------

  /** The engine can deliver every event of `es` in turn. */
  predicate Trace(s: SceneState, es: seq<Event>)
    decreases |es|
  {
    |es| == 0 || (Enabled(s, es[0]) && Trace(Step(s, es[0]), es[1..]))
  }

  function Run(s: SceneState, es: seq<Event>): SceneState
    decreases |es|
  {
    if |es| == 0 then s else Run(Step(s, es[0]), es[1..])
  }

  function Repeat(e: Event, k: nat): (es: seq<Event>)
    ensures |es| == k
    ensures forall i :: 0 <= i < k ==> es[i] == e
  {
    seq(k, _ => e)
  }

  /** The invariant holds all along any run the engine can deliver. */
  lemma {:induction false} TraceKeepsInv(s: SceneState, es: seq<Event>)
    requires Inv(s) && Trace(s, es)
    ensures Inv(Run(s, es))
    decreases |es|
  {
    if |es| > 0 {
      StepKeepsInv(s, es[0]);
      TraceKeepsInv(Step(s, es[0]), es[1..]);
    }
  }

  /** Every state reachable from the constructor satisfies the invariant (so the score never exceeds five). */
  lemma Reachable(es: seq<Event>)
    requires Trace(Initial(), es)
    ensures Inv(Run(Initial(), es))
    ensures 0 <= Run(Initial(), es).score <= WinScore
  {
    InitialInv();
    TraceKeepsInv(Initial(), es);
  }

  /** k timer ticks during play: the time goes down by k and the round ends on the last possible one. */
  lemma {:induction false} Countdown(s: SceneState, k: nat)
    requires Inv(s) && s.phase.Play? && k <= s.timeRemaining
    ensures Trace(s, Repeat(TimerFired, k))
    ensures Run(s, Repeat(TimerFired, k)).score == s.score
    ensures Run(s, Repeat(TimerFired, k)).timeRemaining == s.timeRemaining - k
    ensures k < s.timeRemaining ==> Run(s, Repeat(TimerFired, k)).phase.Play?
    ensures k == s.timeRemaining ==> Run(s, Repeat(TimerFired, k)).phase == End(false, s.score)
    ensures k == s.timeRemaining ==> Run(s, Repeat(TimerFired, k)).timerEvent != Active
    decreases k
  {
    if k > 0 {
      var es := Repeat(TimerFired, k);
      assert es[1..] == Repeat(TimerFired, k - 1);
      var t := TimerTicked(s);
      StepKeepsInv(s, TimerFired);
      if s.timeRemaining == 1 {
        assert es[1..] == [];
      } else {
        Countdown(t, k - 1);
      }
    }
  }

  /** From a fresh start the round stays in play for 59 ticks and is lost on exactly the 60th. */
  lemma SixtiethTickEndsRound(draw: int)
    requires -MaxWind <= draw <= MaxWind
    ensures Trace(Started(draw), Repeat(TimerFired, RoundSeconds))
    ensures Run(Started(draw), Repeat(TimerFired, RoundSeconds - 1)).phase == Play
    ensures Run(Started(draw), Repeat(TimerFired, RoundSeconds)).phase == End(false, 0)
    ensures !Enabled(Run(Started(draw), Repeat(TimerFired, RoundSeconds)), TimerFired)
  {
    StartedFresh(draw);
    Countdown(Started(draw), RoundSeconds - 1);
    Countdown(Started(draw), RoundSeconds);
  }

  /** k baskets during play: the score goes up by k and the round is won on the fifth point. */
  lemma {:induction false} Baskets(s: SceneState, k: nat)
    requires Inv(s) && s.phase.Play? && k <= WinScore - s.score
    ensures Trace(s, Repeat(PaperInBin, k))
    ensures Run(s, Repeat(PaperInBin, k)).score == s.score + k
    ensures Run(s, Repeat(PaperInBin, k)).timeRemaining == s.timeRemaining
    ensures k < WinScore - s.score ==> Run(s, Repeat(PaperInBin, k)).phase.Play?
    ensures k == WinScore - s.score ==> Run(s, Repeat(PaperInBin, k)).phase == End(true, WinScore)
    decreases k
  {
    if k > 0 {
      var es := Repeat(PaperInBin, k);
      assert es[1..] == Repeat(PaperInBin, k - 1);
      StepKeepsInv(s, PaperInBin);
      if s.score == WinScore - 1 {
        assert es[1..] == [];
      } else {
        Baskets(Scored(s), k - 1);
      }
    }
  }

  /** From a fresh start four baskets keep the round going and the fifth wins it. */
  lemma FifthBasketWins(draw: int)
    requires -MaxWind <= draw <= MaxWind
    ensures Run(Started(draw), Repeat(PaperInBin, WinScore - 1)).phase == Play
    ensures Run(Started(draw), Repeat(PaperInBin, WinScore)).phase == End(true, WinScore)
  {
    StartedFresh(draw);
    Baskets(Started(draw), WinScore - 1);
    Baskets(Started(draw), WinScore);
  }

  /**
   * create() as written keeps the previous round's counters. After a round lost on time
   * the next round is lost on its first tick; after a round won the next first basket
   * ends it with six points.
   */
  lemma StaleSecondRound()
    ensures var lost := Run(Started(0), Repeat(TimerFired, RoundSeconds));
      var again := StartedAsWritten(Restarted(lost), 0);
      again.phase == Play && again.timeRemaining == 0
      && TimerTicked(again).phase == End(false, 0)
    ensures var won := Run(Started(0), Repeat(PaperInBin, WinScore));
      var again := StartedAsWritten(Restarted(won), 0);
      again.phase == Play && again.score == WinScore
      && Scored(again).phase == End(true, WinScore + 1)
  {
    StartedFresh(0);
    Countdown(Started(0), RoundSeconds);
    Baskets(Started(0), WinScore);
  }
}
