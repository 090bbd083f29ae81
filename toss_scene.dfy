/**
 * The gameplay scene as the object the engine drives: its fields are the ones the
 * scene's callbacks update, and each callback is a method proved to perform the
 * matching step of module TossRules. Paper balls are objects whose bodies the scene
 * changes in place and which it drops from its list when they leave the screen.
 */
module TossScene {
  import opened TossRules
  import opened SeqFilter

  /** A thrown paper ball; `alive` is false once the sprite is destroyed and has no body. */
  class Ball {
    var x: real
    var y: real
    var vx: real
    var vy: real
    var alive: bool

    constructor Launch(x0: real, y0: real, vx0: real, vy0: real)
      ensures x == x0 && y == y0 && vx == vx0 && vy == vy0 && alive
    {
      x, y, vx, vy, alive := x0, y0, vx0, vy0, true;
    }

    /**
     * The body of update()'s per-paper callback up to the removal from the list: wind and
     * air resistance on a ball with a body, and destroying it once it is off screen.
     */
    method Drift(wind: int) returns (removed: bool)
      modifies this
      ensures Snap(this) == StepBall(old(Snap(this)), wind)
      ensures removed == Removal(old(Snap(this)))
    {
      removed := false;
      if alive {
        vx := vx + wind as real * WindPerFrame;
        vx := vx * Damping;
        vy := vy * Damping;
        if OffScreen(x, y) {
          alive := false;
          removed := true;
        }
      }
    }
  }

  function Snap(b: Ball): BallState
    reads b
  {
    BallState(b.x, b.y, b.vx, b.vy, b.alive)
  }

  class GameScene {
    var phase: Phase
    var score: int
    var timeRemaining: int
    var windForce: int
    var windAngle: int
    var currentPower: real
    var meterColour: Colour
    var powerOscillationTime: real
    var handAnimFrame: int
    var handPose: HandPose
    var fanBladeFrame: int
    var timerEvent: Handle
    var windEvent: Handle
    var handAnimEvent: Handle
    var paperBalls: seq<Ball>

    /** The scalar fields as one value. */
    function State(): SceneState
      reads this
    {
      SceneState(phase, score, timeRemaining, windForce, windAngle, currentPower, meterColour,
                 powerOscillationTime, handAnimFrame, handPose, fanBladeFrame,
                 timerEvent, windEvent, handAnimEvent)
    }

    ghost predicate Valid()
      reads this
    {
      Inv(State()) && Distinct(paperBalls)
    }

    constructor ()
      ensures Valid() && State() == Initial() && paperBalls == []
    {
      phase := Intro;
      score := 0;
      timeRemaining := RoundSeconds;
      windForce := 0;
      windAngle := WindAngle(0);
      currentPower := 0.0;
      meterColour := Green;
      powerOscillationTime := 0.0;
      handAnimFrame := 0;
      handPose := HandIdle;
      fanBladeFrame := 0;
      timerEvent, windEvent, handAnimEvent := Unset, Unset, Unset;
      paperBalls := [];
      InitialInv();
    }

    /**
     * create(), run when the intro's last tween completes: the fan, hand, countdown and
     * wind timers start and the first wind is drawn. The session values are first
     * re-established as the constructor sets them; the source leaves them as the previous
     * round ended (TossRules.StartedAsWritten), which this corrects.
     */
    method Create(draw: int)
      requires Valid() && Enabled(State(), IntroFinished(draw))
      modifies this
      ensures Valid() && State() == Step(old(State()), IntroFinished(draw))
      ensures paperBalls == []
    {
      ResetSession();
      phase := Play;
      fanBladeFrame := 1;
      handPose := HandIdle;
      handAnimEvent := Active;
      meterColour := Green;
      timerEvent := Active;
      windEvent := Active;
      ChangeWind(draw);
      StartedFresh(draw);
    }

    /**
     * The session values as the constructor sets them (score, time, wind, power, ball list,
     * hand frame, meter clock), which every start of a round re-establishes.
     */
    method ResetSession()
      modifies this
      ensures State() == old(State()).(score := 0, timeRemaining := RoundSeconds, windForce := 0,
                                       currentPower := 0.0, handAnimFrame := 0, oscillationTime := 0.0)
      ensures paperBalls == []
    {
      score := 0;
      timeRemaining := RoundSeconds;
      windForce := 0;
      currentPower := 0.0;
      paperBalls := [];
      handAnimFrame := 0;
      powerOscillationTime := 0.0;
    }

    /** changeWind, with the random integer draw in [-200, 200] supplied. */
    method ChangeWind(draw: int)
      requires -MaxWind <= draw <= MaxWind
      modifies this
      ensures State() == WindChanged(old(State()), draw) && paperBalls == old(paperBalls)
      ensures old(Valid()) ==> Valid()
    {
      windForce := draw;
      if windForce > 0 {
        windAngle := 0;
      } else {
        windAngle := 180;
      }
    }

    /** The hand animation timer's callback. */
    method HandAnimTick()
      requires Valid() && Enabled(State(), HandFired)
      modifies this
      ensures Valid() && State() == Step(old(State()), HandFired)
      ensures paperBalls == old(paperBalls)
    {
      handAnimFrame := JsRem(handAnimFrame + 1, HandCycle);
      if handAnimFrame < 10 {
        handPose := HandBack;
      } else if handAnimFrame < 20 {
        handPose := HandForward;
      } else {
        handPose := HandBack;
      }
    }

    /** The fan blade timer's callback. */
    method FanBladeTick()
      requires Valid() && Enabled(State(), FanFired)
      modifies this
      ensures Valid() && State() == Step(old(State()), FanFired)
      ensures paperBalls == old(paperBalls)
    {
      fanBladeFrame := JsRem(fanBladeFrame, FanFrames) + 1;
    }

    /** endGame: remove the three repeating timers, then start the end screen with the outcome. */
    method EndGame(won: bool)
      modifies this
      ensures State() == Ended(old(State()), won) && paperBalls == old(paperBalls)
    {
      if timerEvent != Unset {
        timerEvent := Removed;
      }
      if windEvent != Unset {
        windEvent := Removed;
      }
      if handAnimEvent != Unset {
        handAnimEvent := Removed;
      }
      phase := End(won, score);
    }

    /** The countdown timer's callback. */
    method UpdateTimer()
      requires Valid() && Enabled(State(), TimerFired)
      modifies this
      ensures Valid() && State() == Step(old(State()), TimerFired)
      ensures paperBalls == old(paperBalls)
    {
      ghost var s := State();
      timeRemaining := timeRemaining - 1;
      if timeRemaining <= 0 {
        EndGame(false);
      }
      StepKeepsInv(s, TimerFired);
    }

    /** The overlap callback: a point for the ball, which loses its body but stays listed. */
    method OnPaperInBin(paper: Ball)
      requires Valid() && Enabled(State(), PaperInBin)
      requires paper in paperBalls && paper.alive
      modifies this, paper
      ensures Valid() && State() == Step(old(State()), PaperInBin)
      ensures paperBalls == old(paperBalls)
      ensures !paper.alive && paper.x == old(paper.x) && paper.y == old(paper.y)
      ensures paper.vx == old(paper.vx) && paper.vy == old(paper.vy)
    {
      ghost var s := State();
      score := score + 1;
      paper.alive := false;
      if score >= WinScore {
        EndGame(true);
      }
      StepKeepsInv(s, PaperInBin);
    }

    /**
     * throwPaper: a new ball at the launch point, with the launch speed of the current
     * power along the fixed direction whose cosine and sine are supplied.
     */
    method ThrowPaper(cosAngle: real, sinAngle: real) returns (paper: Ball)
      requires Valid() && phase.Play?
      modifies this
      ensures Valid() && State() == old(State())
      ensures fresh(paper) && paperBalls == old(paperBalls) + [paper]
      ensures Snap(paper) == BallState(LaunchX, LaunchY, cosAngle * LaunchSpeed(currentPower),
                                       sinAngle * LaunchSpeed(currentPower), true)
      ensures 400.0 <= LaunchSpeed(currentPower) <= 1200.0
    {
      var speed := 400.0 + (currentPower / 100.0) * 800.0;
      paper := new Ball.Launch(LaunchX, LaunchY, cosAngle * speed, sinAngle * speed);
      DistinctSnoc(paperBalls, paper);
      paperBalls := paperBalls + [paper];
    }

    /**
     * update(time, delta), with the sine reading supplied as `power`: the power meter,
     * then wind and damping on every ball with a body, dropping those off screen.
     * `gone` is the set of balls the frame dropped from the list.
     */
    method Update(delta: real, power: real) returns (ghost gone: set<Ball>)
      requires Valid() && Enabled(State(), Frame(delta, power))
      modifies this, paperBalls
      ensures Valid() && State() == Step(old(State()), Frame(delta, power))
      ensures paperBalls == Filter(old(paperBalls), gone)
      ensures forall b :: b in gone ==> b in old(paperBalls)
      ensures forall j :: 0 <= j < |old(paperBalls)| ==>
                (old(paperBalls)[j] in gone <==> Removal(old(Snap(paperBalls[j]))))
                && Snap(old(paperBalls)[j]) == StepBall(old(Snap(paperBalls[j])), windForce)
    {
      UpdateMeter(delta, power);
      StepKeepsInv(old(State()), Frame(delta, power));
      var balls := paperBalls;
      paperBalls, gone := DriftPapers(balls, windForce);
      FilterDistinct(balls, gone);
    }

    /** The power meter part of update(): the elapsed time, the power reading and its colour band. */
    method UpdateMeter(delta: real, power: real)
      modifies this
      ensures State() == FrameAdvanced(old(State()), delta, power) && paperBalls == old(paperBalls)
    {
      powerOscillationTime := powerOscillationTime + delta;
      currentPower := power;
      if currentPower < 50.0 {
        meterColour := Green;
      } else if currentPower < 80.0 {
        meterColour := Yellow;
      } else {
        meterColour := Red;
      }
    }

    /** The end screen's delayed call back to the intro. */
    method ShowIntro()
      requires Valid() && Enabled(State(), EndDelayElapsed)
      modifies this
      ensures Valid() && State() == Step(old(State()), EndDelayElapsed)
      ensures paperBalls == old(paperBalls)
    {
      phase := Intro;
    }
  }

  /**
   * The forEach of update() over the ball list: every ball drifts, and each one destroyed is
   * filtered out of the list by identity. `gone` is the set of balls filtered out.
   */
  method DriftPapers(balls: seq<Ball>, wind: int) returns (kept: seq<Ball>, ghost gone: set<Ball>)
    requires Distinct(balls)
    modifies set b | b in balls
    ensures kept == Filter(balls, gone)
    ensures forall b :: b in gone ==> b in balls
    ensures forall j :: 0 <= j < |balls| ==>
              (balls[j] in gone <==> Removal(old(Snap(balls[j]))))
              && Snap(balls[j]) == StepBall(old(Snap(balls[j])), wind)
  {
    kept, gone := balls, {};
    FilterNone(balls);
    var i := 0;
    while i < |balls|
      invariant 0 <= i <= |balls| && kept == Filter(balls, gone)
      invariant forall b :: b in gone ==> b in balls
      invariant forall j :: 0 <= j < |balls| ==>
                  if j < i then (balls[j] in gone <==> Removal(old(Snap(balls[j]))))
                                && Snap(balls[j]) == StepBall(old(Snap(balls[j])), wind)
                  else balls[j] !in gone && Snap(balls[j]) == old(Snap(balls[j]))
    {
      var paper := balls[i];
      DistinctAt(balls, i);
      var removed := paper.Drift(wind);
      if removed {
        WithoutFilter(balls, gone, paper);
        kept := Without(kept, paper);
        gone := gone + {paper};
      }
      i := i + 1;
    }
  }
}
