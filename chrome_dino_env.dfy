/**
 * The environment adapters: `ChromeDinoGAEnv` (numeric feature observations,
 * a configurable score mode) and the `step` of `ChromeDinoEnv` (pixel
 * observations, fixed penalization). Both map an action onto at most one key
 * press, read the crash flag afterwards, and pick reward and `done` by policy.
 */
module DinoEnv {
  import opened Outcomes
  import opened Game

  datatype InputMode = OneObstacle | TwoObstacle
  datatype ScoreMode = Normal | Penalization

  function InputModeName(m: InputMode): string
  {
    match m
    case OneObstacle => "one_obstacle"
    case TwoObstacle => "two_obstacle"
  }

  /** The input modes the constructor accepts; any other string is rejected. */
  function ParseInputMode(s: string): (r: Option<InputMode>)
    ensures r == Some(OneObstacle) <==> s == "one_obstacle"
    ensures r == Some(TwoObstacle) <==> s == "two_obstacle"
    ensures r.None? <==> s != "one_obstacle" && s != "two_obstacle"
  {
    if s == "one_obstacle" then Some(OneObstacle)
    else if s == "two_obstacle" then Some(TwoObstacle)
    else None
  }

  lemma InputModeRoundTrip(m: InputMode, s: string)
    ensures ParseInputMode(InputModeName(m)) == Some(m)
    ensures ParseInputMode(s) == Some(m) ==> InputModeName(m) == s
  {
  }

  function ScoreModeName(m: ScoreMode): string
  {
    match m
    case Normal => "normal"
    case Penalization => "penalization"
  }

  /** The score modes `set_score_mode` accepts; any other string is rejected. */
  function ParseScoreMode(s: string): (r: Option<ScoreMode>)
    ensures r == Some(Normal) <==> s == "normal"
    ensures r == Some(Penalization) <==> s == "penalization"
    ensures r.None? <==> s != "normal" && s != "penalization"
  {
    if s == "normal" then Some(Normal)
    else if s == "penalization" then Some(Penalization)
    else None
  }

  lemma ScoreModeRoundTrip(m: ScoreMode, s: string)
    ensures ParseScoreMode(ScoreModeName(m)) == Some(m)
    ensures ParseScoreMode(s) == Some(m) ==> ScoreModeName(m) == s
  {
  }

  // ---------------------------------------------------------------------------
  // Actions
  // ---------------------------------------------------------------------------

  /** The keys `step` sends for `action`: UP for 1, DOWN for 2, SPACE for 3, nothing otherwise. */
  function KeysFor(action: int): (keys: seq<Key>)
    ensures |keys| <= 1
    ensures keys == [Up] <==> action == 1
    ensures keys == [Down] <==> action == 2
    ensures keys == [Space] <==> action == 3
    ensures keys == [] <==> action != 1 && action != 2 && action != 3
  {
    if action == 1 then [Up]
    else if action == 2 then [Down]
    else if action == 3 then [Space]
    else []
  }

  /** An action outside 1..3 sends exactly what the no-op action 0 sends: nothing. */
  lemma UnknownActionIsNoop(action: int)
    requires action != 1 && action != 2 && action != 3
    ensures KeysFor(action) == KeysFor(0) == []
  {
  }

  /** The key dispatch at the head of both `step`s: three independent tests of `action`. */
  method SendAction(game: DinoGame, action: int)
    requires game.Valid()
    modifies game.page
    ensures game.Valid()
    ensures game.page.State() == old(game.page.State()).(keyLog := old(game.page.keyLog) + KeysFor(action))
  {
    if action == 1 {
      game.PressUp();
    }
    if action == 2 {
      game.PressDown();
    }
    if action == 3 {
      game.PressSpace();
    }
  }

  /** `_action_set`: the actions whose meanings are reported. */
  const ActionSet: seq<int> := [0, 1, 2]

  /** `ACTION_MEANING` */
  const ActionMeaning: map<int, string> := map[0 := "NOOP", 1 := "UP", 2 := "DOWN", 3 := "SPACE"]

  function KeyName(k: Key): string
  {
    match k
    case Up => "UP"
    case Down => "DOWN"
    case Space => "SPACE"
  }

  /** `get_action_meanings`: the meaning of each action of the action set, in order. */
  function ActionMeanings(): (r: seq<string>)
    ensures r == ["NOOP", "UP", "DOWN"]
  {
    seq(|ActionSet|, i requires 0 <= i < |ActionSet| => ActionMeaning[ActionSet[i]])
  }

  /** Each label of the meaning table names the key that action sends, or NOOP when it sends none. */
  lemma MeaningsMatchDispatch(action: int)
    requires action in ActionMeaning
    ensures ActionMeaning[action] == if KeysFor(action) == [] then "NOOP" else KeyName(KeysFor(action)[0])
  {
  }

  // ---------------------------------------------------------------------------
  // Reward and termination policy
  // ---------------------------------------------------------------------------

  const GametimeReward: real := 0.1
  const GameoverPenalty: real := -1.0

  /** What `step` returns: `(observation, reward, done, info)`. */
  datatype StepResult<O> = StepResult(observation: O, reward: real, done: bool, info: map<string, real>)

  /** The penalization policy: a fixed reward per step until a crash, then the fixed penalty. */
  function PenalizationOutcome<O>(obs: O, crashed: bool): (r: StepResult<O>)
    ensures r.observation == obs && r.done == crashed && r.info == map[]
    ensures r.reward == GametimeReward <==> !crashed
    ensures r.reward == GameoverPenalty <==> crashed
  {
    StepResult(obs, if crashed then GameoverPenalty else GametimeReward, crashed, map[])
  }

  /**
   * The policy of `ChromeDinoGAEnv.step`. In normal mode the reward is the
   * score read from the page, crashed or not, and an unreadable score raises.
   */
  function StepOutcome<O>(mode: ScoreMode, obs: O, crashed: bool, score: Result<nat>): (r: Result<StepResult<O>>)
    ensures r.Ok? ==> r.value.observation == obs && r.value.done == crashed && r.value.info == map[]
    ensures mode == Penalization ==> r.Ok? && r.value == PenalizationOutcome(obs, crashed)
    ensures mode == Normal ==> (r.Ok? <==> score.Ok?)
    ensures mode == Normal && r.Ok? ==> r.value.reward == score.value as real
    ensures r.Err? ==> score.Err? && r.error == score.error
  {
    match mode
    case Penalization => Ok(PenalizationOutcome(obs, crashed))
    case Normal =>
      match score
      case Ok(n) => Ok(StepResult(obs, n as real, crashed, map[]))
      case Err(e) => Err(e)
  }

  /** In normal mode a crash changes `done` and nothing else about the step's result. */
  lemma NormalCrashOnlyEndsEpisode<O>(obs: O, n: nat)
    ensures StepOutcome(Normal, obs, true, Ok(n)).value.reward == StepOutcome(Normal, obs, false, Ok(n)).value.reward
    ensures StepOutcome(Normal, obs, true, Ok(n)).value.done && !StepOutcome(Normal, obs, false, Ok(n)).value.done
  {
  }

  // ---------------------------------------------------------------------------
  // Feature observations
  // ---------------------------------------------------------------------------

  /** `observation_space.low` for each input mode. */
  function Low(m: InputMode): (r: seq<real>)
    ensures |r| == if m == OneObstacle then 7 else 11
  {
    match m
    case OneObstacle => [0.0, 0.0, -20.0, -20.0, 0.0, 0.0, 0.0]
    case TwoObstacle => [0.0, 0.0, -20.0, -20.0, 0.0, 0.0, -20.0, -20.0, 0.0, 0.0, 0.0]
  }

  /** `observation_space.high` for each input mode. */
  function High(m: InputMode): (r: seq<real>)
    ensures |r| == |Low(m)|
  {
    match m
    case OneObstacle => [600.0, 150.0, 600.0, 150.0, 600.0, 150.0, 100.0]
    case TwoObstacle => [600.0, 150.0, 600.0, 150.0, 600.0, 150.0, 600.0, 150.0, 200.0, 100.0, 100.0]
  }

  /** `mean([low[i], high[i]])` for every slot; none of them is zero. */
  function Midpoints(m: InputMode): (r: seq<real>)
    ensures |r| == |Low(m)|
    ensures forall i :: 0 <= i < |r| ==> r[i] * 2.0 == Low(m)[i] + High(m)[i] && r[i] > 0.0
  {
    match m
    case OneObstacle => [300.0, 75.0, 290.0, 65.0, 300.0, 75.0, 50.0]
    case TwoObstacle => [300.0, 75.0, 290.0, 65.0, 300.0, 75.0, 290.0, 65.0, 100.0, 50.0, 50.0]
  }

  /**
   * The raw feature vector `_observe` reads from the game, before scaling. In
   * two-obstacle mode the slots meant for the second obstacle query obstacle 1 again.
   */
  function RawFeatures(m: InputMode, g: DinoGame): (r: seq<real>)
    reads g.page
    ensures |r| == |Low(m)|
  {
    var dx := g.ObstacleXDistance(1).value;
    var dy := g.ObstacleYDistance(1).value;
    var w := g.ObstacleWidth(1).value;
    var h := g.ObstacleHeight(1).value;
    match m
    case OneObstacle => [g.DinoX(), g.DinoY(), dx, dy, w, h, g.Speed()]
    case TwoObstacle => [g.DinoX(), g.DinoY(), dx, dy, w, h, dx, dy, w, h, g.Speed()]
  }

  /** Each slot divided by the midpoint of its declared bounds. */
  function Normalize(m: InputMode, raw: seq<real>): (r: seq<real>)
    requires |raw| == |Low(m)|
    ensures |r| == |raw|
    ensures forall i :: 0 <= i < |r| ==> r[i] * Midpoints(m)[i] == raw[i]
  {
    var mid := Midpoints(m);
    seq(|raw|, i requires 0 <= i < |raw| => raw[i] / mid[i])
  }

  /** With no obstacle on the horizon, the features use the fallbacks 600, 150, 0 and 0. */
  lemma EmptyHorizonFeatures(m: InputMode, g: DinoGame)
    requires g.page.obstacles == []
    ensures RawFeatures(m, g)[2..6] == [600.0 - g.page.tRexX, 150.0 - g.page.tRexY, 0.0, 0.0]
  {
  }

  /** The two-obstacle vector repeats obstacle 1's four fields in slots 6 to 9. */
  lemma SecondObstacleSlotsRepeatFirst(g: DinoGame)
    ensures RawFeatures(TwoObstacle, g)[6..10] == RawFeatures(TwoObstacle, g)[2..6]
    ensures RawFeatures(TwoObstacle, g)[..6] == RawFeatures(OneObstacle, g)[..6]
  {
  }

  /** A dino at x = 300 is reported as 1.0 in slot 0. */
  lemma DinoAtMidpointNormalizesToOne(m: InputMode, g: DinoGame)
    requires g.page.tRexX == 300.0
    ensures Normalize(m, RawFeatures(m, g))[0] == 1.0
  {
    var n := Normalize(m, RawFeatures(m, g));
    assert n[0] * 300.0 == 300.0;
  }

  // ---------------------------------------------------------------------------
  // The feature-vector environment
  // ---------------------------------------------------------------------------

  class ChromeDinoGAEnv {
    const game: DinoGame
    const inputMode: InputMode
    var scoreMode: ScoreMode
    var currentFrame: seq<real>

    /** The observation has the declared shape for the whole lifetime of the environment. */
    ghost predicate Valid()
      reads this, game, game.page
    {
      game.Valid() && |currentFrame| == |Low(inputMode)|
    }

    /** The part of `__init__` after the input mode has been accepted. */
    constructor (g: DinoGame, m: InputMode)
      requires g.Valid()
      ensures Valid()
      ensures game == g && inputMode == m
      ensures scoreMode == Penalization && currentFrame == Low(m)
    {
      game := g;
      inputMode := m;
      scoreMode := Penalization;
      currentFrame := Low(m);
    }

    /** The observation `_observe` computes from the page as it is now. */
    function Observation(): (r: seq<real>)
      reads this, game.page
      ensures |r| == |Low(inputMode)|
    {
      Normalize(inputMode, RawFeatures(inputMode, game))
    }

    method Observe() returns (obs: seq<real>)
      requires Valid()
      modifies this`currentFrame
      ensures Valid()
      ensures obs == currentFrame == Observation()
    {
      currentFrame := Observation();
      obs := currentFrame;
    }

    /** `get_score`: the game's score, or the ValueError it raises. */
    function Score(): (r: Result<nat>)
      reads game.page
      ensures r == game.Score()
      ensures r.Err? ==> r.error == ValueError
    {
      game.Score()
    }

    /**
     * `step(action)`: at most one key press, then a fresh observation, then the
     * reward and `done` chosen from the crash flag read after the press.
     * When the score cannot be read in normal mode the step raises, after the
     * key press and the observation have taken effect.
     */
    method Step(action: int) returns (r: Result<StepResult<seq<real>>>)
      requires Valid()
      modifies this`currentFrame, game.page
      ensures Valid()
      ensures game.page.State() == old(game.page.State()).(keyLog := old(game.page.keyLog) + KeysFor(action))
      ensures currentFrame == Observation()
      ensures r == StepOutcome(scoreMode, currentFrame, game.page.crashed, game.Score())
    {
      SendAction(game, action);
      var observation := Observe();
      var reward: real;
      if scoreMode == Penalization {
        reward := GametimeReward;
      } else {
        var score := Score();
        if score.Err? {
          return Err(score.error);
        }
        reward := score.value as real;
      }
      var done := false;
      var info: map<string, real> := map[];
      if game.IsCrashed() {
        reward := if scoreMode == Penalization then GameoverPenalty else reward;
        done := true;
      }
      r := Ok(StepResult(observation, reward, done, info));
    }

    /** `reset()`: restart the page and observe it. */
    method Reset() returns (obs: seq<real>)
      requires Valid()
      modifies this`currentFrame, game.page
      ensures Valid()
      ensures game.page.params == old(game.page.params) && game.page.keyLog == old(game.page.keyLog)
      ensures game.page.restarts == old(game.page.restarts) + 1
      ensures obs == currentFrame == Observation()
    {
      game.Restart();
      obs := Observe();
    }

    /** `render(mode)`: the stored observation; only 'rgb_array' is supported. */
    function Render(mode: string): (r: Result<seq<real>>)
      reads this
      ensures r.Ok? <==> mode == "rgb_array"
      ensures r.Ok? ==> r.value == currentFrame
      ensures r.Err? ==> r.error == AssertionError
    {
      if mode == "rgb_array" then Ok(currentFrame) else Err(AssertionError)
    }

    /** `set_acceleration(enable)`: restore the captured acceleration, or zero it. */
    method SetAcceleration(enable: bool)
      requires Valid()
      modifies game.page
      ensures Valid()
      ensures game.page.State() == old(game.page.State()).(
                params := old(game.page.params)[AccelerationKey := if enable then game.defaults[AccelerationKey] else 0.0])
    {
      if enable {
        var _ := game.RestoreParameter(AccelerationKey);
      } else {
        game.SetParameter(AccelerationKey, 0.0);
      }
    }

    /** `set_score_mode(type)`: accepts exactly 'normal' and 'penalization'. */
    method SetScoreMode(name: string) returns (r: Result<()>)
      modifies this`scoreMode
      ensures r.Ok? <==> name == "normal" || name == "penalization"
      ensures r.Ok? ==> Some(scoreMode) == ParseScoreMode(name)
      ensures r.Err? ==> r.error == UnsupportedScoreMode && scoreMode == old(scoreMode)
    {
      match ParseScoreMode(name)
      case Some(m) =>
        scoreMode := m;
        r := Ok(());
      case None =>
        r := Err(UnsupportedScoreMode);
    }
  }

  /**
   * `ChromeDinoGAEnv(render, accelerate, autoscale, input_mode)` on a loaded page.
   * The game is constructed first, so the page has been changed even when the
   * input mode is then rejected.
   */
  method NewChromeDinoGAEnv(p: Page, accelerate: bool, inputMode: string) returns (r: Result<ChromeDinoGAEnv>)
    requires p.Valid()
    modifies p
    ensures p.Valid()
    ensures p.State() == old(p.State()).(
              params := if accelerate then old(p.params) else old(p.params)[AccelerationKey := 0.0],
              keyLog := old(p.keyLog) + [Space])
    ensures r.Err? <==> ParseInputMode(inputMode).None?
    ensures r.Err? ==> r.error == UnsupportedInputMode
    ensures r.Ok? ==> fresh(r.value) && fresh(r.value.game) && r.value.Valid()
    ensures r.Ok? ==> r.value.game.page == p && Some(r.value.inputMode) == ParseInputMode(inputMode)
    ensures r.Ok? ==> r.value.game.defaults == map[AccelerationKey := old(p.params[AccelerationKey])]
    ensures r.Ok? ==> r.value.scoreMode == Penalization && r.value.currentFrame == Low(r.value.inputMode)
  {
    var game := new DinoGame(p, accelerate);
    match ParseInputMode(inputMode)
    case Some(m) =>
      var env := new ChromeDinoGAEnv(game, m);
      r := Ok(env);
    case None =>
      r := Err(UnsupportedInputMode);
  }

  // ---------------------------------------------------------------------------
  // The pixel environment
  // ---------------------------------------------------------------------------

  /** A processed grayscale frame, row by row. */
  type Image = seq<seq<int>>

  /** The shape and range of a frame after `cv2.resize(..., (80, 80))` of a grayscale image. */
  ghost predicate IsFrame(img: Image)
  {
    |img| == 80 && forall row :: row in img ==> |row| == 80 && forall p :: p in row ==> 0 <= p <= 255
  }

  /** `observation_space.low` of the pixel environment: an 80 by 80 frame of zeros. */
  function Blank(): (r: Image)
    ensures IsFrame(r)
    ensures |r| == 80 && forall row :: row in r ==> row == seq(80, _ => 0)
  {
    seq(80, _ => seq(80, _ => 0))
  }

  class ChromeDinoEnv {
    const game: DinoGame
    var currentFrame: Image

    /** The stored frame always has the declared 80 by 80 shape. */
    ghost predicate Valid()
      reads this, game, game.page
    {
      game.Valid() && IsFrame(currentFrame)
    }

    /** The remainder of `__init__` once the game is built: the stored frame starts as the low bound. */
    constructor (g: DinoGame)
      requires g.Valid()
      ensures Valid()
      ensures game == g && currentFrame == Blank()
    {
      game := g;
      currentFrame := Blank();
    }

    /**
     * `step(action)` with the fixed penalization policy. `frame` is the canvas
     * after the key press, already decoded and processed.
     */
    method Step(action: int, frame: Image) returns (r: StepResult<Image>)
      requires Valid() && IsFrame(frame)
      modifies this`currentFrame, game.page
      ensures Valid()
      ensures game.page.State() == old(game.page.State()).(keyLog := old(game.page.keyLog) + KeysFor(action))
      ensures currentFrame == frame
      ensures r == PenalizationOutcome(frame, game.page.crashed)
    {
      SendAction(game, action);
      currentFrame := frame;
      var observation := currentFrame;
      var reward := GametimeReward;
      var done := false;
      var info: map<string, real> := map[];
      if game.IsCrashed() {
        reward := GameoverPenalty;
        done := true;
      }
      r := StepResult(observation, reward, done, info);
    }
  }
}
