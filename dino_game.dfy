/**
 * The game wrapper: a `DinoGame` drives the runner page through a small set of
 * commands (key presses, parameter assignments, restart) and reads its state
 * through queries. The page itself is an opaque oracle, modelled as a `Page`
 * object that holds exactly the state those commands and queries touch.
 */
module Game {
  import opened Outcomes

  /** The keys the wrapper sends to the page body. */
  datatype Key = Space | Up | Down

  /** One entry of the page's obstacle list: its position and its type's size. */
  datatype Obstacle = Obstacle(xPos: real, yPos: real, width: real, height: real)

  /** The only page parameter the wrapper captures, and the one it zeroes. */
  const AccelerationKey: string := "config.ACCELERATION"

  /** A snapshot of everything a `Page` holds, so that a command can state its whole effect. */
  datatype PageState = PageState(
    crashed: bool,
    digits: seq<string>,
    tRexX: real,
    tRexY: real,
    obstacles: seq<Obstacle>,
    currentSpeed: real,
    params: map<string, real>,
    keyLog: seq<Key>,
    restarts: nat)

  /**
   * The runner page, seen from the driver. `keyLog` records every key sent to
   * the page body and only ever grows; `restarts` counts the restart commands
   * (what a restart does inside the page is the page's own business).
   */
  class Page {
    var crashed: bool
    var digits: seq<string>
    var tRexX: real
    var tRexY: real
    var obstacles: seq<Obstacle>
    var currentSpeed: real
    var params: map<string, real>
    var keyLog: seq<Key>
    var restarts: nat

    /** The page always defines its acceleration parameter. */
    ghost predicate Valid()
      reads this
    {
      AccelerationKey in params
    }

    function State(): PageState
      reads this
    {
      PageState(crashed, digits, tRexX, tRexY, obstacles, currentSpeed, params, keyLog, restarts)
    }

    /** A freshly loaded page: no key has been sent and no restart issued yet. */
    constructor (crashed: bool, digits: seq<string>, tRexX: real, tRexY: real,
                 obstacles: seq<Obstacle>, currentSpeed: real, params: map<string, real>)
      requires AccelerationKey in params
      ensures Valid()
      ensures State() == PageState(crashed, digits, tRexX, tRexY, obstacles, currentSpeed, params, [], 0)
    {
      this.crashed := crashed;
      this.digits := digits;
      this.tRexX := tRexX;
      this.tRexY := tRexY;
      this.obstacles := obstacles;
      this.currentSpeed := currentSpeed;
      this.params := params;
      keyLog := [];
      restarts := 0;
    }

    /** `send_keys` on the page body. */
    method SendKey(k: Key)
      requires Valid()
      modifies this
      ensures Valid()
      ensures State() == old(State()).(keyLog := old(keyLog) + [k])
    {
      keyLog := keyLog + [k];
    }

    /** The script `Runner.<key> = <value>;`. */
    method Assign(key: string, value: real)
      requires Valid()
      modifies this
      ensures Valid()
      ensures State() == old(State()).(params := old(params)[key := value])
    {
      params := params[key := value];
    }

    /**
     * The script `Runner.instance_.restart();`. The page resets its own game
     * (crash flag, meter, obstacles, dino, speed) by script code outside this
     * model, so those fields may take any value afterwards; the parameters and
     * the key log are left alone.
     */
    method ExecuteRestart()
      requires Valid()
      modifies this
      ensures Valid()
      ensures params == old(params) && keyLog == old(keyLog)
      ensures restarts == old(restarts) + 1
    {
      crashed, digits, tRexX, tRexY, obstacles, currentSpeed := *, *, *, *, *, *;
      restarts := restarts + 1;
    }
  }

  /** `get_parameters`: the parameter map the wrapper captures, read from the page. */
  function ParametersOf(p: Page): (m: map<string, real>)
    reads p
    requires p.Valid()
    ensures m.Keys == {AccelerationKey}
    ensures m[AccelerationKey] == p.params[AccelerationKey]
  {
    map[AccelerationKey := p.params[AccelerationKey]]
  }

  // ---------------------------------------------------------------------------
  // The score: the distance meter's digit glyphs, joined and read as `int(...)`.
  // ---------------------------------------------------------------------------

  /** `''.join(parts)` */
  function Join(parts: seq<string>): (s: string)
    ensures (forall i :: 0 <= i < |parts| ==> |parts[i]| == 1) ==> |s| == |parts|
    ensures parts != [] ==> parts[0] <= s
  {
    if parts == [] then "" else parts[0] + Join(parts[1..])
  }

  /** Joining two runs of parts is joining each and concatenating. */
  lemma {:induction false} JoinAppend(a: seq<string>, b: seq<string>)
    ensures Join(a + b) == Join(a) + Join(b)
  {
    if a == [] {
      assert a + b == b;
    } else {
      assert (a + b)[0] == a[0] && (a + b)[1..] == a[1..] + b;
      JoinAppend(a[1..], b);
    }
  }

  predicate IsDigit(c: char)
  {
    '0' <= c <= '9'
  }

  predicate AllDigits(s: string)
  {
    forall i :: 0 <= i < |s| ==> IsDigit(s[i])
  }

  function Pow10(n: nat): nat
  {
    if n == 0 then 1 else 10 * Pow10(n - 1)
  }

  /** The base-10 value of a string of decimal digits, most significant digit first. */
  function DecimalValue(s: string): (v: nat)
    requires AllDigits(s)
    ensures v < Pow10(|s|)
  {
    if s == [] then 0
    else 10 * DecimalValue(s[..|s| - 1]) + (s[|s| - 1] as int - '0' as int)
  }

  /** `int(s)` on the strings the distance meter can produce: a non-empty run of decimal digits. */
  function ParseInt(s: string): (r: Result<nat>)
    ensures r.Ok? <==> s != "" && AllDigits(s)
    ensures r.Ok? ==> r.value == DecimalValue(s)
    ensures r.Err? ==> r.error == ValueError
  {
    if s != "" && AllDigits(s) then Ok(DecimalValue(s)) else Err(ValueError)
  }

  function DigitChar(d: nat): (c: char)
    requires d < 10
    ensures IsDigit(c)
  {
    ('0' as int + d) as char
  }

  /** The shortest decimal numeral of `n`: the reference encoder `ParseInt` inverts. */
  function Decimal(n: nat): (s: string)
    ensures s != "" && AllDigits(s)
  {
    if n < 10 then [DigitChar(n)] else Decimal(n / 10) + [DigitChar(n % 10)]
  }

  /** `k` zero digits. */
  function Zeros(k: nat): (s: string)
  {
    seq(k, _ => '0')
  }

  /** A numeral split into one-character glyphs, the way the distance meter holds its digits. */
  function Glyphs(s: string): seq<string>
  {
    seq(|s|, i requires 0 <= i < |s| => [s[i]])
  }

  lemma {:induction false} DecimalRoundTrip(n: nat)
    ensures DecimalValue(Decimal(n)) == n
  {
    if n >= 10 {
      DecimalRoundTrip(n / 10);
      var s := Decimal(n / 10);
      var t := s + [DigitChar(n % 10)];
      assert t[..|t| - 1] == s;
    }
  }

  lemma {:induction false} ZerosValue(k: nat)
    ensures AllDigits(Zeros(k)) && DecimalValue(Zeros(k)) == 0
  {
    if k > 0 {
      ZerosValue(k - 1);
      assert Zeros(k)[..k - 1] == Zeros(k - 1);
    }
  }

  /** Leading zeros do not change the value of a numeral. */
  lemma {:induction false} LeadingZerosVanish(k: nat, s: string)
    requires AllDigits(s)
    ensures AllDigits(Zeros(k) + s)
    ensures DecimalValue(Zeros(k) + s) == DecimalValue(s)
  {
    var t := Zeros(k) + s;
    assert forall i :: 0 <= i < |t| ==> IsDigit(t[i]) by {
      ZerosValue(k);
      forall i | 0 <= i < |t| ensures IsDigit(t[i]) {
        if i < k { assert t[i] == Zeros(k)[i]; } else { assert t[i] == s[i - k]; }
      }
    }
    if s == [] {
      assert t == Zeros(k);
      ZerosValue(k);
    } else {
      var s' := s[..|s| - 1];
      LeadingZerosVanish(k, s');
      assert t[..|t| - 1] == Zeros(k) + s';
      assert t[|t| - 1] == s[|s| - 1];
    }
  }

  lemma {:induction false} JoinGlyphs(s: string)
    ensures Join(Glyphs(s)) == s
  {
    if s != [] {
      assert Glyphs(s)[1..] == Glyphs(s[1..]);
      JoinGlyphs(s[1..]);
      assert s == [s[0]] + s[1..];
    }
  }

  /**
   * A meter showing `n` padded on the left with `k` zeros, one glyph per digit,
   * is read back as exactly `n`.
   */
  lemma ScoreOfPaddedMeter(k: nat, n: nat)
    ensures ParseInt(Join(Glyphs(Zeros(k) + Decimal(n)))) == Ok(n)
  {
    JoinGlyphs(Zeros(k) + Decimal(n));
    LeadingZerosVanish(k, Decimal(n));
    DecimalRoundTrip(n);
  }

  // ---------------------------------------------------------------------------
  // Obstacle queries: `obstacles.length ? obstacles[n - 1].<field> : <fallback>`.
  // ---------------------------------------------------------------------------

  datatype Field = Width | Height | XPos | YPos

  function FieldOf(o: Obstacle, f: Field): real
  {
    match f
    case Width => o.width
    case Height => o.height
    case XPos => o.xPos
    case YPos => o.yPos
  }

  /**
   * The page script for the n-th nearest obstacle: an empty list is falsy and
   * gives the fallback; otherwise `obstacles[n - 1]` is read, and reading a
   * field of the `undefined` an index outside the list gives throws.
   */
  function NthObstacleField(obstacles: seq<Obstacle>, n: int, f: Field, fallback: real): Result<real>
  {
    if |obstacles| == 0 then Ok(fallback)
    else if 0 <= n - 1 < |obstacles| then Ok(FieldOf(obstacles[n - 1], f))
    else Err(ScriptError)
  }

  /** Whether the n-th nearest obstacle query can be answered by the page. */
  predicate IndexAnswerable(obstacles: seq<Obstacle>, n: int)
  {
    obstacles == [] || 1 <= n <= |obstacles|
  }

  class DinoGame {
    const page: Page
    /** The parameters captured at construction, before any of them is changed. */
    const defaults: map<string, real>

    ghost predicate Valid()
      reads this, page
    {
      page.Valid() && defaults.Keys == {AccelerationKey}
    }

    /**
     * `DinoGame(render, accelerate)` on an already loaded page: capture the
     * defaults, zero the acceleration unless `accelerate`, then press SPACE once.
     */
    constructor (p: Page, accelerate: bool)
      requires p.Valid()
      modifies p
      ensures Valid() && page == p
      ensures defaults == map[AccelerationKey := old(p.params[AccelerationKey])]
      ensures p.State() == old(p.State()).(
                params := if accelerate then old(p.params) else old(p.params)[AccelerationKey := 0.0],
                keyLog := old(p.keyLog) + [Space])
    {
      page := p;
      defaults := ParametersOf(p);
      new;
      if !accelerate {
        SetParameter(AccelerationKey, 0.0);
      }
      PressSpace();
    }

    method PressSpace()
      requires Valid()
      modifies page
      ensures Valid()
      ensures page.State() == old(page.State()).(keyLog := old(page.keyLog) + [Space])
    {
      page.SendKey(Space);
    }

    method PressUp()
      requires Valid()
      modifies page
      ensures Valid()
      ensures page.State() == old(page.State()).(keyLog := old(page.keyLog) + [Up])
    {
      page.SendKey(Up);
    }

    method PressDown()
      requires Valid()
      modifies page
      ensures Valid()
      ensures page.State() == old(page.State()).(keyLog := old(page.keyLog) + [Down])
    {
      page.SendKey(Down);
    }

    method Restart()
      requires Valid()
      modifies page
      ensures Valid()
      ensures page.params == old(page.params) && page.keyLog == old(page.keyLog)
      ensures page.restarts == old(page.restarts) + 1
    {
      page.ExecuteRestart();
    }

    /** Changes parameter `key` of the page and nothing else. */
    method SetParameter(key: string, value: real)
      requires Valid()
      modifies page
      ensures Valid()
      ensures page.State() == old(page.State()).(params := old(page.params)[key := value])
    {
      page.Assign(key, value);
    }

    /** Puts `key` back to its captured default; only the acceleration was captured. */
    method RestoreParameter(key: string) returns (r: Result<()>)
      requires Valid()
      modifies page
      ensures Valid()
      ensures r.Ok? <==> key == AccelerationKey
      ensures r.Ok? ==> page.State() == old(page.State()).(params := old(page.params)[key := defaults[key]])
      ensures r.Err? ==> r.error == KeyError && page.State() == old(page.State())
    {
      if key in defaults {
        SetParameter(key, defaults[key]);
        r := Ok(());
      } else {
        r := Err(KeyError);
      }
    }

    /** `Runner.instance_.crashed` */
    function IsCrashed(): (r: bool)
      reads page
      ensures r == page.crashed
    {
      page.crashed
    }

    /** `Runner.instance_.tRex.xPos` */
    function DinoX(): (r: real)
      reads page
      ensures r == page.tRexX
    {
      page.tRexX
    }

    /** `Runner.instance_.tRex.yPos` */
    function DinoY(): (r: real)
      reads page
      ensures r == page.tRexY
    {
      page.tRexY
    }

    /** `Runner.instance_.currentSpeed` */
    function Speed(): (r: real)
      reads page
      ensures r == page.currentSpeed
    {
      page.currentSpeed
    }

    /** `int(''.join(digits))`. */
    function Score(): (r: Result<nat>)
      reads page
      ensures r.Ok? <==> Join(page.digits) != "" && AllDigits(Join(page.digits))
      ensures r.Ok? ==> r.value == DecimalValue(Join(page.digits))
      ensures r.Err? ==> r.error == ValueError
    {
      ParseInt(Join(page.digits))
    }

    function ObstacleWidth(n: int): (r: Result<real>)
      reads page
      ensures r.Ok? <==> IndexAnswerable(page.obstacles, n)
      ensures page.obstacles == [] ==> r == Ok(0.0)
      ensures page.obstacles != [] && r.Ok? ==> r.value == page.obstacles[n - 1].width
      ensures r.Err? ==> r.error == ScriptError
    {
      NthObstacleField(page.obstacles, n, Width, 0.0)
    }

    function ObstacleHeight(n: int): (r: Result<real>)
      reads page
      ensures r.Ok? <==> IndexAnswerable(page.obstacles, n)
      ensures page.obstacles == [] ==> r == Ok(0.0)
      ensures page.obstacles != [] && r.Ok? ==> r.value == page.obstacles[n - 1].height
      ensures r.Err? ==> r.error == ScriptError
    {
      NthObstacleField(page.obstacles, n, Height, 0.0)
    }

    /** The obstacle's x position (600 when there is none) less the dino's. */
    function ObstacleXDistance(n: int): (r: Result<real>)
      reads page
      ensures r.Ok? <==> IndexAnswerable(page.obstacles, n)
      ensures page.obstacles == [] ==> r == Ok(600.0 - page.tRexX)
      ensures page.obstacles != [] && r.Ok? ==> r.value + page.tRexX == page.obstacles[n - 1].xPos
      ensures r.Err? ==> r.error == ScriptError
    {
      match NthObstacleField(page.obstacles, n, XPos, 600.0)
      case Ok(x) => Ok(x - DinoX())
      case Err(e) => Err(e)
    }

    /** The obstacle's y position (150 when there is none) less the dino's. */
    function ObstacleYDistance(n: int): (r: Result<real>)
      reads page
      ensures r.Ok? <==> IndexAnswerable(page.obstacles, n)
      ensures page.obstacles == [] ==> r == Ok(150.0 - page.tRexY)
      ensures page.obstacles != [] && r.Ok? ==> r.value + page.tRexY == page.obstacles[n - 1].yPos
      ensures r.Err? ==> r.error == ScriptError
    {
      match NthObstacleField(page.obstacles, n, YPos, 150.0)
      case Ok(y) => Ok(y - DinoY())
      case Err(e) => Err(e)
    }
  }
}
