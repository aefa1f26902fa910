/**
 * The dual-lane runner ("Harmonic Flight"): two dinosaurs, one per lane,
 * jump over ground obstacles and crouch under flying ones.  In harmony mode
 * both lanes receive the same obstacle kind, in disharmony mode opposite
 * kinds.  A collision in either lane ends the run.
 *
 * Positions and speeds are `real`; every random draw of the game is a
 * parameter of the operation that makes it.
 */
module Runner {
  import opened Wrappers

  const CanvasWidth: real := 800.0
  const GroundTop: real := 150.0
  const GroundBottom: real := 350.0
  const DinoX: real := 100.0
  const DinoWidth: real := 40.0
  const DinoHeight: real := 50.0
  const CrouchReduction: real := 20.0
  const JumpVelocity: real := -12.0
  const Gravity: real := 0.6
  const SpeedBase: real := 3.0
  const SpeedIncrement: real := 0.3
  const HitboxReduction: real := 6.0
  const FlyingOffset: real := 40.0
  const FlyingHeight: real := 45.0
  const GroundHeight: real := 50.0

  // ---------------------------------------------------------------------
  // A dinosaur's vertical state
  // ---------------------------------------------------------------------

  /** The part of a dinosaur the rules change: its height, vertical position and speed. */
  datatype Pose = Pose(y: real, vy: real, height: real, jumping: bool, crouching: bool)

  /** Standing still on the ground `g`; the top edge is at `g - 50`. */
  function Standing(g: real): Pose
  {
    Pose(g - DinoHeight, 0.0, DinoHeight, false, false)
  }

  /**
   * The states the rules can reach: the height is 50, or 30 exactly while
   * crouching; a crouching dinosaur is not jumping; the dinosaur is never
   * below the ground, and when it is not jumping it stands on it, at rest.
   */
  ghost predicate Settled(p: Pose, g: real)
  {
    && (p.height == DinoHeight || p.height == DinoHeight - CrouchReduction)
    && (p.crouching <==> p.height == DinoHeight - CrouchReduction)
    && (p.crouching ==> !p.jumping)
    && p.y <= g - p.height
    && (!p.jumping ==> p.y == g - p.height && p.vy == 0.0)
  }

  /**
   * `updateDino`: a jumping dinosaur gains 0.6 of downward speed, moves by its
   * speed, and lands exactly on the ground once it reaches it.
   */
  function Fallen(p: Pose, g: real): (r: Pose)
    ensures !p.jumping ==> r == p
    ensures Settled(p, g) ==> Settled(r, g)
    ensures r.height == p.height && r.crouching == p.crouching
    ensures p.jumping ==> (r.jumping <==> p.y + p.vy + Gravity < g - p.height)
    ensures r.jumping ==> r.y == p.y + p.vy + Gravity && r.vy == p.vy + Gravity
    ensures p.jumping && !r.jumping ==> r.y == g - r.height && r.vy == 0.0
  {
    if !p.jumping then p
    else
      var vy := p.vy + Gravity;
      var y := p.y + vy;
      if y >= g - p.height then p.(y := g - p.height, vy := 0.0, jumping := false)
      else p.(y := y, vy := vy)
  }

  /** The jump key: a jump starts only from the ground and not while crouching. */
  function Jumped(p: Pose): (r: Pose)
    ensures !p.jumping && !p.crouching ==> r.jumping && r.vy == JumpVelocity && r.y == p.y && r.height == p.height
    ensures r.crouching == p.crouching
    ensures p.jumping || p.crouching ==> r == p
  {
    if !p.jumping && !p.crouching then p.(jumping := true, vy := JumpVelocity) else p
  }

  /** Holding the crouch key: only a dinosaur that is not jumping crouches, 30 high, on the ground. */
  function Crouched(p: Pose, g: real): (r: Pose)
    ensures !p.jumping ==> r.crouching && r.height == 30.0 && r.y == g - 30.0
    ensures r.jumping == p.jumping && r.vy == p.vy
    ensures p.jumping ==> r == p
  {
    if !p.jumping then p.(crouching := true, height := DinoHeight - CrouchReduction, y := g - (DinoHeight - CrouchReduction))
    else p
  }

  /**
   * Releasing the crouch key: always restores the full height and puts the
   * top edge at `g - 50`, even in the middle of a jump.
   */
  function Released(p: Pose, g: real): (r: Pose)
    ensures !r.crouching && r.height == 50.0 && r.y == g - 50.0
    ensures r.jumping == p.jumping && r.vy == p.vy
  {
    p.(crouching := false, height := DinoHeight, y := g - DinoHeight)
  }

  /** Every key rule keeps a dinosaur in a reachable state. */
  lemma {:induction false} KeysKeepSettled(p: Pose, g: real)
    requires Settled(p, g)
    ensures Settled(Jumped(p), g) && Settled(Crouched(p, g), g) && Settled(Released(p, g), g)
  {
    // A dinosaur that is not crouching has the full height, so releasing puts it where it stands.
    assert !p.crouching ==> p.height == DinoHeight;
  }

  /** The pose after `n` ticks of `updateDino`. */
  function Airborne(p: Pose, g: real, n: nat): Pose
  {
    if n == 0 then p else Fallen(Airborne(p, g, n - 1), g)
  }

  /**
   * Closed form of a jump from standing: after `k` ticks in the air the speed
   * is `-12 + 0.6 k` and the dinosaur is `12 k - 0.3 k (k + 1)` above its
   * starting height, until it lands at tick 39.
   */
  lemma {:induction false} JumpClosedForm(g: real, k: nat)
    requires k <= 39
    ensures var p := Airborne(Jumped(Standing(g)), g, k);
      if k < 39 then p == Pose(g - DinoHeight - 12.0 * (k as real) + 0.3 * ((k * (k + 1)) as real), JumpVelocity + Gravity * (k as real), DinoHeight, true, false)
      else p == Standing(g)
  {
    if k > 0 {
      JumpClosedForm(g, k - 1);
      var m := k - 1;
      var before := Airborne(Jumped(Standing(g)), g, m);
      var vy := JumpVelocity + Gravity * (k as real);
      assert before.vy + Gravity == vy;
      // The new height, in tenths of a pixel above the ground: 3 k (k - 39).
      assert before.y + vy == g - DinoHeight + 0.3 * ((k * (k - 39)) as real);
      if k < 39 {
        assert k * (k - 39) < 0 by {
          assert k * (39 - k) > 0;
        }
        assert before.y + vy < g - DinoHeight;
        assert before.y + vy == g - DinoHeight - 12.0 * (k as real) + 0.3 * ((k * (k + 1)) as real);
      } else {
        assert before.y + vy == g - DinoHeight;
      }
    }
  }

  /** A jump from standing stays in the air for 38 ticks and is back on the ground after the 39th. */
  lemma JumpLasts39Ticks(g: real, k: nat)
    requires 0 < k <= 39
    ensures Airborne(Jumped(Standing(g)), g, k).jumping <==> k < 39
    ensures Airborne(Jumped(Standing(g)), g, 39) == Standing(g)
  {
    JumpClosedForm(g, k);
    JumpClosedForm(g, 39);
  }

  // ---------------------------------------------------------------------
  // Obstacles and collisions
  // ---------------------------------------------------------------------

  datatype Kind = GroundObstacle | Flying
  datatype Mode = Harmony | Disharmony

  datatype Obstacle = Obstacle(x: real, y: real, width: real, height: real, kind: Kind)

  /** A new obstacle of kind `k` entering the lane whose ground is at `g`. */
  function Make(k: Kind, g: real): (o: Obstacle)
    ensures o.x == CanvasWidth && o.kind == k
    ensures k == Flying ==> o.y == g - 85.0 && o.width == 50.0 && o.height == 50.0
    ensures k == GroundObstacle ==> o.y == g - 45.0 && o.width == 40.0 && o.height == 50.0
  {
    match k
    case Flying => Obstacle(CanvasWidth, g - FlyingOffset - FlyingHeight, 50.0, 50.0, Flying)
    case GroundObstacle => Obstacle(CanvasWidth, g - GroundHeight + 5.0, 40.0, 50.0, GroundObstacle)
  }

  /** The kind a draw in [0, 1) selects: ground below one half, flying otherwise. */
  function KindOf(r: real): (k: Kind)
    ensures k == GroundObstacle <==> r < 0.5
  {
    if r < 0.5 then GroundObstacle else Flying
  }

  function Opposite(k: Kind): (o: Kind)
    ensures o != k
  {
    if k == Flying then GroundObstacle else Flying
  }

  /**
   * The kinds `spawnObstacle` gives the top and bottom lanes.  Only harmony
   * gives both lanes the same kind; every other mode, including none yet,
   * takes the disharmony branch.
   */
  function LaneKinds(mode: Option<Mode>, r: real): (kinds: (Kind, Kind))
    ensures kinds.0 == KindOf(r)
    ensures mode == Some(Harmony) ==> kinds.1 == kinds.0
    ensures mode != Some(Harmony) ==> kinds.1 == Opposite(kinds.0)
  {
    var k := KindOf(r);
    if mode == Some(Harmony) then (k, k) else (k, Opposite(k))
  }

  datatype Box = Box(x: real, y: real, width: real, height: real)

  /** The box 6 pixels in from every side. */
  function Inset(b: Box): Box
  {
    Box(b.x + HitboxReduction, b.y + HitboxReduction, b.width - 2.0 * HitboxReduction, b.height - 2.0 * HitboxReduction)
  }

  /** Strict overlap on both axes. */
  predicate Overlap(a: Box, b: Box)
  {
    a.x < b.x + b.width && a.x + a.width > b.x && a.y < b.y + b.height && a.y + a.height > b.y
  }

  function DinoBox(p: Pose): Box
  {
    Box(DinoX, p.y, DinoWidth, p.height)
  }

  function BoxOf(o: Obstacle): Box
  {
    Box(o.x, o.y, o.width, o.height)
  }

  /** The dinosaur's hitbox meets that of some obstacle of the lane. */
  predicate Hits(p: Pose, lane: seq<Obstacle>)
  {
    exists i :: 0 <= i < |lane| && Overlap(Inset(DinoBox(p)), Inset(BoxOf(lane[i])))
  }

  /** Overlapping hitboxes mean overlapping drawn boxes: the inset never reports a hit that is not there. */
  lemma HitboxesWithinBoxes(a: Box, b: Box)
    requires Overlap(Inset(a), Inset(b))
    ensures Overlap(a, b)
  {
  }

  /** The horizontal overlap of the dinosaur's hitbox with that of an obstacle at `x` of width `w`. */
  predicate LevelWith(x: real, w: real)
  {
    DinoX + HitboxReduction < x + w - HitboxReduction && DinoX + DinoWidth - HitboxReduction > x + HitboxReduction
  }

  /** A crouching dinosaur passes under any flying obstacle of its lane. */
  lemma CrouchPassesFlying(g: real, x: real)
    ensures !Hits(Crouched(Standing(g), g), [Make(Flying, g).(x := x)])
  {
  }

  /** A standing dinosaur is hit by a flying obstacle level with it, so the crouch is needed. */
  lemma StandingMeetsFlying(g: real, x: real)
    requires LevelWith(x, 50.0)
    ensures Hits(Standing(g), [Make(Flying, g).(x := x)])
  {
    assert Overlap(Inset(DinoBox(Standing(g))), Inset(BoxOf([Make(Flying, g).(x := x)][0])));
  }

  /** A ground obstacle level with a dinosaur on the ground hits it whether it stands or crouches. */
  lemma GroundObstacleNeedsJump(g: real, x: real)
    requires LevelWith(x, 40.0)
    ensures Hits(Standing(g), [Make(GroundObstacle, g).(x := x)])
    ensures Hits(Crouched(Standing(g), g), [Make(GroundObstacle, g).(x := x)])
  {
    var lane := [Make(GroundObstacle, g).(x := x)];
    assert Overlap(Inset(DinoBox(Standing(g))), Inset(BoxOf(lane[0])));
    assert Overlap(Inset(DinoBox(Crouched(Standing(g), g))), Inset(BoxOf(lane[0])));
  }

  /** `checkCollision`: looks for the first obstacle whose hitbox meets the dinosaur's. */
  method CheckCollision(p: Pose, lane: seq<Obstacle>) returns (hit: bool)
    ensures hit <==> Hits(p, lane)
  {
    var d := Inset(DinoBox(p));
    var i := 0;
    while i < |lane|
      invariant 0 <= i <= |lane|
      invariant forall j :: 0 <= j < i ==> !Overlap(d, Inset(BoxOf(lane[j])))
    {
      var b := Inset(BoxOf(lane[i]));
      if d.x < b.x + b.width && d.x + d.width > b.x && d.y < b.y + b.height && d.y + d.height > b.y {
        return true;
      }
      i := i + 1;
    }
    return false;
  }

  // ---------------------------------------------------------------------
  // Scrolling a lane
  // ---------------------------------------------------------------------

  /** What a spawn adds to a lane: one obstacle of kind `k` when `spawned`, else nothing. */
  function Arrivals(spawned: bool, k: Kind, g: real): (r: seq<Obstacle>)
    ensures |r| == if spawned then 1 else 0
    ensures spawned ==> r[0] == Make(k, g)
  {
    if spawned then [Make(k, g)] else []
  }

  /** A lane has no obstacle entirely left of the canvas. */
  predicate OnScreen(lane: seq<Obstacle>)
  {
    forall j :: 0 <= j < |lane| ==> lane[j].x + lane[j].width >= 0.0
  }

  /** An obstacle moved `speed` to the left. */
  function Moved(o: Obstacle, speed: real): Obstacle
  {
    o.(x := o.x - speed)
  }

  /**
   * One tick of a lane: every obstacle moves `speed` to the left, and the
   * ones now entirely left of the canvas are dropped; the rest keep their order.
   */
  function ScrollCull(lane: seq<Obstacle>, speed: real): (r: seq<Obstacle>)
    ensures |r| <= |lane|
    ensures OnScreen(r)
  {
    if lane == [] then []
    else
      var o := Moved(lane[0], speed);
      (if o.x + o.width < 0.0 then [] else [o]) + ScrollCull(lane[1..], speed)
  }

  /** Scrolling works obstacle by obstacle: a lane split in two scrolls as its two halves. */
  lemma {:induction false} ScrollCullAppend(a: seq<Obstacle>, b: seq<Obstacle>, speed: real)
    ensures ScrollCull(a + b, speed) == ScrollCull(a, speed) + ScrollCull(b, speed)
  {
    if a != [] {
      assert (a + b)[0] == a[0];
      assert (a + b)[1..] == a[1..] + b;
      var o := Moved(a[0], speed);
      var head := if o.x + o.width < 0.0 then [] else [o];
      assert ScrollCull(a + b, speed) == head + ScrollCull(a[1..] + b, speed);
      assert ScrollCull(a, speed) == head + ScrollCull(a[1..], speed);
      ScrollCullAppend(a[1..], b, speed);
      assert head + (ScrollCull(a[1..], speed) + ScrollCull(b, speed)) == (head + ScrollCull(a[1..], speed)) + ScrollCull(b, speed);
    } else {
      assert a + b == b;
    }
  }

  /**
   * What survives a tick: an obstacle is in the new lane exactly when it is
   * the moved image of an old one that is not entirely off the canvas.
   */
  lemma {:induction false} ScrollCullMembers(lane: seq<Obstacle>, speed: real, o: Obstacle)
    ensures o in ScrollCull(lane, speed) <==>
      exists i :: 0 <= i < |lane| && o == Moved(lane[i], speed) && o.x + o.width >= 0.0
  {
    if lane != [] {
      ScrollCullMembers(lane[1..], speed, o);
      if o in ScrollCull(lane[1..], speed) {
        var i :| 0 <= i < |lane[1..]| && o == Moved(lane[1..][i], speed) && o.x + o.width >= 0.0;
        assert o == Moved(lane[i + 1], speed);
      }
      if exists i :: 0 <= i < |lane| && o == Moved(lane[i], speed) && o.x + o.width >= 0.0 {
        var i :| 0 <= i < |lane| && o == Moved(lane[i], speed) && o.x + o.width >= 0.0;
        if i > 0 {
          assert lane[1..][i - 1] == lane[i];
        }
      }
    }
  }

  /** When no obstacle leaves the canvas, the lane keeps its length and only moves. */
  lemma {:induction false} ScrollCullKeepsAll(lane: seq<Obstacle>, speed: real)
    requires forall j :: 0 <= j < |lane| ==> lane[j].x - speed + lane[j].width >= 0.0
    ensures |ScrollCull(lane, speed)| == |lane|
    ensures forall j :: 0 <= j < |lane| ==> ScrollCull(lane, speed)[j] == Moved(lane[j], speed)
  {
    if lane != [] {
      ScrollCullKeepsAll(lane[1..], speed);
      var r := ScrollCull(lane, speed);
      assert r == [Moved(lane[0], speed)] + ScrollCull(lane[1..], speed);
      forall j | 0 < j < |lane|
        ensures r[j] == Moved(lane[j], speed)
      {
        assert lane[1..][j - 1] == lane[j];
      }
    }
  }

  /** The reverse loop of `update` over one lane: move, and splice out what left the canvas. */
  method Scroll(lane: seq<Obstacle>, speed: real) returns (r: seq<Obstacle>)
    ensures r == ScrollCull(lane, speed)
  {
    r := lane;
    var i := |lane|;
    while i > 0
      invariant 0 <= i <= |lane|
      invariant r == lane[..i] + ScrollCull(lane[i..], speed)
    {
      i := i - 1;
      assert r[i] == lane[i] && r[..i] == lane[..i] && r[i + 1..] == ScrollCull(lane[i + 1..], speed);
      assert lane[i..][0] == lane[i] && lane[i..][1..] == lane[i + 1..];
      var o := Moved(r[i], speed);
      r := r[..i] + [o] + r[i + 1..];
      if o.x + o.width < 0.0 {
        r := r[..i] + r[i + 1..];
      }
      assert lane[..i + 1][..i] == lane[..i];
    }
  }

  // ---------------------------------------------------------------------
  // Score, speed and high score
  // ---------------------------------------------------------------------

  /** The score shown on screen: one point per 20 ticks. */
  function Display(score: nat): nat
  {
    score / 20
  }

  /**
   * The speed-up test of `update`, on the already incremented score: it
   * holds exactly on the positive multiples of 4000 ticks, that is every 200
   * displayed points.
   */
  function SpeedUp(score: nat): (b: bool)
    ensures b <==> score > 0 && score % 4000 == 0
  {
    var shown := Display(score);
    DivisionFacts(score);
    shown > 0 && shown % 200 == 0 && score % 20 == 0
  }

  lemma DivisionFacts(score: nat)
    ensures score % 20 == 0 ==> score == 20 * Display(score)
    ensures score % 4000 == 0 ==> score % 20 == 0 && Display(score) % 200 == 0
    ensures score % 20 == 0 && Display(score) % 200 == 0 ==> score % 4000 == 0
  {
    var d := score / 20;
    assert score == 20 * d + score % 20;
    if score % 4000 == 0 {
      var q := score / 4000;
      assert score == 4000 * q;
      assert score == 20 * (200 * q) + 0;
      assert d == 200 * q;
    }
    if score % 20 == 0 && d % 200 == 0 {
      var q := d / 200;
      assert d == 200 * q;
      assert score == 4000 * q;
    }
  }

  /** The high score kept after a run that ended with `score` ticks. */
  function NewHighScore(high: int, score: nat): (h: int)
    ensures h >= high && h >= Display(score)
    ensures h == high || h == Display(score)
  {
    if Display(score) > high then Display(score) else high
  }

  // ---------------------------------------------------------------------
  // The game state
  // ---------------------------------------------------------------------

  /** One dinosaur, updated in place by the key handlers and `updateDino`. */
  class Dino {
    const groundY: real
    var y: real
    var vy: real
    var height: real
    var isJumping: bool
    var isCrouching: bool

    function Current(): Pose
      reads this
    {
      Pose(y, vy, height, isJumping, isCrouching)
    }

    /** A dinosaur standing on the ground at `groundY`. */
    constructor (groundY: real)
      ensures this.groundY == groundY && Current() == Standing(groundY)
    {
      this.groundY := groundY;
      y, vy, height := groundY - DinoHeight, 0.0, DinoHeight;
      isJumping, isCrouching := false, false;
    }

    method Land()
      modifies this
      ensures Current() == Standing(groundY)
    {
      y, vy, height := groundY - DinoHeight, 0.0, DinoHeight;
      isJumping, isCrouching := false, false;
    }

    /** `updateDino`. */
    method Fall()
      modifies this
      ensures Current() == Fallen(old(Current()), groundY)
    {
      if isJumping {
        vy := vy + Gravity;
        y := y + vy;
        var landingY := groundY - height;
        if y >= landingY {
          y := landingY;
          vy := 0.0;
          isJumping := false;
        }
      }
    }

    method Jump()
      modifies this
      ensures Current() == Jumped(old(Current()))
    {
      if !isJumping && !isCrouching {
        isJumping := true;
        vy := JumpVelocity;
      }
    }

    method Crouch()
      modifies this
      ensures Current() == Crouched(old(Current()), groundY)
    {
      if !isJumping {
        isCrouching := true;
        height := DinoHeight - CrouchReduction;
        y := groundY - height;
      }
    }

    method Release()
      modifies this
      ensures Current() == Released(old(Current()), groundY)
    {
      isCrouching := false;
      height := DinoHeight;
      y := groundY - DinoHeight;
    }
  }

  const TopJump := {"w", "W"}
  const TopCrouch := {"s", "S"}

  function ModeOf(r: real): (m: Mode)
    ensures m == Harmony <==> r < 0.5
  {
    if r < 0.5 then Harmony else Disharmony
  }

  class Game {
    const top: Dino
    const bottom: Dino
    var gameRunning: bool
    var gameStarted: bool
    var isPaused: bool
    /** Ticks survived in this run; the shown score is `Display(score)`. */
    var score: nat
    var obstacleCount: nat
    var highScore: int
    var currentMode: Option<Mode>
    var previousMode: Option<Mode>
    var modeTimer: int
    var nextModeChange: int
    var gameSpeed: real
    var obstaclesTop: seq<Obstacle>
    var obstaclesBottom: seq<Obstacle>
    var obstacleSpawnTimer: int
    var obstacleSpawnRate: int

    /**
     * The invariant: two distinct dinosaurs, each in a reachable state on
     * its lane; the spawn rate between 50 and 100 and the spawn timer below
     * it; the mode timer below the next change; the speed at least the base;
     * no lane holds an obstacle entirely left of the canvas.
     */
    ghost predicate Valid()
      reads this, top, bottom
    {
      && top != bottom
      && top.groundY == GroundTop && bottom.groundY == GroundBottom
      && Settled(top.Current(), GroundTop) && Settled(bottom.Current(), GroundBottom)
      && 50 <= obstacleSpawnRate <= 100
      && 0 <= obstacleSpawnTimer < obstacleSpawnRate
      && modeTimer < nextModeChange
      && gameSpeed >= SpeedBase
      && OnScreen(obstaclesTop) && OnScreen(obstaclesBottom)
    }

    /** The page as loaded: nothing running, both dinosaurs on the ground, the saved high score. */
    constructor (savedHighScore: int)
      ensures Valid()
      ensures top.Current() == Standing(GroundTop) && bottom.Current() == Standing(GroundBottom)
      ensures !gameRunning && !gameStarted && !isPaused
      ensures score == 0 && obstacleCount == 0 && highScore == savedHighScore
      ensures currentMode == None && previousMode == None && modeTimer == 0 && nextModeChange == 150
      ensures gameSpeed == SpeedBase && obstaclesTop == [] && obstaclesBottom == []
      ensures obstacleSpawnTimer == 0 && obstacleSpawnRate == 100
    {
      top := new Dino(GroundTop);
      bottom := new Dino(GroundBottom);
      gameRunning, gameStarted, isPaused := false, false, false;
      score, obstacleCount, highScore := 0, 0, savedHighScore;
      currentMode, previousMode, modeTimer, nextModeChange := None, None, 0, 150;
      gameSpeed := SpeedBase;
      obstaclesTop, obstaclesBottom := [], [];
      obstacleSpawnTimer, obstacleSpawnRate := 0, 100;
    }

    /**
     * `selectNewMode`: harmony when the draw is below one half; the next
     * change comes 150 to 249 ticks from now.
     */
    method SelectNewMode(modeRand: real, offset: nat)
      requires offset < 100
      modifies this`previousMode, this`currentMode, this`nextModeChange
      ensures previousMode == old(currentMode) && currentMode == Some(ModeOf(modeRand))
      ensures nextModeChange == modeTimer + offset + 150
      ensures modeTimer + 150 <= nextModeChange < modeTimer + 250
    {
      previousMode := currentMode;
      currentMode := Some(if modeRand < 0.5 then Harmony else Disharmony);
      nextModeChange := modeTimer + offset + 150;
    }

    /** Every field of the game except the pause flag is as it was. */
    twostate predicate RunKept()
      reads this
    {
      && gameRunning == old(gameRunning) && gameStarted == old(gameStarted)
      && score == old(score) && obstacleCount == old(obstacleCount) && highScore == old(highScore)
      && currentMode == old(currentMode) && previousMode == old(previousMode)
      && modeTimer == old(modeTimer) && nextModeChange == old(nextModeChange)
      && gameSpeed == old(gameSpeed)
      && obstaclesTop == old(obstaclesTop) && obstaclesBottom == old(obstaclesBottom)
      && obstacleSpawnTimer == old(obstacleSpawnTimer) && obstacleSpawnRate == old(obstacleSpawnRate)
    }

    /**
     * `startGame`: a fresh run in a new mode, both dinosaurs standing.  The
     * spawn rate is carried over from the previous run, and so is the high score.
     */
    method StartGame(modeRand: real, offset: nat)
      requires Valid() && offset < 100
      modifies this, top, bottom
      ensures Valid()
      ensures gameStarted && gameRunning && !isPaused
      ensures score == 0 && obstacleCount == 0
      ensures obstaclesTop == [] && obstaclesBottom == [] && obstacleSpawnTimer == 0
      ensures obstacleSpawnRate == old(obstacleSpawnRate) && highScore == old(highScore)
      ensures modeTimer == 0 && gameSpeed == SpeedBase
      ensures previousMode == old(currentMode) && currentMode == Some(ModeOf(modeRand))
      ensures nextModeChange == offset + 150
      ensures top.Current() == Standing(GroundTop) && bottom.Current() == Standing(GroundBottom)
    {
      top.Land();
      bottom.Land();
      gameStarted, gameRunning, isPaused := true, true, false;
      score, obstacleCount := 0, 0;
      obstaclesTop, obstaclesBottom := [], [];
      obstacleSpawnTimer, modeTimer := 0, 0;
      gameSpeed := SpeedBase;
      SelectNewMode(modeRand, offset);
    }

    /** `spawnObstacle`: one obstacle more in each lane, of the kinds the mode and the draw give. */
    method SpawnObstacle(r: real)
      modifies this`obstaclesTop, this`obstaclesBottom, this`obstacleCount
      ensures var kinds := LaneKinds(currentMode, r);
        && obstaclesTop == old(obstaclesTop) + [Make(kinds.0, GroundTop)]
        && obstaclesBottom == old(obstaclesBottom) + [Make(kinds.1, GroundBottom)]
      ensures obstacleCount == old(obstacleCount) + 1
    {
      if currentMode == Some(Harmony) {
        var kind := if r < 0.5 then GroundObstacle else Flying;
        obstaclesTop := obstaclesTop + [Make(kind, GroundTop)];
        obstaclesBottom := obstaclesBottom + [Make(kind, GroundBottom)];
      } else {
        var topKind := if r < 0.5 then GroundObstacle else Flying;
        var bottomKind := if topKind == Flying then GroundObstacle else Flying;
        obstaclesTop := obstaclesTop + [Make(topKind, GroundTop)];
        obstaclesBottom := obstaclesBottom + [Make(bottomKind, GroundBottom)];
      }
      obstacleCount := obstacleCount + 1;
    }

    /** `gameOver`: the run stops and the high score keeps the better of the two. */
    method GameOver()
      modifies this`gameRunning, this`gameStarted, this`highScore
      ensures !gameRunning && !gameStarted
      ensures highScore == NewHighScore(old(highScore), score)
    {
      gameRunning := false;
      var displayScore := score / 20;
      if displayScore > highScore {
        highScore := displayScore;
      }
      gameStarted := false;
    }

    /** The mode timer step of `update`. */
    method AdvanceMode(modeRand: real, offset: nat)
      requires offset < 100 && modeTimer < nextModeChange
      modifies this`previousMode, this`currentMode, this`nextModeChange, this`modeTimer
      ensures modeTimer == old(modeTimer) + 1 && modeTimer < nextModeChange
      ensures old(modeTimer) + 1 >= old(nextModeChange) ==>
        previousMode == old(currentMode) && currentMode == Some(ModeOf(modeRand)) && nextModeChange == modeTimer + offset + 150
      ensures old(modeTimer) + 1 < old(nextModeChange) ==>
        previousMode == old(previousMode) && currentMode == old(currentMode) && nextModeChange == old(nextModeChange)
    {
      modeTimer := modeTimer + 1;
      if modeTimer >= nextModeChange {
        SelectNewMode(modeRand, offset);
      }
    }

    /** The spawn step of `update`: one obstacle per lane each time the timer reaches the rate, which then drops by one, to 50 at least. */
    method AdvanceSpawn(r: real)
      requires 50 <= obstacleSpawnRate <= 100 && 0 <= obstacleSpawnTimer < obstacleSpawnRate
      modifies this`obstaclesTop, this`obstaclesBottom, this`obstacleCount, this`obstacleSpawnTimer, this`obstacleSpawnRate
      ensures 50 <= obstacleSpawnRate <= old(obstacleSpawnRate) && 0 <= obstacleSpawnTimer < obstacleSpawnRate
      ensures var kinds := LaneKinds(currentMode, r);
        if old(obstacleSpawnTimer) + 1 >= old(obstacleSpawnRate) then
          && obstacleSpawnTimer == 0
          && obstacleSpawnRate == (if old(obstacleSpawnRate) - 1 > 50 then old(obstacleSpawnRate) - 1 else 50)
          && obstaclesTop == old(obstaclesTop) + [Make(kinds.0, GroundTop)]
          && obstaclesBottom == old(obstaclesBottom) + [Make(kinds.1, GroundBottom)]
          && obstacleCount == old(obstacleCount) + 1
        else
          && obstacleSpawnTimer == old(obstacleSpawnTimer) + 1 && obstacleSpawnRate == old(obstacleSpawnRate)
          && obstaclesTop == old(obstaclesTop) && obstaclesBottom == old(obstaclesBottom)
          && obstacleCount == old(obstacleCount)
    {
      obstacleSpawnTimer := obstacleSpawnTimer + 1;
      if obstacleSpawnTimer >= obstacleSpawnRate {
        SpawnObstacle(r);
        obstacleSpawnTimer := 0;
        obstacleSpawnRate := if obstacleSpawnRate - 1 > 50 then obstacleSpawnRate - 1 else 50;
      }
    }

    /** The movement half of `update`: mode timer, both dinosaurs, spawning, and both lanes scrolled. */
    method Advance(modeRand: real, offset: nat, spawnRand: real)
      requires Valid() && offset < 100
      modifies this, top, bottom
      ensures Valid()
      ensures modeTimer == old(modeTimer) + 1
      ensures old(modeTimer) + 1 >= old(nextModeChange) ==>
        previousMode == old(currentMode) && currentMode == Some(ModeOf(modeRand)) && nextModeChange == modeTimer + offset + 150
      ensures old(modeTimer) + 1 < old(nextModeChange) ==>
        previousMode == old(previousMode) && currentMode == old(currentMode) && nextModeChange == old(nextModeChange)
      ensures old(obstacleSpawnTimer) + 1 >= old(obstacleSpawnRate) ==>
        obstacleSpawnTimer == 0 && obstacleSpawnRate == (if old(obstacleSpawnRate) - 1 > 50 then old(obstacleSpawnRate) - 1 else 50)
      ensures old(obstacleSpawnTimer) + 1 < old(obstacleSpawnRate) ==>
        obstacleSpawnTimer == old(obstacleSpawnTimer) + 1 && obstacleSpawnRate == old(obstacleSpawnRate)
      ensures top.Current() == Fallen(old(top.Current()), GroundTop)
      ensures bottom.Current() == Fallen(old(bottom.Current()), GroundBottom)
      ensures var kinds := LaneKinds(currentMode, spawnRand);
        var spawned := old(obstacleSpawnTimer) + 1 >= old(obstacleSpawnRate);
        && obstaclesTop == ScrollCull(old(obstaclesTop) + Arrivals(spawned, kinds.0, GroundTop), gameSpeed)
        && obstaclesBottom == ScrollCull(old(obstaclesBottom) + Arrivals(spawned, kinds.1, GroundBottom), gameSpeed)
        && obstacleCount == old(obstacleCount) + (if spawned then 1 else 0)
      ensures gameRunning == old(gameRunning) && gameStarted == old(gameStarted) && isPaused == old(isPaused)
      ensures score == old(score) && gameSpeed == old(gameSpeed) && highScore == old(highScore)
    {
      AdvanceMode(modeRand, offset);
      MoveDinos();
      SpawnAndScroll(spawnRand);
    }

    /** Both dinosaurs through `updateDino`, each on its own ground. */
    method MoveDinos()
      requires top != bottom && top.groundY == GroundTop && bottom.groundY == GroundBottom
      requires Settled(top.Current(), GroundTop) && Settled(bottom.Current(), GroundBottom)
      modifies top, bottom
      ensures Settled(top.Current(), GroundTop) && Settled(bottom.Current(), GroundBottom)
      ensures top.Current() == Fallen(old(top.Current()), GroundTop)
      ensures bottom.Current() == Fallen(old(bottom.Current()), GroundBottom)
    {
      top.Fall();
      bottom.Fall();
    }

    /** The spawn timer and the scrolling of both lanes. */
    method SpawnAndScroll(spawnRand: real)
      requires 50 <= obstacleSpawnRate <= 100 && 0 <= obstacleSpawnTimer < obstacleSpawnRate
      requires OnScreen(obstaclesTop) && OnScreen(obstaclesBottom)
      modifies this`obstaclesTop, this`obstaclesBottom, this`obstacleCount, this`obstacleSpawnTimer, this`obstacleSpawnRate
      ensures 50 <= obstacleSpawnRate <= old(obstacleSpawnRate) && 0 <= obstacleSpawnTimer < obstacleSpawnRate
      ensures OnScreen(obstaclesTop) && OnScreen(obstaclesBottom)
      ensures var kinds := LaneKinds(currentMode, spawnRand);
        var spawned := old(obstacleSpawnTimer) + 1 >= old(obstacleSpawnRate);
        && obstaclesTop == ScrollCull(old(obstaclesTop) + Arrivals(spawned, kinds.0, GroundTop), gameSpeed)
        && obstaclesBottom == ScrollCull(old(obstaclesBottom) + Arrivals(spawned, kinds.1, GroundBottom), gameSpeed)
        && obstacleCount == old(obstacleCount) + (if spawned then 1 else 0)
      ensures old(obstacleSpawnTimer) + 1 >= old(obstacleSpawnRate) ==>
        obstacleSpawnTimer == 0 && obstacleSpawnRate == (if old(obstacleSpawnRate) - 1 > 50 then old(obstacleSpawnRate) - 1 else 50)
      ensures old(obstacleSpawnTimer) + 1 < old(obstacleSpawnRate) ==>
        obstacleSpawnTimer == old(obstacleSpawnTimer) + 1 && obstacleSpawnRate == old(obstacleSpawnRate)
    {
      ghost var spawned := obstacleSpawnTimer + 1 >= obstacleSpawnRate;
      ghost var top0, bottom0 := obstaclesTop, obstaclesBottom;
      AdvanceSpawn(spawnRand);
      ghost var kinds := LaneKinds(currentMode, spawnRand);
      if !spawned {
        assert top0 + Arrivals(spawned, kinds.0, GroundTop) == top0;
        assert bottom0 + Arrivals(spawned, kinds.1, GroundBottom) == bottom0;
      }
      obstaclesTop := Scroll(obstaclesTop, gameSpeed);
      obstaclesBottom := Scroll(obstaclesBottom, gameSpeed);
    }

    /**
     * The judging half of `update`: a collision in either lane ends the run
     * before the score counts the tick; else the score rises by one and the
     * speed by 0.3 on every 4000th tick.
     */
    method Judge() returns (crashed: bool)
      modifies this`gameRunning, this`gameStarted, this`highScore, this`score, this`gameSpeed
      ensures crashed == (Hits(top.Current(), obstaclesTop) || Hits(bottom.Current(), obstaclesBottom))
      ensures crashed ==>
        && !gameRunning && !gameStarted && score == old(score) && gameSpeed == old(gameSpeed)
        && highScore == NewHighScore(old(highScore), old(score))
      ensures !crashed ==>
        && gameRunning == old(gameRunning) && gameStarted == old(gameStarted) && score == old(score) + 1
        && gameSpeed == old(gameSpeed) + (if SpeedUp(score) then SpeedIncrement else 0.0)
        && highScore == old(highScore)
    {
      var hitTop := CheckCollision(top.Current(), obstaclesTop);
      var hitBottom := CheckCollision(bottom.Current(), obstaclesBottom);
      crashed := hitTop || hitBottom;
      if crashed {
        GameOver();
        return;
      }
      score := score + 1;
      if score / 20 > 0 && (score / 20) % 200 == 0 && score % 20 == 0 {
        gameSpeed := gameSpeed + SpeedIncrement;
      }
    }

    /**
     * `update`, one animation frame.  Nothing happens unless a run is going
     * and not paused; otherwise `Advance` and then `Judge`.
     */
    method Update(modeRand: real, offset: nat, spawnRand: real) returns (crashed: bool)
      requires Valid() && offset < 100
      modifies this, top, bottom
      ensures Valid()
      ensures !old(gameRunning) || old(isPaused) ==>
        !crashed && unchanged(this) && unchanged(top) && unchanged(bottom)
      ensures old(gameRunning) && !old(isPaused) ==>
        && modeTimer == old(modeTimer) + 1 && isPaused == old(isPaused)
        && (old(modeTimer) + 1 >= old(nextModeChange) ==>
              previousMode == old(currentMode) && currentMode == Some(ModeOf(modeRand))
              && nextModeChange == modeTimer + offset + 150)
        && (old(modeTimer) + 1 < old(nextModeChange) ==>
              previousMode == old(previousMode) && currentMode == old(currentMode)
              && nextModeChange == old(nextModeChange))
        && (old(obstacleSpawnTimer) + 1 >= old(obstacleSpawnRate) ==>
              obstacleSpawnTimer == 0
              && obstacleSpawnRate == (if old(obstacleSpawnRate) - 1 > 50 then old(obstacleSpawnRate) - 1 else 50))
        && (old(obstacleSpawnTimer) + 1 < old(obstacleSpawnRate) ==>
              obstacleSpawnTimer == old(obstacleSpawnTimer) + 1 && obstacleSpawnRate == old(obstacleSpawnRate))
        && top.Current() == Fallen(old(top.Current()), GroundTop)
        && bottom.Current() == Fallen(old(bottom.Current()), GroundBottom)
        && (var kinds := LaneKinds(currentMode, spawnRand);
            var spawned := old(obstacleSpawnTimer) + 1 >= old(obstacleSpawnRate);
            && obstaclesTop == ScrollCull(old(obstaclesTop) + Arrivals(spawned, kinds.0, GroundTop), old(gameSpeed))
            && obstaclesBottom == ScrollCull(old(obstaclesBottom) + Arrivals(spawned, kinds.1, GroundBottom), old(gameSpeed))
            && obstacleCount == old(obstacleCount) + (if spawned then 1 else 0))
        && crashed == (Hits(top.Current(), obstaclesTop) || Hits(bottom.Current(), obstaclesBottom))
        && (crashed ==>
              !gameRunning && !gameStarted && score == old(score) && gameSpeed == old(gameSpeed)
              && highScore == NewHighScore(old(highScore), old(score)))
        && (!crashed ==>
              gameRunning && gameStarted == old(gameStarted) && !isPaused && score == old(score) + 1
              && gameSpeed == old(gameSpeed) + (if SpeedUp(score) then SpeedIncrement else 0.0)
              && highScore == old(highScore))
    {
      crashed := false;
      if !gameRunning || isPaused {
        return;
      }
      Advance(modeRand, offset, spawnRand);
      crashed := Judge();
    }

    /**
     * The keydown handler.  Space starts a run when none is started and
     * otherwise toggles the pause of a running one.  The other keys act only
     * in a running, unpaused run: 'w'/'W' and ArrowUp jump, 's'/'S' and
     * ArrowDown crouch, in the top and bottom lanes.
     */
    method KeyDown(k: string, modeRand: real, offset: nat)
      requires Valid() && offset < 100
      modifies this, top, bottom
      ensures Valid()
      ensures k == " " && !old(gameStarted) ==>
        && gameStarted && gameRunning && !isPaused && score == 0 && obstacleCount == 0
        && obstaclesTop == [] && obstaclesBottom == [] && obstacleSpawnTimer == 0
        && obstacleSpawnRate == old(obstacleSpawnRate) && highScore == old(highScore)
        && modeTimer == 0 && gameSpeed == SpeedBase
        && previousMode == old(currentMode) && currentMode == Some(ModeOf(modeRand))
        && nextModeChange == offset + 150
        && top.Current() == Standing(GroundTop) && bottom.Current() == Standing(GroundBottom)
      ensures k == " " && old(gameStarted) ==>
        && unchanged(top) && unchanged(bottom) && RunKept()
        && isPaused == (if old(gameRunning) then !old(isPaused) else old(isPaused))
      ensures k != " " ==> RunKept() && isPaused == old(isPaused)
      ensures k != " " && (!old(gameRunning) || old(isPaused)) ==> unchanged(top) && unchanged(bottom)
      ensures k != " " && old(gameRunning) && !old(isPaused) ==>
        && top.Current() == (if k in TopJump then Jumped(old(top.Current()))
                          else if k in TopCrouch then Crouched(old(top.Current()), GroundTop)
                          else old(top.Current()))
        && bottom.Current() == (if k == "ArrowUp" then Jumped(old(bottom.Current()))
                             else if k == "ArrowDown" then Crouched(old(bottom.Current()), GroundBottom)
                             else old(bottom.Current()))
    {
      if k == " " {
        if !gameStarted {
          StartGame(modeRand, offset);
        } else if gameRunning {
          isPaused := !isPaused;
        }
        return;
      }
      if !gameRunning || isPaused {
        return;
      }
      PressKey(k);
    }

    /** The jump and crouch keys of a running, unpaused run, each acting on its lane's dinosaur. */
    method PressKey(k: string)
      requires top != bottom && top.groundY == GroundTop && bottom.groundY == GroundBottom
      requires Settled(top.Current(), GroundTop) && Settled(bottom.Current(), GroundBottom)
      modifies top, bottom
      ensures Settled(top.Current(), GroundTop) && Settled(bottom.Current(), GroundBottom)
      ensures top.Current() == (if k in TopJump then Jumped(old(top.Current()))
                             else if k in TopCrouch then Crouched(old(top.Current()), GroundTop)
                             else old(top.Current()))
      ensures bottom.Current() == (if k == "ArrowUp" then Jumped(old(bottom.Current()))
                                else if k == "ArrowDown" then Crouched(old(bottom.Current()), GroundBottom)
                                else old(bottom.Current()))
    {
      KeysKeepSettled(top.Current(), GroundTop);
      KeysKeepSettled(bottom.Current(), GroundBottom);
      if k in TopJump {
        top.Jump();
      }
      if k in TopCrouch {
        top.Crouch();
      }
      if k == "ArrowUp" {
        bottom.Jump();
      }
      if k == "ArrowDown" {
        bottom.Crouch();
      }
    }

    /** The keyup handler: releasing a crouch key stands that lane's dinosaur up, whatever the game state. */
    method KeyUp(k: string)
      requires Valid()
      modifies top, bottom
      ensures Valid()
      ensures top.Current() == (if k in TopCrouch then Released(old(top.Current()), GroundTop) else old(top.Current()))
      ensures bottom.Current() == (if k == "ArrowDown" then Released(old(bottom.Current()), GroundBottom) else old(bottom.Current()))
    {
      KeysKeepSettled(top.Current(), GroundTop);
      KeysKeepSettled(bottom.Current(), GroundBottom);
      if k in TopCrouch {
        top.Release();
      }
      if k == "ArrowDown" {
        bottom.Release();
      }
    }
  }
}
