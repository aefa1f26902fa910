/**
 * The head-to-head snake battle: two snakes on one square grid, each an
 * ordered list of cells with the head first, each moving on its own clock.
 * A move is fatal when the new head leaves the grid, lands on the snake's
 * own body (tail included) or on the other snake as it stands at that
 * moment.  Eating sets a growth counter that suppresses tail removal, or
 * starts a speed boost.  The clock, the random draws and the keys are
 * parameters.
 */
module SnakeBattle {
  import opened Wrappers

  datatype Cell = Cell(x: int, y: int)
  datatype Dir = Dir(x: int, y: int)

  datatype FoodKind = Normal | Length | Speed
  datatype Food = Food(cell: Cell, kind: FoodKind)

  datatype Player = P1 | P2
  datatype Winner = Draw | Won(player: Player)

  /** How a finished match is reported: the winner and the score written to the tournament. */
  datatype MatchEnd = MatchEnd(winner: Winner, tournamentScore: int)

  /**
   * One snake's state: `body` head first, `grow` the number of coming moves
   * that keep their tail, the boost flag with its end time, and the time of
   * the last move attempt.
   */
  datatype Snake = Snake(
    body: seq<Cell>, dir: Dir, score: int, grow: nat,
    alive: bool, boosted: bool, boostEnd: int, lastMove: int)

  /** Milliseconds between moves, without and with a boost; length of a boost. */
  const BaseSpeed := 250
  const BoostedSpeed := 150
  const BoostDuration := 3000

  // ---------------------------------------------------------------------------
  // Geometry and collisions

  /** The four directions a key can set. */
  predicate IsUnit(d: Dir) {
    (d.x == 0 && (d.y == 1 || d.y == -1)) || (d.y == 0 && (d.x == 1 || d.x == -1))
  }

  predicate Adjacent(a: Cell, b: Cell) {
    (a.x == b.x && (a.y - b.y == 1 || b.y - a.y == 1)) ||
    (a.y == b.y && (a.x - b.x == 1 || b.x - a.x == 1))
  }

  /** `collideWalls`: the cell is off the grid. */
  predicate CollideWalls(h: Cell, gridSize: int) {
    h.x < 0 || h.x >= gridSize || h.y < 0 || h.y >= gridSize
  }

  predicate InGrid(c: Cell, gridSize: int) {
    0 <= c.x < gridSize && 0 <= c.y < gridSize
  }

  /** Every drawn cell is one `Math.floor(Math.random() * gridSize)` can give on both axes. */
  predicate DrawsInGrid(draws: seq<Cell>, gridSize: int) {
    forall c :: c in draws ==> InGrid(c, gridSize)
  }

  /** No food, or food on the grid. */
  predicate FoodInGrid(food: Option<Food>, gridSize: int) {
    food.Some? ==> InGrid(food.value.cell, gridSize)
  }

  /** `collideSelf` and `collideOther`: some segment of `sn` is on cell `h`. */
  function Collides(sn: seq<Cell>, h: Cell): (r: bool)
    ensures r <==> exists i :: 0 <= i < |sn| && sn[i] == h
  {
    if sn == [] then false
    else sn[0] == h || Collides(sn[1..], h)
  }

  /** The cell in front of the head. */
  function Ahead(body: seq<Cell>, d: Dir): Cell
    requires |body| > 0
  {
    Cell(body[0].x + d.x, body[0].y + d.y)
  }

  /** The check order of a move: walls, own body, the other snake. */
  predicate Fatal(h: Cell, own: seq<Cell>, other: seq<Cell>, gridSize: int) {
    CollideWalls(h, gridSize) || Collides(own, h) || Collides(other, h)
  }

  // ---------------------------------------------------------------------------
  // One snake's move, as a specification

  function Interval(sn: Snake): int {
    if sn.boosted then BoostedSpeed else BaseSpeed
  }

  /** The boost ends once `now` reaches its end time. */
  function Expire(sn: Snake, now: int): (r: Snake)
    ensures r.boosted <==> sn.boosted && now < sn.boostEnd
    ensures r == sn.(boosted := r.boosted)
  {
    if sn.boosted && now >= sn.boostEnd then sn.(boosted := false) else sn
  }

  /** A snake moves when alive, heading somewhere, and its interval has passed. */
  predicate Due(sn: Snake, now: int) {
    sn.alive && (sn.dir.x != 0 || sn.dir.y != 0) && now - sn.lastMove >= Interval(sn)
  }

  predicate Blocked(sn: Snake, other: seq<Cell>, gridSize: int)
    requires |sn.body| > 0
  {
    Fatal(Ahead(sn.body, sn.dir), sn.body, other, gridSize)
  }

  /** The move succeeds and its new head is on the food. */
  predicate Eats(sn: Snake, other: seq<Cell>, food: Option<Food>, gridSize: int)
    requires |sn.body| > 0
  {
    !Blocked(sn, other, gridSize) && food.Some? && Ahead(sn.body, sn.dir) == food.value.cell
  }

  /** The effect of one food: the counter is SET, not added to. */
  function Fed(sn: Snake, kind: FoodKind, now: int): Snake {
    match kind
    case Normal => sn.(score := sn.score + 1, grow := 1)
    case Length => sn.(score := sn.score + 2, grow := 2)
    case Speed => sn.(boosted := true, boostEnd := now + BoostDuration)
  }

  /** The body after `unshift` of the new head, before the tail is handled. */
  function Grown(sn: Snake): seq<Cell>
    requires |sn.body| > 0
  {
    [Ahead(sn.body, sn.dir)] + sn.body
  }

  /** Tail handling: a positive counter keeps the tail and drops by one, otherwise the tail goes. */
  function Settle(sn: Snake): Snake
    requires |sn.body| > 0
  {
    if sn.grow > 0 then sn.(grow := sn.grow - 1) else sn.(body := sn.body[..|sn.body| - 1])
  }

  /** One move attempt of snake `sn` against the other snake's body `other`. */
  function Step(sn: Snake, other: seq<Cell>, food: Option<Food>, now: int, gridSize: int): Snake
    requires |sn.body| > 0
  {
    if !Due(sn, now) then sn
    else
      var timed := sn.(lastMove := now);
      if Blocked(timed, other, gridSize) then timed.(alive := false)
      else
        var moved := timed.(body := Grown(timed));
        var fed := if Eats(timed, other, food, gridSize) then Fed(moved, food.value.kind, now) else moved;
        Settle(fed)
  }

  // ---------------------------------------------------------------------------
  // Properties of one move

  /**
   * A due move kills the snake exactly when the new head is off the grid, on
   * one of the snake's own cells (the tail included) or on the other snake;
   * a fatal move leaves the body, the score and the counter as they were.
   */
  lemma StepDeath(sn: Snake, other: seq<Cell>, food: Option<Food>, now: int, gridSize: int)
    requires |sn.body| > 0 && Due(sn, now)
    ensures var r := Step(sn, other, food, now, gridSize); var h := Ahead(sn.body, sn.dir);
      && (!r.alive <==>
            || CollideWalls(h, gridSize)
            || (exists i :: 0 <= i < |sn.body| && sn.body[i] == h)
            || (exists i :: 0 <= i < |other| && other[i] == h))
      && (!r.alive ==> r.body == sn.body && r.score == sn.score && r.grow == sn.grow)
      && r.lastMove == now
  {
  }

  /** The snake does not move before its interval has passed, nor when dead. */
  lemma StepWaits(sn: Snake, other: seq<Cell>, food: Option<Food>, now: int, gridSize: int)
    requires |sn.body| > 0
    requires !sn.alive || now - sn.lastMove < Interval(sn)
    ensures Step(sn, other, food, now, gridSize) == sn
  {
  }

  /**
   * A successful move puts prev-head + direction first and shifts the old cells
   * back one place; the tail is kept exactly when the counter (after eating)
   * is positive, which then drops by one.  Without pending growth the length
   * is unchanged.
   */
  lemma StepShift(sn: Snake, other: seq<Cell>, food: Option<Food>, now: int, gridSize: int)
    requires |sn.body| > 0 && Due(sn, now) && !Blocked(sn, other, gridSize)
    ensures var r := Step(sn, other, food, now, gridSize);
      var g := if Eats(sn, other, food, gridSize) then Fed(sn, food.value.kind, now).grow else sn.grow;
      && r.alive
      && r.body[0] == Cell(sn.body[0].x + sn.dir.x, sn.body[0].y + sn.dir.y)
      && (g > 0 ==> r.body[1..] == sn.body && r.grow == g - 1)
      && (g == 0 ==> r.body[1..] == sn.body[..|sn.body| - 1] && r.grow == 0)
      && |r.body| == |sn.body| + (if g > 0 then 1 else 0)
  {
  }

  /** The three foods have disjoint effects. */
  lemma FedEffects(sn: Snake, kind: FoodKind, now: int)
    ensures var r := Fed(sn, kind, now);
      && r.body == sn.body && r.dir == sn.dir && r.alive == sn.alive && r.lastMove == sn.lastMove
      && (kind == Normal ==> r.score == sn.score + 1 && r.grow == 1 && r.boosted == sn.boosted && r.boostEnd == sn.boostEnd)
      && (kind == Length ==> r.score == sn.score + 2 && r.grow == 2 && r.boosted == sn.boosted && r.boostEnd == sn.boostEnd)
      && (kind == Speed ==> r.score == sn.score && r.grow == sn.grow && r.boosted && r.boostEnd == now + BoostDuration)
  {
  }

  /**
   * Normal food: the move that eats it keeps its tail, so the snake is one
   * segment longer than before and no growth is left pending.
   */
  lemma {:induction false} NormalFoodGrowsOne(sn: Snake, other: seq<Cell>, c: Cell, now: int, gridSize: int)
    requires |sn.body| > 0 && Due(sn, now)
    requires Eats(sn, other, Some(Food(c, Normal)), gridSize)
    ensures var r := Step(sn, other, Some(Food(c, Normal)), now, gridSize);
      |r.body| == |sn.body| + 1 && r.grow == 0 && r.score == sn.score + 1
  {
    StepShift(sn, other, Some(Food(c, Normal)), now, gridSize);
  }

  /**
   * Length food: the move that eats it and the next successful move that eats
   * nothing both keep their tail, so two moves later the snake is two segments
   * longer, where without the food it would have kept its length.
   */
  lemma {:induction false} LengthFoodGrowsTwo(
    sn: Snake, other1: seq<Cell>, other2: seq<Cell>, c: Cell, food2: Option<Food>,
    now1: int, now2: int, gridSize: int)
    requires |sn.body| > 0 && Due(sn, now1)
    requires Eats(sn, other1, Some(Food(c, Length)), gridSize)
    requires var s1 := Step(sn, other1, Some(Food(c, Length)), now1, gridSize);
      |s1.body| > 0 && Due(s1, now2) && !Blocked(s1, other2, gridSize) && !Eats(s1, other2, food2, gridSize)
    ensures var s1 := Step(sn, other1, Some(Food(c, Length)), now1, gridSize);
      var s2 := Step(s1, other2, food2, now2, gridSize);
      |s1.body| == |sn.body| + 1 && |s2.body| == |sn.body| + 2 && s2.grow == 0 && s2.score == sn.score + 2
  {
    var f := Some(Food(c, Length));
    StepShift(sn, other1, f, now1, gridSize);
    var s1 := Step(sn, other1, f, now1, gridSize);
    assert s1.grow == 1;
    StepShift(s1, other2, food2, now2, gridSize);
  }

  /** A move that finds no food and no pending growth keeps the length. */
  lemma {:induction false} PlainMoveKeepsLength(sn: Snake, other: seq<Cell>, food: Option<Food>, now: int, gridSize: int)
    requires |sn.body| > 0 && Due(sn, now) && !Blocked(sn, other, gridSize)
    requires !Eats(sn, other, food, gridSize) && sn.grow == 0
    ensures |Step(sn, other, food, now, gridSize).body| == |sn.body|
  {
    StepShift(sn, other, food, now, gridSize);
  }

  // ---------------------------------------------------------------------------
  // The shape of a snake

  predicate Distinct(s: seq<Cell>) {
    forall i, j :: 0 <= i < j < |s| ==> s[i] != s[j]
  }

  predicate Connected(s: seq<Cell>) {
    forall i :: 0 <= i < |s| - 1 ==> Adjacent(s[i], s[i + 1])
  }

  predicate Apart(a: seq<Cell>, b: seq<Cell>) {
    forall i, j :: 0 <= i < |a| && 0 <= j < |b| ==> a[i] != b[j]
  }

  /** At least three cells, pairwise distinct, each next to the one before; a unit heading. */
  predicate WellFormed(sn: Snake) {
    |sn.body| >= 3 && Distinct(sn.body) && Connected(sn.body) && IsUnit(sn.dir) && sn.grow <= 2 && sn.score >= 0
  }

  lemma {:induction false} PrefixShape(s: seq<Cell>, n: nat)
    requires n <= |s| && Distinct(s) && Connected(s)
    ensures Distinct(s[..n]) && Connected(s[..n])
  {
    assert forall i :: 0 <= i < n ==> s[..n][i] == s[i];
  }

  /** Putting a free cell next to the head in front keeps the body distinct, connected and apart. */
  lemma {:induction false} PrependShape(h: Cell, body: seq<Cell>, other: seq<Cell>)
    requires |body| > 0 && Adjacent(h, body[0])
    requires Distinct(body) && Connected(body) && Apart(body, other)
    requires forall i :: 0 <= i < |body| ==> body[i] != h
    requires forall j :: 0 <= j < |other| ==> other[j] != h
    ensures Distinct([h] + body) && Connected([h] + body) && Apart([h] + body, other)
  {
    var grown := [h] + body;
    forall i, j | 0 <= i < j < |grown| ensures grown[i] != grown[j] {
      assert grown[j] == body[j - 1];
      if i > 0 {
        assert grown[i] == body[i - 1];
      }
    }
    forall i | 0 <= i < |grown| - 1 ensures Adjacent(grown[i], grown[i + 1]) {
      assert grown[i + 1] == body[i];
      if i > 0 {
        assert grown[i] == body[i - 1];
      }
    }
    forall i, j | 0 <= i < |grown| && 0 <= j < |other| ensures grown[i] != other[j] {
      if i > 0 {
        assert grown[i] == body[i - 1];
      }
    }
  }

  /**
   * A move keeps a snake well formed and keeps it apart from the other
   * snake: the new head is next to the old one, on no cell of either snake.
   */
  lemma {:induction false} StepKeepsShape(sn: Snake, other: seq<Cell>, food: Option<Food>, now: int, gridSize: int)
    requires WellFormed(sn) && Apart(sn.body, other)
    ensures WellFormed(Step(sn, other, food, now, gridSize))
    ensures Apart(Step(sn, other, food, now, gridSize).body, other)
  {
    if Due(sn, now) && !Blocked(sn, other, gridSize) {
      var h := Ahead(sn.body, sn.dir);
      var grown := [h] + sn.body;
      PrependShape(h, sn.body, other);
      PrefixShape(grown, |grown| - 1);
      var kept := grown[..|grown| - 1];
      assert Apart(kept, other) by {
        forall i, j | 0 <= i < |kept| && 0 <= j < |other| ensures kept[i] != other[j] {
          assert kept[i] == grown[i];
        }
      }
      StepShift(sn, other, food, now, gridSize);
      var r := Step(sn, other, food, now, gridSize);
      assert r.body == grown || r.body == grown[..|grown| - 1];
    }
  }

  // ---------------------------------------------------------------------------
  // Steering

  /**
   * One player's four direction keys: a key sets its direction unless the
   * current heading is exactly the opposite.
   */
  function Steer(d: Dir, k: string, up: set<string>, left: set<string>, down: set<string>, right: set<string>): Dir {
    if k in up && d.y != 1 then Dir(0, -1)
    else if k in left && d.x != 1 then Dir(-1, 0)
    else if k in down && d.y != -1 then Dir(0, 1)
    else if k in right && d.x != -1 then Dir(1, 0)
    else d
  }

  const P1Up := {"w", "W"}
  const P1Left := {"a", "A"}
  const P1Down := {"s", "S"}
  const P1Right := {"d", "D"}
  const P2Up := {"ArrowUp"}
  const P2Left := {"ArrowLeft"}
  const P2Down := {"ArrowDown"}
  const P2Right := {"ArrowRight"}

  /** A key never sets the exact reverse of the current heading, and a unit heading stays a unit heading. */
  lemma SteerNeverReverses(d: Dir, k: string, up: set<string>, left: set<string>, down: set<string>, right: set<string>)
    requires IsUnit(d)
    ensures var e := Steer(d, k, up, left, down, right);
      IsUnit(e) && e != Dir(-d.x, -d.y)
  {
  }

  /**
   * Two keys pressed within one move interval can still turn the heading
   * back onto the neck: heading right, `w` then `a` leaves the snake heading
   * left, and its next head is on its own second cell.
   */
  lemma TwoKeysCanReverse()
    ensures Steer(Steer(Dir(1, 0), "w", P1Up, P1Left, P1Down, P1Right), "a", P1Up, P1Left, P1Down, P1Right) == Dir(-1, 0)
    ensures var body := [Cell(3, 3), Cell(2, 3), Cell(1, 3)];
      Ahead(body, Dir(-1, 0)) == body[1]
  {
  }

  // ---------------------------------------------------------------------------
  // Food placement

  /** The type rule of a food from a uniform draw `r` in [0, 1). */
  function KindOf(r: real): (k: FoodKind)
    ensures k == Normal <==> r < 0.5
    ensures k == Length <==> 0.5 <= r < 0.75
    ensures k == Speed <==> r >= 0.75
  {
    if r < 0.5 then Normal else if r < 0.75 then Length else Speed
  }

  /**
   * The acceptance test of `spawnFood` for a drawn cell: on neither snake,
   * and not the previous food's cell, except that a previous food in column 0
   * counts as no previous food.
   */
  predicate Acceptable(c: Cell, s1: seq<Cell>, s2: seq<Cell>, prev: Option<Food>) {
    !Collides(s1 + s2, c) && (prev.None? || prev.value.cell.x == 0 || c != prev.value.cell)
  }

  /** The first acceptable draw. */
  function Pick(draws: seq<Cell>, s1: seq<Cell>, s2: seq<Cell>, prev: Option<Food>): (r: Option<Cell>)
    ensures r.Some? ==> r.value in draws && Acceptable(r.value, s1, s2, prev)
    ensures r.None? ==> forall i :: 0 <= i < |draws| ==> !Acceptable(draws[i], s1, s2, prev)
  {
    if draws == [] then None
    else if Acceptable(draws[0], s1, s2, prev) then Some(draws[0])
    else Pick(draws[1..], s1, s2, prev)
  }

  /** The food after `spawnFood`: the first acceptable draw with the type of `r`. */
  function Respawn(draws: seq<Cell>, s1: seq<Cell>, s2: seq<Cell>, prev: Option<Food>, r: real): Option<Food> {
    match Pick(draws, s1, s2, prev)
    case Some(c) => Some(Food(c, KindOf(r)))
    case None => prev
  }

  /** Food drawn from cells on the grid stays on the grid. */
  lemma RespawnInGrid(draws: seq<Cell>, s1: seq<Cell>, s2: seq<Cell>, prev: Option<Food>, r: real, gridSize: int)
    requires DrawsInGrid(draws, gridSize) && FoodInGrid(prev, gridSize)
    ensures FoodInGrid(Respawn(draws, s1, s2, prev, r), gridSize)
  {
  }

  /** A placed food is on no cell of either snake, and follows the type rule. */
  lemma {:induction false} RespawnAvoidsSnakes(draws: seq<Cell>, s1: seq<Cell>, s2: seq<Cell>, prev: Option<Food>, r: real)
    requires Pick(draws, s1, s2, prev).Some?
    ensures var f := Respawn(draws, s1, s2, prev, r);
      && f.Some? && f.value.cell in draws && f.value.kind == KindOf(r)
      && (forall i :: 0 <= i < |s1| ==> s1[i] != f.value.cell)
      && (forall i :: 0 <= i < |s2| ==> s2[i] != f.value.cell)
  {
    var c := Pick(draws, s1, s2, prev).value;
    assert !Collides(s1 + s2, c);
    forall i | 0 <= i < |s1| ensures s1[i] != c {
      assert (s1 + s2)[i] == s1[i];
    }
    forall i | 0 <= i < |s2| ensures s2[i] != c {
      assert (s1 + s2)[|s1| + i] == s2[i];
    }
  }

  /** The column-0 quirk: a food in column 0 may be placed again on its own cell. */
  lemma ColumnZeroMayRepeat(y: int, kind: FoodKind)
    ensures Acceptable(Cell(0, y), [], [], Some(Food(Cell(0, y), kind)))
    ensures !Acceptable(Cell(1, y), [], [], Some(Food(Cell(1, y), kind)))
  {
  }

  // ---------------------------------------------------------------------------
  // End of a match

  /** Both dead is a draw; otherwise the survivor wins. */
  function WinnerOf(alive1: bool, alive2: bool): (w: Winner)
    requires !alive1 || !alive2
    ensures w == Draw <==> !alive1 && !alive2
    ensures w == Won(P1) <==> alive1
    ensures w == Won(P2) <==> alive2
  {
    if !alive1 && !alive2 then Draw else if alive1 then Won(P1) else Won(P2)
  }

  /** The snake score written to the tournament: the survivor's, or the larger on a draw. */
  function TournamentScore(alive1: bool, alive2: bool, score1: int, score2: int): (s: int)
    ensures alive1 && !alive2 ==> s == score1
    ensures alive2 && !alive1 ==> s == score2
    ensures alive1 == alive2 ==> s >= score1 && s >= score2 && (s == score1 || s == score2)
  {
    if alive1 && !alive2 then score1
    else if alive2 && !alive1 then score2
    else if score1 >= score2 then score1 else score2
  }

  // ---------------------------------------------------------------------------
  // The battle

  const Start1 := [Cell(3, 3), Cell(2, 3), Cell(1, 3)]
  const Start2 := [Cell(9, 9), Cell(10, 9), Cell(11, 9)]

  /** One battle, from `startCrazyVersus` until it is replaced by a rematch. */
  class Battle {
    const gridSize: int
    var p1: Snake
    var p2: Snake
    var food: Option<Food>
    var started: bool
    var movementStarted: bool
    var paused: bool
    /** The 16 ms interval is still installed. */
    var ticking: bool

    ghost predicate Valid()
      reads this
    {
      WellFormed(p1) && WellFormed(p2) && Apart(p1.body, p2.body) && FoodInGrid(food, gridSize)
    }

    /** A fresh battle: both snakes at their start cells, the first food placed, nothing moving yet. */
    constructor (gridSize: int, now: int, draws: seq<Cell>, r: real)
      requires DrawsInGrid(draws, gridSize)
      ensures Valid()
      ensures this.gridSize == gridSize
      ensures p1 == Snake(Start1, Dir(1, 0), 0, 0, true, false, 0, now)
      ensures p2 == Snake(Start2, Dir(-1, 0), 0, 0, true, false, 0, now)
      ensures food == Respawn(draws, Start1, Start2, None, r)
      ensures !started && !movementStarted && !paused && ticking
    {
      this.gridSize := gridSize;
      p1 := Snake(Start1, Dir(1, 0), 0, 0, true, false, 0, now);
      p2 := Snake(Start2, Dir(-1, 0), 0, 0, true, false, 0, now);
      food := None;
      started, movementStarted, paused, ticking := false, false, false, true;
      new;
      RespawnInGrid(draws, Start1, Start2, None, r, gridSize);
      var placed := SpawnFood(draws, r);
    }

    /**
     * `spawnFood`: draws cells until one is acceptable.  The draws are a
     * finite list here; when none of them is acceptable the food stays.
     */
    method SpawnFood(draws: seq<Cell>, r: real) returns (placed: bool)
      requires DrawsInGrid(draws, gridSize)
      modifies this`food
      ensures placed <==> Pick(draws, p1.body, p2.body, old(food)).Some?
      ensures food == Respawn(draws, p1.body, p2.body, old(food), r)
    {
      var i := 0;
      var valid := false;
      var c := Cell(0, 0);
      while !valid && i < |draws|
        invariant 0 <= i <= |draws|
        invariant !valid ==> Pick(draws, p1.body, p2.body, food) == Pick(draws[i..], p1.body, p2.body, food)
        invariant valid ==> Pick(draws, p1.body, p2.body, food) == Some(c)
      {
        c := draws[i];
        assert draws[i..][0] == c && draws[i..][1..] == draws[i + 1..];
        i := i + 1;
        var occupied := Collides(p1.body + p2.body, c);
        var notSame := food.None? || food.value.cell.x == 0 || c != food.value.cell;
        valid := !occupied && notSame;
      }
      placed := valid;
      if valid {
        food := Some(Food(c, KindOf(r)));
      }
    }

    /** The snake state of player `who`. */
    function Of(who: Player): Snake
      reads this
    {
      if who == P1 then p1 else p2
    }

    /**
     * One snake's part of `loop`: when due, the move or the death; on food,
     * the effect and a new food placed while the new head is already on the
     * body and the tail not yet removed; then the tail.
     */
    method MoveSnake(who: Player, now: int, draws: seq<Cell>, r: real)
      requires |p1.body| > 0 && |p2.body| > 0
      requires DrawsInGrid(draws, gridSize)
      modifies this`p1, this`p2, this`food
      ensures who == P1 ==>
        && p1 == Step(old(p1), old(p2).body, old(food), now, gridSize)
        && p2 == old(p2)
        && food == FoodAfter(P1, old(p1), old(p2).body, old(food), now, gridSize, draws, r)
      ensures who == P2 ==>
        && p2 == Step(old(p2), old(p1).body, old(food), now, gridSize)
        && p1 == old(p1)
        && food == FoodAfter(P2, old(p2), old(p1).body, old(food), now, gridSize, draws, r)
    {
      var sn := Of(who);
      var other := Of(if who == P1 then P2 else P1).body;
      if !(sn.alive && (sn.dir.x != 0 || sn.dir.y != 0) && now - sn.lastMove >= Interval(sn)) {
        return;
      }
      sn := sn.(lastMove := now);
      var h := Ahead(sn.body, sn.dir);
      if CollideWalls(h, gridSize) || Collides(sn.body, h) || Collides(other, h) {
        sn := sn.(alive := false);
        if who == P1 { p1 := sn; } else { p2 := sn; }
        return;
      }
      sn := sn.(body := [h] + sn.body);
      if who == P1 { p1 := sn; } else { p2 := sn; }
      if food.Some? && h == food.value.cell {
        sn := Fed(sn, food.value.kind, now);
        var placed := SpawnFood(draws, r);
      }
      if sn.grow > 0 {
        sn := sn.(grow := sn.grow - 1);
      } else {
        sn := sn.(body := sn.body[..|sn.body| - 1]);
      }
      if who == P1 { p1 := sn; } else { p2 := sn; }
    }

    /**
     * One run of `loop`: boosts that are over end, snake 1 tries its move
     * against snake 2's body, then snake 2 against snake 1's body as it now
     * stands; once a snake is dead the interval is stopped and the result is
     * reported.
     */
    method Loop(now: int, draws1: seq<Cell>, r1: real, draws2: seq<Cell>, r2: real) returns (outcome: Option<MatchEnd>)
      requires Valid() && DrawsInGrid(draws1, gridSize) && DrawsInGrid(draws2, gridSize)
      modifies this
      ensures Valid()
      ensures started == old(started) && movementStarted == old(movementStarted) && paused == old(paused)
      ensures !old(ticking) || (!old(p1).alive && !old(p2).alive) || old(paused) || !old(movementStarted) ==>
        p1 == old(p1) && p2 == old(p2) && food == old(food) && ticking == old(ticking) && outcome == None
      ensures old(ticking) && (old(p1).alive || old(p2).alive) && !old(paused) && old(movementStarted) ==>
        var e1, e2 := Expire(old(p1), now), Expire(old(p2), now);
        var f1 := FoodAfter(P1, e1, old(p2).body, old(food), now, gridSize, draws1, r1);
        && p1 == Step(e1, old(p2).body, old(food), now, gridSize)
        && p2 == Step(e2, p1.body, f1, now, gridSize)
        && food == FoodAfter(P2, e2, p1.body, f1, now, gridSize, draws2, r2)
        && (p1.alive && p2.alive ==> ticking && outcome == None)
        && (!p1.alive || !p2.alive ==>
              !ticking &&
              outcome == Some(MatchEnd(WinnerOf(p1.alive, p2.alive),
                                       TournamentScore(p1.alive, p2.alive, p1.score, p2.score))))
    {
      if !ticking || (!p1.alive && !p2.alive) || paused || !movementStarted {
        return None;
      }
      ExpireBoosts(now);
      StepKeepsShape(p1, p2.body, food, now, gridSize);
      MoveSnake(P1, now, draws1, r1);
      StepKeepsShape(p2, p1.body, food, now, gridSize);
      MoveSnake(P2, now, draws2, r2);
      outcome := Report();
    }

    /** The boosts whose end time has come are switched off. */
    method ExpireBoosts(now: int)
      modifies this`p1, this`p2
      ensures p1 == Expire(old(p1), now) && p2 == Expire(old(p2), now)
    {
      if p1.boosted && now >= p1.boostEnd {
        p1 := p1.(boosted := false);
      }
      if p2.boosted && now >= p2.boostEnd {
        p2 := p2.(boosted := false);
      }
    }

    /** Once a snake is dead the interval is cleared and the result reported. */
    method Report() returns (outcome: Option<MatchEnd>)
      modifies this`ticking
      ensures p1.alive && p2.alive ==> ticking == old(ticking) && outcome == None
      ensures !p1.alive || !p2.alive ==>
        !ticking &&
        outcome == Some(MatchEnd(WinnerOf(p1.alive, p2.alive), TournamentScore(p1.alive, p2.alive, p1.score, p2.score)))
    {
      if !p1.alive || !p2.alive {
        ticking := false;
        outcome := Some(MatchEnd(WinnerOf(p1.alive, p2.alive),
                                 TournamentScore(p1.alive, p2.alive, p1.score, p2.score)));
      } else {
        outcome := None;
      }
    }

    /**
     * The key handler.  Space starts the battle, asks for a rematch once a
     * snake is dead (the caller then builds a new battle), or toggles the
     * pause; direction keys steer only while started and not paused.
     */
    method Key(k: string) returns (rematch: bool)
      requires Valid()
      modifies this
      ensures Valid()
      ensures food == old(food) && ticking == old(ticking)
      ensures k == " " || k == "Spacebar" ==>
        && p1 == old(p1) && p2 == old(p2)
        && (!old(started) ==> started && movementStarted && paused == old(paused) && !rematch)
        && (old(started) && (!p1.alive || !p2.alive) ==>
              rematch && started && paused == old(paused) && movementStarted == old(movementStarted))
        && (old(started) && p1.alive && p2.alive ==>
              !rematch && started && paused == !old(paused) && movementStarted == old(movementStarted))
      ensures k != " " && k != "Spacebar" ==>
        && !rematch && started == old(started) && paused == old(paused) && movementStarted == old(movementStarted)
        && (old(paused) || !old(started) ==> p1 == old(p1) && p2 == old(p2))
        && (!old(paused) && old(started) ==>
              && p1 == old(p1).(dir := Steer(old(p1).dir, k, P1Up, P1Left, P1Down, P1Right))
              && p2 == old(p2).(dir := Steer(old(p2).dir, k, P2Up, P2Left, P2Down, P2Right)))
    {
      rematch := false;
      if k == " " || k == "Spacebar" {
        if !started {
          started := true;
          movementStarted := true;
        } else if !p1.alive || !p2.alive {
          rematch := true;
        } else {
          paused := !paused;
        }
        return;
      }
      if paused || !started {
        return;
      }
      SteerNeverReverses(p1.dir, k, P1Up, P1Left, P1Down, P1Right);
      SteerNeverReverses(p2.dir, k, P2Up, P2Left, P2Down, P2Right);
      var d1 := Steer(p1.dir, k, P1Up, P1Left, P1Down, P1Right);
      var d2 := Steer(p2.dir, k, P2Up, P2Left, P2Down, P2Right);
      p1 := p1.(dir := d1);
      p2 := p2.(dir := d2);
    }
  }

  /**
   * The food after snake `who` (state `sn`, the other snake's body `other`)
   * took its part of the tick: when it ate, the food `spawnFood` places while
   * the mover's new head is on its body and its tail not yet removed.
   */
  function FoodAfter(who: Player, sn: Snake, other: seq<Cell>, food: Option<Food>, now: int, gridSize: int,
                     draws: seq<Cell>, r: real): Option<Food>
    requires |sn.body| > 0
  {
    if Due(sn, now) && Eats(sn, other, food, gridSize) then
      if who == P1 then Respawn(draws, Grown(sn), other, food, r) else Respawn(draws, other, Grown(sn), food, r)
    else food
  }
}
