/**
 * The cooperative boxing round: each round both players are shown a move, a
 * cue slides in towards each of them, and each must press the matching key.
 * When both have hit, the monster loses 40, the score rises by 10 and the
 * game speeds up.  A wrong key, or a correct one pressed before the cue has
 * arrived, costs that player 20; letting the round time out costs 10.
 *
 * The delayed consequences the game schedules with timers are kept in a
 * queue of pending effects, and the caller chooses which one happens next.
 * The random move choices are parameters.
 */
module Boxing {
  import opened Wrappers

  datatype Player = P1 | P2

  /** A state change the game has scheduled for later. */
  datatype Effect =
    | Damage(who: Player)   // the player loses 20 once the monster's attack lands
    | MonsterCheck          // the end of the joint-hit animation: monster death or the next round

  /** A cue sliding towards its player's target position. */
  datatype Cue = Cue(x: real, targetX: real, arrived: bool)

  const P1Target: real := 190.0
  const P2Target: real := 610.0
  const CanvasWidth: real := 800.0
  const StartHealth := 100
  const MonsterStartHealth := 500
  const StartInterval := 200
  const MinInterval := 60
  const StartArrowSpeed: real := 3.0
  const MaxArrowSpeed: real := 15.0

  /** The four moves, in the order of both players' move lists. */
  datatype Move = Up | Left | Down | Right
  const Moves: seq<Move> := [Up, Left, Down, Right]

  /** The key that names a move for player 1 (lower case) and for player 2. */
  function P1Key(m: Move): string
  {
    match m
    case Up => "w"
    case Left => "a"
    case Down => "s"
    case Right => "d"
  }

  function P2Key(m: Move): string
  {
    match m
    case Up => "ArrowUp"
    case Left => "ArrowLeft"
    case Down => "ArrowDown"
    case Right => "ArrowRight"
  }

  const P1Keys: set<string> := {"w", "W", "a", "A", "s", "S", "d", "D"}
  const P2Keys: set<string> := {"ArrowUp", "ArrowLeft", "ArrowDown", "ArrowRight"}

  // ---------------------------------------------------------------------
  // Keys
  // ---------------------------------------------------------------------

  function UpperChar(c: char): char
  {
    if 'a' <= c <= 'z' then (c as int - 32) as char else c
  }

  /** `toUpperCase` on ASCII letters; every other character is kept. */
  function Upper(s: string): (r: string)
    ensures |r| == |s|
    ensures forall i :: 0 <= i < |s| ==> r[i] == UpperChar(s[i])
  {
    seq(|s|, i requires 0 <= i < |s| => UpperChar(s[i]))
  }

  /** What a key press does for one player. */
  datatype Press = Ignored | Correct | Wrong

  /**
   * Player 1's reading of key `k`: considered only while the player has not
   * hit yet, a move is assigned and the key is one of the eight WASD keys;
   * then it is correct when it is the move or the move in capitals.
   */
  function PressP1(k: string, move: Option<Move>, hit: bool): (p: Press)
    ensures p != Ignored <==> !hit && move.Some? && k in P1Keys
    ensures p == Correct <==> !hit && move.Some? && k in P1Keys && (k == P1Key(move.value) || k == Upper(P1Key(move.value)))
  {
    if hit || move.None? || k !in P1Keys then Ignored
    else if k == P1Key(move.value) || k == Upper(P1Key(move.value)) then Correct
    else Wrong
  }

  /** Player 2's reading of key `k`: the four arrow keys, matched exactly. */
  function PressP2(k: string, move: Option<Move>, hit: bool): (p: Press)
    ensures p != Ignored <==> !hit && move.Some? && k in P2Keys
    ensures p == Correct <==> !hit && move.Some? && k in P2Keys && k == P2Key(move.value)
  {
    if hit || move.None? || k !in P2Keys then Ignored
    else if k == P2Key(move.value) then Correct
    else Wrong
  }

  /**
   * For every move player 1 can be given, exactly the move and its capital
   * are correct among the eight WASD keys, and the six others are wrong.
   */
  lemma P1CaseInsensitive(m: Move, k: string)
    requires k in P1Keys
    ensures PressP1(k, Some(m), false) == Correct <==> k == P1Key(m) || k == P1Capital(m)
    ensures PressP1(k, Some(m), false) != Ignored
  {
    assert Upper(P1Key(m)) == [UpperChar(P1Key(m)[0])];
    assert Upper(P1Key(m)) == P1Capital(m);
  }

  /** The capital of each of player 1's keys. */
  function P1Capital(m: Move): string
  {
    match m
    case Up => "W"
    case Left => "A"
    case Down => "S"
    case Right => "D"
  }

  /** The two players' keys are disjoint, so a key press concerns at most one of them. */
  lemma OneKeyOnePlayer(k: string, m1: Option<Move>, hit1: bool, m2: Option<Move>, hit2: bool)
    ensures PressP1(k, m1, hit1) == Ignored || PressP2(k, m2, hit2) == Ignored
  {
    if k in P1Keys {
      assert |k| == 1;
    }
  }

  /** The deferred damage a press schedules: a wrong key, or a correct one before the cue arrived. */
  function Penalty(who: Player, p: Press, arrived: bool): (r: seq<Effect>)
    ensures p == Wrong ==> r == [Damage(who)]
    ensures p == Correct ==> (r == [] <==> arrived) && (r != [] ==> r == [Damage(who)])
    ensures p == Ignored ==> r == []
  {
    if p == Wrong || (p == Correct && !arrived) then [Damage(who)] else []
  }

  function Arrived(c: Option<Cue>): bool
  {
    c.Some? && c.value.arrived
  }

  // ---------------------------------------------------------------------
  // Difficulty
  // ---------------------------------------------------------------------

  /** The speed-up after a joint hit: the interval shrinks by 5 down to 60, the cue speed grows by 0.5 up to 15. */
  function Ramp(interval: int, speed: real): (r: (int, real))
    ensures r.0 >= MinInterval && r.0 >= interval - 5 && (r.0 == MinInterval || r.0 == interval - 5)
    ensures r.1 <= MaxArrowSpeed && r.1 <= speed + 0.5 && (r.1 == MaxArrowSpeed || r.1 == speed + 0.5)
    ensures interval >= MinInterval ==> r.0 <= interval
    ensures speed <= MaxArrowSpeed ==> r.1 >= speed
  {
    (if interval - 5 > MinInterval then interval - 5 else MinInterval,
     if speed + 0.5 < MaxArrowSpeed then speed + 0.5 else MaxArrowSpeed)
  }

  /** The difficulty after `n` joint hits of one game. */
  function RampN(n: nat): (int, real)
  {
    if n == 0 then (StartInterval, StartArrowSpeed) else var r := RampN(n - 1); Ramp(r.0, r.1)
  }

  /**
   * After `n` joint hits the interval is `max(60, 200 - 5 n)` and the cue
   * speed `min(15, 3 + 0.5 n)`: the interval bottoms out after 28 hits and
   * the speed tops out after 24.
   */
  lemma {:induction false} RampClosedForm(n: nat)
    ensures RampN(n).0 == (if 200 - 5 * n > MinInterval then 200 - 5 * n else MinInterval)
    ensures RampN(n).1 == (if 3.0 + 0.5 * (n as real) < MaxArrowSpeed then 3.0 + 0.5 * (n as real) else MaxArrowSpeed)
  {
    if n > 0 {
      RampClosedForm(n - 1);
    }
  }

  /** The difficulty stays within its bounds and never eases. */
  lemma {:induction false} RampBounded(n: nat)
    ensures MinInterval <= RampN(n).0 <= StartInterval
    ensures StartArrowSpeed <= RampN(n).1 <= MaxArrowSpeed
    ensures RampN(n + 1).0 <= RampN(n).0 && RampN(n + 1).1 >= RampN(n).1
  {
    RampClosedForm(n);
    RampClosedForm(n + 1);
  }

  /** Health as shown: never below zero. */
  function DisplayHealth(h: int): (r: int)
    ensures r >= 0
    ensures h >= 0 ==> r == h
    ensures h < 0 ==> r == 0
  {
    if h > 0 then h else 0
  }

  // ---------------------------------------------------------------------
  // Cues
  // ---------------------------------------------------------------------

  /**
   * Player 1's cue after one tick: it moves right by `speed`, stops at its
   * target and is then marked arrived; a cue beyond 900 would vanish.
   */
  function StepRight(c: Cue, speed: real): (r: Option<Cue>)
    ensures r.Some? ==> r.value.targetX == c.targetX && r.value.x <= c.targetX
    ensures r.Some? ==> (r.value.arrived <==> c.arrived || c.x + speed >= c.targetX)
    ensures r.Some? && r.value.arrived && !c.arrived ==> r.value.x == c.targetX
    ensures c.arrived && c.x == c.targetX && speed >= 0.0 && c.targetX <= CanvasWidth + 100.0 ==> r == Some(c)
  {
    var x := c.x + speed;
    var moved := if x >= c.targetX then Cue(c.targetX, c.targetX, true) else c.(x := x);
    if moved.x > CanvasWidth + 100.0 then None else Some(moved)
  }

  /** Player 2's cue, mirrored: it moves left and stops at its target; a cue below -100 would vanish. */
  function StepLeft(c: Cue, speed: real): (r: Option<Cue>)
    ensures r.Some? ==> r.value.targetX == c.targetX && r.value.x >= c.targetX
    ensures r.Some? ==> (r.value.arrived <==> c.arrived || c.x - speed <= c.targetX)
    ensures r.Some? && r.value.arrived && !c.arrived ==> r.value.x == c.targetX
    ensures c.arrived && c.x == c.targetX && speed >= 0.0 && c.targetX >= -100.0 ==> r == Some(c)
  {
    var x := c.x - speed;
    var moved := if x <= c.targetX then Cue(c.targetX, c.targetX, true) else c.(x := x);
    if moved.x < -100.0 then None else Some(moved)
  }

  /** The tick of a cue slot: an empty slot stays empty. */
  function TickRight(c: Option<Cue>, speed: real): Option<Cue>
  {
    if c.Some? then StepRight(c.value, speed) else None
  }

  function TickLeft(c: Option<Cue>, speed: real): Option<Cue>
  {
    if c.Some? then StepLeft(c.value, speed) else None
  }

  /** The cues' resting places are on the canvas, so the vanishing branches never fire. */
  lemma CuesNeverVanish(c1: Cue, c2: Cue, speed: real)
    requires c1.targetX == P1Target && c2.targetX == P2Target
    ensures StepRight(c1, speed).Some? && StepLeft(c2, speed).Some?
  {
  }

  /** A cue of player 1 after `n` ticks at a constant speed. */
  function RightAfter(c: Cue, speed: real, n: nat): Cue
  {
    if n == 0 then c
    else
      var prev := RightAfter(c, speed, n - 1);
      StepRight(prev, speed).GetOr(prev)
  }

  /**
   * Player 1's fresh cue at a constant speed is at `-50 + n speed` after `n`
   * ticks until that reaches the target; from then on it rests there, arrived.
   */
  lemma {:induction false} RightClosedForm(speed: real, n: nat)
    requires speed > 0.0
    ensures var c := RightAfter(Cue(-50.0, P1Target, false), speed, n);
      if -50.0 + (n as real) * speed < P1Target then c == Cue(-50.0 + (n as real) * speed, P1Target, false)
      else c == Cue(P1Target, P1Target, true)
  {
    if n > 0 {
      RightClosedForm(speed, n - 1);
      assert (n as real) * speed == ((n - 1) as real) * speed + speed;
      if -50.0 + ((n - 1) as real) * speed >= P1Target {
        assert -50.0 + (n as real) * speed >= P1Target;
      }
    }
  }

  /** A cue of player 2 after `n` ticks at a constant speed. */
  function LeftAfter(c: Cue, speed: real, n: nat): Cue
  {
    if n == 0 then c
    else
      var prev := LeftAfter(c, speed, n - 1);
      StepLeft(prev, speed).GetOr(prev)
  }

  /** Player 2's fresh cue, mirrored: at `850 - n speed` until that reaches the target, then resting there. */
  lemma {:induction false} LeftClosedForm(speed: real, n: nat)
    requires speed > 0.0
    ensures var c := LeftAfter(Cue(CanvasWidth + 50.0, P2Target, false), speed, n);
      if CanvasWidth + 50.0 - (n as real) * speed > P2Target then c == Cue(CanvasWidth + 50.0 - (n as real) * speed, P2Target, false)
      else c == Cue(P2Target, P2Target, true)
  {
    if n > 0 {
      LeftClosedForm(speed, n - 1);
      assert (n as real) * speed == ((n - 1) as real) * speed + speed;
      if CanvasWidth + 50.0 - ((n - 1) as real) * speed <= P2Target {
        assert CanvasWidth + 50.0 - (n as real) * speed <= P2Target;
      }
    }
  }

  // ---------------------------------------------------------------------
  // The game state
  // ---------------------------------------------------------------------

  class Bout {
    var gameRunning: bool
    var gameStarted: bool
    var isPaused: bool
    var score: int
    var p1Health: int
    var p2Health: int
    var monsterHealth: int
    var p1Move: Option<Move>
    var p2Move: Option<Move>
    var p1Cue: Option<Cue>
    var p2Cue: Option<Cue>
    var p1Hit: bool
    var p2Hit: bool
    var waiting: bool
    var moveTimer: int
    var moveInterval: int
    var arrowSpeed: real
    /** The effects scheduled and not yet happened, oldest first. */
    var pending: seq<Effect>

    /**
     * The invariant: the difficulty within its bounds; a running game is a
     * started one; each joint hit moved 10 points of score for 40 of monster
     * health; the round waits exactly when both players have hit; the cues
     * never pass their targets.
     */
    ghost predicate Valid()
      reads this
    {
      && MinInterval <= moveInterval <= StartInterval
      && StartArrowSpeed <= arrowSpeed <= MaxArrowSpeed
      && (gameRunning ==> gameStarted)
      && score >= 0 && 4 * score + monsterHealth == MonsterStartHealth
      && (waiting <==> p1Hit && p2Hit)
      && (p1Cue.Some? ==> p1Cue.value.targetX == P1Target && p1Cue.value.x <= P1Target
                          && (p1Cue.value.arrived ==> p1Cue.value.x == P1Target))
      && (p2Cue.Some? ==> p2Cue.value.targetX == P2Target && p2Cue.value.x >= P2Target
                          && (p2Cue.value.arrived ==> p2Cue.value.x == P2Target))
    }

    /** The page as loaded: full health, no moves, nothing scheduled. */
    constructor ()
      ensures Valid()
      ensures !gameRunning && !gameStarted && !isPaused
      ensures score == 0 && p1Health == StartHealth && p2Health == StartHealth && monsterHealth == MonsterStartHealth
      ensures p1Move == None && p2Move == None && p1Cue == None && p2Cue == None
      ensures !p1Hit && !p2Hit && !waiting
      ensures moveTimer == 0 && moveInterval == StartInterval && arrowSpeed == StartArrowSpeed
      ensures pending == []
    {
      gameRunning, gameStarted, isPaused := false, false, false;
      score, p1Health, p2Health, monsterHealth := 0, StartHealth, StartHealth, MonsterStartHealth;
      p1Move, p2Move, p1Cue, p2Cue := None, None, None, None;
      p1Hit, p2Hit, waiting := false, false, false;
      moveTimer, moveInterval, arrowSpeed := 0, StartInterval, StartArrowSpeed;
      pending := [];
    }

    /** `spawnNewMoves`: fresh moves from the lists, both cues off-screen, a new round. */
    method SpawnNewMoves(m1: nat, m2: nat)
      requires m1 < 4 && m2 < 4
      modifies this`p1Move, this`p2Move, this`p1Cue, this`p2Cue, this`p1Hit, this`p2Hit, this`waiting
      ensures p1Move == Some(Moves[m1]) && p2Move == Some(Moves[m2])
      ensures p1Cue == Some(Cue(-50.0, P1Target, false)) && p2Cue == Some(Cue(CanvasWidth + 50.0, P2Target, false))
      ensures !p1Hit && !p2Hit && !waiting
    {
      p1Move := Some(Moves[m1]);
      p2Move := Some(Moves[m2]);
      p1Cue := Some(Cue(-50.0, P1Target, false));
      p2Cue := Some(Cue(CanvasWidth + 50.0, P2Target, false));
      p1Hit, p2Hit, waiting := false, false, false;
    }

    /** `checkGameOver`: a player at or below zero health stops the game. */
    method CheckGameOver()
      modifies this`gameRunning
      ensures gameRunning == (old(gameRunning) && p1Health > 0 && p2Health > 0)
    {
      if p1Health <= 0 || p2Health <= 0 {
        gameRunning := false;
      }
    }

    /**
     * `startGame`: full health, score zero, the starting difficulty and a
     * first round.  Effects scheduled in an earlier game stay scheduled.
     */
    method StartGame(m1: nat, m2: nat)
      requires Valid() && m1 < 4 && m2 < 4
      modifies this
      ensures Valid()
      ensures gameStarted && gameRunning && !isPaused
      ensures score == 0 && p1Health == StartHealth && p2Health == StartHealth && monsterHealth == MonsterStartHealth
      ensures moveTimer == 0 && moveInterval == StartInterval && arrowSpeed == StartArrowSpeed
      ensures p1Move == Some(Moves[m1]) && p2Move == Some(Moves[m2])
      ensures p1Cue == Some(Cue(-50.0, P1Target, false)) && p2Cue == Some(Cue(CanvasWidth + 50.0, P2Target, false))
      ensures !p1Hit && !p2Hit && !waiting
      ensures pending == old(pending)
    {
      SpawnNewMoves(m1, m2);
      gameStarted, gameRunning, isPaused := true, true, false;
      score, p1Health, p2Health, monsterHealth := 0, StartHealth, StartHealth, MonsterStartHealth;
      moveTimer, moveInterval, arrowSpeed := 0, StartInterval, StartArrowSpeed;
    }

    /**
     * `checkBothPlayers`: when both players have hit, the joint hit lands
     * at once on the monster and the score, the round waits, the game
     * speeds up, the monster check is scheduled, and a player already at
     * or below zero health ends the game.
     */
    method CheckBothPlayers()
      requires MinInterval <= moveInterval <= StartInterval && StartArrowSpeed <= arrowSpeed <= MaxArrowSpeed
      modifies this`waiting, this`monsterHealth, this`score, this`moveInterval, this`arrowSpeed, this`pending, this`gameRunning
      ensures MinInterval <= moveInterval <= StartInterval && StartArrowSpeed <= arrowSpeed <= MaxArrowSpeed
      ensures p1Hit && p2Hit ==>
        && waiting && monsterHealth == old(monsterHealth) - 40 && score == old(score) + 10
        && (moveInterval, arrowSpeed) == Ramp(old(moveInterval), old(arrowSpeed))
        && pending == old(pending) + [MonsterCheck]
        && gameRunning == (old(gameRunning) && p1Health > 0 && p2Health > 0)
      ensures !(p1Hit && p2Hit) ==>
        && waiting == old(waiting) && monsterHealth == old(monsterHealth) && score == old(score)
        && moveInterval == old(moveInterval) && arrowSpeed == old(arrowSpeed)
        && pending == old(pending) && gameRunning == old(gameRunning)
    {
      if p1Hit && p2Hit {
        waiting := true;
        monsterHealth := monsterHealth - 40;
        score := score + 10;
        moveInterval := if moveInterval - 5 > MinInterval then moveInterval - 5 else MinInterval;
        arrowSpeed := if arrowSpeed + 0.5 < MaxArrowSpeed then arrowSpeed + 0.5 else MaxArrowSpeed;
        pending := pending + [MonsterCheck];
        CheckGameOver();
      }
    }

    /** Player 1's part of the keydown handler. */
    method PressOne(k: string)
      requires Valid() && gameRunning && !waiting && !isPaused
      modifies this
      ensures Valid()
      ensures var p := PressP1(k, old(p1Move), old(p1Hit));
        && (p == Ignored ==> unchanged(this))
        && (p != Ignored ==>
              && p1Hit == (p == Correct) && p2Hit == old(p2Hit)
              && p1Move == old(p1Move) && p2Move == old(p2Move) && p1Cue == old(p1Cue) && p2Cue == old(p2Cue)
              && p1Health == old(p1Health) && p2Health == old(p2Health) && moveTimer == old(moveTimer)
              && isPaused == old(isPaused) && gameStarted == old(gameStarted)
              && JointHitOrNot(old(pending) + Penalty(P1, p, Arrived(old(p1Cue))), old(monsterHealth), old(score), old(moveInterval), old(arrowSpeed)))
    {
      var p := PressP1(k, p1Move, p1Hit);
      if p == Ignored {
        return;
      }
      if p == Correct {
        p1Hit := true;
        if !(p1Cue.Some? && p1Cue.value.arrived) {
          pending := pending + [Damage(P1)];
        }
      } else {
        pending := pending + [Damage(P1)];
      }
      CheckBothPlayers();
    }

    /** Player 2's part of the keydown handler. */
    method PressTwo(k: string)
      requires Valid() && gameRunning && !waiting && !isPaused
      modifies this
      ensures Valid()
      ensures var p := PressP2(k, old(p2Move), old(p2Hit));
        && (p == Ignored ==> unchanged(this))
        && (p != Ignored ==>
              && p2Hit == (p == Correct) && p1Hit == old(p1Hit)
              && p1Move == old(p1Move) && p2Move == old(p2Move) && p1Cue == old(p1Cue) && p2Cue == old(p2Cue)
              && p1Health == old(p1Health) && p2Health == old(p2Health) && moveTimer == old(moveTimer)
              && isPaused == old(isPaused) && gameStarted == old(gameStarted)
              && JointHitOrNot(old(pending) + Penalty(P2, p, Arrived(old(p2Cue))), old(monsterHealth), old(score), old(moveInterval), old(arrowSpeed)))
    {
      var p := PressP2(k, p2Move, p2Hit);
      if p == Ignored {
        return;
      }
      if p == Correct {
        p2Hit := true;
        if !(p2Cue.Some? && p2Cue.value.arrived) {
          pending := pending + [Damage(P2)];
        }
      } else {
        pending := pending + [Damage(P2)];
      }
      CheckBothPlayers();
    }

    /**
     * The state after `checkBothPlayers` as a function of the state before
     * it (the queue `queue` already holding the press's own penalty).
     */
    ghost predicate JointHitOrNot(queue: seq<Effect>, monster: int, score0: int, interval: int, speed: real)
      reads this
    {
      if p1Hit && p2Hit then
        && waiting && monsterHealth == monster - 40 && score == score0 + 10
        && (moveInterval, arrowSpeed) == Ramp(interval, speed)
        && pending == queue + [MonsterCheck]
        && gameRunning == (p1Health > 0 && p2Health > 0)
      else
        && !waiting && monsterHealth == monster && score == score0
        && moveInterval == interval && arrowSpeed == speed
        && pending == queue && gameRunning
    }

    /** A new round has begun: the drawn moves, both cues off-screen, the timer and the flags cleared. */
    ghost predicate FreshRound(m1: nat, m2: nat)
      requires m1 < 4 && m2 < 4
      reads this
    {
      && moveTimer == 0 && !p1Hit && !p2Hit && !waiting
      && p1Move == Some(Moves[m1]) && p2Move == Some(Moves[m2])
      && p1Cue == Some(Cue(-50.0, P1Target, false)) && p2Cue == Some(Cue(CanvasWidth + 50.0, P2Target, false))
    }

    /** The round in progress is untouched: timer, flags, moves and cues as they were. */
    twostate predicate RoundKept()
      reads this
    {
      && moveTimer == old(moveTimer) && p1Hit == old(p1Hit) && p2Hit == old(p2Hit) && waiting == old(waiting)
      && p1Move == old(p1Move) && p2Move == old(p2Move) && p1Cue == old(p1Cue) && p2Cue == old(p2Cue)
    }

    /**
     * The keydown handler.  Space starts a game when none was started or
     * the last one is over, and otherwise pauses or resumes.  Any other key
     * counts only in a running round that is not paused and not waiting,
     * and then for at most one player.
     */
    method KeyDown(k: string, m1: nat, m2: nat)
      requires Valid() && m1 < 4 && m2 < 4
      modifies this
      ensures Valid()
      ensures k == " " && (!old(gameStarted) || !old(gameRunning)) ==>
        gameStarted && gameRunning && !isPaused && score == 0 && p1Health == StartHealth && p2Health == StartHealth
        && monsterHealth == MonsterStartHealth && pending == old(pending)
        && moveTimer == 0 && moveInterval == StartInterval && arrowSpeed == StartArrowSpeed
        && p1Move == Some(Moves[m1]) && p2Move == Some(Moves[m2]) && !p1Hit && !p2Hit && !waiting
        && p1Cue == Some(Cue(-50.0, P1Target, false)) && p2Cue == Some(Cue(CanvasWidth + 50.0, P2Target, false))
      ensures k == " " && old(gameStarted) && old(gameRunning) ==>
        && isPaused == !old(isPaused) && gameRunning && gameStarted && RoundKept()
        && score == old(score) && pending == old(pending)
        && p1Health == old(p1Health) && p2Health == old(p2Health) && monsterHealth == old(monsterHealth)
        && moveInterval == old(moveInterval) && arrowSpeed == old(arrowSpeed)
      ensures k != " " && (!old(gameRunning) || old(waiting) || old(isPaused)) ==> unchanged(this)
      ensures k != " " && old(gameRunning) && !old(waiting) && !old(isPaused) ==>
        var p1 := PressP1(k, old(p1Move), old(p1Hit));
        var p2 := PressP2(k, old(p2Move), old(p2Hit));
        && (p1 == Ignored && p2 == Ignored ==> unchanged(this))
        && (p1 != Ignored ==> (p1Hit == (p1 == Correct) && p2Hit == old(p2Hit)
              && JointHitOrNot(old(pending) + Penalty(P1, p1, Arrived(old(p1Cue))), old(monsterHealth), old(score), old(moveInterval), old(arrowSpeed))))
        && (p2 != Ignored ==> (p2Hit == (p2 == Correct) && p1Hit == old(p1Hit)
              && JointHitOrNot(old(pending) + Penalty(P2, p2, Arrived(old(p2Cue))), old(monsterHealth), old(score), old(moveInterval), old(arrowSpeed))))
        && p1Health == old(p1Health) && p2Health == old(p2Health)
        && p1Move == old(p1Move) && p2Move == old(p2Move) && p1Cue == old(p1Cue) && p2Cue == old(p2Cue)
        && moveTimer == old(moveTimer) && isPaused == old(isPaused) && gameStarted == old(gameStarted)
    {
      if k == " " && !gameStarted {
        StartGame(m1, m2);
        return;
      }
      if k == " " && !gameRunning && gameStarted {
        StartGame(m1, m2);
        return;
      }
      if k == " " && gameRunning {
        isPaused := !isPaused;
        return;
      }
      if !gameRunning || waiting || isPaused {
        return;
      }
      OneKeyOnePlayer(k, p1Move, p1Hit, p2Move, p2Hit);
      if PressP1(k, p1Move, p1Hit) != Ignored {
        PressOne(k);
      } else {
        PressTwo(k);
      }
    }

    /** One tick of both cues. */
    method MoveCues()
      modifies this`p1Cue, this`p2Cue
      ensures p1Cue == TickRight(old(p1Cue), arrowSpeed) && p2Cue == TickLeft(old(p2Cue), arrowSpeed)
    {
      if p1Cue.Some? {
        var c := p1Cue.value;
        var x := c.x + arrowSpeed;
        var arrived := c.arrived;
        if x >= c.targetX {
          x := c.targetX;
          arrived := true;
        }
        p1Cue := Some(Cue(x, c.targetX, arrived));
        if x > CanvasWidth + 100.0 {
          p1Cue := None;
        }
      }
      if p2Cue.Some? {
        var c := p2Cue.value;
        var x := c.x - arrowSpeed;
        var arrived := c.arrived;
        if x <= c.targetX {
          x := c.targetX;
          arrived := true;
        }
        p2Cue := Some(Cue(x, c.targetX, arrived));
        if x < -100.0 {
          p2Cue := None;
        }
      }
    }

    /**
     * The timeout step of `update`: once the timer reaches the interval
     * outside a joint hit, each player who has not hit loses 10, and a
     * game still running starts the next round.
     */
    method Timeout(m1: nat, m2: nat)
      requires Valid() && m1 < 4 && m2 < 4
      modifies this`p1Health, this`p2Health, this`gameRunning, this`moveTimer
      modifies this`p1Move, this`p2Move, this`p1Cue, this`p2Cue, this`p1Hit, this`p2Hit, this`waiting
      ensures Valid()
      ensures !(old(moveTimer) >= old(moveInterval) && !old(waiting)) ==> unchanged(this)
      ensures old(moveTimer) >= old(moveInterval) && !old(waiting) ==>
        && p1Health == old(p1Health) - (if old(p1Hit) then 0 else 10)
        && p2Health == old(p2Health) - (if old(p2Hit) then 0 else 10)
        && gameRunning == (old(gameRunning) && p1Health > 0 && p2Health > 0)
        && (gameRunning ==> (moveTimer == 0 && !p1Hit && !p2Hit && !waiting
              && p1Move == Some(Moves[m1]) && p2Move == Some(Moves[m2])
              && p1Cue == Some(Cue(-50.0, P1Target, false)) && p2Cue == Some(Cue(CanvasWidth + 50.0, P2Target, false))))
        && (!gameRunning ==> (moveTimer == old(moveTimer) && p1Hit == old(p1Hit) && p2Hit == old(p2Hit)
              && p1Move == old(p1Move) && p2Move == old(p2Move) && p1Cue == old(p1Cue) && p2Cue == old(p2Cue)))
        && score == old(score) && monsterHealth == old(monsterHealth) && pending == old(pending)
        && moveInterval == old(moveInterval) && arrowSpeed == old(arrowSpeed)
    {
      if moveTimer >= moveInterval && !waiting {
        if !p1Hit {
          p1Health := p1Health - 10;
        }
        if !p2Hit {
          p2Health := p2Health - 10;
        }
        CheckGameOver();
        if gameRunning {
          SpawnNewMoves(m1, m2);
          moveTimer := 0;
        }
      }
    }

    /**
     * `update`, one animation frame: nothing unless the game runs and is not
     * paused; then the move timer counts the frame, the cues move, and the
     * round may time out.
     */
    method Update(m1: nat, m2: nat)
      requires Valid() && m1 < 4 && m2 < 4
      modifies this
      ensures Valid()
      ensures !old(gameRunning) || old(isPaused) ==> unchanged(this)
      ensures old(gameRunning) && !old(isPaused) ==>
        var timedOut := old(moveTimer) + 1 >= old(moveInterval) && !old(waiting);
        && (timedOut ==>
              && p1Health == old(p1Health) - (if old(p1Hit) then 0 else 10)
              && p2Health == old(p2Health) - (if old(p2Hit) then 0 else 10)
              && gameRunning == (p1Health > 0 && p2Health > 0)
              && (gameRunning ==> FreshRound(m1, m2)))
        && (!timedOut || !gameRunning ==>
              && moveTimer == old(moveTimer) + 1 && p1Hit == old(p1Hit) && p2Hit == old(p2Hit) && waiting == old(waiting)
              && p1Move == old(p1Move) && p2Move == old(p2Move)
              && p1Cue == TickRight(old(p1Cue), old(arrowSpeed)) && p2Cue == TickLeft(old(p2Cue), old(arrowSpeed)))
        && (!timedOut ==> p1Health == old(p1Health) && p2Health == old(p2Health) && gameRunning)
        && isPaused == old(isPaused) && gameStarted == old(gameStarted)
        && moveInterval == old(moveInterval) && arrowSpeed == old(arrowSpeed)
        && score == old(score) && monsterHealth == old(monsterHealth) && pending == old(pending)
    {
      if !gameRunning || isPaused {
        return;
      }
      moveTimer := moveTimer + 1;
      MoveCues();
      assert Valid();
      Timeout(m1, m2);
    }

    /**
     * One scheduled effect happens, whatever the game state: a pending
     * damage takes 20 from its player without any game-over check; the
     * monster check ends the game if the monster is at or below zero and
     * otherwise, if the game still runs, starts the next round.
     */
    method Fire(i: nat, m1: nat, m2: nat)
      requires Valid() && i < |pending| && m1 < 4 && m2 < 4
      modifies this
      ensures Valid()
      ensures pending == old(pending[..i] + pending[i + 1..])
      ensures old(pending[i]) == Damage(P1) ==>
        p1Health == old(p1Health) - 20 && p2Health == old(p2Health) && gameRunning == old(gameRunning) && RoundKept()
      ensures old(pending[i]) == Damage(P2) ==>
        p2Health == old(p2Health) - 20 && p1Health == old(p1Health) && gameRunning == old(gameRunning) && RoundKept()
      ensures old(pending[i]) == MonsterCheck ==>
        && p1Health == old(p1Health) && p2Health == old(p2Health)
        && gameRunning == (old(gameRunning) && old(monsterHealth) > 0)
        && (gameRunning ==> FreshRound(m1, m2))
        && (!gameRunning ==> RoundKept())
      ensures score == old(score) && monsterHealth == old(monsterHealth)
      ensures moveInterval == old(moveInterval) && arrowSpeed == old(arrowSpeed)
      ensures isPaused == old(isPaused) && gameStarted == old(gameStarted)
    {
      var e := pending[i];
      pending := pending[..i] + pending[i + 1..];
      match e
      case Damage(who) =>
        if who == P1 {
          p1Health := p1Health - 20;
        } else {
          p2Health := p2Health - 20;
        }
      case MonsterCheck =>
        if monsterHealth <= 0 {
          gameRunning := false;
          return;
        }
        if gameRunning {
          SpawnNewMoves(m1, m2);
          moveTimer := 0;
        }
    }
  }

  /**
   * A whole round ending in a joint hit: from a fresh game, both cues run
   * for 80 frames at the starting speed and arrive, then both players press
   * their moves.  The monster has lost 40, the score is 10, only the monster
   * check is scheduled and nobody was hurt.
   */
  method JointHitRound(m1: nat, m2: nat, n1: nat, n2: nat) returns (b: Bout)
    requires m1 < 4 && m2 < 4 && n1 < 4 && n2 < 4
    ensures fresh(b) && b.Valid()
    ensures b.gameRunning && b.score == 10 && b.monsterHealth == MonsterStartHealth - 40
    ensures b.p1Health == StartHealth && b.p2Health == StartHealth
    ensures b.waiting && b.pending == [MonsterCheck]
  {
    b := new Bout();
    b.KeyDown(" ", m1, m2);
    AwaitCues(b, n1, n2);
    P1CaseInsensitive(Moves[m1], P1Key(Moves[m1]));
    b.KeyDown(P1Key(Moves[m1]), n1, n2);
    b.KeyDown(P2Key(Moves[m2]), n1, n2);
  }

  /** The first 80 frames of a fresh round at the starting speed: both cues arrive and nothing else happens. */
  method AwaitCues(b: Bout, n1: nat, n2: nat)
    requires n1 < 4 && n2 < 4
    requires b.Valid() && b.gameRunning && !b.isPaused && !b.waiting && !b.p1Hit && !b.p2Hit
    requires b.moveTimer == 0 && b.moveInterval == StartInterval && b.arrowSpeed == StartArrowSpeed
    requires b.p1Cue == Some(Cue(-50.0, P1Target, false)) && b.p2Cue == Some(Cue(CanvasWidth + 50.0, P2Target, false))
    modifies b
    ensures b.Valid() && b.gameRunning && b.gameStarted == old(b.gameStarted) && !b.isPaused && !b.waiting && !b.p1Hit && !b.p2Hit
    ensures b.moveTimer == 80 && b.moveInterval == StartInterval && b.arrowSpeed == StartArrowSpeed
    ensures b.p1Cue == Some(Cue(P1Target, P1Target, true)) && b.p2Cue == Some(Cue(P2Target, P2Target, true))
    ensures b.p1Move == old(b.p1Move) && b.p2Move == old(b.p2Move)
    ensures b.p1Health == old(b.p1Health) && b.p2Health == old(b.p2Health) && b.score == old(b.score)
    ensures b.monsterHealth == old(b.monsterHealth) && b.pending == old(b.pending)
  {
    var t := 0;
    while t < 80
      invariant 0 <= t <= 80
      invariant b.Valid() && b.gameRunning && b.gameStarted == old(b.gameStarted) && !b.isPaused && !b.waiting && !b.p1Hit && !b.p2Hit
      invariant b.moveTimer == t && b.moveInterval == StartInterval && b.arrowSpeed == StartArrowSpeed
      invariant b.p1Move == old(b.p1Move) && b.p2Move == old(b.p2Move)
      invariant b.p1Cue == Some(if t < 80 then Cue(-50.0 + 3.0 * (t as real), P1Target, false) else Cue(P1Target, P1Target, true))
      invariant b.p2Cue == Some(if t < 80 then Cue(850.0 - 3.0 * (t as real), P2Target, false) else Cue(P2Target, P2Target, true))
      invariant b.p1Health == old(b.p1Health) && b.p2Health == old(b.p2Health) && b.score == old(b.score)
      invariant b.monsterHealth == old(b.monsterHealth) && b.pending == old(b.pending)
    {
      b.Update(n1, n2);
      t := t + 1;
    }
  }
}
