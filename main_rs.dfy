// The game loop of src/main.rs that is not drawing: the countdown timer and
// the screen fade built on it, the player's command turned into an action,
// the reward for killing anxieties, the monsters' turn and the switching of
// sides. Durations are whole milliseconds. The player is a small class with
// the fields this file reads and writes; the level, the pathfinder and the
// random neighbour cells are parameters.

module MainRs {
  import opened Base
  import P = Point
  import M = Monster
  import GS = GameStateRs
  import opened Grid
  import R = RangedInt

  // ------------------------------------------------------------------ timer

  /** The time left after `dt` more has passed: never below zero. */
  function Remaining(current: int, dt: int): (r: int)
    ensures r == 0 <==> dt >= current
    ensures r != 0 ==> r == current - dt
    ensures dt >= 0 && current >= 0 ==> 0 <= r <= current
  {
    if dt > current then 0 else current - dt
  }

  /** Time passing in two steps leaves what one step of their sum leaves. */
  lemma RemainingCompose(current: int, a: int, b: int)
    requires a >= 0 && b >= 0
    ensures Remaining(Remaining(current, a), b) == Remaining(current, a + b)
  {
  }

  class Timer {
    const max: int
    var current: int

    constructor(duration: int)
      ensures max == duration && current == duration
    {
      max := duration;
      current := duration;
    }

    /** `update`: counts down by `dt`, stopping at zero. */
    method Update(dt: int)
      modifies this`current
      ensures current == Remaining(old(current), dt)
    {
      if dt > current {
        current := 0;
      } else {
        current := current - dt;
      }
    }

    predicate Finished()
      reads this
    {
      current == 0
    }

    /** `reset`: the full duration again. */
    method Reset()
      modifies this`current
      ensures current == max
    {
      current := max;
    }
  }

  // ------------------------------------------------------------ screen fade

  datatype FadePhase = FadeOut | Wait | FadeIn | Done

  /** The phase after a finished one. */
  function NextPhase(p: FadePhase): (q: FadePhase)
    ensures p != Done ==> q != p
    ensures q == Done <==> p == FadeIn || p == Done
  {
    match p
    case FadeOut => Wait
    case Wait => FadeIn
    case FadeIn => Done
    case Done => Done
  }

  /** How far along the fade a phase is. */
  function Rank(p: FadePhase): (n: nat)
    ensures n <= 3
  {
    match p
    case FadeOut => 0
    case Wait => 1
    case FadeIn => 2
    case Done => 3
  }

  /** The phases come in order, one at a time, and end at Done. */
  lemma NextPhaseAdvances(p: FadePhase)
    ensures Rank(NextPhase(p)) == if p == Done then 3 else Rank(p) + 1
  {
  }

  /** Every phase reaches Done after at most three finished timers. */
  lemma {:induction false} PhasesEnd(p: FadePhase)
    ensures NextPhase(NextPhase(NextPhase(p))) == Done
  {
    NextPhaseAdvances(p);
    NextPhaseAdvances(NextPhase(p));
    NextPhaseAdvances(NextPhase(NextPhase(p)));
  }

  class ScreenFadeAnimation {
    const fadeOutTime: int
    const waitTime: int
    const fadeInTime: int
    var timer: Timer
    var phase: FadePhase

    /** `new`: fading out, on a timer of the fade-out time. */
    constructor(fadeOut: int, wait: int, fadeIn: int)
      ensures fadeOutTime == fadeOut && waitTime == wait && fadeInTime == fadeIn
      ensures fresh(timer) && timer.max == fadeOut && timer.current == fadeOut && phase == FadeOut
    {
      fadeOutTime := fadeOut;
      waitTime := wait;
      fadeInTime := fadeIn;
      timer := new Timer(fadeOut);
      phase := FadeOut;
    }

    /** `update`: the timer runs down; once it has finished the phase moves on by one, and entering Wait or FadeIn
        starts a timer of that phase's length. */
    method Update(dt: int)
      modifies this`timer, this`phase, timer`current
      ensures phase == old(phase) || phase == NextPhase(old(phase))
      ensures phase != old(phase) <==> old(phase) != Done && Remaining(old(timer.current), dt) == 0
      ensures old(phase) == Done ==> phase == Done
      ensures phase == old(phase) || old(phase) == FadeIn ==>
        timer == old(timer) && timer.current == Remaining(old(timer.current), dt)
      ensures phase != old(phase) && phase == Wait ==> fresh(timer) && timer.max == waitTime && timer.current == waitTime
      ensures phase != old(phase) && phase == FadeIn ==> fresh(timer) && timer.max == fadeInTime && timer.current == fadeInTime
    {
      timer.Update(dt);
      if timer.Finished() {
        match phase
        case FadeOut =>
          timer := new Timer(waitTime);
          phase := Wait;
        case Wait =>
          timer := new Timer(fadeInTime);
          phase := FadeIn;
        case FadeIn =>
          phase := Done;
        case Done =>
      }
    }
  }

  /** `within_screen_bounds`: exactly the cells that have a place in the row-major grid of the screen. */
  predicate WithinScreenBounds(p: (int, int), screen: (int, int))
  {
    0 <= p.0 && 0 <= p.1 && p.0 < screen.0 && p.1 < screen.1
  }

  /** A point is within the screen exactly when its column is and its row-major index is a cell of the screen. */
  lemma WithinScreenBoundsIndex(p: (int, int), screen: (int, int))
    requires screen.0 > 0
    ensures WithinScreenBounds(p, screen) <==>
      0 <= p.0 < screen.0 && 0 <= p.1 * screen.0 + p.0 < screen.0 * screen.1
  {
    var (x, y) := p;
    var (w, h) := screen;
    if 0 <= x < w {
      if y < 0 {
        MulMonotone(y, -1, w);
      } else if y < h {
        MulMonotone(y, h - 1, w);
      } else {
        MulMonotone(h, y, w);
      }
    }
  }

  /** The intoxication levels `exploration_radius` distinguishes, from the least to the most intoxicated. */
  datatype IntoxicationState = Exhausted | DeliriumTremens | Withdrawal | Sober | High | VeryHigh | Overdosed

  function Level(s: IntoxicationState): nat
  {
    match s
    case Exhausted => 0
    case DeliriumTremens => 1
    case Withdrawal => 2
    case Sober => 3
    case High => 4
    case VeryHigh => 5
    case Overdosed => 6
  }

  /** `exploration_radius`: how far the player sees; 6 sober, less in withdrawal, more when high. */
  function ExplorationRadius(s: IntoxicationState): (r: int)
    ensures 4 <= r <= 8
    ensures s == Sober ==> r == 6
    ensures Level(s) < Level(Sober) ==> r < 6
    ensures Level(s) > Level(Sober) ==> r > 6
  {
    match s
    case Exhausted => 4
    case DeliriumTremens => 4
    case Withdrawal => 5
    case Sober => 6
    case High => 7
    case VeryHigh => 8
    case Overdosed => 8
  }

  /** The more intoxicated, the farther the player sees. */
  lemma ExplorationRadiusMonotone(a: IntoxicationState, b: IntoxicationState)
    requires Level(a) <= Level(b)
    ensures ExplorationRadius(a) <= ExplorationRadius(b)
  {
  }

  // --------------------------------------------------------- the player's turn

  /** The `Command` of this generation, which adds eating to the eight steps. */
  datatype PlayerCommand = N | S | W | E | NW | NE | SW | SE | Eat

  datatype Action = Move(to: (int, int)) | Eat

  /** The action a command asks for, from the player's position. */
  function CommandAction(c: PlayerCommand, pos: (int, int)): (a: Action)
    ensures a.Eat? <==> c == PlayerCommand.Eat
    ensures a.Move? ==> Abs(a.to.0 - pos.0) <= 1 && Abs(a.to.1 - pos.1) <= 1 && a.to != pos
    ensures a.Move? ==> (a.to.1 == pos.1 - 1 <==> c in {N, NW, NE}) && (a.to.1 == pos.1 + 1 <==> c in {S, SW, SE})
    ensures a.Move? ==> (a.to.0 == pos.0 - 1 <==> c in {W, NW, SW}) && (a.to.0 == pos.0 + 1 <==> c in {E, NE, SE})
  {
    var (x, y) := pos;
    match c
    case N => Move((x, y - 1))
    case S => Move((x, y + 1))
    case W => Move((x - 1, y))
    case E => Move((x + 1, y))
    case NW => Move((x - 1, y - 1))
    case NE => Move((x + 1, y - 1))
    case SW => Move((x - 1, y + 1))
    case SE => Move((x + 1, y + 1))
    case Eat => Action.Eat
  }

  /** Distinct commands ask for distinct actions. */
  lemma CommandActionInjective(a: PlayerCommand, b: PlayerCommand, pos: (int, int))
    ensures CommandAction(a, pos) == CommandAction(b, pos) <==> a == b
  {
  }

  /** How long a path to an irresistible dose may be for the player to be pulled along it. */
  function PullRadius(irresistible: int, will: int): (r: int)
    ensures r >= 0
    ensures r == 0 <==> will >= irresistible
    ensures r > 0 ==> r == irresistible - will
  {
    Max(irresistible - will, 0)
  }

  /** More will, less pull. */
  lemma PullRadiusAntitone(irresistible: int, w1: int, w2: int)
    requires w1 <= w2
    ensures PullRadius(irresistible, w2) <= PullRadius(irresistible, w1)
  {
  }

  /** The action `process_player` carries out. A stun holds the player in place; failing that, panic sends it to
      `panicStep` (the random neighbour); failing that, a dose within five tiles whose path (of `pathLength` steps,
      first step `pathStep`) fits the pull radius draws it one step along; otherwise the command stands. */
  function PlayerAction(c: PlayerCommand, pos: (int, int), stun: int, panic: int, panicStep: (int, int),
                        dose: Option<int>, will: int, pathLength: int, pathStep: Option<(int, int)>): (a: Action)
    ensures stun > 0 ==> a == Move(pos)
    ensures stun <= 0 && panic > 0 ==> a == Move(panicStep)
    ensures a != CommandAction(c, pos) ==> stun > 0 || panic > 0 || (dose.Some? && pathStep.Some?)
    ensures stun <= 0 && panic <= 0 && dose.Some? && pathLength > PullRadius(dose.value, will) ==> a == CommandAction(c, pos)
    ensures stun <= 0 && panic <= 0 && dose.Some? && pathLength <= PullRadius(dose.value, will) && pathStep.Some? ==>
      a == Move(pathStep.value)
  {
    if stun > 0 then Move(pos)
    else if panic > 0 then Move(panicStep)
    else if dose.Some? && pathLength <= PullRadius(dose.value, will) && pathStep.Some? then Move(pathStep.value)
    else CommandAction(c, pos)
  }

  /** A will at least as strong as the dose is irresistible resists every path that takes a step. */
  lemma {:induction false} WillResistsDose(c: PlayerCommand, pos: (int, int), panicStep: (int, int), irresistible: int,
                                          will: int, pathLength: int, pathStep: Option<(int, int)>)
    requires will >= irresistible && pathLength > 0
    ensures PlayerAction(c, pos, 0, 0, panicStep, Some(irresistible), will, pathLength, pathStep) == CommandAction(c, pos)
  {
    assert PullRadius(irresistible, will) == 0;
  }

  /** `set(0)` on the anxiety counter asserts that 0 lies within its bounds; it runs only once the counter reads 10
      after `add(1)`. */
  predicate CanReset(counter: R.Ranged)
  {
    R.Clamp(counter.val + 1, counter.min, counter.max) == 10 ==> counter.min <= 0
  }

  /** An anxiety kill counted on the two ranged fields: `add(1)` saturates at each field's maximum, and a counter
      that reads 10 afterwards buys one point of will and starts again from 0. */
  function AnxietyKilled(counter: R.Ranged, will: R.Ranged): (r: (R.Ranged, R.Ranged))
    requires CanReset(counter)
    ensures r.0.min == counter.min && r.0.max == counter.max && r.1.min == will.min && r.1.max == will.max
    ensures 0 <= counter.val < 10 ==> 0 <= r.0.val < 10
    ensures r.1.val == will.val || r.1.val == will.val + 1
    ensures r.1.val == will.val + 1 ==> r.0.val == 0
    ensures counter.max < 10 || will.val == will.max ==> r.1 == will
    ensures 0 <= counter.val < 10 <= counter.max && will.val < will.max ==>
      r.0.val + 10 * r.1.val == counter.val + 1 + 10 * will.val
  {
    var c := R.Add(counter, 1);
    if R.Deref(c) == 10 then (c.(val := 0), R.Add(will, 1)) else (c, will)
  }

  /** Counting `n` kills one at a time, starting from `counter` and `will`. */
  function AfterKills(n: nat, counter: R.Ranged, will: R.Ranged): (r: (R.Ranged, R.Ranged))
    requires counter.min <= 0
    ensures r.0.min == counter.min && r.0.max == counter.max && r.1.min == will.min && r.1.max == will.max
  {
    if n == 0 then (counter, will)
    else var (c, w) := AfterKills(n - 1, counter, will); AnxietyKilled(c, w)
  }

  /** With room for ten on the counter, `n` kills from an empty counter leave `n % 10` on it and add `n / 10` to the
      will, saturated at its maximum. */
  lemma {:induction false} AfterKillsIsDivision(n: nat, counter: R.Ranged, will: R.Ranged)
    requires counter.min <= 0 == counter.val && 10 <= counter.max
    ensures AfterKills(n, counter, will).0.val == n % 10
    ensures AfterKills(n, counter, will).1.val == R.Clamp(will.val + n / 10, will.min, will.max)
  {
    if n > 0 {
      AfterKillsIsDivision(n - 1, counter, will);
      var w := AfterKills(n - 1, counter, will).1;
      assert w.val == R.Clamp(will.val + (n - 1) / 10, will.min, will.max);
      if (n - 1) % 10 == 9 {
        assert n / 10 == (n - 1) / 10 + 1 && n % 10 == 0;
      } else {
        assert n / 10 == (n - 1) / 10 && n % 10 == (n - 1) % 10 + 1;
      }
    }
  }

  /** A counter whose maximum is below 10 never reads 10: it stops at its maximum and no kill buys any will. */
  lemma {:induction false} AfterKillsCapped(n: nat, counter: R.Ranged, will: R.Ranged)
    requires counter.min <= 0 == counter.val && counter.max < 10
    ensures AfterKills(n, counter, will).0.val == if n < counter.max then n else counter.max
    ensures AfterKills(n, counter, will).1 == will
  {
    if n > 0 {
      AfterKillsCapped(n - 1, counter, will);
    }
  }

  /** The fields of the player that this file reads and writes. `will` and `anxiety_counter` are `RangedInt`s whose
      bounds player.rs fixes; they are the constructor's arguments here. */
  class Player {
    var pos: (int, int)
    var ap: int
    const maxAp: int
    var will: R.Ranged
    var anxietyCounter: R.Ranged
    var alive: bool

    constructor(pos: (int, int), maxAp: int, will: R.Ranged, anxietyCounter: R.Ranged)
      ensures this.pos == pos && this.maxAp == maxAp && ap == maxAp && alive
      ensures this.will == will && this.anxietyCounter == anxietyCounter
    {
      this.pos := pos;
      this.maxAp := maxAp;
      ap := maxAp;
      this.will := will;
      this.anxietyCounter := anxietyCounter;
      alive := true;
    }

    predicate HasAp(n: int)
      reads this
    {
      ap >= n
    }

    method NewTurn()
      modifies this`ap
      ensures ap == maxAp
    {
      ap := maxAp;
    }
  }

  /** The player attacking the monster on the cell it moves to: one AP, the monster dies, and an anxiety counts
      towards the next point of will. */
  method AttackMonster(player: Player, monster: M.Monster)
    requires monster.kind == M.Anxiety ==> CanReset(player.anxietyCounter)
    modifies player`ap, player`will, player`anxietyCounter, monster`dead
    ensures player.ap == old(player.ap) - 1 && monster.dead
    ensures (player.anxietyCounter, player.will) ==
      if monster.kind == M.Anxiety then AnxietyKilled(old(player.anxietyCounter), old(player.will))
      else (old(player.anxietyCounter), old(player.will))
  {
    player.ap := player.ap - 1;
    monster.dead := true;
    if monster.kind == M.Anxiety {
      player.anxietyCounter := R.Add(player.anxietyCounter, 1);
      if R.Deref(player.anxietyCounter) == 10 {
        player.will := R.Add(player.will, 1);
        player.anxietyCounter := player.anxietyCounter.(val := 0);
      }
    }
  }

  // ------------------------------------------------------------ the monsters

  predicate Distinct(ms: seq<M.Monster>)
  {
    forall i, j :: 0 <= i < j < |ms| ==> ms[i] != ms[j]
  }

  /** Whether monster `i` takes part in a monsters' turn. */
  predicate Acts(m: M.Monster)
    reads m
  {
    !m.dead && m.HasAp(1)
  }

  /** `process_monsters`: every live monster with an AP acts once, towards the player or `neighbours[i]`; the act
      costs one AP, and a monster that dies after attacking does so. Moves along the map and the damage the player
      takes are not part of this model. */
  method ProcessMonsters(ms: seq<M.Monster>, player: Player, neighbours: seq<P.Point>)
    requires Distinct(ms) && |neighbours| == |ms|
    modifies ms`ap, ms`dead
    ensures !player.alive ==> forall i :: 0 <= i < |ms| ==> ms[i].ap == old(ms[i].ap) && ms[i].dead == old(ms[i].dead)
    ensures player.alive ==> forall i :: 0 <= i < |ms| ==>
      if old(!ms[i].dead && ms[i].ap >= 1) then
        var attacks := old(ms[i].Act(P.Point(player.pos.0, player.pos.1), neighbours[i])).value.Attack?;
        ms[i].ap == old(ms[i].ap) - 1 && ms[i].dead == (attacks && ms[i].dieAfterAttack)
      else ms[i].ap == old(ms[i].ap) && ms[i].dead == old(ms[i].dead)
  {
    if !player.alive {
      return;
    }
    var target := P.Point(player.pos.0, player.pos.1);
    var k := 0;
    while k < |ms|
      invariant 0 <= k <= |ms|
      invariant forall i :: 0 <= i < k ==>
        if old(!ms[i].dead && ms[i].ap >= 1) then
          var attacks := old(ms[i].Act(target, neighbours[i])).value.Attack?;
          ms[i].ap == old(ms[i].ap) - 1 && ms[i].dead == (attacks && ms[i].dieAfterAttack)
        else ms[i].ap == old(ms[i].ap) && ms[i].dead == old(ms[i].dead)
      invariant forall i :: k <= i < |ms| ==> ms[i].ap == old(ms[i].ap) && ms[i].dead == old(ms[i].dead)
    {
      var m := ms[k];
      if !m.dead && m.HasAp(1) {
        var action := m.Act(target, neighbours[k]);
        assert action == old(ms[k].Act(target, neighbours[k]));
        m.SpendAp(1);
        if action.value.Attack? && m.dieAfterAttack {
          m.dead := true;
        }
      }
      forall i | 0 <= i < |ms| && i != k
        ensures ms[i] != m
      {
        assert Distinct(ms);
      }
      k := k + 1;
    }
  }

  /** The end of the player's part of `update`: a player out of AP hands over to the monsters, refilling them. */
  method EndPlayerSide(side: GS.Side, player: Player, ms: seq<M.Monster>) returns (side': GS.Side)
    requires Distinct(ms)
    modifies ms`ap
    ensures side == GS.Player && !player.HasAp(1) ==>
      side' == GS.Computer && forall i :: 0 <= i < |ms| ==> ms[i].ap == ms[i].maxAp
    ensures !(side == GS.Player && !player.HasAp(1)) ==>
      side' == side && forall i :: 0 <= i < |ms| ==> ms[i].ap == old(ms[i].ap)
  {
    side' := side;
    if side == GS.Player && !player.HasAp(1) {
      side' := GS.Computer;
      var k := 0;
      while k < |ms|
        invariant 0 <= k <= |ms|
        invariant forall i :: 0 <= i < k ==> ms[i].ap == ms[i].maxAp
        invariant forall i :: k <= i < |ms| ==> ms[i].ap == old(ms[i].ap)
      {
        ms[k].NewTurn();
        forall i | 0 <= i < |ms| && i != k
          ensures ms[i] != ms[k]
        {
          assert Distinct(ms);
        }
        k := k + 1;
      }
    }
  }

  /** Whether every live monster is out of AP. */
  predicate AllSpent(ms: seq<M.Monster>)
    reads ms
  {
    forall i :: 0 <= i < |ms| && !ms[i].dead ==> !ms[i].HasAp(1)
  }

  /** The end of the monsters' part of `update`: once every live monster is out of AP, the player's turn begins. */
  method EndComputerSide(side: GS.Side, player: Player, ms: seq<M.Monster>) returns (side': GS.Side)
    modifies player`ap
    ensures side == GS.Computer && AllSpent(ms) ==> side' == GS.Player && player.ap == player.maxAp
    ensures !(side == GS.Computer && AllSpent(ms)) ==> side' == side && player.ap == old(player.ap)
  {
    side' := side;
    if side == GS.Computer {
      var spent := true;
      var k := 0;
      while k < |ms|
        invariant 0 <= k <= |ms|
        invariant spent <==> forall i :: 0 <= i < k && !ms[i].dead ==> !ms[i].HasAp(1)
      {
        spent := spent && (ms[k].dead || !ms[k].HasAp(1));
        k := k + 1;
      }
      if spent {
        side' := GS.Player;
        player.NewTurn();
      }
    }
  }

  /** The two side matches of `update` once the player has acted: the hand-over to the monsters happens in the same
      frame as their turn, which the `Monster.id` assert guards. */
  method SwitchSides(side: GS.Side, player: Player, ms: seq<M.Monster>, neighbours: seq<P.Point>)
    returns (side': GS.Side)
    requires Distinct(ms) && |neighbours| == |ms|
    requires forall i :: 0 <= i < |ms| ==> ms[i].id == i
    modifies ms`ap, ms`dead, player`ap
    ensures side' == GS.Player ==> side == GS.Player || player.ap == player.maxAp
    ensures side == GS.Player && old(player.HasAp(1)) ==>
      side' == GS.Player && unchanged(player)
      && forall i :: 0 <= i < |ms| ==> ms[i].ap == old(ms[i].ap) && ms[i].dead == old(ms[i].dead)
    ensures side' == GS.Computer ==> !AllSpent(ms)
  {
    side' := EndPlayerSide(side, player, ms);
    if side' == GS.Computer {
      ProcessMonsters(ms, player, neighbours);
      side' := EndComputerSide(side', player, ms);
    }
  }
}
