/**
 * The component declarations at the head of component_template.rs: one
 * constructor per component struct, and the matching `ComponentType` tag.
 * The sixteen components no modelled system touches are grouped under
 * `Other`, with their tags under `tOther`.
 * An entity holds at most one component of each type; it is modelled as a
 * map from the tag to the component, an absent key standing for `None`.
 * The src/ecm.rs store and its systems use the same components.
 */
module ComponentKinds {
  import opened Base

  datatype Side = Player | Computer

  datatype MonsterKind = Anxiety | Depression | Hunger | Voices | Shadows

  datatype Repetitions = Infinite | Count(times: int)

  datatype Behaviour = Individual | Pack

  datatype AiState = Idle | Aggressive

  datatype Color = Color(r: int, g: int, b: int)

  datatype Attack = Kill | Stun(stunDuration: int) | Panic(panicDuration: int) | ModifyAttributes

  /** The components none of the modelled systems reads or writes, kept apart so that reasoning about the others
      need not range over them. Floating-point fields are modelled as reals; no arithmetic is done on them here. */
  datatype OtherComponent =
    | AI(behaviour: Behaviour, state: AiState)
    | AcceptsUserInput
    | Addiction(tolerance: int, dropPerTurn: int, lastTurn: int)
    | AnxietyKillCounter(count: int, threshold: int)
    | AttackTarget(target: int)
    | AttackType(attack: Attack)
    | AttributeModifier(stateOfMind: int, will: int)
    | Attributes(stateOfMind: int, will: int)
    | Exploration(radius: int)
    | Explored
    | FadeColor(from: Color, to: Color, durationS: real, repetitions: Repetitions)
    | Background
    | DeathTile(glyph: char, color: Color)
    | Dose(toleranceModifier: int, resistRadius: int)
    | ExplosionEffect(radius: int)
    | Monster(kind: MonsterKind)

  /** Every component struct: the eleven the systems use directly, and the rest under `Other`. */
  datatype Component =
    | Other(other: OtherComponent)
    | FadeOut(to: Color, durationS: real)
    | FadingOut
    | ColorAnimation(color: Color, progress: real, forward: bool)
    | Bump(bumpee: int)
    | Destination(x: int, y: int)
    | Panicking(turn: int, duration: int)
    | Position(x: int, y: int)
    | Solid
    | Stunned(turn: int, duration: int)
    | Tile(level: nat, glyph: char, color: Color)
    | Turn(side: Side, ap: int, maxAp: int, spentThisTick: int)

  datatype OtherType =
    | tAI | tAcceptsUserInput | tAddiction | tAnxietyKillCounter | tAttackTarget | tAttackType
    | tAttributeModifier | tAttributes | tExploration | tExplored | tFadeColor
    | tBackground | tDeathTile | tDose | tExplosionEffect | tMonster

  datatype ComponentType =
    | tOther(otherType: OtherType)
    | tFadeOut | tFadingOut | tColorAnimation | tBump | tDestination
    | tPanicking | tPosition | tSolid | tStunned | tTile | tTurn

  function OtherTypeOf(c: OtherComponent): OtherType
  {
    match c
    case AI(_, _) => tAI
    case AcceptsUserInput => tAcceptsUserInput
    case Addiction(_, _, _) => tAddiction
    case AnxietyKillCounter(_, _) => tAnxietyKillCounter
    case AttackTarget(_) => tAttackTarget
    case AttackType(_) => tAttackType
    case AttributeModifier(_, _) => tAttributeModifier
    case Attributes(_, _) => tAttributes
    case Exploration(_) => tExploration
    case Explored => tExplored
    case FadeColor(_, _, _, _) => tFadeColor
    case Background => tBackground
    case DeathTile(_, _) => tDeathTile
    case Dose(_, _) => tDose
    case ExplosionEffect(_) => tExplosionEffect
    case Monster(_) => tMonster
  }

  function TypeOf(c: Component): ComponentType
  {
    match c
    case Other(o) => tOther(OtherTypeOf(o))
    case FadeOut(_, _) => tFadeOut
    case FadingOut => tFadingOut
    case ColorAnimation(_, _, _) => tColorAnimation
    case Bump(_) => tBump
    case Destination(_, _) => tDestination
    case Panicking(_, _) => tPanicking
    case Position(_, _) => tPosition
    case Solid => tSolid
    case Stunned(_, _) => tStunned
    case Tile(_, _, _) => tTile
    case Turn(_, _, _, _) => tTurn
  }

  ghost predicate WellKinded(parts: map<ComponentType, Component>)
  {
    forall t :: t in parts ==> TypeOf(parts[t]) == t
  }

  /** An entity: at most one component per type, stored under its own tag. */
  type Entity = parts: map<ComponentType, Component> | WellKinded(parts) witness map[]

  /** The cache key of an entity's Position component, if it has one. */
  function PositionKey(e: Entity): (k: Option<(int, int)>)
    ensures WellKinded(e) ==> (k.Some? <==> tPosition in e)
    ensures k.Some? ==> tPosition in e && e[tPosition] == Position(k.value.0, k.value.1)
  {
    if tPosition in e && e[tPosition].Position? then Some((e[tPosition].x, e[tPosition].y)) else None
  }

  /** `Turn::spend_ap`: the AP moves from `ap` to `spent_this_tick`; side and maximum are kept. */
  function SpendAp(turn: Component, spend: int): (r: Component)
    requires turn.Turn? && spend <= turn.ap
    ensures r.Turn? && r.side == turn.side && r.maxAp == turn.maxAp
    ensures r.ap + r.spentThisTick == turn.ap + turn.spentThisTick
    ensures r.ap >= 0 && r.ap == turn.ap - spend
  {
    turn.(ap := turn.ap - spend, spentThisTick := turn.spentThisTick + spend)
  }

  /** `Stunned::remaining` and `Panicking::remaining`: what is left of the effect, never negative. */
  function Remaining(effect: Component, currentTurn: int): (r: int)
    requires effect.Stunned? || effect.Panicking?
    ensures r >= 0
    ensures r == 0 <==> currentTurn >= effect.turn + effect.duration
    ensures r > 0 ==> currentTurn + r == effect.turn + effect.duration
  {
    var left := effect.turn + effect.duration - currentTurn;
    if left >= 0 then left else 0
  }

  /** The effect wears off monotonically as turns pass. */
  lemma RemainingMonotone(effect: Component, t1: int, t2: int)
    requires effect.Stunned? || effect.Panicking?
    requires t1 <= t2
    ensures Remaining(effect, t2) <= Remaining(effect, t1)
    ensures Remaining(effect, t1) - Remaining(effect, t2) <= t2 - t1
  {
  }
}
