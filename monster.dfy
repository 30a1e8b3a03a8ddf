// src/monster.rs: a monster of the level-based generation, with its AP kept
// in the object and its action chosen from the tile distance to the player.
// The random neighbour cell `act` may walk to is given by the caller.

module Monster {
  import opened Base
  import opened Point

  datatype Kind = Anxiety | Depression | Hunger | Shadows | Voices

  datatype Damage = Death | AttributeLoss(will: int, stateOfMind: int) | Panic(turns: int) | Stun(turns: int)

  datatype Action = Move(to: Point) | Attack(target: Point, damage: Damage)

  /** `act` on a dead monster panics. */
  datatype Dead = DeadMonster

  /** `attack_damage`: what each kind does to the player. */
  function AttackDamage(kind: Kind): (d: Damage)
    ensures d.Death? <==> kind == Depression
    ensures d.AttributeLoss? <==> kind == Anxiety || kind == Hunger
    ensures kind == Anxiety ==> d == AttributeLoss(1, 0)
    ensures kind == Hunger ==> d == AttributeLoss(0, 20)
    ensures d.Panic? <==> kind == Shadows
    ensures d.Stun? <==> kind == Voices
    ensures d.Panic? || d.Stun? ==> d.turns == 4
  {
    match kind
    case Anxiety => AttributeLoss(1, 0)
    case Depression => Death
    case Hunger => AttributeLoss(0, 20)
    case Shadows => Panic(4)
    case Voices => Stun(4)
  }

  class Monster {
    var id: nat
    const kind: Kind
    var position: Point
    var dead: bool
    var dieAfterAttack: bool
    var maxAp: int
    var ap: int

    /** `new`: only the hallucinations (Shadows, Voices) vanish after attacking, and only Depression gets two AP a turn. */
    constructor(kind: Kind, position: Point)
      ensures this.kind == kind && this.position == position
      ensures dieAfterAttack <==> kind == Shadows || kind == Voices
      ensures maxAp == (if kind == Depression then 2 else 1)
      ensures id == 0 && !dead && ap == 0
    {
      this.kind := kind;
      this.position := position;
      id := 0;
      dead := false;
      dieAfterAttack := kind == Shadows || kind == Voices;
      maxAp := if kind == Depression then 2 else 1;
      ap := 0;
    }

    /** `set_id` */
    method SetId(id: nat)
      modifies this`id
      ensures this.id == id
    {
      this.id := id;
    }

    /** `act`: attack the adjacent player, chase one within four tiles (also from the player's own cell), otherwise
        wander to `neighbour`. */
    function Act(playerPos: Point, neighbour: Point): (r: Result<Action, Dead>)
      reads this
      ensures r.Err? <==> dead
      ensures r.Ok? && r.value.Attack? <==> !dead && TileDistance(position, playerPos) == 1
      ensures r.Ok? && r.value.Attack? ==> r.value == Attack(playerPos, AttackDamage(kind))
      ensures !dead && TileDistance(position, playerPos) != 1 && TileDistance(position, playerPos) < 5 ==> r == Ok(Move(playerPos))
      ensures !dead && TileDistance(position, playerPos) >= 5 ==> r == Ok(Move(neighbour))
    {
      if dead then Err(DeadMonster)
      else
        var distance := TileDistance(position, playerPos);
        if distance == 1 then Ok(Attack(playerPos, AttackDamage(kind)))
        else if distance < 5 then Ok(Move(playerPos))
        else Ok(Move(neighbour))
    }

    /** `spend_ap`: asserts that enough AP is left. */
    method SpendAp(count: int)
      requires count <= ap
      modifies this`ap
      ensures ap == old(ap) - count && ap >= 0
    {
      ap := ap - count;
    }

    /** `has_ap` */
    predicate HasAp(count: int)
      reads this
    {
      ap >= count
    }

    /** `new_turn`: the AP is refilled to the maximum. */
    method NewTurn()
      modifies this`ap
      ensures ap == maxAp
    {
      ap := maxAp;
    }
  }

  /** Distinct kinds deal distinct damage: the kind can be read back from its attack. */
  lemma AttackDamageInjective(a: Kind, b: Kind)
    ensures AttackDamage(a) == AttackDamage(b) <==> a == b
  {
  }

  /** A new monster holds no AP until its first `new_turn`; after it, exactly Depression can act twice. */
  method FirstTurn(kind: Kind, position: Point) returns (m: Monster)
    ensures m.HasAp(1)
    ensures m.HasAp(2) <==> kind == Depression
    ensures m.ap == m.maxAp && !m.dead && m.kind == kind
  {
    m := new Monster(kind, position);
    assert !m.HasAp(1);
    m.NewTurn();
  }
}
