/** The characters of the dungeon game (game_model.py): heroes and monsters
    with integer combat statistics, the chance arithmetic that decides whether
    an attack lands, healing and the two attack rules.

    Python lets an object exist without an attribute its constructor never
    assigned; reading such an attribute raises AttributeError. Two attributes
    are in that situation (`health` of a Mage or an Archer, `accuracy` of a
    Monster), so they are `Option` fields here and every read of them can fail
    with `AttributeError`. */
module GameModel {

  datatype Option<T> = None | Some(value: T)

  /** The Python exceptions the modelled code can raise. */
  datatype PyError =
    | AttributeError(attribute: string)  // an attribute no constructor assigned
    | TypeError                          // an ordering comparison between a bound method and a float

  datatype Result<T> = Ok(value: T) | Err(error: PyError)

  /** The constructor that built a character; a Warrior overrides `attack`. */
  datatype Role = Warrior | Mage | Archer | Monster

  /** What `heal` may be handed: a healing potion with its effect, or anything else. */
  datatype Item = HealingPotion(effect: int) | OtherItem

  /** The attributes of one character object, as a value. */
  datatype Stats = Stats(
    role: Role,
    maxHealth: int,
    health: Option<int>,
    power: int,
    accuracy: Option<int>,
    defence: int,
    stealth: int)

  /** What each constructor leaves behind. The Mage and the Archer constructors
      never assign `health`; the Monster constructor never assigns `accuracy`. */
  const WarriorPreset: Stats := Stats(Role.Warrior, 100, Some(100), 20, Some(10), 20, 5)
  const MagePreset: Stats := Stats(Role.Mage, 75, None, 25, Some(15), 15, 10)
  const ArcherPreset: Stats := Stats(Role.Archer, 100, None, 15, Some(20), 10, 20)

  function MonsterPreset(maxHealth: int, defence: int, stealth: int, power: int): Stats
  {
    Stats(Role.Monster, maxHealth, Some(maxHealth), power, None, defence, stealth)
  }

  /** The values `random.randint` can draw for a Monster (both ends inclusive). */
  predicate InMonsterRanges(maxHealth: int, defence: int, stealth: int, power: int)
  {
    40 <= maxHealth <= 80 && 5 <= defence <= 9 && 5 <= stealth <= 9 && 5 <= power <= 15
  }

  /** A freshly constructed Monster. */
  predicate IsRolledMonster(m: Stats)
  {
    InMonsterRanges(m.maxHealth, m.defence, m.stealth, m.power) &&
    m == MonsterPreset(m.maxHealth, m.defence, m.stealth, m.power)
  }

  // ---------------------------------------------------------------------------
  // Chances (exact: the source divides integers with `/`)
  // ---------------------------------------------------------------------------

  /** `dodge_chance`: stealth times defence, over 100. */
  function DodgeChance(s: Stats): (d: real)
    ensures 100.0 * d == (s.stealth * s.defence) as real
  {
    (s.stealth * s.defence) as real / 100.0
  }

  /** `attack_chance`: one minus the enemy's dodge chance, times accuracy, over 10.
      Reading the attacker's accuracy fails for a Monster. */
  function AttackChance(attacker: Stats, enemy: Stats): (r: Result<real>)
    ensures r.Err? <==> attacker.accuracy.None?
    ensures r.Err? ==> r.error == AttributeError("_accuracy")
    ensures r.Ok? ==>
      1000.0 * r.value == ((100 - enemy.stealth * enemy.defence) * attacker.accuracy.value) as real
  {
    match attacker.accuracy
    case None => Err(AttributeError("_accuracy"))
    case Some(a) =>
      var chance := (1.0 - DodgeChance(enemy)) * a as real / 10.0;
      Ok(chance)
  }

  // ---------------------------------------------------------------------------
  // Healing and attacking, as functions from the old attributes to the new
  // ---------------------------------------------------------------------------

  /** `heal`: a healing potion raises health by its effect, capped at
      `maxHealth`; anything else is ignored. */
  function Healed(s: Stats, item: Item): (r: Result<Stats>)
    ensures item.OtherItem? ==> r == Ok(s)
    ensures item.HealingPotion? && s.health.None? ==> r == Err(AttributeError("health"))
    ensures item.HealingPotion? && s.health.Some? ==>
      r.Ok? && r.value == s.(health := r.value.health) && r.value.health.Some? &&
      r.value.health.value == Min(s.health.value + item.effect, s.maxHealth)
  {
    match item
    case OtherItem => Ok(s)
    case HealingPotion(effect) =>
      match s.health
      case None => Err(AttributeError("health"))
      case Some(h) =>
        if h + effect > s.maxHealth then Ok(s.(health := Some(s.maxHealth)))
        else Ok(s.(health := Some(h + effect)))
  }

  function Min(x: int, y: int): int
  {
    if x <= y then x else y
  }

  /** `enemy.health -= amount`: fails when the enemy has no health attribute. */
  function Damaged(enemy: Stats, amount: int): (r: Result<Stats>)
    ensures r.Err? <==> enemy.health.None?
    ensures r.Err? ==> r.error == AttributeError("health")
    ensures r.Ok? ==> r.value.health == Some(enemy.health.value - amount)
    ensures r.Ok? ==> r.value.(health := enemy.health) == enemy
  {
    match enemy.health
    case None => Err(AttributeError("health"))
    case Some(h) => Ok(enemy.(health := Some(h - amount)))
  }

  /** `Warrior.attack`: the enemy loses the warrior's power, whatever the chances. */
  function WarriorAttack(attacker: Stats, enemy: Stats): (r: Result<Stats>)
    ensures r.Err? <==> enemy.health.None?
    ensures r.Ok? ==> r.value.health == Some(enemy.health.value - attacker.power)
    ensures r.Ok? ==> r.value.(health := enemy.health) == enemy
  {
    Damaged(enemy, attacker.power)
  }

  /** `Character.attack` with the comparison the source intends: the enemy
      loses the attacker's power when the attack chance is above 0.5, and is
      left alone otherwise. In integers the chance is above 0.5 exactly when
      (100 - stealth * defence) * accuracy > 500. */
  function CharacterAttack(attacker: Stats, enemy: Stats): (r: Result<Stats>)
    ensures attacker.accuracy.None? ==> r == Err(AttributeError("_accuracy"))
    ensures attacker.accuracy.Some? ==>
      r == if (100 - enemy.stealth * enemy.defence) * attacker.accuracy.value > 500
           then Damaged(enemy, attacker.power)
           else Ok(enemy)
  {
    match AttackChance(attacker, enemy)
    case Err(e) => Err(e)
    case Ok(chance) => if chance > 0.5 then Damaged(enemy, attacker.power) else Ok(enemy)
  }

  /** `Character.attack` as written: `self.attack_chance > 0.5` orders the bound
      method itself against a float, which Python 3 refuses with TypeError
      before anything is read or changed. */
  function CharacterAttackAsWritten(attacker: Stats, enemy: Stats): (r: Result<Stats>)
    ensures r == Err(TypeError)
  {
    Err(TypeError)
  }

  /** Whether an attack by `attacker` reaches `enemy`'s health: a Warrior's
      always does, any other role's does when its attack chance is above 0.5. */
  predicate Lands(attacker: Stats, enemy: Stats)
  {
    attacker.role == Role.Warrior ||
    (attacker.accuracy.Some? &&
     (100 - enemy.stealth * enemy.defence) * attacker.accuracy.value > 500)
  }

  /** The attack a character of the given role performs. It fails when a
      non-Warrior has no accuracy, or when the attack lands on an enemy without
      health; otherwise the enemy loses the attacker's power exactly when the
      attack lands, and nothing else about the enemy changes. */
  function Attacked(attacker: Stats, enemy: Stats): (r: Result<Stats>)
    ensures r.Err? <==>
      (attacker.role != Role.Warrior && attacker.accuracy.None?) ||
      (Lands(attacker, enemy) && enemy.health.None?)
    ensures r.Ok? ==>
      r.value == if Lands(attacker, enemy)
                 then enemy.(health := Some(enemy.health.value - attacker.power))
                 else enemy
  {
    if attacker.role == Role.Warrior then WarriorAttack(attacker, enemy)
    else CharacterAttack(attacker, enemy)
  }

  // ---------------------------------------------------------------------------
  // Properties of the rules
  // ---------------------------------------------------------------------------

  /** From a health no larger than the maximum, a potion of non-negative effect
      never lowers health and never lifts it above the maximum. */
  lemma HealStaysInRange(s: Stats, effect: int)
    requires s.health.Some? && s.health.value <= s.maxHealth && effect >= 0
    ensures Healed(s, HealingPotion(effect)).Ok?
    ensures s.health.value <= Healed(s, HealingPotion(effect)).value.health.value <= s.maxHealth
  {
  }

  /** Two potions in a row heal as much as one potion carrying both effects,
      when health starts no larger than the maximum and the effects are
      non-negative. */
  lemma HealTwiceIsHealOnce(s: Stats, e1: int, e2: int)
    requires s.health.Some? && s.health.value <= s.maxHealth && e1 >= 0 && e2 >= 0
    ensures Healed(s, HealingPotion(e1)).Ok?
    ensures Healed(Healed(s, HealingPotion(e1)).value, HealingPotion(e2)) == Healed(s, HealingPotion(e1 + e2))
  {
  }

  /** A freshly constructed Monster dodges with a chance between 0.25 and 0.81. */
  lemma RolledMonsterDodge(m: Stats)
    requires IsRolledMonster(m)
    ensures 0.25 <= DodgeChance(m) <= 0.81
  {
  }

  /** Every hero preset dodges with a chance of at least 1, so no attacker with
      non-negative accuracy ever lands a `Character.attack` on one. */
  lemma HeroesAreNeverHit(attacker: Stats, hero: Stats)
    requires hero == WarriorPreset || hero == MagePreset || hero == ArcherPreset
    requires attacker.accuracy.Some? && attacker.accuracy.value >= 0
    ensures DodgeChance(hero) >= 1.0
    ensures CharacterAttack(attacker, hero) == Ok(hero)
  {
  }

  /** An Archer lands its attack on every freshly constructed Monster except
      the one with stealth and defence both 9. */
  lemma ArcherAgainstMonster(m: Stats)
    requires IsRolledMonster(m)
    ensures CharacterAttack(ArcherPreset, m) ==
      if m.stealth == 9 && m.defence == 9 then Ok(m)
      else Ok(m.(health := Some(m.maxHealth - 15)))
  {
  }

  /** A Mage lands its attack on a freshly constructed Monster unless both its
      stealth and defence are 8 or more and not both exactly 8. */
  lemma MageAgainstMonster(m: Stats)
    requires IsRolledMonster(m)
    ensures CharacterAttack(MagePreset, m) ==
      if m.stealth + m.defence >= 17 then Ok(m)
      else Ok(m.(health := Some(m.maxHealth - 25)))
  {
  }

  /** A Monster cannot attack at all under `Character.attack`: it has no accuracy. */
  lemma MonstersCannotAttack(m: Stats, enemy: Stats)
    requires IsRolledMonster(m)
    ensures Attacked(m, enemy) == Err(AttributeError("_accuracy"))
  {
  }

  /** As written, `Character.attack` raises even where the intended rule lands
      a hit: an Archer against the weakest-dodging Monster. */
  lemma AttackAsWrittenDiffers()
    ensures var m := MonsterPreset(40, 5, 5, 5);
      CharacterAttack(ArcherPreset, m) == Ok(m.(health := Some(25))) &&
      CharacterAttackAsWritten(ArcherPreset, m) == Err(TypeError)
  {
  }

  // ---------------------------------------------------------------------------
  // The character object
  // ---------------------------------------------------------------------------

  /** A character object. The source's subclasses Warrior, Mage, Archer and
      Monster are the named constructors; `role` records which one ran. */
  class Character {
    const role: Role
    var maxHealth: int
    var health: Option<int>
    var power: int
    var accuracy: Option<int>
    var defence: int
    var stealth: int

    /** The object's attributes as a value. */
    function View(): Stats
      reads this
    {
      Stats(role, maxHealth, health, power, accuracy, defence, stealth)
    }

    constructor Warrior()
      ensures View() == WarriorPreset
    {
      role := Role.Warrior;
      maxHealth := 100;
      health := Some(100);
      power := 20;
      defence := 20;
      stealth := 5;
      accuracy := Some(10);
    }

    constructor Mage()
      ensures View() == MagePreset
    {
      role := Role.Mage;
      maxHealth := 75;
      health := None;
      power := 25;
      defence := 15;
      stealth := 10;
      accuracy := Some(15);
    }

    constructor Archer()
      ensures View() == ArcherPreset
    {
      role := Role.Archer;
      maxHealth := 100;
      health := None;
      defence := 10;
      stealth := 20;
      power := 15;
      accuracy := Some(20);
    }

    /** The four `random.randint` draws are the parameters, in drawing order. */
    constructor Monster(maxHealth: int, defence: int, stealth: int, power: int)
      requires InMonsterRanges(maxHealth, defence, stealth, power)
      ensures View() == MonsterPreset(maxHealth, defence, stealth, power)
      ensures IsRolledMonster(View())
    {
      role := Role.Monster;
      this.maxHealth := maxHealth;
      health := Some(maxHealth);
      this.defence := defence;
      this.stealth := stealth;
      this.power := power;
      accuracy := None;
    }

    /** The `accuracy` property: the stored value, or AttributeError if none was stored. */
    function Accuracy(): (r: Result<int>)
      reads this
      ensures r.Ok? <==> accuracy.Some?
      ensures r.Ok? ==> accuracy == Some(r.value)
      ensures r.Err? ==> r.error == AttributeError("_accuracy")
    {
      match accuracy
      case None => Err(AttributeError("_accuracy"))
      case Some(a) => Ok(a)
    }

    /** The `accuracy` setter stores its argument unchanged (no clamping). */
    method SetAccuracy(value: int)
      modifies this
      ensures Accuracy() == Ok(value)
      ensures View() == old(View()).(accuracy := Some(value))
    {
      accuracy := Some(value);
    }

    /** The `defence` setter stores its argument unchanged (no clamping). */
    method SetDefence(value: int)
      modifies this
      ensures defence == value
      ensures View() == old(View()).(defence := value)
    {
      defence := value;
    }

    /** The `stealth` setter stores its argument unchanged (no clamping). */
    method SetStealth(value: int)
      modifies this
      ensures stealth == value
      ensures View() == old(View()).(stealth := value)
    {
      stealth := value;
    }

    /** `heal(potion)`: on success the attributes are those `Healed` gives; on
        failure nothing has changed. */
    method Heal(item: Item) returns (r: Result<()>)
      modifies this
      ensures Healed(old(View()), item).Ok? ==>
        r == Ok(()) && View() == Healed(old(View()), item).value
      ensures Healed(old(View()), item).Err? ==>
        r == Err(Healed(old(View()), item).error) && View() == old(View())
    {
      match item
      case OtherItem =>
        r := Ok(());
      case HealingPotion(effect) =>
        if health.None? {
          r := Err(AttributeError("health"));
        } else if health.value + effect > maxHealth {
          health := Some(maxHealth);
          r := Ok(());
        } else {
          health := Some(health.value + effect);
          r := Ok(());
        }
    }

    /** `attack(enemy)`: a Warrior strikes unconditionally, every other role
        strikes when its attack chance is above 0.5. Only the enemy's health
        can change, and on failure nothing has. */
    method Attack(enemy: Character) returns (r: Result<()>)
      modifies enemy
      ensures Attacked(old(View()), old(enemy.View())).Ok? ==>
        r == Ok(()) && enemy.View() == Attacked(old(View()), old(enemy.View())).value
      ensures Attacked(old(View()), old(enemy.View())).Err? ==>
        r == Err(Attacked(old(View()), old(enemy.View())).error) && enemy.View() == old(enemy.View())
      ensures enemy != this ==> View() == old(View())
    {
      var strikes := true;
      if role != Role.Warrior {
        var chance := AttackChance(View(), enemy.View());
        if chance.Err? {
          return Err(chance.error);
        }
        strikes := chance.value > 0.5;
      }
      if !strikes {
        r := Ok(());
      } else if enemy.health.None? {
        r := Err(AttributeError("health"));
      } else {
        enemy.health := Some(enemy.health.value - power);
        r := Ok(());
      }
    }
  }
}
