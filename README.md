# Mazes and Monsters: character stats and the maze grid, in Dafny

A model of the two core modules of a small Python dungeon game:

- `game_model.py`: characters (Warrior, Mage, Archer, Monster) with integer
  statistics, the dodge and attack chances computed from them, healing with a
  potion, and the two attack rules (the generic chance-gated one and the
  Warrior's unconditional override). Module `GameModel` in `game_model.dfy`.
- `maze.py`: a grid of optional cell contents with the hero's position, whose
  accessors and mutators all apply one bounds guard. Module `MazeGrid` in
  `maze.dfy`.

How the model is built:

- The Python subclasses become one class, `GameModel.Character`, with a named
  constructor per subclass and a `role` field recording which one ran;
  `Attack` dispatches on it, as Python dispatches on the subclass.
- Attribute state is held in fields the methods update in place; `View()`
  reads them out as a `Stats` value, and pure functions on `Stats`
  (`DodgeChance`, `AttackChance`, `Healed`, `CharacterAttack`,
  `WarriorAttack`, `Attacked`) say what each operation computes. The methods'
  postconditions tie the new state to those functions, and the lemmas state
  the game's properties about them.
- Python objects may lack an attribute their constructor never assigned, and
  reading it raises AttributeError. The Mage and Archer constructors never set
  `health`, and the Monster constructor never sets `accuracy`, so these two
  fields are `Option`s and every read of them can end in
  `Err(AttributeError(..))`. The consequences are proved rather than hidden:
  a Monster can never perform `Character.attack` (`MonstersCannotAttack`), and
  healing a fresh Mage or Archer raises.
- The chances are exact `real`s; the source gets them from integers by true
  division. `AttackChance` and `CharacterAttack` restate them as integer
  conditions: the attack lands exactly when
  `(100 - stealth * defence) * accuracy > 500`.
- Setters store what they are given: no setter clamps its value, so none is
  modelled as clamping. The one cap in the code is `heal`'s, which stops
  health at `max_health`, and `Healed` models it.
- The maze grid is an `array2` updated in place. `Cells()` reads it out as
  rows of cells, and `Put`/`At` on those rows specify the updates.
  `Valid()` carries the invariant that the hero stands inside the guarded
  area.

The tests describe clamped setters (tests/test_game_model.py:94-128) and a
`Game` class with coins and a shop (tests/test_game.py). The code has none of
these, and the model follows the code.

## Model

| member | source | states |
|---|---|---|
| `GameModel.DodgeChance` | game_model.py:74-80 | 100 times the dodge chance equals stealth times defence, exactly |
| `GameModel.AttackChance` | game_model.py:102-108 | fails with AttributeError exactly when the attacker has no accuracy; otherwise 1000 times the chance equals (100 - enemy stealth * enemy defence) * accuracy |
| `GameModel.Healed` | game_model.py:82-95 | a non-potion changes nothing; a potion on a character without health raises AttributeError; otherwise health becomes min(health + effect, max health) and no other attribute changes |
| `GameModel.Damaged` | game_model.py:143 | `enemy.health -= amount`: fails exactly when the enemy has no health; otherwise health drops by exactly the amount and nothing else changes |
| `GameModel.WarriorAttack` | game_model.py:137-143 | the enemy loses exactly the warrior's power whatever the chances, no other attribute changes; fails exactly when the enemy has no health |
| `GameModel.CharacterAttack` | game_model.py:97-108 | intended rule: no accuracy raises; if (100 - stealth * defence) * accuracy > 500 the enemy loses the attacker's power, otherwise the enemy is returned unchanged |
| `GameModel.CharacterAttackAsWritten` | game_model.py:97-100 | as written the comparison of a bound method with 0.5 always raises TypeError |
| `GameModel.Attacked` | game_model.py:97-143 | the attack lands for a Warrior always, for any other role when (100 - stealth * defence) * accuracy > 500; it fails exactly when a non-Warrior has no accuracy or it lands on an enemy without health; otherwise the enemy loses the attacker's power exactly when it lands, and nothing else changes |
| `GameModel.HealStaysInRange` | game_model.py:91-95 | from health at most the maximum, a non-negative potion never lowers health and never exceeds the maximum |
| `GameModel.HealTwiceIsHealOnce` | game_model.py:91-95 | two potions in a row equal one potion carrying both effects (health at most the maximum, effects non-negative) |
| `GameModel.RolledMonsterDodge` | game_model.py:202-206 | every freshly drawn Monster dodges with a chance in [0.25, 0.81] |
| `GameModel.HeroesAreNeverHit` | game_model.py:123-191 | each hero preset dodges with chance at least 1, so no attacker with non-negative accuracy lands the generic attack on one |
| `GameModel.ArcherAgainstMonster` | game_model.py:177-206 | an Archer's generic attack lands on every drawn Monster (taking 15 health) except stealth = defence = 9 |
| `GameModel.MageAgainstMonster` | game_model.py:153-206 | a Mage's generic attack lands (taking 25 health) unless the Monster's stealth + defence is at least 17 |
| `GameModel.MonstersCannotAttack` | game_model.py:193-206 | a Monster's attack always raises AttributeError, since no accuracy is ever set |
| `GameModel.AttackAsWrittenDiffers` | game_model.py:99 | on a concrete Archer/Monster pair the intended rule lands a hit while the code as written raises TypeError |
| `GameModel.Character.Warrior` | game_model.py:123-135 | max health = health = 100, power 20, defence 20, stealth 5, accuracy 10 |
| `GameModel.Character.Mage` | game_model.py:153-167 | max health 75, power 25, defence 15, stealth 10, accuracy 15, health never set |
| `GameModel.Character.Archer` | game_model.py:177-191 | max health 100, defence 10, stealth 20, power 15, accuracy 20, health never set |
| `GameModel.Character.Monster` | game_model.py:194-206 | from draws in max health [40,80], defence [5,9], stealth [5,9], power [5,15]: health = max health, accuracy never set |
| `GameModel.Character.Accuracy` | game_model.py:35-42 | the getter returns the stored accuracy, and raises AttributeError when none was stored |
| `GameModel.Character.SetAccuracy` | game_model.py:44-46 | stores the value unchanged (no clamping), the getter then returns it, nothing else changes |
| `GameModel.Character.SetDefence` | game_model.py:57-59 | stores the value unchanged (no clamping), nothing else changes |
| `GameModel.Character.SetStealth` | game_model.py:70-72 | stores the value unchanged (no clamping), nothing else changes |
| `GameModel.Character.Heal` | game_model.py:82-95 | the new attributes are those `Healed` gives; on failure nothing changes |
| `GameModel.Character.Attack` | game_model.py:97-143 | the enemy's new attributes are those `Attacked` gives, the attacker is unchanged when distinct from the enemy, and on failure nothing changes |
| `MazeGrid.Put` | maze.py:42-43 | the written cell holds the new value, every other cell is unchanged, the shape is kept |
| `MazeGrid.PutIdempotent` | maze.py:66-67 | writing (or clearing) a cell twice is the same as once |
| `MazeGrid.Maze.constructor` | maze.py:17-32 | rows and cols default to 5; the hero starts at (0, 0) and the grid holds the fixed 5×5 layout |
| `MazeGrid.Maze.PlaceObject` | maze.py:34-43 | inside the guard the cell holds the object afterwards and every other cell is unchanged; outside it nothing changes; the hero never moves |
| `MazeGrid.Maze.GetObject` | maze.py:45-57 | the cell's content inside the guard, None outside it; reads only |
| `MazeGrid.Maze.RemoveObject` | maze.py:59-67 | inside the guard the cell is empty afterwards and every other cell is unchanged; outside it nothing changes; the hero never moves |
| `MazeGrid.Maze.UpdateHeroPosition` | maze.py:69-77 | the hero moves to an in-bounds target and stays put otherwise, so it always stays in bounds; no cell changes |
| `MazeGrid.UpFromStart` | maze.py:69-77 | moving one row up from the start corner of a new maze leaves the hero at (0, 0) |

## Findings

| source | as written | input that shows it | evidently intended | confidence | as-written member | corrected member |
|---|---|---|---|---|---|---|
| game_model.py:99 | `self.attack_chance > 0.5` orders the bound method against a float, which Python 3 refuses with TypeError, so `Character.attack` never deals damage | an Archer attacking a Monster with max health 40, defence 5, stealth 5 (attack chance 1.5) | `self.attack_chance(enemy) > 0.5` | high; not executed | `GameModel.CharacterAttackAsWritten` | `GameModel.CharacterAttack` |

## Left out

- `name` and the `pouch` dictionary: they carry no logic in the modelled code. The bare `Character(name)` constructor sets only these two, so it is not modelled.
- `HealingPotion` is not defined in game_model.py, so as written `heal` raises NameError at its `isinstance` test. The model assumes a potion type with an `effect` field (`Item.HealingPotion(effect)`); everything that is not a potion is `Item.OtherItem`.
- Python floats: chances are exact reals, so a float rounding exactly at the 0.5 threshold is not modelled.
- `random.randint`: the four draws of the Monster constructor are its parameters, constrained to the inclusive ranges.
- Dynamic typing: attributes hold integers and `attack` takes a `Character`; arbitrary Python objects are not modelled.
- `GameModel.Character.SetAccuracy`, `SetDefence` and `SetStealth` only accept integers, where Python stores any value.
- The `defence` and `stealth` getters are the fields themselves: every constructor sets both, so reading them cannot fail.
- `MazeGrid.Maze.constructor` requires 1 ≤ rows ≤ 5 and 1 ≤ cols ≤ 5, because the grid literal is always 5×5. With more rows or columns the guard admits cells the literal lacks (an IndexError in Python). With 0 rows or columns the start position (0, 0) lies outside the guarded area.
- The grid literal builds `Monster("Goblin")`, but the Monster constructor takes no argument (game_model.py:194), so as written `Maze.__init__` raises TypeError at maze.py:27 and no `Maze` object ever exists; `TreasureChest()`, `HealingPotion()` and `Shopkeeper()` are not defined in the modelled files either. `MazeGrid.Maze.constructor` and every method after it therefore model the constructor as evidently intended, with the cell contents as the abstract `Occupant` values and monsters keeping their names.
- `Maze.print_maze` and the `__main__` demonstration: console output only.
- game_interface.py, project.py, sandpit.py and the test files are not part of this model. They are console plumbing, unfinished code or scratch scripts.
