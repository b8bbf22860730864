# Warrior combat model

A Dafny model of `task1/warrior.py`, a small turn-based fight between a
Wizard and a Paladin. The model covers the parts of the program that
change its state:

- **The warrior's health.** `eat_apple` adds 5 and `eat_mushroom` adds 10.
  `get_damaged` subtracts 10 times the shield coefficient. The Wizard's
  override subtracts 20 times the coefficient. `max_health` is read-only.
- **The wrapper that `class_decorator` puts around the three actions.** It
  writes a trace line, runs the action and then checks the health the
  action returned. A value at or below zero writes the death message and
  calls `sys.exit()`, with no clamping. A value above `max_health` is set
  back to `max_health`. Then it writes the health.
- **The Paladin's `use_shield` descriptor.** It accepts only a `bool` and
  raises `TypeError` for anything else. It sets the coefficient to 0.5 when
  the shield is on and to 1 when it is off.
- **`MyFieldManager`.** It announces the battle on entry and announces its
  end on exit. The exit runs on every way out of the `with` block, including
  `sys.exit()`.
- **The demo program** at the bottom of the file.

Three modules:

- `Combat` (combat.dfy) describes one warrior as a value. `Fighter` holds the
  object's fields. `Raw` is the health an unwrapped action returns.
  `HealthCheck` is the wrapper's decision. `Perform` is one wrapped call.
  `AssignUseShield` is the descriptor's setter.
- `Session` (session.dfy) describes two warriors sharing one process. A
  `World` holds both fighters, whether the program is still running, and
  the console output as a list of events. `Exec` runs one statement of a
  `with` block. `Run` runs a whole script of statements. `Battle` adds the
  field manager's announcements around a script. `Demo` is the demo's
  script. The lemmas state what holds over any script.
- `Warriors` (warriors.dfy) is the imperative model. The `Warrior` class
  updates its fields in place. `Process` stands for the interpreter: it
  records whether `sys.exit()` was called and what was printed. The
  `FieldManager` class and the demo program are also here. Each method is
  proved against the `Combat` and `Session` functions.

Health is a `real`, so the 0.5 coefficient is exact. Console output is recorded as `Event` values (trace, killed, health line,
battle begin, battle end) rather than text.

The model follows the code where its behaviour is easy to misread:

- The heals are fixed at +5 and +10, not an arbitrary amount.
- The setter's error is `TypeError`.
- A warrior constructed with health at or below zero is not dead. Only the
  health an action returns is checked.
- A Wizard has no `use_shield` descriptor. Assigning to it creates an
  ordinary attribute, with no type check and no effect on damage.

## Model

| member | source | states |
|---|---|---|
| `Combat.DefaultHealth` | task1/warrior.py:89-102 | a Wizard constructed without an argument starts at 100 and a Paladin at 200, both alive |
| `Combat.Spawn` | task1/warrior.py:56-61 | a new warrior is of the class asked for, with health and max_health both the argument, the shield off and the class-level coefficient 1 |
| `Combat.Raw` | task1/warrior.py:63-95 | the unwrapped action's returned health: an apple adds exactly 5 and a mushroom exactly 10 at any health, so eating always raises it; a hit with a positive coefficient always lowers it, by the class's damage (20 for the Wizard's override, 10 for the inherited version) times the coefficient |
| `Combat.HealthCheck` | task1/warrior.py:13-20 | the returned health is lethal exactly when it is at or below zero (checked before any clamping); a survivor ends at or below max_health, keeps the returned value exactly when it was not above the maximum, and is set to exactly max_health otherwise |
| `Combat.Perform` | task1/warrior.py:11-37 | a wrapped call changes only health; it kills exactly when the raw action returns at most 0 and then leaves that value unclamped; a survivor is clamped to max_health; it writes the trace first, then either the death message or the health line with the new health |
| `Combat.AssignUseShield` | task1/warrior.py:104-115 | on a Paladin, TypeError exactly when the value is not a bool, with nothing changed; a bool sets use_shield to it and the coefficient to 0.5 (on) or 1 (off); on a Wizard the combat fields stay as they were |
| `Combat.ReadBackUseShield` | task1/warrior.py:105-113 | after assigning a bool to a Paladin's use_shield, reading it back gives that bool, and the coefficient matches it |
| `Combat.SpawnIsFullAndConsistent` | task1/warrior.py:56-61 | a new warrior is of the class asked for, has health equal to max_health, the shield off and coefficient 1, so its shield fields agree; the default arguments are 100 (Wizard) and 200 (Paladin), and a default warrior starts alive |
| `Combat.HitCost` | task1/warrior.py:71-95 | one hit costs a Wizard 20, and a Paladin 10 without the shield or 5 with it |
| `Combat.EatingNeverKills` | task1/warrior.py:63-69 | for a warrior with positive health: an apple adds exactly 5 and a mushroom exactly 10 before the check, the warrior survives eating, and it ends at the sum clamped to max_health (the increments at any health are in `Combat.Raw`) |
| `Combat.PerformKeepsConsistent` | task1/warrior.py:13-20 | a wrapped call keeps max_health and the shield fields, and a survivor is at or below max_health |
| `Combat.AssignKeepsConsistent` | task1/warrior.py:109-113 | the setter always leaves the coefficient agreeing with use_shield, and it fails only on a Paladin |
| `Session.Exec` | task1/warrior.py:142-154 | one statement of the `with` block: nothing runs once the program has exited or raised; no statement changes a warrior's class or max_health; a use_shield assignment writes nothing; one that raises leaves both warriors unchanged |
| `Session.Run` | task1/warrior.py:142-154 | the block's statements run in order, each on the state the previous one left (a definition with no contract of its own; the `Session.Run*` lemmas state its properties) |
| `Session.Battle` | task1/warrior.py:126-142 | the begin announcement with both warriors' classes and health, then the block, then the end announcement on every way out (a definition; `Session.BattleBracketed` states the bracketing) |
| `Session.RunHalted` | task1/warrior.py:16-18 | once the program has exited (or raised), no later statement changes anything |
| `Session.RunKeepsIdentity` | task1/warrior.py:75-77 | no script changes a warrior's class or its max_health |
| `Session.RunKeepsSound` | task1/warrior.py:19-20 | over any script of wrapped calls and use_shield assignments, as long as the program runs, no warrior is above its max_health and the shield fields stay consistent |
| `Session.RunAppendsActionEvents` | task1/warrior.py:13-35 | a script only appends to the output, and only trace, health-line and death events, never a battle announcement |
| `Session.RunKillIsLast` | task1/warrior.py:16-18 | a death message is the last thing a script writes and means the program exited; a program that exited during the script always wrote a death message last |
| `Session.BattleBracketed` | task1/warrior.py:126-136 | the begin announcement comes first and only once, and the end announcement last and only once, whether the block ran to the end or stopped on a kill or an error; a death message is followed only by the end announcement |
| `Session.BattleKeepsClamp` | task1/warrior.py:19-20 | two new warriors never go above their initial health while the program runs, whatever script of wrapped calls and use_shield assignments the block holds |
| `Session.LethalHitStops` | task1/warrior.py:16-18 | a Paladin at 5 health hit without the shield drops to -5, is reported killed, the program exits, and no later statement runs |
| `Session.RejectedShieldStops` | task1/warrior.py:110-111 | a non-bool assigned to a Paladin's use_shield raises TypeError, which leaves the block with both warriors unchanged and nothing written |
| `Session.DemoOutcome` | task1/warrior.py:139-154 | the demo battle ends with nobody dead, the Wizard at 80 and the Paladin at 175 with the shield off, and writes exactly the demo transcript: the shielded hit leaves the Paladin at 185 and the Wizard's 100 to 110 mushroom is clamped to 100 |
| `Warriors.Warrior.constructor` | task1/warrior.py:59-61 | a new warrior's fields are those of a fresh warrior: health and max_health both the argument, the shield off, coefficient 1 |
| `Warriors.Warrior.EatApple` | task1/warrior.py:63-65 | the unwrapped eat_apple adds 5 to health, changes nothing else and returns the new health |
| `Warriors.Warrior.EatMushroom` | task1/warrior.py:67-69 | the unwrapped eat_mushroom adds 10 to health, changes nothing else and returns the new health |
| `Warriors.Warrior.GetDamaged` | task1/warrior.py:71-95 | the unwrapped get_damaged subtracts 20 times the coefficient for a Wizard (its override) and 10 times it for a Paladin (the base version), and returns the new health |
| `Warriors.Warrior.CheckHealth` | task1/warrior.py:13-21 | the program exits exactly on a lethal value, with health unclamped and the death message written; otherwise health becomes the clamped value and the health line is written |
| `Warriors.Warrior.Call` | task1/warrior.py:40-53 | the wrapped call updates the object exactly as `Combat.Perform` says, appends its events to the output, and reports whether it ended the program |
| `Warriors.Warrior.UseShield` | task1/warrior.py:105-107 | reading use_shield on a Paladin returns the stored flag |
| `Warriors.Warrior.SetUseShield` | task1/warrior.py:109-113 | the assignment updates the object exactly as `Combat.AssignUseShield` says, and fails with TypeError, leaving the object unchanged, when the setter rejects the value |
| `Warriors.FieldManager.constructor` | task1/warrior.py:122-124 | the manager keeps both warriors and has not started |
| `Warriors.FieldManager.Enter` | task1/warrior.py:126-133 | entry writes the begin announcement with both classes and their current health |
| `Warriors.FieldManager.Exit` | task1/warrior.py:135-136 | exit writes the end announcement, and does so whether or not the program has exited |
| `Warriors.Statement` | task1/warrior.py:142-154 | one statement of the `with` block on the two objects has exactly the effect `Session.Exec` gives it |
| `Warriors.Fight` | task1/warrior.py:142-154 | running the block's statements on the objects, and stopping at a kill or a TypeError, has exactly the effect `Session.Run` gives the script |
| `Warriors.RunDemo` | task1/warrior.py:139-154 | the demo program ends as `Session.Battle` says for the demo script: nobody dies, the Wizard at 80, the Paladin at 175, the end announcement last |

## Left out

- Console output is kept as events, not text. This leaves out the format strings and the `int(...)` truncation of health in the health line (task1/warrior.py:21).
- `__trace_info` reads the class name through `inspect.currentframe()`. The model records the warrior's class directly, because frame introspection has no effect on state.
- The reflection inside `class_decorator` is not modelled: walking the method resolution order, the `types.FunctionType` test, `setattr` and `functools.wraps`. Its outcome is modelled instead: exactly `eat_apple`, `eat_mushroom` and `get_damaged` are wrapped, once each, and `get_damaged` is the most-derived version (`Warriors.Warrior.Call`, `Combat.Raw`).
- `sys.exit()` is not a real process exit. The `Process.exited` flag and the `Exited` status stand for it. No operation may be called once the flag is set, because no code runs after `sys.exit()` apart from the field manager's exit.
- An uncaught `TypeError` is modelled only as far as the `with` block: it stops the remaining statements and the end announcement still follows. The traceback and the process's exit status are not modelled.
- Warriors.Warrior.UseShield: modelled for a Paladin only. On a Wizard, reading `use_shield` finds no descriptor: it raises `AttributeError`, or returns an ordinary attribute if one was assigned. Neither affects combat.
- Assigning `use_shield` on a Wizard creates an ordinary instance attribute. The model does not keep that attribute; it keeps only the fact that the combat fields are unchanged.
- The `with` statement's guarantee that `__enter__` runs once before the block and `__exit__` once after it is modelled by the callers (`Warriors.RunDemo` and `Session.Battle`). `FieldManager` does not enforce it.
- Python int and float arithmetic is modelled as exact `real` arithmetic, and float rounding is not modelled. From an integer starting health, rounding needs a health above 2^53 in magnitude. From a non-integer starting health, which Python holds as a float (for example `Wizard(0.1)` followed by `eat_apple`), it can happen at any magnitude. From an integer starting health beyond the float range (about 1.8·10^308), a shielded hit makes Python convert the health to a float, which raises `OverflowError`. The model does not have that error.
- A `with` block is modelled as a script of two kinds of statement: the three wrapped calls and `use_shield` assignments. The block's two warriors are distinct objects. Other statements are not modelled. In particular, a direct assignment to the public `health` property (task1/warrior.py:83-85) is not wrapped, because a property is not a plain function. It runs with no trace, no lethal check and no clamp, and can leave a warrior above its max_health. `Session.RunKeepsSound` and `Session.BattleKeepsClamp` do not cover it. `MyFieldManager(w, w)`, one warrior on both sides, is also not modelled: `Warriors.Statement` and `Warriors.Fight` take two distinct objects.
- Warriors are modelled with any real starting health, and with only the Wizard and Paladin classes (no direct `BaseWarrior` instances, which the program never creates).
