/** The combat arithmetic of one warrior, as values.

    A warrior is a Wizard or a Paladin. Three of its methods are wrapped by
    the class decorator (eat_apple, eat_mushroom, get_damaged); each wrapped
    call runs the raw action, which returns the new health, and then the
    health check: a returned health at or below zero kills the warrior and
    ends the program, otherwise a health above the maximum is cut back to the
    maximum. The Paladin alone has the use_shield descriptor, which accepts
    only a bool and switches the damage coefficient between 1 and 0.5.
    Health is a real number, so the coefficient 0.5 is exact. */
module Combat {

  datatype Kind = Wizard | Paladin

  /** The three methods the class decorator wraps (every non-dunder plain
      function reachable through the class's method resolution order). */
  datatype Action = EatApple | EatMushroom | GetDamaged

  /** A value assigned to use_shield, tagged with its Python type. A Python
      int (even 0 or 1) is not a bool. */
  datatype PyValue = PyBool(b: bool) | PyInt(i: int) | PyStr(s: string) | PyNone

  datatype Error = TypeError(message: string)

  datatype Result<T> = Ok(value: T) | Err(error: Error)

  /** What the program writes to the console, abstracted to events. */
  datatype Event =
    | Trace(who: Kind, action: Action)          // "<Class> => <method>", before the action runs
    | Killed(who: Kind)                         // "<Class> was killed!"
    | HealthLine(who: Kind, health: real)       // "<Class> has <health> hp"
    | BattleBegin(first: Kind, firstHealth: real, second: Kind, secondHealth: real)
    | BattleEnd                                 // "End of a battle!"

  /** Default constructor argument: Wizard(health=100), Paladin(health=200). */
  function DefaultHealth(k: Kind): (h: real)
    ensures h > 0.0
    ensures k.Wizard? ==> h == 100.0
    ensures k.Paladin? ==> h == 200.0
  {
    if k.Wizard? then 100.0 else 200.0
  }

  /** Damage per hit before the shield coefficient: Wizard overrides
      get_damaged with 20, the Paladin inherits the base version with 10. */
  function HitDamage(k: Kind): real {
    if k.Wizard? then 20.0 else 10.0
  }

  /** The coefficient the use_shield setter installs. */
  function ShieldCoefficient(on: bool): real {
    if on then 0.5 else 1.0
  }

  /** The fields of a warrior object: _health, _max_health, _shield_cff and,
      for a Paladin, _use_shield (always false for a Wizard). */
  datatype Fighter = Fighter(kind: Kind, health: real, maxHealth: real, shieldCff: real, useShield: bool)

  /** A freshly constructed warrior: both health fields set to the argument,
      the class-level coefficient 1 and, for a Paladin, the shield off. */
  function Spawn(k: Kind, health: real): (f: Fighter)
    ensures f.kind == k && f.health == f.maxHealth == health
    ensures !f.useShield && f.shieldCff == 1.0
  {
    Fighter(k, health, health, 1.0, false)
  }

  /** The shield fields agree with each other: the coefficient is the one the
      setter derives from use_shield, and a Wizard never has the shield on. */
  ghost predicate Consistent(f: Fighter) {
    && f.shieldCff == ShieldCoefficient(f.useShield)
    && (f.kind.Wizard? ==> !f.useShield)
  }

  /** The health a raw (unwrapped) action leaves and returns. No clamping:
      an apple adds exactly 5 and a mushroom exactly 10 whatever the health,
      so eating always raises it; a hit with a positive coefficient always
      lowers it, by the class's damage times the coefficient. */
  function Raw(f: Fighter, a: Action): (r: real)
    ensures a.EatApple? ==> r == f.health + 5.0
    ensures a.EatMushroom? ==> r == f.health + 10.0
    ensures !a.GetDamaged? ==> r > f.health
    ensures a.GetDamaged? && f.shieldCff > 0.0 ==> r < f.health
    ensures a.GetDamaged? ==> f.health - r == HitDamage(f.kind) * f.shieldCff
  {
    match a
    case EatApple => f.health + 5.0
    case EatMushroom => f.health + 10.0
    case GetDamaged => f.health - HitDamage(f.kind) * f.shieldCff
  }

  /** The decision of the health check on the value the action returned. */
  datatype Verdict = Dead | Alive(health: real)

  /** The health check applied after every wrapped action: the lethal test
      comes first and leaves the health unclamped; a survivor above its
      maximum is set to exactly the maximum, any other survivor is left alone. */
  function HealthCheck(left: real, maxHealth: real): (v: Verdict)
    ensures v.Dead? <==> left <= 0.0
    ensures v.Alive? ==> v.health <= maxHealth
    ensures v.Alive? ==> (v.health == left <==> left <= maxHealth)
    ensures v.Alive? && left > maxHealth ==> v.health == maxHealth
  {
    if left <= 0.0 then Dead
    else if left > maxHealth then Alive(maxHealth)
    else Alive(left)
  }

  /** The outcome of one wrapped call: the warrior afterwards, whether it was
      killed (and the program ended) and what was written. */
  datatype Step = Step(fighter: Fighter, killed: bool, events: seq<Event>)

  /** One wrapped call of action `a` on `f`: trace, raw action, health check. */
  function Perform(f: Fighter, a: Action): (s: Step)
    ensures s.fighter == f.(health := s.fighter.health)
    ensures s.killed <==> Raw(f, a) <= 0.0
    ensures s.killed ==> s.fighter.health == Raw(f, a)
    ensures !s.killed ==> s.fighter.health <= f.maxHealth
    ensures !s.killed && Raw(f, a) <= f.maxHealth ==> s.fighter.health == Raw(f, a)
    ensures !s.killed && Raw(f, a) > f.maxHealth ==> s.fighter.health == f.maxHealth
    ensures |s.events| == 2 && s.events[0] == Trace(f.kind, a)
    ensures s.events[1] == if s.killed then Killed(f.kind) else HealthLine(f.kind, s.fighter.health)
  {
    var left := Raw(f, a);
    match HealthCheck(left, f.maxHealth)
    case Dead => Step(f.(health := left), true, [Trace(f.kind, a), Killed(f.kind)])
    case Alive(h) => Step(f.(health := h), false, [Trace(f.kind, a), HealthLine(f.kind, h)])
  }

  /** Assignment `warrior.use_shield = v`. On a Paladin the descriptor
      rejects anything but a bool with TypeError and changes nothing;
      a bool sets the coefficient (0.5 when on, 1 when off) and the flag.
      A Wizard has no descriptor: the assignment creates an unrelated
      instance attribute and leaves the combat fields alone. */
  function AssignUseShield(f: Fighter, v: PyValue): (r: Result<Fighter>)
    ensures r.Err? <==> f.kind.Paladin? && !v.PyBool?
    ensures r.Err? ==> r.error.TypeError?
    ensures f.kind.Wizard? ==> r == Ok(f)
    ensures r.Ok? && f.kind.Paladin? ==>
      r.value == f.(useShield := v.b, shieldCff := if v.b then 0.5 else 1.0)
  {
    if f.kind.Wizard? then Ok(f)
    else if !v.PyBool? then Err(TypeError("You can set only bool"))
    else Ok(f.(shieldCff := ShieldCoefficient(v.b), useShield := v.b))
  }

  /** Reading use_shield on a Paladin returns the value last set. */
  lemma ReadBackUseShield(f: Fighter, on: bool)
    requires f.kind.Paladin?
    ensures AssignUseShield(f, PyBool(on)).Ok?
    ensures AssignUseShield(f, PyBool(on)).value.useShield == on
    ensures AssignUseShield(f, PyBool(on)).value.shieldCff == ShieldCoefficient(on)
  {
  }

  /** A new warrior is of the class asked for, at full health, with the
      shield off and coefficient 1, so its shield fields are consistent; a
      warrior built with the default argument starts alive. */
  lemma SpawnIsFullAndConsistent(k: Kind, health: real)
    ensures Spawn(k, health).kind == k
    ensures Spawn(k, health).health == Spawn(k, health).maxHealth == health
    ensures !Spawn(k, health).useShield && Spawn(k, health).shieldCff == 1.0
    ensures Consistent(Spawn(k, health))
    ensures Spawn(k, DefaultHealth(k)).health > 0.0
    ensures DefaultHealth(Wizard) == 100.0 && DefaultHealth(Paladin) == 200.0
  {
  }

  /** The cost of one hit, by archetype and shield: a Wizard loses 20, a
      Paladin 10 without the shield and 5 with it. */
  lemma HitCost(f: Fighter)
    requires Consistent(f)
    ensures f.health - Raw(f, GetDamaged) ==
      if f.kind.Wizard? then 20.0 else if f.useShield then 5.0 else 10.0
  {
  }

  /** Eating raises health by exactly 5 (apple) or 10 (mushroom) before the
      health check, and a warrior with positive health never dies of it. */
  lemma EatingNeverKills(f: Fighter, a: Action)
    requires a != GetDamaged && f.health > 0.0
    ensures Raw(f, a) - f.health == if a == EatApple then 5.0 else 10.0
    ensures !Perform(f, a).killed
    ensures Perform(f, a).fighter.health == if Raw(f, a) > f.maxHealth then f.maxHealth else Raw(f, a)
  {
  }

  /** A wrapped call keeps the shield fields consistent, keeps the maximum,
      and a survivor ends at or below its maximum. */
  lemma PerformKeepsConsistent(f: Fighter, a: Action)
    requires Consistent(f)
    ensures Consistent(Perform(f, a).fighter)
    ensures Perform(f, a).fighter.maxHealth == f.maxHealth
    ensures !Perform(f, a).killed ==> Perform(f, a).fighter.health <= f.maxHealth
  {
  }

  /** The setter keeps the shield fields consistent, whatever it is given. */
  lemma AssignKeepsConsistent(f: Fighter, v: PyValue)
    requires Consistent(f)
    ensures AssignUseShield(f, v).Ok? ==> Consistent(AssignUseShield(f, v).value)
    ensures AssignUseShield(f, v).Err? ==> f.kind.Paladin?
  {
  }
}
