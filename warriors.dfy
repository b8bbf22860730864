/** The warrior objects, the field manager and the demo program, as the
    program runs them: fields updated in place, each method proved against
    the value model of module Combat and the script model of module Session. */
module Warriors {
  import opened Combat
  import opened Session

  /** The running interpreter: whether sys.exit() has been called, and what
      has been written to the console so far. Both warriors share it. */
  class Process {
    var exited: bool
    var log: seq<Event>

    constructor ()
      ensures !exited && log == []
    {
      exited := false;
      log := [];
    }
  }

  /** A Wizard or a Paladin. max_health is a read-only property, so it is a
      constant here; health, the shield coefficient and the Paladin's
      use_shield flag are instance fields the methods overwrite. */
  class Warrior {
    const kind: Kind
    const maxHealth: real
    var health: real
    var shieldCff: real
    var useShield: bool
    const process: Process

    /** The fields as a value of the Combat model. */
    function State(): Fighter
      reads this
    {
      Fighter(kind, health, maxHealth, shieldCff, useShield)
    }

    /** Wizard(health) / Paladin(health): max_health and health both take the
        argument; a Paladin starts with use_shield False; the coefficient is
        the class attribute 1. */
    constructor (k: Kind, initial: real, p: Process)
      ensures State() == Spawn(k, initial) && process == p
    {
      kind := k;
      maxHealth := initial;
      health := initial;
      shieldCff := 1.0;
      useShield := false;
      process := p;
    }

    /** eat_apple as written, before wrapping: +5, returns the new health. */
    method EatApple() returns (left: real)
      modifies this`health
      ensures left == Raw(old(State()), Action.EatApple) && State() == old(State()).(health := left)
    {
      health := health + 5.0;
      left := health;
    }

    /** eat_mushroom as written, before wrapping: +10, returns the new health. */
    method EatMushroom() returns (left: real)
      modifies this`health
      ensures left == Raw(old(State()), Action.EatMushroom) && State() == old(State()).(health := left)
    {
      health := health + 10.0;
      left := health;
    }

    /** get_damaged as written, before wrapping: the Wizard's override takes
        20 times the coefficient, the inherited base version 10 times. */
    method GetDamaged() returns (left: real)
      modifies this`health
      ensures left == Raw(old(State()), Action.GetDamaged) && State() == old(State()).(health := left)
    {
      if kind.Wizard? {
        health := health - 20.0 * shieldCff;
      } else {
        health := health - 10.0 * shieldCff;
      }
      left := health;
    }

    /** The tail of the health-check wrapper, given the health the action
        returned: a lethal value writes the death message and exits the
        program with the health unclamped; otherwise a value above the maximum
        resets health to the maximum, and the status is written. */
    method CheckHealth(left: real)
      requires left == health && !process.exited
      modifies this`health, process
      ensures process.exited == HealthCheck(left, maxHealth).Dead?
      ensures process.exited ==> health == left && process.log == old(process.log) + [Killed(kind)]
      ensures !process.exited ==> health == HealthCheck(left, maxHealth).health
      ensures !process.exited ==> process.log == old(process.log) + [HealthLine(kind, health)]
    {
      if left <= 0.0 {
        process.log := process.log + [Killed(kind)];
        process.exited := true;
        return;
      }
      if left > maxHealth {
        health := maxHealth;
      }
      process.log := process.log + [HealthLine(kind, health)];
    }

    /** A wrapped call, as the class decorator installs it: trace, the
        action (most-derived version), then the health check. No code runs
        after sys.exit(), so the program must still be running; the
        out-parameter tells the caller that the call ended the program. */
    method Call(a: Action) returns (exited: bool)
      requires !process.exited
      modifies this`health, process
      ensures exited == process.exited
      ensures var s := Perform(old(State()), a);
        State() == s.fighter && exited == s.killed && process.log == old(process.log) + s.events
    {
      process.log := process.log + [Trace(kind, a)];
      var left: real;
      match a {
        case EatApple => left := EatApple();
        case EatMushroom => left := EatMushroom();
        case GetDamaged => left := GetDamaged();
      }
      CheckHealth(left);
      exited := process.exited;
    }

    /** Reading use_shield on a Paladin (the descriptor's __get__). */
    method UseShield() returns (on: bool)
      requires kind.Paladin?
      ensures on == useShield
    {
      on := useShield;
    }

    /** Assigning use_shield. On a Paladin the descriptor's __set__ rejects a
        non-bool with TypeError before touching any field, and otherwise sets
        the coefficient and the flag. On a Wizard nothing combat-related
        changes. */
    method SetUseShield(v: PyValue) returns (o: Result<()>)
      requires !process.exited
      modifies this`shieldCff, this`useShield
      ensures match AssignUseShield(old(State()), v)
        case Ok(f) => o == Ok(()) && State() == f
        case Err(e) => o == Err(e) && State() == old(State())
    {
      if kind.Wizard? {
        return Ok(());
      }
      if !v.PyBool? {
        return Err(TypeError("You can set only bool"));
      }
      shieldCff := if v.b then 0.5 else 1.0;
      useShield := v.b;
      o := Ok(());
    }
  }

  datatype Phase = NotStarted | Active | Ended

  /** MyFieldManager: announces the battle on entry and its end on exit. */
  class FieldManager {
    const first: Warrior
    const second: Warrior
    var phase: Phase

    constructor (a: Warrior, b: Warrior)
      ensures first == a && second == b && phase == NotStarted
    {
      first := a;
      second := b;
      phase := NotStarted;
    }

    /** __enter__: names both warriors with their current health. */
    method Enter()
      modifies this, first.process
      ensures phase == Active
      ensures first.process.log == old(first.process.log) +
        [BattleBegin(first.kind, first.health, second.kind, second.health)]
      ensures first.process.exited == old(first.process.exited)
    {
      first.process.log := first.process.log + [BattleBegin(first.kind, first.health, second.kind, second.health)];
      phase := Active;
    }

    /** __exit__: runs on every way out of the block, sys.exit() included. */
    method Exit()
      modifies this, first.process
      ensures phase == Ended
      ensures first.process.log == old(first.process.log) + [BattleEnd]
      ensures first.process.exited == old(first.process.exited)
    {
      first.process.log := first.process.log + [BattleEnd];
      phase := Ended;
    }
  }

  /** One statement of a `with` block on two warriors sharing one process:
      a wrapped call, or a use_shield assignment. */
  method Statement(w: Warrior, p: Warrior, c: Command) returns (status: Status)
    requires w != p && w.process == p.process && !w.process.exited
    modifies w`health, w`shieldCff, w`useShield, p`health, p`shieldCff, p`useShield, w.process
    ensures w.process.exited <==> status.Exited?
    ensures World(w.State(), p.State(), status, w.process.log) ==
      Exec(World(old(w.State()), old(p.State()), Running, old(w.process.log)), c)
  {
    var target := if c.side == First then w else p;
    match c {
      case Act(_, a) =>
        var dead := target.Call(a);
        status := if dead then Exited else Running;
      case SetShield(_, v) =>
        var o := target.SetUseShield(v);
        status := if o.Err? then Raised(o.error) else Running;
    }
  }

  /** The body of a `with` block, statement after statement. A kill
      (sys.exit) or a TypeError leaves the block at once; the status says how
      it was left. */
  method Fight(w: Warrior, p: Warrior, script: seq<Command>) returns (status: Status)
    requires w != p && w.process == p.process && !w.process.exited
    modifies w`health, w`shieldCff, w`useShield, p`health, p`shieldCff, p`useShield, w.process
    ensures w.process.exited <==> status.Exited?
    ensures World(w.State(), p.State(), status, w.process.log) ==
      Run(World(old(w.State()), old(p.State()), Running, old(w.process.log)), script)
  {
    ghost var start := World(w.State(), p.State(), Running, w.process.log);
    status := Running;
    var i := 0;
    while i < |script| && status.Running?
      invariant 0 <= i <= |script|
      invariant w.process.exited <==> status.Exited?
      invariant Run(start, script) == Run(World(w.State(), p.State(), status, w.process.log), script[i..])
    {
      status := Statement(w, p, script[i]);
      assert script[i..][1..] == script[i + 1..];
      i := i + 1;
    }
    if !status.Running? {
      RunHalted(World(w.State(), p.State(), status, w.process.log), script[i..]);
    }
  }

  /** The demo program: a default Wizard and a default Paladin fight inside
      the field manager. It ends with the Wizard at 80, the Paladin at 175,
      nobody killed, and the end of the battle announced last. */
  method RunDemo() returns (wizard: Fighter, paladin: Fighter, status: Status, log: seq<Event>)
    ensures World(wizard, paladin, status, log) ==
      Battle(Spawn(Wizard, DefaultHealth(Wizard)), Spawn(Paladin, DefaultHealth(Paladin)), Session.Demo())
    ensures status == Running && wizard.health == 80.0 && paladin.health == 175.0
    ensures log[|log| - 1] == BattleEnd
  {
    var process := new Process();
    var w := new Warrior(Wizard, DefaultHealth(Wizard), process);
    var p := new Warrior(Paladin, DefaultHealth(Paladin), process);
    var field := new FieldManager(w, p);
    field.Enter();
    ghost var begun := World(w.State(), p.State(), Running, process.log);
    assert begun == World(Spawn(Wizard, 100.0), Spawn(Paladin, 200.0), Running, [BattleBegin(Wizard, 100.0, Paladin, 200.0)]);
    status := Fight(w, p, Session.Demo());
    ghost var done := World(w.State(), p.State(), status, process.log);
    assert done == Run(begun, Session.Demo());
    field.Exit();
    wizard, paladin, log := w.State(), p.State(), process.log;
    assert World(wizard, paladin, status, log) == done.(log := done.log + [BattleEnd]);
    DemoOutcome();
  }
}
