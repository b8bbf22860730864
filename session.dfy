/** A battle between two warriors, as values: a script of statements run
    inside the field manager's scope. sys.exit() on a kill and an uncaught
    TypeError both stop the script; the scope's end announcement is written
    on every path. */
module Session {
  import opened Combat

  datatype Side = First | Second

  /** One statement of a script: a wrapped action or a use_shield assignment. */
  datatype Command = Act(side: Side, action: Action) | SetShield(side: Side, value: PyValue)

  /** Running; ended by sys.exit() after a kill; or ended by an exception. */
  datatype Status = Running | Exited | Raised(error: Error)

  datatype World = World(first: Fighter, second: Fighter, status: Status, log: seq<Event>)

  function Pick(w: World, side: Side): Fighter {
    if side == First then w.first else w.second
  }

  function Put(w: World, side: Side, f: Fighter): World {
    if side == First then w.(first := f) else w.(second := f)
  }

  /** One statement. Once the program has stopped nothing runs any more; no
      statement changes a warrior's class or maximum, an assignment to
      use_shield writes nothing, and one that raises changes no warrior. */
  function Exec(w: World, c: Command): (r: World)
    ensures !w.status.Running? ==> r == w
    ensures r.first.kind == w.first.kind && r.second.kind == w.second.kind
    ensures r.first.maxHealth == w.first.maxHealth && r.second.maxHealth == w.second.maxHealth
    ensures c.SetShield? ==> r.log == w.log
    ensures r.status.Raised? ==> r.first == w.first && r.second == w.second
  {
    if !w.status.Running? then w
    else match c
      case Act(side, a) =>
        var s := Perform(Pick(w, side), a);
        Put(w, side, s.fighter).(status := if s.killed then Exited else Running, log := w.log + s.events)
      case SetShield(side, v) =>
        match AssignUseShield(Pick(w, side), v)
        case Ok(f) => Put(w, side, f)
        case Err(e) => w.(status := Raised(e))
  }

  /** A script, statement after statement. */
  function Run(w: World, script: seq<Command>): World
    decreases |script|
  {
    if script == [] then w else Run(Exec(w, script[0]), script[1..])
  }

  /** `with MyFieldManager(first, second): <script>` — __enter__ announces
      both warriors and their health, __exit__ announces the end on every
      way out of the block. */
  function Battle(first: Fighter, second: Fighter, script: seq<Command>): World {
    var begun := World(first, second, Running, [BattleBegin(first.kind, first.health, second.kind, second.health)]);
    var done := Run(begun, script);
    done.(log := done.log + [BattleEnd])
  }

  /** Both warriors' shield fields agree and, while the program runs, neither
      is above its maximum. */
  ghost predicate Sound(w: World) {
    && Consistent(w.first) && Consistent(w.second)
    && (w.status.Running? ==> w.first.health <= w.first.maxHealth && w.second.health <= w.second.maxHealth)
  }

  /** Events written by wrapped calls (never the scope's announcements). */
  predicate ActionEvent(e: Event) {
    !e.BattleBegin? && !e.BattleEnd?
  }

  /** After the program has stopped, the rest of the script does nothing. */
  lemma {:induction false} RunHalted(w: World, script: seq<Command>)
    requires !w.status.Running?
    ensures Run(w, script) == w
    decreases |script|
  {
    if script != [] {
      RunHalted(Exec(w, script[0]), script[1..]);
    }
  }

  /** A script never changes which warriors fight or their maximum health. */
  lemma {:induction false} RunKeepsIdentity(w: World, script: seq<Command>)
    ensures Run(w, script).first.kind == w.first.kind && Run(w, script).second.kind == w.second.kind
    ensures Run(w, script).first.maxHealth == w.first.maxHealth
    ensures Run(w, script).second.maxHealth == w.second.maxHealth
    decreases |script|
  {
    if script != [] {
      RunKeepsIdentity(Exec(w, script[0]), script[1..]);
    }
  }

  /** One statement keeps both warriors sound. */
  lemma ExecKeepsSound(w: World, c: Command)
    requires Sound(w)
    ensures Sound(Exec(w, c))
  {
  }

  /** The clamping invariant over a whole script: as long as the program runs,
      no warrior is above its maximum, and the shield fields stay consistent. */
  lemma {:induction false} RunKeepsSound(w: World, script: seq<Command>)
    requires Sound(w)
    ensures Sound(Run(w, script))
    decreases |script|
  {
    if script != [] {
      ExecKeepsSound(w, script[0]);
      RunKeepsSound(Exec(w, script[0]), script[1..]);
    }
  }

  /** One statement writes nothing, or a trace followed by a status or a
      death message; a death message is written exactly when it exits. */
  lemma ExecLog(w: World, c: Command)
    ensures var r := Exec(w, c);
      && |w.log| <= |r.log| && r.log[..|w.log|] == w.log
      && (forall i :: |w.log| <= i < |r.log| ==> ActionEvent(r.log[i]))
      && (forall i :: |w.log| <= i < |r.log| && r.log[i].Killed? ==> i == |r.log| - 1 && r.status.Exited?)
      && (w.status.Running? && r.status.Exited? ==> |w.log| < |r.log| && r.log[|r.log| - 1].Killed?)
  {
  }

  /** A script only appends to the log, and only events of wrapped calls. */
  lemma {:induction false} RunAppendsActionEvents(w: World, script: seq<Command>)
    ensures var r := Run(w, script);
      && |w.log| <= |r.log| && r.log[..|w.log|] == w.log
      && (forall i :: |w.log| <= i < |r.log| ==> ActionEvent(r.log[i]))
    decreases |script|
  {
    if script != [] {
      var w1 := Exec(w, script[0]);
      ExecLog(w, script[0]);
      RunAppendsActionEvents(w1, script[1..]);
      var r := Run(w1, script[1..]);
      assert r.log[..|w.log|] == r.log[..|w1.log|][..|w.log|];
    }
  }

  /** A death message is the last thing a script writes and means the program
      exited; a program that exited during the script wrote a death message
      last. */
  lemma {:induction false} RunKillIsLast(w: World, script: seq<Command>)
    ensures var r := Run(w, script);
      && (forall i :: |w.log| <= i < |r.log| && r.log[i].Killed? ==> i == |r.log| - 1 && r.status.Exited?)
      && (w.status.Running? && r.status.Exited? ==> |w.log| < |r.log| && r.log[|r.log| - 1].Killed?)
    decreases |script|
  {
    if script != [] {
      var w1 := Exec(w, script[0]);
      ExecLog(w, script[0]);
      if w1.status.Running? {
        RunKillIsLast(w1, script[1..]);
        RunAppendsActionEvents(w1, script[1..]);
      } else {
        RunHalted(w1, script[1..]);
      }
    }
  }

  /** The scope's announcements bracket the battle: the begin announcement is
      written first and only once, the end announcement last and only once,
      whether the script ran to the end or stopped on a kill or an error; a
      kill is followed by nothing but the end announcement. */
  lemma BattleBracketed(first: Fighter, second: Fighter, script: seq<Command>)
    ensures var log := Battle(first, second, script).log;
      && |log| >= 2 && log[0].BattleBegin? && log[|log| - 1] == BattleEnd
      && (forall i :: 0 < i < |log| - 1 ==> ActionEvent(log[i]))
      && (forall i :: 0 <= i < |log| && log[i].Killed? ==> i == |log| - 2)
  {
    var begun := World(first, second, Running, [BattleBegin(first.kind, first.health, second.kind, second.health)]);
    RunAppendsActionEvents(begun, script);
    RunKillIsLast(begun, script);
  }

  /** Two fresh warriors stay within their maxima for the whole battle. */
  lemma BattleKeepsClamp(k1: Kind, h1: real, k2: Kind, h2: real, script: seq<Command>)
    ensures var w := Battle(Spawn(k1, h1), Spawn(k2, h2), script);
      w.status.Running? ==> w.first.health <= h1 && w.second.health <= h2
  {
    var begun := World(Spawn(k1, h1), Spawn(k2, h2), Running, [BattleBegin(k1, h1, k2, h2)]);
    RunKeepsSound(begun, script);
    RunKeepsIdentity(begun, script);
  }

  /** A Paladin at 5 health hit without the shield drops to -5, is killed,
      and no later statement runs. */
  lemma LethalHitStops(other: Fighter, log: seq<Event>, rest: seq<Command>)
    ensures var p := Fighter(Paladin, 5.0, 200.0, 1.0, false);
      var r := Run(World(p, other, Running, log), [Act(First, GetDamaged)] + rest);
      && r.status == Exited && r.first.health == -5.0 && r.second == other
      && r.log == log + [Trace(Paladin, GetDamaged), Killed(Paladin)]
  {
    var p := Fighter(Paladin, 5.0, 200.0, 1.0, false);
    var script := [Act(First, GetDamaged)] + rest;
    var w1 := Exec(World(p, other, Running, log), script[0]);
    assert w1.status == Exited;
    RunHalted(w1, script[1..]);
  }

  /** A TypeError from use_shield stops the script and leaves the warrior as it was. */
  lemma RejectedShieldStops(w: World, side: Side, v: PyValue, rest: seq<Command>)
    requires w.status.Running? && Pick(w, side).kind.Paladin? && !v.PyBool?
    ensures var r := Run(w, [SetShield(side, v)] + rest);
      r == w.(status := Raised(TypeError("You can set only bool")))
  {
    var script := [SetShield(side, v)] + rest;
    RunHalted(Exec(w, script[0]), script[1..]);
  }

  /** The statements of the demo program's `with` block; the Wizard is the
      first warrior and the Paladin the second. */
  function Demo(): seq<Command> {
    DemoOpeningScript() + DemoClosingScript()
  }

  /** The first six statements of the demo. */
  function DemoOpeningScript(): seq<Command> {
    [ Act(First, GetDamaged), Act(First, EatMushroom),
      Act(Second, GetDamaged), SetShield(Second, PyBool(true)), Act(Second, GetDamaged), Act(Second, EatApple) ]
  }

  /** The last six statements of the demo. */
  function DemoClosingScript(): seq<Command> {
    [ Act(First, EatMushroom), Act(First, EatMushroom), Act(First, GetDamaged),
      Act(Second, GetDamaged), SetShield(Second, PyBool(false)), Act(Second, GetDamaged) ]
  }

  /** Running two scripts one after the other is running their concatenation. */
  lemma {:induction false} RunAppend(w: World, a: seq<Command>, b: seq<Command>)
    ensures Run(w, a + b) == Run(Run(w, a), b)
    decreases |a|
  {
    if a == [] {
      assert a + b == b;
    } else {
      assert (a + b)[0] == a[0] && (a + b)[1..] == a[1..] + b;
      RunAppend(Exec(w, a[0]), a[1..], b);
    }
  }

  /** The first six statements of the demo: the Wizard takes a hit (100 -> 80)
      and eats a mushroom (90); the Paladin takes a hit (190), raises the
      shield, takes a shielded hit (185) and eats an apple (190). */
  lemma DemoOpening(log: seq<Event>)
    ensures Run(World(Spawn(Wizard, 100.0), Spawn(Paladin, 200.0), Running, log), DemoOpeningScript()) ==
      World(Fighter(Wizard, 90.0, 100.0, 1.0, false), Fighter(Paladin, 190.0, 200.0, 0.5, true), Running,
        log + DemoOpeningEvents())
  {
  }

  /** The last six statements: the Wizard eats two mushrooms (90 -> 100, then
      110 clamped back to 100) and takes a hit (80); the Paladin takes a
      shielded hit (185), lowers the shield and takes a full hit (175). */
  lemma DemoClosing(log: seq<Event>)
    ensures Run(World(Fighter(Wizard, 90.0, 100.0, 1.0, false), Fighter(Paladin, 190.0, 200.0, 0.5, true), Running, log), DemoClosingScript()) ==
      World(Fighter(Wizard, 80.0, 100.0, 1.0, false), Fighter(Paladin, 175.0, 200.0, 1.0, false), Running,
        log + DemoClosingEvents())
  {
  }

  /** What the demo writes: the begin announcement, a trace and a status
      line for each of the ten wrapped calls, and the end announcement. */
  function DemoTranscript(): seq<Event> {
    [BattleBegin(Wizard, 100.0, Paladin, 200.0)] + DemoOpeningEvents() + DemoClosingEvents() + [BattleEnd]
  }

  function DemoOpeningEvents(): seq<Event> {
    [ Trace(Wizard, GetDamaged), HealthLine(Wizard, 80.0), Trace(Wizard, EatMushroom), HealthLine(Wizard, 90.0),
      Trace(Paladin, GetDamaged), HealthLine(Paladin, 190.0), Trace(Paladin, GetDamaged), HealthLine(Paladin, 185.0),
      Trace(Paladin, EatApple), HealthLine(Paladin, 190.0) ]
  }

  function DemoClosingEvents(): seq<Event> {
    [ Trace(Wizard, EatMushroom), HealthLine(Wizard, 100.0), Trace(Wizard, EatMushroom), HealthLine(Wizard, 100.0),
      Trace(Wizard, GetDamaged), HealthLine(Wizard, 80.0), Trace(Paladin, GetDamaged), HealthLine(Paladin, 185.0),
      Trace(Paladin, GetDamaged), HealthLine(Paladin, 175.0) ]
  }

  /** The demo battle: nobody dies; the Wizard ends at 80 and the Paladin at
      175 with the shield off, and the output is DemoTranscript(): the
      shielded hit leaves the Paladin at 185, and the Wizard's second
      mushroom (100 -> 110) is cut back to 100. */
  lemma DemoOutcome()
    ensures Battle(Spawn(Wizard, DefaultHealth(Wizard)), Spawn(Paladin, DefaultHealth(Paladin)), Demo()) ==
      World(Fighter(Wizard, 80.0, 100.0, 1.0, false), Fighter(Paladin, 175.0, 200.0, 1.0, false), Running, DemoTranscript())
  {
    var begin := [BattleBegin(Wizard, 100.0, Paladin, 200.0)];
    var start := World(Spawn(Wizard, 100.0), Spawn(Paladin, 200.0), Running, begin);
    var mid := World(Fighter(Wizard, 90.0, 100.0, 1.0, false), Fighter(Paladin, 190.0, 200.0, 0.5, true), Running,
      begin + DemoOpeningEvents());
    var done := World(Fighter(Wizard, 80.0, 100.0, 1.0, false), Fighter(Paladin, 175.0, 200.0, 1.0, false), Running,
      begin + DemoOpeningEvents() + DemoClosingEvents());
    RunAppend(start, DemoOpeningScript(), DemoClosingScript());
    DemoOpening(begin);
    assert Run(start, DemoOpeningScript()) == mid;
    DemoClosing(begin + DemoOpeningEvents());
    assert Run(mid, DemoClosingScript()) == done;
    assert Run(start, Demo()) == done;
  }
}
