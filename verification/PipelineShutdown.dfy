/** How the pipeline ends. A part calls `exit` only behind its last barrier of a loop body, and
    barriers open only while the manager still sweeps; the manager leaves as soon as it reads
    `times > MAX_TIMES`. Whether ServoPID can ever exit depends on MAX_TIMES modulo three. */
module PipelineShutdown {
  import opened Pipeline
  import opened PipelineSafety
  import opened PipelineProgress

  /** Barriers ServoPID has yet to pass before its exit test, and openings that can still come. */
  function Needed(s: State): int {
    3 - BarriersBefore(Servo, s.Pc(Servo))
  }

  function StillOpening(m: ManagerPc): nat {
    Tick(StillToVisit(m, Servo)) + Tick(!ResetDone(m, Servo))
  }

  function Openings(s: State): nat {
    Tick(AtOp(s, Servo, AwaitBarrier) && !s.need.servo) + StillOpening(s.manager)
  }

  /** Past the limit, the remaining barriers outnumber the openings that can still come. */
  ghost predicate Stranded(cfg: Config, s: State) {
    s.times > cfg.maxTimes ==> Needed(s) > Openings(s)
  }

  lemma PartKeepsStranded(cfg: Config, s: State, p: Part)
    requires TimesCounted(cfg, s) && Stranded(cfg, s) && cfg.maxTimes % 3 != 2
    ensures Stranded(cfg, PartStep(cfg, s, p))
  {
    if p != Servo {
      PartFrame(cfg, s, p);
    }
  }

  lemma ManagerKeepsStranded(cfg: Config, s: State, due: bool)
    requires Stranded(cfg, s)
    ensures Stranded(cfg, ManagerStep(cfg, s, due))
  {}

  lemma StepKeepsStranded(cfg: Config, s: State, t: Turn)
    requires TimesCounted(cfg, s) && Stranded(cfg, s) && cfg.maxTimes % 3 != 2
    ensures TimesCounted(cfg, Step(cfg, s, t)) && Stranded(cfg, Step(cfg, s, t))
  {
    hide PartStep, ManagerStep, TimesCounted, Stranded;
    match t
    case PartTurn(p) =>
      OwnTimes(cfg, s, p);
      PartKeepsStranded(cfg, s, p);
    case ManagerTurn(due) =>
      ManagerKeepsTimes(cfg, s, due);
      ManagerKeepsStranded(cfg, s, due);
  }

  lemma {:induction false} ExecKeepsStranded(cfg: Config, s: State, schedule: seq<Turn>)
    requires TimesCounted(cfg, s) && Stranded(cfg, s) && cfg.maxTimes % 3 != 2
    ensures TimesCounted(cfg, Exec(cfg, s, schedule)) && Stranded(cfg, Exec(cfg, s, schedule))
    decreases |schedule|
  {
    hide Step, TimesCounted, Stranded;
    if schedule != [] {
      StepKeepsStranded(cfg, s, schedule[0]);
      ExecKeepsStranded(cfg, Step(cfg, s, schedule[0]), schedule[1..]);
    }
  }

  lemma InitialStranded(cfg: Config, s: State)
    requires Initial(s)
    ensures TimesCounted(cfg, s) && AliveUpToLimit(cfg, s) && Stranded(cfg, s)
  {
    InitialAlive(cfg, s);
  }

  lemma ServoRunsOn(cfg: Config, s: State, schedule: seq<Turn>)
    requires TimesCounted(cfg, s) && AliveUpToLimit(cfg, s) && Stranded(cfg, s) && cfg.maxTimes % 3 != 2
    ensures Running(Exec(cfg, s, schedule), Servo)
  {
    ExecKeepsStranded(cfg, s, schedule);
    ExecKeepsAlive(cfg, s, schedule);
  }

  /** Unless MAX_TIMES is two modulo three (it is 30), ServoPID never reaches its `exit(0)`. */
  lemma ServoNeverExits(cfg: Config, start: State, schedule: seq<Turn>)
    requires Initial(start) && cfg.maxTimes % 3 != 2
    ensures Running(Exec(cfg, start, schedule), Servo)
  {
    InitialStranded(cfg, start);
    ServoRunsOn(cfg, start, schedule);
  }

  // --- a run in which it does exit -------------------------------------------------------------

  lemma {:induction false} ReachTimes(cfg: Config, s: State, target: nat) returns (schedule: seq<Turn>)
    requires AliveUpToLimit(cfg, s) && s.times <= target <= cfg.maxTimes
    ensures Exec(cfg, s, schedule).times == target
    decreases target - s.times
  {
    if s.times == target {
      schedule := [];
    } else {
      var a := ShortestWay(cfg, s);
      ExecKeepsAlive(cfg, s, a);
      var b := ReachTimes(cfg, Exec(cfg, s, a), target);
      ExecAppend(cfg, s, a, b);
      schedule := a + b;
    }
  }

  /** From below the limit ServoPID can be brought to its next run, the start-up reset being over. */
  lemma {:induction false} ReachRun(cfg: Config, s: State) returns (schedule: seq<Turn>)
    requires AliveUpToLimit(cfg, s) && s.times <= cfg.maxTimes
    ensures var e := Exec(cfg, s, schedule);
            AliveUpToLimit(cfg, e) && e.times == s.times && AtGoal(e, Servo) && !Resetting(e.manager)
    decreases Measure(s)
  {
    if AtGoal(s, Servo) && !Resetting(s.manager) {
      schedule := [];
    } else {
      MeasureBound(s);
      var t := match Mover(s) case ManagerProcess => ManagerTurn(false) case PartProcess(p) => PartTurn(p);
      StepKeepsAlive(cfg, s, t);
      MeasureStep(cfg, s, t);
      var rest := ReachRun(cfg, Step(cfg, s, t));
      schedule := [t] + rest;
      assert schedule[1..] == rest;
    }
  }

  ghost predicate OnlyManagerMoved(s: State, e: State) {
    e.local == s.local && e.times == s.times
  }

  /** The manager can be brought to the start of a sweep, nobody else moving. */
  lemma {:induction false} ReachSweep(cfg: Config, s: State) returns (schedule: seq<Turn>)
    requires s.times <= cfg.maxTimes && s.manager != Stopped && !Resetting(s.manager)
    ensures var e := Exec(cfg, s, schedule); OnlyManagerMoved(s, e) && e.manager == UnitCheck(Camera)
    decreases Distance(s.manager, Servo) + (if s.manager == LoopTest then 0 else 14)
  {
    var t := ManagerTurn(false);
    if s.manager == UnitCheck(Camera) {
      schedule := [];
    } else if s.manager == LoopTest {
      schedule := [t];
      assert Exec(cfg, Step(cfg, s, t), []) == Step(cfg, s, t);
    } else {
      var rest := ReachSweep(cfg, Step(cfg, s, t));
      schedule := [t] + rest;
      assert schedule[1..] == rest;
    }
  }

  /** In mid-sweep the manager opens ServoPID's barrier whatever `times` is by then. */
  lemma {:induction false} ReachOpening(cfg: Config, s: State) returns (schedule: seq<Turn>)
    requires s.need.servo && StillToVisit(s.manager, Servo)
    ensures var e := Exec(cfg, s, schedule); OnlyManagerMoved(s, e) && !e.need.servo
    decreases Distance(s.manager, Servo)
  {
    var t := ManagerTurn(false);
    var next := Step(cfg, s, t);
    if s.manager == NeedClear(Servo) {
      schedule := [t];
      assert Exec(cfg, next, []) == next;
    } else {
      var rest := ReachOpening(cfg, next);
      schedule := [t] + rest;
      assert schedule[1..] == rest;
    }
  }

  lemma ThreeTurns(cfg: Config, s: State, t: Turn)
    ensures Exec(cfg, s, [t, t, t]) == Step(cfg, Step(cfg, Step(cfg, s, t), t), t)
  {
    var s1, s2 := Step(cfg, s, t), Step(cfg, Step(cfg, s, t), t);
    assert [t, t, t][1..] == [t, t] && [t, t][1..] == [t] && [t][1..] == [];
    assert Exec(cfg, s1, [t, t]) == Exec(cfg, s2, [t]);
    assert Exec(cfg, s2, [t]) == Exec(cfg, Step(cfg, s2, t), []);
  }

  /** The last servo run, its publication and its barrier. */
  lemma LastRun(cfg: Config, s: State)
    requires s.Pc(Servo) == 8
    ensures var e := Exec(cfg, s, [PartTurn(Servo), PartTurn(Servo), PartTurn(Servo)]);
            e.Pc(Servo) == 11 && e.need.servo && e.times == s.times + 1 && e.manager == s.manager
  {
    ThreeTurns(cfg, s, PartTurn(Servo));
  }

  lemma LeaveThroughOpenBarrier(cfg: Config, s: State)
    requires s.Pc(Servo) == 11 && !s.need.servo && s.times > cfg.maxTimes
    ensures !Running(Exec(cfg, s, [PartTurn(Servo), PartTurn(Servo), PartTurn(Servo)]), Servo)
  {
    ThreeTurns(cfg, s, PartTurn(Servo));
  }

  /** If MAX_TIMES is two modulo three, some run does let ServoPID exit: its last run falls into
      a sweep the manager began before the limit was passed. */
  lemma ServoCanExit(cfg: Config, start: State) returns (schedule: seq<Turn>)
    requires Initial(start) && cfg.maxTimes % 3 == 2
    ensures !Running(Exec(cfg, start, schedule), Servo)
  {
    InitialAlive(cfg, start);
    var a := ReachTimes(cfg, start, cfg.maxTimes);
    ExecKeepsAlive(cfg, start, a);
    var s1 := Exec(cfg, start, a);
    var b := ReachRun(cfg, s1);
    ExecAppend(cfg, start, a, b);
    InitInv(cfg, start);
    ExecKeepsInv(cfg, start, a + b);
    schedule := FinishFrom(cfg, start, a + b);
  }

  lemma FinishFrom(cfg: Config, start: State, before: seq<Turn>) returns (schedule: seq<Turn>)
    requires var s := Exec(cfg, start, before);
             && TimesCounted(cfg, s) && AliveUpToLimit(cfg, s) && s.times == cfg.maxTimes
             && AtGoal(s, Servo) && !Resetting(s.manager)
    requires cfg.maxTimes % 3 == 2
    ensures !Running(Exec(cfg, start, schedule), Servo)
  {
    var s := Exec(cfg, start, before);
    var servo3 := [PartTurn(Servo), PartTurn(Servo), PartTurn(Servo)];
    assert s.Pc(Servo) == 8;
    var c := ReachSweep(cfg, s);
    var s2 := Exec(cfg, s, c);
    LastRun(cfg, s2);
    var s3 := Exec(cfg, s2, servo3);
    var d := ReachOpening(cfg, s3);
    var s4 := Exec(cfg, s3, d);
    LeaveThroughOpenBarrier(cfg, s4);
    ExecAppend(cfg, start, before, c);
    ExecAppend(cfg, start, before + c, servo3);
    ExecAppend(cfg, start, before + c + servo3, d);
    ExecAppend(cfg, start, before + c + servo3 + d, servo3);
    schedule := before + c + servo3 + d + servo3;
  }

  /** ServoPID can terminate on its own exactly when MAX_TIMES is two modulo three. */
  lemma ServoExit(cfg: Config, start: State)
    requires Initial(start)
    ensures (exists schedule :: !Running(Exec(cfg, start, schedule), Servo)) <==> cfg.maxTimes % 3 == 2
  {
    if cfg.maxTimes % 3 == 2 {
      var schedule := ServoCanExit(cfg, start);
    } else {
      forall schedule
        ensures Running(Exec(cfg, start, schedule), Servo)
      {
        ServoNeverExits(cfg, start, schedule);
      }
    }
  }
}
