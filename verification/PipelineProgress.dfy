/** The spin waits of the pipeline never deadlock: while `times` has not passed the limit, every
    round in which each process gets a turn brings the next servo run closer, and 128 rounds are
    always enough. A round may hold any number of further turns in any order. */
module PipelineProgress {
  import opened Pipeline
  import opened PipelineSafety

  datatype Process = PartProcess(p: Part) | ManagerProcess

  function Actor(t: Turn): Process {
    match t
    case PartTurn(p) => PartProcess(p)
    case ManagerTurn(_) => ManagerProcess
  }

  /** The line others wait for: Camera and Speed publish, Servo runs. */
  predicate AtGoal(s: State, p: Part) {
    AtOp(s, p, if p == Servo then Run else Publish)
  }

  // --- nobody gives up before the limit --------------------------------------------------------

  ghost predicate Alive(s: State) {
    Running(s, Camera) && Running(s, Speed) && Running(s, Servo) && s.manager != Stopped
  }

  ghost predicate AliveUpToLimit(cfg: Config, s: State) {
    s.times <= cfg.maxTimes ==> Alive(s)
  }

  lemma StepKeepsAlive(cfg: Config, s: State, t: Turn)
    requires AliveUpToLimit(cfg, s)
    ensures AliveUpToLimit(cfg, Step(cfg, s, t))
    ensures s.times <= Step(cfg, s, t).times <= s.times + 1
    ensures Step(cfg, s, t).times == s.times + 1 <==> t == PartTurn(Servo) && AtGoal(s, Servo)
  {}

  lemma {:induction false} ExecKeepsAlive(cfg: Config, s: State, schedule: seq<Turn>)
    requires AliveUpToLimit(cfg, s)
    ensures AliveUpToLimit(cfg, Exec(cfg, s, schedule))
    ensures s.times <= Exec(cfg, s, schedule).times
    decreases |schedule|
  {
    if schedule != [] {
      StepKeepsAlive(cfg, s, schedule[0]);
      ExecKeepsAlive(cfg, Step(cfg, s, schedule[0]), schedule[1..]);
    }
  }

  // --- how far away the next servo run is ------------------------------------------------------

  /** Turns the manager needs, at most, to reach and execute the clearing of `p`'s need flag. */
  function Position(m: ManagerPc): nat {
    match m
    case LoopTest => 0
    case UnitCheck(p) => 1 + Index(p)
    case NeedTest(p) => 4 + 3 * Index(p)
    case CompulsiveSave(p) => 5 + 3 * Index(p)
    case NeedClear(p) => 6 + 3 * Index(p)
    case _ => 0
  }

  function Distance(m: ManagerPc, p: Part): nat {
    var target := 6 + 3 * Index(p);
    if Position(m) <= target then target - Position(m) + 1 else 14 + target - Position(m)
  }

  /** Turns that suffice from line `pc` of `p` through its next goal line, when every barrier on
      the way costs a manager loop (13 + 1) and every wait for data a full upstream lap
      (51 + 1 for Camera, 104 + 1 for Speed). `RestUnfolds` derives the entries. */
  function Rest(p: Part, pc: nat): nat
    requires pc < Length(p)
  {
    match p
    case Camera => (
      match pc
      case 0 => 2 case 1 => 1 case 2 => 51 case 3 => 50 case 4 => 36 case 5 => 35
      case 6 => 34 case 7 => 20 case 8 => 19 case 9 => 18 case 10 => 4 case _ => 3)
    case Speed => (
      match pc
      case 0 => 71 case 1 => 70 case 2 => 69 case 3 => 55 case 4 => 3 case 5 => 2 case 6 => 1
      case 7 => 104 case 8 => 103 case 9 => 89 case 10 => 88 case 11 => 87 case 12 => 73 case _ => 72)
    case Servo => (
      match pc
      case 0 => 1 case 1 => 16 case 2 => 15 case 3 => 1 case 4 => 122 case 5 => 121 case 6 => 107
      case 7 => 2 case 8 => 1 case 9 => 19 case 10 => 18 case 11 => 17 case 12 => 3 case _ => 2)
  }

  /** The longest `Rest` of a part. */
  function Lap(p: Part): nat {
    match p
    case Camera => 51
    case Speed => 104
    case Servo => 122
  }

  function Cost(p: Part, op: Op): nat {
    match op
    case AwaitBarrier => 14
    case AwaitData => 1 + Lap(Upstream(p))
    case _ => 1
  }

  function Next(p: Part, pc: nat): nat {
    if pc + 1 == Length(p) then 0 else pc + 1
  }

  lemma RestUnfolds(p: Part, pc: nat)
    requires pc < Length(p)
    ensures Rest(p, pc) <= Lap(p)
    ensures if OpAt(p, pc) == (if p == Servo then Run else Publish) then Rest(p, pc) == 1
            else Rest(p, pc) == Cost(p, OpAt(p, pc)) + Rest(p, Next(p, pc))
  {}

  predicate WaitsForManager(s: State, p: Part) {
    AtOp(s, p, AwaitBarrier) && s.need.At(p)
  }

  predicate WaitsForData(s: State, p: Part) {
    p != Camera && AtOp(s, p, AwaitData) && !s.isNewData.At(Upstream(p))
  }

  /** Turns that suffice from here, looking through the waits to whoever must move first. */
  function Rank(s: State, p: Part): nat
    requires Alive(s)
    decreases Index(p)
  {
    if WaitsForManager(s, p) then 1 + Distance(s.manager, p) + Rest(p, Next(p, s.Pc(p)))
    else if WaitsForData(s, p) then 1 + Rank(s, Upstream(p)) + Rest(p, Next(p, s.Pc(p)))
    else if AtOp(s, p, AwaitBarrier) || AtOp(s, p, AwaitData) then 1 + Rest(p, Next(p, s.Pc(p)))
    else Rest(p, s.Pc(p))
  }

  /** The process that must move for `p` to advance. */
  function Blocker(s: State, p: Part): Process
    decreases Index(p)
  {
    if WaitsForManager(s, p) then ManagerProcess
    else if WaitsForData(s, p) then Blocker(s, Upstream(p))
    else PartProcess(p)
  }

  predicate Resetting(m: ManagerPc) {
    m.ResetData? || m.ResetNeed?
  }

  lemma {:induction false} RankBound(s: State, p: Part)
    requires Alive(s) && !Resetting(s.manager)
    ensures 1 <= Rank(s, p) <= Rest(p, s.Pc(p)) <= Lap(p)
    decreases Index(p)
  {
    RestUnfolds(p, s.Pc(p));
    if WaitsForData(s, p) {
      RankBound(s, Upstream(p));
    }
  }

  // --- one turn --------------------------------------------------------------------------------

  /** No start-up reset is pending and the limit has not been passed. */
  ghost predicate Settled(cfg: Config, s: State) {
    Alive(s) && !Resetting(s.manager) && s.times <= cfg.maxTimes
  }

  lemma ManagerComesCloser(cfg: Config, s: State, due: bool, p: Part)
    requires Settled(cfg, s) && WaitsForManager(s, p)
    ensures var t := ManagerStep(cfg, s, due);
            && Settled(cfg, t) && t.local == s.local && t.isNewData == s.isNewData
            && 1 <= Distance(s.manager, p)
            && (WaitsForManager(t, p) ==> Distance(t.manager, p) < Distance(s.manager, p))
  {}

  lemma ManagerElsewhere(cfg: Config, s: State, due: bool, p: Part)
    requires Settled(cfg, s) && !WaitsForManager(s, p)
    ensures var t := ManagerStep(cfg, s, due);
            && Settled(cfg, t) && t.local == s.local && t.isNewData == s.isNewData
            && !WaitsForManager(t, p)
  {}

  lemma OwnTurn(cfg: Config, s: State, p: Part)
    requires Settled(cfg, s) && Blocker(s, p) == PartProcess(p) && !AtGoal(s, p)
    requires !WaitsForManager(s, p) && !WaitsForData(s, p)
    ensures var t := PartStep(cfg, s, p);
            Settled(cfg, t) && t.Pc(p) == Next(p, s.Pc(p))
  {}

  lemma OthersTurn(cfg: Config, s: State, q: Part, p: Part)
    requires Settled(cfg, s) && p != q
    ensures var t := PartStep(cfg, s, q);
            && t.local.At(p) == s.local.At(p) && t.need.At(p) == s.need.At(p) && t.manager == s.manager
            && WaitsForManager(t, p) == WaitsForManager(s, p)
            && WaitsForData(t, p) == (WaitsForData(s, p) && !(q == Upstream(p) && AtGoal(s, q)))
            && (WaitsForData(s, p) ==> p != Camera && AtOp(s, p, AwaitData))
  {}

  /** A turn of the blocker lowers the rank; any other turn changes neither rank nor blocker. */
  ghost predicate Closer(s: State, s': State, actor: Process, p: Part)
    requires Alive(s) && Alive(s')
  {
    if actor == Blocker(s, p) then Rank(s', p) < Rank(s, p)
    else Rank(s', p) == Rank(s, p) && Blocker(s', p) == Blocker(s, p)
  }

  lemma {:induction false} ManagerRank(cfg: Config, s: State, due: bool, p: Part)
    requires Settled(cfg, s) && Settled(cfg, ManagerStep(cfg, s, due))
    ensures Closer(s, ManagerStep(cfg, s, due), ManagerProcess, p)
    decreases Index(p)
  {
    hide ManagerStep, OpAt, Rest, Distance;
    if WaitsForManager(s, p) {
      ManagerComesCloser(cfg, s, due, p);
    } else {
      ManagerElsewhere(cfg, s, due, p);
      if WaitsForData(s, p) {
        ManagerRank(cfg, s, due, Upstream(p));
      }
    }
  }

  lemma OwnRank(cfg: Config, s: State, p: Part)
    requires Settled(cfg, s) && Settled(cfg, PartStep(cfg, s, p)) && !AtGoal(s, p)
    ensures Closer(s, PartStep(cfg, s, p), PartProcess(p), p)
  {
    if WaitsForManager(s, p) || WaitsForData(s, p) {
      assert PartStep(cfg, s, p) == s;
      if WaitsForData(s, p) {
        BlockedByAnother(s, Upstream(p));
      }
    } else {
      OwnTurn(cfg, s, p);
      RestUnfolds(p, s.Pc(p));
      RankBound(PartStep(cfg, s, p), p);
    }
  }

  /** A part is never blocked by one further down the line. */
  lemma {:induction false} BlockedByAnother(s: State, p: Part)
    ensures Blocker(s, p).PartProcess? ==> Index(Blocker(s, p).p) <= Index(p)
    decreases Index(p)
  {
    if WaitsForData(s, p) {
      BlockedByAnother(s, Upstream(p));
    }
  }

  lemma GoalNeverWaits(s: State, p: Part)
    requires AtGoal(s, p)
    ensures Blocker(s, p) == PartProcess(p)
  {}

  lemma {:induction false} OthersRank(cfg: Config, s: State, q: Part, p: Part)
    requires Settled(cfg, s) && Settled(cfg, PartStep(cfg, s, q)) && q != p
    ensures Closer(s, PartStep(cfg, s, q), PartProcess(q), p)
    decreases Index(p)
  {
    hide PartStep, OpAt, Rest, Distance, WaitsForManager, WaitsForData, AtGoal;
    OthersTurn(cfg, s, q, p);
    if WaitsForData(s, p) {
      if q != Upstream(p) {
        OthersRank(cfg, s, q, Upstream(p));
      } else if AtGoal(s, q) {
        GoalNeverWaits(s, q);
        RankBound(s, q);
      } else {
        OwnRank(cfg, s, q);
      }
    }
  }

  // --- the measure of a whole state ------------------------------------------------------------

  function ResetLeft(m: ManagerPc): nat {
    match m
    case ResetData(p) => 6 - 2 * Index(p)
    case ResetNeed(p) => 5 - 2 * Index(p)
    case _ => 0
  }

  const ROUNDS: nat := 128

  /** Rounds that suffice until `times` rises. The reset comes first: it may take data back. */
  function Measure(s: State): nat
    requires Alive(s)
  {
    if Resetting(s.manager) then Lap(Servo) + ResetLeft(s.manager) else Rank(s, Servo)
  }

  function Mover(s: State): Process {
    if Resetting(s.manager) then ManagerProcess else Blocker(s, Servo)
  }

  lemma MeasureStep(cfg: Config, s: State, t: Turn)
    requires AliveUpToLimit(cfg, s) && s.times <= cfg.maxTimes && Step(cfg, s, t).times == s.times
    ensures Alive(s) && Alive(Step(cfg, s, t))
    ensures var s' := Step(cfg, s, t);
            if Actor(t) == Mover(s) then Measure(s') < Measure(s)
            else Measure(s') == Measure(s) && Mover(s') == Mover(s)
  {
    StepKeepsAlive(cfg, s, t);
    if Resetting(s.manager) {
      ResetTurn(cfg, s, t);
    } else {
      match t
      case ManagerTurn(due) => ManagerRank(cfg, s, due, Servo);
      case PartTurn(q) =>
        if q == Servo {
          OwnRank(cfg, s, Servo);
        } else {
          OthersRank(cfg, s, q, Servo);
        }
    }
  }

  lemma ResetTurn(cfg: Config, s: State, t: Turn)
    requires Alive(s) && Alive(Step(cfg, s, t)) && Resetting(s.manager)
    ensures var s' := Step(cfg, s, t);
            if Actor(t) == ManagerProcess then Measure(s') < Measure(s) else s'.manager == s.manager
  {
    var s' := Step(cfg, s, t);
    if !Resetting(s'.manager) {
      RankBound(s', Servo);
    }
  }

  lemma MeasureBound(s: State)
    requires Alive(s)
    ensures 1 <= Measure(s) <= ROUNDS
  {
    if !Resetting(s.manager) {
      RankBound(s, Servo);
    }
  }

  // --- rounds ----------------------------------------------------------------------------------

  ghost predicate TakesTurn(schedule: seq<Turn>, actor: Process) {
    exists i :: 0 <= i < |schedule| && Actor(schedule[i]) == actor
  }

  /** In a round every process gets at least one turn, in whatever order. */
  ghost predicate Round(schedule: seq<Turn>) {
    forall actor: Process :: TakesTurn(schedule, actor)
  }

  ghost predicate HasRounds(schedule: seq<Turn>, k: nat)
    decreases k
  {
    k == 0 || exists n: nat :: n <= |schedule| && Round(schedule[..n]) && HasRounds(schedule[n..], k - 1)
  }

  /** Any stretch in which the mover gets a turn makes progress. */
  lemma {:induction false} StretchProgress(cfg: Config, s: State, schedule: seq<Turn>)
    requires AliveUpToLimit(cfg, s) && s.times <= cfg.maxTimes && TakesTurn(schedule, Mover(s))
    ensures var s' := Exec(cfg, s, schedule);
            && AliveUpToLimit(cfg, s')
            && (s'.times == s.times ==> Alive(s') && Alive(s) && Measure(s') < Measure(s))
    decreases |schedule|
  {
    var t, rest := schedule[0], schedule[1..];
    var next := Step(cfg, s, t);
    StepKeepsAlive(cfg, s, t);
    ExecKeepsAlive(cfg, next, rest);
    if Exec(cfg, s, schedule).times == s.times {
      MeasureStep(cfg, s, t);
      if Actor(t) != Mover(s) {
        var i :| 0 <= i < |schedule| && Actor(schedule[i]) == Mover(s);
        assert rest[i - 1] == schedule[i];
        StretchProgress(cfg, next, rest);
      } else {
        MeasureNeverRises(cfg, next, rest);
      }
    }
  }

  lemma {:induction false} MeasureNeverRises(cfg: Config, s: State, schedule: seq<Turn>)
    requires AliveUpToLimit(cfg, s) && s.times <= cfg.maxTimes && Exec(cfg, s, schedule).times == s.times
    ensures Alive(s) && Alive(Exec(cfg, s, schedule))
    ensures Measure(Exec(cfg, s, schedule)) <= Measure(s)
    decreases |schedule|
  {
    if schedule != [] {
      var next := Step(cfg, s, schedule[0]);
      StepKeepsAlive(cfg, s, schedule[0]);
      ExecKeepsAlive(cfg, next, schedule[1..]);
      MeasureStep(cfg, s, schedule[0]);
      MeasureNeverRises(cfg, next, schedule[1..]);
    }
  }

  lemma {:induction false} RoundsRaiseTimes(cfg: Config, s: State, schedule: seq<Turn>, k: nat)
    requires AliveUpToLimit(cfg, s) && s.times <= cfg.maxTimes && HasRounds(schedule, k)
    requires Alive(s) && Measure(s) <= k
    ensures Exec(cfg, s, schedule).times > s.times
    decreases k
  {
    hide Exec, Mover, Measure, TakesTurn;
    MeasureBound(s);
    var n: nat :| n <= |schedule| && Round(schedule[..n]) && HasRounds(schedule[n..], k - 1);
    var mid := Exec(cfg, s, schedule[..n]);
    assert TakesTurn(schedule[..n], Mover(s));
    StretchProgress(cfg, s, schedule[..n]);
    assert schedule == schedule[..n] + schedule[n..];
    ExecAppend(cfg, s, schedule[..n], schedule[n..]);
    ExecKeepsAlive(cfg, s, schedule[..n]);
    ExecKeepsAlive(cfg, mid, schedule[n..]);
    if mid.times == s.times {
      RoundsRaiseTimes(cfg, mid, schedule[n..], k - 1);
    }
  }

  // --- main results ----------------------------------------------------------------------------

  lemma InitialAlive(cfg: Config, s: State)
    requires Initial(s)
    ensures AliveUpToLimit(cfg, s)
  {}

  /** No deadlock, under any fair scheduling: from every reachable state below the limit,
      128 rounds raise `times`. */
  lemma Progress(cfg: Config, start: State, before: seq<Turn>, after: seq<Turn>)
    requires Initial(start)
    requires Exec(cfg, start, before).times <= cfg.maxTimes
    requires HasRounds(after, ROUNDS)
    ensures Exec(cfg, start, before + after).times > Exec(cfg, start, before).times
  {
    InitialAlive(cfg, start);
    ExecKeepsAlive(cfg, start, before);
    MeasureBound(Exec(cfg, start, before));
    RoundsRaiseTimes(cfg, Exec(cfg, start, before), after, ROUNDS);
    ExecAppend(cfg, start, before, after);
  }

  /** From every reachable state below the limit at most 128 turns, well chosen, raise `times` by one. */
  lemma {:induction false} ShortestWay(cfg: Config, s: State) returns (schedule: seq<Turn>)
    requires AliveUpToLimit(cfg, s) && s.times <= cfg.maxTimes
    ensures Alive(s) && |schedule| <= Measure(s) <= ROUNDS
    ensures Exec(cfg, s, schedule).times == s.times + 1
    decreases if Alive(s) then Measure(s) else 0
  {
    MeasureBound(s);
    var t := match Mover(s) case ManagerProcess => ManagerTurn(false) case PartProcess(p) => PartTurn(p);
    var next := Step(cfg, s, t);
    StepKeepsAlive(cfg, s, t);
    if next.times == s.times {
      MeasureStep(cfg, s, t);
      var rest := ShortestWay(cfg, next);
      schedule := [t] + rest;
      assert schedule[1..] == rest;
    } else {
      schedule := [t];
      assert Exec(cfg, next, []) == next;
      assert schedule[1..] == [];
    }
  }

  /** A schedule of `j + k` rounds falls into `j` rounds and then `k`. */
  lemma {:induction false} SplitRounds(schedule: seq<Turn>, j: nat, k: nat) returns (a: seq<Turn>, b: seq<Turn>)
    requires HasRounds(schedule, j + k)
    ensures schedule == a + b && HasRounds(a, j) && HasRounds(b, k)
    decreases j
  {
    if j == 0 {
      a, b := [], schedule;
    } else {
      var m: nat :| m <= |schedule| && Round(schedule[..m]) && HasRounds(schedule[m..], j - 1 + k);
      var rest;
      rest, b := SplitRounds(schedule[m..], j - 1, k);
      a := schedule[..m] + rest;
      assert a[..m] == schedule[..m] && a[m..] == rest;
    }
  }

  /** `Progress` for a state given by itself rather than by the run that led to it. */
  lemma RoundsPayOff(cfg: Config, s: State, a: seq<Turn>, b: seq<Turn>)
    requires AliveUpToLimit(cfg, s) && HasRounds(b, ROUNDS)
    ensures Exec(cfg, s, a + b).times >= Exec(cfg, s, a).times
    ensures Exec(cfg, s, a).times <= cfg.maxTimes ==> Exec(cfg, s, a + b).times > Exec(cfg, s, a).times
  {
    hide Exec, HasRounds, Measure;
    ExecAppend(cfg, s, a, b);
    ExecKeepsAlive(cfg, s, a);
    var mid := Exec(cfg, s, a);
    ExecKeepsAlive(cfg, mid, b);
    if mid.times <= cfg.maxTimes {
      MeasureBound(mid);
      RoundsRaiseTimes(cfg, mid, b, ROUNDS);
    }
  }

  function RoundsFor(target: nat): nat {
    if target == 0 then 0 else RoundsFor(target - 1) + ROUNDS
  }

  /** Every fair run passes the limit: 128 rounds for each value of `times` drive it to any `target`
      up to one more than the limit. */
  lemma {:induction false} EveryRunEnds(cfg: Config, s: State, schedule: seq<Turn>, target: nat)
    requires AliveUpToLimit(cfg, s) && target <= cfg.maxTimes + 1
    requires HasRounds(schedule, RoundsFor(target))
    ensures Exec(cfg, s, schedule).times >= target
    decreases target
  {
    hide Exec, HasRounds, AliveUpToLimit;
    if target > 0 {
      var a, b := SplitRounds(schedule, RoundsFor(target - 1), ROUNDS);
      EveryRunEnds(cfg, s, a, target - 1);
      RoundsPayOff(cfg, s, a, b);
    }
  }

  // --- the manager comes to its end ------------------------------------------------------------

  const SWEEP: nat := 13

  /** Turns the manager still takes once the limit is passed. */
  function ManagerLeft(m: ManagerPc): nat {
    if m.Stopped? then 0
    else if m.LoopTest? then 1
    else if Resetting(m) then ResetLeft(m) + 1
    else SWEEP + 1 - Position(m)
  }

  lemma ManagerNearsEnd(cfg: Config, s: State, t: Turn)
    requires s.times > cfg.maxTimes
    ensures var next := Step(cfg, s, t);
            && next.times > cfg.maxTimes
            && (t.PartTurn? ==> next.manager == s.manager)
            && (t.ManagerTurn? ==> ManagerLeft(next.manager) < ManagerLeft(s.manager) || s.manager == next.manager == Stopped)
  {
    if t.PartTurn? {
      PartFrame(cfg, s, t.part);
      PartTimes(cfg, s, t.part);
    }
  }

  lemma PartTimes(cfg: Config, s: State, p: Part)
    ensures PartStep(cfg, s, p).times >= s.times
  {}

  lemma {:induction false} StretchNearsEnd(cfg: Config, s: State, schedule: seq<Turn>)
    requires s.times > cfg.maxTimes
    ensures var e := Exec(cfg, s, schedule);
            && e.times > cfg.maxTimes && ManagerLeft(e.manager) <= ManagerLeft(s.manager)
            && (TakesTurn(schedule, ManagerProcess) ==> ManagerLeft(e.manager) < ManagerLeft(s.manager) || e.manager == Stopped)
    decreases |schedule|
  {
    if schedule != [] {
      hide Step, ManagerLeft;
      var t, rest := schedule[0], schedule[1..];
      ManagerNearsEnd(cfg, s, t);
      LeftWhenStopped();
      StretchNearsEnd(cfg, Step(cfg, s, t), rest);
      if TakesTurn(schedule, ManagerProcess) && t.PartTurn? {
        var i :| 0 <= i < |schedule| && Actor(schedule[i]) == ManagerProcess;
        assert rest[i - 1] == schedule[i];
      }
    }
  }

  lemma LeftWhenStopped()
    ensures forall m: ManagerPc :: ManagerLeft(m) == 0 <==> m == Stopped
  {}

  lemma {:induction false} RoundsStopManager(cfg: Config, s: State, schedule: seq<Turn>, k: nat)
    requires s.times > cfg.maxTimes && HasRounds(schedule, k) && ManagerLeft(s.manager) <= k
    ensures Exec(cfg, s, schedule).manager == Stopped
    decreases k
  {
    hide Exec, ManagerLeft, TakesTurn;
    LeftWhenStopped();
    if s.manager == Stopped {
      StretchNearsEnd(cfg, s, schedule);
    } else {
      var n: nat :| n <= |schedule| && Round(schedule[..n]) && HasRounds(schedule[n..], k - 1);
      assert schedule == schedule[..n] + schedule[n..];
      ExecAppend(cfg, s, schedule[..n], schedule[n..]);
      StretchNearsEnd(cfg, s, schedule[..n]);
      assert TakesTurn(schedule[..n], ManagerProcess);
      RoundsStopManager(cfg, Exec(cfg, s, schedule[..n]), schedule[n..], k - 1);
    }
  }

  /** `Car::Run` returns under every fair schedule: a sweep's worth of rounds after the limit is
      passed, the manager has left its loop. It never leaves it earlier. */
  lemma ManagerReturns(cfg: Config, start: State, schedule: seq<Turn>)
    requires Initial(start) && HasRounds(schedule, RoundsFor(cfg.maxTimes + 1) + SWEEP)
    ensures Exec(cfg, start, schedule).manager == Stopped
  {
    hide Exec, ManagerLeft, HasRounds, RoundsFor;
    var a, b := SplitRounds(schedule, RoundsFor(cfg.maxTimes + 1), SWEEP);
    InitialAlive(cfg, start);
    EveryRunEnds(cfg, start, a, cfg.maxTimes + 1);
    ExecAppend(cfg, start, a, b);
    LeftBound(Exec(cfg, start, a).manager);
    RoundsStopManager(cfg, Exec(cfg, start, a), b, SWEEP);
  }

  lemma LeftBound(m: ManagerPc)
    ensures ManagerLeft(m) <= SWEEP
  {}

  lemma ManagerStaysBelowLimit(cfg: Config, start: State, schedule: seq<Turn>)
    requires Initial(start) && Exec(cfg, start, schedule).manager == Stopped
    ensures Exec(cfg, start, schedule).times > cfg.maxTimes
  {
    InitialAlive(cfg, start);
    ExecKeepsAlive(cfg, start, schedule);
  }
}
