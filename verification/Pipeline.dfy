/** The recoverybase pipeline as an interleaving step system: Camera, Speed and ServoPID each run
    their own endless program over one shared `State`, and the manager (`Car::Run`) resets,
    tests and clears the shared arrays. One step is one atomic read or write of shared memory. */
module Pipeline {

  datatype Part = Camera | Speed | Servo

  /** One value per part: the three-element arrays of the shared `State`. */
  datatype Trio<T> = Trio(camera: T, speed: T, servo: T) {
    function At(p: Part): T {
      match p
      case Camera => camera
      case Speed => speed
      case Servo => servo
    }

    function Put(p: Part, v: T): Trio<T> {
      match p
      case Camera => Trio(v, speed, servo)
      case Speed => Trio(camera, v, servo)
      case Servo => Trio(camera, speed, v)
    }
  }

  function Index(p: Part): nat {
    match p
    case Camera => 0
    case Speed => 1
    case Servo => 2
  }

  /** The part whose `is_new_data` flag `p` waits for; Camera waits for nobody. */
  function Upstream(p: Part): Part {
    match p
    case Camera => Camera
    case Speed => Camera
    case Servo => Speed
  }

  // --- the programs of the parts ---------------------------------------------------------------

  /** Atomic operations of a part. The spin-then-clear of `WaitNeededNewData` is two of them. */
  datatype Op = Run | Publish | SetBarrier | AwaitBarrier | AwaitData | ClearData | AdvanceStage | ExitTest

  function Length(p: Part): nat {
    if p == Camera then 12 else 14
  }

  /** Line `pc` of the loop body that `RunALL` executes for part `p`. */
  function OpAt(p: Part, pc: nat): Op
    requires pc < Length(p)
  {
    match p
    case Camera => (
      match pc
      case 0 => Run
      case 1 => Publish
      case 2 => SetBarrier
      case 3 => AwaitBarrier
      case 4 => Run
      case 5 => SetBarrier
      case 6 => AwaitBarrier
      case 7 => Run
      case 8 => SetBarrier
      case 9 => AwaitBarrier
      case 10 => AdvanceStage
      case _ => ExitTest)
    case Speed => (
      match pc
      case 0 => Run
      case 1 => SetBarrier
      case 2 => AwaitBarrier
      case 3 => AwaitData
      case 4 => ClearData
      case 5 => Run
      case 6 => Publish
      case 7 => SetBarrier
      case 8 => AwaitBarrier
      case 9 => Run
      case 10 => SetBarrier
      case 11 => AwaitBarrier
      case 12 => AdvanceStage
      case _ => ExitTest)
    case Servo => (
      match pc
      case 0 => Run
      case 1 => SetBarrier
      case 2 => AwaitBarrier
      case 3 => Run
      case 4 => SetBarrier
      case 5 => AwaitBarrier
      case 6 => AwaitData
      case 7 => ClearData
      case 8 => Run
      case 9 => Publish
      case 10 => SetBarrier
      case 11 => AwaitBarrier
      case 12 => AdvanceStage
      case _ => ExitTest)
  }

  // --- the state -------------------------------------------------------------------------------

  /** Program counter of the manager. `ResetData` and `ResetNeed` are the start-up reset, which
      races with the parts already forked. */
  datatype ManagerPc =
    | ResetData(p: Part)
    | ResetNeed(p: Part)
    | LoopTest
    | UnitCheck(p: Part)
    | NeedTest(p: Part)
    | CompulsiveSave(p: Part)
    | NeedClear(p: Part)
    | Stopped

  /** A `SaveState` call: which part, by which check, and where that part stood. */
  datatype SaveEvent = SaveEvent(part: Part, compulsive: bool, pc: nat)

  /** `maxTimes` and `checkpointMethod` are MAX_TIMES and METHOD; FAULTED is true throughout. */
  datatype Config = Config(maxTimes: nat, checkpointMethod: nat)

  /** What belongs to one part alone: its program counter, and history counters for its completed
      loop bodies, publications, hand-offs taken and barriers passed. A part that called `exit`
      has `pc == Length`. */
  datatype Local = Local(pc: nat, laps: nat, published: nat, taken: nat, passed: nat)

  /** The shared memory, the parts and the manager; `sweeps` counts the passes of the manager loop
      and `saves` records the checkpoints taken. */
  datatype State = State(
    times: nat,
    isNewData: Trio<bool>,
    need: Trio<bool>,
    stage: Trio<bool>,
    local: Trio<Local>,
    manager: ManagerPc,
    sweeps: nat,
    saves: seq<SaveEvent>)
  {
    function Pc(p: Part): nat {
      local.At(p).pc
    }
  }

  /** Shared memory as `InitState` leaves it, nobody having run yet. */
  predicate Initial(s: State) {
    && s.times == 0
    && s.isNewData == Trio(false, false, false)
    && s.need == Trio(false, false, false)
    && s.stage == Trio(true, true, true)
    && s.local.camera == s.local.speed == s.local.servo == Local(0, 0, 0, 0, 0)
    && s.manager == ResetData(Camera)
    && s.sweeps == 0
    && s.saves == []
  }

  predicate Running(s: State, p: Part) {
    s.Pc(p) < Length(p)
  }

  predicate AtOp(s: State, p: Part, op: Op) {
    Running(s, p) && OpAt(p, s.Pc(p)) == op
  }

  // --- the steps -------------------------------------------------------------------------------

  /** `stage` is declared `bool`, so the sum modulo three is converted back to a truth value. */
  function NextStage(stage: bool): bool {
    ((if stage then 1 else 0) + 1) % 3 != 0
  }

  function PartStep(cfg: Config, s: State, p: Part): State {
    if !Running(s, p) then s else
    var l := s.local.At(p);
    var next := l.(pc := l.pc + 1);
    var t := s.(local := s.local.Put(p, next));
    match OpAt(p, l.pc)
    case Run => if p == Servo then t.(times := s.times + 1) else t
    case Publish =>
      s.(local := s.local.Put(p, next.(published := l.published + 1)), isNewData := s.isNewData.Put(p, true))
    case SetBarrier => t.(need := s.need.Put(p, true))
    case AwaitBarrier =>
      if s.need.At(p) then s else s.(local := s.local.Put(p, next.(passed := l.passed + 1)))
    case AwaitData =>
      if s.isNewData.At(Upstream(p)) then s.(local := s.local.Put(p, next.(taken := l.taken + 1))) else s
    case ClearData => t.(isNewData := s.isNewData.Put(Upstream(p), false))
    case AdvanceStage => t.(stage := s.stage.Put(p, NextStage(s.stage.At(p))))
    case ExitTest =>
      if s.times > cfg.maxTimes then t
      else s.(local := s.local.Put(p, l.(pc := 0, laps := l.laps + 1)))
  }

  /** `SaveState` is reached only when `stage[i] == i`, a truth value compared with an index. */
  function Saved(s: State, p: Part, compulsive: bool): State {
    if (if s.stage.At(p) then 1 else 0) == Index(p)
    then s.(saves := s.saves + [SaveEvent(p, compulsive, s.Pc(p))])
    else s
  }

  function AfterNeed(p: Part): ManagerPc {
    match p
    case Camera => NeedTest(Speed)
    case Speed => NeedTest(Servo)
    case Servo => LoopTest
  }

  /** `due` says whether the unit checkpoint interval of the part has run out. */
  function ManagerStep(cfg: Config, s: State, due: bool): State {
    match s.manager
    case ResetData(p) => s.(isNewData := s.isNewData.Put(p, false), manager := ResetNeed(p))
    case ResetNeed(p) =>
      s.(need := s.need.Put(p, false),
      manager := match p case Camera => ResetData(Speed) case Speed => ResetData(Servo) case Servo => LoopTest)
    case LoopTest =>
      if s.times <= cfg.maxTimes then s.(manager := UnitCheck(Camera), sweeps := s.sweeps + 1)
      else s.(manager := Stopped)
    case UnitCheck(p) =>
      var t := if due && cfg.checkpointMethod in {1, 3} then Saved(s, p, false) else s;
      t.(manager := match p case Camera => UnitCheck(Speed) case Speed => UnitCheck(Servo) case Servo => NeedTest(Camera))
    case NeedTest(p) => s.(manager := if s.need.At(p) then CompulsiveSave(p) else AfterNeed(p))
    case CompulsiveSave(p) =>
      var t := if cfg.checkpointMethod in {2, 3} then Saved(s, p, true) else s;
      t.(manager := NeedClear(p))
    case NeedClear(p) => s.(need := s.need.Put(p, false), manager := AfterNeed(p))
    case Stopped => s
  }

  /** Whose turn it is. */
  datatype Turn = PartTurn(part: Part) | ManagerTurn(due: bool)

  function Step(cfg: Config, s: State, t: Turn): State {
    match t
    case PartTurn(p) => PartStep(cfg, s, p)
    case ManagerTurn(due) => ManagerStep(cfg, s, due)
  }

  /** The state after an arbitrary interleaving. */
  function Exec(cfg: Config, s: State, schedule: seq<Turn>): State
    decreases |schedule|
  {
    if schedule == [] then s else Exec(cfg, Step(cfg, s, schedule[0]), schedule[1..])
  }

  lemma {:induction false} ExecAppend(cfg: Config, s: State, a: seq<Turn>, b: seq<Turn>)
    ensures Exec(cfg, s, a + b) == Exec(cfg, Exec(cfg, s, a), b)
    decreases |a|
  {
    if a == [] {
      assert a + b == b;
    } else {
      assert (a + b)[0] == a[0] && (a + b)[1..] == a[1..] + b;
      ExecAppend(cfg, Step(cfg, s, a[0]), a[1..], b);
    }
  }
}
