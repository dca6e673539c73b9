/** What every interleaving of the pipeline keeps, from start-up on. */
module PipelineSafety {
  import opened Pipeline

  function Tick(b: bool): nat {
    if b then 1 else 0
  }

  /** Publications, hand-offs, barriers and servo runs on the lines before `pc`. */
  function PublishBefore(p: Part, pc: nat): nat {
    Tick(pc > match p case Camera => 1 case Speed => 6 case Servo => 9)
  }

  function TakeBefore(p: Part, pc: nat): nat {
    match p
    case Camera => 0
    case Speed => Tick(pc > 3)
    case Servo => Tick(pc > 6)
  }

  function BarriersBefore(p: Part, pc: nat): nat {
    match p
    case Camera => Tick(pc > 3) + Tick(pc > 6) + Tick(pc > 9)
    case Speed => Tick(pc > 2) + Tick(pc > 8) + Tick(pc > 11)
    case Servo => Tick(pc > 2) + Tick(pc > 5) + Tick(pc > 11)
  }

  function ServoRunsBefore(pc: nat): nat {
    Tick(pc > 0) + Tick(pc > 3) + Tick(pc > 8)
  }

  // --- the invariant, clause by clause ---------------------------------------------------------

  /** History counters agree with the program counter. */
  ghost predicate Counted(p: Part, l: Local) {
    && l.pc <= Length(p)
    && l.published == l.laps + PublishBefore(p, l.pc)
    && l.passed == 3 * l.laps + BarriersBefore(p, l.pc)
    && (p != Camera ==> l.taken == l.laps + TakeBefore(p, l.pc))
  }

  /** `times` counts the servo runs, and no servo loop body starts once the limit is exceeded. */
  ghost predicate TimesCounted(cfg: Config, s: State) {
    var l := s.local.servo;
    && l.pc <= Length(Servo)
    && s.times == 3 * l.laps + ServoRunsBefore(l.pc)
    && 3 * l.laps <= cfg.maxTimes
  }

  /** A raised flag that `p` has not yet looked at stands for one publication nobody took. */
  ghost predicate HandedOver(s: State, p: Part) {
    p != Camera ==>
      s.local.At(p).taken + (if s.isNewData.At(Upstream(p)) && !AtOp(s, p, ClearData) then 1 else 0)
      <= s.local.At(Upstream(p)).published
  }

  /** Only a part parked at its barrier has its need flag up. */
  ghost predicate Parked(s: State, p: Part) {
    s.need.At(p) ==> AtOp(s, p, AwaitBarrier)
  }

  /** Between test and clear the manager is looking at a raised need flag. */
  ghost predicate ManagerSeesNeed(s: State) {
    (s.manager.CompulsiveSave? || s.manager.NeedClear?) ==> s.need.At(s.manager.p)
  }

  predicate ResetDone(m: ManagerPc, p: Part) {
    (m.ResetData? ==> Index(m.p) > Index(p)) && (m.ResetNeed? ==> Index(m.p) > Index(p))
  }

  predicate StillToVisit(m: ManagerPc, p: Part) {
    m.UnitCheck? || ((m.NeedTest? || m.CompulsiveSave? || m.NeedClear?) && Index(m.p) <= Index(p))
  }

  /** Barriers of `p` the manager has opened so far, at most. */
  ghost function Grants(s: State, p: Part): int {
    (if ResetDone(s.manager, p) then 1 else 0) + s.sweeps - (if StillToVisit(s.manager, p) then 1 else 0)
  }

  ghost predicate BarriersGranted(s: State, p: Part) {
    s.local.At(p).passed + (if AtOp(s, p, AwaitBarrier) && !s.need.At(p) then 1 else 0) <= Grants(s, p)
  }

  /** The stage of every part is stuck at true. */
  ghost predicate StageStuck(s: State) {
    s.stage == Trio(true, true, true)
  }

  predicate GoodSave(e: SaveEvent) {
    && e.part == Speed
    && (e.compulsive ==> e.pc < Length(e.part) && OpAt(e.part, e.pc) == AwaitBarrier)
  }

  ghost predicate PartInv(s: State, p: Part) {
    BarriersGranted(s, p) && HandedOver(s, p) && Parked(s, p) && Counted(p, s.local.At(p))
  }

  ghost predicate ManagerInv(s: State) {
    ManagerSeesNeed(s) && StageStuck(s) && forall i :: 0 <= i < |s.saves| ==> GoodSave(s.saves[i])
  }

  ghost predicate Inv(cfg: Config, s: State) {
    TimesCounted(cfg, s) && PartInv(s, Camera) && PartInv(s, Speed) && PartInv(s, Servo) && ManagerInv(s)
  }

  lemma OwnCounts(cfg: Config, s: State, p: Part)
    requires Counted(p, s.local.At(p))
    ensures Counted(p, PartStep(cfg, s, p).local.At(p))
  {
    hide NextStage, Upstream;
    match p
    case Camera =>
    case Speed =>
    case Servo =>
  }

  /** What a part leaves alone: the other parts, their need flags, and the manager. */
  lemma PartFrame(cfg: Config, s: State, p: Part)
    ensures var t := PartStep(cfg, s, p);
            && t.manager == s.manager && t.sweeps == s.sweeps && t.saves == s.saves
            && forall q: Part :: q != p ==> t.local.At(q) == s.local.At(q) && t.need.At(q) == s.need.At(q)
  {}

  lemma OwnTimes(cfg: Config, s: State, p: Part)
    requires TimesCounted(cfg, s)
    ensures TimesCounted(cfg, PartStep(cfg, s, p))
  {}

  lemma PartKeepsHandOver(cfg: Config, s: State, p: Part, q: Part)
    requires HandedOver(s, q)
    ensures HandedOver(PartStep(cfg, s, p), q)
  {}

  lemma OwnParked(cfg: Config, s: State, p: Part)
    requires Parked(s, p)
    ensures Parked(PartStep(cfg, s, p), p)
  {
    match p
    case Camera =>
    case Speed =>
    case Servo =>
  }

  lemma OwnBarriers(cfg: Config, s: State, p: Part)
    requires Parked(s, p) && BarriersGranted(s, p)
    ensures BarriersGranted(PartStep(cfg, s, p), p)
  {
    hide ResetDone, StillToVisit;
    OwnParked(cfg, s, p);
    match p
    case Camera =>
    case Speed =>
    case Servo =>
  }

  lemma PartKeepsPartInv(cfg: Config, s: State, p: Part, q: Part)
    requires PartInv(s, q)
    ensures PartInv(PartStep(cfg, s, p), q)
  {
    PartKeepsHandOver(cfg, s, p, q);
    if p == q {
      OwnCounts(cfg, s, p);
      OwnParked(cfg, s, p);
      OwnBarriers(cfg, s, p);
    } else {
      PartFrame(cfg, s, p);
    }
  }

  lemma PartKeepsManagerInv(cfg: Config, s: State, p: Part)
    requires ManagerInv(s) && forall q: Part :: Parked(s, q)
    ensures ManagerInv(PartStep(cfg, s, p))
  {
    PartFrame(cfg, s, p);
    if s.manager.CompulsiveSave? || s.manager.NeedClear? {
      assert Parked(s, s.manager.p);
    }
  }

  lemma ManagerKeepsHandOver(cfg: Config, s: State, due: bool, q: Part)
    requires HandedOver(s, q)
    ensures HandedOver(ManagerStep(cfg, s, due), q)
  {}

  lemma ManagerKeepsParked(cfg: Config, s: State, due: bool, q: Part)
    requires Parked(s, q)
    ensures Parked(ManagerStep(cfg, s, due), q)
  {}

  lemma ManagerKeepsBarriers(cfg: Config, s: State, due: bool, q: Part)
    requires Parked(s, q) && BarriersGranted(s, q) && ManagerSeesNeed(s)
    ensures BarriersGranted(ManagerStep(cfg, s, due), q)
  {}

  lemma ManagerKeepsTimes(cfg: Config, s: State, due: bool)
    requires TimesCounted(cfg, s)
    ensures TimesCounted(cfg, ManagerStep(cfg, s, due))
  {}

  lemma ManagerKeepsPartInv(cfg: Config, s: State, due: bool, q: Part)
    requires PartInv(s, q) && ManagerSeesNeed(s)
    ensures PartInv(ManagerStep(cfg, s, due), q)
  {
    ManagerKeepsHandOver(cfg, s, due, q);
    ManagerKeepsParked(cfg, s, due, q);
    ManagerKeepsBarriers(cfg, s, due, q);
    assert ManagerStep(cfg, s, due).local == s.local;
  }

  lemma ManagerKeepsManagerInv(cfg: Config, s: State, due: bool)
    requires ManagerInv(s) && forall q: Part :: Parked(s, q)
    ensures ManagerInv(ManagerStep(cfg, s, due))
  {
    if s.manager.CompulsiveSave? {
      assert Parked(s, s.manager.p);
    }
  }

  lemma PartKeepsInv(cfg: Config, s: State, p: Part)
    requires Inv(cfg, s)
    ensures Inv(cfg, PartStep(cfg, s, p))
  {
    assert Parked(s, Camera) && Parked(s, Speed) && Parked(s, Servo);
    OwnTimes(cfg, s, p);
    PartKeepsPartInv(cfg, s, p, Camera);
    PartKeepsPartInv(cfg, s, p, Speed);
    PartKeepsPartInv(cfg, s, p, Servo);
    PartKeepsManagerInv(cfg, s, p);
  }

  lemma ManagerKeepsInv(cfg: Config, s: State, due: bool)
    requires Inv(cfg, s)
    ensures Inv(cfg, ManagerStep(cfg, s, due))
  {
    assert Parked(s, Camera) && Parked(s, Speed) && Parked(s, Servo);
    ManagerKeepsPartInv(cfg, s, due, Camera);
    ManagerKeepsPartInv(cfg, s, due, Speed);
    ManagerKeepsPartInv(cfg, s, due, Servo);
    ManagerKeepsManagerInv(cfg, s, due);
    ManagerKeepsTimes(cfg, s, due);
  }

  lemma StepKeepsInv(cfg: Config, s: State, t: Turn)
    requires Inv(cfg, s)
    ensures Inv(cfg, Step(cfg, s, t))
  {
    match t
    case PartTurn(p) => PartKeepsInv(cfg, s, p);
    case ManagerTurn(due) => ManagerKeepsInv(cfg, s, due);
  }

  lemma {:induction false} ExecKeepsInv(cfg: Config, s: State, schedule: seq<Turn>)
    requires Inv(cfg, s)
    ensures Inv(cfg, Exec(cfg, s, schedule))
    decreases |schedule|
  {
    if schedule != [] {
      StepKeepsInv(cfg, s, schedule[0]);
      ExecKeepsInv(cfg, Step(cfg, s, schedule[0]), schedule[1..]);
    }
  }

  lemma InitPartInv(s: State, p: Part)
    requires Initial(s)
    ensures PartInv(s, p)
  {
    assert BarriersGranted(s, p);
  }

  lemma InitRest(cfg: Config, s: State)
    requires Initial(s)
    ensures TimesCounted(cfg, s) && ManagerInv(s)
  {}

  lemma InitInv(cfg: Config, s: State)
    requires Initial(s)
    ensures Inv(cfg, s)
  {
    hide Initial, TimesCounted, ManagerInv, PartInv;
    InitRest(cfg, s);
    InitPartInv(s, Camera);
    InitPartInv(s, Speed);
    InitPartInv(s, Servo);
  }

  lemma ReachableInv(cfg: Config, s: State, schedule: seq<Turn>)
    requires Initial(s)
    ensures Inv(cfg, Exec(cfg, s, schedule))
  {
    hide Initial, Inv, Exec;
    InitInv(cfg, s);
    ExecKeepsInv(cfg, s, schedule);
  }

  // --- what follows for every run --------------------------------------------------------------

  /** Work flows down the line only: nothing is handed on that was not published upstream. */
  lemma Causality(cfg: Config, start: State, schedule: seq<Turn>)
    requires Initial(start)
    ensures var s := Exec(cfg, start, schedule);
            && s.local.servo.published <= s.local.servo.taken <= s.local.speed.published
            && s.local.speed.published <= s.local.speed.taken <= s.local.camera.published
            && s.times <= 3 * s.local.camera.published + 2
            && s.times <= cfg.maxTimes + 3
  {
    hide Exec, Initial;
    ReachableInv(cfg, start, schedule);
    var s := Exec(cfg, start, schedule);
    assert PartInv(s, Speed) && PartInv(s, Servo);
  }

  /** A raised need flag means a part stopped at its barrier, and so does a pending compulsive
      `SaveState`: the checkpoint captures a stopped part. */
  lemma Quiescence(cfg: Config, start: State, schedule: seq<Turn>, p: Part)
    requires Initial(start)
    ensures var s := Exec(cfg, start, schedule);
            s.need.At(p) || s.manager == CompulsiveSave(p) ==> AtOp(s, p, AwaitBarrier)
  {
    hide Exec, Initial;
    ReachableInv(cfg, start, schedule);
    var s := Exec(cfg, start, schedule);
    assert ManagerSeesNeed(s) && Parked(s, p) by {
      assert ManagerInv(s) && PartInv(s, Camera) && PartInv(s, Speed) && PartInv(s, Servo);
    }
  }

  /** Every checkpoint ever taken is one of Speed, and every compulsive one found it stopped:
      `stage` never leaves true, and true equals index 1 only. */
  lemma SavedParts(cfg: Config, start: State, schedule: seq<Turn>, e: SaveEvent)
    requires Initial(start)
    requires e in Exec(cfg, start, schedule).saves
    ensures e.part == Speed
    ensures e.compulsive ==> e.pc < Length(Speed) && OpAt(Speed, e.pc) == AwaitBarrier
  {
    hide Exec, Initial;
    ReachableInv(cfg, start, schedule);
    assert ManagerInv(Exec(cfg, start, schedule));
  }

  /** Each part passes at most one barrier per manager sweep, plus one for the start-up reset. */
  lemma BarrierBudget(cfg: Config, start: State, schedule: seq<Turn>, p: Part)
    requires Initial(start)
    ensures var s := Exec(cfg, start, schedule);
            && s.local.At(p).passed <= s.sweeps + 1
            && s.times <= s.sweeps + 2
  {
    hide Exec, Initial;
    ReachableInv(cfg, start, schedule);
    var s := Exec(cfg, start, schedule);
    Budget(s, p);
    Budget(s, Servo);
  }

  lemma Budget(s: State, p: Part)
    requires PartInv(s, Camera) && PartInv(s, Speed) && PartInv(s, Servo)
    ensures s.local.At(p).passed <= s.sweeps + 1
    ensures ServoRunsBefore(s.local.servo.pc) <= BarriersBefore(Servo, s.local.servo.pc) + 1
    ensures s.local.servo.passed == 3 * s.local.servo.laps + BarriersBefore(Servo, s.local.servo.pc)
  {
    assert PartInv(s, p);
  }
}
