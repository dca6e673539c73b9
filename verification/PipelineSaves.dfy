/** Which checkpoints a run takes: METHOD 1 saves at due unit checks only, METHOD 2 at raised need
    flags only, METHOD 3 at both, and no save of either kind is left out. */
module PipelineSaves {
  import opened Pipeline
  import opened PipelineSafety

  /** How many saves of one kind were taken. */
  function Count(saves: seq<SaveEvent>, compulsive: bool): nat {
    if saves == [] then 0 else
    var n := |saves| - 1;
    Count(saves[..n], compulsive) + Tick(saves[n].compulsive == compulsive)
  }

  lemma CountAppend(saves: seq<SaveEvent>, e: SaveEvent, compulsive: bool)
    ensures Count(saves + [e], compulsive) == Count(saves, compulsive) + Tick(e.compulsive == compulsive)
  {
    assert (saves + [e])[..|saves|] == saves;
  }

  /** The manager is about to look at Speed's unit checkpoint and finds its interval run out, or is
      about to take Speed's compulsive one. */
  predicate Occasion(s: State, t: Turn, compulsive: bool) {
    if compulsive then t.ManagerTurn? && s.manager == CompulsiveSave(Speed)
    else t == ManagerTurn(true) && s.manager == UnitCheck(Speed)
  }

  /** Occasions in the course of a run. */
  function Occasions(cfg: Config, s: State, schedule: seq<Turn>, compulsive: bool): nat
    decreases |schedule|
  {
    if schedule == [] then 0
    else Tick(Occasion(s, schedule[0], compulsive)) + Occasions(cfg, Step(cfg, s, schedule[0]), schedule[1..], compulsive)
  }

  /** METHOD 1 is unit only, 2 compulsive only, 3 both. */
  predicate Saves(checkpointMethod: nat, compulsive: bool) {
    checkpointMethod == 3 || checkpointMethod == (if compulsive then 2 else 1)
  }

  lemma PartSavesNothing(cfg: Config, s: State, p: Part)
    requires StageStuck(s)
    ensures PartStep(cfg, s, p).saves == s.saves && StageStuck(PartStep(cfg, s, p))
  {}

  /** A turn takes a save exactly at an occasion of a kind METHOD asks for. */
  lemma ManagerSaves(cfg: Config, s: State, due: bool, compulsive: bool)
    requires StageStuck(s)
    ensures StageStuck(ManagerStep(cfg, s, due))
    ensures Count(ManagerStep(cfg, s, due).saves, compulsive)
            == Count(s.saves, compulsive) + Tick(Occasion(s, ManagerTurn(due), compulsive) && Saves(cfg.checkpointMethod, compulsive))
  {
    var next := ManagerStep(cfg, s, due);
    SavesGrow(cfg, s, due);
    if next.saves != s.saves {
      CountAppend(s.saves, next.saves[|s.saves|], compulsive);
    }
  }

  lemma SavesGrow(cfg: Config, s: State, due: bool)
    requires StageStuck(s)
    ensures var next := ManagerStep(cfg, s, due);
            if Occasion(s, ManagerTurn(due), true) && Saves(cfg.checkpointMethod, true)
            then next.saves == s.saves + [SaveEvent(Speed, true, s.Pc(Speed))]
            else if Occasion(s, ManagerTurn(due), false) && Saves(cfg.checkpointMethod, false)
            then next.saves == s.saves + [SaveEvent(Speed, false, s.Pc(Speed))]
            else next.saves == s.saves
  {}

  lemma StepSaves(cfg: Config, s: State, t: Turn, compulsive: bool)
    requires StageStuck(s)
    ensures StageStuck(Step(cfg, s, t))
    ensures Count(Step(cfg, s, t).saves, compulsive)
            == Count(s.saves, compulsive) + Tick(Occasion(s, t, compulsive) && Saves(cfg.checkpointMethod, compulsive))
  {
    hide PartStep, ManagerStep, StageStuck, Count;
    match t
    case PartTurn(p) => PartSavesNothing(cfg, s, p);
    case ManagerTurn(due) => ManagerSaves(cfg, s, due, compulsive);
  }

  lemma {:induction false} ExecSaves(cfg: Config, s: State, schedule: seq<Turn>, compulsive: bool)
    requires StageStuck(s)
    ensures Count(Exec(cfg, s, schedule).saves, compulsive)
            == Count(s.saves, compulsive) + if Saves(cfg.checkpointMethod, compulsive) then Occasions(cfg, s, schedule, compulsive) else 0
    decreases |schedule|
  {
    if schedule != [] {
      hide Step, StageStuck, Count, Saves, Occasion;
      StepSaves(cfg, s, schedule[0], compulsive);
      ExecSaves(cfg, Step(cfg, s, schedule[0]), schedule[1..], compulsive);
    }
  }

  /** Over every run: one unit save for each due unit check of Speed under METHOD 1 and 3, one
      compulsive save for each raised need flag of Speed under METHOD 2 and 3, and no other. */
  lemma EverySave(cfg: Config, start: State, schedule: seq<Turn>, compulsive: bool)
    requires Initial(start)
    ensures Count(Exec(cfg, start, schedule).saves, compulsive)
            == if cfg.checkpointMethod == 3 || cfg.checkpointMethod == (if compulsive then 2 else 1)
               then Occasions(cfg, start, schedule, compulsive) else 0
  {
    ExecSaves(cfg, start, schedule, compulsive);
  }

  lemma {:induction false} CountPositive(saves: seq<SaveEvent>, i: nat)
    requires i < |saves|
    ensures Count(saves, saves[i].compulsive) > 0
    decreases |saves|
  {
    if i < |saves| - 1 {
      CountPositive(saves[..|saves| - 1], i);
    }
  }

  /** Every checkpoint ever taken is of a kind METHOD asks for. */
  lemma SavedByMethod(cfg: Config, start: State, schedule: seq<Turn>, e: SaveEvent)
    requires Initial(start) && e in Exec(cfg, start, schedule).saves
    ensures cfg.checkpointMethod == 3 || cfg.checkpointMethod == (if e.compulsive then 2 else 1)
  {
    hide Exec, Initial, Occasions;
    var saves := Exec(cfg, start, schedule).saves;
    var i :| 0 <= i < |saves| && saves[i] == e;
    CountPositive(saves, i);
    EverySave(cfg, start, schedule, e.compulsive);
  }

  /** Turns in which the manager looks at Speed's unit checkpoint, due or not. */
  function Looks(cfg: Config, s: State, schedule: seq<Turn>): nat
    decreases |schedule|
  {
    if schedule == [] then 0
    else Tick(schedule[0].ManagerTurn? && s.manager == UnitCheck(Speed)) + Looks(cfg, Step(cfg, s, schedule[0]), schedule[1..])
  }

  predicate LookAhead(m: ManagerPc) {
    m == UnitCheck(Camera) || m == UnitCheck(Speed)
  }

  lemma LookStep(cfg: Config, s: State, t: Turn)
    ensures var next := Step(cfg, s, t);
            next.sweeps - Tick(LookAhead(next.manager))
            == s.sweeps - Tick(LookAhead(s.manager)) + Tick(t.ManagerTurn? && s.manager == UnitCheck(Speed))
  {}

  lemma {:induction false} ExecLooks(cfg: Config, s: State, schedule: seq<Turn>)
    ensures var e := Exec(cfg, s, schedule);
            e.sweeps - Tick(LookAhead(e.manager)) == s.sweeps - Tick(LookAhead(s.manager)) + Looks(cfg, s, schedule)
    decreases |schedule|
  {
    if schedule != [] {
      hide Step, LookAhead;
      LookStep(cfg, s, schedule[0]);
      ExecLooks(cfg, Step(cfg, s, schedule[0]), schedule[1..]);
    }
  }

  /** Every sweep looks at Speed once. */
  lemma EverySweepLooks(cfg: Config, start: State, schedule: seq<Turn>)
    requires Initial(start)
    ensures var e := Exec(cfg, start, schedule);
            Looks(cfg, start, schedule) == e.sweeps - Tick(e.manager == UnitCheck(Camera) || e.manager == UnitCheck(Speed))
  {
    ExecLooks(cfg, start, schedule);
  }

  // --- every opened barrier has its checkpoint -------------------------------------------------

  /** Barriers of Speed opened so far, one of them by the start-up reset, each sweep's one after its
      own compulsive save. */
  ghost predicate BarriersSaved(cfg: Config, s: State) {
    Saves(cfg.checkpointMethod, true) ==>
      s.local.speed.passed + Tick(AtOp(s, Speed, AwaitBarrier) && !s.need.speed) + Tick(s.manager == NeedClear(Speed))
      <= Tick(ResetDone(s.manager, Speed)) + Count(s.saves, true)
  }

  lemma PartKeepsSaved(cfg: Config, s: State, p: Part)
    requires BarriersSaved(cfg, s)
    ensures BarriersSaved(cfg, PartStep(cfg, s, p))
  {
    hide Count, Saves, ResetDone;
  }

  lemma ManagerKeepsSaved(cfg: Config, s: State, due: bool)
    requires BarriersSaved(cfg, s) && StageStuck(s) && Parked(s, Speed) && ManagerSeesNeed(s)
    ensures BarriersSaved(cfg, ManagerStep(cfg, s, due))
  {
    ManagerSaves(cfg, s, due, true);
    hide Count, Saves;
  }

  lemma {:induction false} ExecKeepsSaved(cfg: Config, s: State, schedule: seq<Turn>)
    requires Inv(cfg, s) && BarriersSaved(cfg, s)
    ensures BarriersSaved(cfg, Exec(cfg, s, schedule))
    decreases |schedule|
  {
    if schedule != [] {
      hide PartStep, ManagerStep, BarriersSaved, PartInv, TimesCounted, Parked, StageStuck, ManagerSeesNeed;
      StepKeepsInv(cfg, s, schedule[0]);
      match schedule[0] {
        case PartTurn(p) => PartKeepsSaved(cfg, s, p);
        case ManagerTurn(due) =>
          SpeedParked(s);
          ManagerKeepsSaved(cfg, s, due);
      }
      ExecKeepsSaved(cfg, Step(cfg, s, schedule[0]), schedule[1..]);
    }
  }

  lemma SpeedParked(s: State)
    requires PartInv(s, Speed)
    ensures Parked(s, Speed)
  {}

  /** Under METHOD 2 and 3 Speed passes at most one barrier more than it has compulsive checkpoints:
      only the start-up reset opens one without. */
  lemma CheckpointBeforeBarrier(cfg: Config, start: State, schedule: seq<Turn>)
    requires Initial(start) && cfg.checkpointMethod in {2, 3}
    ensures var s := Exec(cfg, start, schedule);
            s.local.speed.passed <= Count(s.saves, true) + 1
  {
    hide Exec, Inv, Initial, AtOp, ResetDone, Count;
    InitInv(cfg, start);
    InitSaved(cfg, start);
    ExecKeepsSaved(cfg, start, schedule);
  }

  lemma InitSaved(cfg: Config, s: State)
    requires Initial(s)
    ensures BarriersSaved(cfg, s)
  {}

  // --- the start-up reset ----------------------------------------------------------------------

  /** The reset races with Camera: it can take back a publication nobody has seen, and open a barrier
      before the first sweep. */
  lemma ResetRace(cfg: Config, s: State) returns (e: State)
    requires Initial(s)
    ensures e == Exec(cfg, s, [PartTurn(Camera), PartTurn(Camera), PartTurn(Camera), ManagerTurn(false), ManagerTurn(false), PartTurn(Camera)])
    ensures e.local.camera.published == 1 && e.local.speed.taken == 0 && !e.isNewData.camera
    ensures e.local.camera.passed == 1 && e.sweeps == 0
  {
    var c, m := PartTurn(Camera), ManagerTurn(false);
    var s3 := Step(cfg, Step(cfg, Step(cfg, s, c), c), c);
    assert s3.isNewData.camera && s3.need.camera && s3.Pc(Camera) == 3 && s3.manager == ResetData(Camera);
    assert s3.local.camera.published == 1 && s3.local.camera.passed == 0;
    assert s3.local.speed.taken == 0 && s3.sweeps == 0;
    e := Step(cfg, Step(cfg, Step(cfg, s3, m), m), c);
    hide Step;
    ThreeTurns(cfg, s, c, c, c);
    ThreeTurns(cfg, s3, m, m, c);
    ExecAppend(cfg, s, [c, c, c], [m, m, c]);
    assert [c, c, c] + [m, m, c] == [c, c, c, m, m, c];
  }

  lemma ThreeTurns(cfg: Config, s: State, t: Turn, u: Turn, v: Turn)
    ensures Exec(cfg, s, [t, u, v]) == Step(cfg, Step(cfg, Step(cfg, s, t), u), v)
  {
    hide Step;
    var s1, s2 := Step(cfg, s, t), Step(cfg, Step(cfg, s, t), u);
    assert [t, u, v][1..] == [u, v] && [u, v][1..] == [v] && [v][1..] == [];
    assert Exec(cfg, s1, [u, v]) == Exec(cfg, s2, [v]);
    assert Exec(cfg, s2, [v]) == Exec(cfg, Step(cfg, s2, v), []);
  }

  /** Once the reset is over, ServoPID's own flag tells whether it has published: nobody clears it. */
  lemma {:induction false} ServoFlag(cfg: Config, s: State, schedule: seq<Turn>)
    requires ResetDone(s.manager, Servo)
    ensures var e := Exec(cfg, s, schedule);
            && e.local.servo.published >= s.local.servo.published
            && (e.isNewData.servo <==> s.isNewData.servo || e.local.servo.published > s.local.servo.published)
    decreases |schedule|
  {
    if schedule != [] {
      hide Step, ResetDone;
      ServoFlagStep(cfg, s, schedule[0]);
      ServoFlag(cfg, Step(cfg, s, schedule[0]), schedule[1..]);
    }
  }

  lemma ServoFlagStep(cfg: Config, s: State, t: Turn)
    requires ResetDone(s.manager, Servo)
    ensures var e := Step(cfg, s, t);
            && ResetDone(e.manager, Servo)
            && e.local.servo.published >= s.local.servo.published
            && (e.isNewData.servo <==> s.isNewData.servo || e.local.servo.published > s.local.servo.published)
  {}
}
