/** The shared memory in its own form: arrays that the parts and the manager update in place. Each
    method is one turn, proved to be the step of `Pipeline`, so every run of `Execute` has the
    properties proved for interleavings. */
module PipelineMachine {
  import opened Pipeline

  class SharedMemory {
    const cfg: Config
    var times: nat
    const isNewData: array<bool>
    const need: array<bool>
    const stage: array<bool>
    const local: array<Local>
    var manager: ManagerPc
    var sweeps: nat
    var saves: seq<SaveEvent>

    ghost predicate Valid()
      reads this
    {
      && isNewData.Length == need.Length == stage.Length == local.Length == 3
      && isNewData != need && isNewData != stage && need != stage
    }

    /** The memory as a value. */
    ghost function View(): State
      requires Valid()
      reads this, isNewData, need, stage, local
    {
      State(times,
            Trio(isNewData[0], isNewData[1], isNewData[2]),
            Trio(need[0], need[1], need[2]),
            Trio(stage[0], stage[1], stage[2]),
            Trio(local[0], local[1], local[2]),
            manager, sweeps, saves)
    }

    /** `InitState` and the freshly forked parts. */
    constructor (cfg: Config)
      ensures Valid() && this.cfg == cfg && Initial(View())
      ensures fresh(isNewData) && fresh(need) && fresh(stage) && fresh(local)
    {
      this.cfg := cfg;
      times := 0;
      isNewData := new bool[3](_ => false);
      need := new bool[3](_ => false);
      stage := new bool[3](_ => true);
      local := new Local[3](_ => Local(0, 0, 0, 0, 0));
      manager := ResetData(Camera);
      sweeps := 0;
      saves := [];
    }

    /** One operation of part `p`. */
    method PartTurn(p: Part)
      requires Valid()
      modifies `times, isNewData, need, stage, local
      ensures Valid() && View() == PartStep(cfg, old(View()), p)
    {
      var i, up := Index(p), Index(Upstream(p));
      var l := local[i];
      if l.pc >= Length(p) {
        return;
      }
      var next := l.(pc := l.pc + 1);
      match OpAt(p, l.pc) {
        case Run =>
          if p == Servo {
            times := times + 1;
          }
          local[i] := next;
        case Publish =>
          isNewData[i] := true;
          local[i] := next.(published := l.published + 1);
        case SetBarrier =>
          need[i] := true;
          local[i] := next;
        case AwaitBarrier =>
          if !need[i] {
            local[i] := next.(passed := l.passed + 1);
          }
        case AwaitData =>
          if isNewData[up] {
            local[i] := next.(taken := l.taken + 1);
          }
        case ClearData =>
          isNewData[up] := false;
          local[i] := next;
        case AdvanceStage =>
          stage[i] := NextStage(stage[i]);
          local[i] := next;
        case ExitTest =>
          if times > cfg.maxTimes {
            local[i] := next;
          } else {
            local[i] := l.(pc := 0, laps := l.laps + 1);
          }
      }
    }

    method SaveState(p: Part, compulsive: bool)
      requires Valid()
      modifies `saves
      ensures Valid() && View() == Saved(old(View()), p, compulsive)
    {
      var i := Index(p);
      if (if stage[i] then 1 else 0) == i {
        saves := saves + [SaveEvent(p, compulsive, local[i].pc)];
      }
    }

    /** One operation of the manager: start-up reset, loop test, unit check, or one entry of the
        compulsive check. */
    method ManagerTurn(due: bool)
      requires Valid()
      modifies `manager, `sweeps, `saves, isNewData, need
      ensures Valid() && View() == ManagerStep(cfg, old(View()), due)
    {
      match manager {
        case ResetData(p) =>
          isNewData[Index(p)] := false;
          manager := ResetNeed(p);
        case ResetNeed(p) =>
          need[Index(p)] := false;
          manager := match p case Camera => ResetData(Speed) case Speed => ResetData(Servo) case Servo => LoopTest;
        case LoopTest =>
          if times <= cfg.maxTimes {
            sweeps := sweeps + 1;
            manager := UnitCheck(Camera);
          } else {
            manager := Stopped;
          }
        case UnitCheck(p) =>
          if due && cfg.checkpointMethod in {1, 3} {
            SaveState(p, false);
          }
          manager := match p case Camera => UnitCheck(Speed) case Speed => UnitCheck(Servo) case Servo => NeedTest(Camera);
        case NeedTest(p) =>
          manager := if need[Index(p)] then CompulsiveSave(p) else AfterNeed(p);
        case CompulsiveSave(p) =>
          if cfg.checkpointMethod in {2, 3} {
            SaveState(p, true);
          }
          manager := NeedClear(p);
        case NeedClear(p) =>
          need[Index(p)] := false;
          manager := AfterNeed(p);
        case Stopped =>
      }
    }

    /** An arbitrary interleaving. */
    method Execute(schedule: seq<Turn>)
      requires Valid()
      modifies this, isNewData, need, stage, local
      ensures Valid() && View() == Exec(cfg, old(View()), schedule)
    {
      var n := 0;
      while n < |schedule|
        invariant 0 <= n <= |schedule|
        invariant Valid() && View() == Exec(cfg, old(View()), schedule[..n])
      {
        ghost var before := View();
        match schedule[n] {
          case PartTurn(p) => PartTurn(p);
          case ManagerTurn(due) => ManagerTurn(due);
        }
        ExtendByOne(cfg, old(View()), schedule, n);
        n := n + 1;
      }
      assert schedule[..n] == schedule;
    }
  }

  lemma ExtendByOne(cfg: Config, s: State, schedule: seq<Turn>, n: nat)
    requires n < |schedule|
    ensures Exec(cfg, s, schedule[..n + 1]) == Step(cfg, Exec(cfg, s, schedule[..n]), schedule[n])
  {
    assert schedule[..n + 1] == schedule[..n] + [schedule[n]];
    ExecAppend(cfg, s, schedule[..n], [schedule[n]]);
    assert [schedule[n]][1..] == [];
  }
}
