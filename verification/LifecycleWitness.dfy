/** Concrete runs: what the protocol can do, including what its users would not expect of it. */
module LifecycleWitness {
  import opened Common
  import opened Lifecycle
  import opened LifecycleTheorems
  import opened LifecycleStatus
  import opened LifecycleTeardown

  const NO_HOOKS := Config(0, Unikernel)

  /** `ls` is a run and leads to `w`. */
  predicate LeadsTo(ls: seq<Label>, w: World) {
    Exec(Fresh(NO_HOOKS), ls) == Some(w)
  }

  /** One step further. */
  lemma Go(ls: seq<Label>, w: World, l: Label) returns (more: seq<Label>, v: World)
    requires LeadsTo(ls, w) && Step(w, l).Some?
    ensures v == Step(w, l).value && LeadsTo(more, v)
  {
    more, v := ls + [l], Step(w, l).value;
    ExecAppend(Fresh(NO_HOOKS), ls, [l]);
    assert Exec(w, [l]) == Exec(v, []);
  }

  const MAKE := Create(true, 7)

  /** `create` has just spawned init as pid 7. */
  predicate JustSpawned(w: World) {
    && w.conf == NO_HOOKS && w.procs == map[]
    && w.k.dir && w.k.tap && w.k.file == None && w.k.fifo == Fifo(true, {}, false, 0, 0, 0, 0, 0, 0)
    && w.k.init == Alive(AtFs) && w.k.initPid == 7
    && w.creator.pc == StartTime && w.creator.mem == Snapshot(7, Created)
  }

  lemma CreatedRun() returns (ls: seq<Label>, w: World)
    ensures LeadsTo(ls, w)
    ensures w == Fresh(NO_HOOKS).(k := w.k, creator := w.creator)
    ensures w.k == Fresh(NO_HOOKS).k.(dir := true, tap := true, fifo := w.k.fifo) && w.creator.pc == OpenRoot
    ensures w.k.fifo == Fresh(NO_HOOKS).k.fifo.(linked := true)
  {
    ls, w := [], Fresh(NO_HOOKS);
    ls, w := Go(ls, w, MAKE);
    ls, w := Go(ls, w, MAKE);
    ls, w := Go(ls, w, MAKE);
    ls, w := Go(ls, w, MAKE);
    ls, w := Go(ls, w, MAKE);
  }

  lemma SpawnedRun() returns (ls: seq<Label>, w: World)
    ensures LeadsTo(ls, w) && JustSpawned(w)
  {
    ls, w := CreatedRun();
    ls, w := Go(ls, w, MAKE);
    ls, w := Go(ls, w, MAKE);
  }

  /** A delete that comes before `create` has saved state.json removes the directory of a live init. */
  lemma DeleteCanOrphanInit()
    ensures exists ls, l :: IsRun(NO_HOOKS, ls) && Step(After(NO_HOOKS, ls), l).Some?
                         && RemovesOrphan(After(NO_HOOKS, ls), l) && TakesFromLive(After(NO_HOOKS, ls), l)
  {
    var ls, w := SpawnedRun();
    ls, w := Go(ls, w, Launch(1, DeleteCmd(false)));
    ls, w := Go(ls, w, Act(1, true));
    assert RemovesOrphan(w, Act(1, true)) && TakesFromLive(w, Act(1, true));
    assert After(NO_HOOKS, ls) == w;
  }

  /** A create that cannot read init's start time removes the directory while init lives. */
  lemma CreateCanOrphanInit()
    ensures exists ls, l :: IsRun(NO_HOOKS, ls) && Step(After(NO_HOOKS, ls), l).Some?
                         && DropsUnkilled(After(NO_HOOKS, ls), l) && TakesFromLive(After(NO_HOOKS, ls), l)
  {
    var ls, w := SpawnedRun();
    ls, w := Go(ls, w, Create(false, 0));
    ls, w := Go(ls, w, MAKE);
    assert DropsUnkilled(w, MAKE) && TakesFromLive(w, MAKE);
    assert After(NO_HOOKS, ls) == w;
  }

  /** `create` is over and init waits in its open of the FIFO. */
  predicate Waiting(w: World) {
    && w.conf == NO_HOOKS && w.procs == map[]
    && w.k.dir && w.k.file == Some(Snapshot(7, Created)) && w.k.fifo == Fifo(true, {}, true, 0, 1, 0, 0, 0, 0)
    && w.k.init == Alive(InFifoOpen(0)) && w.k.initPid == 7
    && w.creator.pc == Finished(true)
  }

  lemma WaitingRun() returns (ls: seq<Label>, w: World)
    ensures LeadsTo(ls, w) && Waiting(w)
  {
    ls, w := SpawnedRun();
    ls, w := Go(ls, w, MAKE);
    ls, w := Go(ls, w, MAKE);
    ls, w := Go(ls, w, MAKE);
    ls, w := Go(ls, w, InitAct(true));
    ls, w := Go(ls, w, InitAct(true));
    ls, w := Go(ls, w, InitAct(true));
    ls, w := Go(ls, w, InitAct(true));
    ls, w := Go(ls, w, InitAct(true));
  }

  /** The start command of process 1 has the FIFO open, and so has init. */
  predicate Meeting(w: World) {
    && w.conf == NO_HOOKS && w.procs == map[1 := Proc(StartCmd, Reading(0), Snapshot(7, Created), [])]
    && w.k.dir && w.k.file == Some(Snapshot(7, Created)) && w.k.fifo == Fifo(true, {1}, true, 1, 1, 0, 0, 0, 0)
    && w.k.init == Alive(InFifoOpen(0)) && w.k.initPid == 7
    && w.creator.pc == Finished(true)
  }

  lemma MeetingRun() returns (ls: seq<Label>, w: World)
    ensures LeadsTo(ls, w) && Meeting(w)
  {
    ls, w := WaitingRun();
    ls, w := Go(ls, w, Launch(1, StartCmd));
    ls, w := Go(ls, w, Act(1, true));
    ls, w := Go(ls, w, Act(1, true));
    ls, w := Go(ls, w, Act(1, true));
    ls, w := Go(ls, w, Act(1, true));
  }

  /** The start command of process 1 has read the byte to the end of the FIFO. */
  predicate AboutToSave(w: World) {
    && w.conf == NO_HOOKS && w.procs == map[1 := Proc(StartCmd, SaveRunning, Snapshot(7, Running), [])]
    && w.k.dir && w.k.file == Some(Snapshot(7, Created))
    && w.k.init == Alive(AtBranch) && w.k.initPid == 7
    && w.creator.pc == Finished(true)
  }

  lemma AboutToSaveRun() returns (ls: seq<Label>, w: World)
    ensures LeadsTo(ls, w) && AboutToSave(w)
  {
    ls, w := MeetingRun();
    ls, w := Go(ls, w, InitAct(true));
    ls, w := Go(ls, w, InitAct(true));
    ls, w := Go(ls, w, InitAct(true));
    ls, w := Go(ls, w, Act(1, true));
    ls, w := Go(ls, w, Act(1, true));
  }

  /** The ordinary course of events is possible: `start` succeeds and the user's program runs. */
  lemma StartCanSucceed()
    ensures exists ls :: IsRun(NO_HOOKS, ls) && After(NO_HOOKS, ls).k.init == Alive(InUser)
                         && 1 in After(NO_HOOKS, ls).procs && After(NO_HOOKS, ls).procs[1].pc == Done(Started)
  {
    var ls, w := AboutToSaveRun();
    ls, w := Go(ls, w, InitAct(true));
    ls, w := Go(ls, w, Act(1, true));
    ls, w := Go(ls, w, Act(1, true));
    ls, w := Go(ls, w, Act(1, true));
    assert IsRun(NO_HOOKS, ls);
  }

  /** The same with init dead and waited for. */
  predicate DeadSaver(w: World) {
    && w.conf == NO_HOOKS && w.procs == map[1 := Proc(StartCmd, SaveRunning, Snapshot(7, Running), [])]
    && w.k.dir && w.k.file == Some(Snapshot(7, Created))
    && w.k.init == Gone && w.k.initPid == 7
    && w.creator.pc == Finished(true)
  }

  lemma DeadSaverRun() returns (ls: seq<Label>, w: World)
    ensures LeadsTo(ls, w) && DeadSaver(w)
  {
    ls, w := AboutToSaveRun();
    ls, w := Go(ls, w, Die);
    ls, w := Go(ls, w, Reap);
  }

  /** A `state` command has saved Stopped, and the start command of process 1 is about to save Running. */
  predicate StoppedSaved(w: World) {
    && 1 in w.procs && w.procs[1] == Proc(StartCmd, SaveRunning, Snapshot(7, Running), [])
    && w.k.dir && w.k.file == Some(Snapshot(7, Stopped))
  }

  lemma StoppedSavedRun() returns (ls: seq<Label>, w: World)
    ensures LeadsTo(ls, w) && StoppedSaved(w)
  {
    ls, w := DeadSaverRun();
    ls, w := Go(ls, w, Launch(2, StateCmd));
    ls, w := Go(ls, w, Act(2, true));
    ls, w := Go(ls, w, Act(2, true));
    ls, w := Go(ls, w, Act(2, true));
  }

  /** The start command of process 1 has decided to open the FIFO. */
  predicate Arriving(w: World) {
    && w.conf == NO_HOOKS && w.procs == map[1 := Proc(StartCmd, Arrive, Snapshot(7, Created), [])]
    && w.k.fifo == Fifo(true, {}, true, 0, 1, 0, 0, 0, 0)
    && w.k.init == Alive(InFifoOpen(0)) && w.k.initPid == 7
    && w.creator.pc == Finished(true)
  }

  lemma ArrivingRun() returns (ls: seq<Label>, w: World)
    ensures LeadsTo(ls, w) && Arriving(w)
  {
    ls, w := WaitingRun();
    ls, w := Go(ls, w, Launch(1, StartCmd));
    ls, w := Go(ls, w, Act(1, true));
    ls, w := Go(ls, w, Act(1, true));
    ls, w := Go(ls, w, Act(1, true));
  }

  /** And now init is dead. */
  predicate TooLate(w: World) {
    && 1 in w.procs && w.procs[1].pc == Arrive
    && w.k.fifo.linked && !w.k.fifo.writer && w.k.init == Zombie
  }

  lemma TooLateRun() returns (ls: seq<Label>, w: World)
    ensures LeadsTo(ls, w) && TooLate(w)
  {
    ls, w := ArrivingRun();
    Dying(w);
    ls, w := Go(ls, w, Die);
  }

  lemma Dying(w: World)
    requires w.k.init.Alive?
    ensures Step(w, Die).Some? && Step(w, Die).value.procs == w.procs
    ensures var k := Step(w, Die).value.k;
            k.init == Zombie && !k.fifo.writer && k.fifo.linked == w.k.fifo.linked
  {
  }

  /**
   A start waits for ever: it has seen its container alive and created, but opens the FIFO only after
   init has died waiting at the other end.
   */
  lemma StartCanBlockForever()
    ensures exists ls :: IsRun(NO_HOOKS, ls) && BlockedForever(After(NO_HOOKS, ls), 1)
  {
    var ls, w := TooLateRun();
    ls, w := Go(ls, w, Act(1, true));
    assert After(NO_HOOKS, ls) == w;
    assert BlockedForever(w, 1);
  }

  /**
   An update is lost: init dies, a `state` command saves Stopped, and a `start` that had read the
   FIFO before overwrites it with Running.
   */
  lemma StoppedCanTurnRunning()
    ensures exists ls, l :: IsRun(NO_HOOKS, ls) && Step(After(NO_HOOKS, ls), l).Some?
                         && After(NO_HOOKS, ls).k.file == Some(Snapshot(7, Stopped))
                         && Step(After(NO_HOOKS, ls), l).value.k.file == Some(Snapshot(7, Running))
  {
    var ls, w := StoppedSavedRun();
    assert After(NO_HOOKS, ls) == w;
    assert Step(w, Act(1, true)).value.k.file == Some(Snapshot(7, Running));
  }
}
