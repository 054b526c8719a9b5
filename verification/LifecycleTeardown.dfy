/** Who may take a container's directory and tap away, and in which order handlers are called. */
module LifecycleTeardown {
  import opened Lifecycle
  import opened LifecycleInvariant
  import opened LifecycleTheorems

  predicate InitLives(k: Kernel) {
    k.init.Alive? || k.init.Zombie?
  }

  /** The step takes away the directory or the tap of a container whose init has not gone. */
  predicate TakesFromLive(w: World, l: Label)
    requires Step(w, l).Some?
  {
    InitLives(w.k) && ((w.k.dir && !Step(w, l).value.k.dir) || (w.k.tap && !Step(w, l).value.k.tap))
  }

  /** The delete command found no state.json when it loaded, so it removes the directory unseen. */
  predicate RemovesOrphan(w: World, l: Label) {
    l.Act? && l.ok && l.p in w.procs && w.procs[l.p].pc == RemoveOrphan && w.k.dir
  }

  /** `create` failed to read the start time of the init it had spawned, and destroys without a kill. */
  predicate DropsUnkilled(w: World, l: Label) {
    && l.Create? && l.ok
    && ((w.creator.pc == DropFs(true) && w.k.dir) || (w.creator.pc == DropNet(true) && w.k.tap))
  }

  lemma CommandStepFromLive(w: World, p: ProcId, ok: bool)
    requires Inv(w) && Step(w, Act(p, ok)).Some? && InitLives(w.k)
    ensures TakesFromLive(w, Act(p, ok)) <==> RemovesOrphan(w, Act(p, ok))
  {
    assert ProcOk(w.k, w.procs[p]);
    ProcFootprint(w.k, p, w.procs[p], ok);
  }

  lemma CreatorStepFromLive(w: World, ok: bool, pid: nat)
    requires Inv(w) && Step(w, Create(ok, pid)).Some? && InitLives(w.k)
    ensures TakesFromLive(w, Create(ok, pid)) <==> DropsUnkilled(w, Create(ok, pid))
  {
    CreatorFootprint(w.conf, w.k, w.creator, ok, pid);
  }

  lemma StepFromLive(w: World, l: Label)
    requires Inv(w) && Step(w, l).Some? && InitLives(w.k)
    ensures TakesFromLive(w, l) <==> RemovesOrphan(w, l) || DropsUnkilled(w, l)
  {
    match l
    case Act(p, ok) => CommandStepFromLive(w, p, ok);
    case Create(ok, pid) => CreatorStepFromLive(w, ok, pid);
    case InitAct(ok) => InitFootprint(w.conf, w.k, ok);
    case _ =>
  }

  /**
   In every run, the directory or tap of an init that is not gone is taken away in exactly two
   situations: a delete that had found no state.json, and a create whose `start` failed after the spawn.
   */
  lemma TeardownOfLiveInit(conf: Config, ls: seq<Label>, l: Label)
    requires IsRun(conf, ls) && Step(After(conf, ls), l).Some? && InitLives(After(conf, ls).k)
    ensures TakesFromLive(After(conf, ls), l) <==>
            RemovesOrphan(After(conf, ls), l) || DropsUnkilled(After(conf, ls), l)
  {
    RunInv(conf, ls);
    StepFromLive(After(conf, ls), l);
  }

  /** Step `i` of the run is the load of the delete process `p`, and there is no state.json. */
  ghost predicate LoadsNothing(conf: Config, ls: seq<Label>, i: nat, p: ProcId)
    requires i < |ls|
  {
    && ls[i] == Act(p, true) && IsRun(conf, ls[..i])
    && var w := After(conf, ls[..i]);
       p in w.procs && w.procs[p].kind.DeleteCmd? && w.procs[p].pc == Load && w.k.file.None?
  }

  lemma EntersRemoval(w: World, l: Label, p: ProcId)
    requires Step(w, l).Some? && p in Step(w, l).value.procs && Step(w, l).value.procs[p].pc == RemoveOrphan
    ensures p in w.procs
    ensures w.procs[p].pc == RemoveOrphan
            || (l == Act(p, true) && w.procs[p].kind.DeleteCmd? && w.procs[p].pc == Load && w.k.file.None?)
  {
  }

  lemma {:induction false} RemoverLoadedNothing(conf: Config, ls: seq<Label>, p: ProcId)
    requires IsRun(conf, ls) && p in After(conf, ls).procs && After(conf, ls).procs[p].pc == RemoveOrphan
    ensures exists i :: 0 <= i < |ls| && LoadsNothing(conf, ls, i, p)
    decreases |ls|
  {
    var n := |ls| - 1;
    LastStep(conf, ls);
    var w := After(conf, ls[..n]);
    EntersRemoval(w, ls[n], p);
    if w.procs[p].pc == RemoveOrphan {
      RemoverLoadedNothing(conf, ls[..n], p);
      var i :| 0 <= i < n && LoadsNothing(conf, ls[..n], i, p);
      assert ls[..n][..i] == ls[..i];
      assert LoadsNothing(conf, ls, i, p);
    } else {
      assert LoadsNothing(conf, ls, n, p);
    }
  }

  /** Step `i` of the run is `create` failing to read the start time of the init it has spawned. */
  ghost predicate FailsAfterSpawn(conf: Config, ls: seq<Label>, i: nat)
    requires i < |ls|
  {
    ls[i].Create? && !ls[i].ok && IsRun(conf, ls[..i]) && After(conf, ls[..i]).creator.pc == StartTime
  }

  predicate Unkilled(pc: CreatorPc) {
    pc == DropExec(true) || pc == DropFs(true) || pc == DropNet(true)
  }

  lemma EntersUnkilled(w: World, l: Label)
    requires Step(w, l).Some? && Unkilled(Step(w, l).value.creator.pc)
    ensures Unkilled(w.creator.pc) || (l.Create? && !l.ok && w.creator.pc == StartTime)
  {
  }

  lemma {:induction false} UnkilledFailedAfterSpawn(conf: Config, ls: seq<Label>)
    requires IsRun(conf, ls) && Unkilled(After(conf, ls).creator.pc)
    ensures exists i :: 0 <= i < |ls| && FailsAfterSpawn(conf, ls, i)
    decreases |ls|
  {
    var n := |ls| - 1;
    LastStep(conf, ls);
    EntersUnkilled(After(conf, ls[..n]), ls[n]);
    if Unkilled(After(conf, ls[..n]).creator.pc) {
      UnkilledFailedAfterSpawn(conf, ls[..n]);
      var i :| 0 <= i < n && FailsAfterSpawn(conf, ls[..n], i);
      assert ls[..n][..i] == ls[..i];
      assert FailsAfterSpawn(conf, ls, i);
    } else {
      assert FailsAfterSpawn(conf, ls, n);
    }
  }

  /** What came before, when a living init loses its directory or tap. */
  lemma TeardownHasCause(conf: Config, ls: seq<Label>, l: Label)
    requires IsRun(conf, ls) && Step(After(conf, ls), l).Some? && TakesFromLive(After(conf, ls), l)
    ensures || (l.Act? && exists i :: 0 <= i < |ls| && LoadsNothing(conf, ls, i, l.p))
            || (l.Create? && exists i :: 0 <= i < |ls| && FailsAfterSpawn(conf, ls, i))
  {
    TeardownOfLiveInit(conf, ls, l);
    if RemovesOrphan(After(conf, ls), l) {
      RemoverLoadedNothing(conf, ls, l.p);
    } else {
      UnkilledFailedAfterSpawn(conf, ls);
    }
  }

  lemma CallsNeedGone(k: Kernel, p: ProcId, me: Proc, ok: bool)
    requires ProcOk(k, me) && ProcStep(k, p, me, ok).Some? && ProcStep(k, p, me, ok).value.me.teardown != me.teardown
    ensures k.init.Gone? && me.kind.DeleteCmd?
  {
  }

  /** Every destroy handler that a command calls is called after init has gone. */
  lemma DestroyOnlyWhenGone(conf: Config, ls: seq<Label>, p: ProcId, ok: bool)
    requires IsRun(conf, ls)
    requires p in After(conf, ls).procs && Step(After(conf, ls), Act(p, ok)).Some?
    requires Step(After(conf, ls), Act(p, ok)).value.procs[p].teardown != After(conf, ls).procs[p].teardown
    ensures After(conf, ls).k.init == Gone && After(conf, ls).procs[p].kind.DeleteCmd?
  {
    var w := After(conf, ls);
    RunInv(conf, ls);
    assert ProcOk(w.k, w.procs[p]);
    CallsNeedGone(w.k, p, w.procs[p], ok);
  }

  /** A kill reaches init and nothing else: the pid a delete holds is init's, never 0. */
  lemma KillHitsInit(conf: Config, ls: seq<Label>, p: ProcId)
    requires IsRun(conf, ls) && p in After(conf, ls).procs && After(conf, ls).procs[p].pc == Kill
    ensures After(conf, ls).procs[p].mem.pid == After(conf, ls).k.initPid > 0
  {
    RunInv(conf, ls);
    assert ProcOk(After(conf, ls).k, After(conf, ls).procs[p]);
  }

  // ---------------------------------------------------------------- a delete that fails

  /** Process `p` may have removed something. */
  predicate Removed(w: World, p: ProcId) {
    p in w.procs && (w.procs[p].pc in {TearNet, Done(Deleted), Done(NotExists), Crashed})
  }

  lemma StepKeepsRemoved(w: World, l: Label, p: ProcId)
    requires Removed(w, p) && Step(w, l).Some?
    ensures Removed(Step(w, l).value, p)
  {
  }

  lemma {:induction false} RunKeepsRemoved(w: World, ls: seq<Label>, p: ProcId)
    requires Removed(w, p) && Exec(w, ls).Some?
    ensures Removed(Exec(w, ls).value, p)
    decreases |ls|
  {
    if ls != [] {
      StepKeepsRemoved(w, ls[0], p);
      RunKeepsRemoved(Step(w, ls[0]).value, ls[1..], p);
    }
  }

  lemma RemovingStep(w: World, p: ProcId, ok: bool)
    requires p in w.procs && Step(w, Act(p, ok)).Some?
    ensures var v := Step(w, Act(p, ok)).value;
            (v.k.dir == w.k.dir && v.k.tap == w.k.tap) || Removed(v, p)
  {
    ProcFootprint(w.k, p, w.procs[p], ok);
  }

  /**
   A command that reports any outcome but deletion, or that there was no such container, made no
   step in the whole run that changed the directory or the tap.  So a delete that gives up because
   init is still running, or because the container is not stopped, leaves both untouched.
   */
  lemma FailedCommandRemovesNothing(conf: Config, before: seq<Label>, p: ProcId, ok: bool, after: seq<Label>, o: Outcome)
    requires IsRun(conf, before) && IsRun(conf, before + [Act(p, ok)]) && IsRun(conf, before + [Act(p, ok)] + after)
    requires p in After(conf, before + [Act(p, ok)] + after).procs
    requires After(conf, before + [Act(p, ok)] + after).procs[p].pc == Done(o) && o != Deleted && o != NotExists
    ensures After(conf, before + [Act(p, ok)]).k.dir == After(conf, before).k.dir
    ensures After(conf, before + [Act(p, ok)]).k.tap == After(conf, before).k.tap
  {
    var mid := before + [Act(p, ok)];
    LastStep(conf, mid);
    assert mid[..|mid| - 1] == before;
    RemovingStep(After(conf, before), p, ok);
    ExecAppend(Fresh(conf), mid, after);
    if Removed(After(conf, mid), p) { RunKeepsRemoved(After(conf, mid), after, p); }
  }

  /** A delete that succeeds has called destroy on a dead init; a delete that gave up has called nothing. */
  lemma DeleteOutcome(conf: Config, ls: seq<Label>, p: ProcId)
    requires IsRun(conf, ls) && p in After(conf, ls).procs
    requires After(conf, ls).procs[p].kind.DeleteCmd? && After(conf, ls).procs[p].pc.Done?
    ensures var me := After(conf, ls).procs[p];
            && (me.pc == Done(Deleted) <==> me.teardown != [])
            && (me.pc == Done(Deleted) ==> After(conf, ls).k.init == Gone && [ExecH, FsH] <= me.teardown <= [ExecH, FsH, NetH])
  {
    RunInv(conf, ls);
    assert ProcOk(After(conf, ls).k, After(conf, ls).procs[p]);
  }

  // ---------------------------------------------------------------- handlers in order

  /**
   The handler calls of each phase are a prefix of that phase's order: Fs, Network, Exec at create
   (without Fs for `/pause`), init's program at run, and Exec, Fs, Network at destroy.
   */
  lemma HandlerOrder(conf: Config, ls: seq<Label>, p: ProcId)
    requires IsRun(conf, ls) && p in After(conf, ls).procs
    ensures var w := After(conf, ls);
            && w.creator.created <= (if conf.SkipsFs() then [NetH, ExecH] else [FsH, NetH, ExecH])
            && w.creator.teardown <= [ExecH, FsH, NetH]
            && w.procs[p].teardown <= [ExecH, FsH, NetH]
            && w.k.log <= [CallFs] + HookCalls(conf.hooks) + [CallNet, WroteFifo] + (if conf.Pauses() then [] else [CallExec])
  {
    RunInv(conf, ls);
    ConfFixed(Fresh(conf), ls);
    var w := After(conf, ls);
    assert ProcOk(w.k, w.procs[p]);
    assert Program(conf) == [CallFs] + HookCalls(conf.hooks) + [CallNet, WroteFifo] + (if conf.Pauses() then [] else [CallExec]);
  }

  /** `create` destroys what it made only with init gone or never born, unless `start` failed after the spawn. */
  lemma CreateCleansUpAfterInit(conf: Config, ls: seq<Label>, ok: bool, pid: nat)
    requires IsRun(conf, ls) && Step(After(conf, ls), Create(ok, pid)).Some?
    requires Step(After(conf, ls), Create(ok, pid)).value.creator.teardown != After(conf, ls).creator.teardown
    ensures var w := After(conf, ls);
            || w.k.init == Unborn || w.k.init == Gone
            || w.creator.pc in {DropExec(true), DropFs(true), DropNet(true)}
  {
    RunInv(conf, ls);
    var w := After(conf, ls);
    TeardownPcs(w.conf, w.k, w.creator, ok, pid);
  }

  lemma TeardownPcs(conf: Config, k: Kernel, c: Creator, ok: bool, pid: nat)
    requires CreatorStep(conf, k, c, ok, pid).Some? && CreatorStep(conf, k, c, ok, pid).value.c.teardown != c.teardown
    ensures c.pc.DropExec? || c.pc.DropFs? || c.pc.DropNet?
  {
  }

  /** A `create` that succeeded has destroyed nothing. */
  lemma CreateSuccessKeepsAll(conf: Config, ls: seq<Label>)
    requires IsRun(conf, ls) && After(conf, ls).creator.pc == Finished(true)
    ensures After(conf, ls).creator.teardown == [] && After(conf, ls).k.init != Unborn
    ensures After(conf, ls).creator.created == (if conf.SkipsFs() then [NetH, ExecH] else [FsH, NetH, ExecH])
  {
    RunInv(conf, ls);
    ConfFixed(Fresh(conf), ls);
  }

  // ---------------------------------------------------------------- a create that succeeds

  /** `create` is taking back what it has made, or has stopped without success. */
  predicate Undoing(pc: CreatorPc) {
    || pc.Terminate? || pc.Wait? || pc.DropExec? || pc.DropFs? || pc.DropNet?
    || pc == Finished(false) || pc.CreatorCrashed?
  }

  lemma StepKeepsUndoing(w: World, l: Label)
    requires Step(w, l).Some? && Undoing(w.creator.pc)
    ensures Undoing(Step(w, l).value.creator.pc)
  {
  }

  lemma {:induction false} RunKeepsUndoing(w: World, ls: seq<Label>)
    requires Exec(w, ls).Some? && Undoing(w.creator.pc)
    ensures Undoing(Exec(w, ls).value.creator.pc)
    decreases |ls|
  {
    if ls != [] {
      StepKeepsUndoing(w, ls[0]);
      RunKeepsUndoing(Step(w, ls[0]).value, ls[1..]);
    }
  }

  lemma CreatorSignals(conf: Config, k: Kernel, c: Creator, ok: bool, pid: nat)
    requires CreatorOk(conf, k, c) && CreatorStep(conf, k, c, ok, pid).Some? && !Undoing(c.pc)
    ensures CreatorStep(conf, k, c, ok, pid).value.k.init == k.init || (k.init.Unborn? && c.pc.Spawn?)
  {
  }

  /** At no point of the run is `create` about to kill init, and none of its steps does anything to a born init. */
  ghost predicate InitLeftAlone(conf: Config, ls: seq<Label>) {
    forall i | 0 <= i <= |ls| ::
      && IsRun(conf, ls[..i]) && !After(conf, ls[..i]).creator.pc.Terminate?
      && (i < |ls| && ls[i].Create? && IsRun(conf, ls[..i + 1]) ==>
            var k, v := After(conf, ls[..i]).k, After(conf, ls[..i + 1]).k;
            v.init == k.init || k.init.Unborn?)
  }

  /** A `create` that succeeded never signalled its init, and never waited for it. */
  lemma CreateSuccessLeavesInitAlone(conf: Config, ls: seq<Label>)
    requires IsRun(conf, ls) && After(conf, ls).creator.pc == Finished(true)
    ensures InitLeftAlone(conf, ls)
  {
    forall i | 0 <= i <= |ls|
      ensures IsRun(conf, ls[..i]) && !After(conf, ls[..i]).creator.pc.Terminate?
      ensures i < |ls| && ls[i].Create? && IsRun(conf, ls[..i + 1]) ==>
                After(conf, ls[..i + 1]).k.init == After(conf, ls[..i]).k.init || After(conf, ls[..i]).k.init.Unborn?
    {
      RunPrefix(conf, ls, i);
      var w := After(conf, ls[..i]);
      if Undoing(w.creator.pc) { RunKeepsUndoing(w, ls[i..]); }
      if i < |ls| && ls[i].Create? {
        RunPrefix(conf, ls, i + 1);
        LastStep(conf, ls[..i + 1]);
        assert ls[..i + 1][..i] == ls[..i];
        RunInv(conf, ls[..i]);
        CreatorSignals(w.conf, w.k, w.creator, ls[i].ok, ls[i].pid);
      }
    }
  }
}
