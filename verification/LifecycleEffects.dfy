/** What the steps of the commands and of init leave behind, in the kernel and for the rest of a run. */
module LifecycleEffects {
  import opened Common
  import opened Lifecycle
  import opened LifecycleInvariant
  import opened LifecycleTheorems
  import opened LifecycleStatus
  import opened LifecycleTeardown

  // ---------------------------------------------------------------- what a command has achieved

  /** The start command has made its save. */
  predicate PastSave(pc: Pc) {
    pc.Unlink? || pc == Close(Started) || pc == Done(Started)
  }

  /** What has been done by a command that stands at `pc`, whatever the others have done since. */
  predicate EffectOk(k: Kernel, me: Proc) {
    && (PastSave(me.pc) && k.file.Some? ==> k.file.value.status != Created)
    && (me.pc == Close(Started) || me.pc == Done(Started) ==> !k.fifo.linked)
    && (me.pc.KillProbe? ==> Dead(k.init))
    && (me.pc.TearNet? || (me.pc == Done(Deleted) && NetH in me.teardown) ==> !k.dir)
  }

  lemma StartHasEffect(k: Kernel, p: ProcId, me: Proc, ok: bool)
    requires ProcOk(k, me) && FileOk(k) && EffectOk(k, me) && InExec(me.pc) && ExecStep(k, p, me, ok).Some?
    ensures EffectOk(ExecStep(k, p, me, ok).value.k, ExecStep(k, p, me, ok).value.me)
  {
  }

  lemma DeleteHasEffect(k: Kernel, me: Proc, ok: bool)
    requires ProcOk(k, me) && EffectOk(k, me) && InDelete(me.pc)
    ensures EffectOk(DeleteStep(k, me, ok).value.k, DeleteStep(k, me, ok).value.me)
  {
  }

  lemma StatusHasEffect(k: Kernel, me: Proc, ok: bool)
    requires ProcOk(k, me) && InStatus(me.pc)
    ensures EffectOk(StatusStep(k, me, ok).value.k, StatusStep(k, me, ok).value.me)
  {
  }

  /** Steps that keep what has been achieved: nothing made before the spawn is made again. */
  lemma StepKeepsAway(w: World, l: Label)
    requires Inv(w) && Step(w, l).Some? && !w.k.init.Unborn?
    ensures var v := Step(w, l).value.k;
            && (!w.k.dir ==> !v.dir) && (!w.k.tap ==> !v.tap) && (!w.k.fifo.linked ==> !v.fifo.linked)
            && (Dead(w.k.init) ==> Dead(v.init))
  {
    match l
    case Act(p, ok) => MoveKeepsAway(w.k, p, w.procs[p], ok);
    case InitAct(ok) => InitKeepsAway(w.conf, w.k, ok);
    case Create(ok, pid) => CreatorKeepsAway(w.conf, w.k, w.creator, ok, pid);
    case _ =>
  }

  lemma MoveKeepsAway(k: Kernel, p: ProcId, me: Proc, ok: bool)
    requires ProcStep(k, p, me, ok).Some?
    ensures var v := ProcStep(k, p, me, ok).value.k;
            && (!k.dir ==> !v.dir) && (!k.tap ==> !v.tap) && (!k.fifo.linked ==> !v.fifo.linked)
            && (Dead(k.init) ==> Dead(v.init))
  {
    ProcFootprint(k, p, me, ok);
    CommandLeavesWriters(k, p, me, ok);
    if InExec(me.pc) { ExecKeepsLink(k, p, me, ok); }
  }

  lemma ExecKeepsLink(k: Kernel, p: ProcId, me: Proc, ok: bool)
    requires InExec(me.pc) && ExecStep(k, p, me, ok).Some?
    ensures !k.fifo.linked ==> !ExecStep(k, p, me, ok).value.k.fifo.linked
  {
  }

  lemma InitKeepsAway(conf: Config, k: Kernel, ok: bool)
    requires k.init.Alive? && InitStep(conf, k, ok).Some?
    ensures var v := InitStep(conf, k, ok).value;
            v.dir == k.dir && v.tap == k.tap && v.fifo.linked == k.fifo.linked
  {
  }

  lemma CreatorKeepsAway(conf: Config, k: Kernel, c: Creator, ok: bool, pid: nat)
    requires CreatorOk(conf, k, c) && CreatorStep(conf, k, c, ok, pid).Some? && !k.init.Unborn?
    ensures var v := CreatorStep(conf, k, c, ok, pid).value.k;
            && (!k.dir ==> !v.dir) && (!k.tap ==> !v.tap) && (!k.fifo.linked ==> !v.fifo.linked)
            && (Dead(k.init) ==> Dead(v.init)) && v.log == k.log
  {
  }

  /** No step saves Created once a start has made its save. */
  lemma StepKeepsSaved(w: World, l: Label, p: ProcId)
    requires Inv(w) && Step(w, l).Some? && p in w.procs && PastSave(w.procs[p].pc)
    requires w.k.file.Some? ==> w.k.file.value.status != Created
    ensures Step(w, l).value.k.file.Some? ==> Step(w, l).value.k.file.value.status != Created
  {
    assert !NeverLoaded(w.procs[p].pc);
    if w.k.file.Some? && Step(w, l).value.k.file.Some? { StepMovesStatus(w, l); }
    if w.k.file.None? && Step(w, l).value.k.file.Some? { FirstSave(w, l); }
  }

  /** Only `create` saves Created. */
  lemma FirstSave(w: World, l: Label)
    requires Inv(w) && Step(w, l).Some? && w.k.file.None? && Step(w, l).value.k.file.Some?
    ensures Step(w, l).value.k.file.value.status == Created ==> w.creator.pc == SaveCreated
  {
    match l
    case Act(p, ok) =>
      ProcFootprint(w.k, p, w.procs[p], ok);
      assert ProcOk(w.k, w.procs[p]);
    case InitAct(ok) => InitFootprint(w.conf, w.k, ok);
    case Create(ok, pid) => CreatorFootprint(w.conf, w.k, w.creator, ok, pid);
    case _ =>
  }

  ghost predicate EffectsOk(w: World) {
    forall p | p in w.procs :: EffectOk(w.k, w.procs[p])
  }

  /** What `p` has achieved stays achieved when somebody else moves. */
  lemma OthersKeepEffect(w: World, l: Label, p: ProcId)
    requires Inv(w) && Step(w, l).Some? && p in w.procs && EffectOk(w.k, w.procs[p])
    ensures EffectOk(Step(w, l).value.k, w.procs[p])
  {
    var me := w.procs[p];
    assert ProcOk(w.k, me);
    if PastSave(me.pc) { StepKeepsSaved(w, l, p); }
    if !w.k.init.Unborn? { StepKeepsAway(w, l); }
  }

  lemma OwnMoveHasEffect(k: Kernel, p: ProcId, me: Proc, ok: bool)
    requires ProcOk(k, me) && FileOk(k) && EffectOk(k, me) && ProcStep(k, p, me, ok).Some?
    ensures EffectOk(ProcStep(k, p, me, ok).value.k, ProcStep(k, p, me, ok).value.me)
  {
    if InStatus(me.pc) { StatusHasEffect(k, me, ok); }
    else if InExec(me.pc) { StartHasEffect(k, p, me, ok); }
    else { DeleteHasEffect(k, me, ok); }
  }

  lemma StepKeepsEffects(w: World, l: Label)
    requires Inv(w) && EffectsOk(w) && Step(w, l).Some?
    ensures EffectsOk(Step(w, l).value)
  {
    var v := Step(w, l).value;
    forall p | p in v.procs ensures EffectOk(v.k, v.procs[p]) {
      if l.Act? && l.p == p {
        assert ProcOk(w.k, w.procs[p]);
        OwnMoveHasEffect(w.k, p, w.procs[p], l.ok);
      } else if p in w.procs {
        OthersKeepEffect(w, l, p);
      }
    }
  }

  lemma {:induction false} RunKeepsEffects(w: World, ls: seq<Label>)
    requires Inv(w) && EffectsOk(w) && Exec(w, ls).Some?
    ensures EffectsOk(Exec(w, ls).value)
    decreases |ls|
  {
    if ls != [] {
      StepKeepsInv(w, ls[0]);
      StepKeepsEffects(w, ls[0]);
      RunKeepsEffects(Step(w, ls[0]).value, ls[1..]);
    }
  }

  /**
   In every run: once a start has made its save, state.json does not say Created, for as long as it
   exists; after its success the FIFO is gone; once a delete has sent its signal, init is dead; and
   after its second destroy handler the directory is gone.
   */
  lemma CommandsTakeEffect(conf: Config, ls: seq<Label>, p: ProcId)
    requires IsRun(conf, ls) && p in After(conf, ls).procs
    ensures var k, me := After(conf, ls).k, After(conf, ls).procs[p];
            && (PastSave(me.pc) && k.file.Some? ==> k.file.value.status == Running || k.file.value.status == Stopped)
            && (me.pc == Done(Started) ==> !k.fifo.linked)
            && (me.pc.KillProbe? ==> Dead(k.init))
            && (me.pc == Done(Deleted) && me.teardown == [ExecH, FsH, NetH] ==> !k.dir && k.file.None?)
  {
    FreshInv(conf);
    RunKeepsEffects(Fresh(conf), ls);
    RunInv(conf, ls);
    assert EffectOk(After(conf, ls).k, After(conf, ls).procs[p]);
  }

  // ---------------------------------------------------------------- what is saved and what is removed

  /** The step leaves `s` in state.json, unless the directory is gone. */
  predicate Records(w: World, l: Label, s: Status)
    requires Step(w, l).Some?
  {
    var k := Step(w, l).value.k;
    k.file == if w.k.dir then Some(Snapshot(w.k.initPid, s)) else None
  }

  /** The three saves: Created with the new pid, Running after the byte, Stopped after a probe without answer. */
  lemma SavesRecord(conf: Config, ls: seq<Label>, l: Label)
    requires IsRun(conf, ls) && Step(After(conf, ls), l).Some?
    ensures var w := After(conf, ls);
            && (l.Create? && w.creator.pc == SaveCreated ==> Records(w, l, Created))
            && (l.Act? && l.p in w.procs && w.procs[l.p].pc == SaveRunning ==> Records(w, l, Running))
            && (l.Act? && l.p in w.procs && w.procs[l.p].pc.SaveStopped? ==> Records(w, l, Stopped))
  {
    RunInv(conf, ls);
    var w := After(conf, ls);
    if l.Act? && l.p in w.procs { assert ProcOk(w.k, w.procs[l.p]); }
  }

  lemma DeadCallsNothing(w: World, l: Label)
    requires Inv(w) && Step(w, l).Some? && Dead(w.k.init)
    ensures Step(w, l).value.k.log == w.k.log
  {
    match l
    case Act(p, ok) =>
      ProcStepOk(w.conf, w.k, p, w.procs[p], ok);
    case Create(ok, pid) => CreatorKeepsAway(w.conf, w.k, w.creator, ok, pid);
    case _ =>
  }

  /** What is gone after the spawn stays gone, and a dead init stays dead and silent. */
  predicate StaysAway(k: Kernel, v: Kernel) {
    && !v.init.Unborn? && (!k.dir ==> !v.dir) && (!k.tap ==> !v.tap)
    && (Dead(k.init) ==> Dead(v.init) && v.log == k.log)
  }

  lemma StepStaysAway(w: World, l: Label)
    requires Inv(w) && Step(w, l).Some? && !w.k.init.Unborn?
    ensures StaysAway(w.k, Step(w, l).value.k)
  {
    StepKeepsAway(w, l);
    if Dead(w.k.init) { DeadCallsNothing(w, l); }
    StepKeepsBorn(w, l);
  }

  lemma StepKeepsBorn(w: World, l: Label)
    requires Inv(w) && Step(w, l).Some? && !w.k.init.Unborn?
    ensures !Step(w, l).value.k.init.Unborn?
  {
    match l
    case Act(p, ok) => ProcStepOk(w.conf, w.k, p, w.procs[p], ok);
    case Create(ok, pid) => CreatorStepOk(w.conf, w.k, w.creator, ok, pid);
    case InitAct(ok) => InitStepOk(w.conf, w.k, ok);
    case _ =>
  }

  lemma {:induction false} RunKeepsAway(w: World, ls: seq<Label>)
    requires Inv(w) && Exec(w, ls).Some? && !w.k.init.Unborn?
    ensures StaysAway(w.k, Exec(w, ls).value.k)
    decreases |ls|
  {
    if ls != [] {
      StepKeepsInv(w, ls[0]);
      StepStaysAway(w, ls[0]);
      RunKeepsAway(Step(w, ls[0]).value, ls[1..]);
    }
  }

  /**
   The last handler of a delete, when it does not fail, leaves nothing for the rest of the run: no directory,
   no state.json, no FIFO and no tap.  A removal that fails takes away nothing.
   */
  lemma DeleteRemovesAll(conf: Config, before: seq<Label>, p: ProcId, ok: bool, after: seq<Label>)
    requires IsRun(conf, before) && IsRun(conf, before + [Act(p, ok)]) && IsRun(conf, before + [Act(p, ok)] + after)
    requires p in After(conf, before).procs
    ensures var me := After(conf, before).procs[p];
            var v := After(conf, before + [Act(p, ok)] + after).k;
            me.pc == TearNet && ok ==> !v.dir && v.file == None && !v.fifo.linked && !v.tap
    ensures After(conf, before).procs[p].pc in {RemoveOrphan, TearFs} && ok ==> !After(conf, before + [Act(p, ok)]).k.dir
    ensures After(conf, before).procs[p].pc in {RemoveOrphan, TearFs, TearNet} && !ok ==>
              After(conf, before + [Act(p, ok)]).k == After(conf, before).k
  {
    var mid := before + [Act(p, ok)];
    var w := After(conf, before);
    RunInv(conf, before);
    LastStep(conf, mid);
    assert mid[..|mid| - 1] == before;
    CommandsTakeEffect(conf, before, p);
    if w.procs[p].pc == TearNet && ok {
      EffectOfTearNet(conf, before, p);
      RunInv(conf, mid);
      ExecAppend(Fresh(conf), mid, after);
      RunKeepsAway(After(conf, mid), after);
      RunInv(conf, mid + after);
    }
  }

  lemma EffectOfTearNet(conf: Config, ls: seq<Label>, p: ProcId)
    requires IsRun(conf, ls) && p in After(conf, ls).procs && After(conf, ls).procs[p].pc == TearNet
    ensures !After(conf, ls).k.dir && After(conf, ls).k.init.Gone?
  {
    FreshInv(conf);
    RunKeepsEffects(Fresh(conf), ls);
    RunInv(conf, ls);
    assert ProcOk(After(conf, ls).k, After(conf, ls).procs[p]);
    assert EffectOk(After(conf, ls).k, After(conf, ls).procs[p]);
  }

  // ---------------------------------------------------------------- a failure ends init

  /** What init stands before can fail: a handler, the namespace, a hook, or the FIFO. */
  predicate Fallible(conf: Config, pc: InitPc) {
    || pc.AtFs? || pc.AtNetns? || (pc.AtHook? && pc.next < conf.hooks) || pc.AtNet?
    || pc.AtFifoOpen? || pc.AtWrite? || (pc.AtBranch? && !conf.Pauses())
  }

  /** Step `i` of the run is a call of init that fails. */
  ghost predicate InitFails(conf: Config, ls: seq<Label>, i: nat)
    requires i < |ls|
  {
    && ls[i] == InitAct(false) && IsRun(conf, ls[..i])
    && var k := After(conf, ls[..i]).k; k.init.Alive? && Fallible(conf, k.init.pc)
  }

  lemma FailureKills(conf: Config, k: Kernel)
    requires k.init.Alive? && Fallible(conf, k.init.pc)
    ensures InitStep(conf, k, false).Some? && Dead(InitStep(conf, k, false).value.init)
  {
  }

  /** When a call of init fails, init is dead from then on and calls nothing more. */
  lemma FailureEndsInit(conf: Config, ls: seq<Label>, i: nat)
    requires IsRun(conf, ls) && i < |ls| && InitFails(conf, ls, i)
    ensures IsRun(conf, ls[..i + 1]) && Dead(After(conf, ls).k.init)
    ensures After(conf, ls).k.log == After(conf, ls[..i + 1]).k.log
  {
    RunPrefix(conf, ls, i + 1);
    LastStep(conf, ls[..i + 1]);
    assert ls[..i + 1][..i] == ls[..i];
    ConfFixed(Fresh(conf), ls[..i]);
    FailureKills(conf, After(conf, ls[..i]).k);
    RunInv(conf, ls[..i + 1]);
    RunKeepsAway(After(conf, ls[..i + 1]), ls[i + 1..]);
  }

  lemma LoggingCanFail(conf: Config, k: Kernel)
    requires k.init.Alive? && InitStep(conf, k, false).Some? && InitStep(conf, k, false).value.log != k.log
    ensures Fallible(conf, k.init.pc)
  {
  }

  /** Every call in the log but the last has succeeded. */
  lemma LoggedCallsSucceeded(conf: Config, ls: seq<Label>, i: nat)
    requires IsRun(conf, ls) && i < |ls| && ls[i].InitAct? && IsRun(conf, ls[..i]) && IsRun(conf, ls[..i + 1])
    requires After(conf, ls[..i + 1]).k.log != After(conf, ls[..i]).k.log
    requires After(conf, ls).k.log != After(conf, ls[..i + 1]).k.log
    ensures ls[i].ok
  {
    if !ls[i].ok {
      LastStep(conf, ls[..i + 1]);
      assert ls[..i + 1][..i] == ls[..i];
      ConfFixed(Fresh(conf), ls[..i]);
      LoggingCanFail(conf, After(conf, ls[..i]).k);
      assert InitFails(conf, ls, i);
      FailureEndsInit(conf, ls, i);
    }
  }

  /** No call of init failed. */
  ghost predicate NoFailure(conf: Config, ls: seq<Label>) {
    forall i | 0 <= i < |ls| :: !InitFails(conf, ls, i)
  }

  /** Init gets anywhere only if every handler, every hook and every call on the way succeeded. */
  lemma AliveHasNotFailed(conf: Config, ls: seq<Label>)
    requires IsRun(conf, ls) && After(conf, ls).k.init.Alive?
    ensures NoFailure(conf, ls)
  {
    forall i | 0 <= i < |ls| ensures !InitFails(conf, ls, i) {
      if InitFails(conf, ls, i) { FailureEndsInit(conf, ls, i); }
    }
  }

  // ---------------------------------------------------------------- what create leaves behind

  /** Before the spawn, from the link of the FIFO on. */
  predicate MadeFifo(pc: CreatorPc) {
    pc.FsCreate? || pc.NetCreate? || pc.ExecCreate? || pc.OpenRoot? || pc.Spawn?
  }

  /**
   What `create` has made is there until it is taken away: the tap of an init that is not gone, unless `create`
   dropped it; the FIFO with its directory, until a byte was read; and state.json with its directory.  An undo
   that has come to its last handler has removed the directory.
   */
  predicate MadeOk(k: Kernel, c: Creator) {
    && (c.pc.ExecCreate? || c.pc.OpenRoot? || c.pc.Spawn? ==> k.tap)
    && (InitLives(k) ==> k.tap || NetH in c.teardown)
    && ((MadeFifo(c.pc) || !k.init.Unborn?) && k.dir && k.fifo.consumed == 0 ==> k.fifo.linked)
    && (c.pc == PostStart || c.pc == Finished(true) ==> (k.dir <==> k.file.Some?))
    && (c.pc.DropNet? || (c.pc == Finished(false) && NetH in c.teardown) ==> !k.dir)
  }

  lemma FactoryMakes(conf: Config, k: Kernel, c: Creator, ok: bool)
    requires KernelOk(conf, k) && CreatorOk(conf, k, c) && MadeOk(k, c) && InCreate(c.pc)
    ensures MadeOk(FactoryStep(conf, k, c, ok).value.k, FactoryStep(conf, k, c, ok).value.c)
  {
  }

  lemma RunnerMakes(conf: Config, k: Kernel, c: Creator, ok: bool, pid: nat)
    requires KernelOk(conf, k) && CreatorOk(conf, k, c) && MadeOk(k, c) && !InCreate(c.pc) && RunnerStep(k, c, ok, pid).Some?
    ensures MadeOk(RunnerStep(k, c, ok, pid).value.k, RunnerStep(k, c, ok, pid).value.c)
  {
  }

  lemma InitKeepsMade(conf: Config, k: Kernel, c: Creator, ok: bool)
    requires KernelOk(conf, k) && LogOk(conf, k) && MadeOk(k, c) && k.init.Alive? && InitStep(conf, k, ok).Some?
    ensures MadeOk(InitStep(conf, k, ok).value, c)
  {
    InitStepOk(conf, k, ok);
    InitFootprint(conf, k, ok);
    InitKeepsAway(conf, k, ok);
  }

  lemma StatusKeepsMade(k: Kernel, c: Creator, me: Proc, ok: bool)
    requires FileOk(k) && ProcOk(k, me) && MadeOk(k, c) && InStatus(me.pc)
    ensures MadeOk(StatusStep(k, me, ok).value.k, c)
  {
  }

  lemma ExecKeepsMade(k: Kernel, c: Creator, p: ProcId, me: Proc, ok: bool)
    requires FifoOk(k) && FileOk(k) && ProcOk(k, me) && MadeOk(k, c) && InExec(me.pc) && ExecStep(k, p, me, ok).Some?
    ensures MadeOk(ExecStep(k, p, me, ok).value.k, c)
  {
  }

  lemma DeleteKeepsMade(conf: Config, k: Kernel, c: Creator, me: Proc, ok: bool)
    requires FifoOk(k) && FileOk(k) && ProcOk(k, me) && MadeOk(k, c) && CreatorOk(conf, k, c) && InDelete(me.pc)
    ensures MadeOk(DeleteStep(k, me, ok).value.k, c)
  {
  }

  lemma StepKeepsMade(w: World, l: Label)
    requires Inv(w) && MadeOk(w.k, w.creator) && Step(w, l).Some?
    ensures MadeOk(Step(w, l).value.k, Step(w, l).value.creator)
  {
    match l
    case Act(p, ok) =>
      var me := w.procs[p];
      assert ProcOk(w.k, me);
      if InStatus(me.pc) { StatusKeepsMade(w.k, w.creator, me, ok); }
      else if InExec(me.pc) { ExecKeepsMade(w.k, w.creator, p, me, ok); }
      else { DeleteKeepsMade(w.conf, w.k, w.creator, me, ok); }
    case InitAct(ok) => InitKeepsMade(w.conf, w.k, w.creator, ok);
    case Create(ok, pid) =>
      if InCreate(w.creator.pc) { FactoryMakes(w.conf, w.k, w.creator, ok); }
      else { RunnerMakes(w.conf, w.k, w.creator, ok, pid); }
    case _ =>
  }

  lemma {:induction false} RunKeepsMade(w: World, ls: seq<Label>)
    requires Inv(w) && MadeOk(w.k, w.creator) && Exec(w, ls).Some?
    ensures MadeOk(Exec(w, ls).value.k, Exec(w, ls).value.creator)
    decreases |ls|
  {
    if ls != [] {
      StepKeepsInv(w, ls[0]);
      StepKeepsMade(w, ls[0]);
      RunKeepsMade(Step(w, ls[0]).value, ls[1..]);
    }
  }

  /** The invariant of what `create` has made, over all runs. */
  lemma CreateLeaves(conf: Config, ls: seq<Label>)
    requires IsRun(conf, ls)
    ensures MadeOk(After(conf, ls).k, After(conf, ls).creator)
  {
    FreshInv(conf);
    RunKeepsMade(Fresh(conf), ls);
  }

  // ---------------------------------------------------------------- when create succeeds

  /** The step is a call of `create` that fails: refused, or without the directory, or a spawn without a pid. */
  predicate CreateFails(w: World, l: Label) {
    l.Create? &&
    match w.creator.pc
    case Mkdir => !l.ok || w.k.dir
    case Mkfifo => !l.ok || !w.k.dir
    case FsCreate => !l.ok || !w.k.dir
    case NetCreate => !l.ok
    case ExecCreate => !l.ok
    case OpenRoot => !l.ok || !w.k.dir
    case Spawn => !l.ok || l.pid == 0
    case StartTime => !l.ok
    case PostStart => !l.ok
    case _ => false
  }

  lemma FailureUndoes(w: World, l: Label)
    requires Step(w, l).Some? && !Undoing(w.creator.pc)
    ensures Undoing(Step(w, l).value.creator.pc) <==> CreateFails(w, l) || l == CrashCreator
  {
  }

  ghost predicate FailsAt(conf: Config, ls: seq<Label>, i: nat)
    requires i < |ls|
  {
    IsRun(conf, ls[..i]) && (CreateFails(After(conf, ls[..i]), ls[i]) || ls[i] == CrashCreator)
  }

  lemma {:induction false} UndoingHasFailed(conf: Config, ls: seq<Label>)
    requires IsRun(conf, ls) && Undoing(After(conf, ls).creator.pc)
    ensures exists i :: 0 <= i < |ls| && FailsAt(conf, ls, i)
    decreases |ls|
  {
    var n := |ls| - 1;
    LastStep(conf, ls);
    if Undoing(After(conf, ls[..n]).creator.pc) {
      UndoingHasFailed(conf, ls[..n]);
      var i :| 0 <= i < n && FailsAt(conf, ls[..n], i);
      assert ls[..n][..i] == ls[..i];
      assert FailsAt(conf, ls, i);
    } else {
      FailureUndoes(After(conf, ls[..n]), ls[n]);
      assert FailsAt(conf, ls, n);
    }
  }

  lemma FailureStays(conf: Config, ls: seq<Label>, i: nat)
    requires IsRun(conf, ls) && i < |ls| && FailsAt(conf, ls, i)
    ensures Undoing(After(conf, ls).creator.pc)
  {
    RunPrefix(conf, ls, i + 1);
    LastStep(conf, ls[..i + 1]);
    assert ls[..i + 1][..i] == ls[..i];
    var w := After(conf, ls[..i]);
    if Undoing(w.creator.pc) { StepKeepsUndoing(w, ls[i]); } else { FailureUndoes(w, ls[i]); }
    RunKeepsUndoing(After(conf, ls[..i + 1]), ls[i + 1..]);
  }

  /** `create`, once it has ended, has succeeded exactly if none of its calls failed and it was not killed. */
  lemma CreateSucceedsExactly(conf: Config, ls: seq<Label>)
    requires IsRun(conf, ls) && CreatorEnded(After(conf, ls).creator)
    ensures After(conf, ls).creator.pc == Finished(true) <==> forall i | 0 <= i < |ls| :: !FailsAt(conf, ls, i)
  {
    if Undoing(After(conf, ls).creator.pc) {
      UndoingHasFailed(conf, ls);
    } else {
      forall i | 0 <= i < |ls| ensures !FailsAt(conf, ls, i) {
        if FailsAt(conf, ls, i) { FailureStays(conf, ls, i); }
      }
    }
  }
}
