/** The inductive invariant of the lifecycle and the proof that every step keeps it. */
module LifecycleInvariant {
  import opened Lifecycle

  // ---------------------------------------------------------------- who owns what

  /** The process has the FIFO open, or is inside the open call. */
  predicate Registered(pc: Pc) {
    pc.Opening? || pc.Reading? || pc.SaveRunning? || pc.Unlink? || pc.Close?
  }

  /** The process took the byte that init writes. */
  predicate HoldsByte(pc: Pc) {
    || (pc.Reading? && pc.got > 0)
    || pc.SaveRunning? || pc.Unlink? || pc == Close(Started) || pc == Done(Started)
  }

  predicate HasMem(pc: Pc) {
    || pc.Probe? || pc.SaveStopped? || pc.Dispatch? || pc.Arrive? || Registered(pc)
    || pc.Kill? || pc.KillProbe? || pc.TearExec?
  }

  /** A status that can be saved or reported, and what it says about init. */
  predicate StatusOk(k: Kernel, s: Status) {
    && (s == Created || s == Running || s == Stopped)
    && (s == Stopped ==> k.init.Gone?)
    && (s == Running ==> k.fifo.consumed == 1)
  }

  predicate SnapshotOk(k: Kernel, s: Snapshot) {
    && s.pid == k.initPid && s.pid > 0 && !k.init.Unborn?
    && StatusOk(k, s.status)
  }

  /** The number of a command's last probe: `state` probes twice. */
  function LastProbe(kind: Kind): nat {
    if kind.StateCmd? then 1 else 0
  }

  predicate PcOk(k: Kernel, me: Proc) {
    match me.pc
    case Load => true
    case RemoveOrphan => me.kind.DeleteCmd?
    case Probe(n) => n <= LastProbe(me.kind)
    case SaveStopped(n) => n <= LastProbe(me.kind) && me.mem.status == Stopped
    case Dispatch => !me.kind.StateCmd?
    case Arrive => me.kind.StartCmd? && me.mem.status == Created
    case Opening(_) => me.kind.StartCmd? && me.mem.status == Created
    case Reading(got) => me.kind.StartCmd? && me.mem.status == Created && got <= 1 && (got > 0 ==> k.fifo.consumed == 1)
    case SaveRunning => me.kind.StartCmd? && me.mem.status == Running
    case Unlink => me.kind.StartCmd? && me.mem.status == Running
    case Close(e) => me.kind.StartCmd? && (e == Started ==> k.fifo.consumed == 1) && !e.Report? && e != Deleted
    case Kill => me.kind.DeleteCmd?
    case KillProbe(i) => me.kind.DeleteCmd? && i <= MAX_PROBES
    case TearExec => me.kind.DeleteCmd? && k.init.Gone?
    case TearFs => me.kind.DeleteCmd? && k.init.Gone?
    case TearNet => me.kind.DeleteCmd? && k.init.Gone?
    case Done(o) =>
      && (o == Started ==> me.kind.StartCmd? && k.fifo.consumed == 1)
      && (o == Deleted ==> me.kind.DeleteCmd? && k.init.Gone?)
      && (o.Report? ==> me.kind.StateCmd? && StatusOk(k, o.status))
    case Crashed => me.teardown != [] ==> k.init.Gone?
  }

  /** The destroy handlers a command has called, in the order Exec, Fs, Net. */
  predicate TeardownOk(me: Proc) {
    match me.pc
    case TearFs => me.teardown == [ExecH]
    case TearNet => me.teardown == [ExecH, FsH]
    case Done(Deleted) => me.teardown == [ExecH, FsH] || me.teardown == [ExecH, FsH, NetH]
    case Crashed => me.teardown <= [ExecH, FsH, NetH]
    case _ => me.teardown == []
  }

  predicate ProcOk(k: Kernel, me: Proc) {
    && (HasMem(me.pc) ==> SnapshotOk(k, me.mem))
    && PcOk(k, me)
    && TeardownOk(me)
  }

  ghost predicate ProcsOk(w: World) {
    && w.k.fifo.readers <= w.procs.Keys
    && (forall p | p in w.procs :: ProcOk(w.k, w.procs[p]))
    && (forall p | p in w.procs :: Registered(w.procs[p].pc) <==> p in w.k.fifo.readers)
  }

  ghost predicate AtMostOneHolder(w: World) {
    && (forall p | p in w.procs && HoldsByte(w.procs[p].pc) :: w.k.fifo.consumed == 1)
    && (forall p, q | p in w.procs && q in w.procs && HoldsByte(w.procs[p].pc) && HoldsByte(w.procs[q].pc) :: p == q)
  }

  // ---------------------------------------------------------------- FIFO, init and creator

  predicate FifoOk(k: Kernel) {
    var f := k.fifo;
    && f.written == f.buffer + f.consumed + f.dropped <= 1
    && (f.readers != {} ==> f.rcount > 0)
    && (f.written == 1 ==> f.rcount > 0)
    && (f.linked ==> k.dir)
  }

  function HookCalls(n: nat): seq<InitEvent> {
    if n == 0 then [] else HookCalls(n - 1) + [CallHook(n - 1)]
  }

  /** What init has called when it stands at `pc`. */
  function LogAt(conf: Config, pc: InitPc): seq<InitEvent> {
    var hooked := [CallFs] + HookCalls(conf.hooks) + [CallNet];
    match pc
    case AtFs => []
    case AtNetns => [CallFs]
    case AtHook(i) => [CallFs] + HookCalls(i)
    case AtNet => [CallFs] + HookCalls(conf.hooks)
    case AtFifoOpen => hooked
    case InFifoOpen(_) => hooked
    case AtWrite => hooked
    case AtClose => hooked + [WroteFifo]
    case AtBranch => hooked + [WroteFifo]
    case InPause => hooked + [WroteFifo]
    case InUser => hooked + [WroteFifo, CallExec]
  }

  /** Everything init calls in a complete run. */
  function Program(conf: Config): seq<InitEvent> {
    LogAt(conf, if conf.Pauses() then InPause else InUser)
  }

  /** init's end of the FIFO at each of its program points. */
  predicate WriterOk(f: Fifo, pc: InitPc) {
    if pc.InFifoOpen? then f.writer && f.written == 0 && pc.seen <= f.rcount
    else if pc.AtWrite? then f.writer && f.written == 0 && f.rcount > 0
    else if pc.AtClose? then f.writer && f.written == 1
    else if pc.AtBranch? || pc.InPause? || pc.InUser? then !f.writer && f.written == 1
    else !f.writer && f.written == 0
  }

  /** The log is what init has called at its program point; a dead init got somewhere along the way. */
  predicate LogOk(conf: Config, k: Kernel) {
    && (WroteFifo in k.log <==> k.fifo.written == 1)
    && match k.init
       case Unborn => k.log == []
       case Alive(pc) => k.log == LogAt(conf, pc) && k.log <= Program(conf)
       case _ => k.log <= Program(conf)
  }

  predicate InitOk(conf: Config, k: Kernel) {
    match k.init
    case Unborn => !k.fifo.writer && k.fifo.written == 0
    case Alive(pc) =>
      && WriterOk(k.fifo, pc)
      && (pc.AtHook? ==> pc.next <= conf.hooks) && (pc.InPause? ==> conf.Pauses()) && (pc.InUser? ==> !conf.Pauses())
    case _ => !k.fifo.writer
  }

  predicate FileOk(k: Kernel) {
    k.file.Some? ==> k.dir && SnapshotOk(k, k.file.value)
  }

  predicate BeforeSpawn(pc: CreatorPc) {
    pc.Mkdir? || pc.Mkfifo? || pc.FsCreate? || pc.NetCreate? || pc.ExecCreate? || pc.OpenRoot? || pc.Spawn?
  }

  predicate Supervising(pc: CreatorPc) {
    pc.StartTime? || pc.SaveCreated? || pc.PostStart? || pc.Terminate? || pc.Wait?
  }

  /** The create handlers called so far: Fs, Net, Exec, without Fs for `/pause`. */
  predicate CreateLogOk(conf: Config, c: Creator) {
    var all := if conf.SkipsFs() then [NetH, ExecH] else [FsH, NetH, ExecH];
    var n := if conf.SkipsFs() then 0 else 1;
    match c.pc
    case Mkdir => c.created == []
    case Mkfifo => c.created == []
    case FsCreate => c.created == [] && !conf.SkipsFs()
    case NetCreate => c.created == all[..n]
    case ExecCreate => c.created == all[..n + 1]
    case Finished(ok) => c.created <= all && (ok ==> c.created == all)
    case CreatorCrashed => c.created <= all
    case _ => c.created == all
  }

  predicate CreatorTeardownOk(c: Creator) {
    match c.pc
    case DropFs(_) => c.teardown == [ExecH]
    case DropNet(_) => c.teardown == [ExecH, FsH]
    case Finished(ok) => c.teardown <= [ExecH, FsH, NetH] && (ok ==> c.teardown == [])
    case CreatorCrashed => c.teardown <= [ExecH, FsH, NetH]
    case _ => c.teardown == []
  }

  predicate CreatorOk(conf: Config, k: Kernel, c: Creator) {
    var pc := c.pc;
    && CreateLogOk(conf, c)
    && CreatorTeardownOk(c)
    && (BeforeSpawn(pc) ==> k.init.Unborn? && k.initPid == 0)
    && (Supervising(pc) ==> (k.init.Alive? || k.init.Zombie?) && k.initPid > 0 && c.mem == Snapshot(k.initPid, Created))
    && (pc.DropExec? && !pc.unkilled ==> k.init.Unborn? || k.init.Gone?)
    && (pc.DropFs? && !pc.unkilled ==> k.init.Unborn? || k.init.Gone?)
    && (pc.DropNet? && !pc.unkilled ==> k.init.Unborn? || k.init.Gone?)
    && (pc == Wait ==> !k.init.Alive?)
    && (pc == Finished(true) ==> !k.init.Unborn?)
  }

  /** Until the first save nobody can have loaded a snapshot. */
  predicate NeverLoaded(pc: Pc) {
    pc.Load? || pc.RemoveOrphan? || pc == Done(NotExists) || pc == Done(LoadFailed) || pc.Crashed?
  }

  predicate Unsaved(pc: CreatorPc) {
    BeforeSpawn(pc) || pc.StartTime? || pc.SaveCreated?
  }

  ghost predicate UnsavedOk(w: World) {
    Unsaved(w.creator.pc) ==> w.k.file.None? && forall p | p in w.procs :: NeverLoaded(w.procs[p].pc)
  }

  ghost predicate Inv(w: World) {
    && FifoOk(w.k) && InitOk(w.conf, w.k) && LogOk(w.conf, w.k) && FileOk(w.k) && CreatorOk(w.conf, w.k, w.creator) && UnsavedOk(w)
    && ProcsOk(w) && AtMostOneHolder(w)
  }

  // ---------------------------------------------------------------- every step keeps it

  /** What no step undoes, and so what a process may keep relying on while others move. */
  predicate Later(k: Kernel, v: Kernel) {
    && (!k.init.Unborn? ==> !v.init.Unborn? && v.initPid == k.initPid)
    && (k.init.Gone? ==> v.init.Gone?)
    && k.fifo.consumed <= v.fifo.consumed <= 1
  }

  lemma ProcOkStable(k: Kernel, v: Kernel, me: Proc)
    requires ProcOk(k, me) && Later(k, v)
    ensures ProcOk(v, me)
  {
  }

  // ---- steps of command processes

  /** The kernel facts that do not mention any command process. */
  predicate KernelOk(conf: Config, k: Kernel) {
    FifoOk(k) && InitOk(conf, k) && FileOk(k)
  }

  /** What a move of process `p` may do to the readers of the FIFO. */
  predicate ReadersOk(k: Kernel, p: ProcId, m: Move) {
    && (Registered(m.me.pc) ==> m.k.fifo.readers == k.fifo.readers + {p})
    && (!Registered(m.me.pc) ==> m.k.fifo.readers == k.fifo.readers - {p})
  }

  predicate MoveOk(conf: Config, k: Kernel, p: ProcId, m: Move) {
    && KernelOk(conf, m.k) && Later(k, m.k) && ProcOk(m.k, m.me) && ReadersOk(k, p, m) && SameLog(k, m.k)
  }

  /** init did not move, except that it may have been killed. */
  predicate SameLog(k: Kernel, v: Kernel) {
    && v.log == k.log && v.fifo.written == k.fifo.written
    && (v.init == k.init || (k.init.Alive? && v.init.Zombie?))
  }

  lemma RemoveDirOk(conf: Config, k: Kernel)
    requires KernelOk(conf, k)
    ensures KernelOk(conf, RemoveDir(k)) && Later(k, RemoveDir(k))
  {
  }

  lemma InitExitOk(conf: Config, k: Kernel)
    requires KernelOk(conf, k) && k.init.Alive?
    ensures KernelOk(conf, InitExit(k)) && Later(k, InitExit(k))
  {
  }

  lemma LeaveOk(conf: Config, k: Kernel, p: ProcId)
    requires KernelOk(conf, k)
    ensures KernelOk(conf, Leave(k, p)) && Later(k, Leave(k, p))
  {
  }

  lemma SaveOk(conf: Config, k: Kernel, s: Snapshot)
    requires KernelOk(conf, k) && SnapshotOk(k, s)
    ensures KernelOk(conf, Save(k, s)) && Later(k, Save(k, s))
  {
  }

  lemma StatusStepOk(conf: Config, k: Kernel, p: ProcId, me: Proc, ok: bool)
    requires KernelOk(conf, k) && ProcOk(k, me) && InStatus(me.pc) && p !in k.fifo.readers
    ensures MoveOk(conf, k, p, StatusStep(k, me, ok).value)
  {
    var v := StatusStep(k, me, ok).value.k;
    assert KernelOk(conf, v) && Later(k, v) by {
      if me.pc.SaveStopped? { SaveOk(conf, k, me.mem); }
    }
  }

  /** Opening and reading the FIFO. */
  lemma ReadStepOk(conf: Config, k: Kernel, p: ProcId, me: Proc, ok: bool)
    requires KernelOk(conf, k) && ProcOk(k, me) && (Registered(me.pc) <==> p in k.fifo.readers)
    requires me.pc.Arrive? || me.pc.Opening? || me.pc.Reading?
    requires ExecStep(k, p, me, ok).Some?
    ensures MoveOk(conf, k, p, ExecStep(k, p, me, ok).value)
  {
  }

  /** Recording Running, and leaving the FIFO. */
  lemma StartedStepOk(conf: Config, k: Kernel, p: ProcId, me: Proc, ok: bool)
    requires KernelOk(conf, k) && ProcOk(k, me) && p in k.fifo.readers
    requires me.pc.SaveRunning? || me.pc.Unlink? || me.pc.Close?
    ensures MoveOk(conf, k, p, ExecStep(k, p, me, ok).value)
  {
    if me.pc.SaveRunning? { SaveOk(conf, k, me.mem); }
    if me.pc.Close? { LeaveOk(conf, k, p); }
  }

  lemma KillStepOk(conf: Config, k: Kernel, p: ProcId, me: Proc, ok: bool)
    requires KernelOk(conf, k) && ProcOk(k, me) && p !in k.fifo.readers
    requires me.pc.RemoveOrphan? || me.pc.Kill? || me.pc.KillProbe?
    ensures MoveOk(conf, k, p, DeleteStep(k, me, ok).value)
  {
    if k.init.Alive? { InitExitOk(conf, k); }
  }

  lemma TearStepOk(conf: Config, k: Kernel, p: ProcId, me: Proc, ok: bool)
    requires KernelOk(conf, k) && ProcOk(k, me) && p !in k.fifo.readers
    requires me.pc.TearExec? || me.pc.TearFs? || me.pc.TearNet?
    ensures MoveOk(conf, k, p, DeleteStep(k, me, ok).value)
  {
    RemoveDirOk(conf, k);
  }

  // ---- steps of init

  lemma {:induction false} HookCallsPrefix(i: nat, n: nat)
    requires i <= n
    ensures HookCalls(i) <= HookCalls(n)
    decreases n
  {
    if i < n { HookCallsPrefix(i, n - 1); }
  }

  lemma {:induction false} NotInHookCalls(n: nat, e: InitEvent)
    requires !e.CallHook?
    ensures e !in HookCalls(n)
  {
    if n > 0 { NotInHookCalls(n - 1, e); }
  }

  /** Every call init makes continues its program. */
  lemma LogGrows(conf: Config, pc: InitPc)
    ensures pc.AtFs? ==> LogAt(conf, pc) + [CallFs] <= Program(conf)
    ensures pc.AtHook? && pc.next < conf.hooks ==> LogAt(conf, pc) + [CallHook(pc.next)] <= Program(conf)
    ensures pc.AtNet? ==> LogAt(conf, pc) + [CallNet] <= Program(conf)
    ensures pc.AtWrite? ==> LogAt(conf, pc) + [WroteFifo] <= Program(conf)
    ensures pc.AtBranch? && !conf.Pauses() ==> LogAt(conf, pc) + [CallExec] <= Program(conf)
  {
    if pc.AtHook? && pc.next < conf.hooks { HookCallsPrefix(pc.next + 1, conf.hooks); }
  }

  predicate InFifo(pc: InitPc) {
    pc.AtFifoOpen? || pc.InFifoOpen? || pc.AtWrite? || pc.AtClose?
  }

  lemma CallOk(conf: Config, k: Kernel, e: InitEvent, ok: bool, next: InitPc)
    requires KernelOk(conf, k) && k.init.Alive? && InitOk(conf, k.(init := Alive(next)))
    ensures KernelOk(conf, Call(k, e, ok, next)) && SameForOthers(k, Call(k, e, ok, next))
  {
    InitExitOk(conf, k.(log := k.log + [e]));
  }

  lemma InitCallsOk(conf: Config, k: Kernel, ok: bool)
    requires KernelOk(conf, k) && k.init.Alive? && !InFifo(k.init.pc) && InitStep(conf, k, ok).Some?
    ensures var v := InitStep(conf, k, ok).value;
            KernelOk(conf, v) && SameForOthers(k, v)
  {
    match k.init.pc
    case AtFs => CallOk(conf, k, CallFs, ok, AtNetns);
    case AtNetns => InitExitOk(conf, k);
    case AtHook(i) => if i < conf.hooks { CallOk(conf, k, CallHook(i), ok, AtHook(i + 1)); }
    case AtNet => CallOk(conf, k, CallNet, ok, AtFifoOpen);
    case _ => if !conf.Pauses() { CallOk(conf, k, CallExec, ok, InUser); }
  }

  lemma CallLog(conf: Config, k: Kernel, e: InitEvent, ok: bool, next: InitPc)
    requires LogOk(conf, k) && k.init.Alive? && e != WroteFifo
    requires LogAt(conf, next) == k.log + [e] && k.log + [e] <= Program(conf)
    ensures LogOk(conf, Call(k, e, ok, next))
  {
  }

  lemma InitCallsLog(conf: Config, k: Kernel, ok: bool)
    requires InitOk(conf, k) && LogOk(conf, k)
    requires k.init.Alive? && !InFifo(k.init.pc) && InitStep(conf, k, ok).Some?
    ensures LogOk(conf, InitStep(conf, k, ok).value)
  {
    var pc := k.init.pc;
    LogGrows(conf, pc);
    match pc
    case AtFs => CallLog(conf, k, CallFs, ok, AtNetns);
    case AtNetns =>
    case AtHook(i) =>
      if i < conf.hooks {
        assert LogAt(conf, AtHook(i + 1)) == LogAt(conf, pc) + [CallHook(i)];
        CallLog(conf, k, CallHook(i), ok, AtHook(i + 1));
      }
    case AtNet => CallLog(conf, k, CallNet, ok, AtFifoOpen);
    case AtBranch =>
      if !conf.Pauses() {
        assert LogAt(conf, InUser) == LogAt(conf, pc) + [CallExec];
        CallLog(conf, k, CallExec, ok, InUser);
      }
    case _ =>
  }

  lemma InitFifoOk(conf: Config, k: Kernel, ok: bool)
    requires KernelOk(conf, k) && k.init.Alive? && InFifo(k.init.pc) && InitStep(conf, k, ok).Some?
    ensures var v := InitStep(conf, k, ok).value;
            KernelOk(conf, v) && SameForOthers(k, v)
  {
    InitExitOk(conf, k);
  }

  lemma InitFifoLog(conf: Config, k: Kernel, ok: bool)
    requires KernelOk(conf, k) && LogOk(conf, k) && k.init.Alive? && InFifo(k.init.pc) && InitStep(conf, k, ok).Some?
    ensures LogOk(conf, InitStep(conf, k, ok).value)
  {
    LogGrows(conf, k.init.pc);
    NotInHookCalls(conf.hooks, WroteFifo);
  }

  // ---- steps of create

  predicate SameForOthers(k: Kernel, v: Kernel) {
    Later(k, v) && v.fifo.readers == k.fifo.readers
  }

  lemma FactoryStepOk(conf: Config, k: Kernel, c: Creator, ok: bool)
    requires KernelOk(conf, k) && CreatorOk(conf, k, c) && InCreate(c.pc)
    ensures var m := FactoryStep(conf, k, c, ok).value;
            KernelOk(conf, m.k) && SameForOthers(k, m.k) && CreatorOk(conf, m.k, m.c)
  {
  }

  lemma SpawnStepOk(conf: Config, k: Kernel, c: Creator, ok: bool, pid: nat)
    requires KernelOk(conf, k) && CreatorOk(conf, k, c)
    requires c.pc.OpenRoot? || c.pc.Spawn? || c.pc.StartTime? || c.pc.SaveCreated? || c.pc.PostStart?
    ensures var m := RunnerStep(k, c, ok, pid).value;
            KernelOk(conf, m.k) && SameForOthers(k, m.k) && CreatorOk(conf, m.k, m.c)
  {
    if c.pc.SaveCreated? { SaveOk(conf, k, c.mem); }
  }

  lemma KillInitStepOk(conf: Config, k: Kernel, c: Creator, ok: bool, pid: nat)
    requires KernelOk(conf, k) && CreatorOk(conf, k, c)
    requires c.pc.Terminate? || c.pc.Wait?
    requires RunnerStep(k, c, ok, pid).Some?
    ensures var m := RunnerStep(k, c, ok, pid).value;
            KernelOk(conf, m.k) && SameForOthers(k, m.k) && CreatorOk(conf, m.k, m.c)
  {
    if k.init.Alive? { InitExitOk(conf, k); }
  }

  lemma DropStepOk(conf: Config, k: Kernel, c: Creator, ok: bool, pid: nat)
    requires KernelOk(conf, k) && CreatorOk(conf, k, c)
    requires c.pc.DropExec? || c.pc.DropFs? || c.pc.DropNet?
    requires RunnerStep(k, c, ok, pid).Some?
    ensures var m := RunnerStep(k, c, ok, pid).value;
            KernelOk(conf, m.k) && SameForOthers(k, m.k) && CreatorOk(conf, m.k, m.c)
  {
    RemoveDirOk(conf, k);
  }

  lemma CreatorStepOk(conf: Config, k: Kernel, c: Creator, ok: bool, pid: nat)
    requires KernelOk(conf, k) && CreatorOk(conf, k, c) && CreatorStep(conf, k, c, ok, pid).Some?
    ensures var m := CreatorStep(conf, k, c, ok, pid).value;
            KernelOk(conf, m.k) && SameForOthers(k, m.k) && CreatorOk(conf, m.k, m.c)
  {
    if InCreate(c.pc) { FactoryStepOk(conf, k, c, ok); }
    else if c.pc.OpenRoot? || c.pc.Spawn? || c.pc.StartTime? || c.pc.SaveCreated? || c.pc.PostStart? {
      SpawnStepOk(conf, k, c, ok, pid);
    } else if c.pc.Terminate? || c.pc.Wait? {
      KillInitStepOk(conf, k, c, ok, pid);
    } else { DropStepOk(conf, k, c, ok, pid); }
  }

  lemma InitStepOk(conf: Config, k: Kernel, ok: bool)
    requires KernelOk(conf, k) && LogOk(conf, k) && k.init.Alive? && InitStep(conf, k, ok).Some?
    ensures var v := InitStep(conf, k, ok).value;
            KernelOk(conf, v) && LogOk(conf, v) && SameForOthers(k, v) && !v.init.Unborn? && !v.init.Gone?
  {
    if InFifo(k.init.pc) {
      InitFifoOk(conf, k, ok);
      InitFifoLog(conf, k, ok);
    } else {
      InitCallsOk(conf, k, ok);
      InitCallsLog(conf, k, ok);
    }
  }

  // ---- the whole invariant

  /** Moves that touch no command process keep what holds of all of them. */
  lemma OthersStay(w: World, k: Kernel)
    requires ProcsOk(w) && AtMostOneHolder(w) && SameForOthers(w.k, k)
    ensures ProcsOk(w.(k := k)) && AtMostOneHolder(w.(k := k))
  {
    forall p | p in w.procs ensures ProcOk(k, w.procs[p]) { ProcOkStable(w.k, k, w.procs[p]); }
  }

  lemma ProcStepOk(conf: Config, k: Kernel, p: ProcId, me: Proc, ok: bool)
    requires KernelOk(conf, k) && ProcOk(k, me) && (Registered(me.pc) <==> p in k.fifo.readers)
    requires ProcStep(k, p, me, ok).Some?
    ensures MoveOk(conf, k, p, ProcStep(k, p, me, ok).value)
  {
    if InStatus(me.pc) { StatusStepOk(conf, k, p, me, ok); }
    else if me.pc.Arrive? || me.pc.Opening? || me.pc.Reading? { ReadStepOk(conf, k, p, me, ok); }
    else if InExec(me.pc) { StartedStepOk(conf, k, p, me, ok); }
    else if me.pc.TearExec? || me.pc.TearFs? || me.pc.TearNet? { TearStepOk(conf, k, p, me, ok); }
    else { KillStepOk(conf, k, p, me, ok); }
  }

  /** Moves of `p` change nothing that holds of the other processes. */
  lemma ProcsAfterMove(w: World, p: ProcId, m: Move)
    requires ProcsOk(w) && AtMostOneHolder(w) && FifoOk(w.k) && p in w.procs
    requires Later(w.k, m.k) && ProcOk(m.k, m.me) && ReadersOk(w.k, p, m)
    requires HoldsByte(m.me.pc) ==> m.k.fifo.consumed == 1 && (HoldsByte(w.procs[p].pc) || w.k.fifo.consumed == 0)
    ensures var v := w.(k := m.k, procs := w.procs[p := m.me]);
            ProcsOk(v) && AtMostOneHolder(v)
  {
    forall q | q in w.procs && q != p ensures ProcOk(m.k, w.procs[q]) { ProcOkStable(w.k, m.k, w.procs[q]); }
  }

  /** Only the process that empties the buffer becomes the byte's holder. */
  lemma HolderAfterMove(conf: Config, k: Kernel, p: ProcId, me: Proc, ok: bool)
    requires KernelOk(conf, k) && ProcOk(k, me) && ProcStep(k, p, me, ok).Some?
    ensures var m := ProcStep(k, p, me, ok).value;
            HoldsByte(m.me.pc) ==> m.k.fifo.consumed == 1 && (HoldsByte(me.pc) || k.fifo.consumed == 0)
  {
  }

  /** A process that never loaded a snapshot still has none after its move when there is no state.json. */
  lemma UnsavedAfterMove(k: Kernel, p: ProcId, me: Proc, ok: bool)
    requires k.file.None? && NeverLoaded(me.pc) && ProcStep(k, p, me, ok).Some?
    ensures var m := ProcStep(k, p, me, ok).value;
            m.k.file.None? && NeverLoaded(m.me.pc) && m.k.init == k.init && m.k.initPid == k.initPid
  {
  }

  lemma InvAfterMove(w: World, p: ProcId, m: Move)
    requires Inv(w) && p in w.procs && MoveOk(w.conf, w.k, p, m)
    requires HoldsByte(m.me.pc) ==> m.k.fifo.consumed == 1 && (HoldsByte(w.procs[p].pc) || w.k.fifo.consumed == 0)
    requires w.k.file.None? && NeverLoaded(w.procs[p].pc) ==>
               m.k.file.None? && NeverLoaded(m.me.pc) && m.k.init == w.k.init && m.k.initPid == w.k.initPid
    ensures Inv(w.(k := m.k, procs := w.procs[p := m.me]))
  {
    ProcsAfterMove(w, p, m);
    assert CreatorOk(w.conf, m.k, w.creator);
  }

  lemma ActKeepsInv(w: World, p: ProcId, ok: bool)
    requires Inv(w) && Step(w, Act(p, ok)).Some?
    ensures Inv(Step(w, Act(p, ok)).value)
  {
    var me := w.procs[p];
    var m := ProcStep(w.k, p, me, ok).value;
    ProcStepOk(w.conf, w.k, p, me, ok);
    HolderAfterMove(w.conf, w.k, p, me, ok);
    if w.k.file.None? && NeverLoaded(me.pc) { UnsavedAfterMove(w.k, p, me, ok); }
    InvAfterMove(w, p, m);
  }

  /** A move of init, of `create` or of the environment. */
  lemma InvAfterOther(w: World, k: Kernel, c: Creator)
    requires Inv(w)
    requires KernelOk(w.conf, k) && LogOk(w.conf, k) && SameForOthers(w.k, k) && CreatorOk(w.conf, k, c)
    requires Unsaved(c.pc) ==> Unsaved(w.creator.pc) && k.file == w.k.file
    ensures Inv(w.(k := k, creator := c))
  {
    OthersStay(w, k);
  }

  lemma FactoryStepMore(conf: Config, k: Kernel, c: Creator, ok: bool)
    requires KernelOk(conf, k) && LogOk(conf, k) && CreatorOk(conf, k, c) && InCreate(c.pc)
    requires FactoryStep(conf, k, c, ok).Some?
    ensures var m := FactoryStep(conf, k, c, ok).value;
            LogOk(conf, m.k) && (Unsaved(m.c.pc) ==> Unsaved(c.pc) && m.k.file == k.file)
  {
  }

  lemma RunnerStepMore(conf: Config, k: Kernel, c: Creator, ok: bool, pid: nat)
    requires KernelOk(conf, k) && LogOk(conf, k) && CreatorOk(conf, k, c) && !InCreate(c.pc)
    requires RunnerStep(k, c, ok, pid).Some?
    ensures var m := RunnerStep(k, c, ok, pid).value;
            LogOk(conf, m.k) && (Unsaved(m.c.pc) ==> Unsaved(c.pc) && m.k.file == k.file)
  {
    if c.pc.Spawn? { assert LogAt(conf, AtFs) == []; }
  }

  lemma CreatorStepMore(conf: Config, k: Kernel, c: Creator, ok: bool, pid: nat)
    requires KernelOk(conf, k) && LogOk(conf, k) && CreatorOk(conf, k, c) && CreatorStep(conf, k, c, ok, pid).Some?
    ensures var m := CreatorStep(conf, k, c, ok, pid).value;
            LogOk(conf, m.k) && (Unsaved(m.c.pc) ==> Unsaved(c.pc) && m.k.file == k.file)
  {
    if InCreate(c.pc) { FactoryStepMore(conf, k, c, ok); } else { RunnerStepMore(conf, k, c, ok, pid); }
  }

  lemma CreateKeepsInv(w: World, ok: bool, pid: nat)
    requires Inv(w) && Step(w, Create(ok, pid)).Some?
    ensures Inv(Step(w, Create(ok, pid)).value)
  {
    var m := CreatorStep(w.conf, w.k, w.creator, ok, pid).value;
    CreatorStepOk(w.conf, w.k, w.creator, ok, pid);
    CreatorStepMore(w.conf, w.k, w.creator, ok, pid);
    InvAfterOther(w, m.k, m.c);
  }

  lemma InitActKeepsInv(w: World, ok: bool)
    requires Inv(w) && Step(w, InitAct(ok)).Some?
    ensures Inv(Step(w, InitAct(ok)).value)
  {
    var k := InitStep(w.conf, w.k, ok).value;
    InitStepOk(w.conf, w.k, ok);
    CreatorSees(w.conf, w.k, k, w.creator);
    InvAfterOther(w, k, w.creator);
  }

  /** `create` can rely on an init it supervises until it reaps it itself. */
  lemma CreatorSees(conf: Config, k: Kernel, v: Kernel, c: Creator)
    requires CreatorOk(conf, k, c) && KernelOk(conf, k)
    requires k.init.Alive? && !v.init.Unborn? && !v.init.Gone? && v.initPid == k.initPid
    requires c.pc == Wait ==> !v.init.Alive?
    ensures CreatorOk(conf, v, c)
  {
  }

  lemma CrashKeepsInv(w: World, p: ProcId)
    requires Inv(w) && Step(w, Crash(p)).Some?
    ensures Inv(Step(w, Crash(p)).value)
  {
    LeaveOk(w.conf, w.k, p);
    InvAfterMove(w, p, Move(Leave(w.k, p), w.procs[p].(pc := Crashed)));
  }

  lemma LaunchKeepsInv(w: World, p: ProcId, kind: Kind)
    requires Inv(w) && Step(w, Launch(p, kind)).Some?
    ensures Inv(Step(w, Launch(p, kind)).value)
  {
  }

  lemma DieKeepsInv(w: World)
    requires Inv(w) && w.k.init.Alive?
    ensures Inv(w.(k := InitExit(w.k)))
  {
    InitExitOk(w.conf, w.k);
    CreatorSees(w.conf, w.k, InitExit(w.k), w.creator);
    InvAfterOther(w, InitExit(w.k), w.creator);
  }

  lemma ReapKeepsInv(w: World)
    requires Inv(w) && w.k.init.Zombie? && CreatorEnded(w.creator)
    ensures Inv(w.(k := w.k.(init := Gone)))
  {
    InvAfterOther(w, w.k.(init := Gone), w.creator);
  }

  lemma CrashCreatorKeepsInv(w: World)
    requires Inv(w)
    ensures Inv(w.(creator := w.creator.(pc := CreatorCrashed)))
  {
    InvAfterOther(w, w.k, w.creator.(pc := CreatorCrashed));
  }

  lemma StepKeepsInv(w: World, l: Label)
    requires Inv(w) && Step(w, l).Some?
    ensures Inv(Step(w, l).value)
  {
    match l
    case Create(ok, pid) => CreateKeepsInv(w, ok, pid);
    case Act(p, ok) => ActKeepsInv(w, p, ok);
    case InitAct(ok) => InitActKeepsInv(w, ok);
    case Crash(p) => CrashKeepsInv(w, p);
    case Launch(p, kind) => LaunchKeepsInv(w, p, kind);
    case CrashCreator => CrashCreatorKeepsInv(w);
    case Die => DieKeepsInv(w);
    case Reap => ReapKeepsInv(w);
  }

  /** The invariant holds before `create` and in every state of every run. */
  lemma {:induction false} RunKeepsInv(w: World, ls: seq<Label>)
    requires Inv(w) && Exec(w, ls).Some?
    ensures Inv(Exec(w, ls).value)
    decreases |ls|
  {
    if ls != [] {
      StepKeepsInv(w, ls[0]);
      RunKeepsInv(Step(w, ls[0]).value, ls[1..]);
    }
  }

  lemma FreshInv(conf: Config)
    ensures Inv(Fresh(conf))
  {
  }
}
