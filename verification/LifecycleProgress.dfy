/** What can always be done, wherever a run has led to, when the processes are left to finish their calls. */
module LifecycleProgress {
  import opened Common
  import opened Lifecycle
  import opened LifecycleInvariant
  import opened LifecycleTheorems
  import opened LifecycleStatus
  import opened LifecycleTeardown
  import opened LifecycleEffects

  // ---------------------------------------------------------------- runs, step by step

  /** A step in which nothing fails and nobody is killed. */
  predicate Fine(l: Label) {
    match l
    case Create(ok, _) => ok
    case Launch(_, _) => true
    case Act(_, ok) => ok
    case InitAct(ok) => ok
    case Reap => true
    case _ => false
  }

  ghost predicate AllFine(ls: seq<Label>) {
    forall i | 0 <= i < |ls| :: Fine(ls[i])
  }

  /** The run `ls` leads from `w` to `v` without faults. */
  ghost predicate Leads(w: World, ls: seq<Label>, v: World) {
    Exec(w, ls) == Some(v) && AllFine(ls)
  }

  /** One step further. */
  lemma Go(w: World, ls: seq<Label>, v: World, l: Label) returns (more: seq<Label>, u: World)
    requires Leads(w, ls, v) && Step(v, l).Some? && Fine(l)
    ensures u == Step(v, l).value && Leads(w, more, u)
  {
    more, u := ls + [l], Step(v, l).value;
    ExecAppend(w, ls, [l]);
    assert Exec(v, [l]) == Exec(u, []);
  }

  lemma Join(w: World, a: seq<Label>, v: World, b: seq<Label>, u: World)
    requires Leads(w, a, v) && Leads(v, b, u)
    ensures Leads(w, a + b, u)
  {
    ExecAppend(w, a, b);
  }

  /** The world with another kernel and with process `p` at `me`. */
  function With(b: World, k: Kernel, p: ProcId, me: Proc): World {
    b.(k := k, procs := b.procs[p := me])
  }

  lemma ActOn(w: World, ls: seq<Label>, b: World, k: Kernel, p: ProcId, me: Proc)
    returns (more: seq<Label>, v: Kernel, you: Proc)
    requires Leads(w, ls, With(b, k, p, me)) && ProcStep(k, p, me, true).Some?
    ensures Move(v, you) == ProcStep(k, p, me, true).value && Leads(w, more, With(b, v, p, you))
  {
    var u;
    v, you := ProcStep(k, p, me, true).value.k, ProcStep(k, p, me, true).value.me;
    more, u := Go(w, ls, With(b, k, p, me), Act(p, true));
    assert b.procs[p := me][p := you] == b.procs[p := you];
  }

  lemma InitOn(w: World, ls: seq<Label>, b: World, k: Kernel, p: ProcId, me: Proc) returns (more: seq<Label>, v: Kernel)
    requires Leads(w, ls, With(b, k, p, me)) && k.init.Alive? && InitStep(b.conf, k, true).Some?
    ensures v == InitStep(b.conf, k, true).value && Leads(w, more, With(b, v, p, me))
  {
    var u;
    v := InitStep(b.conf, k, true).value;
    more, u := Go(w, ls, With(b, k, p, me), InitAct(true));
  }

  lemma LaunchOn(w: World, p: ProcId, kind: Kind) returns (more: seq<Label>, me: Proc)
    requires p !in w.procs
    ensures me == Proc(kind, Load, Snapshot(0, Stopped), []) && Leads(w, more, With(w, w.k, p, me))
  {
    var u;
    assert Exec(w, []) == Some(w);
    me := Proc(kind, Load, Snapshot(0, Stopped), []);
    more, u := Go(w, [], w, Launch(p, kind));
  }

  // ---------------------------------------------------------------- init comes to the FIFO

  /** Init has not written yet. */
  predicate BeforeWrite(pc: InitPc) {
    || pc.AtFs? || pc.AtNetns? || pc.AtHook? || pc.AtNet?
    || pc.AtFifoOpen? || pc.InFifoOpen? || pc.AtWrite?
  }

  predicate AtFifo(pc: InitPc) {
    pc.InFifoOpen? || pc.AtWrite?
  }

  /** How far init is from its end of the FIFO. */
  function Distance(conf: Config, pc: InitPc): nat
    requires pc.AtHook? ==> pc.next <= conf.hooks
  {
    match pc
    case AtFs => conf.hooks + 5
    case AtNetns => conf.hooks + 4
    case AtHook(i) => conf.hooks - i + 3
    case AtNet => 2
    case AtFifoOpen => 1
    case _ => 0
  }

  /** Only init has moved, and it has opened its end. */
  predicate Opened(w: World, v: World) {
    && v == w.(k := v.k) && v.k.init.Alive? && AtFifo(v.k.init.pc)
    && v.k == w.k.(init := v.k.init, log := v.k.log, fifo := w.k.fifo.(writer := true, wcount := v.k.fifo.wcount))
  }

  lemma InitComesCloser(conf: Config, k: Kernel)
    requires InitOk(conf, k) && k.init.Alive? && BeforeWrite(k.init.pc) && !AtFifo(k.init.pc) && k.fifo.linked
    ensures InitStep(conf, k, true).Some?
    ensures var v := InitStep(conf, k, true).value;
            && v.init.Alive? && BeforeWrite(v.init.pc) && (v.init.pc.AtHook? ==> v.init.pc.next <= conf.hooks)
            && Distance(conf, v.init.pc) < Distance(conf, k.init.pc)
            && v == k.(init := v.init, log := v.log, fifo := k.fifo.(writer := v.fifo.writer, wcount := v.fifo.wcount))
  {
  }

  lemma {:induction false} InitComesToFifo(w: World) returns (ls: seq<Label>, v: World)
    requires Inv(w) && w.k.init.Alive? && BeforeWrite(w.k.init.pc) && w.k.fifo.linked
    ensures Leads(w, ls, v) && Opened(w, v)
    decreases Distance(w.conf, w.k.init.pc)
  {
    assert Exec(w, []) == Some(w);
    if AtFifo(w.k.init.pc) {
      return [], w;
    }
    InitComesCloser(w.conf, w.k);
    var one, u := Go(w, [], w, InitAct(true));
    StepKeepsInv(w, InitAct(true));
    ls, v := InitComesToFifo(u);
    Join(w, one, u, ls, v);
    ls := one + ls;
  }

  // ---------------------------------------------------------------- a created container can always be started

  /** A start process comes to the FIFO and opens it. */
  lemma StartArrives(w: World, p: ProcId) returns (ls: seq<Label>, k: Kernel, me: Proc)
    requires Inv(w) && p !in w.procs && w.k.init.Alive? && AtFifo(w.k.init.pc) && w.k.fifo.linked && w.k.file.Some?
    ensures Leads(w, ls, With(w, k, p, me)) && me == Proc(StartCmd, Reading(0), w.k.file.value, [])
    ensures k == w.k.(fifo := w.k.fifo.(readers := w.k.fifo.readers + {p}, rcount := w.k.fifo.rcount + 1))
  {
    assert w.k.file.value.status == Created;
    ls, me := LaunchOn(w, p, StartCmd);
    ls, k, me := ActOn(w, ls, w, w.k, p, me);
    ls, k, me := ActOn(w, ls, w, k, p, me);
    ls, k, me := ActOn(w, ls, w, k, p, me);
    ls, k, me := ActOn(w, ls, w, k, p, me);
  }

  /** Init writes its byte and closes its end. */
  lemma InitWrites(w: World, ls: seq<Label>, b: World, k: Kernel, p: ProcId, me: Proc)
    returns (more: seq<Label>, v: Kernel)
    requires Leads(w, ls, With(b, k, p, me)) && k.init.Alive? && AtFifo(k.init.pc) && WriterOk(k.fifo, k.init.pc)
    requires p in k.fifo.readers && (k.init.pc.InFifoOpen? ==> k.fifo.rcount != k.init.pc.seen)
    ensures Leads(w, more, With(b, v, p, me))
    ensures v == k.(init := Alive(AtBranch), log := k.log + [WroteFifo], fifo := v.fifo)
    ensures v.fifo == k.fifo.(writer := false, buffer := k.fifo.buffer + 1, written := k.fifo.written + 1)
  {
    more, v := ls, k;
    if k.init.pc.InFifoOpen? { more, v := InitOn(w, more, b, v, p, me); }
    more, v := InitOn(w, more, b, v, p, me);
    more, v := InitOn(w, more, b, v, p, me);
  }

  /** The process reads the byte to the end of the FIFO. */
  lemma StartReads(w: World, ls: seq<Label>, b: World, k: Kernel, p: ProcId, me: Proc)
    returns (more: seq<Label>, v: Kernel, you: Proc)
    requires Leads(w, ls, With(b, k, p, me)) && me.pc == Reading(0) && k.fifo.buffer > 0 && !k.fifo.writer
    ensures Leads(w, more, With(b, v, p, you)) && you == me.(pc := SaveRunning, mem := me.mem.(status := Running))
    ensures v == k.(fifo := v.fifo)
  {
    more, v, you := ActOn(w, ls, b, k, p, me);
    more, v, you := ActOn(w, more, b, v, p, you);
  }

  /** It records Running, removes the FIFO and closes it. */
  lemma StartRecords(w: World, ls: seq<Label>, b: World, k: Kernel, p: ProcId, me: Proc)
    returns (more: seq<Label>, v: Kernel, you: Proc)
    requires Leads(w, ls, With(b, k, p, me)) && me.pc == SaveRunning && k.dir
    ensures Leads(w, more, With(b, v, p, you)) && you == me.(pc := Done(Started))
    ensures v == k.(file := Some(me.mem), fifo := v.fifo) && !v.fifo.linked
  {
    more, v, you := ActOn(w, ls, b, k, p, me);
    more, v, you := ActOn(w, more, b, v, p, you);
    more, v, you := ActOn(w, more, b, v, p, you);
  }

  lemma StartSucceeds(w: World, p: ProcId) returns (ls: seq<Label>, k: Kernel, me: Proc)
    requires Inv(w) && p !in w.procs && w.k.init.Alive? && AtFifo(w.k.init.pc) && w.k.fifo.linked && w.k.file.Some?
    ensures Leads(w, ls, With(w, k, p, me)) && me.pc == Done(Started) && me.kind == StartCmd
    ensures k.file == Some(Snapshot(w.k.initPid, Running)) && !k.fifo.linked && k.init == Alive(AtBranch)
  {
    ls, k, me := StartArrives(w, p);
    ls, k := InitWrites(w, ls, w, k, p, me);
    ls, k, me := StartReads(w, ls, w, k, p, me);
    ls, k, me := StartRecords(w, ls, w, k, p, me);
  }

  /** Process `p` has started the container, and the other commands are where they were. */
  predicate StartedBy(w: World, v: World, p: ProcId) {
    && p in v.procs && v.procs[p].pc == Done(Started) && v.procs[p].kind == StartCmd && v.creator == w.creator
    && (forall q | q in w.procs :: q in v.procs && v.procs[q] == w.procs[q])
    && v.k.file == Some(Snapshot(w.k.initPid, Running)) && !v.k.fifo.linked && v.k.init == Alive(AtBranch)
  }

  lemma CanBeStarted(w: World, p: ProcId) returns (ls: seq<Label>, v: World)
    requires Inv(w) && p !in w.procs && w.k.init.Alive? && BeforeWrite(w.k.init.pc) && w.k.fifo.linked && w.k.file.Some?
    ensures Leads(w, ls, v) && StartedBy(w, v, p)
  {
    var u;
    ls, u := InitComesToFifo(w);
    RunKeepsInv(w, ls);
    var more, k, me := StartSucceeds(u, p);
    v := With(u, k, p, me);
    Join(w, ls, u, more, v);
    ls := ls + more;
  }

  /**
   In every run, whatever has happened: as long as init lives and has not written, and state.json is
   there, one more `start` can succeed.  The run can go on so that init comes to the FIFO and the
   process ends Started, with Running on disk, the FIFO gone and init past the rendezvous.
   */
  lemma CreatedCanBeStarted(conf: Config, ls: seq<Label>, p: ProcId)
    requires IsRun(conf, ls) && p !in After(conf, ls).procs
    requires After(conf, ls).k.init.Alive? && After(conf, ls).k.fifo.written == 0 && After(conf, ls).k.file.Some?
    ensures exists more :: AllFine(more) && IsRun(conf, ls + more) && StartedBy(After(conf, ls), After(conf, ls + more), p)
  {
    var w := After(conf, ls);
    RunInv(conf, ls);
    CreateLeaves(conf, ls);
    var more, v := CanBeStarted(w, p);
    ExecAppend(Fresh(conf), ls, more);
    assert StartedBy(w, After(conf, ls + more), p);
  }

  // ---------------------------------------------------------------- a container can always be removed

  /** A delete process with this snapshot is not refused. */
  predicate MayDelete(k: Kernel, force: bool) {
    k.file.Some? && (force || k.init.Gone? || k.file.value.status != Running)
  }

  lemma DeleteLoads(w: World, p: ProcId, force: bool) returns (ls: seq<Label>, me: Proc)
    requires p !in w.procs && w.k.file.Some?
    ensures Leads(w, ls, With(w, w.k, p, me)) && me == Proc(DeleteCmd(force), Probe(0), w.k.file.value, [])
  {
    var k;
    ls, me := LaunchOn(w, p, DeleteCmd(force));
    ls, k, me := ActOn(w, ls, w, w.k, p, me);
  }

  lemma DeleteChooses(w: World, p: ProcId, force: bool) returns (ls: seq<Label>, k: Kernel, me: Proc)
    requires Inv(w) && p !in w.procs && MayDelete(w.k, force)
    ensures Leads(w, ls, With(w, k, p, me)) && me.kind == DeleteCmd(force) && me.mem.pid == w.k.initPid && me.teardown == []
    ensures me.pc == if w.k.init.Gone? then TearExec else Kill
    ensures k.init == w.k.init && k.initPid == w.k.initPid
  {
    ls, me := DeleteLoads(w, p, force);
    ls, k, me := StatusFound(w, ls, w, p, me);
    ls, k, me := ActOn(w, ls, w, k, p, me);
  }

  /** The probe of a delete, and its save when init is gone. */
  lemma StatusFound(w: World, ls: seq<Label>, b: World, p: ProcId, me: Proc)
    returns (more: seq<Label>, v: Kernel, you: Proc)
    requires Inv(b) && b.k.file == Some(me.mem) && me.pc == Probe(0) && me.kind.DeleteCmd?
    requires Leads(w, ls, With(b, b.k, p, me))
    ensures Leads(w, more, With(b, v, p, you)) && v.init == b.k.init && v.initPid == b.k.initPid
    ensures you == me.(pc := Dispatch, mem := you.mem) && you.mem.pid == me.mem.pid == b.k.initPid
    ensures you.mem.status == if b.k.init.Gone? then Stopped else me.mem.status
    ensures !b.k.init.Gone? ==> me.mem.status == Created || me.mem.status == Running
  {
    more, v, you := ActOn(w, ls, b, b.k, p, me);
    if b.k.init.Gone? { more, v, you := ActOn(w, more, b, v, p, you); }
  }

  lemma ReapOn(w: World, ls: seq<Label>, b: World, k: Kernel, p: ProcId, me: Proc) returns (more: seq<Label>)
    requires Leads(w, ls, With(b, k, p, me)) && k.init.Zombie? && CreatorEnded(b.creator)
    ensures Leads(w, more, With(b, k.(init := Gone), p, me))
  {
    var u;
    more, u := Go(w, ls, With(b, k, p, me), Reap);
  }

  /** The signal, init's parent and the first probe. */
  lemma DeleteKills(w: World, ls: seq<Label>, b: World, k: Kernel, p: ProcId, me: Proc)
    returns (more: seq<Label>, v: Kernel, you: Proc)
    requires Leads(w, ls, With(b, k, p, me)) && CreatorEnded(b.creator)
    requires me.pc == Kill && me.mem.pid == k.initPid > 0 && (k.init.Alive? || k.init.Zombie?)
    ensures Leads(w, more, With(b, v, p, you)) && you == me.(pc := TearExec) && v.init == Gone
  {
    more, v, you := ActOn(w, ls, b, k, p, me);
    more := ReapOn(w, more, b, v, p, you);
    v := v.(init := Gone);
    more, v, you := ActOn(w, more, b, v, p, you);
  }

  lemma DeleteTears(w: World, ls: seq<Label>, b: World, k: Kernel, p: ProcId, me: Proc)
    returns (more: seq<Label>, v: Kernel, you: Proc)
    requires Leads(w, ls, With(b, k, p, me)) && me.pc == TearExec && k.init == Gone
    ensures Leads(w, more, With(b, v, p, you)) && you.pc == Done(Deleted) && v.init == Gone && you.kind == me.kind
    ensures !v.dir && !v.tap && v.file == None && !v.fifo.linked
  {
    more, v, you := ActOn(w, ls, b, k, p, me);
    more, v, you := ActOn(w, more, b, v, p, you);
    more, v, you := ActOn(w, more, b, v, p, you);
  }

  /** Process `p` has deleted the container: nothing of it is left. */
  predicate DeletedBy(v: World, p: ProcId) {
    && p in v.procs && v.procs[p].pc == Done(Deleted) && v.procs[p].kind.DeleteCmd? && v.k.init == Gone
    && !v.k.dir && !v.k.tap && v.k.file == None && !v.k.fifo.linked
  }

  lemma CanBeDeleted(w: World, p: ProcId, force: bool) returns (ls: seq<Label>, v: World)
    requires Inv(w) && p !in w.procs && CreatorEnded(w.creator) && MayDelete(w.k, force)
    ensures Leads(w, ls, v) && DeletedBy(v, p)
  {
    var k, me;
    ls, k, me := DeleteChooses(w, p, force);
    if me.pc == Kill { ls, k, me := DeleteKills(w, ls, w, k, p, me); }
    ls, k, me := DeleteTears(w, ls, w, k, p, me);
    v := With(w, k, p, me);
  }

  /**
   In every run in which `create` is over and state.json exists, one more `delete` can remove all there is,
   with force whatever init does, and without it unless init lives and the status is Running.
   */
  lemma ContainerCanBeDeleted(conf: Config, ls: seq<Label>, p: ProcId, force: bool)
    requires IsRun(conf, ls) && p !in After(conf, ls).procs && CreatorEnded(After(conf, ls).creator)
    requires MayDelete(After(conf, ls).k, force)
    ensures exists more :: AllFine(more) && IsRun(conf, ls + more) && DeletedBy(After(conf, ls + more), p)
  {
    RunInv(conf, ls);
    var more, v := CanBeDeleted(After(conf, ls), p, force);
    ExecAppend(Fresh(conf), ls, more);
    assert DeletedBy(After(conf, ls + more), p);
  }

  // ---------------------------------------------------------------- and asked for its state

  predicate ReportedBy(v: World, p: ProcId, s: Status) {
    p in v.procs && v.procs[p].pc == Done(Report(s))
  }

  lemma CanBeReported(w: World, p: ProcId) returns (ls: seq<Label>, v: World)
    requires Inv(w) && p !in w.procs && w.k.file.Some?
    ensures Leads(w, ls, v) && ReportedBy(v, p, if w.k.init.Gone? then Stopped else w.k.file.value.status)
  {
    var k, me;
    ls, me := LaunchOn(w, p, StateCmd);
    ls, k, me := ActOn(w, ls, w, w.k, p, me);
    ls, k, me := ActOn(w, ls, w, k, p, me);
    if w.k.init.Gone? { ls, k, me := ActOn(w, ls, w, k, p, me); }
    ls, k, me := ActOn(w, ls, w, k, p, me);
    if w.k.init.Gone? { ls, k, me := ActOn(w, ls, w, k, p, me); }
    v := With(w, k, p, me);
  }

  /** Left alone, `state` reports Stopped if init is gone and otherwise what is saved. */
  lemma StateCanBeReported(conf: Config, ls: seq<Label>, p: ProcId)
    requires IsRun(conf, ls) && p !in After(conf, ls).procs && After(conf, ls).k.file.Some?
    ensures var k := After(conf, ls).k;
            exists more :: AllFine(more) && IsRun(conf, ls + more)
              && ReportedBy(After(conf, ls + more), p, if k.init.Gone? then Stopped else k.file.value.status)
  {
    RunInv(conf, ls);
    var k := After(conf, ls).k;
    var more, v := CanBeReported(After(conf, ls), p);
    ExecAppend(Fresh(conf), ls, more);
    assert ReportedBy(After(conf, ls + more), p, if k.init.Gone? then Stopped else k.file.value.status);
  }

  // ---------------------------------------------------------------- the beginning and the end of init

  /** `create` has succeeded, and init is about to begin. */
  predicate CreatedAs(w: World, pid: nat) {
    && w.creator.pc == Finished(true) && w.procs == map[]
    && w.k.dir && w.k.tap && w.k.fifo.linked && w.k.file == Some(Snapshot(pid, Created))
    && w.k.init == Alive(AtFs) && w.k.initPid == pid && w.k.log == []
  }

  lemma FactorySucceeds(conf: Config) returns (ls: seq<Label>, w: World)
    ensures Leads(Fresh(conf), ls, w) && w.creator.pc == OpenRoot && w == Fresh(conf).(k := w.k, creator := w.creator)
    ensures w.k == Fresh(conf).k.(dir := true, tap := true, fifo := Fresh(conf).k.fifo.(linked := true))
  {
    var b := Fresh(conf);
    assert Exec(b, []) == Some(b);
    ls, w := Go(b, [], b, Create(true, 0));
    ls, w := Go(b, ls, w, Create(true, 0));
    if !conf.SkipsFs() { ls, w := Go(b, ls, w, Create(true, 0)); }
    ls, w := Go(b, ls, w, Create(true, 0));
    ls, w := Go(b, ls, w, Create(true, 0));
  }

  /** Every configuration can be created, under every pid. */
  lemma CreateCanSucceed(conf: Config, pid: nat)
    requires pid > 0
    ensures exists ls :: AllFine(ls) && IsRun(conf, ls) && CreatedAs(After(conf, ls), pid)
  {
    var b := Fresh(conf);
    var ls, w := FactorySucceeds(conf);
    ls, w := Go(b, ls, w, Create(true, pid));
    ls, w := Go(b, ls, w, Create(true, pid));
    ls, w := Go(b, ls, w, Create(true, pid));
    ls, w := Go(b, ls, w, Create(true, pid));
    ls, w := Go(b, ls, w, Create(true, pid));
    assert CreatedAs(After(conf, ls), pid);
  }

  lemma ComesThrough(w: World) returns (ls: seq<Label>, v: World)
    requires Inv(w) && w.k.init.Alive? && w.k.fifo.written == 1
    ensures Leads(w, ls, v) && v.k.init == Alive(if w.conf.Pauses() then InPause else InUser)
  {
    assert Exec(w, []) == Some(w);
    ls, v := [], w;
    if v.k.init.pc.AtClose? { ls, v := Go(w, ls, v, InitAct(true)); }
    if v.k.init.pc.AtBranch? { ls, v := Go(w, ls, v, InitAct(true)); }
  }

  /** Once init has written and lives, it can come to the user's program, or to its pause, as configured. */
  lemma InitCanFinish(conf: Config, ls: seq<Label>)
    requires IsRun(conf, ls) && After(conf, ls).k.init.Alive? && After(conf, ls).k.fifo.written == 1
    ensures exists more :: AllFine(more) && IsRun(conf, ls + more)
              && After(conf, ls + more).k.init == Alive(if conf.Pauses() then InPause else InUser)
  {
    RunInv(conf, ls);
    ConfFixed(Fresh(conf), ls);
    var more, v := ComesThrough(After(conf, ls));
    ExecAppend(Fresh(conf), ls, more);
    assert After(conf, ls + more) == v;
  }
}
