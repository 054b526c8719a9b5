/**
 The life of one container, from one `create` to its teardown, as a step system.

 Separate operating-system processes meet only in the kernel: a `create` process, the init process
 it spawns, and any number of `start`, `state` and `delete` processes.  They share the container's
 directory with its state.json and its FIFO, the tap device, and the process table.  Every process
 is a program counter with its own in-memory copy of the saved state, and a run is any interleaving
 of their system calls.  All remaining choice (which process moves, and whether a fallible call
 fails) sits in the label of a step, so a run is just a sequence of labels.
 */
module Lifecycle {
  import opened Common

  type ProcId = nat

  /** How often `killContainer` probes before it gives up. */
  const MAX_PROBES := 100

  datatype Status = Created | Running | Pausing | Paused | Stopped

  /** The part of state.json that processes exchange: the pid of init and the status. */
  datatype Snapshot = Snapshot(pid: nat, status: Status)

  datatype Handler = FsH | NetH | ExecH

  // ---------------------------------------------------------------- init

  datatype InitPc =
    | AtFs | AtNetns | AtHook(next: nat) | AtNet
    | AtFifoOpen | InFifoOpen(seen: nat) | AtWrite | AtClose
    | AtBranch | InPause | InUser

  /** A dead init stays a zombie, which still answers a probe, until its parent has waited for it. */
  datatype Init = Unborn | Alive(pc: InitPc) | Zombie | Gone

  datatype InitEvent = CallFs | CallHook(i: nat) | CallNet | WroteFifo | CallExec

  // ---------------------------------------------------------------- the FIFO

  /**
   A FIFO of the Linux kernel.  Opening one end blocks until the other end has been opened since,
   which the kernel decides with the two counters; a process counts as reader or writer from the
   moment it enters open.  Bytes nobody can read any more are dropped.  `written`, `consumed` and
   `dropped` are totals over the run.
   */
  datatype Fifo = Fifo(linked: bool, readers: set<ProcId>, writer: bool, rcount: nat, wcount: nat,
                       buffer: nat, written: nat, consumed: nat, dropped: nat)

  function Discard(f: Fifo): Fifo {
    if f.readers == {} && !f.writer then f.(buffer := 0, dropped := f.dropped + f.buffer) else f
  }

  // ---------------------------------------------------------------- command processes

  datatype Kind = StartCmd | StateCmd | DeleteCmd(force: bool)

  datatype Outcome =
    | Started | Deleted | Report(status: Status)
    | NotExists | LoadFailed | HasStopped | AlreadyRunning | WrongState | OpenFailed | ReadFailed
    | NotStopped | StillRunning

  datatype Pc =
    | Load | RemoveOrphan
    | Probe(nth: nat) | SaveStopped(nth: nat) | Dispatch
    | Arrive | Opening(seen: nat) | Reading(got: nat) | SaveRunning | Unlink | Close(ends: Outcome)
    | Kill | KillProbe(i: nat)
    | TearExec | TearFs | TearNet
    | Done(outcome: Outcome) | Crashed

  /** `teardown` lists the destroy handlers this process has called. */
  datatype Proc = Proc(kind: Kind, pc: Pc, mem: Snapshot, teardown: seq<Handler>)

  datatype CreatorPc =
    | Mkdir | Mkfifo | FsCreate | NetCreate | ExecCreate
    | OpenRoot | Spawn | StartTime | SaveCreated | PostStart
    | Terminate | Wait
    | DropExec(unkilled: bool) | DropFs(unkilled: bool) | DropNet(unkilled: bool)
    | Finished(ok: bool) | CreatorCrashed

  datatype Creator = Creator(pc: CreatorPc, mem: Snapshot, created: seq<Handler>, teardown: seq<Handler>)

  /** What the processes share.  `log` is what init has called so far. */
  datatype Kernel = Kernel(dir: bool, tap: bool, file: Option<Snapshot>, fifo: Fifo,
                           init: Init, initPid: nat, log: seq<InitEvent>)

  /** What the container is to run: the pause of an orchestrator, the pause unikernel asked for by name, or another one. */
  datatype Entry = SlashPause | PauseNabla | Unikernel

  function EntryOf(args: seq<string>): Entry {
    if args == ["/pause"] then SlashPause else if args == ["pause.nabla"] then PauseNabla else Unikernel
  }

  /** The arguments as `Create` stores them and init reads them. */
  function StoredArgs(args: seq<string>): seq<string> {
    if args == ["/pause"] then ["pause.nabla"] else args
  }

  /** The container's configuration: how many prestart hooks, and what it is to run. */
  datatype Config = Config(hooks: nat, entry: Entry) {
    /** `Create` makes no file system for it. */
    predicate SkipsFs() {
      entry.SlashPause?
    }

    /** Its init pauses and never calls the exec handler. */
    predicate Pauses() {
      !entry.Unikernel?
    }
  }

  datatype World = World(conf: Config, k: Kernel, creator: Creator, procs: map<ProcId, Proc>)

  /** Before `create`: no directory, no tap, no process. */
  function Fresh(conf: Config): World {
    World(conf, Kernel(false, false, None, Fifo(false, {}, false, 0, 0, 0, 0, 0, 0), Unborn, 0, []),
          Creator(Mkdir, Snapshot(0, Stopped), [], []), map[])
  }

  // ---------------------------------------------------------------- kernel services

  /** What signal 0 finds out about a pid, given that pids are not reused. */
  predicate PidLive(k: Kernel, pid: nat) {
    pid != 0 && pid == k.initPid && (k.init.Alive? || k.init.Zombie?)
  }

  /** init exits or is killed: its end of the FIFO closes and a zombie remains. */
  function InitExit(k: Kernel): Kernel {
    k.(init := Zombie, fifo := Discard(k.fifo.(writer := false)))
  }

  function Sigkill(k: Kernel, pid: nat): Kernel {
    if pid != 0 && pid == k.initPid && k.init.Alive? then InitExit(k) else k
  }

  /** `saveState` with its error ignored: nothing is written once the directory is gone. */
  function Save(k: Kernel, s: Snapshot): Kernel {
    if k.dir then k.(file := Some(s)) else k
  }

  function RemoveDir(k: Kernel): Kernel {
    k.(dir := false, file := None, fifo := k.fifo.(linked := false))
  }

  /** A process leaves the FIFO, by closing it or by dying. */
  function Leave(k: Kernel, p: ProcId): Kernel {
    k.(fifo := Discard(k.fifo.(readers := k.fifo.readers - {p})))
  }

  // ---------------------------------------------------------------- init

  /** init calls a handler or a hook: the call is logged, and init exits when it fails. */
  function Call(k: Kernel, e: InitEvent, ok: bool, next: InitPc): Kernel {
    var v := k.(log := k.log + [e]);
    if ok then v.(init := Alive(next)) else InitExit(v)
  }

  /** The next action of init; `None` while it is blocked. */
  function InitStep(conf: Config, k: Kernel, ok: bool): Option<Kernel>
    requires k.init.Alive?
  {
    match k.init.pc
    case AtFs => Some(Call(k, CallFs, ok, AtNetns))
    case AtNetns => Some(if ok then k.(init := Alive(AtHook(0))) else InitExit(k))
    case AtHook(i) =>
      Some(if i < conf.hooks then Call(k, CallHook(i), ok, AtHook(i + 1)) else k.(init := Alive(AtNet)))
    case AtNet => Some(Call(k, CallNet, ok, AtFifoOpen))
    case AtFifoOpen =>
      if !ok || !k.fifo.linked then
        Some(InitExit(k))
      else
        Some(k.(fifo := k.fifo.(writer := true, wcount := k.fifo.wcount + 1),
                init := Alive(if k.fifo.readers != {} then AtWrite else InFifoOpen(k.fifo.rcount))))
    case InFifoOpen(seen) =>
      if k.fifo.rcount != seen then Some(k.(init := Alive(AtWrite))) else None
    case AtWrite =>
      if !ok || k.fifo.readers == {} then
        Some(InitExit(k))
      else
        var f := k.fifo.(buffer := k.fifo.buffer + 1, written := k.fifo.written + 1);
        Some(k.(fifo := f, log := k.log + [WroteFifo], init := Alive(AtClose)))
    case AtClose =>
      Some(k.(fifo := Discard(k.fifo.(writer := false)), init := Alive(AtBranch)))
    case AtBranch =>
      Some(if conf.Pauses() then k.(init := Alive(InPause)) else Call(k, CallExec, ok, InUser))
    case InPause => None
    case InUser => None
  }

  // ---------------------------------------------------------------- start, state and delete

  /** A process's move: what becomes of the kernel and of the process. */
  datatype Move = Move(k: Kernel, me: Proc)

  function Goto(k: Kernel, me: Proc, pc: Pc): Option<Move> {
    Some(Move(k, me.(pc := pc)))
  }

  /** Where a command goes on once `currentState` has returned. */
  function AfterProbe(kind: Kind, nth: nat, s: Status): Pc {
    if kind.StateCmd? then (if nth == 0 then Probe(1) else Done(Report(s))) else Dispatch
  }

  /** The branch on the status that the start and delete commands take. */
  function Chosen(kind: Kind, s: Status): Pc {
    match kind
    case StartCmd =>
      (match s
       case Created => Arrive
       case Stopped => Done(HasStopped)
       case Running => Done(AlreadyRunning)
       case _ => Done(WrongState))
    case DeleteCmd(force) =>
      (match s
       case Stopped => TearExec
       case Created => Kill
       case _ => if force then Kill else Done(NotStopped))
    case StateCmd => Done(Report(s))
  }

  predicate InStatus(pc: Pc) {
    pc.Load? || pc.Probe? || pc.SaveStopped? || pc.Dispatch?
  }

  /** Loading a container and asking for its status, which all three commands begin with. */
  function StatusStep(k: Kernel, me: Proc, ok: bool): Option<Move>
    requires InStatus(me.pc)
  {
    match me.pc
    case Load =>
      if !ok then Goto(k, me, Done(LoadFailed))
      else if k.file.Some? then Goto(k, me.(mem := k.file.value), Probe(0))
      else Goto(k, me, if me.kind.DeleteCmd? then RemoveOrphan else Done(NotExists))
    case Probe(n) =>
      if PidLive(k, me.mem.pid) then Goto(k, me, AfterProbe(me.kind, n, me.mem.status))
      else Goto(k, me.(mem := me.mem.(status := Stopped)), SaveStopped(n))
    case SaveStopped(n) =>
      Goto(Save(k, me.mem), me, AfterProbe(me.kind, n, me.mem.status))
    case Dispatch =>
      Goto(k, me, Chosen(me.kind, me.mem.status))
  }

  predicate InExec(pc: Pc) {
    pc.Arrive? || pc.Opening? || pc.Reading? || pc.SaveRunning? || pc.Unlink? || pc.Close?
  }

  /** `exec`: read the FIFO to its end, and record Running if there was a byte. */
  function ExecStep(k: Kernel, p: ProcId, me: Proc, ok: bool): Option<Move>
    requires InExec(me.pc)
  {
    var f := k.fifo;
    match me.pc
    case Arrive =>
      if !ok || !f.linked then
        Goto(k, me, Done(OpenFailed))
      else
        Goto(k.(fifo := f.(readers := f.readers + {p}, rcount := f.rcount + 1)), me,
             if f.writer then Reading(0) else Opening(f.wcount))
    case Opening(seen) =>
      if f.wcount != seen then Goto(k, me, Reading(0)) else None
    case Reading(got) =>
      if !ok then Goto(k, me, Close(ReadFailed))
      else if f.buffer > 0 then
        Goto(k.(fifo := f.(buffer := 0, consumed := f.consumed + f.buffer)), me, Reading(got + f.buffer))
      else if f.writer then None
      else if got > 0 then Goto(k, me.(mem := me.mem.(status := Running)), SaveRunning)
      else Goto(k, me, Close(AlreadyRunning))
    case SaveRunning => Goto(Save(k, me.mem), me, Unlink)
    case Unlink => Goto(k.(fifo := f.(linked := false)), me, Close(Started))
    case Close(ends) => Goto(Leave(k, p), me, Done(ends))
  }

  predicate InDelete(pc: Pc) {
    pc.RemoveOrphan? || pc.Kill? || pc.KillProbe? || pc.TearExec? || pc.TearFs? || pc.TearNet?
  }

  /** The rest of the delete command: `killContainer`, `destroy`, or removing a directory without state. */
  function DeleteStep(k: Kernel, me: Proc, ok: bool): Option<Move>
    requires InDelete(me.pc)
  {
    match me.pc
    case RemoveOrphan => Goto(if ok then RemoveDir(k) else k, me, Done(NotExists))
    case Kill => Goto(Sigkill(k, me.mem.pid), me, KillProbe(0))
    case KillProbe(i) =>
      if i >= MAX_PROBES then Goto(k, me, Done(StillRunning))
      else Goto(k, me, if PidLive(k, me.mem.pid) then KillProbe(i + 1) else TearExec)
    case TearExec =>
      Goto(k, me.(mem := Snapshot(0, Stopped), teardown := me.teardown + [ExecH]), TearFs)
    case TearFs =>
      var v := me.(teardown := me.teardown + [FsH]);
      if ok then Goto(RemoveDir(k), v, TearNet) else Goto(k, v, Done(Deleted))
    case TearNet =>
      Goto(if ok then k.(tap := false) else k, me.(teardown := me.teardown + [NetH]), Done(Deleted))
  }

  /** The next action of command process `p`; `None` while it is blocked or once it has ended. */
  function ProcStep(k: Kernel, p: ProcId, me: Proc, ok: bool): Option<Move> {
    if InStatus(me.pc) then StatusStep(k, me, ok)
    else if InExec(me.pc) then ExecStep(k, p, me, ok)
    else if InDelete(me.pc) then DeleteStep(k, me, ok)
    else None
  }

  // ---------------------------------------------------------------- create

  datatype CreatorMove = CreatorMove(k: Kernel, c: Creator)

  function Next(k: Kernel, c: Creator, pc: CreatorPc): Option<CreatorMove> {
    Some(CreatorMove(k, c.(pc := pc)))
  }

  predicate InCreate(pc: CreatorPc) {
    pc.Mkdir? || pc.Mkfifo? || pc.FsCreate? || pc.NetCreate? || pc.ExecCreate?
  }

  /** `Create` of the factory; its failures leave behind what was made so far. */
  function FactoryStep(conf: Config, k: Kernel, c: Creator, ok: bool): Option<CreatorMove>
    requires InCreate(c.pc)
  {
    match c.pc
    case Mkdir =>
      if ok && !k.dir then Next(k.(dir := true), c, Mkfifo) else Next(k, c, Finished(false))
    case Mkfifo =>
      if ok && k.dir
      then Next(k.(fifo := k.fifo.(linked := true)), c, if conf.SkipsFs() then NetCreate else FsCreate)
      else Next(k, c, Finished(false))
    case FsCreate =>
      Next(k, c.(created := c.created + [FsH]), if ok && k.dir then NetCreate else Finished(false))
    case NetCreate =>
      Next(if ok then k.(tap := true) else k, c.(created := c.created + [NetH]),
           if ok then ExecCreate else Finished(false))
    case ExecCreate =>
      Next(k, c.(created := c.created + [ExecH]), if ok then OpenRoot else Finished(false))
  }

  /** `run` of the runner in create mode, including `start` and the cleanup on every error path. */
  function RunnerStep(k: Kernel, c: Creator, ok: bool, pid: nat): Option<CreatorMove>
    requires !InCreate(c.pc)
  {
    match c.pc
    case OpenRoot => Next(k, c, if ok && k.dir then Spawn else DropExec(false))
    case Spawn =>
      if ok && pid > 0
      then Next(k.(init := Alive(AtFs), initPid := pid), c.(mem := Snapshot(pid, Created)), StartTime)
      else Next(k, c, DropExec(false))
    case StartTime => Next(k, c, if ok then SaveCreated else DropExec(true))
    case SaveCreated => Next(Save(k, c.mem), c, PostStart)
    case PostStart => Next(k, c, if ok then Finished(true) else Terminate)
    case Terminate => Next(Sigkill(k, c.mem.pid), c, Wait)
    case Wait => if k.init.Alive? then None else Next(k.(init := Gone), c, DropExec(false))
    case DropExec(u) => Next(k, c.(teardown := c.teardown + [ExecH]), DropFs(u))
    case DropFs(u) =>
      Next(if ok then RemoveDir(k) else k, c.(teardown := c.teardown + [FsH]),
           if ok then DropNet(u) else Finished(false))
    case DropNet(u) =>
      Next(if ok then k.(tap := false) else k, c.(teardown := c.teardown + [NetH]), Finished(false))
    case Finished(_) => None
    case CreatorCrashed => None
  }

  /** The next action of the `create` command; `pid` is the pid a successful spawn yields. */
  function CreatorStep(conf: Config, k: Kernel, c: Creator, ok: bool, pid: nat): Option<CreatorMove> {
    if InCreate(c.pc) then FactoryStep(conf, k, c, ok) else RunnerStep(k, c, ok, pid)
  }

  predicate CreatorEnded(c: Creator) {
    c.pc.Finished? || c.pc.CreatorCrashed?
  }

  // ---------------------------------------------------------------- steps and runs

  datatype Label =
    | Create(ok: bool, pid: nat)
    | Launch(p: ProcId, kind: Kind)
    | Act(p: ProcId, ok: bool)
    | InitAct(ok: bool)
    | Crash(p: ProcId)
    | CrashCreator
    | Die
    | Reap

  /** The step labelled `l`, or `None` when it is not enabled in `w`. */
  function Step(w: World, l: Label): Option<World> {
    match l
    case Create(ok, pid) =>
      var m := CreatorStep(w.conf, w.k, w.creator, ok, pid);
      if m.None? then None else Some(w.(k := m.value.k, creator := m.value.c))
    case Launch(p, kind) =>
      if p in w.procs then None
      else Some(w.(procs := w.procs[p := Proc(kind, Load, Snapshot(0, Stopped), [])]))
    case Act(p, ok) =>
      if p !in w.procs then None else
        var m := ProcStep(w.k, p, w.procs[p], ok);
        if m.None? then None else Some(w.(k := m.value.k, procs := w.procs[p := m.value.me]))
    case InitAct(ok) =>
      if !w.k.init.Alive? then None else
        var v := InitStep(w.conf, w.k, ok);
        if v.None? then None else Some(w.(k := v.value))
    case Crash(p) =>
      if p !in w.procs || w.procs[p].pc.Done? || w.procs[p].pc.Crashed? then None
      else Some(w.(k := Leave(w.k, p), procs := w.procs[p := w.procs[p].(pc := Crashed)]))
    case CrashCreator =>
      if CreatorEnded(w.creator) then None else Some(w.(creator := w.creator.(pc := CreatorCrashed)))
    case Die => if w.k.init.Alive? then Some(w.(k := InitExit(w.k))) else None
    case Reap =>
      if w.k.init.Zombie? && CreatorEnded(w.creator) then Some(w.(k := w.k.(init := Gone))) else None
  }

  /** The world after the run `ls`, or `None` when some step of it is not enabled. */
  function Exec(w: World, ls: seq<Label>): Option<World>
    decreases |ls|
  {
    if ls == [] then Some(w)
    else
      var v := Step(w, ls[0]);
      if v.None? then None else Exec(v.value, ls[1..])
  }
}
