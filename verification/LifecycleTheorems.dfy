/**
 What holds of the lifecycle over every run: all interleavings of one `create`, its init and any
 number of `start`, `state` and `delete` processes, each of which may also be killed at any point.
 */
module LifecycleTheorems {
  import opened Common
  import opened Lifecycle
  import opened LifecycleInvariant

  /** `ls` is a run of a container configured as `conf`, from before its `create`. */
  predicate IsRun(conf: Config, ls: seq<Label>) {
    Exec(Fresh(conf), ls).Some?
  }

  function After(conf: Config, ls: seq<Label>): World
    requires IsRun(conf, ls)
  {
    Exec(Fresh(conf), ls).value
  }

  lemma RunInv(conf: Config, ls: seq<Label>)
    requires IsRun(conf, ls)
    ensures Inv(After(conf, ls))
  {
    FreshInv(conf);
    RunKeepsInv(Fresh(conf), ls);
  }

  lemma {:induction false} ExecAppend(w: World, a: seq<Label>, b: seq<Label>)
    ensures Exec(w, a + b) == (if Exec(w, a).None? then None else Exec(Exec(w, a).value, b))
    decreases |a|
  {
    if a == [] {
      assert a + b == b;
    } else {
      assert (a + b)[1..] == a[1..] + b;
      if Step(w, a[0]).Some? { ExecAppend(Step(w, a[0]).value, a[1..], b); }
    }
  }

  // ---------------------------------------------------------------- starting

  /** However many `start` commands race, at most one of them succeeds. */
  lemma StartSucceedsAtMostOnce(conf: Config, ls: seq<Label>, p: ProcId, q: ProcId)
    requires IsRun(conf, ls)
    requires p in After(conf, ls).procs && After(conf, ls).procs[p].pc == Done(Started)
    requires q in After(conf, ls).procs && After(conf, ls).procs[q].pc == Done(Started)
    ensures p == q
  {
    RunInv(conf, ls);
  }

  /** A successful `start` proves that init ran Fs, every hook in order and Network, and then wrote. */
  lemma StartFollowsInit(conf: Config, ls: seq<Label>, p: ProcId)
    requires IsRun(conf, ls)
    requires p in After(conf, ls).procs && After(conf, ls).procs[p].pc == Done(Started)
    ensures [CallFs] + HookCalls(conf.hooks) + [CallNet, WroteFifo] <= After(conf, ls).k.log
  {
    RunInv(conf, ls);
    ConfFixed(Fresh(conf), ls);
    WrittenLog(conf, After(conf, ls).k);
  }

  lemma WrittenLog(conf: Config, k: Kernel)
    requires LogOk(conf, k) && k.fifo.written == 1
    ensures [CallFs] + HookCalls(conf.hooks) + [CallNet, WroteFifo] <= k.log
  {
    var pre := [CallFs] + HookCalls(conf.hooks) + [CallNet];
    NotInHookCalls(conf.hooks, WroteFifo);
    var j :| 0 <= j < |k.log| && k.log[j] == WroteFifo;
    assert Program(conf)[j] == WroteFifo;
    assert forall i | 0 <= i < |pre| :: Program(conf)[i] == pre[i] && pre[i] in pre;
    assert j >= |pre|;
  }

  lemma {:induction false} ConfFixed(w: World, ls: seq<Label>)
    requires Exec(w, ls).Some?
    ensures Exec(w, ls).value.conf == w.conf
    decreases |ls|
  {
    if ls != [] { ConfFixed(Step(w, ls[0]).value, ls[1..]); }
  }

  /**
   The user's program is called only as the very last thing of a complete init program, never in a
   pause container, and only after the FIFO was opened for reading.
   */
  lemma NoUserCodeBeforeRendezvous(conf: Config, ls: seq<Label>)
    requires IsRun(conf, ls) && CallExec in After(conf, ls).k.log
    ensures !conf.Pauses()
    ensures After(conf, ls).k.log == [CallFs] + HookCalls(conf.hooks) + [CallNet, WroteFifo, CallExec]
    ensures exists i, p :: 0 <= i < |ls| && OpensFifo(conf, ls, i, p)
  {
    RunInv(conf, ls);
    ConfFixed(Fresh(conf), ls);
    ExecutedLog(conf, After(conf, ls).k);
    SomeoneOpened(conf, ls);
  }

  /** Init pauses exactly when the stored arguments are `pause.nabla` alone, and only `/pause` has no file system made. */
  lemma PausesByArguments(hooks: nat, args: seq<string>)
    ensures Config(hooks, EntryOf(args)).Pauses() <==> StoredArgs(args) == ["pause.nabla"]
    ensures Config(hooks, EntryOf(args)).SkipsFs() <==> args == ["/pause"]
    ensures Config(hooks, EntryOf(args)).SkipsFs() ==> Config(hooks, EntryOf(args)).Pauses()
  {
    assert ["/pause"][0] != ["pause.nabla"][0];
  }

  lemma ExecutedLog(conf: Config, k: Kernel)
    requires FifoOk(k) && LogOk(conf, k) && CallExec in k.log
    ensures !conf.Pauses() && k.fifo.rcount > 0
    ensures k.log == [CallFs] + HookCalls(conf.hooks) + [CallNet, WroteFifo, CallExec]
  {
    var pre := [CallFs] + HookCalls(conf.hooks) + [CallNet, WroteFifo];
    NotInHookCalls(conf.hooks, CallExec);
    var j :| 0 <= j < |k.log| && k.log[j] == CallExec;
    assert Program(conf)[j] == CallExec;
    assert forall i | 0 <= i < |pre| :: Program(conf)[i] == pre[i] && pre[i] in pre;
    assert j >= |pre|;
    assert k.log[|pre| - 1] == WroteFifo;
  }

  /** Step `i` of the run is a `start` process opening the FIFO for reading. */
  ghost predicate OpensFifo(conf: Config, ls: seq<Label>, i: nat, p: ProcId)
    requires i < |ls|
  {
    && ls[i] == Act(p, true) && IsRun(conf, ls[..i])
    && var w := After(conf, ls[..i]);
       p in w.procs && w.procs[p].kind == StartCmd && w.procs[p].pc == Arrive && w.k.fifo.linked
  }

  lemma RunPrefix(conf: Config, ls: seq<Label>, i: nat)
    requires IsRun(conf, ls) && i <= |ls|
    ensures IsRun(conf, ls[..i])
    ensures Exec(After(conf, ls[..i]), ls[i..]) == Some(After(conf, ls))
  {
    ExecAppend(Fresh(conf), ls[..i], ls[i..]);
    assert ls[..i] + ls[i..] == ls;
  }

  lemma LastStep(conf: Config, ls: seq<Label>)
    requires IsRun(conf, ls) && ls != []
    ensures IsRun(conf, ls[..|ls| - 1])
    ensures Step(After(conf, ls[..|ls| - 1]), ls[|ls| - 1]) == Some(After(conf, ls))
  {
    var n := |ls| - 1;
    RunPrefix(conf, ls, n);
    assert ls[n..] == [ls[n]];
    assert Exec(After(conf, ls[..n]), [ls[n]]) == Some(After(conf, ls));
  }

  // ---- which process can change what

  predicate ProcChanges(k: Kernel, v: Kernel, me: Proc, ok: bool) {
    && (v.dir == k.dir || (k.dir && ok && (me.pc.RemoveOrphan? || me.pc.TearFs?)))
    && (v.tap == k.tap || (k.tap && ok && me.pc.TearNet?))
    && (v.fifo.rcount == k.fifo.rcount || (me.pc.Arrive? && ok && k.fifo.linked))
    && (v.file == k.file || (v.file.None? && !v.dir) || (v.file == Some(me.mem) && (me.pc.SaveStopped? || me.pc.SaveRunning?)))
  }

  lemma ExecFootprint(k: Kernel, p: ProcId, me: Proc, ok: bool)
    requires InExec(me.pc) && ExecStep(k, p, me, ok).Some?
    ensures ProcChanges(k, ExecStep(k, p, me, ok).value.k, me, ok)
  {
  }

  lemma DeleteFootprint(k: Kernel, me: Proc, ok: bool)
    requires InDelete(me.pc)
    ensures ProcChanges(k, DeleteStep(k, me, ok).value.k, me, ok)
  {
  }

  lemma ProcFootprint(k: Kernel, p: ProcId, me: Proc, ok: bool)
    requires ProcStep(k, p, me, ok).Some?
    ensures ProcChanges(k, ProcStep(k, p, me, ok).value.k, me, ok)
  {
    if InExec(me.pc) { ExecFootprint(k, p, me, ok); }
    if InDelete(me.pc) { DeleteFootprint(k, me, ok); }
  }

  lemma InitFootprint(conf: Config, k: Kernel, ok: bool)
    requires k.init.Alive? && InitStep(conf, k, ok).Some?
    ensures var v := InitStep(conf, k, ok).value;
            v.dir == k.dir && v.tap == k.tap && v.file == k.file && v.fifo.rcount == k.fifo.rcount
  {
  }

  lemma CreatorFootprint(conf: Config, k: Kernel, c: Creator, ok: bool, pid: nat)
    requires CreatorStep(conf, k, c, ok, pid).Some?
    ensures var m := CreatorStep(conf, k, c, ok, pid).value;
            && (m.k.dir == k.dir || (ok && (c.pc.Mkdir? || (k.dir && c.pc.DropFs?))))
            && (m.k.tap == k.tap || (ok && (c.pc.NetCreate? || (k.tap && c.pc.DropNet?))))
            && m.k.fifo.rcount == k.fifo.rcount
            && (m.k.file == k.file || (m.k.file.None? && !m.k.dir) || (c.pc.SaveCreated? && m.k.file == Some(c.mem)))
            && !m.c.pc.Mkdir?
  {
  }

  lemma ReaderCount(w: World, l: Label)
    requires Inv(w) && Step(w, l).Some? && Step(w, l).value.k.fifo.rcount != w.k.fifo.rcount
    ensures l.Act? && l.ok && l.p in w.procs
    ensures w.procs[l.p].pc == Arrive && w.procs[l.p].kind == StartCmd && w.k.fifo.linked
  {
    match l
    case Act(p, ok) => ProcFootprint(w.k, p, w.procs[p], ok);
    case InitAct(ok) => InitFootprint(w.conf, w.k, ok);
    case Create(ok, pid) => CreatorFootprint(w.conf, w.k, w.creator, ok, pid);
    case _ =>
  }

  lemma {:induction false} SomeoneOpened(conf: Config, ls: seq<Label>)
    requires IsRun(conf, ls) && After(conf, ls).k.fifo.rcount > 0
    ensures exists i, p :: 0 <= i < |ls| && OpensFifo(conf, ls, i, p)
    decreases |ls|
  {
    var n := |ls| - 1;
    LastStep(conf, ls);
    var w := After(conf, ls[..n]);
    if w.k.fifo.rcount > 0 {
      SomeoneOpened(conf, ls[..n]);
      var i, p :| 0 <= i < n && OpensFifo(conf, ls[..n], i, p);
      assert ls[..n][..i] == ls[..i];
      assert OpensFifo(conf, ls, i, p);
    } else {
      RunInv(conf, ls[..n]);
      ReaderCount(w, ls[n]);
      assert OpensFifo(conf, ls, n, ls[n].p);
    }
  }
}
