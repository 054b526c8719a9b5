/** The program of init, from its first handler to the user's program. */
module InitProgram {
  import opened Common
  import opened Lifecycle
  import opened LifecycleInvariant
  import opened LifecycleStatus
  import opened LifecycleEffects
  import opened Commands

  /** How init's program ends: killed or failed, waiting for a reader, in the pause, or in the user's program. */
  datatype End = Died | Unmet | Paused | InProgram

  predicate SameFifo(k: Kernel, v: Kernel) {
    v.fifo == k.fifo
  }

  /** How init fares at the FIFO when nothing fails and nobody else moves. */
  function MeetsAlone(f: Fifo): Option<bool> {
    if !f.linked then Some(false) else if f.readers == {} then None else Some(true)
  }

  /** And how its program ends then: it needs the FIFO and a reader that is there already. */
  function EndsAlone(f: Fifo, pause: bool): End {
    if !f.linked then Died else if f.readers == {} then Unmet else if pause then End.Paused else InProgram
  }

  class InitProcess {
    const os: Machine
    const hooks: nat
    const pause: bool

    ghost predicate Valid()
      reads this, os
    {
      os.Valid() && os.self.TheInit? && os.conf.hooks == hooks && os.conf.Pauses() == pause
    }

    /** Init is at `pc` and has called what it must have called before. */
    ghost predicate At(pc: InitPc)
      reads this, os
    {
      Valid() && os.world.k.init == Alive(pc)
    }

    constructor (os: Machine, hooks: nat, pause: bool)
      requires os.Valid() && os.self.TheInit? && os.conf.hooks == hooks && os.conf.Pauses() == pause
      ensures Valid() && this.os == os && this.hooks == hooks && this.pause == pause
    {
      this.os, this.hooks, this.pause := os, hooks, pause;
    }

    /** A handler or a hook: it is logged, and its failure ends init. */
    method CallOut(ghost e: InitEvent, ghost next: InitPc) returns (ok: bool)
      requires Valid() && os.world.k.init.Alive? && InitMoves(os.world.k.init.pc)
      requires forall k: Kernel, fine | k.init == os.world.k.init ::
                 InitStep(os.conf, k, fine) == Some(Call(k, e, fine, next))
      modifies os
      ensures Valid() && old(os.run) <= os.run && os.world.k.log <= Program(os.conf)
      ensures ok ==> os.world.k.init == Alive(next) && os.world.k.log == old(os.world.k.log) + [e]
      ensures !ok ==> Dead(os.world.k.init)
      ensures !ok ==> os.world.k.log == old(os.world.k.log) || os.world.k.log == old(os.world.k.log) + [e]
      ensures old(os.Quiet()) ==> ok && os.Quiet() && SameFifo(old(os.world.k), os.world.k)
    {
      var alive, fine, seen := os.Call();
      ok := alive && fine;
    }

    /** The prestart hooks, one after the other until one fails, which ends init. */
    method RunHooks() returns (ok: bool)
      requires At(AtHook(0)) && os.world.k.log == [CallFs]
      modifies os
      ensures Valid() && old(os.run) <= os.run && os.world.k.log <= Program(os.conf)
      ensures ok ==> os.world.k.init == Alive(AtNet) && os.world.k.log == [CallFs] + HookCalls(hooks)
      ensures !ok ==> Dead(os.world.k.init) && exists n :: 0 <= n <= hooks && os.world.k.log == [CallFs] + HookCalls(n)
      ensures ok ==> NoFailure(os.conf, os.run)
      ensures old(os.Quiet()) ==> ok && os.Quiet() && SameFifo(old(os.world.k), os.world.k)
    {
      assert [CallFs] + HookCalls(0) == [CallFs];
      for i := 0 to hooks
        invariant At(AtHook(i)) && old(os.run) <= os.run && os.world.k.log == [CallFs] + HookCalls(i)
        invariant old(os.Quiet()) ==> os.Quiet() && SameFifo(old(os.world.k), os.world.k)
      {
        ok := CallOut(CallHook(i), AtHook(i + 1));
        assert [CallFs] + HookCalls(i) + [CallHook(i)] == [CallFs] + HookCalls(i + 1);
        if !ok { return; }
      }
      var alive, _, _ := os.Call();
      ok := alive;
      if ok { AliveHasNotFailed(os.conf, os.run); }
    }

    /** Everything before the rendezvous: Fs, the namespace, the hooks, Network. */
    method Prepare() returns (ok: bool)
      requires At(AtFs) && os.world.k.log == []
      modifies os
      ensures Valid() && old(os.run) <= os.run && os.world.k.log <= Program(os.conf)
      ensures ok ==> os.world.k.init == Alive(AtFifoOpen)
      ensures ok ==> os.world.k.log == [CallFs] + HookCalls(hooks) + [CallNet]
      ensures !ok ==> Dead(os.world.k.init)
      ensures old(os.Quiet()) ==> ok && os.Quiet() && SameFifo(old(os.world.k), os.world.k)
    {
      ok := CallOut(CallFs, AtNetns);
      if !ok { return; }
      var alive, fine, seen := os.Call();
      if !alive || !fine { return false; }
      ok := RunHooks();
      if !ok { return; }
      ok := CallOut(CallNet, AtFifoOpen);
    }

    /** Open the FIFO for writing, write a byte, close it. */
    method Rendezvous() returns (met: Option<bool>)
      requires At(AtFifoOpen)
      modifies os
      ensures Valid() && old(os.run) <= os.run && os.world.k.log <= Program(os.conf)
      ensures met == Some(true) ==> os.world.k.init == Alive(AtBranch) && os.world.k.log == old(os.world.k.log) + [WroteFifo]
      ensures met == Some(false) ==> Dead(os.world.k.init)
      ensures met.None? ==> os.world.k.init.Alive? && os.world.k.init.pc.InFifoOpen? && os.Blocked()
      ensures met.None? ==> os.world.k.log == old(os.world.k.log)
      ensures old(os.Quiet()) ==> os.Quiet() && met == MeetsAlone(old(os.world.k.fifo))
    {
      var alive, fine, seen := os.Call();
      if !alive || !fine || !seen.fifo.linked { return Some(false); }
      if os.world.k.init.pc.InFifoOpen? {
        var came := os.AwaitReader();
        if came != Some(true) { return came; }
      }
      var written := WriteByte();
      return Some(written);
    }

    /** The byte, and the close of init's end. */
    method WriteByte() returns (written: bool)
      requires At(AtWrite)
      modifies os
      ensures Valid() && old(os.run) <= os.run && os.world.k.log <= Program(os.conf)
      ensures written ==> os.world.k.init == Alive(AtBranch) && os.world.k.log == old(os.world.k.log) + [WroteFifo]
      ensures !written ==> Dead(os.world.k.init)
      ensures old(os.Quiet()) ==> os.Quiet() && written == (old(os.world.k.fifo.readers) != {})
    {
      var alive, fine, seen := os.Call();
      if !alive || !fine || seen.fifo.readers == {} { return false; }
      alive, fine, seen := os.Call();
      return alive;
    }

    /**
     `initNabla`.  It reaches the user's program only with every call made, in order, and the byte
     written; in a pause container it stops right after the byte; and wherever it ends, what it
     has called is a beginning of that program.  A handler, a hook or any other call that fails is its death.
     */
    method Run() returns (end: End)
      requires At(AtFs) && os.world.k.log == []
      modifies os
      ensures Valid() && old(os.run) <= os.run
      ensures end == InProgram ==> !pause && os.world.k.init == Alive(InUser)
      ensures end == InProgram ==> os.world.k.log == [CallFs] + HookCalls(hooks) + [CallNet, WroteFifo, CallExec]
      ensures end == End.Paused ==> pause && os.world.k.init == Alive(InPause)
      ensures end == End.Paused ==> os.world.k.log == [CallFs] + HookCalls(hooks) + [CallNet, WroteFifo]
      ensures end == Unmet ==> os.world.k.init.Alive? && os.Blocked()
      ensures end == Unmet ==> os.world.k.log == [CallFs] + HookCalls(hooks) + [CallNet]
      ensures end == Died ==> Dead(os.world.k.init)
      ensures os.world.k.log <= Program(os.conf)
      ensures end != Died ==> NoFailure(os.conf, os.run)
      ensures old(os.Quiet()) ==> end == EndsAlone(old(os.world.k.fifo), pause)
    {
      var ok := Prepare();
      if !ok { return Died; }
      var met := Rendezvous();
      if met.None? {
        end := Unmet;
      } else if !met.value {
        end := Died;
      } else if pause {
        var alive, _, _ := os.Call();
        end := if alive then End.Paused else Died;
      } else {
        ok := CallOut(CallExec, InUser);
        end := if ok then InProgram else Died;
      }
      if end != Died { AliveHasNotFailed(os.conf, os.run); }
    }
  }
}
