/**
 The commands of one host, one after the other, as they use the factory and its containers: each of
 them is a few of the operations whose runs keep the books, so what holds of those runs holds here.
 */
module Session {
  import opened Common
  import opened State
  import opened Resources
  import opened Conservation

  // ---------------------------------------------------------------- runs joined

  lemma {:induction false} RunsJoin(s: Store, b: Books, root: Path, ops: seq<Op>, more: seq<Op>)
    ensures After(s, root, ops + more) == After(After(s, root, ops), root, more)
    ensures BooksAfter(b, s, root, ops + more) == BooksAfter(BooksAfter(b, s, root, ops), After(s, root, ops), root, more)
    ensures OwnsAll(b, s, root, ops + more) <==>
            OwnsAll(b, s, root, ops) && OwnsAll(BooksAfter(b, s, root, ops), After(s, root, ops), root, more)
    ensures TidyAll(b, s, root, ops + more) <==>
            TidyAll(b, s, root, ops) && TidyAll(BooksAfter(b, s, root, ops), After(s, root, ops), root, more)
    decreases |ops|
  {
    if ops == [] {
      assert ops + more == more;
    } else {
      assert (ops + more)[1..] == ops[1..] + more;
      RunsJoin(Do(s, root, ops[0]), Keep(b, s, root, ops[0]), root, ops[1..], more);
    }
  }

  // ---------------------------------------------------------------- commands

  datatype Command =
    | CreateCmd(id: string, pause: bool, create: Option<CreateCall>, starts: bool, undo: Option<DestroyCall>)
    | DeleteCmd(id: string, destroy: Option<DestroyCall>)

  /** The operations a command consists of, on the host it finds. */
  function OpsOf(s: Store, root: Path, c: Command): seq<Op> {
    match c
    case CreateCmd(id, pause, fault, starts, undo) =>
      var first := CreateOp(id, pause, fault);
      (match DoCreate(s, root, id, pause, fault).1
       case Made(r) =>
         var p := ContainerRoot(root, id);
         [first, if starts then SaveOp(p, r) else DestroyOp(p, r, undo)]
       case _ => [first])
    case DeleteCmd(id, fault) => [DeleteOp(id, fault)]
  }

  function AllOps(s: Store, root: Path, cs: seq<Command>): seq<Op>
    decreases |cs|
  {
    if cs == [] then []
    else
      var ops := OpsOf(s, root, cs[0]);
      ops + AllOps(After(s, root, ops), root, cs[1..])
  }

  /** What to look at before a command to know that it will leave nothing lying about. */
  predicate TidyCommand(b: Books, s: Store, root: Path, c: Command) {
    match c
    case CreateCmd(id, pause, fault, starts, undo) =>
      || !Available(s, root, id) || fault == Some(Mkdir)
      || (CanMake(s, root, id, pause, fault) && (starts || undo != Some(DelLink)))
    case DeleteCmd(id, fault) => Tidy(b, s, root, DeleteOp(id, fault))
  }

  /** The same for each of some commands, on the host as those before it leave it. */
  predicate TidyCommands(b: Books, s: Store, root: Path, cs: seq<Command>)
    decreases |cs|
  {
    cs == [] ||
    (var ops := OpsOf(s, root, cs[0]);
     TidyCommand(b, s, root, cs[0]) && TidyCommands(BooksAfter(b, s, root, ops), After(s, root, ops), root, cs[1..]))
  }

  lemma RunOfOne(b: Books, s: Store, root: Path, op: Op)
    ensures After(s, root, [op]) == Do(s, root, op) && BooksAfter(b, s, root, [op]) == Keep(b, s, root, op)
    ensures TidyAll(b, s, root, [op]) <==> Tidy(b, s, root, op)
    ensures OwnsAll(b, s, root, [op]) <==> Owns(b, op)
  {
    assert [op][1..] == [];
  }

  lemma RunOfTwo(b: Books, s: Store, root: Path, x: Op, y: Op)
    ensures After(s, root, [x, y]) == Do(Do(s, root, x), root, y)
    ensures BooksAfter(b, s, root, [x, y]) == Keep(Keep(b, s, root, x), Do(s, root, x), root, y)
    ensures TidyAll(b, s, root, [x, y]) <==> Tidy(b, s, root, x) && Tidy(Keep(b, s, root, x), Do(s, root, x), root, y)
    ensures OwnsAll(b, s, root, [x, y]) <==> Owns(b, x) && Owns(Keep(b, s, root, x), y)
  {
    assert [x] + [y] == [x, y];
    RunsJoin(s, b, root, [x], [y]);
    RunOfOne(b, s, root, x);
    RunOfOne(Keep(b, s, root, x), Do(s, root, x), root, y);
  }

  /** Nothing is in the way of a new container: its id, directory and tap name are free, and no call it needs fails. */
  predicate CanMake(s: Store, root: Path, id: string, pause: bool, fault: Option<CreateCall>) {
    Available(s, root, id) && TapFree(s, id) && (fault.None? || (fault == Some(MakeIso) && pause))
  }

  /** When `Create` makes a container, by what can be looked up before. */
  lemma MadeWhen(s: Store, root: Path, id: string, pause: bool, fault: Option<CreateCall>)
    ensures DoCreate(s, root, id, pause, fault).1.Made? <==> CanMake(s, root, id, pause, fault)
  {
    TapNameMeaning(id, id);
    if fault.Some? {
      match fault.value
      case Mkdir | ChownRoot | MkFifo | ChownFifo =>
      case MakeIso | SetupTun | AddLink | LinkUp =>
    }
  }

  /** A command's tidiness is that of its operations. */
  lemma TidyCommandOps(b: Books, s: Store, root: Path, c: Command)
    ensures TidyCommand(b, s, root, c) <==> TidyAll(b, s, root, OpsOf(s, root, c))
  {
    match c
    case CreateCmd(id, pause, fault, starts, undo) =>
      var first := CreateOp(id, pause, fault);
      MadeWhen(s, root, id, pause, fault);
      RunOfOne(b, s, root, first);
      if DoCreate(s, root, id, pause, fault).1.Made? { RunOfTwo(b, s, root, first, OpsOf(s, root, c)[1]); }
    case DeleteCmd(id, fault) => RunOfOne(b, s, root, DeleteOp(id, fault));
  }

  lemma {:induction false} TidyCommandsOps(b: Books, s: Store, root: Path, cs: seq<Command>)
    ensures TidyCommands(b, s, root, cs) <==> TidyAll(b, s, root, AllOps(s, root, cs))
    decreases |cs|
  {
    if cs != [] {
      var ops := OpsOf(s, root, cs[0]);
      TidyCommandOps(b, s, root, cs[0]);
      RunsJoin(s, b, root, ops, AllOps(After(s, root, ops), root, cs[1..]));
      TidyCommandsOps(BooksAfter(b, s, root, ops), After(s, root, ops), root, cs[1..]);
    }
  }

  class Runtime {
    const host: Host
    const factory: NablaFactory
    ghost const foreign: set<string>

    /** The operations made so far, on a host that had only its own taps. */
    ghost var ops: seq<Op>

    ghost function Start(): Store {
      Store(map[], foreign)
    }

    ghost function Ledger(): Books
      reads this
    {
      BooksAfter(NEW_BOOKS, Start(), factory.root, ops)
    }

    ghost predicate Valid()
      reads this, host
    {
      && factory.host == host
      && host.View() == After(Start(), factory.root, ops) && OwnsAll(NEW_BOOKS, Start(), factory.root, ops)
    }

    constructor (root: Path, taps: set<string>)
      ensures Valid() && fresh(host) && factory.root == root && foreign == taps && ops == []
    {
      var h := new Host(Store(map[], taps));
      host, foreign, ops := h, taps, [];
      factory := new NablaFactory(root, h);
    }

    /** The books balance, whatever has been run. */
    lemma Balances()
      requires Valid()
      ensures Balanced(host.View(), Ledger(), foreign)
    {
      assert Balanced(Start(), NEW_BOOKS, foreign);
      RunBalances(Start(), NEW_BOOKS, foreign, factory.root, ops);
    }

    lemma Houses()
      requires Valid()
      ensures Housed(factory.root, host.View())
    {
      RunHouses(Start(), factory.root, ops);
    }

    /** An operation has been made on the host. */
    ghost method Note(op: Op, before: Store)
      requires factory.host == host && before == After(Start(), factory.root, ops)
      requires OwnsAll(NEW_BOOKS, Start(), factory.root, ops) && Owns(Ledger(), op)
      requires host.View() == Do(before, factory.root, op)
      modifies this`ops
      ensures Valid() && ops == old(ops) + [op] && Ledger() == Keep(old(Ledger()), before, factory.root, op)
    {
      RunsJoin(Start(), NEW_BOOKS, factory.root, ops, [op]);
      RunOfOne(Ledger(), before, factory.root, op);
      ops := ops + [op];
    }

    /** The factory's `Create`. */
    method TryCreate(id: string, pause: bool, fault: Option<CreateCall>) returns (c: Option<Container>)
      requires Valid()
      modifies this, host
      ensures Valid() && ops == old(ops) + [CreateOp(id, pause, fault)]
      ensures var (t, r) := DoCreate(old(host.View()), factory.root, id, pause, fault);
              && host.View() == t && (c.Some? <==> r.Made?)
              && (c.Some? ==> fresh(c.value) && c.value.host == host && c.value.record == r.record
                              && c.value.root == ContainerRoot(factory.root, id))
      ensures Ledger() == Keep(old(Ledger()), old(host.View()), factory.root, CreateOp(id, pause, fault))
    {
      ghost var before := host.View();
      var r;
      c, r := factory.Create(id, pause, fault);
      Note(CreateOp(id, pause, fault), before);
    }

    /**
     The create command: the factory's `Create`, and then, as `start` succeeds or not, the save of
     the state or the destroy of what was made.
     */
    method CreateCommand(id: string, pause: bool, fault: Option<CreateCall>, starts: bool, undo: Option<DestroyCall>)
      returns (ok: bool)
      requires Valid()
      modifies this, host
      ensures Valid()
      ensures ops == old(ops) + OpsOf(old(host.View()), factory.root, CreateCmd(id, pause, fault, starts, undo))
      ensures ok <==> starts && CanMake(old(host.View()), factory.root, id, pause, fault)
      ensures ok ==> Registered(id, pause) && Ledger().live == old(Ledger()).live[ContainerRoot(factory.root, id) := ("tap" + id)[..15]]
      ensures !starts && undo.None? && CanMake(old(host.View()), factory.root, id, pause, fault) ==>
                host.View() == old(host.View())
    {
      ghost var before, b := host.View(), Ledger();
      Houses();
      MadeWhen(before, factory.root, id, pause, fault);
      var c := TryCreate(id, pause, fault);
      if c.None? { return false; }
      CreateOwns(before, b, factory.root, id, pause, fault);
      Conclude(c.value, starts, undo);
      if starts {
        CreateRegisters(before, b, factory.root, id, pause, fault);
      } else {
        DestroyUndoesCreate(before, factory.root, id, pause, fault);
      }
      return starts;
    }

    /** The end of a create: the save of what started, or the undo of what did not. */
    method Conclude(c: Container, starts: bool, undo: Option<DestroyCall>)
      requires Valid() && c.host == host && c.root in Ledger().live && TapOf(c.record) == Some(Ledger().live[c.root])
      modifies this, host, c
      ensures Valid()
      ensures starts ==> ops == old(ops) + [SaveOp(c.root, old(c.record))] && Ledger() == old(Ledger())
      ensures starts ==> host.View() == DoSave(old(host.View()), c.root, old(c.record))
      ensures !starts ==> ops == old(ops) + [DestroyOp(c.root, old(c.record), undo)]
      ensures !starts ==> host.View() == DoDestroy(old(host.View()), c.root, old(c.record), undo).0
    {
      if starts { Save(c); } else { Undo(c, undo); }
    }

    /** A live container's state is saved. */
    method Save(c: Container)
      requires Valid() && c.host == host && Owns(Ledger(), SaveOp(c.root, c.record))
      modifies this, host
      ensures Valid() && ops == old(ops) + [SaveOp(c.root, c.record)] && Ledger() == old(Ledger())
      ensures host.View() == DoSave(old(host.View()), c.root, c.record)
    {
      ghost var before := host.View();
      c.SaveState();
      Note(SaveOp(c.root, c.record), before);
    }

    /** What was made for a container whose start failed is destroyed. */
    method Undo(c: Container, undo: Option<DestroyCall>)
      requires Valid() && c.host == host && Owns(Ledger(), DestroyOp(c.root, c.record, undo))
      modifies this, host, c
      ensures Valid() && ops == old(ops) + [DestroyOp(c.root, old(c.record), undo)]
      ensures host.View() == DoDestroy(old(host.View()), c.root, old(c.record), undo).0
    {
      ghost var before, r := host.View(), c.record;
      var _ := c.Destroy(undo);
      Note(DestroyOp(c.root, r, undo), before);
    }

    /** The container of this id is live, with the tap of its id, and state.json names that tap and the disk in its directory. */
    ghost predicate Registered(id: string, pause: bool)
      reads this, host
    {
      && |id| >= 12
      && var p, tap := ContainerRoot(factory.root, id), ("tap" + id)[..15];
         && p in Ledger().live && Ledger().live[p] == tap && tap in host.taps
         && p in host.dirs && host.dirs[p] == Some(SavedAs(p, tap, pause))
    }

    /**
     The delete command, for any id whose container's init is gone: `Load` and `Destroy`, or, where
     there is no state.json, the removal of whatever the id's path names.
     */
    method DeleteCommand(id: string, fault: Option<DestroyCall>) returns (ok: bool)
      requires Valid()
      modifies this, host
      ensures Valid()
      ensures ops == old(ops) + OpsOf(old(host.View()), factory.root, DeleteCmd(id, fault))
      ensures Spares(old(host.View()), factory.root, DeleteOp(id, fault)) <==>
              OnlyOf(old(host.View()), host.View(), old(Ledger()), ContainerRoot(factory.root, id))
      ensures ok <==> id != "" && Loads(old(host.View()), ContainerRoot(factory.root, id))
      ensures ok && fault.None? ==> Unregistered(id) && Ledger().live == old(Ledger().live) - {ContainerRoot(factory.root, id)}
    {
      ghost var before := host.View();
      var p := ContainerRoot(factory.root, id);
      Balances();
      Houses();
      DeleteEnds(before, Ledger(), foreign, factory.root, id, fault);
      if id == "" {
        Note(DeleteOp(id, fault), before);
        return false;
      }
      var c := factory.Load(id);
      if c.None? {
        host.dirs := host.dirs - Swept(host.View(), p, fault);
      } else {
        var _ := c.value.Destroy(fault);
      }
      Note(DeleteOp(id, fault), before);
      return c.Some?;
    }

    /** Nothing is left of the container of this id. */
    ghost predicate Unregistered(id: string)
      reads this, host
    {
      && ContainerRoot(factory.root, id) !in host.dirs && ContainerRoot(factory.root, id) !in Ledger().live
      && (TapName(LastOf(ContainerRoot(factory.root, id))).Some? ==>
            TapName(LastOf(ContainerRoot(factory.root, id))).value !in host.taps)
    }

    /** The run has come from `was` by these operations. */
    lemma Since(was: seq<Op>, more: seq<Op>, s: Store)
      requires Valid() && ops == was + more && s == After(Start(), factory.root, was)
      requires OwnsAll(NEW_BOOKS, Start(), factory.root, was)
      ensures var b := BooksAfter(NEW_BOOKS, Start(), factory.root, was);
              && host.View() == After(s, factory.root, more) && Ledger() == BooksAfter(b, s, factory.root, more)
              && OwnsAll(b, s, factory.root, more)
              && Balanced(s, b, foreign) && Housed(factory.root, s)
    {
      RunsJoin(Start(), NEW_BOOKS, factory.root, was, more);
      RunBalances(Start(), NEW_BOOKS, foreign, factory.root, was);
      RunHouses(Start(), factory.root, was);
    }

    /**
     Any commands, one after the other.  What is done is what they ask for; the books balance after
     them; and from an exact host it stays exact at every point if and only if each of them was tidy
     on the host it found.
     */
    method RunAll(commands: seq<Command>)
      requires Valid()
      modifies this, host
      ensures Valid() && Balanced(host.View(), Ledger(), foreign)
      ensures ops == old(ops) + AllOps(old(host.View()), factory.root, commands)
      ensures host.View() == After(old(host.View()), factory.root, AllOps(old(host.View()), factory.root, commands))
      ensures Exact(old(host.View()), old(Ledger()), foreign) ==>
                (TidyCommands(old(Ledger()), old(host.View()), factory.root, commands) <==>
                 ExactThroughout(old(host.View()), old(Ledger()), foreign, factory.root,
                                 AllOps(old(host.View()), factory.root, commands)))
    {
      ghost var s, was, b := host.View(), ops, Ledger();
      MakeAll(commands);
      Balances();
      Since(was, AllOps(s, factory.root, commands), s);
      ExactWhenTidy(s, b, foreign, factory.root, commands);
    }

    method MakeAll(commands: seq<Command>)
      requires Valid()
      modifies this, host
      ensures Valid() && ops == old(ops) + AllOps(old(host.View()), factory.root, commands)
    {
      ghost var was, root := ops, factory.root;
      ghost var all := AllOps(host.View(), root, commands);
      assert commands[0..] == commands;
      for i := 0 to |commands|
        invariant Valid() && ops + AllOps(host.View(), root, commands[i..]) == was + all
      {
        ghost var before, done := host.View(), ops;
        Make(commands[i]);
        NextCommand(before, root, commands, i);
        Regroup(done, OpsOf(before, root, commands[i]), AllOps(host.View(), root, commands[i + 1..]));
      }
    }

    method Make(c: Command)
      requires Valid()
      modifies this, host
      ensures Valid() && ops == old(ops) + OpsOf(old(host.View()), factory.root, c)
      ensures host.View() == After(old(host.View()), factory.root, OpsOf(old(host.View()), factory.root, c))
    {
      ghost var before, done := host.View(), ops;
      match c {
        case CreateCmd(id, pause, fault, starts, undo) => var _ := CreateCommand(id, pause, fault, starts, undo);
        case DeleteCmd(id, fault) => var _ := DeleteCommand(id, fault);
      }
      Since(done, OpsOf(before, factory.root, c), before);
    }
  }

  lemma Regroup(a: seq<Op>, b: seq<Op>, c: seq<Op>)
    ensures a + (b + c) == (a + b) + c
  {
  }

  lemma NextCommand(s: Store, root: Path, cs: seq<Command>, i: nat)
    requires i < |cs|
    ensures var ops := OpsOf(s, root, cs[i]);
            AllOps(s, root, cs[i..]) == ops + AllOps(After(s, root, ops), root, cs[i + 1..])
  {
    assert cs[i..][0] == cs[i] && cs[i..][1..] == cs[i + 1..];
  }

  /** From an exact host it stays exact if and only if each of the commands was tidy on the host it found. */
  lemma ExactWhenTidy(s: Store, b: Books, foreign: set<string>, root: Path, cs: seq<Command>)
    requires Balanced(s, b, foreign) && Housed(root, s) && OwnsAll(b, s, root, AllOps(s, root, cs))
    ensures Exact(s, b, foreign) ==>
              (TidyCommands(b, s, root, cs) <==> ExactThroughout(s, b, foreign, root, AllOps(s, root, cs)))
  {
    if Exact(s, b, foreign) {
      ExactMeansNoStrays(s, b, foreign);
      TidyRunExactly(s, b, foreign, root, AllOps(s, root, cs));
      TidyCommandsOps(b, s, root, cs);
    }
  }

  /** What is known of a container once it is made and its state is saved. */
  /** What state.json says of a container without a disk of its own, or with one in its directory. */
  function SavedAs(p: Path, tap: string, pause: bool): Record {
    Record(LLState(if pause then None else Some(map["FsPath" := PathText(p + ["rootfs.iso"])]), map[]),
           LLState(Some(map["TapName" := tap]), map[]), LLState(None, map[]))
  }

  /** A container that has been made may be saved and destroyed. */
  lemma CreateOwns(s: Store, b: Books, root: Path, id: string, pause: bool, fault: Option<CreateCall>)
    requires DoCreate(s, root, id, pause, fault).1.Made?
    ensures var made, c := DoCreate(s, root, id, pause, fault).1, Keep(b, s, root, CreateOp(id, pause, fault));
            var p := ContainerRoot(root, id);
            p in c.live && TapOf(made.record) == Some(c.live[p])
  {
  }

  lemma CreateRegisters(s: Store, b: Books, root: Path, id: string, pause: bool, fault: Option<CreateCall>)
    requires DoCreate(s, root, id, pause, fault).1.Made?
    ensures var (t, made) := DoCreate(s, root, id, pause, fault);
            var p, c := ContainerRoot(root, id), Keep(b, s, root, CreateOp(id, pause, fault));
            var u := DoSave(t, p, made.record);
            && |id| >= 12 && TapOf(made.record) == Some(("tap" + id)[..15])
            && c.live == b.live[p := ("tap" + id)[..15]]
            && p in u.dirs && u.dirs[p] == Some(SavedAs(p, ("tap" + id)[..15], pause)) && ("tap" + id)[..15] in u.taps
  {
    TapNameMeaning(id, id);
  }

  function LastOf(p: Path): string {
    if p == [] then "" else p[|p| - 1]
  }

  /** A delete that loads its container and does not fail leaves nothing of it. */
  lemma DeleteEnds(s: Store, b: Books, foreign: set<string>, root: Path, id: string, fault: Option<DestroyCall>)
    requires Balanced(s, b, foreign) && Housed(root, s)
    ensures var p, t := ContainerRoot(root, id), Do(s, root, DeleteOp(id, fault));
            && (Spares(s, root, DeleteOp(id, fault)) <==> OnlyOf(s, t, b, p))
            && (id != "" && Loads(s, p) && fault.None? ==>
                  && p !in t.dirs && (TapName(LastOf(p)).Some? ==> TapName(LastOf(p)).value !in t.taps)
                  && Keep(b, s, root, DeleteOp(id, fault)).live == b.live - {p})
  {
    var p := ContainerRoot(root, id);
    EndsOnlyItself(s, b, foreign, root, DeleteOp(id, fault), p);
    if id != "" && Loads(s, p) && fault.None? { NothingLeft(s, b, foreign, root, p); }
  }

  lemma NothingLeft(s: Store, b: Books, foreign: set<string>, root: Path, p: Path)
    requires Balanced(s, b, foreign) && Housed(root, s) && Loads(s, p)
    ensures var (t, d) := DoDestroy(s, p, s.dirs[p].value, None);
            && p !in t.dirs && (TapName(LastOf(p)).Some? ==> TapName(LastOf(p)).value !in t.taps)
            && BookDestroy(b, s, p, d).live == b.live - {p}
  {
    WhenDestroyed(s, b, foreign, p, s.dirs[p].value, None);
    TreeOfChild(root, s, p);
    assert Tree(s, p) == {p};
    assert TapName(p[|p| - 1]) == Some(b.live[p]);
  }
}
