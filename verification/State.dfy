/**
 What one process leaves to another: the handler states, written to state.json and to the init
 pipe as JSON, and the descriptors that init inherits.
 */
module State {
  import opened Common
  import opened Json
  import opened Address

  /** A handler's state: options that are saved, possibly a nil map, and objects that are not. */
  datatype LLState = LLState(options: Option<map<string, string>>, objects: map<string, int>)

  const EMPTY := LLState(None, map[])

  /** The states of the three handlers. */
  datatype Record = Record(fs: LLState, net: LLState, exec: LLState)

  /** What is left of a state once it has been saved. */
  function Saved(s: LLState): LLState {
    s.(objects := map[])
  }

  function SavedRecord(r: Record): Record {
    Record(Saved(r.fs), Saved(r.net), Saved(r.exec))
  }

  // ---------------------------------------------------------------- encoding

  /** An order in which the keys of a map are written; encoding/json sorts them, which is one of these. */
  ghost predicate Lists(keys: seq<string>, m: map<string, string>) {
    && (forall i, j | 0 <= i < j < |keys| :: keys[i] != keys[j])
    && forall k :: k in keys <==> k in m
  }

  ghost predicate ListsOptions(keys: seq<string>, s: LLState) {
    s.options.Some? ==> Lists(keys, s.options.value)
  }

  function OptionMembers(keys: seq<string>, m: map<string, string>): (ms: seq<Member>)
    requires forall k | k in keys :: k in m
    ensures |ms| == |keys| && AllPrintable(ms)
    ensures forall i | 0 <= i < |keys| :: ms[i] == Member(keys[i], Str(m[keys[i]]))
  {
    seq(|keys|, i requires 0 <= i < |keys| => Member(keys[i], Str(m[keys[i]])))
  }

  function StateJson(s: LLState, keys: seq<string>): (j: Json)
    requires s.options.Some? ==> forall k | k in keys :: k in s.options.value
    ensures Printable(j)
  {
    Obj([Member("options", if s.options.None? then Null else Obj(OptionMembers(keys, s.options.value)))])
  }

  /** The order of the keys in each of the three options maps. */
  datatype Order = Order(fs: seq<string>, net: seq<string>, exec: seq<string>)

  ghost predicate Orders(o: Order, r: Record) {
    ListsOptions(o.fs, r.fs) && ListsOptions(o.net, r.net) && ListsOptions(o.exec, r.exec)
  }

  /** `execName` is the name of the last member: `execstate` in state.json, the field's own name on the pipe. */
  ghost function RecordText(r: Record, o: Order, execName: string): string
    requires Orders(o, r)
  {
    Print(Obj([Member("fsstate", StateJson(r.fs, o.fs)), Member("netstate", StateJson(r.net, o.net)),
               Member(execName, StateJson(r.exec, o.exec))]))
  }

  // ---------------------------------------------------------------- decoding

  /** A later member with the same name wins; a null leaves the empty string. */
  function ReadOptions(ms: seq<Member>, acc: map<string, string>): Option<map<string, string>> {
    if ms == [] then Some(acc)
    else match ms[0].value
      case Str(s) => ReadOptions(ms[1..], acc[ms[0].name := s])
      case Null => ReadOptions(ms[1..], acc[ms[0].name := ""])
      case _ => None
  }

  /** The last member of a name. */
  function Lookup(ms: seq<Member>, name: string): Option<Json> {
    var js := Named(ms, name);
    if js == [] then None else Some(js[|js| - 1])
  }

  function ReadState(j: Json): Option<LLState> {
    if !j.Obj? then None
    else match Lookup(j.members, "options")
      case None => Some(EMPTY)
      case Some(Null) => Some(EMPTY)
      case Some(Obj(ms)) => (
        var m := ReadOptions(ms, map[]);
        if m.None? then None else Some(LLState(m, map[])))
      case _ => None
  }

  function ReadMember(ms: seq<Member>, name: string): Option<LLState> {
    var j := Lookup(ms, name);
    if j.None? then Some(EMPTY) else ReadState(j.value)
  }

  function ReadRecord(text: string, execName: string): Option<Record> {
    var j := Parse(text);
    if j.None? || !j.value.Obj? then None
    else
      var ms := j.value.members;
      var fs, net, exec := ReadMember(ms, "fsstate"), ReadMember(ms, "netstate"), ReadMember(ms, execName);
      if fs.None? || net.None? || exec.None? then None else Some(Record(fs.value, net.value, exec.value))
  }

  // ---------------------------------------------------------------- what is saved is loaded

  lemma {:induction false} ReadListed(keys: seq<string>, m: map<string, string>, acc: map<string, string>)
    requires forall k | k in keys :: k in m
    ensures var r := ReadOptions(OptionMembers(keys, m), acc);
            && r.Some? && (forall k :: k in r.value <==> k in keys || k in acc)
            && forall k | k in r.value :: r.value[k] == if k in keys then m[k] else acc[k]
    decreases keys
  {
    if keys != [] {
      assert OptionMembers(keys, m)[1..] == OptionMembers(keys[1..], m);
      ReadListed(keys[1..], m, acc[keys[0] := m[keys[0]]]);
    }
  }

  /** One handler's state comes back without its objects. */
  lemma StateRoundTrip(s: LLState, keys: seq<string>)
    requires ListsOptions(keys, s)
    ensures ReadState(StateJson(s, keys)) == Some(Saved(s))
  {
    NamedDistinct(StateJson(s, keys).members, 0);
    if s.options.Some? {
      ReadListed(keys, s.options.value, map[]);
      assert ReadOptions(OptionMembers(keys, s.options.value), map[]).value == s.options.value;
    }
  }

  /** Three members, looked up by name. */
  lemma LookupOfThree(a: Member, b: Member, c: Member)
    requires a.name != b.name && a.name != c.name && b.name != c.name
    ensures var ms := [a, b, c];
            Lookup(ms, a.name) == Some(a.value) && Lookup(ms, b.name) == Some(b.value) && Lookup(ms, c.name) == Some(c.value)
  {
    NamedDistinct([a, b, c], 0);
    NamedDistinct([a, b, c], 1);
    NamedDistinct([a, b, c], 2);
  }

  /** The three states come back from the text, with their options, nil maps included, and without their objects. */
  lemma RecordRoundTrip(r: Record, o: Order, execName: string)
    requires Orders(o, r) && execName != "fsstate" && execName != "netstate"
    ensures ReadRecord(RecordText(r, o, execName), execName) == Some(SavedRecord(r))
  {
    var fs, net, exec := StateJson(r.fs, o.fs), StateJson(r.net, o.net), StateJson(r.exec, o.exec);
    PrintRoundTrip(Obj([Member("fsstate", fs), Member("netstate", net), Member(execName, exec)]));
    LookupOfThree(Member("fsstate", fs), Member("netstate", net), Member(execName, exec));
    StateRoundTrip(r.fs, o.fs);
    StateRoundTrip(r.net, o.net);
    StateRoundTrip(r.exec, o.exec);
  }

  /** One trip of a record through a text: which member name it used, and in which order keys were written. */
  datatype Trip = Trip(order: Order, pipe: bool)

  function ExecName(pipe: bool): string {
    if pipe then "ExecState" else "execstate"
  }

  /** A record after any number of trips through state.json and the init pipe. */
  ghost function Travelled(r: Record, trips: seq<Trip>): Option<Record>
    decreases trips
  {
    if trips == [] then Some(r)
    else if !Orders(trips[0].order, r) then None
    else
      var name := ExecName(trips[0].pipe);
      var next := ReadRecord(RecordText(r, trips[0].order, name), name);
      if next.None? then None else Travelled(next.value, trips[1..])
  }

  /** However often it is saved, loaded and passed on, a record keeps its options and only its options. */
  lemma {:induction false} OptionsTravel(r: Record, trips: seq<Trip>)
    requires trips != [] && forall i | 0 <= i < |trips| :: Orders(trips[i].order, r)
    ensures Travelled(r, trips) == Some(SavedRecord(r))
    decreases trips
  {
    RecordRoundTrip(r, trips[0].order, ExecName(trips[0].pipe));
    var next := SavedRecord(r);
    if |trips| > 1 {
      forall i | 0 <= i < |trips[1..]| ensures Orders(trips[1..][i].order, next) {
        assert Orders(trips[i + 1].order, r);
      }
      OptionsTravel(next, trips[1..]);
    } else {
      assert trips[1..] == [];
    }
  }

  // ---------------------------------------------------------------- inherited descriptors

  datatype File = InitPipe | RootDir | Extra(n: nat)

  /** Standard input, output and error come first. */
  const STDIO_FD_COUNT := 3

  /** A slice's length is a 64-bit integer, and so are the numbers made from it. */
  const MAX_FILES := 0x7FFF_FFFF_FFFF_FFF0

  const INIT_PIPE := "_LIBCONTAINER_INITPIPE"
  const STATE_DIR := "_LIBCONTAINER_STATEDIR"

  /** The command that becomes init. */
  class Command {
    var extraFiles: seq<File>
    var env: seq<string>

    /** `commandTemplate`: the process's own files, then the pipe. */
    constructor Template(own: seq<File>, childPipe: File)
      requires |own| < MAX_FILES
      ensures extraFiles == own + [childPipe]
      ensures Inherited(env, extraFiles, INIT_PIPE) == Some(childPipe)
      ensures |env| == 1 && Value(env[0], INIT_PIPE).Some?
    {
      extraFiles := own + [childPipe];
      env := [INIT_PIPE + "=" + Decimal(STDIO_FD_COUNT + |own + [childPipe]| - 1)];
      new;
      ValueOf(INIT_PIPE, Decimal(STDIO_FD_COUNT + |own|));
      NumberOf(|own|);
    }

    /** `start` adds the container's directory. */
    method AttachRoot(rootDir: File)
      requires 0 < |extraFiles| <= MAX_FILES && |env| == 1 && Value(env[0], INIT_PIPE).Some?
      requires Inherited(env, extraFiles, INIT_PIPE).Some?
      modifies this
      ensures extraFiles == old(extraFiles) + [rootDir]
      ensures Inherited(env, extraFiles, INIT_PIPE) == old(Inherited(env, extraFiles, INIT_PIPE))
      ensures Inherited(env, extraFiles, STATE_DIR) == Some(rootDir)
    {
      ghost var n := |extraFiles|;
      extraFiles := extraFiles + [rootDir];
      env := env + [STATE_DIR + "=" + Decimal(STDIO_FD_COUNT + |extraFiles| - 1)];
      OtherName(env[0]);
      NumberOf(n);
      SecondOfTwo(env[0], Decimal(STDIO_FD_COUNT + n));
      assert env == [env[0], STATE_DIR + "=" + Decimal(STDIO_FD_COUNT + n)];
    }
  }

  /** The value of an environment entry with this name. */
  function Value(entry: string, name: string): Option<string> {
    if name + "=" <= entry then Some(entry[|name| + 1..]) else None
  }

  function Getenv(env: seq<string>, name: string): string {
    if env == [] then ""
    else if Value(env[0], name).Some? then Value(env[0], name).value
    else Getenv(env[1..], name)
  }

  /** The file init gets for a descriptor it is told by name. */
  function Inherited(env: seq<string>, files: seq<File>, name: string): Option<File> {
    var fd := Atoi(Getenv(env, name));
    if fd.Some? && STDIO_FD_COUNT <= fd.value < STDIO_FD_COUNT + |files| then Some(files[fd.value - STDIO_FD_COUNT])
    else None
  }

  lemma ValueOf(name: string, v: string)
    ensures Value(name + "=" + v, name) == Some(v)
  {
  }

  lemma OtherName(entry: string)
    requires Value(entry, INIT_PIPE).Some?
    ensures Value(entry, STATE_DIR).None?
  {
    assert (INIT_PIPE + "=")[14] == 'I' && (STATE_DIR + "=")[14] == 'S';
  }

  lemma SecondOfTwo(entry: string, v: string)
    requires Value(entry, STATE_DIR).None?
    ensures Getenv([entry, STATE_DIR + "=" + v], STATE_DIR) == v
  {
    ValueOf(STATE_DIR, v);
    assert [entry, STATE_DIR + "=" + v][1..] == [STATE_DIR + "=" + v];
  }

  lemma NumberOf(n: nat)
    requires n <= MAX_FILES
    ensures Atoi(Decimal(STDIO_FD_COUNT + n)) == Some(STDIO_FD_COUNT + n)
  {
    AtoiDecimal(STDIO_FD_COUNT + n);
  }
}
