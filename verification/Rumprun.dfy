/** The unikernel's argument: a JSON object whose `env` member is repeated, spliced together from text. */
module Rumprun {
  import opened Common
  import opened Json

  datatype NetArgs = NetArgs(ifName: string, cloner: string, kind: string, how: string,
                             addr: string, mask: string, gw: string)

  datatype BlockArgs = BlockArgs(source: string, path: string, fstype: string, mount: string)

  /** The value of a `RumpArgs` object. */
  datatype Args = Args(cmdline: string, net: NetArgs, blk: Option<BlockArgs>, env: seq<string>, cwd: string, mem: string)

  // ---------------------------------------------------------------- structs as JSON

  /** A string field that is left out when it is empty. */
  function OmitEmpty(name: string, s: string): seq<Member> {
    if s == "" then [] else [Member(name, Str(s))]
  }

  function NetJson(n: NetArgs): (j: Json)
    ensures Printable(j)
  {
    Obj([Member("if", Str(n.ifName)), Member("cloner", Str(n.cloner)), Member("type", Str(n.kind)),
         Member("method", Str(n.how)), Member("addr", Str(n.addr)), Member("mask", Str(n.mask)),
         Member("gw", Str(n.gw))])
  }

  function BlockJson(b: BlockArgs): (j: Json)
    ensures Printable(j)
  {
    Obj([Member("source", Str(b.source)), Member("path", Str(b.path)),
         Member("fstype", Str(b.fstype)), Member("mountpoint", Str(b.mount))])
  }

  function Strings(ss: seq<string>): (j: Json)
    ensures Printable(j)
  {
    Arr(seq(|ss|, i requires 0 <= i < |ss| => Str(ss[i])))
  }

  /** The members encoding/json writes for the struct, in declared order. */
  function Fields(a: Args): (ms: seq<Member>)
    ensures ms != [] && AllPrintable(ms)
  {
    [Member("cmdline", Str(a.cmdline)), Member("net", NetJson(a.net))]
    + (if a.blk.None? then [] else [Member("blk", BlockJson(a.blk.value))])
    + (if a.env == [] then [] else [Member("env", Strings(a.env))])
    + OmitEmpty("cwd", a.cwd)
    + OmitEmpty("mem", a.mem)
  }

  /** One `env` member for each variable. */
  function EnvMembers(env: seq<string>): (ms: seq<Member>)
    ensures |ms| == |env| && forall i | 0 <= i < |env| :: ms[i] == Member("env", Str(env[i]))
    ensures AllPrintable(ms)
  {
    seq(|env|, i requires 0 <= i < |env| => Member("env", Str(env[i])))
  }

  /** What the unikernel is meant to be told. */
  function Meaning(a: Args): Json {
    Obj(EnvMembers(a.env) + Fields(a.(env := [])))
  }

  // ---------------------------------------------------------------- what a reader finds under each name

  /** There is one member of this name, and it is this text. */
  predicate HasText(ms: seq<Member>, name: string, s: string) {
    Named(ms, name) == [Str(s)]
  }

  predicate TellsNet(j: Json, n: NetArgs) {
    && j.Obj?
    && HasText(j.members, "if", n.ifName) && HasText(j.members, "cloner", n.cloner)
    && HasText(j.members, "type", n.kind) && HasText(j.members, "method", n.how)
    && HasText(j.members, "addr", n.addr) && HasText(j.members, "mask", n.mask) && HasText(j.members, "gw", n.gw)
  }

  predicate TellsBlock(j: Json, b: BlockArgs) {
    && j.Obj?
    && HasText(j.members, "source", b.source) && HasText(j.members, "path", b.path)
    && HasText(j.members, "fstype", b.fstype) && HasText(j.members, "mountpoint", b.mount)
  }

  /** The object has the arguments under their names: every variable in order, and what is empty not at all. */
  predicate Tells(j: Json, a: Args) {
    && j.Obj?
    && var ms := j.members;
       && HasText(ms, "cmdline", a.cmdline)
       && |Named(ms, "net")| == 1 && TellsNet(Named(ms, "net")[0], a.net)
       && |Named(ms, "blk")| == (if a.blk.Some? then 1 else 0)
       && (a.blk.Some? ==> TellsBlock(Named(ms, "blk")[0], a.blk.value))
       && |Named(ms, "env")| == |a.env| && (forall i | 0 <= i < |a.env| :: Named(ms, "env")[i] == Str(a.env[i]))
       && Named(ms, "cwd") == (if a.cwd == "" then [] else [Str(a.cwd)])
       && Named(ms, "mem") == (if a.mem == "" then [] else [Str(a.mem)])
  }

  // ---------------------------------------------------------------- the splice

  /** The text spliced in for a variable: its member, if it has any, and a comma. */
  function Chunk(v: string): string {
    PrintMembers(OmitEmpty("env", v)) + [',']
  }

  function EnvText(env: seq<string>): string {
    if env == [] then [] else EnvText(env[..|env| - 1]) + Chunk(env[|env| - 1])
  }

  function SplicedText(a: Args): string {
    ['{'] + EnvText(a.env) + PrintMembers(Fields(a.(env := []))) + ['}']
  }

  class RumpArgs {
    var cmdline: string
    var net: NetArgs
    var blk: Option<BlockArgs>
    var env: seq<string>
    var cwd: string
    var mem: string

    function View(): Args
      reads this
    {
      Args(cmdline, net, blk, env, cwd, mem)
    }

    constructor (cmdline: string, net: NetArgs, cwd: string)
      ensures View() == Args(cmdline, net, None, [], cwd, "")
    {
      this.cmdline, this.net, this.blk, this.env, this.cwd, this.mem := cmdline, net, None, [], cwd, "";
    }

    /** MarshalJSON, which takes the variables out of the struct while it prints the rest. */
    method MarshalJSON() returns (bytes: string)
      modifies this
      ensures View() == old(View())
      ensures bytes == SplicedText(View())
      ensures "" !in env ==> Parse(bytes) == Some(Meaning(View())) && Tells(Parse(bytes).value, View())
      ensures "" in env ==> Parse(bytes) == None
    {
      var vars := env;
      var addString := [];
      for i := 0 to |vars|
        invariant addString == EnvText(vars[..i])
        invariant View() == old(View())
      {
        var vb := Print(Obj(OmitEmpty("env", vars[i])));
        InsideBraces('{', PrintMembers(OmitEmpty("env", vars[i])), '}');
        addString := addString + (vb[1..|vb| - 1] + [',']);
        assert vars[..i + 1][..i] == vars[..i];
      }
      assert vars[..|vars|] == vars;
      env := [];
      var otherBytes := Print(Obj(Fields(View())));
      env := vars;
      bytes := otherBytes[..1] + addString + otherBytes[1..];
      InsideBraces('{', PrintMembers(Fields(View().(env := []))), '}');
      Assoc3(['{'] + addString, PrintMembers(Fields(View().(env := []))), ['}']);
      SpliceMeaning(View());
    }
  }

  // ---------------------------------------------------------------- what the splice means

  lemma InsideBraces(c: char, p: string, d: char)
    ensures ([c] + p + [d])[1..|p| + 1] == p
    ensures ([c] + p + [d])[..1] == [c] && ([c] + p + [d])[1..] == p + [d]
  {
  }

  lemma {:induction false} PrintMembersAppend(a: seq<Member>, b: seq<Member>)
    requires a != [] && b != [] && AllPrintable(a) && AllPrintable(b)
    ensures PrintMembers(a + b) == PrintMembers(a) + [','] + PrintMembers(b)
    decreases a
  {
    if |a| == 1 {
      assert (a + b)[1..] == b;
    } else {
      assert (a + b)[1..] == a[1..] + b;
      PrintMembersAppend(a[1..], b);
      var p, q, r := PrintMember(a[0]), PrintMembers(a[1..]), PrintMembers(b);
      Beside(p, ',', q, [','] + r);
      Assoc3(p + [','] + q, [','], r);
      Assoc3(q, [','], r);
    }
  }

  lemma ChunkJoins(v: string, rest: seq<Member>)
    requires v != "" && rest != [] && AllPrintable(rest)
    ensures Chunk(v) + PrintMembers(rest) == PrintMembers([Member("env", Str(v))] + rest)
  {
    PrintMembersAppend([Member("env", Str(v))], rest);
  }

  lemma EnvMembersLast(env: seq<string>, rest: seq<Member>)
    requires env != []
    ensures var n := |env| - 1;
            EnvMembers(env) + rest == EnvMembers(env[..n]) + ([Member("env", Str(env[n]))] + rest)
  {
  }

  /** Without empty variables the spliced text is exactly the text of the object with repeated members. */
  lemma {:induction false} SpliceIsPrint(env: seq<string>, rest: seq<Member>)
    requires "" !in env && rest != [] && AllPrintable(rest)
    ensures EnvText(env) + PrintMembers(rest) == PrintMembers(EnvMembers(env) + rest)
    decreases |env|
  {
    if env == [] {
      assert EnvMembers(env) + rest == rest;
    } else {
      var n := |env| - 1;
      ChunkJoins(env[n], rest);
      SpliceIsPrint(env[..n], [Member("env", Str(env[n]))] + rest);
      EnvMembersLast(env, rest);
      Assoc3(EnvText(env[..n]), Chunk(env[n]), PrintMembers(rest));
    }
  }

  /** The text of the variables, read from the front. */
  lemma {:induction false} EnvTextFront(env: seq<string>)
    requires env != []
    ensures EnvText(env) == Chunk(env[0]) + EnvText(env[1..])
    decreases |env|
  {
    var n := |env| - 1;
    if n == 0 {
      assert env[..0] == [] && env[1..] == [];
    } else {
      EnvTextFront(env[..n]);
      assert env[..n][1..] == env[1..][..n - 1];
      Assoc3(Chunk(env[0]), EnvText(env[1..][..n - 1]), Chunk(env[n]));
    }
  }

  /** The `env` members, and no others, are found among the variables. */
  lemma {:induction false} NamedEnv(env: seq<string>, name: string)
    ensures if name != "env" then Named(EnvMembers(env), name) == []
            else |Named(EnvMembers(env), name)| == |env|
                 && forall i | 0 <= i < |env| :: Named(EnvMembers(env), name)[i] == Str(env[i])
    decreases env
  {
    if env != [] {
      assert EnvMembers(env)[1..] == EnvMembers(env[1..]);
      NamedEnv(env[1..], name);
    }
  }

  lemma NetTells(n: NetArgs)
    ensures TellsNet(NetJson(n), n)
  {
    var ms := NetJson(n).members;
    for k := 0 to 7
      invariant forall i | 0 <= i < k :: Named(ms, ms[i].name) == [ms[i].value]
    {
      NamedDistinct(ms, k);
    }
    assert ms[0].name == "if" && ms[1].name == "cloner" && ms[2].name == "type" && ms[3].name == "method";
    assert ms[4].name == "addr" && ms[5].name == "mask" && ms[6].name == "gw";
  }

  lemma BlockTells(b: BlockArgs)
    ensures TellsBlock(BlockJson(b), b)
  {
    var ms := BlockJson(b).members;
    for k := 0 to 4
      invariant forall i | 0 <= i < k :: Named(ms, ms[i].name) == [ms[i].value]
    {
      NamedDistinct(ms, k);
    }
    assert ms[0].name == "source" && ms[1].name == "path" && ms[2].name == "fstype" && ms[3].name == "mountpoint";
  }

  lemma NamedSingle(m: Member, name: string)
    ensures Named([m], name) == if m.name == name then [m.value] else []
  {
    assert [m][1..] == [];
  }

  lemma NamedBlock(blk: Option<BlockArgs>, name: string)
    ensures Named(if blk.None? then [] else [Member("blk", BlockJson(blk.value))], name) ==
            if blk.Some? && name == "blk" then [BlockJson(blk.value)] else []
  {
    if blk.Some? { NamedSingle(Member("blk", BlockJson(blk.value)), name); }
  }

  lemma NamedOptional(field: string, s: string, name: string)
    ensures Named(OmitEmpty(field, s), name) == if s != "" && field == name then [Str(s)] else []
  {
    if s != "" { NamedSingle(Member(field, Str(s)), name); }
  }

  lemma NamedFields(a: Args, name: string)
    requires a.env == []
    ensures Named(Fields(a), name) ==
            (if name == "cmdline" then [Str(a.cmdline)] else []) + (if name == "net" then [NetJson(a.net)] else [])
            + (if a.blk.Some? && name == "blk" then [BlockJson(a.blk.value)] else [])
            + (if a.cwd != "" && "cwd" == name then [Str(a.cwd)] else [])
            + (if a.mem != "" && "mem" == name then [Str(a.mem)] else [])
  {
    var c, n := [Member("cmdline", Str(a.cmdline))], [Member("net", NetJson(a.net))];
    var blk := if a.blk.None? then [] else [Member("blk", BlockJson(a.blk.value))];
    var cwd, mem := OmitEmpty("cwd", a.cwd), OmitEmpty("mem", a.mem);
    assert Fields(a) == c + n + blk + cwd + mem;
    NamedAppend(c + n + blk + cwd, mem, name);
    NamedAppend(c + n + blk, cwd, name);
    NamedAppend(c + n, blk, name);
    NamedAppend(c, n, name);
    NamedSingle(c[0], name);
    NamedSingle(n[0], name);
    NamedBlock(a.blk, name);
    NamedOptional("cwd", a.cwd, name);
    NamedOptional("mem", a.mem, name);
  }

  /** A name other than `env` is found among the fields alone, and `env` among the variables alone. */
  lemma NamedMeaning(a: Args, name: string)
    ensures name != "env" ==> Named(Meaning(a).members, name) == Named(Fields(a.(env := [])), name)
    ensures name == "env" ==> Named(Meaning(a).members, name) == Named(EnvMembers(a.env), name)
  {
    NamedAppend(EnvMembers(a.env), Fields(a.(env := [])), name);
    NamedEnv(a.env, name);
    if name == "env" { NamedFields(a.(env := []), name); }
  }

  lemma FieldsByName(a: Args)
    requires a.env == []
    ensures var ms := Fields(a);
            && Named(ms, "cmdline") == [Str(a.cmdline)]
            && Named(ms, "net") == [NetJson(a.net)]
            && Named(ms, "blk") == (if a.blk.Some? then [BlockJson(a.blk.value)] else [])
            && Named(ms, "cwd") == (if a.cwd == "" then [] else [Str(a.cwd)])
            && Named(ms, "mem") == (if a.mem == "" then [] else [Str(a.mem)])
  {
    NamedFields(a, "cmdline");
    NamedFields(a, "net");
    NamedFields(a, "blk");
    NamedFields(a, "cwd");
    NamedFields(a, "mem");
  }

  /** What the unikernel is told is found under the names it looks for. */
  lemma MeaningTells(a: Args)
    ensures Tells(Meaning(a), a)
  {
    FieldsByName(a.(env := []));
    NamedMeaning(a, "cmdline");
    NamedMeaning(a, "net");
    NamedMeaning(a, "blk");
    NamedMeaning(a, "cwd");
    NamedMeaning(a, "mem");
    NamedMeaning(a, "env");
    NamedEnv(a.env, "env");
    NetTells(a.net);
    if a.blk.Some? { BlockTells(a.blk.value); }
  }

  lemma CommaIsNoMember(tail: string)
    ensures ParseMembers([','] + tail).None?
  {
  }

  /** With an empty variable there are two commas where a member should be, and nothing parses. */
  lemma {:induction false} EmptyVariableBreaks(env: seq<string>, rest: string)
    requires "" in env
    ensures ParseMembers(EnvText(env) + rest).None?
    decreases |env|
  {
    EnvTextFront(env);
    var tail := EnvText(env[1..]) + rest;
    Assoc3(Chunk(env[0]), EnvText(env[1..]), rest);
    if env[0] == "" {
      assert Chunk("") == [','];
      CommaIsNoMember(tail);
    } else {
      var m := Member("env", Str(env[0]));
      assert Chunk(env[0]) == PrintMember(m) + [','];
      Assoc3(PrintMember(m), [','], tail);
      ParsePrintedMember(m, [','] + tail);
      EmptyVariableBreaks(env[1..], rest);
      ReadNoMembers(PrintMember(m) + ([','] + tail), m, tail);
    }
  }

  lemma ReadNoObject(t: string)
    requires t != [] && !IsSpace(t[0]) && t[0] != '}' && ParseMembers(t).None?
    ensures Parse(['{'] + t).None?
  {
    TakeDrop(['{'], t);
  }

  lemma EnvTextStarts(env: seq<string>)
    requires env != []
    ensures EnvText(env) != [] && (EnvText(env)[0] == ',' || EnvText(env)[0] == '"')
  {
    EnvTextFront(env);
    if env[0] != "" { MembersStart(OmitEmpty("env", env[0])); }
  }

  lemma SpliceParses(a: Args)
    ensures "" !in a.env ==> SplicedText(a) == Print(Meaning(a)) && Parse(SplicedText(a)) == Some(Meaning(a))
    ensures "" in a.env ==> Parse(SplicedText(a)) == None
  {
    var fields := Fields(a.(env := []));
    var e, f := EnvText(a.env), PrintMembers(fields);
    Assoc3(['{'], e, f);
    if "" !in a.env {
      SpliceIsPrint(a.env, fields);
      PrintRoundTrip(Meaning(a));
    } else {
      var t := e + (f + ['}']);
      EmptyVariableBreaks(a.env, f + ['}']);
      EnvTextStarts(a.env);
      Assoc3(e, f, ['}']);
      Assoc3(['{'], e + f, ['}']);
      ReadNoObject(t);
    }
  }

  /**
   The spliced bytes are valid JSON exactly when no variable is empty, and then a reader finds every
   argument under its own name, with one `env` member per variable, in order and unchanged.
   */
  lemma SpliceMeaning(a: Args)
    ensures "" !in a.env ==> SplicedText(a) == Print(Meaning(a)) && Parse(SplicedText(a)) == Some(Meaning(a))
    ensures "" !in a.env ==> Tells(Parse(SplicedText(a)).value, a)
    ensures "" in a.env ==> Parse(SplicedText(a)) == None
  {
    SpliceParses(a);
    MeaningTells(a);
  }
}
