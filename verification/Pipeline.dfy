/**
 The way of a container's configuration from the network handler's options to the argument vector
 of the monitor: address, gateway and mask are printed into an options map, parsed back, and
 printed again into the unikernel's JSON argument.
 */
module Pipeline {
  import opened Common
  import opened Json
  import opened Address
  import opened Rumprun

  /** The string options one handler passes to another. */
  type Options = map<string, string>

  /** What the network handler found on the host's interface. */
  datatype Plumbing = Plumbing(ip: IP, gateway: IP, mask: seq<Byte>, mac: string)

  datatype LaunchError =
    | NoTapName | PlumbingFailed | WrongBits
    | NoArgs | NotNabla | BadMask
    | NoNetwork | BadAddress | BadGateway | BadMac
    | NoDisk | NoUnikernel | BadText

  /** The part of the container's configuration that matters here; `unikernel` is the joined path. */
  datatype Process = Process(args: seq<string>, unikernel: string, cwd: string, env: seq<string>, memory: int)

  /** The files `Run` looks at: the disk, the dummy disk, and the unikernel here or in the search path. */
  datatype Host = Host(diskIsDir: Option<bool>, dummy: Option<string>, present: bool, lookPath: Option<string>)

  // ---------------------------------------------------------------- words

  function Join(words: seq<string>): string {
    if words == [] then []
    else if |words| == 1 then words[0]
    else words[0] + [' '] + Join(words[1..])
  }

  /** The pieces of a text between separators. */
  function Split(s: string, sep: char): (words: seq<string>)
    ensures words != []
  {
    if s == [] then [[]]
    else
      var rest := Split(s[1..], sep);
      if s[0] == sep then [[]] + rest else [[s[0]] + rest[0]] + rest[1..]
  }

  lemma {:induction false} SplitWord(w: string, sep: char, rest: string)
    requires sep !in w
    ensures Split(w + [sep] + rest, sep) == [w] + Split(rest, sep)
    ensures Split(w, sep) == [w]
  {
    var s := w + [sep] + rest;
    if w == [] {
      assert s[1..] == rest;
    } else {
      SplitWord(w[1..], sep, rest);
      assert s[1..] == w[1..] + [sep] + rest;
      assert [w[0]] + w[1..] == w;
    }
  }

  lemma {:induction false} SplitLast(s: string, sep: char, w: string)
    requires sep !in w
    ensures Split(s + [sep] + w, sep) == Split(s, sep) + [w]
  {
    if s == [] {
      SplitWord([], sep, w);
      SplitWord(w, sep, []);
    } else {
      SplitLast(s[1..], sep, w);
      assert (s + [sep] + w)[1..] == s[1..] + [sep] + w;
    }
  }

  lemma {:induction false} PiecesHaveNoSeparator(s: string, sep: char)
    ensures forall i | 0 <= i < |Split(s, sep)| :: sep !in Split(s, sep)[i]
  {
    if s != [] { PiecesHaveNoSeparator(s[1..], sep); }
  }

  lemma {:induction false} SplitJoined(words: seq<string>)
    requires words != [] && forall i | 0 <= i < |words| :: ' ' !in words[i]
    ensures Split(Join(words), ' ') == words
  {
    SplitWord(words[0], ' ', Join(words[1..]));
    if |words| > 1 { SplitJoined(words[1..]); }
  }

  /** The command line tells the unikernel its words exactly when none of them has a space. */
  lemma CommandLineSplits(words: seq<string>)
    requires words != []
    ensures Split(Join(words), ' ') == words <==> forall i | 0 <= i < |words| :: ' ' !in words[i]
  {
    PiecesHaveNoSeparator(Join(words), ' ');
    if forall i | 0 <= i < |words| :: ' ' !in words[i] { SplitJoined(words); }
  }

  lemma FourWords(a: string, b: string, c: string, d: string, sep: char)
    requires sep !in a && sep !in b && sep !in c && sep !in d
    ensures Split(a + [sep] + (b + [sep] + (c + [sep] + d)), sep) == [a, b, c, d]
  {
    SplitWord(a, sep, b + [sep] + (c + [sep] + d));
    SplitWord(b, sep, c + [sep] + d);
    SplitWord(c, sep, d);
    SplitWord(d, sep, []);
  }

  /** An address is written as its four numbers in order, between dots. */
  lemma QuadReads(ip: IP)
    requires ip != NoIP
    ensures Split(IPText(ip), '.') == [Decimal(ip.a), Decimal(ip.b), Decimal(ip.c), Decimal(ip.d)]
  {
    DecimalDigits(ip.a);
    DecimalDigits(ip.b);
    DecimalDigits(ip.c);
    DecimalDigits(ip.d);
    FourWords(Decimal(ip.a), Decimal(ip.b), Decimal(ip.c), Decimal(ip.d), '.');
  }

  // ---------------------------------------------------------------- the rumprun argument

  /** The prefix length the unikernel is told: 32 is replaced by 1. */
  function MaskText(mask: seq<Byte>): string {
    var cidr := Decimal(Size(mask).0);
    if cidr == "32" then "1" else cidr
  }

  function RumpArgsFor(ip: IP, mask: seq<Byte>, gw: IP, mountPoint: string, env: seq<string>, cwd: string,
                       words: seq<string>): Args {
    Args(Join(words),
         NetArgs("ukvmif0", "True", "inet", "static", IPText(ip), MaskText(mask), IPText(gw)),
         if mountPoint != "" then Some(BlockArgs("etfs", "/dev/ld0a", "blk", mountPoint)) else None,
         env, cwd, "")
  }

  /** The JSON text of the arguments; json.Marshal refuses what the splice gets wrong. */
  function RumprunText(a: Args): Option<string> {
    if "" in a.env then None else Some(Print(Meaning(a)))
  }

  /** What json.Marshal makes of the spliced bytes: it validates and compacts them. */
  lemma MarshalChecksSplice(a: Args)
    ensures var bytes := SplicedText(a);
            RumprunText(a) == if Parse(bytes).None? then None else Some(Compact(bytes, false))
    ensures RumprunText(a).Some? ==> Parse(RumprunText(a).value) == Some(Meaning(a))
  {
    SpliceMeaning(a);
    if "" !in a.env { CompactPrintedText(Meaning(a)); }
  }

  // ---------------------------------------------------------------- what the unikernel reads

  /** The interface under `net`: the texts of its address and gateway, and of a mask of `n` ones. */
  ghost predicate TellsInterface(j: Json, ip: IP, mask: seq<Byte>, gw: IP) {
    && j.Obj?
    && HasText(j.members, "if", "ukvmif0") && HasText(j.members, "cloner", "True")
    && HasText(j.members, "type", "inet") && HasText(j.members, "method", "static")
    && (exists s :: HasText(j.members, "addr", s) && ParseIP(s) == ip)
    && (exists s :: HasText(j.members, "gw", s) && ParseIP(s) == gw)
    && (forall n: nat | n <= 8 * |mask| && IsPrefix(mask, n) ::
          HasText(j.members, "mask", Decimal(if n == 32 then 1 else n)))
  }

  /** The disk under `blk`. */
  predicate TellsDisk(j: Json, mount: string) {
    && j.Obj?
    && HasText(j.members, "source", "etfs") && HasText(j.members, "path", "/dev/ld0a")
    && HasText(j.members, "fstype", "blk") && HasText(j.members, "mountpoint", mount)
  }

  /** The whole argument, member by member: its words, its interface, its disk, its variables and its directory. */
  ghost predicate TellsUnikernel(text: string, words: seq<string>, ip: IP, mask: seq<Byte>, gw: IP, mount: string,
                                 env: seq<string>, cwd: string)
  {
    && Parse(text).Some? && Parse(text).value.Obj?
    && var ms := Parse(text).value.members;
       && HasText(ms, "cmdline", Join(words))
       && |Named(ms, "net")| == 1 && TellsInterface(Named(ms, "net")[0], ip, mask, gw)
       && |Named(ms, "blk")| == (if mount == "" then 0 else 1)
       && (mount != "" ==> TellsDisk(Named(ms, "blk")[0], mount))
       && |Named(ms, "env")| == |env| && (forall i | 0 <= i < |env| :: Named(ms, "env")[i] == Str(env[i]))
       && Named(ms, "cwd") == (if cwd == "" then [] else [Str(cwd)])
       && Named(ms, "mem") == []
  }

  lemma TellsAddresses(j: Json, ip: IP, mask: seq<Byte>, gw: IP)
    requires TellsNet(j, NetArgs("ukvmif0", "True", "inet", "static", IPText(ip), MaskText(mask), IPText(gw)))
    ensures TellsInterface(j, ip, mask, gw)
  {
    IPRoundTrip(ip);
    IPRoundTrip(gw);
    assert HasText(j.members, "addr", IPText(ip)) && HasText(j.members, "gw", IPText(gw));
    forall n: nat | n <= 8 * |mask| && IsPrefix(mask, n)
      ensures HasText(j.members, "mask", Decimal(if n == 32 then 1 else n))
    {
      MaskTextMeaning(mask, n);
    }
  }

  /** The text exists exactly when no variable is empty, and then says what it should under every name. */
  lemma TextTells(ip: IP, mask: seq<Byte>, gw: IP, mount: string, env: seq<string>, cwd: string, words: seq<string>)
    ensures var text := RumprunText(RumpArgsFor(ip, mask, gw, mount, env, cwd, words));
            && (text.Some? <==> "" !in env)
            && (text.Some? ==> TellsUnikernel(text.value, words, ip, mask, gw, mount, env, cwd))
  {
    var a := RumpArgsFor(ip, mask, gw, mount, env, cwd, words);
    if "" !in env {
      SpliceMeaning(a);
      TellsAddresses(Named(Meaning(a).members, "net")[0], ip, mask, gw);
    }
  }

  method CreateRumprunArgs(ip: IP, mask: seq<Byte>, gw: IP, mountPoint: string, env: seq<string>, cwd: string,
                           unikernel: string, args: seq<string>) returns (text: Option<string>)
    ensures text == RumprunText(RumpArgsFor(ip, mask, gw, mountPoint, env, cwd, [unikernel] + args))
    ensures text.Some? <==> "" !in env
    ensures text.Some? ==> TellsUnikernel(text.value, [unikernel] + args, ip, mask, gw, mountPoint, env, cwd)
  {
    var cidr := Decimal(Size(mask).0);
    if cidr == "32" {
      cidr := "1";
    }
    var net := NetArgs("ukvmif0", "True", "inet", "static", IPText(ip), cidr, IPText(gw));
    var ra := new RumpArgs(Join([unikernel] + args), net, cwd);
    if mountPoint != "" {
      ra.blk := Some(BlockArgs("etfs", "/dev/ld0a", "blk", mountPoint));
    }
    if |env| > 0 {
      ra.env := env;
    }
    ghost var a := RumpArgsFor(ip, mask, gw, mountPoint, env, cwd, [unikernel] + args);
    assert ra.View() == a;
    var bytes := ra.MarshalJSON();
    MarshalChecksSplice(a);
    text := if Parse(bytes).None? then None else Some(Compact(bytes, false));
    TextTells(ip, mask, gw, mountPoint, env, cwd, [unikernel] + args);
  }

  // ---------------------------------------------------------------- the network handler's run phase

  function NetworkRun(state: Options, found: Option<Plumbing>): Result<Options, LaunchError> {
    if "TapName" !in state then Err(NoTapName)
    else if found.None? then Err(PlumbingFailed)
    else
      var p := found.value;
      var (cidr, totalBits) := Size(p.mask);
      if totalBits != 32 then Err(WrongBits)
      else Ok(map["IPAddress" := IPText(p.ip), "Gateway" := IPText(p.gateway), "IPMask" := Decimal(cidr),
                  "Mac" := p.mac, "TapName" := state["TapName"]])
  }

  // ---------------------------------------------------------------- the exec handler

  /** A string map read in Go: absent keys are empty. */
  function Get(m: Options, key: string): string {
    if key in m then m[key] else ""
  }

  predicate EndsWith(s: string, suffix: string) {
    |suffix| <= |s| && s[|s| - |suffix|..] == suffix
  }

  datatype Cont = Cont(args: seq<string>, unikernel: string, tap: string, ip: IP, mask: seq<Byte>, gateway: IP,
                       mac: string, memory: int, disk: string, cwd: string, env: seq<string>)

  function FirstSlash(s: string): (i: nat)
    ensures i <= |s| && (i < |s| ==> s[i] == '/')
  {
    if s == [] || s[0] == '/' then 0 else 1 + FirstSlash(s[1..])
  }

  /** net.ParseCIDR of an IPv4 address and a prefix length. */
  function ParseCIDR(s: string): Option<(IP, seq<Byte>)> {
    var i := FirstSlash(s);
    if i == |s| then None
    else
      var ip := ParseIPv4(s[..i]);
      var n := Dtoi(s[i + 1..]);
      if ip == NoIP || n.None? || n.value.1 != [] || n.value.0 > 32 then None
      else Some((ip, PrefixMask(n.value.0, 4)))
  }

  /** Validation; `macOk` says whether net.ParseMAC accepts the hardware address. */
  function NewRunncCont(p: Process, address: string, mask: int, gw: string, tap: string, mac: string, disk: string,
                        macOk: bool): Result<Cont, LaunchError>
    requires p.args != []
  {
    if address == "" || gw == "" || tap == "" then Err(NoNetwork)
    else
      var cidr := ParseCIDR(address + ['/'] + IntText(mask));
      if cidr.None? then Err(BadAddress)
      else if ParseIP(gw) == NoIP then Err(BadGateway)
      else if mac != "" && !macOk then Err(BadMac)
      else Ok(Cont(p.args[1..], p.unikernel, tap, cidr.value.0, cidr.value.1, ParseIP(gw), mac, p.memory, disk,
                   p.cwd, p.env))
  }

  function ExecConfig(p: Process, net: Options, fs: Options, macOk: bool): Result<Cont, LaunchError> {
    if p.args == [] then Err(NoArgs)
    else if !EndsWith(p.args[0], ".nabla") then Err(NotNabla)
    else
      var mask := Atoi(Get(net, "IPMask"));
      if mask.None? then Err(BadMask)
      else NewRunncCont(p, Get(net, "IPAddress"), mask.value, Get(net, "Gateway"), Get(net, "TapName"),
                        Get(net, "Mac"), Get(fs, "FsPath"), macOk)
  }

  function SetupDisk(path: string, host: Host): Option<string> {
    if path == "" then host.dummy
    else if host.diskIsDir == Some(false) then Some(path)
    else None
  }

  /** The unikernel's path, or its place in the search path. */
  function FindUnikernel(path: string, host: Host): Option<string> {
    if host.present then Some(path) else host.lookPath
  }

  function Resolved(c: Cont, host: Host): string {
    if SetupDisk(c.disk, host).Some? && FindUnikernel(c.unikernel, host).Some? then
      FindUnikernel(c.unikernel, host).value
    else c.unikernel
  }

  const NABLA_RUN := "/opt/runnc/bin/nabla-run"

  /** The argument vector the monitor is executed with. */
  function Argv(c: Cont, host: Host): Result<seq<string>, LaunchError> {
    var disk, unikernel := SetupDisk(c.disk, host), FindUnikernel(c.unikernel, host);
    if disk.None? then Err(NoDisk)
    else if unikernel.None? then Err(NoUnikernel)
    else
      var text := RumprunText(RumpArgsFor(c.ip, c.mask, c.gateway, "/", c.env, c.cwd, [unikernel.value] + c.args));
      if text.None? then Err(BadText)
      else Ok([NABLA_RUN, "--x-exec-heap", "--mem=" + IntText(c.memory), "--net=" + c.tap, "--disk=" + disk.value,
               unikernel.value, text.value])
  }

  class RunncCont {
    var cont: Cont

    constructor (cont: Cont)
      ensures this.cont == cont
    {
      this.cont := cont;
    }

    /**
     `Run`, up to the exec that does not return.  Its hardware address is a local variable that
     nothing assigns, so the branch that would pass `--net-mac` is never taken.
     */
    method Run(host: Host) returns (argv: Result<seq<string>, LaunchError>)
      modifies this
      ensures argv == Argv(old(cont), host)
      ensures cont == old(cont).(unikernel := Resolved(old(cont), host))
    {
      var disk := SetupDisk(cont.disk, host);
      if disk.None? { return Err(NoDisk); }
      if !host.present {
        if host.lookPath.None? { return Err(NoUnikernel); }
        cont := cont.(unikernel := host.lookPath.value);
      }
      var text := CreateRumprunArgs(cont.ip, cont.mask, cont.gateway, "/", cont.env, cont.cwd, cont.unikernel, cont.args);
      if text.None? { return Err(BadText); }
      return Ok([NABLA_RUN, "--x-exec-heap", "--mem=" + IntText(cont.memory), "--net=" + cont.tap,
                 "--disk=" + disk.value, cont.unikernel, text.value]);
    }
  }

  // ---------------------------------------------------------------- end to end

  /** The whole way: the network handler's run phase, the exec handler and `Run`. */
  function Launch(p: Process, state: Options, found: Option<Plumbing>, fs: Options, macOk: bool, host: Host)
    : Result<seq<string>, LaunchError>
  {
    var net := NetworkRun(state, found);
    if net.Err? then Err(net.error)
    else
      var c := ExecConfig(p, net.value, fs, macOk);
      if c.Err? then Err(c.error) else Argv(c.value, host)
  }

  /** The addresses can be handed on: an IPv4 mask of ones followed by zeros, an address and a gateway. */
  ghost predicate Usable(p: Plumbing) {
    && p.ip != NoIP && p.gateway != NoIP
    && |p.mask| == 4 && exists n :: 0 <= n <= 32 && IsPrefix(p.mask, n)
  }

  lemma {:induction false} FirstSlashText(a: string, b: string)
    requires '/' !in a
    ensures FirstSlash(a + ['/'] + b) == |a|
  {
    if a != [] {
      assert (a + ['/'] + b)[1..] == a[1..] + ['/'] + b;
      FirstSlashText(a[1..], b);
    }
  }

  lemma IPTextHasNoSlash(ip: IP)
    ensures '/' !in IPText(ip) && IPText(ip) != []
  {
    match ip
    case NoIP =>
    case V4(a, b, c, d) =>
      DecimalDigits(a);
      DecimalDigits(b);
      DecimalDigits(c);
      DecimalDigits(d);
  }

  lemma SplitAtSlash(a: string, b: string)
    requires '/' !in a
    ensures var s := a + ['/'] + b;
            FirstSlash(s) == |a| < |s| && s[..|a|] == a && s[|a| + 1..] == b
  {
    FirstSlashText(a, b);
  }

  /** An address and a prefix length, read back. */
  lemma CIDRRoundTrip(ip: IP, n: nat)
    requires n <= 32
    ensures ParseCIDR(IPText(ip) + ['/'] + Decimal(n)) == if ip == NoIP then None else Some((ip, PrefixMask(n, 4)))
  {
    var a, b := IPText(ip), Decimal(n);
    IPTextHasNoSlash(ip);
    SplitAtSlash(a, b);
    assert Dtoi(b) == Some((n, [])) by {
      DtoiDecimal(n, []);
      assert Decimal(n) + [] == Decimal(n);
    }
    assert ParseIPv4(a) == ip by {
      if ip == NoIP { assert ParseIPv4("<nil>") == NoIP; } else { IPRoundTrip(ip); }
    }
  }

  lemma MaskBits(mask: seq<Byte>)
    ensures Size(mask).1 == 32 <==> |mask| == 4 && exists n :: 0 <= n <= 32 && IsPrefix(mask, n)
    ensures forall n: nat | n <= 8 * |mask| && IsPrefix(mask, n) :: Size(mask) == (n, 8 * |mask|)
  {
    var n := MaskLength(mask);
    if n >= 0 { SizeMeaning(mask, n); }
    forall n: nat | n <= 8 * |mask| && IsPrefix(mask, n) ensures Size(mask) == (n, 8 * |mask|) {
      SizeMeaning(mask, n);
    }
  }

  /** Validation sees the printed address, mask and gateway as what they were printed from. */
  lemma ConfigSurvives(p: Process, ip: IP, n: nat, gw: IP, tap: string, mac: string, disk: string, macOk: bool)
    requires p.args != [] && tap != "" && n <= 32
    ensures NewRunncCont(p, IPText(ip), n, IPText(gw), tap, mac, disk, macOk) ==
            if ip == NoIP then Err(BadAddress)
            else if gw == NoIP then Err(BadGateway)
            else if mac != "" && !macOk then Err(BadMac)
            else Ok(Cont(p.args[1..], p.unikernel, tap, ip, PrefixMask(n, 4), gw, mac, p.memory, disk, p.cwd, p.env))
  {
    CIDRRoundTrip(ip, n);
    IPRoundTrip(gw);
    IPTextHasNoSlash(ip);
    IPTextHasNoSlash(gw);
  }

  lemma RunOptions(state: Options, found: Plumbing, net: Options)
    requires NetworkRun(state, Some(found)) == Ok(net)
    ensures Get(net, "IPAddress") == IPText(found.ip) && Get(net, "Gateway") == IPText(found.gateway)
    ensures Get(net, "IPMask") == Decimal(Size(found.mask).0)
    ensures Get(net, "Mac") == found.mac && Get(net, "TapName") == Get(state, "TapName")
  {
  }

  /** The options' way through the parsers: all that went in comes out, or there was nothing to find. */
  lemma OptionsSurvive(p: Process, state: Options, found: Plumbing, fs: Options, macOk: bool, net: Options)
    requires p.args != [] && EndsWith(p.args[0], ".nabla") && Get(state, "TapName") != ""
    requires NetworkRun(state, Some(found)) == Ok(net)
    ensures ExecConfig(p, net, fs, macOk) ==
            if found.ip == NoIP then Err(BadAddress)
            else if found.gateway == NoIP then Err(BadGateway)
            else if found.mac != "" && !macOk then Err(BadMac)
            else Ok(Cont(p.args[1..], p.unikernel, state["TapName"], found.ip, found.mask, found.gateway, found.mac,
                         p.memory, Get(fs, "FsPath"), p.cwd, p.env))
  {
    var n := Size(found.mask).0;
    RunOptions(state, found, net);
    PrefixOfSize(found.mask);
    AtoiDecimal(n);
    ConfigSurvives(p, found.ip, n, found.gateway, state["TapName"], found.mac, Get(fs, "FsPath"), macOk);
  }

  lemma PrefixOfSize(mask: seq<Byte>)
    requires Size(mask).1 == 32
    ensures Size(mask).0 <= 32 && PrefixMask(Size(mask).0, 4) == mask
  {
    MaskLengthIsInverse(mask, Size(mask).0);
  }

  /** The unikernel is told 1 for a host mask and the prefix length for every other mask. */
  lemma MaskTextMeaning(mask: seq<Byte>, n: nat)
    requires n <= 8 * |mask| && IsPrefix(mask, n)
    ensures MaskText(mask) == Decimal(if n == 32 then 1 else n)
  {
    MaskBits(mask);
    assert Decimal(32) == "32" && Decimal(1) == "1";
    LeadingDecimal(n, []);
    LeadingDecimal(32, []);
    assert Decimal(n) + [] == Decimal(n) && Decimal(32) + [] == Decimal(32);
  }

  /** The create phase has recorded a disk. */
  predicate HasDisk(fs: Options) {
    "FsPath" in fs && fs["FsPath"] != ""
  }

  /** All that has nothing to do with the addresses. */
  ghost predicate Startable(p: Process, state: Options, fs: Options, host: Host) {
    && p.args != [] && (exists stem :: p.args[0] == stem + ".nabla") && "" !in p.env
    && "TapName" in state && state["TapName"] != ""
    && (if HasDisk(fs) then host.diskIsDir == Some(false) else host.dummy.Some?)
    && (host.present || host.lookPath.Some?)
  }

  /** Where the unikernel, and the disk, are found. */
  function UnikernelAt(p: Process, host: Host): string
    requires host.present || host.lookPath.Some?
  {
    if host.present then p.unikernel else host.lookPath.value
  }

  function DiskAt(fs: Options, host: Host): string
    requires HasDisk(fs) || host.dummy.Some?
  {
    if HasDisk(fs) then fs["FsPath"] else host.dummy.value
  }

  /** The configuration that a usable network leads to. */
  function Configured(p: Process, tap: string, found: Plumbing, fs: Options): Cont
    requires p.args != []
  {
    Cont(p.args[1..], p.unikernel, tap, found.ip, found.mask, found.gateway, found.mac, p.memory, Get(fs, "FsPath"),
         p.cwd, p.env)
  }

  lemma ArgvMeaning(c: Cont, host: Host)
    ensures var r := Argv(c, host);
            r.Ok? <==> SetupDisk(c.disk, host).Some? && FindUnikernel(c.unikernel, host).Some? && "" !in c.env
    ensures var r := Argv(c, host);
            r.Ok? ==>
              var unikernel := FindUnikernel(c.unikernel, host).value;
              && |r.value| == 7 && TellsUnikernel(r.value[6], [unikernel] + c.args, c.ip, c.mask, c.gateway, "/", c.env, c.cwd)
              && r.value == ["/opt/runnc/bin/nabla-run", "--x-exec-heap", "--mem=" + IntText(c.memory), "--net=" + c.tap,
                             "--disk=" + SetupDisk(c.disk, host).value, unikernel, r.value[6]]
  {
    if FindUnikernel(c.unikernel, host).Some? {
      TextTells(c.ip, c.mask, c.gateway, "/", c.env, c.cwd, [FindUnikernel(c.unikernel, host).value] + c.args);
    }
  }

  /** A launch that gets as far as `Run` has a usable network, and runs the configuration it leads to. */
  lemma LaunchConfigures(p: Process, state: Options, found: Plumbing, fs: Options, macOk: bool, host: Host)
    ensures var go := p.args != [] && EndsWith(p.args[0], ".nabla") && Get(state, "TapName") != "" && Usable(found)
                      && (found.mac == "" || macOk);
            var r := Launch(p, state, Some(found), fs, macOk, host);
            if go then r == Argv(Configured(p, state["TapName"], found, fs), host) else r.Err?
  {
    MaskBits(found.mask);
    if p.args != [] && EndsWith(p.args[0], ".nabla") && Get(state, "TapName") != "" && Size(found.mask).1 == 32 {
      OptionsSurvive(p, state, found, fs, macOk, NetworkRun(state, Some(found)).value);
    }
  }

  lemma EndsWithStem(s: string, suffix: string)
    ensures EndsWith(s, suffix) <==> exists stem :: s == stem + suffix
  {
    if EndsWith(s, suffix) { assert s == s[..|s| - |suffix|] + suffix; }
  }

  /** The argument vector of the monitor, with the disk and the unikernel where they were found. */
  ghost predicate RunsAs(r: Result<seq<string>, LaunchError>, p: Process, tap: string, found: Plumbing, fs: Options, host: Host)
    requires p.args != [] && (HasDisk(fs) || host.dummy.Some?) && (host.present || host.lookPath.Some?)
  {
    && r.Ok? && |r.value| == 7
    && r.value == ["/opt/runnc/bin/nabla-run", "--x-exec-heap", "--mem=" + IntText(p.memory), "--net=" + tap,
                   "--disk=" + DiskAt(fs, host), UnikernelAt(p, host), r.value[6]]
    && TellsUnikernel(r.value[6], [UnikernelAt(p, host)] + p.args[1..], found.ip, found.mask, found.gateway, "/", p.env, p.cwd)
  }

  lemma ConfiguredRuns(p: Process, tap: string, found: Plumbing, fs: Options, host: Host)
    requires p.args != []
    ensures var r := Argv(Configured(p, tap, found, fs), host);
            if (if HasDisk(fs) then host.diskIsDir == Some(false) else host.dummy.Some?)
               && (host.present || host.lookPath.Some?) && "" !in p.env
            then RunsAs(r, p, tap, found, fs, host)
            else r.Err?
  {
    ArgvMeaning(Configured(p, tap, found, fs), host);
  }

  /**
   A container is launched exactly when its program is in order, its mask is four bytes of ones
   followed by zeros, and it has an address and a gateway.  Then the monitor gets the memory, the tap
   and the disk that the create phase recorded, the unikernel, and a text in which the unikernel
   reads, each under its own name, its words, the address, gateway and prefix length that were found
   (but 1 for a host mask), its disk, its variables in order and its directory.
   */
  lemma EndToEnd(p: Process, state: Options, found: Plumbing, fs: Options, macOk: bool, host: Host)
    ensures var r := Launch(p, state, Some(found), fs, macOk, host);
            r.Ok? <==> Startable(p, state, fs, host) && Usable(found) && (found.mac == "" || macOk)
    ensures var r := Launch(p, state, Some(found), fs, macOk, host);
            r.Ok? ==>
              RunsAs(r, p, state["TapName"], found, fs, host)
  {
    LaunchConfigures(p, state, found, fs, macOk, host);
    if p.args != [] { EndsWithStem(p.args[0], ".nabla"); }
    if p.args != [] && "TapName" in state {
      ConfiguredRuns(p, state["TapName"], found, fs, host);
    }
  }

  lemma SeventhOf(v: seq<string>, a: string, b: string, c: string, d: string, e: string, f: string, g: string)
    requires v == [a, b, c, d, e, f, g]
    ensures |v| == 7 && v[3] == d && v[4] == e
  {
  }

  lemma ResourcesRun(r: Result<seq<string>, LaunchError>, p: Process, tap: string, found: Plumbing, fs: Options, host: Host)
    requires p.args != [] && HasDisk(fs) && (host.present || host.lookPath.Some?)
    requires RunsAs(r, p, tap, found, fs, host)
    ensures |r.value| == 7 && r.value[3] == "--net=" + tap && r.value[4] == "--disk=" + fs["FsPath"]
  {
    SeventhOf(r.value, "/opt/runnc/bin/nabla-run", "--x-exec-heap", "--mem=" + IntText(p.memory), "--net=" + tap,
              "--disk=" + DiskAt(fs, host), UnikernelAt(p, host), r.value[6]);
  }

  /** The tap and the disk of a launch. */
  lemma LaunchResources(p: Process, state: Options, found: Plumbing, fs: Options, macOk: bool, host: Host)
    requires "TapName" in state && HasDisk(fs)
    ensures var r := Launch(p, state, Some(found), fs, macOk, host);
            r.Ok? ==>
              |r.value| == 7 && r.value[3] == "--net=" + state["TapName"] && r.value[4] == "--disk=" + fs["FsPath"]
  {
    var r := Launch(p, state, Some(found), fs, macOk, host);
    if r.Ok? {
      EndToEnd(p, state, found, fs, macOk, host);
      ResourcesRun(r, p, state["TapName"], found, fs, host);
    }
  }

  /** The hardware address is checked but never reaches the monitor. */
  lemma MacIsDropped(p: Process, state: Options, found: Plumbing, other: string, fs: Options, host: Host)
    ensures var r := Launch(p, state, Some(found), fs, true, host);
            r.Ok? ==> r == Launch(p, state, Some(found.(mac := other)), fs, true, host)
  {
    LaunchConfigures(p, state, found, fs, true, host);
    LaunchConfigures(p, state, found.(mac := other), fs, true, host);
  }
}
