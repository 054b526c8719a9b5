/** The signal loop of a foreground command: forwarding to the container's process and reaping children. */
module Signals {
  import opened Common

  datatype Signal = WindowChanged | ChildExited | Other(number: int)

  /** What wait4 answers: an exit, children that still run, no children, or another error. */
  datatype Wait = Reaped(pid: int, status: int) | StillRunning | NoChild | Failed

  datatype Exit = Exit(pid: int, status: int)

  /** The exits among the answers from `a` to `b`, in order. */
  function Exits(ws: seq<Wait>, a: nat, b: nat): seq<Exit>
    requires b <= |ws|
    decreases b
  {
    if b <= a then []
    else if ws[b - 1].Reaped? then Exits(ws, a, b - 1) + [Exit(ws[b - 1].pid, ws[b - 1].status)]
    else Exits(ws, a, b - 1)
  }

  /** The signals that are passed on among those received from `a` to `b`, in order. */
  function Forwarded(ss: seq<Signal>, a: nat, b: nat): seq<Signal>
    requires b <= |ss|
    decreases b
  {
    if b <= a then []
    else if ss[b - 1].Other? then Forwarded(ss, a, b - 1) + [ss[b - 1]]
    else Forwarded(ss, a, b - 1)
  }

  /** A round of waiting that has come to answer `i` will end with an error, and lose what it has collected. */
  predicate Loses(ws: seq<Wait>, i: nat)
    decreases |ws| - i
  {
    i < |ws| && (ws[i].Failed? || (ws[i].Reaped? && Loses(ws, i + 1)))
  }

  /** Where a round of waiting that begins at answer `i` ends: after the first answer that is no exit. */
  function RoundEnd(ws: seq<Wait>, i: nat): (j: nat)
    requires i <= |ws|
    ensures i <= j <= |ws|
    decreases |ws| - i
  {
    if i == |ws| then i else if ws[i].Reaped? then RoundEnd(ws, i + 1) else i + 1
  }

  /** How far the answers have been used once the signals from `a` to `b` are dealt with, one round for each dead child. */
  function Rounds(ws: seq<Wait>, i: nat, ss: seq<Signal>, a: nat, b: nat): (j: nat)
    requires i <= |ws| && b <= |ss|
    ensures i <= j <= |ws|
    decreases b
  {
    if b <= a then i
    else
      var r := Rounds(ws, i, ss, a, b - 1);
      if ss[b - 1].ChildExited? then RoundEnd(ws, r) else r
  }

  /** The exits that these rounds hand to the loop; a round that fails hands over none. */
  function HandedOver(ws: seq<Wait>, i: nat, ss: seq<Signal>, a: nat, b: nat): seq<Exit>
    requires i <= |ws| && b <= |ss|
    decreases b
  {
    if b <= a then []
    else
      var r := Rounds(ws, i, ss, a, b - 1);
      HandedOver(ws, i, ss, a, b - 1)
      + if ss[b - 1].ChildExited? && !Loses(ws, r) then Exits(ws, r, RoundEnd(ws, r)) else []
  }

  /** Answer `i` is an exit of `pid` that the loop gets to see. */
  predicate Delivered(ws: seq<Wait>, i: nat, pid: int) {
    i < |ws| && ws[i].Reaped? && ws[i].pid == pid && !Loses(ws, i + 1)
  }

  class SignalHandler {
    /** What arrives on the channel until it is closed, and how much of it has been received. */
    const signals: seq<Signal>
    var received: nat

    /** What wait4 will answer, and how many of the answers have been given; after the last there is no child. */
    const waits: seq<Wait>
    var waited: nat

    /** What has been sent to the container's process. */
    var sent: seq<Signal>

    ghost predicate Valid()
      reads this
    {
      received <= |signals| && waited <= |waits|
    }

    constructor (signals: seq<Signal>, waits: seq<Wait>)
      ensures Valid() && received == 0 && waited == 0 && sent == []
      ensures this.signals == signals && this.waits == waits
    {
      this.signals, this.waits := signals, waits;
      received, waited, sent := 0, 0, [];
    }

    method Wait4() returns (w: Wait)
      requires Valid()
      modifies `waited
      ensures Valid()
      ensures if old(waited) < |waits| then w == waits[old(waited)] && waited == old(waited) + 1
              else w == NoChild && waited == old(waited)
    {
      if waited == |waits| { return NoChild; }
      w := waits[waited];
      waited := waited + 1;
    }

    /** `reap`: all the exits that are ready, or nothing when a wait fails. */
    method Reap() returns (exits: seq<Exit>, ok: bool)
      requires Valid()
      modifies `waited
      ensures Valid() && waited == RoundEnd(waits, old(waited))
      ensures ok <==> !Loses(waits, old(waited))
      ensures exits == if ok then Exits(waits, old(waited), waited) else []
      ensures forall i | old(waited) <= i < waited && waits[i].Reaped? :: Loses(waits, i + 1) <==> !ok
    {
      exits := [];
      ghost var from := waited;
      while true
        invariant Valid() && from <= waited && exits == Exits(waits, from, waited)
        invariant RoundEnd(waits, from) == RoundEnd(waits, waited)
        invariant forall i | from <= i < waited :: waits[i].Reaped?
        invariant forall i | from <= i <= waited :: Loses(waits, i) <==> Loses(waits, waited)
        decreases |waits| - waited
      {
        ghost var at := waited;
        var w := Wait4();
        match w {
          case NoChild => return exits, true;
          case Failed => return [], false;
          case StillRunning => return exits, true;
          case Reaped(pid, status) =>
            assert Loses(waits, at) <==> Loses(waits, at + 1);
            exits := exits + [Exit(pid, status)];
        }
      }
    }

    /** The first of the exits that is the process's own. */
    method Find(exits: seq<Exit>, pid: int) returns (status: Option<int>)
      ensures status.Some? ==> exists k :: Finds(exits, pid, k, status.value)
      ensures status.None? ==> forall k | 0 <= k < |exits| :: exits[k].pid != pid
    {
      for k := 0 to |exits|
        invariant forall l | 0 <= l < k :: exits[l].pid != pid
      {
        if exits[k].pid == pid {
          assert Finds(exits, pid, k, exits[k].status);
          return Some(exits[k].status);
        }
      }
      return None;
    }

    /** The loop's answer to a child's exit: reap, and look for the process among the exits. */
    method Harvest(pid: int, ghost from: nat) returns (found: Option<int>)
      requires Valid() && from <= waited && !Seen(waits, from, waited, pid)
      modifies `waited
      ensures Valid() && waited == RoundEnd(waits, old(waited))
      ensures Seen(waits, from, waited, pid) <==> found.Some?
      ensures found.Some? ==> FirstSeen(waits, from, waited, pid, found.value)
    {
      ghost var mid := waited;
      var exits, ok := Reap();
      found := Find(exits, pid);
      if ok {
        RoundDelivers(waits, from, mid, waited, pid, found);
      } else {
        RoundLost(waits, from, mid, waited, pid);
      }
    }

    /**
     `forward`: one round of reaping for every signal of a dead child, until a round hands over the
     exit of the process, whose status it returns; an error when it has no pid, and -1 once the
     channel is closed.
     */
    method Forward(pid1: Option<int>) returns (status: Result<int, ()>)
      requires Valid()
      modifies this
      ensures Valid() && old(received) <= received && old(waited) <= waited
      ensures pid1.None? ==> status.Err? && received == old(received) && waited == old(waited) && sent == old(sent)
      ensures sent == old(sent) + Forwarded(signals, old(received), received)
      ensures pid1.Some? ==> waited == Rounds(waits, old(waited), signals, old(received), received)
      ensures pid1.Some? && Seen(waits, old(waited), waited, pid1.value) ==>
                status.Ok? && FirstSeen(waits, old(waited), waited, pid1.value, status.value)
                && received > old(received) && signals[received - 1] == ChildExited
      ensures pid1.Some? && !Seen(waits, old(waited), waited, pid1.value) ==> status == Ok(-1) && received == |signals|
    {
      if pid1.None? { return Err(()); }
      ghost var from, start := waited, received;
      while received < |signals|
        invariant Valid() && from <= waited && start <= received
        invariant sent == old(sent) + Forwarded(signals, start, received)
        invariant waited == Rounds(waits, from, signals, start, received)
        invariant !Seen(waits, from, waited, pid1.value)
      {
        var s := signals[received];
        received := received + 1;
        match s {
          case WindowChanged =>
          case ChildExited =>
            var found := Harvest(pid1.value, from);
            if found.Some? { return Ok(found.value); }
          case Other(_) =>
            sent := sent + [s];
        }
      }
      return Ok(-1);
    }
  }

  /** Among the answers from `a` to `b` there is an exit of `pid` that the loop gets to see. */
  ghost predicate Seen(ws: seq<Wait>, a: nat, b: nat, pid: int) {
    exists i :: a <= i < b && Delivered(ws, i, pid)
  }

  /** The first such exit has this status. */
  ghost predicate FirstSeen(ws: seq<Wait>, a: nat, b: nat, pid: int, status: int) {
    exists i :: a <= i < b && Delivered(ws, i, pid) && ws[i].status == status && !Seen(ws, a, i, pid)
  }

  /** Where an exit of a list comes from, and that the exits before it come from before. */
  lemma {:induction false} ExitsOrigin(ws: seq<Wait>, a: nat, b: nat, k: nat) returns (i: nat)
    requires b <= |ws| && k < |Exits(ws, a, b)|
    ensures a <= i < b && ws[i].Reaped? && Exits(ws, a, b)[k] == Exit(ws[i].pid, ws[i].status)
    ensures |Exits(ws, a, i)| == k && forall l | 0 <= l < k :: Exits(ws, a, i)[l] == Exits(ws, a, b)[l]
    decreases b
  {
    if k < |Exits(ws, a, b - 1)| {
      i := ExitsOrigin(ws, a, b - 1, k);
    } else {
      i := b - 1;
    }
  }

  /** Every exit among the answers is in the list. */
  lemma {:induction false} ExitsComplete(ws: seq<Wait>, a: nat, b: nat, i: nat) returns (k: nat)
    requires a <= i < b <= |ws| && ws[i].Reaped?
    ensures k < |Exits(ws, a, b)| && Exits(ws, a, b)[k] == Exit(ws[i].pid, ws[i].status)
    decreases b
  {
    if i == b - 1 {
      k := |Exits(ws, a, b - 1)|;
    } else {
      k := ExitsComplete(ws, a, b - 1, i);
    }
  }

  /** The position of the first exit of a process in a list, if it has one there. */
  predicate Finds(es: seq<Exit>, pid: int, k: nat, status: int) {
    k < |es| && es[k] == Exit(pid, status) && forall l | 0 <= l < k :: es[l].pid != pid
  }

  /** A round without an error delivers its exits; looking for the process among them finds its first exit. */
  lemma RoundDelivers(ws: seq<Wait>, a: nat, mid: nat, b: nat, pid: int, found: Option<int>)
    requires a <= mid <= b <= |ws| && !Seen(ws, a, mid, pid)
    requires forall i | mid <= i < b && ws[i].Reaped? :: !Loses(ws, i + 1)
    requires if found.Some? then exists k :: Finds(Exits(ws, mid, b), pid, k, found.value)
             else forall k | 0 <= k < |Exits(ws, mid, b)| :: Exits(ws, mid, b)[k].pid != pid
    ensures Seen(ws, a, b, pid) <==> found.Some?
    ensures found.Some? ==> FirstSeen(ws, a, b, pid, found.value)
  {
    if found.Some? {
      var k :| Finds(Exits(ws, mid, b), pid, k, found.value);
      var i := ExitsOrigin(ws, mid, b, k);
      assert Delivered(ws, i, pid) && ws[i].status == found.value;
      forall j | a <= j < i ensures !Delivered(ws, j, pid) {
        if j >= mid && Delivered(ws, j, pid) {
          var l := ExitsComplete(ws, mid, i, j);
          assert false;
        }
      }
    } else {
      forall j | a <= j < b ensures !Delivered(ws, j, pid) {
        if j >= mid && Delivered(ws, j, pid) {
          var l := ExitsComplete(ws, mid, b, j);
          assert false;
        }
      }
    }
  }

  /** A round that ends with an error shows nothing. */
  lemma RoundLost(ws: seq<Wait>, a: nat, mid: nat, b: nat, pid: int)
    requires a <= mid <= b <= |ws| && !Seen(ws, a, mid, pid)
    requires forall i | mid <= i < b && ws[i].Reaped? :: Loses(ws, i + 1)
    ensures !Seen(ws, a, b, pid)
  {
    assert forall i | a <= i < mid :: !Delivered(ws, i, pid);
  }

  /** When wait4 fails with nothing but ECHILD, no exit is lost: the first exit of the process is the first seen. */
  lemma {:induction false} NothingLost(ws: seq<Wait>, i: nat)
    requires Failed !in ws
    ensures !Loses(ws, i)
    decreases |ws| - i
  {
    if i < |ws| { NothingLost(ws, i + 1); }
  }

  /** The status returned is that of the first exit, when every exit of the process is followed by no failing wait. */
  lemma FirstExitDecides(ws: seq<Wait>, a: nat, b: nat, pid: int, status: int)
    requires a <= b <= |ws| && Failed !in ws
    ensures FirstSeen(ws, a, b, pid, status) <==>
            exists i :: a <= i < b && ws[i] == Reaped(pid, status) && forall j | a <= j < i && ws[j].Reaped? :: ws[j].pid != pid
  {
    forall i ensures i < 0 || !Loses(ws, i) { if i >= 0 { NothingLost(ws, i); } }
    assert forall i | 0 <= i < |ws| :: Delivered(ws, i, pid) <==> ws[i].Reaped? && ws[i].pid == pid;
    if FirstSeen(ws, a, b, pid, status) {
      var i :| a <= i < b && Delivered(ws, i, pid) && ws[i].status == status && !Seen(ws, a, i, pid);
      assert ws[i] == Reaped(pid, status);
      assert forall j | a <= j < i && ws[j].Reaped? :: ws[j].pid != pid;
    }
  }

  lemma {:induction false} ExitsJoin(ws: seq<Wait>, a: nat, b: nat, c: nat)
    requires a <= b <= c <= |ws|
    ensures Exits(ws, a, c) == Exits(ws, a, b) + Exits(ws, b, c)
    decreases c
  {
    if b < c { ExitsJoin(ws, a, b, c - 1); }
  }

  /** In a round either every exit is lost or none is. */
  lemma {:induction false} RoundLosesAll(ws: seq<Wait>, i: nat, j: nat)
    requires i <= |ws| && i <= j < RoundEnd(ws, i) && ws[j].Reaped?
    ensures Loses(ws, j + 1) <==> Loses(ws, i)
    decreases |ws| - i
  {
    if i < j { RoundLosesAll(ws, i + 1, j); }
  }

  /** A round that fails right away has no exits to lose. */
  lemma {:induction false} NoExits(ws: seq<Wait>, i: nat)
    requires i <= |ws|
    ensures Exits(ws, i, RoundEnd(ws, i)) == [] <==> i == |ws| || !ws[i].Reaped?
  {
    if i < |ws| && ws[i].Reaped? { ExitsJoin(ws, i, i + 1, RoundEnd(ws, i)); }
  }

  /** An exit among the answers of these rounds is lost with its round. */
  ghost predicate SomethingLost(ws: seq<Wait>, a: nat, b: nat) {
    exists j :: a <= j < b && j < |ws| && ws[j].Reaped? && Loses(ws, j + 1)
  }

  lemma LostInRound(ws: seq<Wait>, i: nat)
    requires i <= |ws|
    ensures SomethingLost(ws, i, RoundEnd(ws, i)) <==> Loses(ws, i) && Exits(ws, i, RoundEnd(ws, i)) != []
  {
    NoExits(ws, i);
    forall j | i <= j < RoundEnd(ws, i) && ws[j].Reaped? ensures Loses(ws, j + 1) <==> Loses(ws, i) {
      RoundLosesAll(ws, i, j);
    }
    if i < |ws| && ws[i].Reaped? && Loses(ws, i) { assert Loses(ws, i + 1); }
  }

  /**
   Every exited child is reaped once and in order: what the rounds hand over are the exits among the
   answers used, all of them exactly when no wait fails after an exit of its round.
   */
  lemma {:induction false} EveryExitOnce(ws: seq<Wait>, i: nat, ss: seq<Signal>, a: nat, b: nat)
    requires i <= |ws| && a <= b <= |ss|
    ensures var j := Rounds(ws, i, ss, a, b);
            && (HandedOver(ws, i, ss, a, b) == Exits(ws, i, j) <==> !SomethingLost(ws, i, j))
            && |HandedOver(ws, i, ss, a, b)| <= |Exits(ws, i, j)|
    decreases b
  {
    if a < b {
      EveryExitOnce(ws, i, ss, a, b - 1);
      var r := Rounds(ws, i, ss, a, b - 1);
      if ss[b - 1].ChildExited? {
        var j := RoundEnd(ws, r);
        ExitsJoin(ws, i, r, j);
        LostInRound(ws, r);
        LostSplits(ws, i, r, j);
        LongerSplits(HandedOver(ws, i, ss, a, b - 1), Exits(ws, i, r), if Loses(ws, r) then [] else Exits(ws, r, j), Exits(ws, r, j));
      }
    }
  }

  lemma LostSplits(ws: seq<Wait>, a: nat, b: nat, c: nat)
    requires a <= b <= c
    ensures SomethingLost(ws, a, c) <==> SomethingLost(ws, a, b) || SomethingLost(ws, b, c)
  {
  }

  /** Two texts of two parts, neither longer than its counterpart, are the same only part by part. */
  lemma LongerSplits(a: seq<Exit>, b: seq<Exit>, c: seq<Exit>, d: seq<Exit>)
    requires |a| <= |b| && |c| <= |d|
    ensures a + c == b + d <==> a == b && c == d
  {
    if a + c == b + d {
      assert |a| == |b|;
      assert a == (a + c)[..|a|] && b == (b + d)[..|b|];
      assert c == (a + c)[|a|..] && d == (b + d)[|b|..];
    }
  }

  /** So with no failing wait but for ECHILD every exit is handed over. */
  lemma NoFailureNoLoss(ws: seq<Wait>, i: nat, ss: seq<Signal>, a: nat, b: nat)
    requires i <= |ws| && a <= b <= |ss| && Failed !in ws
    ensures HandedOver(ws, i, ss, a, b) == Exits(ws, i, Rounds(ws, i, ss, a, b))
  {
    EveryExitOnce(ws, i, ss, a, b);
    forall j: nat ensures !Loses(ws, j) { NothingLost(ws, j); }
  }
}
