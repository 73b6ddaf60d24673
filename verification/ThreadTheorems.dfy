/** What holds of every interleaving of the controller and telemetry threads. */
module ThreadTheorems {
  import opened Protocol
  import opened PadModel
  import opened Threads
  import opened ThreadInvariants
  import opened Interlock

  // ---- Snapshot atomicity ----

  /** From state `k` to state `i` one and the same send is in progress. */
  ghost predicate Window(b: seq<Sys>, k: nat, i: nat) {
    k <= i < |b| && forall j | k <= j <= i :: Sending(b[j].tpc)
  }

  /** Pad `q` explains the packet so far: right in every taken field and still current in
      the others, and no longer current only while an announcement is due. */
  predicate Explains(q: Pad, s: Sys)
    requires |s.snap.acts| <= NUM_ACTUATORS as int
  {
    AgreesTaken(q, s) && AgreesUntaken(q, s) && (q == s.pad || Dirty(s.cpc))
  }

  /** A step that writes nothing changes neither the packet nor what explains it: while the
      telemetry thread holds the mutex, nothing due can be announced. */
  lemma QuietStepKeepsExplanation(s: Sys, c: Command, q: Pad)
    requires CtlEnabled(s) && CtlTyped(s.cpc, s.cmd) && MutexInv(s) && SnapTyped(s) && Sending(s.tpc)
    requires !s.cpc.Drive? && !s.cpc.LevelWrite? && !s.cpc.ConnWrite?
    requires Explains(q, s)
    ensures var t := CtlStep(s, c); t.tpc == s.tpc && Explains(q, t)
  {
    hide AgreesTaken, AgreesUntaken, CtlStep, Dirty, CtlTyped;
    CtlFootprint(s, c);
    SamePacketSameExplanation(s, CtlStep(s, c), q);
  }

  lemma SamePacketSameExplanation(s: Sys, t: Sys, q: Pad)
    requires SnapTyped(s) && t.pad == s.pad && t.snap == s.snap && t.tpc == s.tpc
    ensures AgreesTaken(q, t) == AgreesTaken(q, s) && AgreesUntaken(q, t) == AgreesUntaken(q, s)
  {
  }

  /** A stored actuator is either still to be taken or already was: the new pad or the old one fits. */
  lemma StoreKeepsExplanation(s: Sys, c: Command, q: Pad)
    requires CtlTyped(s.cpc, s.cmd) && SnapTyped(s) && Sending(s.tpc) && s.cpc.Drive?
    requires Explains(q, s)
    ensures var t := CtlStep(s, c); t.tpc == s.tpc && (Explains(t.pad, t) || Explains(q, t))
  {
    hide AfterDrive, Dirty, Sending, CtlTyped;
    assert s.cmd.ActCmd? && s.cmd.id < NUM_ACTUATORS && !Dirty(s.cpc) by { DriveTyped(s); }
    StoreHoldsNothing(s.cmd);
    if s.cmd.drives {
      StoreFits(s.pad, |s.snap.acts|, s.cmd.id, s.cmd.state);
    }
  }

  lemma DriveTyped(s: Sys)
    requires CtlTyped(s.cpc, s.cmd) && s.cpc.Drive?
    ensures s.cmd.ActCmd? && s.cmd.id < NUM_ACTUATORS && !Dirty(s.cpc)
  {
  }

  /** A store among the first `n` actuators leaves the others, and the other way round. */
  lemma StoreFits(p: Pad, n: nat, id: byte, state: byte)
    requires n <= NUM_ACTUATORS as int && id < NUM_ACTUATORS
    ensures var q := Store(p, id, state);
            q.level == p.level && q.conn == p.conn && if id < n then q.acts[n..] == p.acts[n..] else q.acts[..n] == p.acts[..n]
  {
  }

  /** The level is the first field taken, and written after the actuator. */
  lemma LevelWriteKeepsExplanation(s: Sys, c: Command, q: Pad)
    requires CtlTyped(s.cpc, s.cmd) && RwInv(s) && SnapTyped(s) && Sending(s.tpc) && s.cpc.LevelWrite?
    requires Explains(q, s)
    ensures var t := CtlStep(s, c); t.tpc == s.tpc && (Explains(t.pad, t) || Explains(q, t))
  {
  }

  lemma ConnWriteKeepsExplanation(s: Sys, c: Command, q: Pad)
    requires CtlTyped(s.cpc, s.cmd) && RwInv(s) && SnapTyped(s) && Sending(s.tpc) && s.cpc.ConnWrite?
    requires Explains(q, s)
    ensures var t := CtlStep(s, c); t.tpc == s.tpc && (Explains(t.pad, t) || Explains(q, t))
  {
  }

  /** A controller step that spoils the current pad as an explanation leaves the older one
      good: the level is taken first and written last, and nothing follows before the mutex. */
  lemma CtlKeepsExplanation(s: Sys, c: Command, q: Pad)
    requires CtlEnabled(s) && CtlTyped(s.cpc, s.cmd) && LockInv(s) && SnapTyped(s) && Sending(s.tpc)
    requires Explains(q, s)
    ensures var t := CtlStep(s, c); t.tpc == s.tpc && (Explains(t.pad, t) || Explains(q, t))
  {
    hide Explains, CtlStep;
    if s.cpc.Drive? {
      StoreKeepsExplanation(s, c, q);
    } else if s.cpc.LevelWrite? {
      LevelWriteKeepsExplanation(s, c, q);
    } else if s.cpc.ConnWrite? {
      ConnWriteKeepsExplanation(s, c, q);
    } else {
      QuietStepKeepsExplanation(s, c, q);
    }
  }

  lemma TelKeepsExplanation(s: Sys, timedOut: bool, q: Pad)
    requires TelEnabled(s, false) && SnapTyped(s) && Sending(s.tpc) && Explains(q, s)
    ensures var t := TelStep(s, timedOut);
            Sending(t.tpc) ==> |t.snap.acts| <= NUM_ACTUATORS as int && Explains(q, t)
  {
    if s.tpc.TakeAct? {
      var n := |s.snap.acts|;
      assert s.pad.acts[n..][0] == q.acts[n..][0];
      assert q.acts[..n + 1] == q.acts[..n] + [q.acts[n]];
      assert s.pad.acts[n + 1..] == s.pad.acts[n..][1..] && q.acts[n + 1..] == q.acts[n..][1..];
    }
  }

  lemma RunLocks(b: seq<Sys>, i: nat)
    requires IsRun(b) && i < |b|
    ensures LockInv(b[i]) && SnapTyped(b[i])
  {
    RunInv(b, i);
  }

  /** A packet is begun empty, so the present pad explains it. */
  lemma SendStartsExplained(s: Sys, w: bool)
    requires TelEnabled(s, false) && SnapTyped(s) && !Sending(s.tpc) && Sending(TelStep(s, w).tpc)
    ensures SnapTyped(TelStep(s, w)) && Explains(s.pad, TelStep(s, w)) && TelStep(s, w).pad == s.pad
  {
    assert s.tpc.WaitTest?;
  }

  lemma CtlStartsNoSend(s: Sys, c: Command)
    requires CtlEnabled(s) && CtlTyped(s.cpc, s.cmd) && Sending(CtlStep(s, c).tpc)
    ensures Sending(s.tpc)
  {
  }

  /** One step of either thread: a send starts explained by the present and stays explained. */
  lemma StepKeepsExplanation(s: Sys, m: Move, t: Sys, q: Pad)
    requires Enabled(s, m) && t == Step(s, m)
    requires LockInv(s) && SnapTyped(s) && SnapTyped(t) && Sending(t.tpc)
    requires Sending(s.tpc) ==> Explains(q, s)
    ensures Explains(t.pad, t) || (Sending(s.tpc) && Explains(q, t))
  {
    match m
    case CtlMove(c) =>
      CtlStartsNoSend(s, c);
      CtlKeepsExplanation(s, c, q);
    case TelMove(w) =>
      if Sending(s.tpc) {
        TelKeepsExplanation(s, w, q);
      } else {
        SendStartsExplained(s, w);
      }
  }

  lemma RunStepKeepsExplanation(b: seq<Sys>, i: nat, q: Pad)
    requires IsRun(b) && i + 1 < |b| && Sending(b[i + 1].tpc) && SnapTyped(b[i])
    requires Sending(b[i].tpc) ==> Explains(q, b[i])
    ensures SnapTyped(b[i + 1])
    ensures Explains(b[i + 1].pad, b[i + 1]) || (Sending(b[i].tpc) && Explains(q, b[i + 1]))
  {
    hide Explains, AgreesTaken, AgreesUntaken, Dirty, Sending, LockInv, IsRun, Enabled, Step;
    RunLocks(b, i);
    RunLocks(b, i + 1);
    var m := MoveOf(b, i);
    StepKeepsExplanation(b[i], m, b[i + 1], q);
  }

  lemma FirstIsQuiet(b: seq<Sys>)
    requires IsRun(b)
    ensures !Sending(b[0].tpc) && b[0].last == None
  {
  }

  /** At any moment of a send, some state since the send began explains the packet. */
  lemma {:induction false} Explanation(b: seq<Sys>, i: nat) returns (k: nat)
    requires IsRun(b) && i < |b| && Sending(b[i].tpc)
    ensures Window(b, k, i) && SnapTyped(b[i]) && Explains(b[k].pad, b[i])
    decreases i
  {
    FirstIsQuiet(b);
    RunLocks(b, i - 1);
    k := i;
    if Sending(b[i - 1].tpc) {
      k := Explanation(b, i - 1);
    }
    RunStepKeepsExplanation(b, i - 1, b[k].pad);
    if Explains(b[i].pad, b[i]) {
      k := i;
    }
  }

  /** From state `j` to the next, the packet built at `j` is handed to `sendmsg`. */
  predicate Sends(b: seq<Sys>, j: nat)
    requires j + 1 < |b|
  {
    b[j].tpc.Publish? && b[j + 1].tpc.Clear?
  }

  lemma StepPublishes(s: Sys, m: Move)
    requires Enabled(s, m)
    ensures var t := Step(s, m); t.last == if s.tpc.Publish? && t.tpc.Clear? then Some(s.snap) else s.last
  {
    match m
    case TelMove(_) =>
    case CtlMove(c) =>
      hide CtlStep;
      CtlFootprint(s, c);
  }

  /** What was last published is the packet of the latest send. */
  lemma PublishedByStep(b: seq<Sys>, i: nat)
    requires IsRun(b) && i + 1 < |b|
    ensures b[i + 1].last == if Sends(b, i) then Some(b[i].snap) else b[i].last
  {
    hide IsRun, Enabled, Step;
    var m := MoveOf(b, i);
    StepPublishes(b[i], m);
  }

  lemma CompletePacketIsPad(s: Sys, q: Pad)
    requires SnapTyped(s) && s.tpc.Publish? && Explains(q, s)
    ensures s.snap == q
  {
    assert q.acts[..|s.snap.acts|] == q.acts;
  }

  /** At instant `k` of the send that completes at `j`, the pad was what the packet says. */
  ghost predicate Shows(b: seq<Sys>, k: nat, j: nat) {
    Window(b, k, j) && b[j].tpc.Publish? && b[j].snap == b[k].pad
  }

  /** Every packet about to be published is the real pad state at one instant of its own send. */
  lemma SendShowsOnePad(b: seq<Sys>, j: nat) returns (k: nat)
    requires IsRun(b) && j < |b| && b[j].tpc.Publish?
    ensures Shows(b, k, j)
  {
    k := Explanation(b, j);
    CompletePacketIsPad(b[j], b[k].pad);
  }

  /** At any moment, what was last published is the packet of the latest send, `j`, and was
      the real pad state at one instant `k` of that send. */
  lemma {:induction false} SnapshotAtomicity(b: seq<Sys>, i: nat) returns (k: nat, j: nat)
    requires IsRun(b) && i < |b| && b[i].last.Some?
    ensures j < i && Sends(b, j) && forall l | j < l < i :: !Sends(b, l)
    ensures forall l | j < l <= i :: b[l].last == Some(b[j].snap)
    ensures Shows(b, k, j) && b[i].last == Some(b[k].pad)
    decreases i
  {
    FirstIsQuiet(b);
    j := i - 1;
    PublishedByStep(b, j);
    if Sends(b, j) {
      k := SendShowsOnePad(b, j);
    } else {
      k, j := SnapshotAtomicity(b, j);
    }
  }

  /** The packets handed to `sendmsg` by the time of state `i`, in order. */
  ghost function Packets(b: seq<Sys>, i: nat): seq<PadFields>
    requires i < |b|
  {
    if i == 0 then [] else Packets(b, i - 1) + if Sends(b, i - 1) then [b[i - 1].snap] else []
  }

  /** The send in progress at instant `k` is over before instant `e`. */
  ghost predicate OverBetween(b: seq<Sys>, k: nat, e: nat)
    requires e <= |b|
  {
    exists l :: k < l < e && !Sending(b[l].tpc)
  }

  /** The pad was what each packet says at an instant of its send, and these instants lie in
      different sends, in the order of the packets. */
  ghost predicate Tracks(b: seq<Sys>, ps: seq<PadFields>, ks: seq<nat>) {
    && |ks| == |ps|
    && (forall n | 0 <= n < |ks| :: ks[n] < |b| && Sending(b[ks[n]].tpc) && ps[n] == b[ks[n]].pad)
    && (forall n, m | 0 <= n < m < |ks| :: OverBetween(b, ks[n], ks[m]))
  }

  ghost predicate AllOver(b: seq<Sys>, ks: seq<nat>, e: nat)
    requires e <= |b|
  {
    forall n | 0 <= n < |ks| :: OverBetween(b, ks[n], e)
  }

  lemma {:induction false} PacketInstants(b: seq<Sys>, i: nat) returns (ks: seq<nat>)
    requires IsRun(b) && i < |b|
    ensures Tracks(b, Packets(b, i), ks) && AllOver(b, ks, i + 1)
    ensures b[i].last == if ks == [] then None else Some(Packets(b, i)[|ks| - 1])
    decreases i
  {
    hide IsRun, Tracks, AllOver, Shows;
    FirstIsQuiet(b);
    ks := [];
    if i == 0 {
      NothingTracked(b);
    } else {
      ks := PacketInstants(b, i - 1);
      PublishedByStep(b, i - 1);
      TracksOnePerPacket(b, Packets(b, i - 1), ks);
      if Sends(b, i - 1) {
        var k := SendShowsOnePad(b, i - 1);
        SendExtendsTrack(b, Packets(b, i - 1), ks, k, i - 1);
        ks := ks + [k];
      } else {
        StillOver(b, ks, i);
        assert Packets(b, i) == Packets(b, i - 1);
      }
    }
  }

  lemma NothingTracked(b: seq<Sys>)
    requires |b| > 0
    ensures Tracks(b, [], []) && AllOver(b, [], 1)
  {
  }

  lemma TracksOnePerPacket(b: seq<Sys>, ps: seq<PadFields>, ks: seq<nat>)
    requires Tracks(b, ps, ks)
    ensures |ps| == |ks|
  {
  }

  lemma StillOver(b: seq<Sys>, ks: seq<nat>, e: nat)
    requires e < |b| && AllOver(b, ks, e)
    ensures AllOver(b, ks, e + 1)
  {
    forall n | 0 <= n < |ks| ensures OverBetween(b, ks[n], e + 1) {
      assert OverBetween(b, ks[n], e);
    }
  }

  /** The send that completes at `j` adds one instant, later than all before it. */
  lemma SendExtendsTrack(b: seq<Sys>, ps: seq<PadFields>, ks: seq<nat>, k: nat, j: nat)
    requires j + 1 < |b| && Tracks(b, ps, ks) && AllOver(b, ks, j + 1) && Sends(b, j) && Shows(b, k, j)
    ensures Tracks(b, ps + [b[j].snap], ks + [k]) && AllOver(b, ks + [k], j + 2)
  {
    var all := ks + [k];
    forall n | 0 <= n < |ks| ensures OverBetween(b, all[n], k) {
      assert OverBetween(b, ks[n], j + 1);
      OverBeforeWindow(b, ks[n], k, j);
    }
    forall n, m | 0 <= n < m < |all| ensures OverBetween(b, all[n], all[m]) {
      if m < |ks| { assert OverBetween(b, ks[n], ks[m]); }
    }
    forall n | 0 <= n < |all| ensures OverBetween(b, all[n], j + 2) {
      assert !Sending(b[j + 1].tpc);
      if n < |ks| { assert OverBetween(b, ks[n], j + 1); }
    }
  }

  /** A send that is over by the end of a window is over before the window begins. */
  lemma OverBeforeWindow(b: seq<Sys>, k: nat, w: nat, j: nat)
    requires j < |b| && Window(b, w, j) && OverBetween(b, k, j + 1)
    ensures OverBetween(b, k, w)
  {
    var l :| k < l < j + 1 && !Sending(b[l].tpc);
    assert l < w;
  }

  lemma {:induction false} LogGrows(b: seq<Sys>, i: nat, j: nat)
    requires IsRun(b) && i <= j < |b|
    ensures b[i].log <= b[j].log
    decreases j
  {
    if i < j {
      LogGrows(b, i, j - 1);
      RunLocks(b, j - 1);
      var m := MoveOf(b, j - 1);
      StepKeepsLogged(b[j - 1], m);
    }
  }

  /** No step takes back a finished command. */
  lemma StepKeepsLogged(s: Sys, m: Move)
    requires Enabled(s, m) && SnapTyped(s)
    ensures s.log <= Step(s, m).log
  {
  }

  /** Packets never go back in time: the stream of published packets is the pad's own
      history seen at ever later instants, one inside each send, so that each packet shows
      at least the commands finished before the one before it. */
  lemma PacketsInOrder(b: seq<Sys>, i: nat) returns (ks: seq<nat>)
    requires IsRun(b) && i < |b|
    ensures Tracks(b, Packets(b, i), ks)
    ensures forall n, m | 0 <= n < m < |ks| :: ks[n] < ks[m] && b[ks[n]].log <= b[ks[m]].log
    ensures b[i].last == if ks == [] then None else Some(Packets(b, i)[|ks| - 1])
  {
    ks := PacketInstants(b, i);
    forall n, m | 0 <= n < m < |ks| ensures ks[n] < ks[m] && b[ks[n]].log <= b[ks[m]].log {
      assert OverBetween(b, ks[n], ks[m]);
      LogGrows(b, ks[n], ks[m]);
    }
  }

  /** The one moment at which the pad differs from every command boundary: a special
      actuator is stored and its level change is still to come. */
  ghost predicate Halfway(start: Pad, c: Command, p: Pad) {
    c.ActCmd? && c.id < NUM_ACTUATORS && Advances(start.level, c.id, c.state) && p == Store(start, c.id, c.state)
  }

  /** The pad is always the result of the finished commands, of those and the current one,
      or halfway through an advancing actuation. */
  lemma PadIsBoundaryOrHalfway(b: seq<Sys>, i: nat)
    requires IsRun(b) && i < |b|
    ensures var s := b[i];
            var p := Final(InitPad(), Commands(s.log));
            s.pad == p || s.pad == Handle(p, s.cmd).0 || Halfway(p, s.cmd, s.pad)
  {
    RunInv(b, i);
    HistoryIsFold(InitPad(), b[i].log);
    if BetweenStores(b[i].cpc) { BetweenIsHalfwayOrDone(b[i]); }
  }

  lemma BetweenIsHalfwayOrDone(s: Sys)
    requires CommandInv(s) && BetweenStores(s.cpc)
    ensures s.pad == Handle(s.start, s.cmd).0 || Halfway(s.start, s.cmd, s.pad)
  {
    assert Rest(s.cpc, s.cmd, s.pad).1 == ActAck(s.cmd.id, ActOk);
  }

  /** So a packet never shows more than one command's worth of intermediate state: at some
      instant of its own send it is the fold of the finished commands, or of those and the
      current one, or shows a special actuator on with the level it had before. */
  lemma PublishedIsBoundaryOrHalfway(b: seq<Sys>, i: nat) returns (k: nat, j: nat)
    requires IsRun(b) && i < |b| && b[i].last.Some?
    ensures j < i && Sends(b, j) && (forall l | j < l < i :: !Sends(b, l)) && Shows(b, k, j)
    ensures var p := Final(InitPad(), Commands(b[k].log));
            var q := b[k].pad;
            b[i].last == Some(q) && (q == p || q == Handle(p, b[k].cmd).0 || Halfway(p, b[k].cmd, q))
  {
    hide Handle, Final, Halfway, Sends;
    k, j := SnapshotAtomicity(b, i);
    PadIsBoundaryOrHalfway(b, k);
  }

  // ---- No update is lost ----

  /** Unless an update is recorded or still to be announced, the last packet is current. */
  lemma NoLostUpdate(b: seq<Sys>, i: nat)
    requires IsRun(b) && i < |b| && b[i].last.Some?
    requires !b[i].recorded && !Dirty(b[i].cpc)
    ensures b[i].last == Some(b[i].pad)
  {
    RunInv(b, i);
  }

  /** The telemetry thread sleeps on a recorded update only until the signal already on its way. */
  lemma NoLostWakeup(b: seq<Sys>, i: nat)
    requires IsRun(b) && i < |b| && b[i].tpc.Waiting? && b[i].recorded
    ensures b[i].cpc.SignalWake? && b[i].mut == Ctl
  {
    RunInv(b, i);
  }

  // ---- Refinement ----

  /** The commands the controller has taken up by the time of state `i`, in order. */
  ghost function Issued(b: seq<Sys>, i: nat): seq<Command>
    requires i < |b|
  {
    if i == 0 then []
    else Issued(b, i - 1) + if b[i - 1].cpc.Idle? && !b[i].cpc.Idle? then [b[i].cmd] else []
  }

  ghost function Current(s: Sys): seq<Command> {
    if s.cpc.Idle? then [] else [s.cmd]
  }

  lemma StepIssues(s: Sys, m: Move)
    requires Enabled(s, m) && SnapTyped(s)
    ensures var t := Step(s, m);
            Commands(t.log) + Current(t) ==
            Commands(s.log) + Current(s) + if s.cpc.Idle? && !t.cpc.Idle? then [t.cmd] else []
  {
    match m
    case TelMove(w) => TelLeavesControllerAlone(s, w);
    case CtlMove(c) =>
      CtlIssues(s, c);
      if s.cpc.Answer? { assert Commands(Step(s, m).log) == Commands(s.log) + [s.cmd]; }
  }

  lemma RunStepIssues(b: seq<Sys>, i: nat)
    requires IsRun(b) && i + 1 < |b|
    ensures var s, t := b[i], b[i + 1];
            Commands(t.log) + Current(t) ==
            Commands(s.log) + Current(s) + if s.cpc.Idle? && !t.cpc.Idle? then [t.cmd] else []
  {
    hide IsRun, Enabled, Step, LockInv;
    RunLocks(b, i);
    var m := MoveOf(b, i);
    StepIssues(b[i], m);
  }

  lemma FreshLog(b: seq<Sys>)
    requires IsRun(b)
    ensures b[0].log == [] && b[0].cpc.Idle?
  {
  }

  lemma {:induction false} LogIsIssued(b: seq<Sys>, i: nat)
    requires IsRun(b) && i < |b|
    ensures Commands(b[i].log) + Current(b[i]) == Issued(b, i)
    decreases i
  {
    hide IsRun;
    if i == 0 {
      FreshLog(b);
    } else {
      LogIsIssued(b, i - 1);
      RunStepIssues(b, i - 1);
    }
  }

  /** A history and one more command, as a fold. */
  lemma FoldWithCurrent(h: seq<Event>, c: Command)
    requires IsHistory(InitPad(), h)
    ensures Final(InitPad(), Commands(h) + [c]) == Handle(At(InitPad(), h, |h|), c).0
    ensures Replies(InitPad(), Commands(h) + [c]) == Answers(h) + [Handle(At(InitPad(), h, |h|), c).1]
  {
    hide Handle, Final, Replies, IsHistory;
    HistoryIsFold(InitPad(), h);
    FoldSnoc(InitPad(), Commands(h), c);
  }

  lemma AnswerIsAtomic(s: Sys)
    requires CommandInv(s) && s.cpc.Answer?
    ensures (s.pad, s.cpc.reply) == Handle(s.start, s.cmd)
  {
  }

  /** What the controller has answered and left on the pad is the fold of `cmds`. */
  ghost predicate IsFoldOf(s: Sys, cmds: seq<Command>) {
    var p, rs := Final(InitPad(), cmds), Replies(InitPad(), cmds);
    match s.cpc
    case Idle => s.pad == p && Answers(s.log) == rs
    case Answer(r) => s.pad == p && Answers(s.log) + [r] == rs
    case _ => Answers(s.log) <= rs
  }

  /** Whatever the telemetry thread does, the controller's answers, and the pad between
      commands, are those of folding the atomic operation over the commands it took up. */
  lemma {:induction false} ThreadsRefineAtomic(b: seq<Sys>, i: nat)
    requires IsRun(b) && i < |b|
    ensures IsFoldOf(b[i], Issued(b, i))
  {
    hide Handle, Final, Replies, Issued, IsHistory, IsRun;
    var s := b[i];
    LogIsIssued(b, i);
    RunLog(b, i);
    if s.cpc.Idle? {
      assert Commands(s.log) == Issued(b, i);
      HistoryIsFold(InitPad(), s.log);
    } else {
      FoldWithCurrent(s.log, s.cmd);
    }
  }

  lemma RunLog(b: seq<Sys>, i: nat)
    requires IsRun(b) && i < |b|
    ensures LogInv(b[i])
    ensures b[i].cpc.Answer? ==> (b[i].pad, b[i].cpc.reply) == Handle(b[i].start, b[i].cmd)
  {
    RunInv(b, i);
    if b[i].cpc.Answer? { AnswerIsAtomic(b[i]); }
  }

  /** The launch interlock under every interleaving: an accepted fire-valve command was
      climbed to by 1->2, 2->3, 3->4 with no fall between, whatever the telemetry thread did. */
  lemma InterlockUnderThreads(b: seq<Sys>, i: nat, n: nat) returns (c: Climb)
    requires IsRun(b) && i < |b| && n < |b[i].log| && Accepted(b[i].log[n], ID_FIRE_VALVE)
    ensures IsClimb(b[i].log, c, n) && b[i].log[c.toIgnition].before.level == ARMED_VALVES
  {
    RunLog(b, i);
    c := ClimbHistory(InitPad(), b[i].log, n);
  }

  // ---- Progress ----

  /** Telemetry steps until it lets go of the mutex. */
  function HoldRank(s: Sys): int {
    match s.tpc
    case MutexUnlock => 1
    case Clear => 2
    case Publish => 3
    case TakeAct => 3 + NUM_ACTUATORS - |s.snap.acts|
    case DropConnLock => 19
    case TakeConn => 20
    case TakeConnLock => 21
    case DropLevelLock => 22
    case TakeLevel => 23
    case TakeLevelLock => 24
    case WaitTest(_) => 25
    case _ => 0
  }

  /** `run` is the telemetry thread stepping alone, never refused a lock even by an
      implementation that favours writers. Any wait it comes to ends by a time-out, or not. */
  ghost predicate TelAlone(run: seq<Sys>, timesOut: bool) {
    && |run| > 0
    && forall j | 0 <= j < |run| - 1 ::
         TelEnabled(run[j], true) && SnapTyped(run[j]) && run[j + 1] == TelStep(run[j], timesOut)
  }

  lemma TelAlonePrepend(s: Sys, run: seq<Sys>, timesOut: bool)
    requires TelAlone(run, timesOut) && TelEnabled(s, true) && SnapTyped(s) && run[0] == TelStep(s, timesOut)
    ensures TelAlone([s] + run, timesOut)
  {
    var r := [s] + run;
    forall j | 0 <= j < |r| - 1
      ensures TelEnabled(r[j], true) && SnapTyped(r[j]) && r[j + 1] == TelStep(r[j], timesOut)
    {
      if j > 0 { assert r[j] == run[j - 1] && r[j + 1] == run[j]; }
    }
  }

  /** While the controller is blocked, the telemetry thread can step and comes nearer to letting go. */
  lemma BlockedControllerStep(s: Sys)
    requires Inv(s) && !CtlEnabled(s)
    ensures TelEnabled(s, true) && HoldRank(s) > 0
    ensures CtlEnabled(TelStep(s, false)) || HoldRank(TelStep(s, false)) < HoldRank(s)
  {
    hide Rest, Handle, BeforeStores, BetweenStores, CodeMoves, LogInv, UpdateInv, CtlTyped;
  }

  /** A blocked controller waits for at most 25 telemetry steps, each of which can be taken. */
  lemma ControllerUnblocks(s: Sys) returns (run: seq<Sys>)
    requires Inv(s)
    ensures TelAlone(run, false) && run[0] == s && |run| <= 26
    ensures CtlEnabled(run[|run| - 1])
  {
    HoldRankBound(s);
    run := ControllerUnblocksWithin(s, 25);
  }

  lemma HoldRankBound(s: Sys)
    ensures HoldRank(s) <= 25
  {
  }

  lemma {:induction false} ControllerUnblocksWithin(s: Sys, fuel: nat) returns (run: seq<Sys>)
    requires Inv(s) && HoldRank(s) <= fuel
    ensures TelAlone(run, false) && run[0] == s && |run| <= fuel + 1
    ensures CtlEnabled(run[|run| - 1])
    decreases fuel
  {
    run := [s];
    if !CtlEnabled(s) {
      BlockedControllerStep(s);
      TelKeepsInv(s, false);
      var t := TelStep(s, false);
      var rest := [t];
      if !CtlEnabled(t) {
        rest := ControllerUnblocksWithin(t, fuel - 1);
      }
      TelAlonePrepend(s, rest, false);
      run := [s] + rest;
    }
  }

  /** `run` is the controller thread stepping alone inside one command. */
  ghost predicate CtlAlone(run: seq<Sys>) {
    && |run| > 0
    && forall j | 0 <= j < |run| - 1 ::
         CtlEnabled(run[j]) && CtlTyped(run[j].cpc, run[j].cmd) && run[j + 1] == CtlStep(run[j], run[j].cmd)
  }

  /** While the telemetry thread is refused a lock, the controller can step and comes nearer to letting go. */
  lemma BlockedTelemetryStep(s: Sys)
    requires LockInv(s) && CtlTyped(s.cpc, s.cmd) && !TelEnabled(s, true)
    ensures CtlEnabled(s) && 0 < CtlHoldRank(s.cpc) <= 4
    ensures CtlHoldRank(CtlStep(s, s.cmd).cpc) < CtlHoldRank(s.cpc) && CtlStep(s, s.cmd).tpc == s.tpc
  {
  }

  /** A blocked telemetry thread waits for at most 4 controller steps, each of which can be taken. */
  lemma {:induction false} TelemetryUnblocks(s: Sys) returns (run: seq<Sys>)
    requires LockInv(s) && CtlTyped(s.cpc, s.cmd) && CommandInv(s)
    ensures CtlAlone(run) && run[0] == s && |run| <= CtlHoldRank(s.cpc) + 1 <= 5
    ensures TelEnabled(run[|run| - 1], true)
    decreases CtlHoldRank(s.cpc)
  {
    run := [s];
    if !TelEnabled(s, true) {
      BlockedTelemetryStep(s);
      CtlKeepsLocks(s, s.cmd);
      CtlKeepsCommand(s, s.cmd);
      var rest := TelemetryUnblocks(CtlStep(s, s.cmd));
      run := [s] + rest;
      assert forall j | 1 <= j < |run| :: run[j] == rest[j - 1];
    }
  }

  /** In every reachable state at least one thread can step, and a thread that cannot is
      waiting for a lock that the other holds, or is queued for, and can go on to release. */
  lemma NoDeadlock(b: seq<Sys>, i: nat)
    requires IsRun(b) && i < |b|
    ensures var s := b[i];
            && CtlTyped(s.cpc, s.cmd) && SnapTyped(s)
            && (!CtlEnabled(s) ==> TelEnabled(s, true) && (TelHoldsMutex(s.tpc) || TelReads(s.tpc)))
            && (!TelEnabled(s, true) ==> CtlEnabled(s) && (CtlHoldsMutex(s.cpc) || CtlWrites(s.cpc) || WriterQueued(s)))
  {
    RunInv(b, i);
  }

  /** From every reachable state, the waits are bounded: the telemetry thread alone frees the
      controller within 25 steps, and the controller alone frees the telemetry thread within 4. */
  lemma WaitsAreBounded(b: seq<Sys>, i: nat) returns (tel: seq<Sys>, ctl: seq<Sys>)
    requires IsRun(b) && i < |b|
    ensures TelAlone(tel, false) && tel[0] == b[i] && |tel| <= 26 && CtlEnabled(tel[|tel| - 1])
    ensures CtlAlone(ctl) && ctl[0] == b[i] && |ctl| <= 5 && TelEnabled(ctl[|ctl| - 1], true)
  {
    RunInv(b, i);
    tel := ControllerUnblocks(b[i]);
    ctl := TelemetryUnblocks(b[i]);
  }

  /** From every reachable state with an update recorded and announced, and the controller
      paused outside its locks, the telemetry thread completes a send of the current pad
      within 26 steps. */
  lemma RecordedUpdateIsPublished(b: seq<Sys>, i: nat) returns (run: seq<Sys>)
    requires IsRun(b) && i < |b|
    requires b[i].recorded && !Dirty(b[i].cpc) && b[i].mut != Ctl && !b[i].rw.writer && !WriterQueued(b[i])
    ensures TelAlone(run, false) && run[0] == b[i] && |run| <= 27
    ensures run[|run| - 1].tpc.Clear? && run[|run| - 1].last == Some(b[i].pad)
  {
    RunInv(b, i);
    run := UpdateIsPublished(b[i]);
  }

  /** Controller steps until it lets go of the lock it holds or is queued for. */
  function CtlHoldRank(pc: CtlPc): nat {
    match pc
    case LevelLock(_, _) => 4
    case LevelTest(_, _) => 3
    case LevelWrite(_, _) => 2
    case LevelUnlock(_, _) => 1
    case ConnLock => 3
    case ConnWrite => 2
    case ConnUnlock => 1
    case SignalSet(_) => 3
    case SignalWake(_) => 2
    case SignalUnlock(_) => 1
    case _ => 0
  }

  /** Telemetry steps until the next packet is out. */
  function PublishRank(s: Sys): int {
    match s.tpc
    case Clear => 0
    case Publish => 1
    case MutexLock | Woken(_) => 24
    case Begin => 25
    case MutexUnlock => 26
    case Waiting => 27
    case _ => HoldRank(s) - 2
  }

  /** With an update recorded and the controller out of its locks, each telemetry step can be
      taken and comes nearer to a packet. */
  lemma PausedControllerStep(s: Sys)
    requires LockInv(s) && SnapInv(s) && UpdateInv(s) && !s.tpc.Clear?
    requires s.recorded && !Dirty(s.cpc) && s.mut != Ctl && !s.rw.writer && !WriterQueued(s)
    ensures TelEnabled(s, true) && 0 < PublishRank(s) <= 26
    ensures var t := TelStep(s, false);
            0 <= PublishRank(t) < PublishRank(s) && t.recorded && t.cpc == s.cpc && t.pad == s.pad
            && t.mut != Ctl && !t.rw.writer
  {
  }

  /** A recorded update reaches the network: with the controller paused outside its locks, the
      telemetry thread alone publishes the current pad within 26 steps, without waiting. */
  lemma {:induction false} UpdateIsPublished(s: Sys) returns (run: seq<Sys>)
    requires LockInv(s) && SnapInv(s) && UpdateInv(s)
    requires s.recorded && !Dirty(s.cpc) && s.mut != Ctl && !s.rw.writer && !WriterQueued(s)
    ensures TelAlone(run, false) && run[0] == s && |run| <= 27 && |run| <= PublishRank(s) + 1
    ensures run[|run| - 1].tpc.Clear? && run[|run| - 1].last == Some(s.pad)
    decreases PublishRank(s)
  {
    run := [s];
    if !s.tpc.Clear? {
      PausedControllerStep(s);
      TelKeepsLocks(s, false);
      TelKeepsSnapshot(s, false);
      TelKeepsUpdate(s, false);
      var rest := UpdateIsPublished(TelStep(s, false));
      TelAlonePrepend(s, rest, false);
      run := [s] + rest;
    }
  }

  // ---- Why telemetry sends ----

  /** Telemetry steps until the next packet is out, if a wait ends by a time-out. */
  function BeatRank(s: Sys): int {
    match s.tpc
    case Clear => 0
    case WaitTest(timedOut) => if timedOut then 23 else 26
    case Woken(timedOut) => if timedOut then 24 else 27
    case Waiting => 25
    case MutexLock => 27
    case Begin => 28
    case MutexUnlock => 29
    case _ => HoldRank(s) - 2
  }

  /** What has been taken so far is the present pad's, and so is a packet just sent. */
  predicate Fresh(s: Sys) {
    && SnapTyped(s)
    && (Sending(s.tpc) ==> AgreesTaken(s.pad, s))
    && (s.tpc.Clear? ==> s.last == Some(s.pad))
  }

  predicate CtlOutsideLocks(s: Sys) {
    s.mut != Ctl && !s.rw.writer && !WriterQueued(s)
  }

  /** A telemetry step takes the present value, and sends what it has taken. */
  lemma SendingKeepsFresh(s: Sys, timedOut: bool)
    requires TelEnabled(s, false) && Fresh(s) && Sending(s.tpc)
    ensures Fresh(TelStep(s, timedOut)) && TelStep(s, timedOut).pad == s.pad
  {
    if s.tpc.TakeAct? {
      var i := |s.snap.acts|;
      assert s.pad.acts[..i + 1] == s.pad.acts[..i] + [s.pad.acts[i]];
    } else if s.tpc.Publish? {
      assert s.pad.acts[..|s.snap.acts|] == s.pad.acts;
    }
  }

  lemma WaitingKeepsFresh(s: Sys, timedOut: bool)
    requires TelEnabled(s, false) && Fresh(s) && !Sending(s.tpc)
    ensures Fresh(TelStep(s, timedOut)) && TelStep(s, timedOut).pad == s.pad
  {
  }

  /** With the controller out of its locks, every telemetry step can be taken and comes
      nearer to a packet, a timed-out wait included. */
  lemma BeatStep(s: Sys)
    requires LockInv(s) && SnapTyped(s) && !s.tpc.Clear? && CtlOutsideLocks(s)
    ensures TelEnabled(s, true) && 0 < BeatRank(s) <= 29
    ensures var t := TelStep(s, true); 0 <= BeatRank(t) < BeatRank(s) && CtlOutsideLocks(t)
  {
  }

  lemma {:induction false} BeatIsSent(s: Sys) returns (run: seq<Sys>)
    requires LockInv(s) && Fresh(s) && CtlOutsideLocks(s)
    ensures TelAlone(run, true) && run[0] == s && |run| <= 30 && |run| <= BeatRank(s) + 1
    ensures run[|run| - 1].tpc.Clear? && run[|run| - 1].last == Some(s.pad)
    decreases BeatRank(s)
  {
    hide LockInv, Fresh, CtlOutsideLocks, TelStep, HoldRank, Sending;
    FreshFacts(s);
    run := [s];
    if !s.tpc.Clear? {
      BeatStep(s);
      TelKeepsLocks(s, true);
      if Sending(s.tpc) {
        SendingKeepsFresh(s, true);
      } else {
        WaitingKeepsFresh(s, true);
      }
      var rest := BeatIsSent(TelStep(s, true));
      TelAlonePrepend(s, rest, true);
      run := [s] + rest;
    }
  }

  lemma FreshFacts(s: Sys)
    requires Fresh(s)
    ensures SnapTyped(s) && (s.tpc.Clear? ==> s.last == Some(s.pad) && BeatRank(s) == 0)
  {
  }

  /** The heartbeat: from every reachable state between two sends, with the controller paused
      outside its locks and whether or not anything is recorded, the telemetry thread whose
      wait times out completes a send of the current pad, within 25 steps if it is waiting and
      within 29 in any case. */
  lemma HeartbeatIsSent(b: seq<Sys>, i: nat) returns (run: seq<Sys>)
    requires IsRun(b) && i < |b| && !Sending(b[i].tpc) && !b[i].tpc.Clear?
    requires b[i].mut != Ctl && !b[i].rw.writer && !WriterQueued(b[i])
    ensures TelAlone(run, true) && run[0] == b[i]
    ensures |run| <= 30 && (b[i].tpc.Waiting? ==> |run| <= 26)
    ensures run[|run| - 1].tpc.Clear? && run[|run| - 1].last == Some(b[i].pad)
  {
    RunInv(b, i);
    run := BeatIsSent(b[i]);
  }

  /** The wait has ended by a time-out. */
  predicate TimedOut(pc: TelPc) {
    (pc.WaitTest? && pc.timedOut) || (pc.Woken? && pc.timedOut)
  }

  /** What one step can do to begin a send, to time out, and to record an update. */
  lemma StepReasons(s: Sys, m: Move)
    requires Enabled(s, m)
    ensures var t := Step(s, m);
            && (Sending(t.tpc) && !Sending(s.tpc) ==> s.tpc.WaitTest? && (s.recorded || s.tpc.timedOut))
            && (TimedOut(t.tpc) ==> TimedOut(s.tpc) || (s.tpc.Waiting? && t.tpc == Woken(true)))
            && (t.recorded && !t.tpc.Clear? ==> (s.recorded && !s.tpc.Clear?) || s.cpc.SignalSet?)
  {
    match m
    case TelMove(_) =>
    case CtlMove(c) =>
      hide CtlStep;
      CtlFootprint(s, c);
  }

  lemma RunReasons(b: seq<Sys>, i: nat)
    requires IsRun(b) && i + 1 < |b|
    ensures var s, t := b[i], b[i + 1];
            && (Sending(t.tpc) && !Sending(s.tpc) ==> s.tpc.WaitTest? && (s.recorded || s.tpc.timedOut))
            && (TimedOut(t.tpc) ==> TimedOut(s.tpc) || (s.tpc.Waiting? && t.tpc == Woken(true)))
            && (t.recorded && !t.tpc.Clear? ==> (s.recorded && !s.tpc.Clear?) || s.cpc.SignalSet?)
  {
    hide IsRun, Enabled, Step, Sending, TimedOut;
    var m := MoveOf(b, i);
    StepReasons(b[i], m);
  }

  lemma FirstHasNoReason(b: seq<Sys>)
    requires IsRun(b)
    ensures !Sending(b[0].tpc) && !TimedOut(b[0].tpc) && !b[0].recorded
  {
  }

  /** Where the send in progress began. */
  lemma {:induction false} SendStart(b: seq<Sys>, j: nat) returns (w: nat)
    requires IsRun(b) && j < |b| && Sending(b[j].tpc)
    ensures w < j && Window(b, w + 1, j)
    ensures b[w].tpc.WaitTest? && (b[w].recorded || b[w].tpc.timedOut)
    decreases j
  {
    hide IsRun, Sending;
    FirstHasNoReason(b);
    RunReasons(b, j - 1);
    w := j - 1;
    if Sending(b[j - 1].tpc) {
      w := SendStart(b, j - 1);
    }
  }

  lemma {:induction false} TimeOutStart(b: seq<Sys>, w: nat) returns (e: nat)
    requires IsRun(b) && w < |b| && TimedOut(b[w].tpc)
    ensures e < w && b[e].tpc.Waiting? && b[e + 1].tpc == Woken(true)
    ensures forall l | e < l <= w :: TimedOut(b[l].tpc)
    decreases w
  {
    hide IsRun, TimedOut;
    FirstHasNoReason(b);
    RunReasons(b, w - 1);
    e := w - 1;
    if TimedOut(b[w - 1].tpc) {
      e := TimeOutStart(b, w - 1);
    }
  }

  lemma {:induction false} UpdateStart(b: seq<Sys>, w: nat) returns (e: nat)
    requires IsRun(b) && w < |b| && b[w].recorded && !b[w].tpc.Clear?
    ensures e < w && b[e].cpc.SignalSet? && forall l | e < l <= w :: !b[l].tpc.Clear?
    decreases w
  {
    hide IsRun;
    FirstHasNoReason(b);
    RunReasons(b, w - 1);
    e := w - 1;
    if b[w - 1].recorded && !b[w - 1].tpc.Clear? {
      e := UpdateStart(b, w - 1);
    }
  }

  /** Nothing is sent without a reason: since the packet before it, an update was recorded by
      the controller, or the wait ended by a time-out. */
  lemma SendHasReason(b: seq<Sys>, j: nat) returns (e: nat)
    requires IsRun(b) && j + 1 < |b| && Sends(b, j)
    ensures e < j && forall l | e < l <= j :: !b[l].tpc.Clear?
    ensures b[e].cpc.SignalSet? || (b[e].tpc.Waiting? && b[e + 1].tpc == Woken(true))
  {
    hide IsRun;
    var w := SendStart(b, j);
    if b[w].recorded {
      e := UpdateStart(b, w);
    } else {
      e := TimeOutStart(b, w);
    }
    forall l | e < l <= j ensures !b[l].tpc.Clear? {
      assert if l <= w then TimedOut(b[l].tpc) || !b[l].tpc.Clear? else Sending(b[l].tpc);
    }
  }

  // ---- How often the controller signals ----

  /** A granted arming request, a change of connection and an accepted actuation are each
      announced once, an actuation that advances the level once more for the level. */
  function Announced(e: Event): nat {
    if e.cmd.ConnCmd? || e.reply == ArmAck(ArmOk) then 1
    else if e.reply.ActAck? && e.reply.act == ActOk then if e.after.level == e.before.level then 1 else 2
    else 0
  }

  function AnnouncedIn(h: seq<Event>): nat {
    if h == [] then 0 else AnnouncedIn(h[..|h| - 1]) + Announced(h[|h| - 1])
  }

  /** Signals the current command has given so far. */
  function SignalsGiven(s: Sys): nat {
    match s.cpc
    case SignalLock(a) => if a == ActDone(false) then 1 else 0
    case SignalSet(a) => if a == ActDone(false) then 1 else 0
    case SignalWake(a) => if a == ActDone(false) then 1 else 0
    case SignalUnlock(a) => if a == ActDone(false) then 2 else 1
    case Answer(r) => Announced(Event(s.cmd, s.start, s.pad, r))
    case _ => 0
  }

  /** What the path taken says about the level: it has moved on the way to a second signal
      and has not on the way to a single one. */
  predicate PathInv(s: Sys) {
    match s.cpc
    case LevelWrite(l, inner) => CodeMoves(s.pad.level, l)
    case LevelUnlock(inner, moved) => inner ==> (moved <==> s.pad.level != s.start.level)
    case SignalLock(a) => AfterPath(s, a)
    case SignalSet(a) => AfterPath(s, a)
    case SignalWake(a) => AfterPath(s, a)
    case SignalUnlock(a) => AfterPath(s, a)
    case _ => true
  }

  predicate AfterPath(s: Sys, a: After) {
    match a
    case LevelDone => s.pad.level != s.start.level
    case ActDone(single) => single <==> s.pad.level == s.start.level
    case _ => true
  }

  predicate SignalInv(s: Sys) {
    PathInv(s) && s.signals == AnnouncedIn(s.log) + SignalsGiven(s)
  }

  /** The path stays true, and a signal is given exactly in `SignalWake`; at its end the
      command has given as many as it is announced. */
  predicate CountsOn(s: Sys, t: Sys) {
    && PathInv(t)
    && t.signals == s.signals + (if s.cpc.SignalWake? then 1 else 0)
    && SignalsGiven(t) == (if s.cpc.Answer? then 0 else SignalsGiven(s) + (if s.cpc.SignalWake? then 1 else 0))
  }

  lemma DecidingCountsSignals(s: Sys, c: Command)
    requires CtlEnabled(s) && CommandInv(s) && PathInv(s) && Deciding(s.cpc)
    ensures CountsOn(s, CtlStep(s, c))
  {
    hide Handle, SwitchPermits;
  }

  lemma SignallingCountsSignals(s: Sys, c: Command)
    requires CtlEnabled(s) && CommandInv(s) && PathInv(s) && Signalling(s.cpc)
    ensures CountsOn(s, CtlStep(s, c))
  {
    hide Handle, Store, CodeMoves;
  }

  lemma StoringCountsSignals(s: Sys, c: Command)
    requires CtlEnabled(s) && CommandInv(s) && PathInv(s) && !Deciding(s.cpc) && !Signalling(s.cpc)
    ensures CountsOn(s, CtlStep(s, c))
  {
    hide Handle;
  }

  lemma CtlCountsSignals(s: Sys, c: Command)
    requires CtlEnabled(s) && CommandInv(s) && PathInv(s)
    ensures CountsOn(s, CtlStep(s, c))
  {
    hide CtlStep, CommandInv, PathInv, CountsOn;
    if Deciding(s.cpc) {
      DecidingCountsSignals(s, c);
    } else if Signalling(s.cpc) {
      SignallingCountsSignals(s, c);
    } else {
      StoringCountsSignals(s, c);
    }
  }

  lemma AnnouncedMore(h: seq<Event>, e: Event)
    ensures AnnouncedIn(h + [e]) == AnnouncedIn(h) + Announced(e)
  {
    assert (h + [e])[..|h|] == h;
  }

  lemma StepKeepsSignals(s: Sys, m: Move)
    requires Enabled(s, m) && CommandInv(s) && SnapTyped(s) && SignalInv(s)
    ensures SignalInv(Step(s, m))
  {
    match m
    case TelMove(w) =>
      hide TelStep, CommandInv;
      TelLeavesControllerAlone(s, w);
    case CtlMove(c) =>
      hide CtlStep, CommandInv, PathInv, SignalsGiven;
      CtlCountsSignals(s, c);
      CtlIssues(s, c) by { assert CtlTyped(s.cpc, s.cmd); }
  }

  lemma NoSignalsYet(b: seq<Sys>)
    requires IsRun(b)
    ensures SignalInv(b[0])
  {
  }

  lemma RunCommand(b: seq<Sys>, i: nat)
    requires IsRun(b) && i < |b|
    ensures CommandInv(b[i])
  {
    RunInv(b, i);
  }

  lemma {:induction false} RunSignals(b: seq<Sys>, i: nat)
    requires IsRun(b) && i < |b|
    ensures SignalInv(b[i])
    decreases i
  {
    hide IsRun, SignalInv, CommandInv, Enabled, Step, LockInv;
    if i == 0 {
      NoSignalsYet(b);
    } else {
      RunSignals(b, i - 1);
      RunCommand(b, i - 1);
      RunLocks(b, i - 1);
      var m := MoveOf(b, i - 1);
      StepKeepsSignals(b[i - 1], m);
    }
  }

  /** Between commands the condition has been signalled exactly once for every granted arming
      request, change of connection and accepted actuation, and once more for every level
      that an actuation advanced. */
  lemma SignalsAreAnnouncements(b: seq<Sys>, i: nat)
    requires IsRun(b) && i < |b| && b[i].cpc.Idle?
    ensures b[i].signals == AnnouncedIn(b[i].log)
  {
    RunSignals(b, i);
  }
}
