/** The controller thread's accept and receive loops (pad_server/src/controller.c), over a
    script of what the network will do. */
module Controller {
  import opened Protocol
  import opened PadModel
  import opened PadState
  import opened Framing

  /** An error number, never zero. */
  type Errno = e: int | e > 0 witness 1

  const ETIMEDOUT: Errno := 110

  /** One turn of the accept loop. `segs` is everything the client will send before the
      connection ends, `drivers` what the device driver returns for its `m`th request. */
  datatype Attempt =
    | ListenFailed(errno: Errno)
    | SelectFailed(errno: Errno)
    | TimedOut
    | AcceptFailed(errno: Errno)
    | KeepAliveFailed(fd: nat, errno: Errno)
    | Accepted(fd: nat, segs: Segments, junk: Junk, drivers: nat -> int)

  ghost predicate ScriptOk(script: seq<Attempt>) {
    forall a | a in script && a.Accepted? :: Chunked(a.segs)
  }

  // ---- The specification: the commands a script amounts to ----

  function Requested(reqs: seq<Request>, drivers: nat -> int): seq<Command> {
    seq(|reqs|, i requires 0 <= i < |reqs| => ToCommand(reqs[i], drivers(i) != -1))
  }

  function Session(a: Attempt): seq<Command>
    requires a.Accepted? ==> Chunked(a.segs)
  {
    if a.Accepted? then
      [ConnCmd(Connected)] + Requested(Decode(a.segs, a.junk, 0), a.drivers) + [ConnCmd(Reconnecting)]
    else []
  }

  /** Client sockets opened by one turn of the accept loop. */
  function Opened(a: Attempt): nat {
    if a.KeepAliveFailed? || a.Accepted? then 1 else 0
  }

  function OpenedIn(script: seq<Attempt>): nat {
    if script == [] then 0 else OpenedIn(script[..|script| - 1]) + Opened(script[|script| - 1])
  }

  function Sessions(script: seq<Attempt>): seq<Command>
    requires ScriptOk(script)
  {
    if script == [] then [] else Sessions(script[..|script| - 1]) + Session(script[|script| - 1])
  }

  /** The packets sent for a run of replies: one each, except for the silences. */
  function Sendable(rs: seq<Reply>): seq<Reply> {
    if rs == [] then [] else Sendable(rs[..|rs| - 1]) + Packet(rs[|rs| - 1])
  }

  function Packet(r: Reply): seq<Reply> {
    if r == NoAck then [] else [r]
  }

  // ---- The loops ----

  /** The receiving end of the client's connection. */
  class Receiver {
    var segs: Segments

    constructor (segs: Segments)
      ensures this.segs == segs
    {
      this.segs := segs;
    }

    method Recv(n: nat) returns (data: seq<byte>)
      modifies this
      ensures (data, segs) == Framing.Recv(old(segs), n)
    {
      if segs == [] {
        return [];
      }
      if |segs[0]| <= n {
        data, segs := segs[0], segs[1..];
      } else {
        data, segs := segs[0][..n], [segs[0][n..]] + segs[1..];
      }
    }

    /** The header loop: it ends with a whole header or with the connection. */
    method ReadHeader() returns (hdr: Option<seq<byte>>)
      requires Chunked(segs)
      modifies this
      ensures (hdr, segs) == ReadFull(old(segs), 2)
    {
      hide ReadFull, Framing.Recv, Chunked, Flatten;
      ghost var whole := ReadFull(segs, 2);
      ghost var part := whole;
      var buf := [];
      while |buf| < 2
        invariant |buf| <= 2 && Chunked(segs)
        invariant Continues(whole, buf, part) && part == ReadFull(segs, 2 - |buf|)
        decreases 2 - |buf|
      {
        ReadFullStep(segs, 2 - |buf|);
        var data := Recv(2 - |buf|);
        if data == [] {
          return None;
        }
        ghost var more := ReadFull(segs, 2 - |buf| - |data|);
        ContinuesOn(whole, buf, part, data, more);
        part, buf := more, buf + data;
      }
      ReadFullDone(segs);
      assert buf + [] == buf;
      hdr := Some(buf);
    }
  }

  /** One `recv` of the header loop. */
  lemma ReadFullStep(segs: Segments, n: nat)
    requires Chunked(segs) && n > 0
    ensures var (d, rest) := Recv(segs, n);
            && Chunked(rest) && |d| <= n
            && (d == [] ==> ReadFull(segs, n) == (None, rest))
            && (d != [] ==> Continues(ReadFull(segs, n), d, ReadFull(rest, n - |d|)))
  {
    RecvFacts(segs, n);
  }

  /** `part` is what remains to be read of `whole` once `buf` is in. */
  predicate Continues(whole: (Option<seq<byte>>, Segments), buf: seq<byte>, part: (Option<seq<byte>>, Segments)) {
    && whole.1 == part.1
    && (whole.0.Some? <==> part.0.Some?)
    && (whole.0.Some? ==> whole.0.value == buf + part.0.value)
  }

  lemma ReadFullDone(segs: Segments)
    requires Chunked(segs)
    ensures ReadFull(segs, 0) == (Some([]), segs)
  {
  }

  lemma ContinuesOn(whole: (Option<seq<byte>>, Segments), buf: seq<byte>, part: (Option<seq<byte>>, Segments), data: seq<byte>, more: (Option<seq<byte>>, Segments))
    requires Continues(whole, buf, part) && Continues(part, data, more)
    ensures Continues(whole, buf + data, more)
  {
  }

  /** What is seen at the head of a loop: inside the receive loop or outside it, how many
      client sockets are open, and the pad. */
  datatype Head = Head(receiving: bool, open: int, pad: Pad)

  predicate HeadOk(h: Head) {
    if h.receiving then h.open == 1 && h.pad.conn == Connected else h.open == 0 && h.pad.conn == Reconnecting
  }

  class Controller {
    const state: PadState
    var client: int
    var acks: seq<Reply>
    ghost const start: Pad
    ghost var log: seq<Event>
    ghost var accepted: nat
    ghost var closed: nat
    ghost var heads: seq<Head>

    /** Everything done so far is an atomic history that ends in the present pad, its replies
        are sent, and at most one client socket is open. */
    ghost predicate Valid()
      reads this, state, state.actuators
    {
      && state.Valid()
      && IsHistory(start, log) && state.View() == At(start, log, |log|)
      && acks == Sendable(Answers(log))
      && client >= -1 && accepted == closed + if client >= 0 then 1 else 0
    }

    constructor (state: PadState)
      requires state.Valid()
      ensures this.state == state && Valid() && start == state.View()
      ensures client == -1 && heads == [] && log == [] && accepted == closed == 0
    {
      this.state := state;
      start := state.View();
      client := -1;
      accepted, closed, heads, acks, log := 0, 0, [], [], [];
    }

    ghost method Look(receiving: bool)
      requires Valid()
      modifies `heads
      ensures Valid() && heads == old(heads) + [Head(receiving, accepted - closed, state.View())]
    {
      heads := heads + [Head(receiving, accepted - closed, state.View())];
    }

    /** An operation just done on the pad goes on record, and its packet out. */
    method Conclude(ghost c: Command, ghost before: Pad, reply: Reply)
      requires state.Valid() && IsHistory(start, log) && before == At(start, log, |log|)
      requires Handle(before, c) == (state.View(), reply) && acks == Sendable(Answers(log))
      requires client >= -1 && accepted == closed + if client >= 0 then 1 else 0
      modifies `log, `acks
      ensures Valid() && Commands(log) == old(Commands(log)) + [c]
      ensures log == old(log) + [Event(c, before, state.View(), reply)]
      ensures acks == if reply == NoAck then old(acks) else old(acks) + [reply]
    {
      ghost var e := Event(c, before, state.View(), reply);
      HistoryExtends(start, log, e);
      assert Answers(log + [e])[..|log|] == Answers(log);
      log := log + [e];
      if reply != NoAck {
        acks := acks + [reply];
      }
    }

    method SetConn(status: ConnStatus)
      requires Valid()
      modifies `log, `acks, state
      ensures Valid() && state.View() == old(state.View()).(conn := status) && acks == old(acks)
      ensures Commands(log) == old(Commands(log)) + [ConnCmd(status)]
    {
      ghost var before := state.View();
      state.SetConnStatus(status);
      Conclude(ConnCmd(status), before, NoAck);
    }

    method Accept(a: Attempt) returns (err: int)
      requires Valid() && client == -1
      modifies `client, `accepted
      ensures Valid() && (err == 0 <==> a.Accepted?)
      ensures err != 0 ==> err == if a.TimedOut? then ETIMEDOUT else a.errno
      ensures accepted == old(accepted) + Opened(a)
      ensures a.KeepAliveFailed? || a.Accepted? ==> accepted == old(accepted) + 1 && client == a.fd
      ensures !a.KeepAliveFailed? && !a.Accepted? ==> accepted == old(accepted) && client == -1
    {
      match a {
        case ListenFailed(errno) => return errno;
        case SelectFailed(errno) => return errno;
        case TimedOut => return ETIMEDOUT;
        case AcceptFailed(errno) =>
          client := -1;
          return errno;
        case KeepAliveFailed(fd, errno) =>
          client, accepted := fd, accepted + 1;
          return errno;
        case Accepted(fd, _, _, _) =>
          client, accepted := fd, accepted + 1;
          return 0;
      }
    }

    method ClientDisconnect()
      requires Valid()
      modifies `client, `closed
      ensures Valid() && client == -1
      ensures closed == old(closed) + if old(client) >= 0 then 1 else 0
    {
      if client >= 0 {
        client, closed := -1, closed + 1;
      }
    }

    /** An actuation request: its body is one unchecked `recv`. Its answer, a refusal
        included, goes out, unless a permitted actuation's driver returned -1. */
    method HandleAct(rx: Receiver, junk: (byte, byte), driver: int) returns (ghost req: Request)
      requires Valid() && Chunked(rx.segs)
      modifies `acks, `log, state, state.actuators, rx
      ensures Valid() && state.connStatus == old(state.connStatus)
      ensures var (d, left) := Framing.Recv(old(rx.segs), 2); req == ActBody(d, junk) && rx.segs == left
      ensures Commands(log) == old(Commands(log)) + [ToCommand(req, driver != -1)]
      ensures |log| == |old(log)| + 1 && req.Act?
      ensures var reply := log[|old(log)|].reply; acks == if reply == NoAck then old(acks) else old(acks) + [reply]
      ensures acks == old(acks) <==> (driver == -1 && (
                  || req.id == ID_DUMP
                  || (req.state <= 1 && (
                      || (ID_XV1 <= req.id <= ID_XV12 && req.id != ID_FIRE_VALVE && old(state.armLevel) >= ARMED_VALVES)
                      || (req.id == ID_QUICK_DISCONNECT && old(state.armLevel) >= ARMED_IGNITION)
                      || (req.id == ID_IGNITER && old(state.armLevel) >= ARMED_DISCONNECTED)
                      || (req.id == ID_FIRE_VALVE && old(state.armLevel) == ARMED_LAUNCH)))))
    {
      hide Handle, Sendable, Answers, At, IsHistory, Framing.Recv;
      var body := rx.Recv(2);
      var id := if |body| > 0 then body[0] else junk.0;
      var st := if |body| > 1 then body[1] else junk.1;
      ghost var before := state.View();
      var rc := state.Actuate(id, st, driver);
      req := Act(id, st);
      Conclude(ToCommand(req, driver != -1), before, ActReply(id, rc));
    }

    method HandleArm(rx: Receiver, junk: (byte, byte), driver: int) returns (ghost req: Request)
      requires Valid() && Chunked(rx.segs)
      modifies `acks, `log, state, rx
      ensures Valid() && state.connStatus == old(state.connStatus)
      ensures var (d, left) := Framing.Recv(old(rx.segs), 1); req == ArmBody(d, junk) && rx.segs == left
      ensures Commands(log) == old(Commands(log)) + [ToCommand(req, driver != -1)]
      ensures |log| == |old(log)| + 1 && log[|old(log)|].reply.ArmAck? && acks == old(acks) + [log[|old(log)|].reply]
    {
      hide Sendable, Answers, At, IsHistory, Framing.Recv;
      var body := rx.Recv(1);
      var level := if |body| > 0 then body[0] else junk.0;
      ghost var before := state.View();
      var rc := state.ChangeLevel(level);
      req := Arm(level);
      Conclude(ToCommand(req, driver != -1), before, ArmAck(rc));
    }

    /** The body of the receive loop: one header and what it asks for, or the end of the connection. */
    method ReceiveOne(rx: Receiver, m: nat, junk: Junk, drivers: nat -> int) returns (ended: bool, ghost req: seq<Request>, m': nat)
      requires Valid() && Chunked(rx.segs)
      modifies `acks, `log, state, state.actuators, rx
      ensures Valid() && Chunked(rx.segs) && state.connStatus == old(state.connStatus)
      ensures Decode(old(rx.segs), junk, m) == req + Decode(rx.segs, junk, m')
      ensures if ended then rx.segs == [] else |Flatten(rx.segs)| < |Flatten(old(rx.segs))|
      ensures m' == m + |req| && |req| <= 1
      ensures Commands(log) == old(Commands(log)) + if |req| == 0 then [] else [ToCommand(req[0], drivers(m) != -1)]
    {
      hide Decode, ReadFull, Flatten, Chunked, Recv, Commands, IsHistory, At, Answers, Sendable;
      DecodeOne(rx.segs, junk, m);
      DecodeNothing(junk, m);
      var hdr := rx.ReadHeader();
      ended, req, m' := hdr.None?, [], m;
      if hdr.Some? && hdr.value[0] == TYPE_CNTRL {
        if hdr.value[1] == CNTRL_ACT_REQ {
          ghost var r := HandleAct(rx, junk(m), drivers(m));
          req, m' := [r], m + 1;
        } else if hdr.value[1] == CNTRL_ARM_REQ {
          ghost var r := HandleArm(rx, junk(m), drivers(m));
          req, m' := [r], m + 1;
        }
      }
    }

    /** In the receive loop, with `reqs` of the connection's requests `all` carried out. */
    ghost predicate Serving(rx: Receiver, m: nat, junk: Junk, drivers: nat -> int, reqs: seq<Request>, cmds0: seq<Command>, all: seq<Request>)
      reads this, state, state.actuators, rx
    {
      && Valid() && Chunked(rx.segs) && client >= 0 && state.connStatus == Connected
      && |reqs| == m && reqs + Decode(rx.segs, junk, m) == all
      && Commands(log) == cmds0 + Requested(reqs, drivers)
      && AllOk(heads)
    }

    /** One turn of the receive loop. */
    method Turn(rx: Receiver, m: nat, junk: Junk, drivers: nat -> int, ghost reqs: seq<Request>, ghost cmds0: seq<Command>, ghost all: seq<Request>)
      returns (ended: bool, m': nat, ghost reqs': seq<Request>)
      requires Serving(rx, m, junk, drivers, reqs, cmds0, all)
      modifies `acks, `log, `heads, state, state.actuators, rx
      ensures Serving(rx, m', junk, drivers, reqs', cmds0, all) && |heads| == |old(heads)| + 1
      ensures if ended then reqs' == all else |Flatten(rx.segs)| < |Flatten(old(rx.segs))|
    {
      hide Decode, Flatten, Chunked, Commands, IsHistory, At, Answers, Sendable;
      Look(true);
      ghost var req, c0, segs0 := [], Commands(log), rx.segs;
      ended, req, m' := ReceiveOne(rx, m, junk, drivers);
      TurnAddsUp(segs0, rx.segs, junk, drivers, reqs, req, all, cmds0, c0, Commands(log));
      reqs' := reqs + req;
    }

    /** The receive loop of one connection, to its end. */
    method Serve(rx: Receiver, junk: Junk, drivers: nat -> int, ghost cmds0: seq<Command>)
      requires Chunked(rx.segs) && Serving(rx, 0, junk, drivers, [], cmds0, Decode(rx.segs, junk, 0))
      modifies this, state, state.actuators, rx
      ensures Outside(cmds0 + Requested(Decode(old(rx.segs), junk, 0), drivers) + [ConnCmd(Reconnecting)])
      ensures |heads| > |old(heads)| && accepted == old(accepted)
    {
      hide Decode, Flatten, Chunked, IsHistory, At, Answers, Sendable;
      var m, ended := 0, false;
      ghost var reqs, all := [], Decode(rx.segs, junk, 0);
      ghost var looks := |heads|;
      while !ended
        invariant Serving(rx, m, junk, drivers, reqs, cmds0, all)
        invariant if ended then reqs == all && |heads| > looks else |heads| >= looks
        invariant accepted == old(accepted)
        decreases !ended, |Flatten(rx.segs)|
      {
        ended, m, reqs := Turn(rx, m, junk, drivers, reqs, cmds0, all);
      }
      HangUp(cmds0 + Requested(all, drivers));
    }

    /** The end of a connection. */
    method HangUp(ghost cmds: seq<Command>)
      requires Valid() && AllOk(heads) && Commands(log) == cmds
      modifies `client, `closed, `log, `acks, state
      ensures Outside(cmds + [ConnCmd(Reconnecting)]) && heads == old(heads)
    {
      ClientDisconnect();
      SetConn(Reconnecting);
    }

    /** At the head of the accept loop, with `cmds` carried out. */
    ghost predicate Outside(cmds: seq<Command>)
      reads this, state, state.actuators
    {
      Valid() && client == -1 && state.connStatus == Reconnecting && Commands(log) == cmds && AllOk(heads)
    }

    /** One turn of the accept loop. */
    method AcceptAndServe(a: Attempt, ghost cmds: seq<Command>)
      requires Outside(cmds) && (a.Accepted? ==> Chunked(a.segs))
      modifies this, state, state.actuators
      ensures Outside(cmds + Session(a)) && |heads| > |old(heads)|
      ensures accepted == old(accepted) + Opened(a)
    {
      hide Decode, Flatten, IsHistory, At, Answers, Sendable;
      Look(false);
      var err := Accept(a);
      if err != 0 {
        ClientDisconnect();
        assert cmds + Session(a) == cmds;
        return;
      }
      SetConn(Connected);
      var rx := new Receiver(a.segs);
      assert cmds + [ConnCmd(Connected)] + Requested([], a.drivers) == cmds + [ConnCmd(Connected)];
      Serve(rx, a.junk, a.drivers, cmds + [ConnCmd(Connected)]);
      SessionParts(cmds, a);
    }

    /** The accept loop over a whole script: what the pad has been through is exactly the
        decoded requests between connection changes, the client socket is conserved, and
        every loop head saw it so. */
    method Run(script: seq<Attempt>)
      requires Outside(Commands(log)) && ScriptOk(script)
      modifies this, state, state.actuators
      ensures Outside(old(Commands(log)) + Sessions(script))
      ensures accepted == closed == old(accepted) + OpenedIn(script)
      ensures |heads| >= |old(heads)| + |script|
    {
      ghost var cmds := Commands(log);
      assert cmds + Sessions([]) == cmds;
      for n := 0 to |script|
        invariant ScriptOk(script[..n]) && Outside(cmds + Sessions(script[..n]))
        invariant |heads| >= |old(heads)| + n
        invariant accepted == old(accepted) + OpenedIn(script[..n])
      {
        SessionsMore(cmds, script, n);
        AcceptAndServe(script[n], cmds + Sessions(script[..n]));
      }
      assert script[..|script|] == script;
    }
  }

  /** The pad and the packets sent are those of folding the atomic operation over the commands. */
  lemma LogIsFold(c: Controller)
    requires c.Valid()
    ensures c.state.View() == Final(c.start, Commands(c.log))
    ensures c.acks == Sendable(Replies(c.start, Commands(c.log)))
  {
    HistoryIsFold(c.start, c.log);
  }

  /** `ks` are the places of all the replies but the silences, in order, and `acks` are these replies. */
  ghost predicate SentFrom(acks: seq<Reply>, rs: seq<Reply>, ks: seq<nat>) {
    && |ks| == |acks|
    && (forall n | 0 <= n < |ks| :: ks[n] < |rs| && acks[n] == rs[ks[n]] != NoAck)
    && (forall n, m | 0 <= n < m < |ks| :: ks[n] < ks[m])
    && (forall i: nat | i < |rs| && rs[i] != NoAck :: i in ks)
  }

  function Silences(rs: seq<Reply>): set<nat> {
    set i: nat | i < |rs| && rs[i] == NoAck
  }

  lemma SilencesNext(rs: seq<Reply>, r: Reply)
    ensures |Silences(rs + [r])| == |Silences(rs)| + if r == NoAck then 1 else 0
  {
    var all := rs + [r];
    if r == NoAck {
      assert Silences(all) == Silences(rs) + {|rs|};
    } else {
      assert Silences(all) == Silences(rs);
    }
  }

  lemma SilenceSendsNothing(acks: seq<Reply>, rs: seq<Reply>, ks: seq<nat>)
    requires SentFrom(acks, rs, ks)
    ensures SentFrom(acks, rs + [NoAck], ks)
  {
  }

  lemma ReplyIsSent(acks: seq<Reply>, rs: seq<Reply>, ks: seq<nat>, r: Reply)
    requires SentFrom(acks, rs, ks) && r != NoAck
    ensures SentFrom(acks + [r], rs + [r], ks + [|rs|])
  {
    var all, places := rs + [r], ks + [|rs|];
    forall i: nat | i < |all| && all[i] != NoAck ensures i in places {
      if i < |rs| {
        assert i in ks;
      } else {
        assert places[|ks|] == i;
      }
    }
  }

  lemma {:induction false} SendablePlaces(rs: seq<Reply>) returns (ks: seq<nat>)
    ensures SentFrom(Sendable(rs), rs, ks)
    ensures |ks| + |Silences(rs)| == |rs|
  {
    hide SentFrom, Silences;
    if rs == [] {
      ks := NothingSent();
    } else {
      var init, r := rs[..|rs| - 1], rs[|rs| - 1];
      ks := SendablePlaces(init);
      assert rs == init + [r];
      SilencesNext(init, r);
      if r == NoAck {
        assert Sendable(rs) == Sendable(init);
        SilenceSendsNothing(Sendable(init), init, ks);
      } else {
        ReplyIsSent(Sendable(init), init, ks, r);
        ks := ks + [|init|];
      }
    }
  }

  lemma NothingSent() returns (ks: seq<nat>)
    ensures SentFrom([], [], ks) && ks == [] && Silences([]) == {}
  {
    ks := [];
  }

  /** The packets sent are all and only the recorded replies other than the silences of a
      failed driver and of connection changes, in order. */
  lemma AcksAreReplies(c: Controller) returns (ks: seq<nat>)
    requires c.Valid()
    ensures |ks| == |c.acks|
    ensures forall n | 0 <= n < |ks| :: ks[n] < |c.log| && c.acks[n] == c.log[ks[n]].reply != NoAck
    ensures forall n, m | 0 <= n < m < |ks| :: ks[n] < ks[m]
    ensures forall i: nat | i < |c.log| && c.log[i].reply != NoAck :: i in ks
    ensures |c.acks| + |(set i: nat | i < |c.log| && c.log[i].reply == NoAck)| == |c.log|
  {
    hide Sendable, IsHistory;
    var rs := Answers(c.log);
    ks := SendablePlaces(rs);
    assert forall i: nat | i < |c.log| :: rs[i] == c.log[i].reply;
    assert Silences(rs) == set i: nat | i < |c.log| && c.log[i].reply == NoAck;
  }

  /** The silent operations are exactly the connection changes and the permitted actuations
      whose driver failed. */
  lemma SilenceIsDriverFailure(c: Controller, i: nat)
    requires c.Valid() && i < |c.log|
    ensures var e := c.log[i];
            e.reply == NoAck <==> (e.cmd.ConnCmd? || (e.cmd.ActCmd? && !e.cmd.drives && (
                || e.cmd.id == ID_DUMP
                || (e.cmd.state <= 1 && (
                    || (ID_XV1 <= e.cmd.id <= ID_XV12 && e.cmd.id != ID_FIRE_VALVE && e.before.level >= ARMED_VALVES)
                    || (e.cmd.id == ID_QUICK_DISCONNECT && e.before.level >= ARMED_IGNITION)
                    || (e.cmd.id == ID_IGNITER && e.before.level >= ARMED_DISCONNECTED)
                    || (e.cmd.id == ID_FIRE_VALVE && e.before.level == ARMED_LAUNCH))))))
  {
    assert IsEvent(c.log[i]);
    match c.log[i].cmd
    case ArmCmd(l) => ArmReplies(c.log[i].before, l);
    case ConnCmd(_) =>
    case ActCmd(id, st, drives) => ActReplies(c.log[i].before, id, st, drives);
  }

  /** The sockets opened are those of the attempts whose `accept` succeeded. */
  lemma {:induction false} OpenedCounts(script: seq<Attempt>)
    ensures OpenedIn(script) == |(set n: nat | n < |script| && (script[n].KeepAliveFailed? || script[n].Accepted?))|
  {
    if script != [] {
      var last := |script| - 1;
      OpenedCounts(script[..last]);
      AcceptingNext(script[..last], script[last]);
      assert script == script[..last] + [script[last]];
    }
  }

  lemma AcceptingNext(script: seq<Attempt>, a: Attempt)
    ensures var all := script + [a];
            |(set n: nat | n < |all| && (all[n].KeepAliveFailed? || all[n].Accepted?))| ==
            |(set n: nat | n < |script| && (script[n].KeepAliveFailed? || script[n].Accepted?))| +
            if a.KeepAliveFailed? || a.Accepted? then 1 else 0
  {
    var all := script + [a];
    var before := set n: nat | n < |script| && (script[n].KeepAliveFailed? || script[n].Accepted?);
    var after := set n: nat | n < |all| && (all[n].KeepAliveFailed? || all[n].Accepted?);
    assert after == before + if a.KeepAliveFailed? || a.Accepted? then {|script|} else {};
  }

  /** A connection that carries encoded requests in pieces that split no body, ending before
      another header is whole, amounts to exactly those requests. */
  lemma EncodedSession(a: Attempt, reqs: seq<Request>, cut: seq<byte>)
    requires a.Accepted? && Chunked(a.segs) && |cut| < 2
    requires Flatten(a.segs) == EncodeAll(reqs) + cut && NoBodySplit(reqs, a.segs)
    ensures Session(a) == [ConnCmd(Connected)] + Requested(reqs, a.drivers) + [ConnCmd(Reconnecting)]
  {
    RoundTrip(reqs, cut, a.segs, a.junk, 0);
  }

  lemma SessionParts(cmds: seq<Command>, a: Attempt)
    requires a.Accepted? && Chunked(a.segs)
    ensures cmds + [ConnCmd(Connected)] + Requested(Decode(a.segs, a.junk, 0), a.drivers) + [ConnCmd(Reconnecting)] == cmds + Session(a)
  {
  }

  lemma SessionsMore(cmds: seq<Command>, script: seq<Attempt>, n: nat)
    requires ScriptOk(script) && n < |script|
    ensures ScriptOk(script[..n]) && ScriptOk(script[..n + 1]) && (script[n].Accepted? ==> Chunked(script[n].segs))
    ensures cmds + Sessions(script[..n]) + Session(script[n]) == cmds + Sessions(script[..n + 1])
    ensures OpenedIn(script[..n]) + Opened(script[n]) == OpenedIn(script[..n + 1])
  {
    assert script[n] in script && script[..n + 1][..n] == script[..n];
    Associates(cmds, Sessions(script[..n]), Session(script[n]));
  }

  lemma Associates(a: seq<Command>, b: seq<Command>, c: seq<Command>)
    ensures a + b + c == a + (b + c)
  {
  }

  /** What one turn adds to the requests and the commands is what it takes from the stream. */
  lemma TurnAddsUp(segs: Segments, left: Segments, junk: Junk, drivers: nat -> int, reqs: seq<Request>, req: seq<Request>,
                   all: seq<Request>, cmds0: seq<Command>, cmds: seq<Command>, cmds': seq<Command>)
    requires Chunked(segs) && Chunked(left) && |req| <= 1
    requires reqs + Decode(segs, junk, |reqs|) == all && cmds == cmds0 + Requested(reqs, drivers)
    requires Decode(segs, junk, |reqs|) == req + Decode(left, junk, |reqs| + |req|)
    requires cmds' == cmds + if |req| == 0 then [] else [ToCommand(req[0], drivers(|reqs|) != -1)]
    ensures (reqs + req) + Decode(left, junk, |reqs + req|) == all
    ensures cmds' == cmds0 + Requested(reqs + req, drivers)
    ensures left == [] ==> reqs + req == all
  {
    hide Decode, Flatten, Chunked;
    if left == [] {
      DecodeNothing(junk, |reqs + req|);
    }
    RequestsAddUp(reqs, Decode(segs, junk, |reqs|), req, Decode(left, junk, |reqs + req|), all, drivers);
  }

  lemma RequestsAddUp(reqs: seq<Request>, before: seq<Request>, req: seq<Request>, after: seq<Request>, all: seq<Request>, drivers: nat -> int)
    requires reqs + before == all && before == req + after && |req| <= 1
    ensures (reqs + req) + after == all && (after == [] ==> reqs + req == all)
    ensures Requested(reqs + req, drivers) ==
            Requested(reqs, drivers) + if |req| == 0 then [] else [ToCommand(req[0], drivers(|reqs|) != -1)]
  {
  }

  ghost predicate AllOk(heads: seq<Head>) {
    forall i | 0 <= i < |heads| :: HeadOk(heads[i])
  }
}
