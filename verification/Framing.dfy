/** Requests as bytes on a stream that arrives in arbitrary pieces, and the server's header
    loop and dispatch as a decoder (control_client/src/switch.c, pad_server/src/controller.c). */
module Framing {
  import opened Protocol

  /** What is still to be received: the pieces in which the bytes will arrive. */
  type Segments = seq<seq<byte>>

  ghost predicate Chunked(segs: Segments) {
    forall i | 0 <= i < |segs| :: |segs[i]| > 0
  }

  function Flatten(segs: Segments): seq<byte> {
    if segs == [] then [] else segs[0] + Flatten(segs[1..])
  }

  /** Byte position `p` of the stream is where a piece ends. */
  predicate Cut(segs: Segments, p: int) {
    segs != [] && (p == |segs[0]| || (p > |segs[0]| && Cut(segs[1..], p - |segs[0]|)))
  }

  /** `recv`: at most `n` bytes of the next piece; nothing once the peer is gone. */
  function Recv(segs: Segments, n: nat): (seq<byte>, Segments) {
    if segs == [] then ([], [])
    else if |segs[0]| <= n then (segs[0], segs[1..])
    else (segs[0][..n], [segs[0][n..]] + segs[1..])
  }

  lemma {:induction false} RecvFacts(segs: Segments, n: nat)
    requires Chunked(segs) && n > 0
    ensures var (d, rest) := Recv(segs, n);
            && Chunked(rest) && |d| <= n && (d == [] <==> segs == [])
            && Flatten(segs) == d + Flatten(rest)
  {
    if segs != [] && |segs[0]| > n {
      var (d, rest) := Recv(segs, n);
      assert rest[1..] == segs[1..] && segs[0] == d + rest[0];
    }
  }

  /** What is left is cut where the whole was, counted from what was taken. */
  lemma RecvCut(segs: Segments, n: nat, p: nat)
    requires n > 0 && p > 0
    ensures var (d, rest) := Recv(segs, n); Cut(rest, p) <==> Cut(segs, p + |d|)
  {
    if segs != [] && |segs[0]| > n {
      var (d, rest) := Recv(segs, n);
      assert rest[1..] == segs[1..] && rest[0] == segs[0][n..];
    }
  }

  /** The header loop: keep receiving until `n` bytes are in or the peer is gone. */
  function ReadFull(segs: Segments, n: nat): (Option<seq<byte>>, Segments)
    requires Chunked(segs)
    decreases n
  {
    if n == 0 then (Some([]), segs)
    else if segs == [] then (None, segs)
    else
      RecvFacts(segs, n);
      var (d, rest) := Recv(segs, n);
      var (more, left) := ReadFull(rest, n - |d|);
      (if more.Some? then Some(d + more.value) else None, left)
  }

  lemma FlattenNothing()
    ensures Flatten([]) == []
  {
  }

  lemma TakeThrough(d: seq<byte>, rest: seq<byte>, n: nat)
    requires |d| <= n <= |d| + |rest|
    ensures (d + rest)[..n] == d + rest[..n - |d|] && (d + rest)[n..] == rest[n - |d|..]
  {
  }

  /** Reassembly does not depend on where the pieces end. */
  lemma {:induction false} ReadFullFacts(segs: Segments, n: nat)
    requires Chunked(segs)
    ensures var (h, rest) := ReadFull(segs, n);
            && Chunked(rest)
            && (h.Some? <==> |Flatten(segs)| >= n)
            && (h.None? ==> rest == [])
            && (h.Some? ==> h.value == Flatten(segs)[..n] && Flatten(rest) == Flatten(segs)[n..])
    decreases n
  {
    hide Flatten, Recv, Chunked;
    FlattenNothing();
    if n > 0 && segs != [] {
      RecvFacts(segs, n);
      var (d, rest) := Recv(segs, n);
      ReadFullFacts(rest, n - |d|);
      if |Flatten(segs)| >= n { TakeThrough(d, Flatten(rest), n); }
    }
  }

  lemma {:induction false} ReadFullCut(segs: Segments, n: nat, p: nat)
    requires Chunked(segs) && p > 0 && |Flatten(segs)| >= n
    ensures Cut(ReadFull(segs, n).1, p) <==> Cut(segs, p + n)
    decreases n
  {
    if n > 0 {
      RecvFacts(segs, n);
      var (d, rest) := Recv(segs, n);
      ReadFullCut(rest, n - |d|, p);
      RecvCut(segs, n, p + n - |d|);
    }
  }

  /** What an unfilled request body on the server's stack happens to hold. */
  type Junk = nat -> (byte, byte)

  function ActBody(d: seq<byte>, junk: (byte, byte)): Request {
    Act(if |d| > 0 then d[0] else junk.0, if |d| > 1 then d[1] else junk.1)
  }

  function ArmBody(d: seq<byte>, junk: (byte, byte)): Request {
    Arm(if |d| > 0 then d[0] else junk.0)
  }

  predicate IsActHeader(h: seq<byte>) {
    h == [TYPE_CNTRL, CNTRL_ACT_REQ]
  }

  predicate IsArmHeader(h: seq<byte>) {
    h == [TYPE_CNTRL, CNTRL_ARM_REQ]
  }

  /** The requests the server acts on, from its `m`th on. A body is a single `recv`, its
      result unchecked; any other header is skipped. */
  function Decode(segs: Segments, junk: Junk, m: nat): seq<Request>
    requires Chunked(segs)
    decreases |Flatten(segs)|
  {
    ReadFullFacts(segs, 2);
    var (h, rest) := ReadFull(segs, 2);
    if h.None? then []
    else if IsActHeader(h.value) then
      RecvFacts(rest, 2);
      var (d, left) := Recv(rest, 2);
      [ActBody(d, junk(m))] + Decode(left, junk, m + 1)
    else if IsArmHeader(h.value) then
      RecvFacts(rest, 1);
      var (d, left) := Recv(rest, 1);
      [ArmBody(d, junk(m))] + Decode(left, junk, m + 1)
    else Decode(rest, junk, m)
  }

  /** What `req`, nothing or one request, and the stream left after it have to do with `Decode`. */
  ghost predicate Takes(segs: Segments, junk: Junk, m: nat, req: seq<Request>, left: Segments)
    requires Chunked(segs)
  {
    && Chunked(left) && |Flatten(left)| < |Flatten(segs)|
    && Decode(segs, junk, m) == req + Decode(left, junk, m + |req|)
  }

  lemma DecodeNothing(junk: Junk, m: nat)
    ensures Decode([], junk, m) == []
  {
    ReadFullFacts([], 2);
  }

  /** One header and its dispatch are one step of decoding. */
  lemma DecodeOne(segs: Segments, junk: Junk, m: nat)
    requires Chunked(segs)
    ensures var (h, rest) := ReadFull(segs, 2);
            && Chunked(rest)
            && (h.None? ==> Decode(segs, junk, m) == [] && rest == [])
            && (h.Some? ==> |h.value| == 2)
            && (h.Some? && IsActHeader(h.value) ==>
                  var (d, left) := Recv(rest, 2); Takes(segs, junk, m, [ActBody(d, junk(m))], left))
            && (h.Some? && IsArmHeader(h.value) ==>
                  var (d, left) := Recv(rest, 1); Takes(segs, junk, m, [ArmBody(d, junk(m))], left))
            && (h.Some? && !IsActHeader(h.value) && !IsArmHeader(h.value) ==> Takes(segs, junk, m, [], rest))
  {
    hide Flatten, Chunked, Recv, ReadFull;
    ReadFullFacts(segs, 2);
    var (h, rest) := ReadFull(segs, 2);
    if h.Some? {
      RecvFacts(rest, 2);
      RecvFacts(rest, 1);
    }
  }

  // ---- The client's side ----

  function Encode(r: Request): (b: seq<byte>)
    ensures |b| == if r.Act? then 4 else 3
  {
    match r
    case Act(id, st) => [TYPE_CNTRL, CNTRL_ACT_REQ, id, st]
    case Arm(l) => [TYPE_CNTRL, CNTRL_ARM_REQ, l]
  }

  function EncodeAll(reqs: seq<Request>): seq<byte> {
    if reqs == [] then [] else Encode(reqs[0]) + EncodeAll(reqs[1..])
  }

  /** A piece ends between the two bytes of the `r`th request's body. */
  predicate SplitAt(reqs: seq<Request>, segs: Segments, r: int)
    requires 0 <= r < |reqs|
  {
    reqs[r].Act? && Cut(segs, |EncodeAll(reqs[..r])| + 3)
  }

  ghost predicate NoBodySplit(reqs: seq<Request>, segs: Segments) {
    forall r | 0 <= r < |reqs| :: !SplitAt(reqs, segs, r)
  }

  /** What is left of the stream after the first request. */
  function Rest(reqs: seq<Request>, segs: Segments): Segments
    requires reqs != [] && Chunked(segs)
  {
    var (_, body) := ReadFull(segs, 2);
    Recv(body, if reqs[0].Act? then 2 else 1).1
  }

  /** Behind the header, the body arrives whole unless a piece ends inside it. */
  lemma BodyArrives(body: Segments, rest: seq<byte>, e: seq<byte>)
    requires Chunked(body) && Flatten(body) == e + rest && 1 <= |e| <= 2
    ensures var (d, left) := Recv(body, |e|);
            && (|e| == 2 && Cut(body, 1) ==> d == e[..1])
            && (!(|e| == 2 && Cut(body, 1)) ==> d == e && Chunked(left) && Flatten(left) == rest)
  {
    RecvFacts(body, |e|);
    var (d, left) := Recv(body, |e|);
    assert Flatten(body)[..|d|] == d;
    assert Flatten(body)[|d|..] == Flatten(left);
    assert |d| == |e| ==> (e + rest)[..|e|] == e && (e + rest)[|e|..] == rest;
  }

  /** Behind a request's header comes its body. `more` is whatever follows the requests. */
  lemma HeaderArrives(reqs: seq<Request>, more: seq<byte>, segs: Segments)
    requires reqs != [] && Chunked(segs) && Flatten(segs) == EncodeAll(reqs) + more
    ensures var e := Encode(reqs[0]);
            var (h, body) := ReadFull(segs, 2);
            && h == Some(e[..2]) && Chunked(body) && Flatten(body) == e[2..] + (EncodeAll(reqs[1..]) + more)
            && (Cut(body, 1) <==> Cut(segs, 3))
  {
    hide EncodeAll, Flatten, ReadFull, Cut, Encode, Chunked;
    var e, rest := Encode(reqs[0]), EncodeAll(reqs[1..]) + more;
    FirstEncoded(reqs, more);
    TakeTwo(e, rest);
    ReadFullFacts(segs, 2);
    ReadFullCut(segs, 2, 1);
  }

  lemma FirstEncoded(reqs: seq<Request>, more: seq<byte>)
    requires reqs != []
    ensures EncodeAll(reqs) + more == Encode(reqs[0]) + (EncodeAll(reqs[1..]) + more)
  {
  }

  lemma TakeTwo(e: seq<byte>, rest: seq<byte>)
    requires |e| >= 2
    ensures (e + rest)[..2] == e[..2] && (e + rest)[2..] == e[2..] + rest
  {
  }

  /** The first request is decoded whole exactly when its body is not split. */
  lemma FirstRequest(reqs: seq<Request>, more: seq<byte>, segs: Segments, junk: Junk, m: nat)
    requires reqs != [] && Chunked(segs) && Flatten(segs) == EncodeAll(reqs) + more
    ensures var first := Decode(segs, junk, m);
            && first != []
            && (SplitAt(reqs, segs, 0) ==> first[0] == Act(reqs[0].id, junk(m).1))
            && (!SplitAt(reqs, segs, 0) ==>
                  && Chunked(Rest(reqs, segs)) && Flatten(Rest(reqs, segs)) == EncodeAll(reqs[1..]) + more
                  && first == [reqs[0]] + Decode(Rest(reqs, segs), junk, m + 1))
  {
    HeaderArrives(reqs, more, segs);
    var (h, body) := ReadFull(segs, 2);
    BodyArrives(body, EncodeAll(reqs[1..]) + more, Encode(reqs[0])[2..]);
    assert reqs[..0] == [];
    DecodeOne(segs, junk, m);
  }

  lemma EncodedUpTo(reqs: seq<Request>, r: nat)
    requires 0 < r <= |reqs|
    ensures EncodeAll(reqs[..r]) == Encode(reqs[0]) + EncodeAll(reqs[1..][..r - 1])
    ensures EncodeAll(reqs[..0]) == []
  {
    assert reqs[..r][1..] == reqs[1..][..r - 1];
    assert reqs[..0] == [];
  }

  /** The rest of the stream is cut where the rest of the requests are. */
  lemma SplitShift(reqs: seq<Request>, more: seq<byte>, segs: Segments, r: nat)
    requires Chunked(segs) && Flatten(segs) == EncodeAll(reqs) + more
    requires 0 < r < |reqs| && !SplitAt(reqs, segs, 0)
    ensures SplitAt(reqs[1..], Rest(reqs, segs), r - 1) <==> SplitAt(reqs, segs, r)
  {
    hide Flatten, ReadFull, Recv, Cut, Chunked, EncodeAll;
    var e := Encode(reqs[0]);
    var p := |EncodeAll(reqs[1..][..r - 1])| + 3;
    EncodedUpTo(reqs, r);
    HeaderArrives(reqs, more, segs);
    var (_, body) := ReadFull(segs, 2);
    BodyArrives(body, EncodeAll(reqs[1..]) + more, e[2..]);
    RecvCut(body, |e| - 2, p);
    ReadFullFacts(segs, 2);
    ReadFullCut(segs, 2, p + |e| - 2);
  }

  lemma SplitsShift(reqs: seq<Request>, more: seq<byte>, segs: Segments)
    requires reqs != [] && Chunked(segs) && Flatten(segs) == EncodeAll(reqs) + more && !SplitAt(reqs, segs, 0)
    ensures forall r | 0 <= r < |reqs| - 1 :: SplitAt(reqs[1..], Rest(reqs, segs), r) <==> SplitAt(reqs, segs, r + 1)
  {
    forall r | 0 <= r < |reqs| - 1 ensures SplitAt(reqs[1..], Rest(reqs, segs), r) <==> SplitAt(reqs, segs, r + 1) {
      SplitShift(reqs, more, segs, r + 1);
    }
  }

  lemma HeadAndTail(reqs: seq<Request>, tail: seq<Request>)
    requires reqs != []
    ensures [reqs[0]] + (reqs[1..] + tail) == reqs + tail
  {
  }

  /** Requests in pieces that split no body are decoded as they are, and decoding goes on
      with what follows them. */
  lemma {:induction false} WholeRequests(reqs: seq<Request>, more: seq<byte>, segs: Segments, junk: Junk, m: nat) returns (left: Segments)
    requires Chunked(segs) && Flatten(segs) == EncodeAll(reqs) + more && NoBodySplit(reqs, segs)
    ensures Chunked(left) && Flatten(left) == more
    ensures Decode(segs, junk, m) == reqs + Decode(left, junk, m + |reqs|)
    decreases |reqs|
  {
    hide Decode, Flatten, Chunked, Encode, SplitAt, Rest;
    left := segs;
    if reqs != [] {
      FirstRequest(reqs, more, segs, junk, m);
      SplitsShift(reqs, more, segs);
      left := WholeRequests(reqs[1..], more, Rest(reqs, segs), junk, m + 1);
      HeadAndTail(reqs, Decode(left, junk, m + |reqs|));
    }
  }

  /** Any chunking that splits no body decodes to exactly what was encoded, also when the
      client is gone before the second byte of its next header. */
  lemma {:induction false} RoundTrip(reqs: seq<Request>, cut: seq<byte>, segs: Segments, junk: Junk, m: nat)
    requires Chunked(segs) && Flatten(segs) == EncodeAll(reqs) + cut && |cut| < 2 && NoBodySplit(reqs, segs)
    ensures Decode(segs, junk, m) == reqs
  {
    var left := WholeRequests(reqs, cut, segs, junk, m);
    ReadFullFacts(left, 2);
  }

  /** The request the server makes of the first `c` bytes of the encoding of `next`, a whole
      header with too little behind it. */
  function Completed(next: Request, c: nat, junk: (byte, byte)): Request
    requires 2 <= c < |Encode(next)|
  {
    match next
    case Act(id, _) => Act(if c > 2 then id else junk.0, junk.1)
    case Arm(_) => Arm(junk.0)
  }

  /** A client that is gone after a whole header leaves the server one more request to act
      on, with the missing bytes taken from the stack. */
  lemma {:induction false} CutRequestIsCompleted(reqs: seq<Request>, next: Request, c: nat, segs: Segments, junk: Junk, m: nat)
    requires 2 <= c < |Encode(next)| && Chunked(segs)
    requires Flatten(segs) == EncodeAll(reqs) + Encode(next)[..c] && NoBodySplit(reqs, segs)
    ensures Decode(segs, junk, m) == reqs + [Completed(next, c, junk(m + |reqs|))]
  {
    hide *;
    var left := WholeRequests(reqs, Encode(next)[..c], segs, junk, m);
    LoneHeader(next, c, left, junk, m + |reqs|);
  }

  lemma {:induction false} LoneHeader(next: Request, c: nat, segs: Segments, junk: Junk, m: nat)
    requires 2 <= c < |Encode(next)| && Chunked(segs) && Flatten(segs) == Encode(next)[..c]
    ensures Decode(segs, junk, m) == [Completed(next, c, junk(m))]
  {
    hide Decode, Flatten, Chunked, ReadFull, Recv;
    var e := Encode(next);
    assert e[..c][..2] == e[..2] && e[..c][2..] == e[2..c];
    ReadFullFacts(segs, 2);
    var (_, body) := ReadFull(segs, 2);
    DecodeOne(segs, junk, m);
    LastPiece(body, |e| - 2, e[2..c]);
    DecodeNothing(junk, m + 1);
  }

  /** At most one byte, or none, is all that `recv` finds before the end of the stream. */
  lemma LastPiece(segs: Segments, n: nat, last: seq<byte>)
    requires Chunked(segs) && Flatten(segs) == last && |last| <= 1 <= n
    ensures Recv(segs, n) == (last, [])
  {
    RecvFacts(segs, n);
    if segs != [] {
      var rest := segs[1..];
      assert last == segs[0] + Flatten(rest);
      assert segs[0] + [] == segs[0];
      RecvFacts(rest, 1);
    }
  }

  lemma SplitOnlyActs(reqs: seq<Request>, segs: Segments, r: nat)
    requires r < |reqs| && SplitAt(reqs, segs, r)
    ensures reqs[r].Act?
  {
  }

  /** A split body takes its second byte from the stack, so some residue garbles the request. */
  lemma {:induction false} SplitGarbles(reqs: seq<Request>, more: seq<byte>, segs: Segments, r: nat, junk: Junk, m: nat)
    requires Chunked(segs) && Flatten(segs) == EncodeAll(reqs) + more
    requires r < |reqs| && SplitAt(reqs, segs, r)
    requires forall q | 0 <= q < r :: !SplitAt(reqs, segs, q)
    requires forall k: nat :: junk(k).1 != reqs[r].state
    ensures r < |Decode(segs, junk, m)| && Decode(segs, junk, m)[r] == Act(reqs[r].id, junk(m + r).1) != reqs[r]
    decreases r
  {
    hide Decode, Flatten, Chunked, Encode, EncodeAll, SplitAt, Rest;
    FirstRequest(reqs, more, segs, junk, m);
    if r == 0 {
      assert reqs[0].Act? by { SplitOnlyActs(reqs, segs, 0); }
    } else {
      SplitsShift(reqs, more, segs);
      SplitGarbles(reqs[1..], more, Rest(reqs, segs), r - 1, junk, m + 1);
    }
  }

  lemma {:induction false} FirstSplit(reqs: seq<Request>, segs: Segments, r: nat) returns (q: nat)
    requires r < |reqs| && SplitAt(reqs, segs, r)
    ensures q < |reqs| && SplitAt(reqs, segs, q) && forall k | 0 <= k < q :: !SplitAt(reqs, segs, k)
    decreases r
  {
    q := r;
    if k :| 0 <= k < r && SplitAt(reqs, segs, k) {
      q := FirstSplit(reqs, segs, k);
    }
  }

  /** Whole requests, and the first `c` bytes of the `next` before the client was gone, are
      decoded right whatever the stack held exactly when no two-byte body is split and no
      whole header was sent without its body. */
  lemma FramingIsExact(reqs: seq<Request>, next: Request, c: nat, segs: Segments)
    requires c < |Encode(next)| && Chunked(segs) && Flatten(segs) == EncodeAll(reqs) + Encode(next)[..c]
    ensures (forall junk: Junk :: Decode(segs, junk, 0) == reqs) <==> NoBodySplit(reqs, segs) && c < 2
  {
    hide Decode, Flatten, Chunked, EncodeAll, Encode, SplitAt;
    var cut := Encode(next)[..c];
    if !NoBodySplit(reqs, segs) {
      var r :| 0 <= r < |reqs| && SplitAt(reqs, segs, r);
      var q := FirstSplit(reqs, segs, r);
      var wrong: byte := if reqs[q].state == 0 then 1 else 0;
      var junk: Junk := _ => (0, wrong);
      SplitGarbles(reqs, cut, segs, q, junk, 0);
    } else if c < 2 {
      forall junk: Junk ensures Decode(segs, junk, 0) == reqs {
        RoundTrip(reqs, cut, segs, junk, 0);
      }
    } else {
      var junk: Junk := _ => (0, 0);
      CutRequestIsCompleted(reqs, next, c, segs, junk, 0);
    }
  }

  // ---- The bytes themselves ----

  lemma OnePiece(piece: seq<byte>)
    requires piece != []
    ensures Chunked([piece]) && Flatten([piece]) == piece
  {
  }

  /** The layout of the requests in packets/packet.h, on both sides of the connection: two
      header bytes, then the id and the state, or the level. */
  lemma WireLayout(id: byte, state: byte, level: byte, junk: Junk, m: nat)
    ensures Encode(Act(id, state)) == [0, 0, id, state]
    ensures Encode(Arm(level)) == [0, 2, level]
    ensures Chunked([[0, 0, id, state]]) && Decode([[0, 0, id, state]], junk, m) == [Act(id, state)]
    ensures Chunked([[0, 2, level]]) && Decode([[0, 2, level]], junk, m) == [Arm(level)]
  {
    var act, arm := [0, 0, id, state], [0, 2, level];
    ArrivesWhole(Act(id, state), act, junk, m);
    ArrivesWhole(Arm(level), arm, junk, m);
  }

  /** One request that arrives in one piece. */
  lemma ArrivesWhole(r: Request, piece: seq<byte>, junk: Junk, m: nat)
    requires piece == Encode(r)
    ensures Chunked([piece]) && Decode([piece], junk, m) == [r]
  {
    hide Decode;
    OnePiece(piece);
    assert EncodeAll([r]) == piece + EncodeAll([]);
    assert !Cut([piece], 3) || |piece| == 3;
    forall k | 0 <= k < 1 ensures !SplitAt([r], [piece], k) {
      assert [r][..0] == [];
      assert EncodeAll([]) == [];
    }
    assert EncodeAll([r]) + [] == piece;
    RoundTrip([r], [], [piece], junk, m);
  }

  /** Any other header is skipped, on its own, and what follows is read as a header again. */
  lemma OtherHeaderSkipped(kind: byte, subtype: byte, more: seq<byte>, junk: Junk, m: nat)
    requires more != [] && !(kind == 0 && (subtype == 0 || subtype == 2))
    ensures Chunked([[kind, subtype] + more]) && Chunked([more])
    ensures Decode([[kind, subtype] + more], junk, m) == Decode([more], junk, m)
  {
    var piece := [kind, subtype] + more;
    assert piece[..2] == [kind, subtype] && piece[2..] == more;
    OnePiece(piece);
    OnePiece(more);
    assert ReadFull([piece], 2) == (Some([kind, subtype]), [more]) by {
      assert [piece][1..] == [] && [more] + [] == [more];
      assert Recv([piece], 2) == ([kind, subtype], [more]);
      assert [kind, subtype] + [] == [kind, subtype];
    }
    DecodeOne([piece], junk, m);
  }
}
