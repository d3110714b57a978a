/**
 * Rebuilding L2CAP SDUs from HCI ACL records by their declared length.  A B-frame is a 16-bit
 * length, a 16-bit channel id and the payload, all little-endian (section 3.1 of Bluetooth Core
 * Specification Vol 3 Part A); a frame may be spread over several records of its connection.
 */
module L2cap {
  import opened Common

  const DYNAMIC_CID_MIN := 0x40
  const MAX_SDU := 1024

  datatype Sdu = Sdu(cid: int, payload: seq<Byte>)

  /** An SDU begun but not complete: channel, declared length, bytes so far. */
  datatype Open = Open(cid: int, want: nat, buf: seq<Byte>)

  predicate PlausibleCid(cid: int) {
    1 <= cid <= 2 || 4 <= cid <= 10 || cid >= DYNAMIC_CID_MIN
  }

  function Le16(b: seq<Byte>, at: nat): nat
    requires at + 2 <= |b|
  {
    var lo: nat, hi: nat := b[at], b[at + 1];
    lo + 256 * hi
  }

  /** SDUs recognised in a buffer, and what stays open afterwards. */
  datatype Walked = Walked(out: seq<Sdu>, open: Option<Open>, orphans: nat, unparsable: nat)

  function Walk(buf: seq<Byte>): Walked
    decreases |buf|
  {
    if |buf| < 4 then Walked([], None, 0, 0)
    else
      var len, cid := Le16(buf, 0), Le16(buf, 2);
      if !PlausibleCid(cid) then Walked([], None, 1, 0)
      else if len == 0 || len > MAX_SDU then Walked([], None, 0, 1)
      else if len <= |buf| - 4 then
        var w := Walk(buf[4 + len..]);
        w.(out := [Sdu(cid, buf[4..4 + len])] + w.out)
      else Walked([], Some(Open(cid, len, buf[4..])), 0, 0)
  }

  /** One record's worth of bytes on one connection. */
  function FeedData(open: Option<Open>, data: seq<Byte>): Walked {
    if data == [] then Walked([], open, 0, 0)
    else if open.None? then Walk(data)
    else
      var o := open.value;
      var buf := o.buf + data;
      if |buf| < o.want then Walked([], Some(o.(buf := buf)), 0, 0)
      else
        var w := if |buf| > o.want then Walk(buf[o.want..]) else Walked([], None, 0, 0);
        w.(out := [Sdu(o.cid, buf[..o.want])] + w.out)
  }

  /** Whether a record completes the SDU that was open before it. */
  predicate Completes(open: Option<Open>, data: seq<Byte>) {
    open.Some? && data != [] && |open.value.buf + data| >= open.value.want
  }

  /** The bytes of an ACL packet after the H4 type byte, split into connection and data. */
  datatype Acl = Acl(conn: int, data: seq<Byte>)

  function ParseAcl(packet: seq<Byte>): Option<Acl> {
    var body := if packet == [] then [] else packet[1..];
    if |body| < 4 then None
    else
      var len := Le16(body, 2);
      Some(Acl(Le16(body, 0) % 4096,
               if len != 0 && 4 + len < |body| then body[4..4 + len] else body[4..]))
  }

  /** The whole reassembler: what is open per connection. */
  function FeedPacket(open: map<int, Open>, packet: seq<Byte>): (map<int, Open>, seq<Sdu>) {
    match ParseAcl(packet)
    case None => (open, [])
    case Some(a) =>
      var w := FeedData(if a.conn in open then Some(open[a.conn]) else None, a.data);
      (if w.open.Some? then open[a.conn := w.open.value] else open - {a.conn}, w.out)
  }

  /** All packets in order; the SDUs reported for connection c. */
  function FeedAll(packets: seq<seq<Byte>>, c: int): (map<int, Open>, seq<Sdu>) {
    if packets == [] then (map[], [])
    else
      var last := packets[|packets| - 1];
      var r := FeedAll(packets[..|packets| - 1], c);
      var f := FeedPacket(r.0, last);
      (f.0, r.1 + if ParseAcl(last).Some? && ParseAcl(last).value.conn == c then f.1 else [])
  }

  // ----- the sender's side -----

  predicate ValidSdu(u: Sdu) {
    (1 <= u.cid <= 2 || 4 <= u.cid <= 10 || 64 <= u.cid < 0x1_0000) && 1 <= |u.payload| <= 1024
  }

  function Header(u: Sdu): seq<Byte>
    requires ValidSdu(u)
  {
    [|u.payload| % 256, |u.payload| / 256, u.cid % 256, u.cid / 256]
  }

  function Encode(u: Sdu): seq<Byte>
    requires ValidSdu(u)
  {
    Header(u) + u.payload
  }

  predicate AllValid(us: seq<Sdu>) {
    forall k :: 0 <= k < |us| ==> ValidSdu(us[k])
  }

  function Serialize(us: seq<Sdu>): seq<Byte>
    requires AllValid(us)
  {
    if us == [] then [] else Encode(us[0]) + Serialize(us[1..])
  }

  /** Position p of the stream is not strictly inside a 4-byte header. */
  predicate CutAllowed(us: seq<Sdu>, p: int)
    requires AllValid(us)
    decreases |us|
  {
    if p <= 0 || us == [] then p == 0
    else 4 <= p && (p <= |Encode(us[0])| || CutAllowed(us[1..], p - |Encode(us[0])|))
  }

  // ----- what the receiver has still to see -----

  /** The rest of the stream as the receiver stands: an open SDU's missing tail, then whole SDUs. */
  ghost predicate Ready(open: Option<Open>, us: seq<Sdu>, rest: seq<Byte>) {
    && AllValid(us)
    && (open.None? ==> rest == Serialize(us))
    && (open.Some? ==>
          && us != [] && open.value.cid == us[0].cid && open.value.want == |us[0].payload|
          && |open.value.buf| < open.value.want
          && open.value.buf == us[0].payload[..|open.value.buf|]
          && rest == us[0].payload[|open.value.buf|..] + Serialize(us[1..]))
  }

  lemma HeaderReadsBack(u: Sdu, rest: seq<Byte>)
    requires ValidSdu(u)
    ensures var b := Header(u) + rest; Le16(b, 0) == |u.payload| && Le16(b, 2) == u.cid
  {}

  /** Walking over one whole SDU reports it and goes on behind it. */
  lemma {:induction false} WalkOne(u: Sdu, rest: seq<Byte>)
    requires ValidSdu(u)
    ensures Walk(Encode(u) + rest) == Walk(rest).(out := [u] + Walk(rest).out)
  {
    var b := Encode(u) + rest;
    assert b == Header(u) + (u.payload + rest);
    HeaderReadsBack(u, u.payload + rest);
    assert b[4..4 + |u.payload|] == u.payload;
    assert b[4 + |u.payload|..] == rest;
  }

  /** Walking over a header and part of its payload leaves that SDU open. */
  lemma WalkPart(u: Sdu, n: nat)
    requires ValidSdu(u) && n < |u.payload|
    ensures Walk(Header(u) + u.payload[..n])
         == Walked([], Some(Open(u.cid, |u.payload|, u.payload[..n])), 0, 0)
  {
    HeaderReadsBack(u, u.payload[..n]);
    assert (Header(u) + u.payload[..n])[4..] == u.payload[..n];
  }

  /** Cut positions as seen from where the receiver stands. */
  ghost predicate CutFrom(open: Option<Open>, us: seq<Sdu>, q: int)
    requires AllValid(us)
  {
    match open
    case None => CutAllowed(us, q)
    case Some(o) =>
      us != [] && q >= 0
      && var missing := |us[0].payload| - |o.buf|;
         q <= missing || CutAllowed(us[1..], q - missing)
  }

  /** From position p on, the allowed cuts of the stream are those allowed from where the receiver stands. */
  ghost predicate CutsCarryOver(us: seq<Sdu>, p: int, open: Option<Open>, left: seq<Sdu>)
    requires AllValid(us) && AllValid(left)
  {
    forall q :: q >= p ==> (CutAllowed(us, q) <==> CutFrom(open, left, q - p))
  }

  lemma {:induction false} TailValid(us: seq<Sdu>)
    requires AllValid(us) && us != []
    ensures AllValid(us[1..]) && Serialize(us) == Encode(us[0]) + Serialize(us[1..])
  {}

  /** What a record of bytes ..p of the stream does to a receiver with nothing open. */
  ghost predicate WalkedTo(us: seq<Sdu>, p: nat, done: nat)
    requires AllValid(us) && p <= |Serialize(us)| && done <= |us| && AllValid(us[done..])
  {
    var w := Walk(Serialize(us)[..p]);
    && w.out == us[..done] && w.orphans == 0 == w.unparsable
    && Ready(w.open, us[done..], Serialize(us)[p..])
    && CutsCarryOver(us, p, w.open, us[done..])
  }

  lemma SplitBehind<T>(a: seq<T>, b: seq<T>, p: nat)
    requires |a| <= p <= |a| + |b|
    ensures (a + b)[..p] == a + b[..p - |a|] && (a + b)[p..] == b[p - |a|..]
  {}

  lemma SplitInside<T>(a: seq<T>, b: seq<T>, c: seq<T>, p: nat)
    requires |a| <= p <= |a| + |b|
    ensures (a + b + c)[..p] == a + b[..p - |a|] && (a + b + c)[p..] == b[p - |a|..] + c
  {}

  lemma TakeFirst<T>(us: seq<T>, k: nat)
    requires us != [] && k < |us|
    ensures us[..k + 1] == [us[0]] + us[1..][..k] && us[k + 1..] == us[1..][k..]
  {}

  lemma {:induction false} WalkInsideFirst(us: seq<Sdu>, p: nat)
    requires AllValid(us) && us != [] && 4 <= p < |Encode(us[0])| && p <= |Serialize(us)|
    ensures AllValid(us[0..]) && WalkedTo(us, p, 0)
  {
    var u, s, rest := us[0], Serialize(us), Serialize(us[1..]);
    assert us[0..] == us;
    SplitInside(Header(u), u.payload, rest, p);
    WalkPart(u, p - 4);
    hide Walk, Serialize;
    assert s == Header(u) + u.payload + rest by { TailValid(us); }
  }

  lemma CutPastFirst(us: seq<Sdu>, q: int)
    requires AllValid(us) && us != [] && q >= |Encode(us[0])|
    ensures AllValid(us[1..]) && (CutAllowed(us, q) <==> CutAllowed(us[1..], q - |Encode(us[0])|))
  {}

  lemma CutsShift(us: seq<Sdu>, p: nat, open: Option<Open>, left: seq<Sdu>)
    requires AllValid(us) && us != [] && p >= |Encode(us[0])| && AllValid(left) && AllValid(us[1..])
    requires CutsCarryOver(us[1..], p - |Encode(us[0])|, open, left)
    ensures CutsCarryOver(us, p, open, left)
  {
    var len := |Encode(us[0])|;
    forall q | q >= p ensures CutAllowed(us, q) <==> CutFrom(open, left, q - p) {
      CutPastFirst(us, q);
      assert CutAllowed(us[1..], q - len) <==> CutFrom(open, left, (q - len) - (p - len));
    }
  }

  lemma {:induction false} WalkPastFirst(us: seq<Sdu>, p: nat, done: nat)
    requires AllValid(us) && us != [] && |Encode(us[0])| <= p <= |Serialize(us)|
    requires AllValid(us[1..]) && p - |Encode(us[0])| <= |Serialize(us[1..])|
    requires done <= |us[1..]| && AllValid(us[1..][done..])
    requires WalkedTo(us[1..], p - |Encode(us[0])|, done)
    ensures AllValid(us[done + 1..]) && WalkedTo(us, p, done + 1)
  {
    var u, rest, len := us[0], Serialize(us[1..]), |Encode(us[0])|;
    var s := Serialize(us);
    TailValid(us);
    WalkOne(u, rest[..p - len]);
    TakeFirst(us, done);
    hide Walk, Ready, CutFrom, Encode, AllValid, Serialize, CutAllowed, CutsCarryOver;
    var w := Walk(rest[..p - len]);
    CutsShift(us, p, w.open, us[done + 1..]);
    SplitBehind(Encode(u), rest, p);
  }

  /** A record of whole SDUs and at most one part of a further one, from a clean start: the
      first `done` SDUs come out, the rest is still to come. */
  lemma {:induction false} WalkPrefix(us: seq<Sdu>, p: nat) returns (done: nat)
    requires AllValid(us) && p <= |Serialize(us)| && CutAllowed(us, p)
    ensures done <= |us| && AllValid(us[done..]) && WalkedTo(us, p, done)
    decreases |us|
  {
    hide Walk, Ready, WalkedTo, Encode;
    if p == 0 {
      done := 0;
      WalkNothing(us);
    } else {
      EncodeLength(us[0]);
      TailValid(us);
      var len := |Encode(us[0])|;
      if p < len {
        done := 0;
        WalkInsideFirst(us, p);
      } else {
        assert CutAllowed(us[1..], p - len);
        done := WalkPrefix(us[1..], p - len);
        WalkPastFirst(us, p, done);
        done := done + 1;
      }
    }
  }

  lemma EncodeLength(u: Sdu)
    requires ValidSdu(u)
    ensures |Encode(u)| == 4 + |u.payload| > 4
  {}

  lemma WalkNothing(us: seq<Sdu>)
    requires AllValid(us)
    ensures AllValid(us[0..]) && WalkedTo(us, 0, 0)
  {
    assert us[0..] == us && Serialize(us)[..0] == [] && Serialize(us)[0..] == Serialize(us);
  }

  // ----- one record, wherever the receiver stands -----

  /** From where the receiver stands, a record of the next p bytes reports `done` SDUs and leaves
      it standing at the right place. */
  ghost predicate FedTo(open: Option<Open>, us: seq<Sdu>, rest: seq<Byte>, p: nat, done: nat)
    requires AllValid(us) && p <= |rest| && done <= |us| && AllValid(us[done..])
  {
    var w := FeedData(open, rest[..p]);
    && w.out == us[..done] && w.orphans == 0 == w.unparsable
    && Ready(w.open, us[done..], rest[p..])
    && forall q :: q >= p ==> (CutFrom(open, us, q) <==> CutFrom(w.open, us[done..], q - p))
  }

  lemma FeedNothing(open: Option<Open>, us: seq<Sdu>, rest: seq<Byte>)
    requires Ready(open, us, rest)
    ensures AllValid(us[0..]) && FedTo(open, us, rest, 0, 0)
  {
    hide Walk, Serialize;
    assert us[0..] == us && rest[..0] == [] && rest[0..] == rest;
  }

  lemma FeedIdle(us: seq<Sdu>, rest: seq<Byte>, p: nat) returns (done: nat)
    requires Ready(None, us, rest) && 0 < p <= |rest| && CutAllowed(us, p)
    ensures done <= |us| && AllValid(us[done..]) && FedTo(None, us, rest, p, done)
  {
    hide Walk, CutFrom, Serialize, CutAllowed;
    done := WalkPrefix(us, p);
    forall q | q >= p ensures CutFrom(None, us, q) <==> CutAllowed(us, q) { NoneCut(us, q); }
  }

  lemma {:induction false} NoneCut(us: seq<Sdu>, q: int)
    requires AllValid(us)
    ensures CutFrom(None, us, q) == CutAllowed(us, q)
  {}

  /** The record ends inside the open SDU. */
  lemma FeedMore(o: Open, us: seq<Sdu>, rest: seq<Byte>, p: nat)
    requires Ready(Some(o), us, rest) && 0 < p <= |rest| && p < o.want - |o.buf|
    ensures AllValid(us[0..]) && FedTo(Some(o), us, rest, p, 0)
  {
    hide Walk, Serialize, CutAllowed;
    var u := us[0];
    var tail := u.payload[|o.buf|..];
    assert us[0..] == us;
    SplitInside([], tail, Serialize(us[1..]), p);
    assert rest == [] + tail + Serialize(us[1..]);
    assert o.buf + tail[..p] == u.payload[..|o.buf| + p];
    assert tail[p..] == u.payload[|o.buf| + p..];
  }

  /** The record completes the open SDU, and possibly more. */
  lemma FeedCompletes(o: Open, us: seq<Sdu>, rest: seq<Byte>, p: nat) returns (done: nat)
    requires Ready(Some(o), us, rest) && p <= |rest| && p >= o.want - |o.buf|
    requires AllValid(us[1..]) && CutAllowed(us[1..], p - (o.want - |o.buf|))
    ensures done <= |us| && AllValid(us[done..]) && FedTo(Some(o), us, rest, p, done)
  {
    hide Walk, Serialize, CutAllowed;
    var u, m, left := us[0], o.want - |o.buf|, Serialize(us[1..]);
    var tail := u.payload[|o.buf|..];
    SplitBehind(tail, left, p);
    var buf := o.buf + rest[..p];
    assert o.buf + tail == u.payload;
    assert buf == u.payload + left[..p - m];
    assert buf[..o.want] == u.payload && buf[o.want..] == left[..p - m];
    done := WalkPrefix(us[1..], p - m);
    TakeFirst(us, done);
    WalkedFrom(us, left, p - m, done, FeedData(Some(o), rest[..p]));
    var open := Walk(left[..p - m]).open;
    hide Ready;
    forall q | q >= p ensures CutFrom(Some(o), us, q) <==> CutFrom(open, us[done + 1..], q - p) {
      OpenCut(o, us, q);
      assert CutAllowed(us[1..], q - m) <==> CutFrom(open, us[1..][done..], (q - m) - (p - m));
    }
    done := done + 1;
  }

  lemma {:induction false} OpenCut(o: Open, us: seq<Sdu>, q: int)
    requires AllValid(us) && us != [] && AllValid(us[1..])
    requires q >= |us[0].payload| - |o.buf| >= 0
    ensures CutFrom(Some(o), us, q) <==> CutAllowed(us[1..], q - (|us[0].payload| - |o.buf|))
  {}

  /** What the walk behind a completed SDU contributes. */
  lemma WalkedFrom(us: seq<Sdu>, left: seq<Byte>, p: nat, done: nat, w: Walked)
    requires AllValid(us) && us != [] && AllValid(us[1..]) && left == Serialize(us[1..])
    requires p <= |left| && done <= |us[1..]| && AllValid(us[1..][done..]) && WalkedTo(us[1..], p, done)
    requires w == if p > 0 then Walk(left[..p]).(out := [us[0]] + Walk(left[..p]).out)
                  else Walked([us[0]], None, 0, 0)
    ensures w == Walk(left[..p]).(out := [us[0]] + Walk(left[..p]).out)
  {
    if p == 0 { assert left[..0] == []; }
  }

  lemma FeedStep(open: Option<Open>, us: seq<Sdu>, rest: seq<Byte>, p: nat) returns (done: nat)
    requires Ready(open, us, rest) && p <= |rest| && CutFrom(open, us, p)
    ensures done <= |us| && AllValid(us[done..]) && FedTo(open, us, rest, p, done)
  {
    hide Walk, Serialize, FedTo, FeedData;
    if p == 0 {
      FeedNothing(open, us, rest);
      done := 0;
    } else if open.None? {
      done := FeedIdle(us, rest, p);
    } else {
      TailValid(us);
      if p < open.value.want - |open.value.buf| {
        FeedMore(open.value, us, rest, p);
        done := 0;
      } else {
        done := FeedCompletes(open.value, us, rest, p);
      }
    }
  }

  // ----- whole captures -----

  /** Everything the packets carry on connection c, in order. */
  function Stream(packets: seq<seq<Byte>>, c: int): seq<Byte> {
    if packets == [] then []
    else
      var a := ParseAcl(packets[|packets| - 1]);
      Stream(packets[..|packets| - 1], c) + if a.Some? && a.value.conn == c then a.value.data else []
  }

  function OpenOn(open: map<int, Open>, c: int): Option<Open> {
    if c in open then Some(open[c]) else None
  }

  /** Records of other connections leave connection c alone. */
  lemma OtherConnection(open: map<int, Open>, packet: seq<Byte>, c: int)
    requires ParseAcl(packet).None? || ParseAcl(packet).value.conn != c
    ensures OpenOn(FeedPacket(open, packet).0, c) == OpenOn(open, c)
  {
    hide FeedData, ParseAcl;
  }

  lemma OwnConnection(open: map<int, Open>, packet: seq<Byte>, c: int)
    requires ParseAcl(packet).Some? && ParseAcl(packet).value.conn == c
    ensures var w := FeedData(OpenOn(open, c), ParseAcl(packet).value.data);
            var f := FeedPacket(open, packet);
            OpenOn(f.0, c) == w.open && f.1 == w.out
  {
    hide FeedData, ParseAcl;
  }

  /** After some packets: `done` SDUs of connection c are out and the receiver stands at the
      right place of the stream. */
  ghost predicate Received(packets: seq<seq<Byte>>, c: int, us: seq<Sdu>, done: nat)
    requires AllValid(us) && done <= |us| && AllValid(us[done..])
  {
    var r, n := FeedAll(packets, c), |Stream(packets, c)|;
    && r.1 == us[..done]
    && n <= |Serialize(us)|
    && Ready(OpenOn(r.0, c), us[done..], Serialize(us)[n..])
    && CutsCarryOver(us, n, OpenOn(r.0, c), us[done..])
  }

  lemma ReceivedNothing(c: int, us: seq<Sdu>)
    requires AllValid(us)
    ensures AllValid(us[0..]) && Received([], c, us, 0)
  {
    hide Serialize, CutAllowed;
    assert us[0..] == us && Serialize(us)[0..] == Serialize(us);
    forall q | q >= 0 ensures CutAllowed(us, q) <==> CutFrom(None, us[0..], q - 0) {
      NoneCut(us, q);
    }
  }

  lemma ReceiveOwn(packets: seq<seq<Byte>>, packet: seq<Byte>, c: int, us: seq<Sdu>, done: nat)
    returns (more: nat)
    requires AllValid(us) && done <= |us| && AllValid(us[done..]) && Received(packets, c, us, done)
    requires ParseAcl(packet).Some? && ParseAcl(packet).value.conn == c
    requires var s := Stream(packets, c) + ParseAcl(packet).value.data;
             s <= Serialize(us) && CutAllowed(us, |s|)
    ensures more <= |us| && AllValid(us[more..]) && Received(packets + [packet], c, us, more)
  {
    hide FeedData, ParseAcl, Serialize, CutAllowed, CutFrom, FeedPacket, Ready, AllValid;
    var all := packets + [packet];
    assert all[..|packets|] == packets;
    var r, s, full := FeedAll(packets, c), Stream(packets, c), Serialize(us);
    var data, open := ParseAcl(packet).value.data, OpenOn(r.0, c);
    var n, p, rest := |s|, |data|, Serialize(us)[|s|..];
    assert rest[..p] == data;
    assert CutFrom(open, us[done..], (n + p) - n);
    var d := FeedStep(open, us[done..], rest, p);
    OwnConnection(r.0, packet, c);
    more := done + d;
    assert us[more..] == us[done..][d..];
    assert us[..more] == us[..done] + us[done..][..d];
    assert rest[p..] == full[n + p..];
    assert Stream(all, c) == s + data;
    forall q | q >= n + p
      ensures CutAllowed(us, q) <==> CutFrom(FeedData(open, data).open, us[more..], q - (n + p))
    {
      assert CutAllowed(us, q) <==> CutFrom(open, us[done..], q - n);
      assert (q - n) - p == q - (n + p);
    }
  }

  lemma ReceiveOther(packets: seq<seq<Byte>>, packet: seq<Byte>, c: int, us: seq<Sdu>, done: nat)
    requires AllValid(us) && done <= |us| && AllValid(us[done..]) && Received(packets, c, us, done)
    requires ParseAcl(packet).None? || ParseAcl(packet).value.conn != c
    ensures Received(packets + [packet], c, us, done)
  {
    hide FeedData, ParseAcl, Serialize, CutAllowed, CutFrom, FeedPacket, Ready, AllValid;
    assert (packets + [packet])[..|packets|] == packets;
    OtherConnection(FeedAll(packets, c).0, packet, c);
    assert Stream(packets + [packet], c) == Stream(packets, c);
  }

  /** None of the first n records of connection c ends inside a header. */
  ghost predicate CutsAllowedUpTo(packets: seq<seq<Byte>>, c: int, us: seq<Sdu>, n: int)
    requires AllValid(us) && n <= |packets|
  {
    forall i :: 0 <= i <= n ==> CutAllowed(us, |Stream(packets[..i], c)|)
  }

  /** No record of connection c ends inside a header. */
  ghost predicate CutsAllowed(packets: seq<seq<Byte>>, c: int, us: seq<Sdu>)
    requires AllValid(us)
  {
    CutsAllowedUpTo(packets, c, us, |packets|)
  }

  lemma {:induction false} StreamPrefix(packets: seq<seq<Byte>>, c: int, i: nat)
    requires i <= |packets|
    ensures Stream(packets[..i], c) <= Stream(packets, c)
  {
    hide ParseAcl;
    if i < |packets| {
      StreamPrefix(packets[..|packets| - 1], c, i);
      assert packets[..|packets| - 1][..i] == packets[..i];
    } else {
      assert packets[..i] == packets;
    }
  }

  lemma {:induction false} ReceivedUpTo(packets: seq<seq<Byte>>, c: int, us: seq<Sdu>, i: nat)
    returns (done: nat)
    requires AllValid(us) && i <= |packets|
    requires Stream(packets, c) == Serialize(us) && CutsAllowedUpTo(packets, c, us, i)
    ensures done <= |us| && AllValid(us[done..]) && Received(packets[..i], c, us, done)
  {
    hide ParseAcl, Received, Serialize, CutAllowed, AllValid, FeedAll;
    if i == 0 {
      done := 0;
      assert packets[..0] == [];
      ReceivedNothing(c, us);
    } else {
      done := ReceivedUpTo(packets, c, us, i - 1);
      var before, packet := packets[..i - 1], packets[i - 1];
      assert packets[..i] == before + [packet];
      assert packets[..i][..i - 1] == before;
      StreamPrefix(packets, c, i);
      if ParseAcl(packet).Some? && ParseAcl(packet).value.conn == c {
        done := ReceiveOwn(before, packet, c, us, done);
      } else {
        ReceiveOther(before, packet, c, us, done);
      }
    }
  }

  lemma {:induction false} EmptyStream(us: seq<Sdu>)
    requires AllValid(us) && Serialize(us) == []
    ensures us == []
  {}

  /**
   * Fragmentation round trip.  Let the bytes of connection c, over all packets of a capture, be the
   * serialisation of valid SDUs, cut anywhere except inside a header and interleaved with any
   * packets of other connections.  Then the reassembler reports exactly those SDUs on c, in order,
   * and leaves nothing open on c.
   */
  lemma {:induction false} ReassemblyRoundTrip(packets: seq<seq<Byte>>, c: int, us: seq<Sdu>)
    requires AllValid(us) && Stream(packets, c) == Serialize(us) && CutsAllowed(packets, c, us)
    ensures FeedAll(packets, c).1 == us
    ensures c !in FeedAll(packets, c).0
  {
    hide FeedAll, Stream, CutsCarryOver;
    var done := ReceivedUpTo(packets, c, us, |packets|);
    assert packets[..|packets|] == packets;
    var left := us[done..];
    assert Serialize(us)[|Serialize(us)|..] == [];
    if OpenOn(FeedAll(packets, c).0, c).None? {
      EmptyStream(left);
    }
    assert us[..done] == us;
  }

  /** An ACL packet as the capture stores it: packet type, handle with flag bits, length, data
      and possibly padding behind it. */
  function Record(conn: nat, flags: nat, data: seq<Byte>, padding: seq<Byte>): seq<Byte>
    requires conn < 4096 && flags < 16 && |data| < 0x1_0000
  {
    [2, conn % 256, conn / 256 + 16 * flags, |data| % 256, |data| / 256] + data + padding
  }

  /** Whatever the boundary flags say, a record is read back as its connection and data. */
  lemma RecordReadsBack(conn: nat, flags: nat, data: seq<Byte>, padding: seq<Byte>)
    requires conn < 4096 && flags < 16 && 0 < |data| < 0x1_0000
    ensures ParseAcl(Record(conn, flags, data, padding)) == Some(Acl(conn, data))
  {
    var r := Record(conn, flags, data, padding);
    var body := r[1..];
    assert body == [conn % 256, conn / 256 + 16 * flags, |data| % 256, |data| / 256] + data + padding;
    assert Le16(body, 0) == conn + 4096 * flags;
    assert Le16(body, 2) == |data|;
    assert body[4..4 + |data|] == data;
    assert padding == [] ==> body[4..] == data;
  }

  /** A record that declares no length carries everything behind its header. */
  lemma NoLengthMeansAll(conn: nat, flags: nat, data: seq<Byte>)
    requires conn < 4096 && flags < 16
    ensures ParseAcl([2, conn % 256, conn / 256 + 16 * flags, 0, 0] + data) == Some(Acl(conn, data))
  {
    var r := [2, conn % 256, conn / 256 + 16 * flags, 0, 0] + data;
    var body := r[1..];
    assert body == [conn % 256, conn / 256 + 16 * flags, 0, 0] + data;
    assert Le16(body, 0) == conn + 4096 * flags;
    assert body[4..] == data;
  }

  /**
   * Which headers are believed.  With nothing open, bytes that begin with a header for an unknown channel
   * (not 1, 2, 4 to 10, or 64 and above) are counted as one orphan; for a known channel but with a length
   * of 0 or above 1024, as one unparsable header; otherwise the SDU comes out and the walk goes on behind
   * it, or it stays open if its payload is not all there.
   */
  lemma {:induction false} HeaderBelievedExactly(len: nat, cid: nat, rest: seq<Byte>)
    requires len < 0x1_0000 && cid < 0x1_0000
    ensures var w := Walk([len % 256, len / 256, cid % 256, cid / 256] + rest);
            if cid == 0 || cid == 3 || 10 < cid < 64 then w == Walked([], None, 1, 0)
            else if len == 0 || len > 1024 then w == Walked([], None, 0, 1)
            else if |rest| < len then w == Walked([], Some(Open(cid, len, rest)), 0, 0)
            else w == Walk(rest[len..]).(out := [Sdu(cid, rest[..len])] + Walk(rest[len..]).out)
  {
    var b := [len % 256, len / 256, cid % 256, cid / 256] + rest;
    assert Le16(b, 0) == len && Le16(b, 2) == cid;
    assert b[4..] == rest;
    if len <= |rest| {
      assert b[4..4 + len] == rest[..len] && b[4 + len..] == rest[len..];
    }
  }

  /** A record adds to an open SDU until that is complete, and then reports it first; only then does the
      record count as completing one. */
  lemma OpenSduGrows(o: Open, data: seq<Byte>)
    requires |o.buf| < o.want
    ensures var w, buf := FeedData(Some(o), data), o.buf + data;
            if |buf| < o.want then w == Walked([], Some(Open(o.cid, o.want, buf)), 0, 0) && !Completes(Some(o), data)
            else w.out != [] && w.out[0] == Sdu(o.cid, buf[..o.want]) && Completes(Some(o), data)
  {
    hide Walk;
    if data == [] { assert o.buf + data == o.buf; }
  }

  // ----- the condition is exact -----

  /** The bytes that reported SDUs stand for. */
  function Volume(us: seq<Sdu>): nat {
    if us == [] then 0 else 4 + |us[0].payload| + Volume(us[1..])
  }

  /** The bytes an open SDU stands for. */
  function Pending(open: Option<Open>): nat {
    if open.None? then 0 else 4 + |open.value.buf|
  }

  lemma {:induction false} VolumeConcat(us: seq<Sdu>, vs: seq<Sdu>)
    ensures Volume(us + vs) == Volume(us) + Volume(vs)
  {
    if us == [] {
      assert us + vs == vs;
    } else {
      VolumeConcat(us[1..], vs);
      assert (us + vs)[1..] == us[1..] + vs;
    }
  }

  lemma {:induction false} SerializedVolume(us: seq<Sdu>)
    requires AllValid(us)
    ensures |Serialize(us)| == Volume(us)
  {
    if us != [] { SerializedVolume(us[1..]); }
  }

  /** A walk never reports more bytes than it was given. */
  lemma {:induction false} WalkVolume(buf: seq<Byte>)
    ensures Volume(Walk(buf).out) + Pending(Walk(buf).open) <= |buf|
    decreases |buf|
  {
    if |buf| >= 4 {
      var len, cid := Le16(buf, 0), Le16(buf, 2);
      if PlausibleCid(cid) && 0 < len <= MAX_SDU && len <= |buf| - 4 {
        WalkVolume(buf[4 + len..]);
        VolumeConcat([Sdu(cid, buf[4..4 + len])], Walk(buf[4 + len..]).out);
      }
    }
  }

  lemma FeedVolume(open: Option<Open>, data: seq<Byte>)
    ensures var w := FeedData(open, data); Volume(w.out) + Pending(w.open) <= Pending(open) + |data|
  {
    hide Walk;
    if open.None? {
      WalkVolume(data);
    } else if |open.value.buf + data| >= open.value.want {
      var buf := open.value.buf + data;
      var rest := buf[open.value.want..];
      WalkVolume(rest);
      VolumeConcat([Sdu(open.value.cid, buf[..open.value.want])], Walk(rest).out);
    }
  }

  /** What a walk over the first p bytes of a stream does with them: none is counted as orphaned or
      unparsable, and some are dropped exactly if it ends inside a header. */
  ghost predicate WalkAccounts(us: seq<Sdu>, p: nat)
    requires AllValid(us) && p <= |Serialize(us)|
  {
    var w := Walk(Serialize(us)[..p]);
    && w.orphans == 0 == w.unparsable
    && Volume(w.out) + Pending(w.open) <= p
    && (Volume(w.out) + Pending(w.open) == p <==> CutAllowed(us, p))
  }

  lemma {:induction false} WalkDropsSilently(us: seq<Sdu>, p: nat)
    requires AllValid(us) && p <= |Serialize(us)|
    ensures WalkAccounts(us, p)
  {
    if p >= 4 {
      var u, rest := us[0], Serialize(us[1..]);
      TailValid(us);
      EncodeLength(u);
      if p < |Encode(u)| {
        SplitInside(Header(u), u.payload, rest, p);
        assert Serialize(us)[..p] == Header(u) + u.payload[..p - 4];
        WalkPart(u, p - 4);
      } else {
        var q := p - |Encode(u)|;
        WalkDropsSilently(us[1..], q);
        SplitBehind(Encode(u), rest, p);
        WalkOne(u, rest[..q]);
        VolumeConcat([u], Walk(rest[..q]).out);
        CutPastFirst(us, p);
      }
    }
  }

  /** What a record of the next p bytes does, wherever the receiver stands. */
  ghost predicate FeedAccounts(open: Option<Open>, us: seq<Sdu>, rest: seq<Byte>, p: nat)
    requires AllValid(us) && p <= |rest|
  {
    var w := FeedData(open, rest[..p]);
    && w.orphans == 0 == w.unparsable
    && Volume(w.out) + Pending(w.open) <= Pending(open) + p
    && (Volume(w.out) + Pending(w.open) == Pending(open) + p <==> CutFrom(open, us, p))
  }

  /**
   * What a header cut costs.  Wherever the receiver stands in a stream of valid SDUs, a record of the
   * next bytes counts nothing as orphaned or unparsable; it drops bytes if and only if it ends inside
   * a header, behind however many whole SDUs.
   */
  lemma {:induction false} HeaderCutIsSilent(open: Option<Open>, us: seq<Sdu>, rest: seq<Byte>, p: nat)
    requires Ready(open, us, rest) && p <= |rest|
    ensures FeedAccounts(open, us, rest, p)
  {
    hide Walk, Serialize, CutAllowed;
    if open.None? {
      WalkDropsSilently(us, p);
      NoneCut(us, p);
      if p == 0 { StartAllowed(us); }
    } else {
      var o, u, left := open.value, us[0], Serialize(us[1..]);
      var m, tail := |u.payload| - |o.buf|, u.payload[|o.buf|..];
      if p < m {
        SplitInside([], tail, left, p);
        assert rest == [] + tail + left;
      } else {
        WalkDropsSilently(us[1..], p - m);
        SplitBehind(tail, left, p);
        var buf := o.buf + rest[..p];
        assert o.buf + tail == u.payload;
        assert buf == u.payload + left[..p - m];
        assert buf[..o.want] == u.payload && buf[o.want..] == left[..p - m];
        VolumeConcat([u], Walk(left[..p - m]).out);
        OpenCut(o, us, p);
        if p == m {
          StartAllowed(us[1..]);
          assert left[..0] == [];
        }
      }
    }
  }

  lemma {:induction false} StartAllowed(us: seq<Sdu>)
    requires AllValid(us)
    ensures CutAllowed(us, 0)
  {}

  /** The bytes of connection c that neither came out nor are pending. */
  function Lost(packets: seq<seq<Byte>>, c: int): int {
    var r := FeedAll(packets, c);
    |Stream(packets, c)| - Volume(r.1) - Pending(OpenOn(r.0, c))
  }

  /** What is lost stays lost. */
  lemma LostStays(packets: seq<seq<Byte>>, packet: seq<Byte>, c: int)
    ensures Lost(packets + [packet], c) >= Lost(packets, c)
  {
    hide FeedData, ParseAcl, FeedPacket, Pending;
    assert (packets + [packet])[..|packets|] == packets;
    var r, a := FeedAll(packets, c), ParseAcl(packet);
    if a.Some? && a.value.conn == c {
      OwnConnection(r.0, packet, c);
      FeedVolume(OpenOn(r.0, c), a.value.data);
      VolumeConcat(r.1, FeedPacket(r.0, packet).1);
    } else {
      OtherConnection(r.0, packet, c);
      VolumeConcat(r.1, []);
    }
  }

  /** The first record that ends inside a header loses bytes. */
  lemma {:induction false} RecordLoses(packets: seq<seq<Byte>>, packet: seq<Byte>, c: int, us: seq<Sdu>, done: nat)
    requires AllValid(us) && done <= |us| && AllValid(us[done..]) && Received(packets, c, us, done)
    requires ParseAcl(packet).Some? && ParseAcl(packet).value.conn == c
    requires var s := Stream(packets, c) + ParseAcl(packet).value.data;
             s <= Serialize(us) && !CutAllowed(us, |s|)
    ensures Lost(packets + [packet], c) > Lost(packets, c)
  {
    hide FeedData, ParseAcl, Serialize, CutAllowed, CutFrom, FeedPacket, Ready, AllValid, Pending;
    assert (packets + [packet])[..|packets|] == packets;
    var r, s, data := FeedAll(packets, c), Stream(packets, c), ParseAcl(packet).value.data;
    var open, rest := OpenOn(r.0, c), Serialize(us)[|s|..];
    assert rest[..|data|] == data;
    assert !CutFrom(open, us[done..], (|s| + |data|) - |s|);
    HeaderCutIsSilent(open, us[done..], rest, |data|);
    OwnConnection(r.0, packet, c);
    VolumeConcat(r.1, FeedPacket(r.0, packet).1);
  }

  lemma NothingLostAtFirst(c: int)
    ensures Lost([], c) == 0
  {}

  /** A capture one of whose first n records ends inside a header has lost bytes by then. */
  lemma {:induction false} BadCutLoses(packets: seq<seq<Byte>>, c: int, us: seq<Sdu>, n: nat)
    requires AllValid(us) && n <= |packets| && Stream(packets, c) == Serialize(us)
    ensures Lost(packets[..n], c) >= 0
    ensures !CutsAllowedUpTo(packets, c, us, n) ==> Lost(packets[..n], c) > 0
  {
    hide ParseAcl, Received, Serialize, CutAllowed, AllValid, FeedAll, Lost;
    if n == 0 {
      assert packets[..0] == [];
      NothingLostAtFirst(c);
      StartAllowed(us);
    } else {
      var before, packet := packets[..n - 1], packets[n - 1];
      assert packets[..n] == before + [packet] && packets[..n][..n - 1] == before;
      BadCutLoses(packets, c, us, n - 1);
      LostStays(before, packet, c);
      if CutsAllowedUpTo(packets, c, us, n - 1) && !CutsAllowedUpTo(packets, c, us, n) {
        var done := ReceivedUpTo(packets, c, us, n - 1);
        StreamPrefix(packets, c, n);
        assert !CutAllowed(us, |Stream(packets[..n], c)|);
        RecordLoses(before, packet, c, us, done);
      }
    }
  }

  /**
   * When reassembly works.  For the serialisation of valid SDUs on connection c, spread over a
   * capture in any way and interleaved with anything, the reassembler reports exactly those SDUs and
   * leaves nothing open if and only if no record of c ends inside a header.
   */
  lemma {:induction false} RoundTripExactlyWithoutHeaderCuts(packets: seq<seq<Byte>>, c: int, us: seq<Sdu>)
    requires AllValid(us) && Stream(packets, c) == Serialize(us)
    ensures FeedAll(packets, c).1 == us && c !in FeedAll(packets, c).0 <==> CutsAllowed(packets, c, us)
  {
    hide FeedAll, Stream, CutsAllowedUpTo;
    if CutsAllowed(packets, c, us) {
      ReassemblyRoundTrip(packets, c, us);
    } else {
      BadCutLoses(packets, c, us, |packets|);
      assert packets[..|packets|] == packets;
      SerializedVolume(us);
    }
  }
}

/** The reassembler object. */
module L2capReassembly {
  import opened Common
  import opened L2cap

  lemma {:induction false} WalkUnfold(view: seq<Byte>)
    requires |view| >= 4
    ensures var len, cid, body := Le16(view, 0), Le16(view, 2), view[4..];
            Walk(view) ==
              if !PlausibleCid(cid) then Walked([], None, 1, 0)
              else if len == 0 || len > MAX_SDU then Walked([], None, 0, 1)
              else if len <= |body| then
                Walk(body[len..]).(out := [Sdu(cid, body[..len])] + Walk(body[len..]).out)
              else Walked([], Some(Open(cid, len, body)), 0, 0)
  {
    var len := Le16(view, 0);
    if len <= |view| - 4 {
      assert view[4..][..len] == view[4..4 + len] && view[4..][len..] == view[4 + len..];
    }
  }

  lemma {:induction false} WalkShort(view: seq<Byte>)
    requires |view| < 4
    ensures Walk(view) == Walked([], None, 0, 0)
  {}

  class L2capReassembler {
    var open: map<int, Open>
    var reassembled: nat
    var orphans: nat
    var unparsable: nat

    constructor ()
      ensures open == map[] && reassembled == orphans == unparsable == 0
    {
      open, reassembled, orphans, unparsable := map[], 0, 0, 0;
    }

    /** Advances over the whole SDUs of a buffer; a begun one stays open. */
    method WalkBuffer(conn: int, buf: seq<Byte>) returns (out: seq<Sdu>)
      requires conn !in open
      modifies this`open, this`orphans, this`unparsable
      ensures var w := Walk(buf);
              && out == w.out
              && open == (if w.open.Some? then old(open)[conn := w.open.value] else old(open))
              && orphans == old(orphans) + w.orphans && unparsable == old(unparsable) + w.unparsable
    {
      hide Walk;
      out := [];
      var pos: nat := 0;
      assert buf[0..] == buf;
      while pos + 4 <= |buf|
        invariant pos <= |buf|
        invariant open == old(open) && orphans == old(orphans) && unparsable == old(unparsable)
        invariant Walk(buf) == Walk(buf[pos..]).(out := out + Walk(buf[pos..]).out)
        decreases |buf| - pos
      {
        var view := buf[pos..];
        var l2capLen, cid := Le16(view, 0), Le16(view, 2);
        var body := view[4..];
        WalkUnfold(view);
        if !PlausibleCid(cid) {
          orphans := orphans + 1;
          return;
        }
        if l2capLen == 0 || l2capLen > MAX_SDU {
          unparsable := unparsable + 1;
          return;
        }
        if l2capLen <= |body| {
          assert body[l2capLen..] == buf[pos + 4 + l2capLen..];
          out := out + [Sdu(cid, body[..l2capLen])];
          pos := pos + 4 + l2capLen;
          continue;
        }
        open := open[conn := Open(cid, l2capLen, body)];
        return;
      }
      WalkShort(buf[pos..]);
    }

    method Feed(packet: seq<Byte>) returns (out: seq<Sdu>)
      modifies this
      ensures (open, out) == FeedPacket(old(open), packet)
      ensures var a := ParseAcl(packet);
              if a.None? then
                reassembled == old(reassembled) && orphans == old(orphans) && unparsable == old(unparsable)
              else
                var before := OpenOn(old(open), a.value.conn);
                var w := FeedData(before, a.value.data);
                && reassembled == old(reassembled) + (if Completes(before, a.value.data) then 1 else 0)
                && orphans == old(orphans) + w.orphans && unparsable == old(unparsable) + w.unparsable
    {
      hide Walk;
      var body := if packet == [] then [] else packet[1..];
      if |body| < 4 {
        return [];
      }
      var conn, aclLen := Le16(body, 0) % 4096, Le16(body, 2);
      var data := if aclLen != 0 && 4 + aclLen < |body| then body[4..4 + aclLen] else body[4..];
      if data == [] {
        assert open == if conn in open then open[conn := open[conn]] else open - {conn};
        return [];
      }
      if conn in open {
        var pending := open[conn];
        var buf := pending.buf + data;
        if |buf| < pending.want {
          open := open[conn := pending.(buf := buf)];
          return [];
        }
        reassembled := reassembled + 1;
        open := open - {conn};
        out := [Sdu(pending.cid, buf[..pending.want])];
        if |buf| > pending.want {
          var tail := WalkBuffer(conn, buf[pending.want..]);
          out := out + tail;
          ghost var w := Walk(buf[pending.want..]);
          assert w.open.Some? ==> open == old(open)[conn := w.open.value];
        } else {
          assert out + [] == out;
        }
        assert (open, out) == FeedPacket(old(open), packet);
        return;
      }
      assert open - {conn} == open;
      out := WalkBuffer(conn, data);
    }
  }
}
