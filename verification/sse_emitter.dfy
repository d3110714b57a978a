/**
 * Server-sent events to browser clients: per client a bounded queue that drops its oldest event
 * when full, and per client and device one pending status, the latest.
 */
module SseStreams {
  import opened Common

  const MAX_QUEUE_SIZE := 128

  /** A device id; None is the single-device mode. */
  type Device = Option<nat>

  datatype Msg = Msg(device: Device, status: bool, payload: nat)

  datatype Client = Client(queue: seq<Msg>, pending: map<Device, Msg>)

  const EMPTY := Client([], map[])

  function Put(q: seq<Msg>, m: Msg): seq<Msg> {
    if |q| < MAX_QUEUE_SIZE then q + [m] else q[1..] + [m]
  }

  /** What one emitted event puts into a client's queue: an overtaken status first, if there is one. */
  function Queued(c: Client, m: Msg): seq<Msg> {
    if m.status then []
    else if m.device in c.pending then [c.pending[m.device], m] else [m]
  }

  function EmitTo(c: Client, m: Msg): Client {
    if m.status then c.(pending := c.pending[m.device := m])
    else if m.device in c.pending then
      Client(Put(Put(c.queue, c.pending[m.device]), m), c.pending - {m.device})
    else c.(queue := Put(c.queue, m))
  }

  datatype Action =
    | Emit(m: Msg)
    /** The handler asks for the pending status of a device before reading the queue. */
    | Flush(device: Device)
    /** The handler takes the next event from the queue. */
    | Pop

  /** A client together with everything that ever happened to it: put into the queue, handed to the
      browser side at all (queued or flushed), taken out, and lost to a full queue. */
  datatype Trace = Trace(
    client: Client, enqueued: seq<Msg>, handed: seq<Msg>, popped: seq<Msg>, dropped: nat)

  const BEGIN := Trace(EMPTY, [], [], [], 0)

  function Do(t: Trace, a: Action): Trace {
    var c := t.client;
    match a
    case Emit(m) =>
      var put := Queued(c, m);
      var c' := EmitTo(c, m);
      t.(client := c', enqueued := t.enqueued + put, handed := t.handed + put,
         dropped := t.dropped + |c.queue| + |put| - |c'.queue|)
    case Flush(d) =>
      if d in c.pending then
        t.(client := c.(pending := c.pending - {d}), handed := t.handed + [c.pending[d]])
      else t
    case Pop =>
      if c.queue == [] then t
      else t.(client := c.(queue := c.queue[1..]), popped := t.popped + [c.queue[0]])
  }

  function DoAll(acts: seq<Action>): Trace {
    if acts == [] then BEGIN else Do(DoAll(acts[..|acts| - 1]), acts[|acts| - 1])
  }

  // ----- the reference: drop every status overtaken by the next status -----

  /** The events of device d in a list. */
  function Of(ms: seq<Msg>, d: Device): seq<Msg> {
    if ms == [] then []
    else Of(ms[..|ms| - 1], d) + if ms[|ms| - 1].device == d then [ms[|ms| - 1]] else []
  }

  /** What happened to device d: its emissions and its flushes. */
  function Story(acts: seq<Action>, d: Device): seq<Action> {
    if acts == [] then []
    else
      var a := acts[|acts| - 1];
      Story(acts[..|acts| - 1], d)
      + if (a.Emit? && a.m.device == d) || a == Flush(d) then [a] else []
  }

  predicate IsStatus(a: Action) {
    a.Emit? && a.m.status
  }

  /** The first happening's event, unless it is a status whose very next happening is a status. */
  function Head(story: seq<Action>): seq<Msg>
    requires story != []
  {
    if story[0].Emit? && !(IsStatus(story[0]) && |story| > 1 && IsStatus(story[1])) then [story[0].m] else []
  }

  /** The emitted events, except every status whose very next happening is another status. */
  function Coalesced(story: seq<Action>): seq<Msg> {
    if story == [] then [] else Head(story) + Coalesced(story[1..])
  }

  function PendingOf(c: Client, d: Device): seq<Msg> {
    if d in c.pending then [c.pending[d]] else []
  }

  lemma {:induction false} OfAppend(ms: seq<Msg>, m: Msg, d: Device)
    ensures Of(ms + [m], d) == if m.device == d then Of(ms, d) + [m] else Of(ms, d)
  {
    assert (ms + [m])[..|ms|] == ms;
  }

  lemma {:induction false} StoryAppend(acts: seq<Action>, a: Action, d: Device)
    ensures Story(acts + [a], d)
         == if (a.Emit? && a.m.device == d) || a == Flush(d) then Story(acts, d) + [a] else Story(acts, d)
  {
    assert (acts + [a])[..|acts|] == acts;
  }

  lemma CoalescedOne(x: Action)
    ensures Coalesced([x]) == if x.Emit? then [x.m] else []
  {
    assert [x][1..] == [];
    assert Coalesced([x]) == Head([x]) + Coalesced([]);
  }

  lemma CoalescedTwo(x: Action, a: Action)
    ensures Coalesced([x, a])
         == (if x.Emit? && !(IsStatus(x) && IsStatus(a)) then [x.m] else []) + if a.Emit? then [a.m] else []
  {
    assert [x, a][1..] == [a];
    CoalescedOne(a);
  }

  /** What appending a happening does: a status behind a status replaces it, any other event is added. */
  function Appended(c: seq<Msg>, overtakes: bool, a: Action): seq<Msg> {
    if !a.Emit? then c
    else if overtakes && c != [] then c[..|c| - 1] + [a.m]
    else c + [a.m]
  }

  predicate EndsInStatus(story: seq<Action>) {
    story != [] && IsStatus(story[|story| - 1])
  }

  lemma AppendedBehind(h: seq<Msg>, c: seq<Msg>, overtakes: bool, a: Action)
    requires c != [] || !overtakes
    ensures h + Appended(c, overtakes, a) == Appended(h + c, overtakes, a)
  {
    if c != [] {
      assert (h + c)[..|h + c| - 1] == h + c[..|c| - 1];
    }
  }

  /** A story that ends in a status coalesces to something that ends in it. */
  lemma {:induction false} LastStatusStays(story: seq<Action>)
    requires EndsInStatus(story)
    ensures var c := Coalesced(story); c != [] && c[|c| - 1] == story[|story| - 1].m
  {
    if |story| == 1 {
      assert story == [story[0]];
      CoalescedOne(story[0]);
    } else {
      LastStatusStays(story[1..]);
    }
  }

  lemma {:induction false} CoalescedAppend(story: seq<Action>, a: Action)
    ensures Coalesced(story + [a]) == Appended(Coalesced(story), EndsInStatus(story) && IsStatus(a), a)
  {
    hide Coalesced, Head, Appended;
    if |story| == 0 {
      EmptyStory(story, a);
    } else if |story| == 1 {
      OneStory(story, a);
    } else {
      CoalescedAppend(story[1..], a);
      CoalescedTail(story, a);
      if EndsInStatus(story) { LastStatusStays(story[1..]); }
      AppendedBehind(Head(story), Coalesced(story[1..]), EndsInStatus(story) && IsStatus(a), a);
    }
  }

  lemma {:induction false} EmptyStory(story: seq<Action>, a: Action)
    requires story == []
    ensures Coalesced(story + [a]) == Appended(Coalesced(story), false, a)
  {
    CoalescedOne(a);
    assert story + [a] == [a];
  }

  lemma {:induction false} OneStory(story: seq<Action>, a: Action)
    requires |story| == 1
    ensures Coalesced(story + [a]) == Appended(Coalesced(story), EndsInStatus(story) && IsStatus(a), a)
  {
    hide Coalesced, Head;
    var x := story[0];
    assert story == [x] && story + [a] == [x, a];
    CoalescedOne(x);
    CoalescedTwo(x, a);
  }

  lemma {:induction false} CoalescedTail(story: seq<Action>, a: Action)
    requires |story| >= 2
    ensures Coalesced(story) == Head(story) + Coalesced(story[1..])
    ensures Coalesced(story + [a]) == Head(story) + Coalesced(story[1..] + [a])
  {
    assert (story + [a])[1..] == story[1..] + [a];
  }

  /** The pending status of d is the last happening of its story; all before it is handed over. */
  ghost predicate InStep(t: Trace, story: seq<Action>, d: Device) {
    Of(t.handed, d) + PendingOf(t.client, d) == Coalesced(story)
    && (if d in t.client.pending then
          story != [] && story[|story| - 1] == Emit(t.client.pending[d])
          && t.client.pending[d].status && t.client.pending[d].device == d
        else story != [] ==> !IsStatus(story[|story| - 1]))
  }

  /** A status emission hands nothing over and becomes the pending status. */
  lemma StatusInStep(t: Trace, story: seq<Action>, m: Msg)
    requires InStep(t, story, m.device) && m.status
    ensures InStep(Do(t, Emit(m)), story + [Emit(m)], m.device)
  {
    hide Coalesced, Of;
    var d := m.device;
    CoalescedAppend(story, Emit(m));
    assert t.handed + [] == t.handed;
    if d in t.client.pending {
      var o := Of(t.handed, d);
      assert (o + [t.client.pending[d]])[..|o|] == o;
    } else {
      assert Of(t.handed, d) + [] == Of(t.handed, d);
    }
  }

  /** Any other emission hands over the pending status, if there is one, and then itself. */
  lemma EventInStep(t: Trace, story: seq<Action>, m: Msg)
    requires InStep(t, story, m.device) && !m.status
    ensures InStep(Do(t, Emit(m)), story + [Emit(m)], m.device)
  {
    hide Coalesced, Of;
    var d := m.device;
    CoalescedAppend(story, Emit(m));
    if d in t.client.pending {
      var p := t.client.pending[d];
      assert t.handed + [p, m] == t.handed + [p] + [m];
      OfAppend(t.handed, p, d);
      OfAppend(t.handed + [p], m, d);
    } else {
      OfAppend(t.handed, m, d);
    }
  }

  lemma FlushInStep(t: Trace, story: seq<Action>, d: Device)
    requires InStep(t, story, d)
    ensures InStep(Do(t, Flush(d)), story + [Flush(d)], d)
  {
    hide Coalesced, Of;
    CoalescedAppend(story, Flush(d));
    if d in t.client.pending {
      OfAppend(t.handed, t.client.pending[d], d);
      assert Of(t.handed + [t.client.pending[d]], d) + [] == Of(t.handed + [t.client.pending[d]], d);
    }
  }

  /** Every pending status is filed under its own device. */
  predicate Filed(c: Client) {
    forall e :: e in c.pending ==> c.pending[e].device == e
  }

  /** What happens to one device leaves the others in step. */
  lemma OtherDevice(t: Trace, a: Action, story: seq<Action>, d: Device)
    requires InStep(t, story, d) && Filed(t.client)
    requires !((a.Emit? && a.m.device == d) || a == Flush(d))
    ensures InStep(Do(t, a), story, d)
  {
    match a {
      case Emit(m) =>
        if m.device in t.client.pending && !m.status {
          var p := t.client.pending[m.device];
          assert t.handed + [p, m] == t.handed + [p] + [m];
          OfAppend(t.handed, p, d);
          OfAppend(t.handed + [p], m, d);
        } else if !m.status {
          OfAppend(t.handed, m, d);
        } else {
          assert t.handed + [] == t.handed;
        }
      case Flush(e) =>
        if e in t.client.pending { OfAppend(t.handed, t.client.pending[e], d); }
      case Pop =>
    }
  }

  lemma {:induction false} EveryRunInStep(acts: seq<Action>, d: Device)
    ensures InStep(DoAll(acts), Story(acts, d), d) && Filed(DoAll(acts).client)
  {
    hide InStep, Do;
    if acts == [] {
      BeginInStep(d);
    } else {
      var init, a := acts[..|acts| - 1], acts[|acts| - 1];
      assert acts == init + [a];
      EveryRunInStep(init, d);
      StoryAppend(init, a, d);
      StaysFiled(DoAll(init), a);
      if a.Emit? && a.m.device == d {
        if a.m.status {
          StatusInStep(DoAll(init), Story(init, d), a.m);
        } else {
          EventInStep(DoAll(init), Story(init, d), a.m);
        }
      } else if a == Flush(d) {
        FlushInStep(DoAll(init), Story(init, d), d);
      } else {
        OtherDevice(DoAll(init), a, Story(init, d), d);
      }
    }
  }

  lemma BeginInStep(d: Device)
    ensures InStep(BEGIN, [], d)
  {}

  lemma StaysFiled(t: Trace, a: Action)
    requires Filed(t.client)
    ensures Filed(Do(t, a).client)
  {}

  /**
   * Latest-only coalescing.  For every device, what was ever handed to the client followed by the
   * status still pending is the device's emissions with every status removed whose next happening
   * is another status, and nothing else removed, reordered or repeated.
   */
  lemma {:induction false} StatusesAreCoalesced(acts: seq<Action>, d: Device)
    ensures var t := DoAll(acts);
            Of(t.handed, d) + PendingOf(t.client, d) == Coalesced(Story(acts, d))
  {
    EveryRunInStep(acts, d);
  }

  /** For every device exactly the latest status that nothing has happened after is pending. */
  lemma {:induction false} LatestStatusIsPending(acts: seq<Action>, d: Device)
    ensures var story, pending := Story(acts, d), DoAll(acts).client.pending;
            && (d in pending <==> story != [] && story[|story| - 1].Emit? && story[|story| - 1].m.status)
            && (d in pending ==> pending[d] == story[|story| - 1].m)
  {
    hide Coalesced, Of, Story;
    EveryRunInStep(acts, d);
  }

  /** Without flushes everything handed over went through the queue. */
  lemma {:induction false} HandedIsEnqueued(acts: seq<Action>)
    requires forall k :: 0 <= k < |acts| ==> !acts[k].Flush?
    ensures DoAll(acts).handed == DoAll(acts).enqueued
  {
    hide EmitTo, Queued;
    if acts != [] {
      assert acts[|acts| - 1] == acts[|acts| - 1] && !acts[|acts| - 1].Flush?;
      HandedIsEnqueued(acts[..|acts| - 1]);
    }
  }

  // ----- the bounded queue -----

  /** The queue is the newest part of everything put into it; the rest was taken or lost. */
  ghost predicate Newest(q: seq<Msg>, enqueued: seq<Msg>, popped: seq<Msg>, dropped: int) {
    && |q| <= 128 && |q| <= |enqueued|
    && q == enqueued[|enqueued| - |q|..]
    && |popped| + dropped + |q| == |enqueued|
    && (dropped == 0 ==> enqueued == popped + q)
  }

  ghost predicate QueueOk(t: Trace) {
    Newest(t.client.queue, t.enqueued, t.popped, t.dropped)
  }

  /** One put: nothing is lost before the queue is full, and then the oldest. */
  lemma PutKeepsNewest(q: seq<Msg>, e: seq<Msg>, popped: seq<Msg>, dropped: nat, m: Msg)
    requires Newest(q, e, popped, dropped)
    ensures var p := Put(q, m);
            && p != [] && p[|p| - 1] == m && |p| <= |q| + 1
            && Newest(p, e + [m], popped, dropped + |q| + 1 - |p|)
  {
    if |q| < MAX_QUEUE_SIZE && dropped == 0 {
      assert e + [m] == popped + (q + [m]);
    }
  }

  lemma EmitQueueOk(t: Trace, m: Msg)
    requires QueueOk(t)
    ensures QueueOk(Do(t, Emit(m)))
    ensures var q := Do(t, Emit(m)).client.queue; !m.status ==> q != [] && q[|q| - 1] == m
  {
    hide Put, Newest;
    var q, e := t.client.queue, t.enqueued;
    if !m.status {
      if m.device in t.client.pending {
        var p := t.client.pending[m.device];
        PutKeepsNewest(q, e, t.popped, t.dropped, p);
        PutKeepsNewest(Put(q, p), e + [p], t.popped, t.dropped + |q| + 1 - |Put(q, p)|, m);
        assert e + [p, m] == e + [p] + [m];
      } else {
        PutKeepsNewest(q, e, t.popped, t.dropped, m);
      }
    } else {
      assert e + [] == e;
    }
  }

  lemma PopQueueOk(t: Trace)
    requires QueueOk(t)
    ensures QueueOk(Do(t, Pop))
  {
    var q := t.client.queue;
    if q != [] {
      assert q == [q[0]] + q[1..];
      assert t.popped + q == t.popped + [q[0]] + q[1..];
    }
  }

  /**
   * The queue is always the latest part of what was put into it and not yet taken, at most 128
   * events long, ending in the newest non-status event; events are lost only from its old end, and
   * as long as none was lost the events taken followed by the queue are everything ever put in.
   */
  lemma {:induction false} QueueKeepsTheNewest(acts: seq<Action>)
    ensures QueueOk(DoAll(acts))
    ensures acts != [] && acts[|acts| - 1].Emit? && !acts[|acts| - 1].m.status ==>
              var q := DoAll(acts).client.queue;
              q != [] && q[|q| - 1] == acts[|acts| - 1].m
  {
    hide QueueOk, Do;
    if acts == [] {
      BeginQueueOk();
    } else {
      var t, a := DoAll(acts[..|acts| - 1]), acts[|acts| - 1];
      QueueKeepsTheNewest(acts[..|acts| - 1]);
      match a {
        case Emit(m) => EmitQueueOk(t, m);
        case Flush(d) => FlushQueueOk(t, d);
        case Pop => PopQueueOk(t);
      }
    }
  }

  lemma PutAddsOne(q: seq<Msg>, m: Msg)
    requires |q| <= 128
    ensures |Put(q, m)| == if |q| < 128 then |q| + 1 else 128
    ensures |q| < 128 ==> Put(q, m) == q + [m]
  {}

  /**
   * Events are lost only to a full queue.  An emission puts nothing into the queue if it is a status, two
   * events if it overtakes a pending status of its device, and one otherwise; as long as there is room for
   * them in 128 places nothing is lost and they stand at the end; and otherwise exactly as many are lost
   * as there is no room for.
   */
  lemma {:induction false} LostOnlyWhenFull(acts: seq<Action>, m: Msg)
    ensures var t, r := DoAll(acts), DoAll(acts + [Emit(m)]);
            var q, p := t.client.queue, r.client.queue;
            var put := if m.status then [] else if m.device in t.client.pending then [t.client.pending[m.device], m]
                       else [m];
            && r.enqueued == t.enqueued + put
            && (|q| + |put| <= 128 ==> p == q + put && r.dropped == t.dropped)
            && (|q| + |put| > 128 ==> |p| == 128 && r.dropped == t.dropped + |q| + |put| - 128)
  {
    hide DoAll, Put;
    var t, q := DoAll(acts), DoAll(acts).client.queue;
    DoNext(acts, Emit(m));
    QueueKeepsTheNewest(acts);
    if !m.status {
      if m.device in t.client.pending {
        var s := t.client.pending[m.device];
        PutAddsOne(q, s);
        PutAddsOne(Put(q, s), m);
        assert q + [s, m] == q + [s] + [m];
      } else {
        PutAddsOne(q, m);
      }
    }
  }

  /** Taking an event takes the oldest, if there is one, and leaves the rest. */
  lemma {:induction false} PopTakesOldest(acts: seq<Action>)
    ensures var t, r := DoAll(acts), DoAll(acts + [Pop]);
            && r.client.pending == t.client.pending && r.dropped == t.dropped && r.enqueued == t.enqueued
            && (t.client.queue == [] ==> r.client.queue == [] && r.popped == t.popped)
            && (t.client.queue != [] ==> [r.popped[|r.popped| - 1]] + r.client.queue == t.client.queue)
  {
    DoNext(acts, Pop);
  }

  lemma {:induction false} DoNext(acts: seq<Action>, a: Action)
    ensures DoAll(acts + [a]) == Do(DoAll(acts), a)
  {
    hide Do;
    assert (acts + [a])[..|acts|] == acts;
  }

  lemma BeginQueueOk()
    ensures QueueOk(BEGIN)
  {}

  lemma FlushQueueOk(t: Trace, d: Device)
    requires QueueOk(t)
    ensures QueueOk(Do(t, Flush(d)))
  {}
}

/** The emitter shared by all clients, guarded by one lock. */
module SseEmitting {
  import opened Common
  import opened SseStreams

  type Id = nat

  class SseEmitter {
    var clients: set<Id>
    var queues: map<Id, seq<Msg>>
    /** The latest status by client and device. */
    var pendingStatus: map<Id, map<Device, Msg>>

    /** Every connected client has its queue within bounds, and its pending statuses. */
    ghost predicate Valid()
      reads this
    {
      && clients <= queues.Keys == pendingStatus.Keys
      && forall q :: q in queues ==> |queues[q]| <= MAX_QUEUE_SIZE
    }

    /** One client's queue and its pending statuses. */
    ghost function View(q: Id): Client
      requires q in queues && q in pendingStatus
      reads this
    {
      Client(queues[q], pendingStatus[q])
    }

    constructor ()
      ensures Valid() && clients == {} && queues == map[] && pendingStatus == map[]
    {
      clients, queues, pendingStatus := {}, map[], map[];
    }

    method AddClient(q: Id)
      requires Valid() && q !in queues
      modifies this
      ensures Valid() && clients == old(clients) + {q} && q in queues && View(q) == EMPTY
      ensures queues.Keys == old(queues.Keys) + {q}
      ensures forall p :: p in old(queues) ==> View(p) == old(View(p))
    {
      clients := clients + {q};
      queues := queues[q := []];
      pendingStatus := pendingStatus[q := map[]];
    }

    /** A client that leaves takes all its pending statuses with it. */
    method RemoveClient(q: Id)
      requires Valid()
      modifies this
      ensures Valid() && clients == old(clients) - {q}
      ensures queues == old(queues) - {q} && pendingStatus == old(pendingStatus) - {q}
    {
      clients := clients - {q};
      queues := queues - {q};
      pendingStatus := pendingStatus - {q};
    }

    method PutOrDrop(q: Id, m: Msg)
      requires q in queues && |queues[q]| <= MAX_QUEUE_SIZE
      modifies this`queues
      ensures queues == old(queues)[q := Put(old(queues[q]), m)]
    {
      var items := queues[q];
      if |items| < MAX_QUEUE_SIZE {
        queues := queues[q := items + [m]];
        return;
      }
      items := items[1..];
      queues := queues[q := items + [m]];
    }

    /** The body of the broadcast loop for one client. */
    method EmitToClient(q: Id, m: Msg)
      requires Valid() && q in queues
      modifies this`queues, this`pendingStatus
      ensures queues == old(queues)[q := EmitTo(old(View(q)), m).queue]
      ensures pendingStatus == old(pendingStatus)[q := EmitTo(old(View(q)), m).pending]
      ensures |queues[q]| <= MAX_QUEUE_SIZE
    {
      if m.status {
        pendingStatus := pendingStatus[q := pendingStatus[q][m.device := m]];
        assert queues == old(queues)[q := old(queues)[q]];
        return;
      }
      if m.device in pendingStatus[q] {
        var status := pendingStatus[q][m.device];
        pendingStatus := pendingStatus[q := pendingStatus[q] - {m.device}];
        PutOrDrop(q, status);
      } else {
        assert pendingStatus == old(pendingStatus)[q := old(pendingStatus)[q]];
      }
      PutOrDrop(q, m);
    }

    /** Broadcast: every connected client gets the event, nothing else changes. */
    method Emit(m: Msg)
      requires Valid()
      modifies this`queues, this`pendingStatus
      ensures Valid() && queues.Keys == old(queues.Keys)
      ensures forall q :: q in queues ==>
                View(q) == if q in clients then EmitTo(old(View(q)), m) else old(View(q))
    {
      hide EmitTo;
      var todo := clients;
      while todo != {}
        invariant Valid() && todo <= clients && queues.Keys == old(queues.Keys)
        invariant forall q :: q in queues ==>
                    View(q) == if q in clients - todo then EmitTo(old(View(q)), m) else old(View(q))
        decreases |todo|
      {
        var q :| q in todo;
        todo := todo - {q};
        EmitToClient(q, m);
      }
    }

    method FlushStatus(q: Id, d: Device) returns (r: Option<Msg>)
      requires Valid() && q in queues
      modifies this`pendingStatus
      ensures Valid()
      ensures r == (if d in old(pendingStatus)[q] then Some(old(pendingStatus)[q][d]) else None)
      ensures pendingStatus == old(pendingStatus)[q := old(pendingStatus)[q] - {d}]
    {
      if d !in pendingStatus[q] {
        assert pendingStatus[q] - {d} == pendingStatus[q];
        assert pendingStatus == pendingStatus[q := pendingStatus[q]];
        return None;
      }
      r := Some(pendingStatus[q][d]);
      pendingStatus := pendingStatus[q := pendingStatus[q] - {d}];
    }
  }
}
