/**
 * The graded recovery of devices that share one Bluetooth adapter: disconnect (L1), remove from
 * the cache (L1.5), power-cycle the adapter behind a closed gate (L2).  Each `Move` is what
 * happens between two suspension points.  One manager owns each device, so for one device a
 * recovery call, a successful connect and a rebuild never overlap; different devices interleave
 * freely.
 */
module RecoveryLadder {
  import opened Common

  const L1_FAILURES_BEFORE_REMOVE := 1
  const L15_FAILURES_BEFORE_ADAPTER := 1
  const L15_BACKOFF_ALERT := 3

  /** A MAC as written somewhere; counters use its lower-case form, the key. */
  datatype Mac = Mac(key: nat, spelling: nat)

  datatype Level = L1 | L15 | L2

  /** Where a recovery call is suspended. */
  datatype Stage = Disconnecting | Settling | Removing | WaitingForAdapter | Resetting

  datatype Call = Call(mac: Mac, stage: Stage)

  datatype Backoff = Backoff(count: nat, alerted: bool)

  datatype Ladder = Ladder(
    devices: int,
    l1: map<nat, nat>, l15: map<nat, nat>, backoff: map<nat, Backoff>,
    live: set<Mac>,
    gateOpen: bool, adapter: Option<nat>, resets: nat,
    /** the links the call inside the adapter section still has to cut */
    sweep: set<Mac>,
    calls: map<nat, Call>,
    /** what recovery returned per device since its counters were last cleared, and before that */
    era: map<nat, seq<Level>>, past: seq<seq<Level>>)

  function Fresh(devices: int): Ladder {
    Ladder(devices, map[], map[], map[], {}, true, None, 0, {}, map[], map[], [])
  }

  datatype Move =
    | Recover(mac: Mac)
    /** bluetoothctl disconnect has returned. */
    | Unlinked(key: nat)
    /** The one-second pause after it is over. */
    | Settled(key: nat)
    /** bluetoothctl remove has returned. */
    | Removed(key: nat)
    | AdapterGranted(key: nat)
    /** Inside the adapter section: one of the links found there has been cut. */
    | Swept(key: nat, mac: Mac)
    | PowerCycled(key: nat)
    /** The call is cancelled or fails where it is suspended. */
    | Abort(key: nat)
    | Connected(mac: Mac)
    | LinkLost(mac: Mac)
    | Rebuilt(mac: Mac)

  function CountOf(m: map<nat, nat>, k: nat): nat {
    if k in m then m[k] else 0
  }

  function EraOf(s: Ladder, k: nat): seq<Level> {
    if k in s.era then s.era[k] else []
  }

  function BackoffCount(s: Ladder, k: nat): nat {
    if k in s.backoff then s.backoff[k].count else 0
  }

  /** Forgets a device's failures: it is connected again, rebuilt, or the adapter was reset. */
  function Clear(s: Ladder, k: nat): Ladder {
    s.(l1 := s.l1 - {k}, l15 := s.l15 - {k}, backoff := s.backoff - {k},
       era := s.era - {k}, past := s.past + [EraOf(s, k)])
  }

  /** Ends a call with a result. */
  function Return(s: Ladder, k: nat, r: Level): Ladder {
    s.(calls := s.calls - {k}, era := s.era[k := EraOf(s, k) + [r]])
  }

  function DeclareBackoff(s: Ladder, k: nat): Ladder {
    var count := BackoffCount(s, k) + 1;
    var told := k in s.backoff && s.backoff[k].alerted;
    s.(backoff := s.backoff[k := Backoff(count, told || count >= L15_BACKOFF_ALERT)])
  }

  function At(s: Ladder, k: nat, stage: Stage): Ladder
    requires k in s.calls
  {
    s.(calls := s.calls[k := s.calls[k].(stage := stage)])
  }

  predicate Suspended(s: Ladder, k: nat, stage: Stage) {
    k in s.calls && s.calls[k].stage == stage
  }

  function AfterSettling(s: Ladder, k: nat): Ladder {
    if !Suspended(s, k, Settling) then s
    else if s.devices <= 1 then At(s, k, WaitingForAdapter)
    else
      var n := s.(l1 := s.l1[k := CountOf(s.l1, k) + 1]);
      if n.l1[k] <= L1_FAILURES_BEFORE_REMOVE then Return(n, k, L1) else At(n, k, Removing)
  }

  predicate CanResetAdapter(s: Ladder) {
    s.devices <= 1 || s.live == {}
  }

  function AfterRemove(s: Ladder, k: nat): Ladder {
    if !Suspended(s, k, Removing) then s
    else
      var n := s.(l15 := s.l15[k := CountOf(s.l15, k) + 1]);
      if n.devices > 1 && n.live != {} && n.l15[k] <= L15_FAILURES_BEFORE_ADAPTER then
        Return(DeclareBackoff(n, k), k, L15)
      else if !CanResetAdapter(n) then Return(DeclareBackoff(n, k), k, L15)
      else At(n, k, WaitingForAdapter)
  }

  function EnterAdapter(s: Ladder, k: nat): Ladder {
    if !Suspended(s, k, WaitingForAdapter) || s.adapter.Some? then s
    else At(s.(adapter := Some(k), gateOpen := false, sweep := s.live), k, Resetting)
  }

  /** Leaving the adapter section always opens the gate. */
  function LeaveAdapter(s: Ladder): Ladder {
    s.(adapter := None, gateOpen := true, sweep := {})
  }

  function SweepLink(s: Ladder, k: nat, mac: Mac): Ladder {
    if Suspended(s, k, Resetting) && mac in s.sweep
    then s.(live := s.live - {mac}, sweep := s.sweep - {mac}) else s
  }

  function AfterPowerCycle(s: Ladder, k: nat): Ladder {
    if !Suspended(s, k, Resetting) || s.sweep != {} then s
    else
      var n := Return(LeaveAdapter(s.(resets := s.resets + 1)), k, L2);
      if s.devices <= 1 then n else Clear(n, k)
  }

  function AbortCall(s: Ladder, k: nat): Ladder {
    if k !in s.calls then s
    else
      var n := if s.calls[k].stage == Resetting then LeaveAdapter(s) else s;
      n.(calls := n.calls - {k})
  }

  function Take(s: Ladder, m: Move): Ladder {
    match m
    case Recover(mac) =>
      if mac.key in s.calls then s else s.(calls := s.calls[mac.key := Call(mac, Disconnecting)])
    case Unlinked(k) =>
      if Suspended(s, k, Disconnecting) then At(s.(live := s.live - {s.calls[k].mac}), k, Settling) else s
    case Settled(k) => AfterSettling(s, k)
    case Removed(k) => AfterRemove(s, k)
    case AdapterGranted(k) => EnterAdapter(s, k)
    case Swept(k, mac) => SweepLink(s, k, mac)
    case PowerCycled(k) => AfterPowerCycle(s, k)
    case Abort(k) => AbortCall(s, k)
    case Connected(mac) =>
      if mac.key in s.calls then s else Clear(s.(live := s.live + {mac}), mac.key)
    case LinkLost(mac) => s.(live := s.live - {mac})
    case Rebuilt(mac) => if mac.key in s.calls then s else Clear(s, mac.key)
  }

  function TakeAll(s: Ladder, ms: seq<Move>): Ladder {
    if ms == [] then s else Take(TakeAll(s, ms[..|ms| - 1]), ms[|ms| - 1])
  }

  // ----- the shape of a device's recoveries -----

  /** L1 first, then only L1.5. */
  predicate Climbing(e: seq<Level>) {
    e == [] || (e[0] == L1 && forall i :: 1 <= i < |e| ==> e[i] == L15)
  }

  /** L1, then any number of L1.5, then at most one L2. */
  predicate OneLadder(e: seq<Level>) {
    Climbing(e) || (|e| >= 2 && e[|e| - 1] == L2 && Climbing(e[..|e| - 1]))
  }

  ghost predicate DeviceOk(s: Ladder, k: nat) {
    && Climbing(EraOf(s, k))
    && (EraOf(s, k) == [] <==> CountOf(s.l1, k) == 0)
    && (EraOf(s, k) == [] ==> CountOf(s.l15, k) == 0)
    && BackoffCount(s, k) == (if EraOf(s, k) == [] then 0 else |EraOf(s, k)| - 1)
    && (Suspended(s, k, Removing) || Suspended(s, k, WaitingForAdapter) || Suspended(s, k, Resetting)
        ==> CountOf(s.l1, k) > 0)
  }

  ghost predicate PastOk(s: Ladder) {
    forall i {:trigger s.past[i]} :: 0 <= i < |s.past| ==> OneLadder(s.past[i])
  }

  /** The gate is closed exactly while one call is inside the adapter section. */
  ghost predicate GateOk(s: Ladder) {
    && (s.gateOpen <==> s.adapter.None?)
    && (forall k: nat :: Suspended(s, k, Resetting) <==> s.adapter == Some(k))
  }

  ghost predicate Inv(s: Ladder) {
    s.devices > 1 && (forall k :: DeviceOk(s, k)) && PastOk(s) && GateOk(s)
  }

  lemma ClearKeeps(s: Ladder, k: nat)
    requires s.devices > 1 && PastOk(s) && GateOk(s)
    requires k !in s.calls && OneLadder(EraOf(s, k))
    requires forall j :: j != k ==> DeviceOk(s, j)
    ensures Inv(Clear(s, k))
  {
    var c := Clear(s, k);
    forall j ensures DeviceOk(c, j) {
      if j != k { assert DeviceOk(s, j); }
    }
  }

  lemma OthersKeep(s: Ladder, n: Ladder, k: nat)
    requires Inv(s) && DeviceOk(n, k)
    requires n.devices == s.devices && n.past == s.past && GateOk(n)
    requires forall j :: j != k ==>
      && CountOf(n.l1, j) == CountOf(s.l1, j) && CountOf(n.l15, j) == CountOf(s.l15, j)
      && BackoffCount(n, j) == BackoffCount(s, j)
      && EraOf(n, j) == EraOf(s, j)
      && (j in n.calls <==> j in s.calls) && (j in s.calls ==> n.calls[j] == s.calls[j])
    ensures Inv(n)
  {
    forall j ensures DeviceOk(n, j) {
      if j != k { assert DeviceOk(s, j); }
    }
  }

  lemma SettledKeeps(s: Ladder, k: nat)
    requires Inv(s)
    ensures Inv(AfterSettling(s, k))
  {
    hide PastOk;
    if Suspended(s, k, Settling) {
      assert DeviceOk(s, k);
      var n := AfterSettling(s, k);
      assert DeviceOk(n, k);
      OthersKeep(s, n, k);
    }
  }

  lemma RemovedKeeps(s: Ladder, k: nat)
    requires Inv(s)
    ensures Inv(AfterRemove(s, k))
  {
    hide PastOk;
    if Suspended(s, k, Removing) {
      assert DeviceOk(s, k);
      var n := AfterRemove(s, k);
      assert DeviceOk(n, k);
      OthersKeep(s, n, k);
    }
  }

  lemma AdapterKeeps(s: Ladder, k: nat)
    requires Inv(s)
    ensures Inv(EnterAdapter(s, k))
  {
    hide PastOk;
    var n := EnterAdapter(s, k);
    if n != s {
      assert DeviceOk(s, k);
      assert DeviceOk(n, k);
      OthersKeep(s, n, k);
    }
  }

  lemma PowerCycledKeeps(s: Ladder, k: nat)
    requires Inv(s)
    ensures Inv(AfterPowerCycle(s, k))
  {
    if Suspended(s, k, Resetting) && s.sweep == {} {
      assert DeviceOk(s, k);
      var n := Return(LeaveAdapter(s.(resets := s.resets + 1)), k, L2);
      assert EraOf(n, k)[..|EraOf(n, k)| - 1] == EraOf(s, k);
      forall j | j != k ensures DeviceOk(n, j) { assert DeviceOk(s, j); }
      ClearKeeps(n, k);
    }
  }

  lemma SweptKeeps(s: Ladder, k: nat, mac: Mac)
    requires Inv(s)
    ensures Inv(SweepLink(s, k, mac))
  {
    hide PastOk;
    var n := SweepLink(s, k, mac);
    assert DeviceOk(s, k) && DeviceOk(n, k);
    OthersKeep(s, n, k);
  }

  lemma AbortKeeps(s: Ladder, k: nat)
    requires Inv(s)
    ensures Inv(AbortCall(s, k))
  {
    hide PastOk;
    if k in s.calls {
      assert DeviceOk(s, k);
      var n := AbortCall(s, k);
      assert DeviceOk(n, k);
      assert Suspended(s, k, Resetting) <==> s.adapter == Some(k);
      forall j: nat ensures Suspended(n, j, Resetting) <==> n.adapter == Some(j) {
        assert Suspended(s, j, Resetting) <==> s.adapter == Some(j);
      }
      OthersKeep(s, n, k);
    }
  }

  lemma ConnectedKeeps(s: Ladder, k: nat, live: set<Mac>)
    requires Inv(s) && k !in s.calls
    ensures Inv(Clear(s.(live := live), k))
  {
    var n := s.(live := live);
    forall j ensures DeviceOk(n, j) { assert DeviceOk(s, j); }
    assert DeviceOk(n, k);
    ClearKeeps(n, k);
  }

  lemma RecoverKeeps(s: Ladder, mac: Mac)
    requires Inv(s)
    ensures Inv(Take(s, Recover(mac)))
  {
    hide PastOk;
    if mac.key !in s.calls {
      assert DeviceOk(s, mac.key);
      var n := s.(calls := s.calls[mac.key := Call(mac, Disconnecting)]);
      assert DeviceOk(n, mac.key);
      OthersKeep(s, n, mac.key);
    }
  }

  lemma UnlinkedKeeps(s: Ladder, k: nat)
    requires Inv(s)
    ensures Inv(Take(s, Unlinked(k)))
  {
    hide PastOk;
    if Suspended(s, k, Disconnecting) {
      assert DeviceOk(s, k);
      var n := At(s.(live := s.live - {s.calls[k].mac}), k, Settling);
      assert DeviceOk(n, k);
      OthersKeep(s, n, k);
    }
  }

  lemma LinkLostKeeps(s: Ladder, mac: Mac)
    requires Inv(s)
    ensures Inv(Take(s, LinkLost(mac)))
  {
    hide PastOk;
    var n := s.(live := s.live - {mac});
    assert DeviceOk(s, mac.key) && DeviceOk(n, mac.key);
    OthersKeep(s, n, mac.key);
  }

  lemma {:induction false} EveryRunKeeps(devices: int, ms: seq<Move>)
    requires devices > 1
    ensures Inv(TakeAll(Fresh(devices), ms))
  {
    hide Inv, AfterSettling, AfterRemove, EnterAdapter, SweepLink, AfterPowerCycle, AbortCall, Clear;
    if ms == [] {
      FreshInv(devices);
    } else {
      var s := TakeAll(Fresh(devices), ms[..|ms| - 1]);
      EveryRunKeeps(devices, ms[..|ms| - 1]);
      match ms[|ms| - 1] {
        case Settled(k) => SettledKeeps(s, k);
        case Removed(k) => RemovedKeeps(s, k);
        case AdapterGranted(k) => AdapterKeeps(s, k);
        case Swept(k, mac) => SweptKeeps(s, k, mac);
        case PowerCycled(k) => PowerCycledKeeps(s, k);
        case Abort(k) => AbortKeeps(s, k);
        case Connected(mac) => if mac.key !in s.calls { ConnectedKeeps(s, mac.key, s.live + {mac}); }
        case Rebuilt(mac) => if mac.key !in s.calls { ConnectedKeeps(s, mac.key, s.live); }
        case Recover(mac) => RecoverKeeps(s, mac);
        case Unlinked(k) => UnlinkedKeeps(s, k);
        case LinkLost(mac) => LinkLostKeeps(s, mac);
      }
    }
  }

  lemma FreshInv(devices: int)
    requires devices > 1
    ensures Inv(Fresh(devices))
  {}

  // ----- the main results -----

  /**
   * No level is skipped.  With several devices, between two clears of a device its recoveries
   * return L1, then any number of L1.5, then at most one L2 (which clears); the backoff shown for it
   * counts exactly the L1.5 results since the last clear, and a clear forgets all its failures.
   */
  lemma {:induction false} RecoveriesClimbOneLadder(devices: int, ms: seq<Move>, k: nat)
    requires devices > 1
    ensures var s := TakeAll(Fresh(devices), ms);
            && Climbing(EraOf(s, k))
            && (forall i {:trigger s.past[i]} :: 0 <= i < |s.past| ==> OneLadder(s.past[i]))
            && BackoffCount(s, k) == (if EraOf(s, k) == [] then 0 else |EraOf(s, k)| - 1)
            && (EraOf(s, k) == [] ==> CountOf(s.l1, k) == 0 == CountOf(s.l15, k))
  {
    hide TakeAll, Climbing, OneLadder;
    EveryRunKeeps(devices, ms);
    assert DeviceOk(TakeAll(Fresh(devices), ms), k);
  }

  /** What a call of one of several devices does after its disconnect: the first since the last clear
      returns L1, any other goes on to the removal. */
  lemma {:induction false} DisconnectDecides(devices: int, ms: seq<Move>, k: nat)
    requires devices > 1
    requires Suspended(TakeAll(Fresh(devices), ms), k, Settling)
    ensures var s := TakeAll(Fresh(devices), ms);
            var r := TakeAll(Fresh(devices), ms + [Settled(k)]);
            if EraOf(s, k) == [] then k !in r.calls && EraOf(r, k) == [L1]
            else Suspended(r, k, Removing) && EraOf(r, k) == EraOf(s, k)
  {
    assert (ms + [Settled(k)])[..|ms|] == ms;
    EveryRunKeeps(devices, ms);
    assert DeviceOk(TakeAll(Fresh(devices), ms), k);
  }

  /** The decision of a call past its first failure: it goes on to the adapter exactly when no link
      is live at that moment, and otherwise returns L1.5. */
  lemma {:induction false} RemovalDecides(devices: int, ms: seq<Move>, k: nat)
    requires devices > 1
    requires Suspended(TakeAll(Fresh(devices), ms), k, Removing)
    ensures var s := TakeAll(Fresh(devices), ms);
            var r := TakeAll(Fresh(devices), ms + [Removed(k)]);
            && (Suspended(r, k, WaitingForAdapter) <==> s.live == {})
            && (s.live != {} ==> k !in r.calls && EraOf(r, k) == EraOf(s, k) + [L15])
            && EraOf(s, k) != []
  {
    assert (ms + [Removed(k)])[..|ms|] == ms;
    EveryRunKeeps(devices, ms);
    assert DeviceOk(TakeAll(Fresh(devices), ms), k);
  }

  /** The calls of other devices are where they were. */
  lemma OnlyResetting(s: Ladder, r: Ladder, k: nat)
    requires GateOk(s) && (r.gateOpen <==> r.adapter.None?)
    requires forall j :: j != k ==> (j in r.calls <==> j in s.calls) && (j in s.calls ==> r.calls[j] == s.calls[j])
    requires Suspended(r, k, Resetting) <==> r.adapter == Some(k)
    requires
      || r.adapter == s.adapter
      || (s.adapter == Some(k) && r.adapter.None?) || (s.adapter.None? && r.adapter == Some(k))
    ensures GateOk(r)
  {
    forall j: nat ensures Suspended(r, j, Resetting) <==> r.adapter == Some(j) {
      assert Suspended(s, j, Resetting) <==> s.adapter == Some(j);
    }
  }

  lemma GateAfterSettling(s: Ladder, k: nat)
    requires GateOk(s)
    ensures GateOk(AfterSettling(s, k))
  {
    assert Suspended(s, k, Resetting) <==> s.adapter == Some(k);
    OnlyResetting(s, AfterSettling(s, k), k);
  }

  lemma GateAfterRemove(s: Ladder, k: nat)
    requires GateOk(s)
    ensures GateOk(AfterRemove(s, k))
  {
    OnlyResetting(s, AfterRemove(s, k), k);
  }

  lemma GateEnters(s: Ladder, k: nat)
    requires GateOk(s)
    ensures GateOk(EnterAdapter(s, k))
  {
    OnlyResetting(s, EnterAdapter(s, k), k);
  }

  lemma GateSwept(s: Ladder, k: nat, mac: Mac)
    requires GateOk(s)
    ensures GateOk(SweepLink(s, k, mac))
  {
    OnlyResetting(s, SweepLink(s, k, mac), k);
  }

  lemma GatePowerCycled(s: Ladder, k: nat)
    requires GateOk(s)
    ensures GateOk(AfterPowerCycle(s, k))
  {
    assert Suspended(s, k, Resetting) <==> s.adapter == Some(k);
    OnlyResetting(s, AfterPowerCycle(s, k), k);
  }

  lemma GateAborted(s: Ladder, k: nat)
    requires GateOk(s)
    ensures GateOk(AbortCall(s, k))
  {
    assert Suspended(s, k, Resetting) <==> s.adapter == Some(k);
    OnlyResetting(s, AbortCall(s, k), k);
  }

  lemma GateCalls(s: Ladder, m: Move)
    requires GateOk(s) && (m.Recover? || m.Unlinked? || m.Connected? || m.Rebuilt? || m.LinkLost?)
    ensures GateOk(Take(s, m))
  {
    var k := if m.Unlinked? then m.key else m.mac.key;
    OnlyResetting(s, Take(s, m), k);
  }

  lemma GateStep(s: Ladder, m: Move)
    requires GateOk(s)
    ensures GateOk(Take(s, m))
  {
    hide GateOk, AfterSettling, AfterRemove, EnterAdapter, SweepLink, AfterPowerCycle, AbortCall;
    match m {
      case Settled(k) => GateAfterSettling(s, k);
      case Removed(k) => GateAfterRemove(s, k);
      case AdapterGranted(k) => GateEnters(s, k);
      case Swept(k, mac) => GateSwept(s, k, mac);
      case PowerCycled(k) => GatePowerCycled(s, k);
      case Abort(k) => GateAborted(s, k);
      case _ => GateCalls(s, m);
    }
  }

  lemma {:induction false} GateRun(devices: int, ms: seq<Move>)
    ensures GateOk(TakeAll(Fresh(devices), ms))
  {
    hide Take, GateOk;
    if ms == [] {
      FreshGate(devices);
    } else {
      GateRun(devices, ms[..|ms| - 1]);
      GateStep(TakeAll(Fresh(devices), ms[..|ms| - 1]), ms[|ms| - 1]);
    }
  }

  lemma FreshGate(devices: int)
    ensures GateOk(Fresh(devices))
  {}

  /** The gate is closed exactly while a call is inside the adapter section, and then it is one call; with
      no such call, whatever ended the last one, it is open. */
  lemma {:induction false} GateClosedOnlyDuringReset(devices: int, ms: seq<Move>)
    ensures var s := TakeAll(Fresh(devices), ms);
            && (!s.gateOpen <==> exists k :: Suspended(s, k, Resetting))
            && (!s.gateOpen ==> s.adapter.Some? && Suspended(s, s.adapter.value, Resetting))
            && (forall j, k :: Suspended(s, j, Resetting) && Suspended(s, k, Resetting) ==> j == k)
  {
    hide TakeAll;
    GateRun(devices, ms);
    var s := TakeAll(Fresh(devices), ms);
    forall k: nat ensures Suspended(s, k, Resetting) <==> s.adapter == Some(k) {}
  }

  /** The moves of a call that stays inside the adapter section. */
  ghost predicate StaysInside(more: seq<Move>, k: nat) {
    forall i :: 0 <= i < |more| ==> more[i] != PowerCycled(k) && more[i] != Abort(k)
  }

  /** Inside the section, exactly those links found there are still to be cut that have not been. */
  ghost predicate SweepOk(s: Ladder, k: nat, found: set<Mac>, more: seq<Move>) {
    && Suspended(s, k, Resetting)
    && forall mac :: mac in s.sweep <==> mac in found && Swept(k, mac) !in more
  }

  lemma InsideStep(s: Ladder, k: nat, found: set<Mac>, before: seq<Move>, m: Move)
    requires GateOk(s) && SweepOk(s, k, found, before)
    requires m != PowerCycled(k) && m != Abort(k)
    ensures SweepOk(Take(s, m), k, found, before + [m])
  {
    assert Suspended(s, k, Resetting) <==> s.adapter == Some(k);
    match m {
      case Abort(j) => assert Suspended(s, j, Resetting) <==> s.adapter == Some(j);
      case PowerCycled(j) => assert Suspended(s, j, Resetting) <==> s.adapter == Some(j);
      case Swept(j, mac) => assert Suspended(s, j, Resetting) <==> s.adapter == Some(j);
      case _ =>
    }
  }

  lemma {:induction false} InsideRun(devices: int, ms: seq<Move>, k: nat, more: seq<Move>)
    requires Suspended(TakeAll(Fresh(devices), ms), k, WaitingForAdapter)
    requires TakeAll(Fresh(devices), ms).adapter.None? && StaysInside(more, k)
    ensures SweepOk(TakeAll(Fresh(devices), ms + [AdapterGranted(k)] + more), k,
                    TakeAll(Fresh(devices), ms).live, more)
  {
    hide Take, GateOk, DeviceOk, PastOk, SweepOk;
    var s, entered := TakeAll(Fresh(devices), ms), ms + [AdapterGranted(k)];
    if more == [] {
      assert entered[..|ms|] == ms && entered + more == entered;
      Entering(s, k);
    } else {
      var init, m := more[..|more| - 1], more[|more| - 1];
      InsideRun(devices, ms, k, init);
      assert (entered + more)[..|entered + init|] == entered + init;
      GateRun(devices, entered + init);
      InsideStep(TakeAll(Fresh(devices), entered + init), k, s.live, init, m);
      assert init + [m] == more;
    }
  }

  lemma Entering(s: Ladder, k: nat)
    requires Suspended(s, k, WaitingForAdapter) && s.adapter.None?
    ensures SweepOk(Take(s, AdapterGranted(k)), k, s.live, [])
  {}

  /**
   * No live link goes down with the adapter unannounced: between a call's entering the adapter
   * section and its power cycle, every link that was live on entry has been cut by itself; and once
   * all of them have, the power cycle can complete.
   */
  lemma {:induction false} LiveLinksAreCutFirst(devices: int, ms: seq<Move>, k: nat, more: seq<Move>)
    requires Suspended(TakeAll(Fresh(devices), ms), k, WaitingForAdapter)
    requires TakeAll(Fresh(devices), ms).adapter.None? && StaysInside(more, k)
    ensures var s := TakeAll(Fresh(devices), ms + [AdapterGranted(k)] + more);
            && Suspended(s, k, Resetting)
            && (k !in Take(s, PowerCycled(k)).calls <==>
                  forall mac :: mac in TakeAll(Fresh(devices), ms).live ==> Swept(k, mac) in more)
  {
    hide TakeAll;
    InsideRun(devices, ms, k, more);
    var s := TakeAll(Fresh(devices), ms + [AdapterGranted(k)] + more);
    if s.sweep != {} {
      var mac :| mac in s.sweep;
    }
  }

  // ----- which links a reset still meets -----

  /** The move brings a link up. */
  predicate BringsUp(s: Ladder, m: Move, mac: Mac) {
    m == Connected(mac) && mac.key !in s.calls
  }

  /** The move takes a link down. */
  predicate TakesDown(s: Ladder, m: Move, mac: Mac) {
    || m == LinkLost(mac)
    || (m.Unlinked? && Suspended(s, m.key, Disconnecting) && s.calls[m.key].mac == mac)
    || (m.Swept? && m.mac == mac && Suspended(s, m.key, Resetting) && mac in s.sweep)
  }

  lemma SettlingKeepsLive(s: Ladder, m: Move)
    requires m.Settled? || m.Removed? || m.AdapterGranted?
    ensures Take(s, m).live == s.live
  {}

  lemma EndingKeepsLive(s: Ladder, m: Move)
    requires m.PowerCycled? || m.Abort? || m.Rebuilt? || m.Recover?
    ensures Take(s, m).live == s.live
  {}

  /** What one move does to one link. */
  lemma LiveStep(s: Ladder, m: Move, mac: Mac)
    ensures mac in Take(s, m).live <==> BringsUp(s, m, mac) || (mac in s.live && !TakesDown(s, m, mac))
  {
    if m.Settled? || m.Removed? || m.AdapterGranted? {
      SettlingKeepsLive(s, m);
      hide Take;
    } else if m.PowerCycled? || m.Abort? || m.Rebuilt? || m.Recover? {
      EndingKeepsLive(s, m);
      hide Take;
    } else {
      hide AfterSettling, AfterRemove, EnterAdapter, AfterPowerCycle, AbortCall;
    }
  }

  /** Move c of the run brought the link up, and no move from there up to n took it down again. */
  ghost predicate UpSince(devices: int, ms: seq<Move>, c: int, n: int, mac: Mac) {
    && 0 <= c < n <= |ms|
    && BringsUp(TakeAll(Fresh(devices), ms[..c]), ms[c], mac)
    && forall j {:trigger ms[j]} :: c < j < n ==> !TakesDown(TakeAll(Fresh(devices), ms[..j]), ms[j], mac)
  }

  lemma {:induction false} UpSinceStep(devices: int, ms: seq<Move>, c: int, n: nat, mac: Mac)
    requires 0 < n <= |ms|
    ensures var s := TakeAll(Fresh(devices), ms[..n - 1]);
            UpSince(devices, ms, c, n, mac) <==>
              || (c == n - 1 && BringsUp(s, ms[n - 1], mac))
              || (UpSince(devices, ms, c, n - 1, mac) && !TakesDown(s, ms[n - 1], mac))
  {
    hide TakesDown, BringsUp, TakeAll;
  }

  /** A link is live after n moves, not having been live after d, exactly if it came up in between
      and stayed. */
  lemma {:induction false} LiveIsUpSince(devices: int, ms: seq<Move>, d: nat, n: nat, mac: Mac)
    requires d <= n <= |ms| && mac !in TakeAll(Fresh(devices), ms[..d]).live
    ensures mac in TakeAll(Fresh(devices), ms[..n]).live <==> exists c :: d <= c && UpSince(devices, ms, c, n, mac)
  {
    hide Take, TakeAll, BringsUp, TakesDown, UpSince;
    if n == d {
      forall c | d <= c ensures !UpSince(devices, ms, c, n, mac) { UpBefore(devices, ms, c, n, mac); }
    } else {
      var s, m := TakeAll(Fresh(devices), ms[..n - 1]), ms[n - 1];
      LiveIsUpSince(devices, ms, d, n - 1, mac);
      TakeNext(devices, ms, n - 1);
      LiveStep(s, m, mac);
      forall c ensures UpSince(devices, ms, c, n, mac) <==>
          (c == n - 1 && BringsUp(s, m, mac)) || (UpSince(devices, ms, c, n - 1, mac) && !TakesDown(s, m, mac))
      {
        UpSinceStep(devices, ms, c, n, mac);
      }
      if BringsUp(s, m, mac) {
        assert UpSince(devices, ms, n - 1, n, mac);
      } else if mac in s.live && !TakesDown(s, m, mac) {
        var c :| d <= c && UpSince(devices, ms, c, n - 1, mac);
        assert UpSince(devices, ms, c, n, mac);
      }
    }
  }

  lemma {:induction false} UpBefore(devices: int, ms: seq<Move>, c: int, n: nat, mac: Mac)
    ensures UpSince(devices, ms, c, n, mac) ==> c < n
  {}

  lemma {:induction false} TakeNext(devices: int, ms: seq<Move>, n: nat)
    requires n < |ms|
    ensures TakeAll(Fresh(devices), ms[..n + 1]) == Take(TakeAll(Fresh(devices), ms[..n]), ms[n])
  {
    hide Take;
    assert ms[..n + 1][..n] == ms[..n];
  }

  /** Move d is the decision of call k to reset the adapter. */
  ghost predicate DecidesReset(devices: int, ms: seq<Move>, d: int, k: nat) {
    && 0 <= d < |ms| && ms[d] == Removed(k)
    && Suspended(TakeAll(Fresh(devices), ms[..d]), k, Removing)
    && Suspended(TakeAll(Fresh(devices), ms[..d + 1]), k, WaitingForAdapter)
  }

  // ----- which level a call returns -----

  /** One move ends the call of k, with this result. */
  ghost predicate Returns(s: Ladder, r: Ladder, k: nat, level: Level) {
    && k in s.calls && k !in r.calls
    && (EraOf(r, k) == EraOf(s, k) + [level] || r.past == s.past + [EraOf(s, k) + [level]])
  }

  /** Move d is the removal of the call of k that is still going on after n moves: from d on the call
      has been waiting for the adapter or inside its section. */
  ghost predicate OwnRemoval(devices: int, ms: seq<Move>, d: int, n: int, k: nat) {
    && 0 <= d < |ms| && d <= n <= |ms| && ms[d] == Removed(k)
    && Suspended(TakeAll(Fresh(devices), ms[..d]), k, Removing)
    && forall j {:trigger ms[..j]} :: d < j <= n ==> PastRemoval(TakeAll(Fresh(devices), ms[..j]), k)
  }

  predicate PastRemoval(s: Ladder, k: nat) {
    Suspended(s, k, WaitingForAdapter) || Suspended(s, k, Resetting)
  }

  /** One move takes a call past its removal only by that removal, and keeps it there or ends it. */
  lemma PastRemovalStep(s: Ladder, m: Move, k: nat)
    requires s.devices > 1
    ensures PastRemoval(Take(s, m), k) && !PastRemoval(s, k) ==> m == Removed(k) && Suspended(s, k, Removing)
  {}

  lemma {:induction false} RemovalGoesOn(devices: int, ms: seq<Move>, d: int, n: nat, k: nat)
    requires OwnRemoval(devices, ms, d, n, k) && n < |ms| && PastRemoval(TakeAll(Fresh(devices), ms[..n + 1]), k)
    ensures OwnRemoval(devices, ms, d, n + 1, k)
  {
    hide Take, TakeAll, PastRemoval, Suspended;
  }

  /** A call past its removal has one. */
  lemma {:induction false} RemovalFound(devices: int, ms: seq<Move>, n: nat, k: nat) returns (d: int)
    requires devices > 1 && n <= |ms| && PastRemoval(TakeAll(Fresh(devices), ms[..n]), k)
    ensures OwnRemoval(devices, ms, d, n, k) && d < n
  {
    if n == 0 {
      assert false;
    } else {
      hide Take, TakeAll, PastRemoval, Suspended, OwnRemoval;
      var s := TakeAll(Fresh(devices), ms[..n - 1]);
      TakeNext(devices, ms, n - 1);
      EveryRunKeeps(devices, ms[..n - 1]);
      StaysSeveral(s);
      PastRemovalStep(s, ms[n - 1], k);
      if PastRemoval(s, k) {
        d := RemovalFound(devices, ms, n - 1, k);
      } else {
        d := n - 1;
        RemovalNow(devices, ms, n - 1, k);
      }
      RemovalGoesOn(devices, ms, d, n - 1, k);
    }
  }

  lemma StaysSeveral(s: Ladder)
    requires Inv(s)
    ensures s.devices > 1
  {
    hide DeviceOk, PastOk, GateOk;
  }

  lemma SettlingEnds(s: Ladder, j: nat, k: nat)
    requires s.devices > 1 && k in s.calls && k !in AfterSettling(s, j).calls
    ensures var r := AfterSettling(s, j); j == k && EraOf(r, k) == EraOf(s, k) + [L1] && r.past == s.past
  {}

  lemma RemovingEnds(s: Ladder, j: nat, k: nat)
    requires s.devices > 1 && k in s.calls && k !in AfterRemove(s, j).calls
    ensures var r := AfterRemove(s, j);
            && j == k && Suspended(s, k, Removing) && s.live != {}
            && EraOf(r, k) == EraOf(s, k) + [L15] && r.past == s.past
  {}

  lemma ResettingEnds(s: Ladder, j: nat, k: nat)
    requires s.devices > 1 && k in s.calls && k !in AfterPowerCycle(s, j).calls
    ensures var r := AfterPowerCycle(s, j);
            && j == k && Suspended(s, k, Resetting)
            && EraOf(r, k) == [] && r.past == s.past + [EraOf(s, k) + [L2]]
  {}

  /** How a call can end by itself. */
  lemma EndsAt(s: Ladder, m: Move, k: nat)
    requires s.devices > 1 && k in s.calls && k !in Take(s, m).calls && !m.Abort?
    ensures var r, e := Take(s, m), EraOf(s, k);
            || (m == Settled(k) && EraOf(r, k) == e + [L1] && r.past == s.past)
            || (m == Removed(k) && Suspended(s, k, Removing) && s.live != {}
                && EraOf(r, k) == e + [L15] && r.past == s.past)
            || (m == PowerCycled(k) && Suspended(s, k, Resetting)
                && EraOf(r, k) == [] && r.past == s.past + [e + [L2]])
  {
    hide EraOf, AfterSettling, AfterRemove, AfterPowerCycle;
    match m {
      case Settled(j) => SettlingEnds(s, j, k);
      case Removed(j) => RemovingEnds(s, j, k);
      case PowerCycled(j) => ResettingEnds(s, j, k);
      case _ =>
    }
  }

  lemma LastDiffers<T>(e: seq<T>, x: T, y: T)
    ensures e + [x] == e + [y] ==> x == y
    ensures e != e + [x]
  {
    if e + [x] == e + [y] {
      assert (e + [x])[|e|] == (e + [y])[|e|];
    }
  }

  /** Which moves return which level. */
  lemma ReturnStep(s: Ladder, m: Move, k: nat, level: Level)
    requires s.devices > 1 && Returns(s, Take(s, m), k, level) && !m.Abort?
    ensures level == L1 ==> m == Settled(k)
    ensures level == L15 ==> m == Removed(k) && Suspended(s, k, Removing) && s.live != {}
    ensures level == L2 ==> m == PowerCycled(k) && Suspended(s, k, Resetting)
  {
    hide Take, EraOf, Suspended;
    EndsAt(s, m, k);
    var e := EraOf(s, k);
    LastDiffers(e, L1, level);
    LastDiffers(e, L15, level);
    LastDiffers(e, L2, level);
    LastDiffers(s.past, e + [L2], e + [level]);
  }

  /**
   * Which level a call returns.  On every run, a call that is not ended from outside and does not
   * return L1 has had its own removal, and it returns L2 if and only if no link was live at that
   * moment; otherwise it returns L1.5.
   */
  lemma {:induction false} ResetExactlyWithoutLiveLinks(devices: int, ms: seq<Move>, n: nat, k: nat, level: Level)
    requires devices > 1 && n < |ms| && !ms[n].Abort?
    requires Returns(TakeAll(Fresh(devices), ms[..n]), TakeAll(Fresh(devices), ms[..n + 1]), k, level)
    requires level != L1
    ensures exists d :: OwnRemoval(devices, ms, d, n, k)
    ensures forall d :: OwnRemoval(devices, ms, d, n, k) ==>
              (level == L2 <==> TakeAll(Fresh(devices), ms[..d]).live == {})
  {
    hide Take, TakeAll, Returns, PastRemoval, Suspended;
    var s := TakeAll(Fresh(devices), ms[..n]);
    TakeNext(devices, ms, n);
    EveryRunKeeps(devices, ms[..n]);
    StaysSeveral(s);
    ReturnStep(s, ms[n], k, level);
    ResettingIsPast(s, k);
    if level == L2 {
      var d := RemovalFound(devices, ms, n, k);
    } else {
      RemovalNow(devices, ms, n, k);
    }
    forall d | OwnRemoval(devices, ms, d, n, k)
      ensures level == L2 <==> TakeAll(Fresh(devices), ms[..d]).live == {}
    {
      RemovalTells(devices, ms, d, n, k);
    }
  }

  lemma ResettingIsPast(s: Ladder, k: nat)
    ensures Suspended(s, k, Resetting) ==> PastRemoval(s, k)
    ensures Suspended(s, k, Removing) ==> !PastRemoval(s, k)
  {}

  lemma {:induction false} RemovalNow(devices: int, ms: seq<Move>, n: nat, k: nat)
    requires n < |ms| && ms[n] == Removed(k) && Suspended(TakeAll(Fresh(devices), ms[..n]), k, Removing)
    ensures OwnRemoval(devices, ms, n, n, k)
  {
    hide TakeAll;
  }

  /** At its own removal a call that goes on has seen no live link; one that stands at it is there. */
  lemma {:induction false} RemovalTells(devices: int, ms: seq<Move>, d: int, n: int, k: nat)
    requires devices > 1 && OwnRemoval(devices, ms, d, n, k)
    ensures d < n ==> TakeAll(Fresh(devices), ms[..d]).live == {} && PastRemoval(TakeAll(Fresh(devices), ms[..n]), k)
    ensures d == n ==> Suspended(TakeAll(Fresh(devices), ms[..n]), k, Removing)
  {
    hide Take, TakeAll, PastRemoval;
    if d < n {
      var s := TakeAll(Fresh(devices), ms[..d]);
      TakeNext(devices, ms, d);
      EveryRunKeeps(devices, ms[..d]);
      StaysSeveral(s);
      assert PastRemoval(TakeAll(Fresh(devices), ms[..d + 1]), k);
      PassedWithoutLinks(s, k);
    }
  }

  lemma PassedWithoutLinks(s: Ladder, k: nat)
    requires s.devices > 1 && Suspended(s, k, Removing) && PastRemoval(Take(s, Removed(k)), k)
    ensures s.live == {}
  {}

  /**
   * What a reset meets.  The live links are looked at before the adapter lock is waited for.  When
   * the call enters the adapter section at move n, after its decision d, the links it finds live,
   * and has to cut, are exactly those that came up after the decision and stayed up.
   */
  lemma {:induction false} ResetMeetsExactlyLateLinks(devices: int, ms: seq<Move>, d: int, n: int, k: nat, mac: Mac)
    requires devices > 1 && DecidesReset(devices, ms, d, k)
    requires d < n < |ms| && ms[n] == AdapterGranted(k)
    requires var s := TakeAll(Fresh(devices), ms[..n]); Suspended(s, k, WaitingForAdapter) && s.adapter.None?
    ensures var r := TakeAll(Fresh(devices), ms[..n + 1]);
            && Suspended(r, k, Resetting) && !r.gateOpen && r.sweep == r.live
            && (mac in r.live <==> exists c :: d < c && UpSince(devices, ms, c, n, mac))
  {
    hide UpSince, TakeAll, AfterRemove, EnterAdapter, Suspended;
    TakeNext(devices, ms, d);
    TakeNext(devices, ms, n);
    EveryRunKeeps(devices, ms[..d]);
    DecidesWithoutLinks(TakeAll(Fresh(devices), ms[..d]), k);
    LiveIsUpSince(devices, ms, d + 1, n, mac);
    EntersWithLinks(TakeAll(Fresh(devices), ms[..n]), k);
  }

  lemma DecidesWithoutLinks(s: Ladder, k: nat)
    requires Inv(s) && Suspended(s, k, Removing) && Suspended(AfterRemove(s, k), k, WaitingForAdapter)
    ensures AfterRemove(s, k).live == {}
  {
    hide DeviceOk, PastOk, GateOk;
  }

  lemma EntersWithLinks(s: Ladder, k: nat)
    requires Suspended(s, k, WaitingForAdapter) && s.adapter.None?
    ensures var r := EnterAdapter(s, k);
            Suspended(r, k, Resetting) && !r.gateOpen && r.sweep == r.live == s.live
  {}

  // ----- counts and alerts -----

  /** The call of k has its power cycle now. */
  predicate Completes(s: Ladder, m: Move, k: nat) {
    m == PowerCycled(k) && Suspended(s, k, Resetting) && s.sweep == {}
  }

  /** Every completed reset is counted, and nothing else; it ends the call, opens the gate and frees the
      adapter. */
  lemma {:induction false} ResetsAreCounted(devices: int, ms: seq<Move>, m: Move)
    ensures var s, r := TakeAll(Fresh(devices), ms), TakeAll(Fresh(devices), ms + [m]);
            && ((exists k :: Completes(s, m, k)) ==> r.resets == s.resets + 1)
            && ((forall k :: !Completes(s, m, k)) ==> r.resets == s.resets)
            && forall k :: Completes(s, m, k) ==> k !in r.calls && r.gateOpen && r.adapter == None
  {
    assert (ms + [m])[..|ms|] == ms;
    var s := TakeAll(Fresh(devices), ms);
    assert TakeAll(Fresh(devices), ms + [m]) == Take(s, m);
    hide TakeAll;
    if m.PowerCycled? && !Completes(s, m, m.key) {
      assert Take(s, m) == s;
    }
  }

  /** An entry is reported exactly from the third declaration on. */
  predicate AlertOk(s: Ladder, k: nat) {
    k in s.backoff ==> s.backoff[k].count >= 1 && (s.backoff[k].alerted <==> s.backoff[k].count >= 3)
  }

  lemma AlertAfterRemove(s: Ladder, j: nat, k: nat)
    requires AlertOk(s, k)
    ensures AlertOk(AfterRemove(s, j), k)
  {}

  lemma AlertStep(s: Ladder, m: Move, k: nat)
    requires AlertOk(s, k)
    ensures AlertOk(Take(s, m), k)
  {
    match m {
      case Removed(j) => hide AfterRemove; AlertAfterRemove(s, j, k);
      case _ => hide AfterRemove;
    }
  }

  /** A device's backoff has been reported exactly if it has been declared at least three times since the
      last clear. */
  lemma {:induction false} AlertedFromThirdOn(devices: int, ms: seq<Move>, k: nat)
    ensures var b := TakeAll(Fresh(devices), ms).backoff;
            k in b ==> b[k].count >= 1 && (b[k].alerted <==> b[k].count >= 3)
  {
    hide Take;
    if ms != [] {
      AlertedFromThirdOn(devices, ms[..|ms| - 1], k);
      AlertStep(TakeAll(Fresh(devices), ms[..|ms| - 1]), ms[|ms| - 1], k);
    }
  }

  /** Ending a call from outside ends it and nothing else; if it was inside the adapter section the gate
      opens and the adapter is free. */
  lemma {:induction false} AbortOnlyEndsTheCall(devices: int, ms: seq<Move>, k: nat)
    ensures var s, r := TakeAll(Fresh(devices), ms), TakeAll(Fresh(devices), ms + [Abort(k)]);
            && r.calls == s.calls - {k} && r.era == s.era && r.past == s.past && r.resets == s.resets
            && r.l1 == s.l1 && r.l15 == s.l15 && r.backoff == s.backoff && r.live == s.live
            && (Suspended(s, k, Resetting) ==> r.gateOpen && r.adapter == None)
            && (!Suspended(s, k, Resetting) ==> r.gateOpen == s.gateOpen && r.adapter == s.adapter)
  {
    assert (ms + [Abort(k)])[..|ms|] == ms;
    var s := TakeAll(Fresh(devices), ms);
    assert TakeAll(Fresh(devices), ms + [Abort(k)]) == AbortCall(s, k);
    hide TakeAll;
    if k !in s.calls { assert s.calls - {k} == s.calls; }
  }

  /** A device that is connected again or rebuilt has all its failures forgotten, and no other device. */
  lemma {:induction false} ReturningForgets(devices: int, ms: seq<Move>, m: Move)
    requires m.Connected? || m.Rebuilt?
    requires m.mac.key !in TakeAll(Fresh(devices), ms).calls
    ensures var s, r, k := TakeAll(Fresh(devices), ms), TakeAll(Fresh(devices), ms + [m]), m.mac.key;
            && k !in r.l1 && k !in r.l15 && k !in r.backoff && EraOf(r, k) == [] && r.past == s.past + [EraOf(s, k)]
            && r.live == (if m.Connected? then s.live + {m.mac} else s.live)
            && forall j :: j != k ==> CountOf(r.l1, j) == CountOf(s.l1, j) && CountOf(r.l15, j) == CountOf(s.l15, j)
                                      && BackoffCount(r, j) == BackoffCount(s, j) && EraOf(r, j) == EraOf(s, j)
  {
    assert (ms + [m])[..|ms|] == ms;
    assert TakeAll(Fresh(devices), ms + [m]) == Take(TakeAll(Fresh(devices), ms), m);
    hide TakeAll;
  }

  // ----- a single device -----

  predicate AllL2(e: seq<Level>) {
    forall i :: 0 <= i < |e| ==> e[i] == L2
  }

  /** Only power cycles are ever returned, no call is at a removal, nothing is counted against a device. */
  ghost predicate OnlyResets(s: Ladder) {
    && s.devices <= 1
    && (forall k :: AllL2(EraOf(s, k)))
    && (forall i {:trigger s.past[i]} :: 0 <= i < |s.past| ==> AllL2(s.past[i]))
    && (forall k :: !Suspended(s, k, Removing))
    && s.l1 == map[] && s.l15 == map[] && s.backoff == map[]
  }

  lemma OthersOnlyReset(s: Ladder, r: Ladder, k: nat)
    requires OnlyResets(s) && r.devices == s.devices && r.past == s.past
    requires r.l1 == map[] && r.l15 == map[] && r.backoff == map[]
    requires forall j :: j != k ==>
      && EraOf(r, j) == EraOf(s, j)
      && (j in r.calls <==> j in s.calls) && (j in s.calls ==> r.calls[j] == s.calls[j])
    requires AllL2(EraOf(r, k)) && !Suspended(r, k, Removing)
    ensures OnlyResets(r)
  {
    forall j ensures AllL2(EraOf(r, j)) && !Suspended(r, j, Removing) {
      assert AllL2(EraOf(s, j)) && !Suspended(s, j, Removing);
    }
  }

  lemma SingleClears(s: Ladder, live: set<Mac>, k: nat)
    requires OnlyResets(s)
    ensures OnlyResets(Clear(s.(live := live), k))
  {
    var c := Clear(s.(live := live), k);
    forall j ensures AllL2(EraOf(c, j)) && !Suspended(c, j, Removing) {
      assert AllL2(EraOf(s, j)) && !Suspended(s, j, Removing);
    }
    forall i {:trigger c.past[i]} | 0 <= i < |c.past| ensures AllL2(c.past[i]) {
      if i == |s.past| { assert AllL2(EraOf(s, k)); }
    }
  }

  lemma SingleSettled(s: Ladder, k: nat)
    requires OnlyResets(s)
    ensures OnlyResets(AfterSettling(s, k))
  {
    assert AllL2(EraOf(s, k)) && !Suspended(s, k, Removing);
    OthersOnlyReset(s, AfterSettling(s, k), k);
  }

  lemma SingleRemoved(s: Ladder, k: nat)
    requires OnlyResets(s)
    ensures OnlyResets(AfterRemove(s, k))
  {
    assert AllL2(EraOf(s, k)) && !Suspended(s, k, Removing);
    OthersOnlyReset(s, AfterRemove(s, k), k);
  }

  lemma SingleEnters(s: Ladder, k: nat)
    requires OnlyResets(s)
    ensures OnlyResets(EnterAdapter(s, k))
  {
    assert AllL2(EraOf(s, k)) && !Suspended(s, k, Removing);
    OthersOnlyReset(s, EnterAdapter(s, k), k);
  }

  lemma SingleSwept(s: Ladder, k: nat, mac: Mac)
    requires OnlyResets(s)
    ensures OnlyResets(SweepLink(s, k, mac))
  {
    assert AllL2(EraOf(s, k)) && !Suspended(s, k, Removing);
    OthersOnlyReset(s, SweepLink(s, k, mac), k);
  }

  lemma SinglePowerCycled(s: Ladder, k: nat)
    requires OnlyResets(s)
    ensures OnlyResets(AfterPowerCycle(s, k))
  {
    assert AllL2(EraOf(s, k)) && !Suspended(s, k, Removing);
    OthersOnlyReset(s, AfterPowerCycle(s, k), k);
  }

  lemma SingleAborted(s: Ladder, k: nat)
    requires OnlyResets(s)
    ensures OnlyResets(AbortCall(s, k))
  {
    assert AllL2(EraOf(s, k)) && !Suspended(s, k, Removing);
    OthersOnlyReset(s, AbortCall(s, k), k);
  }

  lemma SingleUnlinked(s: Ladder, k: nat)
    requires OnlyResets(s)
    ensures OnlyResets(Take(s, Unlinked(k)))
  {
    assert AllL2(EraOf(s, k)) && !Suspended(s, k, Removing);
    OthersOnlyReset(s, Take(s, Unlinked(k)), k);
  }

  lemma SingleCalls(s: Ladder, m: Move)
    requires OnlyResets(s) && (m.Recover? || m.LinkLost?)
    ensures OnlyResets(Take(s, m))
  {
    assert AllL2(EraOf(s, m.mac.key)) && !Suspended(s, m.mac.key, Removing);
    OthersOnlyReset(s, Take(s, m), m.mac.key);
  }

  lemma SingleStep(s: Ladder, m: Move)
    requires OnlyResets(s)
    ensures OnlyResets(Take(s, m))
  {
    hide OnlyResets, AfterSettling, AfterRemove, EnterAdapter, SweepLink, AfterPowerCycle, AbortCall, Clear;
    match m {
      case Settled(k) => SingleSettled(s, k);
      case Removed(k) => SingleRemoved(s, k);
      case AdapterGranted(k) => SingleEnters(s, k);
      case Swept(k, mac) => SingleSwept(s, k, mac);
      case PowerCycled(k) => SinglePowerCycled(s, k);
      case Abort(k) => SingleAborted(s, k);
      case Connected(mac) => SingleClears(s, s.live + {mac}, mac.key);
      case Rebuilt(mac) => SingleClears(s, s.live, mac.key);
      case Unlinked(k) => SingleUnlinked(s, k);
      case _ => SingleCalls(s, m);
    }
  }

  lemma {:induction false} SingleRun(devices: int, ms: seq<Move>)
    requires devices <= 1
    ensures OnlyResets(TakeAll(Fresh(devices), ms))
  {
    hide Take, OnlyResets;
    if ms == [] {
      FreshSingle(devices);
    } else {
      SingleRun(devices, ms[..|ms| - 1]);
      SingleStep(TakeAll(Fresh(devices), ms[..|ms| - 1]), ms[|ms| - 1]);
    }
  }

  lemma FreshSingle(devices: int)
    requires devices <= 1
    ensures OnlyResets(Fresh(devices))
  {}

  /** How a call of a single device ends by itself, and where it goes after its disconnect. */
  lemma SingleEnds(s: Ladder, m: Move, k: nat)
    requires OnlyResets(s) && k in s.calls
    ensures var r := Take(s, m);
            k !in r.calls && !m.Abort? ==>
              && Completes(s, m, k) && r.resets == s.resets + 1 && r.gateOpen
              && EraOf(r, k) == EraOf(s, k) + [L2] && r.past == s.past
    ensures m == Settled(k) && Suspended(s, k, Settling) ==> Suspended(Take(s, m), k, WaitingForAdapter)
  {
    assert !Suspended(s, k, Removing);
  }

  /**
   * A single device always gets its adapter reset.  On every run with at most one device, a call that is
   * not ended from outside goes from its disconnect to the adapter and ends with its power cycle, which
   * is counted, opens the gate and returns L2; no recovery ever returns another level, and no failure is
   * counted or backoff declared.
   */
  lemma {:induction false} SingleDeviceAlwaysResets(devices: int, ms: seq<Move>, m: Move, k: nat)
    requires devices <= 1
    ensures var s, r := TakeAll(Fresh(devices), ms), TakeAll(Fresh(devices), ms + [m]);
            && (k in s.calls && k !in r.calls && !m.Abort? ==>
                  && m == PowerCycled(k) && Suspended(s, k, Resetting) && r.resets == s.resets + 1 && r.gateOpen
                  && EraOf(r, k) == EraOf(s, k) + [L2] && r.past == s.past)
            && (m == Settled(k) && Suspended(s, k, Settling) ==> Suspended(r, k, WaitingForAdapter))
            && (forall i :: 0 <= i < |EraOf(r, k)| ==> EraOf(r, k)[i] == L2)
            && (forall i, j :: 0 <= i < |r.past| && 0 <= j < |r.past[i]| ==> r.past[i][j] == L2)
            && r.l1 == map[] && r.l15 == map[] && r.backoff == map[]
  {
    hide Take, TakeAll, Suspended;
    var all := ms + [m];
    assert all[..|ms|] == ms && all[..|all|] == all;
    TakeNext(devices, all, |ms|);
    SingleRun(devices, ms);
    SingleRun(devices, all);
    var s := TakeAll(Fresh(devices), ms);
    assert AllL2(EraOf(TakeAll(Fresh(devices), all), k));
    if k in s.calls { SingleEnds(s, m, k); }
    SettlingIsCall(s, k);
  }

  lemma SettlingIsCall(s: Ladder, k: nat)
    ensures Suspended(s, k, Settling) ==> k in s.calls
  {}

  function SingleRecovery(mac: Mac): seq<Move> {
    [Recover(mac), Unlinked(mac.key), Settled(mac.key), AdapterGranted(mac.key), PowerCycled(mac.key)]
  }

  /** A single device's call at some stage, with nothing else going on and no reset so far. */
  predicate OneCall(s: Ladder, mac: Mac, stage: Stage) {
    && s.devices == 1 && s.calls == map[mac.key := Call(mac, stage)] && s.live == {} && s.sweep == {}
    && s.resets == 0 && mac.key !in s.era && (s.adapter.Some? <==> stage == Resetting)
  }

  lemma SingleDisconnects(mac: Mac)
    ensures OneCall(Take(Take(Fresh(1), Recover(mac)), Unlinked(mac.key)), mac, Settling)
  {}

  lemma SingleGoesOn(s: Ladder, mac: Mac)
    requires OneCall(s, mac, Settling)
    ensures OneCall(Take(s, Settled(mac.key)), mac, WaitingForAdapter)
  {}

  lemma SingleEntersAdapter(s: Ladder, mac: Mac)
    requires OneCall(s, mac, WaitingForAdapter)
    ensures OneCall(Take(s, AdapterGranted(mac.key)), mac, Resetting)
  {}

  lemma SingleReturns(s: Ladder, mac: Mac)
    requires OneCall(s, mac, Resetting)
    ensures var r := Take(s, PowerCycled(mac.key));
            r.resets == 1 && EraOf(r, mac.key) == [L2] && r.gateOpen && r.calls == map[]
  {}

  /** From a fresh start a single device's recovery runs through to its reset. */
  lemma {:induction false} SingleRecoveryRunsThrough(mac: Mac)
    ensures var r := TakeAll(Fresh(1), SingleRecovery(mac));
            r.resets == 1 && EraOf(r, mac.key) == [L2] && r.gateOpen && r.calls == map[]
  {
    hide Take, TakeAll, OneCall, SingleRecovery;
    var run := SingleRecovery(mac);
    SingleMoves(mac);
    TakeNext(1, run, 0);
    TakeNext(1, run, 1);
    SingleDisconnects(mac);
    TakeNext(1, run, 2);
    SingleGoesOn(TakeAll(Fresh(1), run[..2]), mac);
    TakeNext(1, run, 3);
    SingleEntersAdapter(TakeAll(Fresh(1), run[..3]), mac);
    TakeNext(1, run, 4);
    SingleReturns(TakeAll(Fresh(1), run[..4]), mac);
    assert run[..5] == run;
  }

  lemma SingleMoves(mac: Mac)
    ensures var r, k := SingleRecovery(mac), mac.key;
            && |r| == 5 && TakeAll(Fresh(1), r[..0]) == Fresh(1)
            && r[0] == Recover(mac) && r[1] == Unlinked(k) && r[2] == Settled(k) && r[3] == AdapterGranted(k)
            && r[4] == PowerCycled(k)
  {}

  /** Two devices: A has failed twice with no link live, and B connects while A waits for the adapter. */
  const A := Mac(0, 0)
  const B := Mac(1, 0)

  function LateRun(): seq<Move> {
    [Recover(A), Unlinked(0), Settled(0),
     Recover(A), Unlinked(0), Settled(0), Removed(0),
     Connected(B), AdapterGranted(0)]
  }

  /** A first recovery of A ends with L1. */
  lemma FirstRecovery()
    ensures var s := Take(Take(Take(Fresh(2), Recover(A)), Unlinked(0)), Settled(0));
            && s.devices == 2 && s.calls == map[] && s.l1 == map[0 := 1] && s.l15 == map[] && s.live == {}
            && s.adapter == None
  {
    var s := Take(Take(Fresh(2), Recover(A)), Unlinked(0));
    assert s.calls == map[0 := Call(A, Settling)];
  }

  /** A second one goes on to the removal. */
  lemma SecondRecovery(f: Ladder)
    requires f.devices == 2 && f.calls == map[] && f.l1 == map[0 := 1] && f.l15 == map[] && f.live == {}
    requires f.adapter == None
    ensures var s := Take(Take(Take(f, Recover(A)), Unlinked(0)), Settled(0));
            && s.devices == 2 && s.calls == map[0 := Call(A, Removing)] && s.l15 == map[] && s.live == {}
            && s.adapter == None
  {
    var s := Take(Take(f, Recover(A)), Unlinked(0));
    assert s.calls == map[0 := Call(A, Settling)] && s.live == {};
  }

  /** And to the decision to reset, in the course of which B connects. */
  lemma Decision(f: Ladder)
    requires f.devices == 2 && f.calls == map[0 := Call(A, Removing)] && f.l15 == map[] && f.live == {}
    requires f.adapter == None
    ensures var s := Take(f, Removed(0));
            && Suspended(f, 0, Removing) && Suspended(s, 0, WaitingForAdapter)
            && var r := Take(Take(s, Connected(B)), AdapterGranted(0));
               Suspended(r, 0, Resetting) && B in r.live && B in r.sweep && !r.gateOpen
  {
    var s := Take(f, Removed(0));
    assert s.calls == map[0 := Call(A, WaitingForAdapter)] && s.adapter == None;
    var t := Take(s, Connected(B));
    assert t.calls == s.calls && t.adapter == None && B in t.live;
  }

  /**
   * The run in which a reset meets a late connection: from a fresh start B is live, and about to be
   * cut off, when A's call has entered the adapter section after deciding that no link was live.
   */
  lemma {:induction false} ResetMayMeetLateConnection()
    ensures DecidesReset(2, LateRun(), 6, 0)
    ensures var r := TakeAll(Fresh(2), LateRun());
            Suspended(r, 0, Resetting) && B in r.live && B in r.sweep && !r.gateOpen
  {
    hide Take, TakeAll, Suspended, LateRun;
    LateRunMoves();
    FirstRecovery();
    ThreeMoves(LateRun(), 0);
    SecondRecovery(TakeAll(Fresh(2), LateRun()[..3]));
    ThreeMoves(LateRun(), 3);
    Decision(TakeAll(Fresh(2), LateRun()[..6]));
    ThreeMoves(LateRun(), 6);
    TakeNext(2, LateRun(), 6);
    assert LateRun()[..9] == LateRun();
  }

  lemma LateRunMoves()
    ensures var r := LateRun();
            && |r| == 9 && TakeAll(Fresh(2), r[..0]) == Fresh(2)
            && r[0] == Recover(A) && r[1] == Unlinked(0) && r[2] == Settled(0)
            && r[3] == Recover(A) && r[4] == Unlinked(0) && r[5] == Settled(0)
            && r[6] == Removed(0) && r[7] == Connected(B) && r[8] == AdapterGranted(0)
  {}

  lemma {:induction false} ThreeMoves(ms: seq<Move>, n: nat)
    requires n + 3 <= |ms|
    ensures TakeAll(Fresh(2), ms[..n + 3])
         == Take(Take(Take(TakeAll(Fresh(2), ms[..n]), ms[n]), ms[n + 1]), ms[n + 2])
  {
    hide Take, TakeAll;
    TakeNext(2, ms, n);
    TakeNext(2, ms, n + 1);
    TakeNext(2, ms, n + 2);
  }
}

/** The coordinator's recovery bookkeeping, updated in place. */
module RecoveryCoordinator {
  import opened Common
  import opened RecoveryLadder

  class Coordinator {
    const devices: int
    var l1: map<nat, nat>
    var l15: map<nat, nat>
    var backoff: map<nat, Backoff>
    var live: set<Mac>
    var gateOpen: bool
    var adapter: Option<nat>
    var resets: nat
    var sweep: set<Mac>
    var calls: map<nat, Call>
    ghost var era: map<nat, seq<Level>>
    ghost var past: seq<seq<Level>>

    ghost function Value(): Ladder
      reads this
    {
      Ladder(devices, l1, l15, backoff, live, gateOpen, adapter, resets, sweep, calls, era, past)
    }

    constructor (devices: int)
      ensures Value() == Fresh(devices)
    {
      this.devices := devices;
      l1, l15, backoff, live := map[], map[], map[], {};
      gateOpen, adapter, resets, sweep, calls := true, None, 0, {}, map[];
      era, past := map[], [];
    }

    method ClearDevice(k: nat)
      modifies this`l1, this`l15, this`backoff, this`era, this`past
      ensures Value() == Clear(old(Value()), k)
    {
      past := past + [EraOf(Value(), k)];
      era := era - {k};
      l1 := l1 - {k};
      l15 := l15 - {k};
      backoff := backoff - {k};
    }

    method Finish(k: nat, level: Level)
      modifies this`calls, this`era
      ensures Value() == Return(old(Value()), k, level)
    {
      era := era[k := EraOf(Value(), k) + [level]];
      calls := calls - {k};
    }

    method DeclareBackoff(k: nat)
      modifies this`backoff
      ensures Value() == RecoveryLadder.DeclareBackoff(old(Value()), k)
    {
      var entry := if k in backoff then backoff[k] else Backoff(0, false);
      entry := entry.(count := entry.count + 1);
      if entry.count >= L15_BACKOFF_ALERT && !entry.alerted {
        entry := entry.(alerted := true);
      }
      backoff := backoff[k := entry];
    }

    method OnSettled(k: nat)
      modifies this
      ensures Value() == AfterSettling(old(Value()), k)
    {
      if k !in calls || calls[k].stage != Settling {
        return;
      }
      if devices <= 1 {
        calls := calls[k := calls[k].(stage := WaitingForAdapter)];
        return;
      }
      l1 := l1[k := CountOf(l1, k) + 1];
      if l1[k] <= L1_FAILURES_BEFORE_REMOVE {
        Finish(k, L1);
        return;
      }
      calls := calls[k := calls[k].(stage := Removing)];
    }

    method OnRemoved(k: nat)
      modifies this
      ensures Value() == AfterRemove(old(Value()), k)
    {
      if k !in calls || calls[k].stage != Removing {
        return;
      }
      l15 := l15[k := CountOf(l15, k) + 1];
      if devices > 1 && live != {} && l15[k] <= L15_FAILURES_BEFORE_ADAPTER {
        DeclareBackoff(k);
        Finish(k, L15);
        return;
      }
      if !(devices <= 1 || live == {}) {
        DeclareBackoff(k);
        Finish(k, L15);
        return;
      }
      calls := calls[k := calls[k].(stage := WaitingForAdapter)];
    }

    method OnAdapterGranted(k: nat)
      modifies this`adapter, this`gateOpen, this`sweep, this`calls
      ensures Value() == EnterAdapter(old(Value()), k)
    {
      if k !in calls || calls[k].stage != WaitingForAdapter || adapter.Some? {
        return;
      }
      adapter := Some(k);
      gateOpen := false;
      sweep := live;
      calls := calls[k := calls[k].(stage := Resetting)];
    }

    /** One turn of the loop over the live links inside the adapter section. */
    method OnSwept(k: nat, mac: Mac)
      modifies this`live, this`sweep
      ensures Value() == SweepLink(old(Value()), k, mac)
    {
      if k in calls && calls[k].stage == Resetting && mac in sweep {
        live := live - {mac};
        sweep := sweep - {mac};
      }
    }

    method OnPowerCycled(k: nat)
      modifies this
      ensures Value() == AfterPowerCycle(old(Value()), k)
    {
      if k !in calls || calls[k].stage != Resetting || sweep != {} {
        return;
      }
      resets := resets + 1;
      gateOpen := true;
      adapter := None;
      sweep := {};
      Finish(k, L2);
      if devices > 1 {
        ClearDevice(k);
      }
    }

    method OnAborted(k: nat)
      modifies this`adapter, this`gateOpen, this`sweep, this`calls
      ensures Value() == AbortCall(old(Value()), k)
    {
      if k !in calls {
        return;
      }
      if calls[k].stage == Resetting {
        gateOpen := true;
        adapter := None;
        sweep := {};
      }
      calls := calls - {k};
    }

    method RecoverDevice(mac: Mac)
      modifies this`calls
      ensures Value() == Take(old(Value()), Recover(mac))
    {
      if mac.key !in calls {
        calls := calls[mac.key := Call(mac, Disconnecting)];
      }
    }

    method OnUnlinked(k: nat)
      modifies this`calls, this`live
      ensures Value() == Take(old(Value()), Unlinked(k))
    {
      if k in calls && calls[k].stage == Disconnecting {
        live := live - {calls[k].mac};
        calls := calls[k := calls[k].(stage := Settling)];
      }
    }

    method NoteConnected(mac: Mac)
      modifies this
      ensures Value() == Take(old(Value()), Connected(mac))
    {
      if mac.key in calls {
        return;
      }
      live := live + {mac};
      ClearDevice(mac.key);
    }
  }
}
