/**
 * Merged scans of the shared Bluetooth adapter.  Callers looking for the same device share one
 * future; its creator, the leader, queues for the scan lock and one discovery answers everyone.
 * Each `Move` is what happens between two suspension points of one task.
 */
module ScanMerge {
  import opened Common

  /** A lower-cased MAC address. */
  type Address = nat
  type Device = nat

  /** A future is identified by the key it stands for and a serial number. */
  datatype Future = Future(key: Address, serial: nat)

  /** Where a leader is: queued for the scan lock, or inside it with a discovery running. */
  datatype Phase = Queued | Scanning

  /** What a discovery heard of a device: the advertised address, and the real address if the service
      data carry one. */
  datatype Advert = Advert(address: Address, mac: Option<Address>, device: Device)

  /** The same by advertised address and by the real address in the service data. */
  datatype Index = Index(byAddress: map<Address, Device>, byMac: map<Address, Device>)

  datatype Scan = Scan(
    pending: map<Address, Future>,
    results: map<Future, Option<Device>>,
    completions: multiset<Future>,
    leaders: map<Future, Phase>,
    lock: Option<Future>,
    followers: map<nat, Future>,
    nextSerial: nat, nextTask: nat)

  const IDLE := Scan(map[], map[], multiset{}, map[], None, map[], 0, 0)

  datatype Move =
    /** A task calls find_device for a key. */
    | Find(key: Address)
    /** The lock is granted to a queued leader. */
    | Grant(f: Future)
    /** The leader's discovery returns; a failed scan has heard nothing. */
    | Discovered(f: Future, ads: seq<Advert>)
    /** The leader's task is cancelled at whatever suspension point it is. */
    | Cancel(f: Future)
    /** A follower whose future is done goes on. */
    | Resume(task: nat)

  const NOTHING := Index(map[], map[])

  /** Later advertisements overwrite earlier ones. */
  function IndexOf(ads: seq<Advert>): Index {
    if ads == [] then NOTHING
    else
      var i, a := IndexOf(ads[..|ads| - 1]), ads[|ads| - 1];
      Index(i.byAddress[a.address := a.device],
            if a.mac.Some? then i.byMac[a.mac.value := a.device] else i.byMac)
  }

  function Lookup(index: Index, key: Address): Option<Device> {
    if key in index.byAddress then Some(index.byAddress[key])
    else if key in index.byMac then Some(index.byMac[key])
    else None
  }

  /** The futures still waiting for an answer. */
  function Waiting(s: Scan): set<Future> {
    set k | k in s.pending && s.pending[k] !in s.results :: s.pending[k]
  }

  /** set_result on every future of fs. */
  function Complete(s: Scan, fs: set<Future>, index: Index): Scan {
    s.(results := s.results + (map f | f in fs :: Lookup(index, f.key)),
       completions := s.completions + multiset(fs))
  }

  function FindDevice(s: Scan, key: Address): Scan {
    if key in s.pending && s.pending[key] !in s.results then
      s.(followers := s.followers[s.nextTask := s.pending[key]], nextTask := s.nextTask + 1)
    else
      var f := Future(key, s.nextSerial);
      s.(pending := s.pending[key := f], leaders := s.leaders[f := Queued],
         nextSerial := s.nextSerial + 1)
  }

  /** A leader goes: its sign comes down if it is still its own, the lock is given up. */
  function Drop(s: Scan, f: Future): Scan {
    s.(pending := if f.key in s.pending && s.pending[f.key] == f then s.pending - {f.key} else s.pending,
       leaders := s.leaders - {f},
       lock := if s.lock == Some(f) then None else s.lock)
  }

  /** The `finally` block of a leader, which also leaves its future answered. */
  function Leave(s: Scan, f: Future): Scan {
    Drop(if f in s.results then s else Complete(s, {f}, NOTHING), f)
  }

  function GrantLock(s: Scan, f: Future): Scan {
    if f !in s.leaders || s.leaders[f] != Queued || s.lock.Some? then s
    else if f in s.results then Leave(s, f)
    else s.(leaders := s.leaders[f := Scanning], lock := Some(f))
  }

  function FinishDiscovery(s: Scan, f: Future, ads: seq<Advert>): Scan {
    if f !in s.leaders || s.leaders[f] != Scanning then s
    else Leave(Complete(s, Waiting(s), IndexOf(ads)), f)
  }

  function CancelLeader(s: Scan, f: Future): Scan {
    if f !in s.leaders then s else Leave(s, f)
  }

  function ResumeFollower(s: Scan, t: nat): Scan {
    if t in s.followers && s.followers[t] in s.results then s.(followers := s.followers - {t}) else s
  }

  function Take(s: Scan, m: Move): Scan {
    match m
    case Find(key) => FindDevice(s, key)
    case Grant(f) => GrantLock(s, f)
    case Discovered(f, ads) => FinishDiscovery(s, f, ads)
    case Cancel(f) => CancelLeader(s, f)
    case Resume(t) => ResumeFollower(s, t)
  }

  function TakeAll(s: Scan, ms: seq<Move>): Scan {
    if ms == [] then s else Take(TakeAll(s, ms[..|ms| - 1]), ms[|ms| - 1])
  }

  // ----- the invariant -----

  /** A future that has been created. */
  predicate Created(s: Scan, f: Future) {
    f.serial < s.nextSerial
  }

  /** Signs carry their own key. */
  predicate Labelled(s: Scan) {
    forall k :: k in s.pending ==> s.pending[k].key == k
  }

  /** A sign stands for a created future whose leader is still there. */
  ghost predicate PendingOk(s: Scan) {
    && Labelled(s)
    && (forall k :: k in s.pending ==> Created(s, s.pending[k]))
    && (forall k :: k in s.pending ==> s.pending[k] in s.leaders)
  }

  /** A leader of an unanswered future keeps its sign up; only the lock's holder is scanning. */
  ghost predicate LeadersOk(s: Scan) {
    && (forall f :: f in s.leaders ==> Created(s, f))
    && (forall f :: f in s.leaders && f !in s.results ==> f.key in s.pending && s.pending[f.key] == f)
    && (forall f :: f in s.leaders ==> (s.leaders[f] == Scanning <==> s.lock == Some(f)))
    && (s.lock.Some? ==> s.lock.value in s.leaders)
  }

  /** Answers were given once. */
  ghost predicate AnswersOk(s: Scan) {
    && (forall f :: f in s.results ==> Created(s, f))
    && (forall f :: s.completions[f] == if f in s.results then 1 else 0)
  }

  ghost predicate FollowersOk(s: Scan) {
    forall t :: t in s.followers ==>
      t < s.nextTask && (s.followers[t] in s.results || s.followers[t] in s.leaders)
  }

  ghost predicate Core(s: Scan) {
    PendingOk(s) && LeadersOk(s) && AnswersOk(s) && FollowersOk(s)
  }

  ghost predicate Inv(s: Scan) {
    Core(s) && (s.lock.Some? ==> s.lock.value !in s.results)
  }

  lemma CompleteAnswers(s: Scan, fs: set<Future>, index: Index)
    ensures Complete(s, fs, index).results.Keys == s.results.Keys + fs
  {}

  lemma CompleteCounts(s: Scan, fs: set<Future>, index: Index)
    requires AnswersOk(s) && fs !! s.results.Keys && forall f :: f in fs ==> Created(s, f)
    ensures AnswersOk(Complete(s, fs, index))
  {
    CompleteAnswers(s, fs, index);
    var c := Complete(s, fs, index);
    hide Complete;
    forall f ensures c.completions[f] == if f in c.results.Keys then 1 else 0 {
      CountOne(s, fs, index, f);
    }
    forall f | f in c.results ensures Created(c, f) {
      assert f in c.results.Keys;
      CompleteKeepsSerial(s, fs, index);
    }
  }

  lemma CompleteKeepsSerial(s: Scan, fs: set<Future>, index: Index)
    ensures var c := Complete(s, fs, index);
            c.nextSerial == s.nextSerial && c.leaders == s.leaders && c.pending == s.pending
            && c.lock == s.lock && c.followers == s.followers && c.nextTask == s.nextTask
  {}

  lemma CountOne(s: Scan, fs: set<Future>, index: Index, f: Future)
    ensures Complete(s, fs, index).completions[f] == s.completions[f] + if f in fs then 1 else 0
  {}

  /** Answering more futures harms none of the other conditions. */
  lemma MoreAnswers(s: Scan, c: Scan)
    requires PendingOk(s) && LeadersOk(s) && FollowersOk(s)
    requires c.nextSerial == s.nextSerial && c.leaders == s.leaders && c.pending == s.pending
    requires c.lock == s.lock && c.followers == s.followers && c.nextTask == s.nextTask
    requires forall f :: f in s.results ==> f in c.results
    ensures PendingOk(c) && LeadersOk(c) && FollowersOk(c)
  {
    assert PendingOk(c) by { hide LeadersOk, FollowersOk; }
    assert FollowersOk(c) by { hide LeadersOk, PendingOk; }
    assert LeadersOk(c) by { hide FollowersOk, PendingOk; }
  }

  lemma CompleteKeeps(s: Scan, fs: set<Future>, index: Index)
    requires Core(s) && fs !! s.results.Keys && forall f :: f in fs ==> Created(s, f)
    ensures Core(Complete(s, fs, index))
    ensures Complete(s, fs, index).results.Keys == s.results.Keys + fs
  {
    hide AnswersOk, PendingOk, LeadersOk, FollowersOk;
    CompleteAnswers(s, fs, index);
    CompleteCounts(s, fs, index);
    CompleteKeepsSerial(s, fs, index);
    hide Complete;
    var c := Complete(s, fs, index);
    forall f | f in s.results ensures f in c.results {
      assert f in c.results.Keys;
    }
    MoreAnswers(s, c);
  }

  lemma DropKeeps(s: Scan, f: Future)
    requires Core(s) && f in s.leaders && f in s.results
    ensures Core(Drop(s, f))
  {
    var d := Drop(s, f);
    assert PendingOk(d) && FollowersOk(d) && AnswersOk(d);
    forall g | g in d.leaders && g !in d.results ensures g.key in d.pending && d.pending[g.key] == g {
      assert g != f;
    }
    assert LeadersOk(d);
  }

  lemma LeaveKeeps(s: Scan, f: Future)
    requires Inv(s) && f in s.leaders
    ensures Inv(Leave(s, f)) && f in Leave(s, f).results
  {
    hide PendingOk, LeadersOk, AnswersOk, FollowersOk;
    assert Created(s, f) by { LeaderCreated(s, f); }
    if f !in s.results {
      CompleteKeeps(s, {f}, NOTHING);
    }
    hide Complete;
    DropKeeps(if f in s.results then s else Complete(s, {f}, NOTHING), f);
  }

  lemma LeaderCreated(s: Scan, f: Future)
    requires LeadersOk(s) && f in s.leaders
    ensures Created(s, f)
  {}

  /** A future with a serial not handed out yet occurs nowhere. */
  lemma FreshFuture(s: Scan, f: Future)
    requires Inv(s) && !Created(s, f)
    ensures f !in s.results && f !in s.leaders && s.lock != Some(f)
    ensures forall k :: k in s.pending ==> s.pending[k] != f
  {
    hide FollowersOk;
  }

  lemma FollowKeeps(s: Scan, key: Address)
    requires Inv(s) && key in s.pending && s.pending[key] !in s.results
    ensures Inv(FindDevice(s, key))
  {
    assert s.pending[key] in s.leaders by { hide LeadersOk, AnswersOk, FollowersOk; }
    var n := FindDevice(s, key);
    assert FollowersOk(n) by { hide PendingOk, LeadersOk, AnswersOk; }
    hide FollowersOk;
    assert PendingOk(n) by { hide LeadersOk, AnswersOk; }
    assert LeadersOk(n) by { hide PendingOk, AnswersOk; }
    assert AnswersOk(n) by { hide PendingOk, LeadersOk; }
  }

  lemma LeadKeeps(s: Scan, key: Address)
    requires Inv(s) && (key in s.pending ==> s.pending[key] in s.results)
    ensures Inv(FindDevice(s, key))
  {
    var n, f := FindDevice(s, key), Future(key, s.nextSerial);
    FreshFuture(s, f);
    assert AnswersOk(n) by { hide PendingOk, LeadersOk, FollowersOk; }
    assert FollowersOk(n) by { hide PendingOk, LeadersOk, AnswersOk; }
    hide AnswersOk, FollowersOk;
    assert PendingOk(n) by { hide LeadersOk; }
    forall g | g in n.leaders && g !in n.results ensures g.key in n.pending && n.pending[g.key] == g {
      if g != f {
        assert g in s.leaders && g !in s.results && s.pending[g.key] == g;
      }
    }
    assert LeadersOk(n) by { hide PendingOk; }
  }

  lemma FindKeeps(s: Scan, key: Address)
    requires Inv(s)
    ensures Inv(FindDevice(s, key))
  {
    hide Inv, FindDevice;
    if key in s.pending && s.pending[key] !in s.results {
      FollowKeeps(s, key);
    } else {
      LeadKeeps(s, key);
    }
  }

  lemma GrantKeeps(s: Scan, f: Future)
    requires Inv(s)
    ensures Inv(GrantLock(s, f))
  {
    hide Leave;
    var n := GrantLock(s, f);
    if f in s.leaders && f in s.results {
      LeaveKeeps(s, f);
    } else if n != s {
      assert PendingOk(n) && LeadersOk(n) && AnswersOk(n) && FollowersOk(n);
    }
  }

  /** A discovery answers every leader there is. */
  lemma DiscoveryAnswers(s: Scan, index: Index)
    requires Inv(s)
    ensures var c := Complete(s, Waiting(s), index);
            && Core(c) && c.results.Keys == s.results.Keys + Waiting(s)
            && forall g :: g in s.leaders ==> g in c.results
  {
    hide AnswersOk, FollowersOk;
    var w := Waiting(s);
    CompleteKeeps(s, w, index);
    forall g | g in s.leaders ensures g in s.results || g in w {
      if g !in s.results { assert g.key in s.pending; }
    }
  }

  lemma FinishKeeps(s: Scan, f: Future, ads: seq<Advert>)
    requires Inv(s)
    ensures Inv(FinishDiscovery(s, f, ads))
  {
    if f in s.leaders && s.leaders[f] == Scanning {
      var index := IndexOf(ads);
      DiscoveryAnswers(s, index);
      var c := Complete(s, Waiting(s), index);
      HolderIs(s, f);
      hide Core, Waiting;
      DropKeeps(c, f);
    }
  }

  lemma HolderIs(s: Scan, f: Future)
    requires Inv(s) && f in s.leaders && s.leaders[f] == Scanning
    ensures s.lock == Some(f)
  {}

  lemma {:induction false} EveryRunKeeps(ms: seq<Move>)
    ensures Inv(TakeAll(IDLE, ms))
  {
    hide Inv, Leave, FindDevice, GrantLock, FinishDiscovery, ResumeFollower;
    if ms == [] {
      IdleInv();
    } else {
      var s := TakeAll(IDLE, ms[..|ms| - 1]);
      EveryRunKeeps(ms[..|ms| - 1]);
      match ms[|ms| - 1] {
        case Find(key) => FindKeeps(s, key);
        case Grant(f) => GrantKeeps(s, f);
        case Discovered(f, ads) => FinishKeeps(s, f, ads);
        case Cancel(f) => if f in s.leaders { LeaveKeeps(s, f); }
        case Resume(t) => ResumeKeeps(s, t);
      }
    }
  }

  lemma IdleInv()
    ensures Inv(IDLE)
  {}

  lemma ResumeKeeps(s: Scan, t: nat)
    requires Inv(s)
    ensures Inv(ResumeFollower(s, t))
  {}

  // ----- the main results -----

  /** Where every created future stands: answered exactly once, or unanswered with its leader alive; and
      no leader leaves its sign behind. */
  lemma {:induction false} EveryFutureHasALeaderOrAnAnswer(ms: seq<Move>, f: Future)
    ensures var s := TakeAll(IDLE, ms);
            && s.completions[f] <= 1
            && (f in s.results <==> s.completions[f] == 1)
            && (f.key in s.pending && s.pending[f.key] == f ==> f in s.leaders)
            && (forall t :: t in s.followers && s.followers[t] == f ==> f in s.results || f in s.leaders)
  {
    hide TakeAll;
    EveryRunKeeps(ms);
  }

  /** A caller that waits goes on exactly when its future has an answer. */
  lemma {:induction false} FollowersGoOnAnswered(ms: seq<Move>, m: Move, t: nat)
    requires t in TakeAll(IDLE, ms).followers
    ensures var s, r := TakeAll(IDLE, ms), TakeAll(IDLE, ms + [m]);
            t !in r.followers <==> m == Resume(t) && s.followers[t] in s.results
  {
    var s := TakeAll(IDLE, ms);
    assert (ms + [m])[..|ms|] == ms;
    assert TakeAll(IDLE, ms + [m]) == Take(s, m);
    hide TakeAll, Lookup, Waiting, IndexOf;
  }

  /** At most one leader is inside a discovery. */
  lemma {:induction false} OneDiscoveryAtATime(ms: seq<Move>, f: Future, g: Future)
    requires var s := TakeAll(IDLE, ms);
             f in s.leaders && g in s.leaders && s.leaders[f] == Scanning && s.leaders[g] == Scanning
    ensures f == g
  {
    hide TakeAll;
    EveryRunKeeps(ms);
  }

  /** The last advertisement of this address is number i. */
  ghost predicate LastUnder(ads: seq<Advert>, key: Address, i: int) {
    && 0 <= i < |ads| && ads[i].address == key
    && forall j :: i < j < |ads| ==> ads[j].address != key
  }

  /** The last advertisement whose service data carry this address is number i. */
  ghost predicate LastCarrying(ads: seq<Advert>, key: Address, i: int) {
    && 0 <= i < |ads| && ads[i].mac == Some(key)
    && forall j :: i < j < |ads| ==> ads[j].mac != Some(key)
  }

  ghost predicate Advertised(ads: seq<Advert>, key: Address) {
    exists i :: 0 <= i < |ads| && ads[i].address == key
  }

  ghost predicate Carried(ads: seq<Advert>, key: Address) {
    exists i :: 0 <= i < |ads| && ads[i].mac == Some(key)
  }

  /** r answers the search for a key: the device last advertised under it, failing that the one last
      heard to carry it, failing that none. */
  ghost predicate Answers(ads: seq<Advert>, key: Address, r: Option<Device>) {
    if Advertised(ads, key) then exists i :: LastUnder(ads, key, i) && r == Some(ads[i].device)
    else if Carried(ads, key) then exists i :: LastCarrying(ads, key, i) && r == Some(ads[i].device)
    else r == None
  }

  lemma {:induction false} IndexedByAddress(ads: seq<Advert>, key: Address)
    ensures var m := IndexOf(ads).byAddress;
            && (key in m <==> Advertised(ads, key))
            && (key in m ==> exists i :: LastUnder(ads, key, i) && m[key] == ads[i].device)
  {
    if ads != [] {
      var n := |ads| - 1;
      var init := ads[..n];
      IndexedByAddress(init, key);
      assert forall k :: 0 <= k < n ==> init[k] == ads[k];
      if ads[n].address == key {
        assert LastUnder(ads, key, n);
      } else if Advertised(ads, key) {
        var q :| 0 <= q < |ads| && ads[q].address == key;
        assert init[q].address == key;
        var i :| LastUnder(init, key, i) && IndexOf(init).byAddress[key] == init[i].device;
        assert LastUnder(ads, key, i);
      }
    }
  }

  lemma {:induction false} IndexedByMac(ads: seq<Advert>, key: Address)
    ensures var m := IndexOf(ads).byMac;
            && (key in m <==> Carried(ads, key))
            && (key in m ==> exists i :: LastCarrying(ads, key, i) && m[key] == ads[i].device)
  {
    if ads != [] {
      var n := |ads| - 1;
      var init := ads[..n];
      IndexedByMac(init, key);
      assert forall k :: 0 <= k < n ==> init[k] == ads[k];
      if ads[n].mac == Some(key) {
        assert LastCarrying(ads, key, n);
      } else if Carried(ads, key) {
        var q :| 0 <= q < |ads| && ads[q].mac == Some(key);
        assert init[q].mac == Some(key);
        var i :| LastCarrying(init, key, i) && IndexOf(init).byMac[key] == init[i].device;
        assert LastCarrying(ads, key, i);
      }
    }
  }

  lemma {:induction false} LookupAnswers(ads: seq<Advert>, key: Address)
    ensures Answers(ads, key, Lookup(IndexOf(ads), key))
  {
    hide IndexOf, LastUnder, LastCarrying, Advertised, Carried;
    IndexedByAddress(ads, key);
    IndexedByMac(ads, key);
  }

  lemma {:induction false} DiscoveryGives(ms: seq<Move>, f: Future, ads: seq<Advert>)
    requires var s := TakeAll(IDLE, ms); f in s.leaders && s.leaders[f] == Scanning
    ensures var s, r := TakeAll(IDLE, ms), TakeAll(IDLE, ms + [Discovered(f, ads)]);
            && (forall g :: g in s.leaders && g !in s.results ==>
                  g in r.results && r.results[g] == Lookup(IndexOf(ads), g.key))
            && (forall t :: t in r.followers ==> r.followers[t] in r.results)
            && (forall g :: g in s.results ==> g in r.results && r.results[g] == s.results[g])
  {
    var s, index := TakeAll(IDLE, ms), IndexOf(ads);
    assert (ms + [Discovered(f, ads)])[..|ms|] == ms;
    assert TakeAll(IDLE, ms + [Discovered(f, ads)]) == FinishDiscovery(s, f, ads);
    hide TakeAll, IndexOf, Lookup;
    EveryRunKeeps(ms);
    DiscoveryAnswers(s, index);
    forall g | g in s.leaders && g !in s.results ensures g in Waiting(s) {
      assert g.key in s.pending;
    }
  }

  /**
   * One discovery answers everyone.  When it ends, every future still unanswered gets a device
   * advertised under its address if there is one (the last such), failing that one whose service data
   * carry its address, and none exactly if there is neither; no caller is left on an unanswered future,
   * and no answer given before is changed.
   */
  lemma {:induction false} OneDiscoveryAnswersAll(ms: seq<Move>, f: Future, ads: seq<Advert>)
    requires var s := TakeAll(IDLE, ms); f in s.leaders && s.leaders[f] == Scanning
    ensures var s, r := TakeAll(IDLE, ms), TakeAll(IDLE, ms + [Discovered(f, ads)]);
            && (forall g :: g in s.leaders && g !in s.results ==>
                  g in r.results && Answers(ads, g.key, r.results[g]))
            && (forall t :: t in r.followers ==> r.followers[t] in r.results)
            && (forall g :: g in s.results ==> g in r.results && r.results[g] == s.results[g])
  {
    hide TakeAll, Answers, Lookup, IndexOf;
    DiscoveryGives(ms, f, ads);
    forall key ensures Answers(ads, key, Lookup(IndexOf(ads), key)) { LookupAnswers(ads, key); }
  }

  /** A leader that is cancelled before it has an answer leaves "nothing found" for those who share its
      future, and no other answer. */
  lemma {:induction false} CancelledLeaderFindsNothing(ms: seq<Move>, f: Future)
    requires f in TakeAll(IDLE, ms).leaders
    ensures var s, r := TakeAll(IDLE, ms), TakeAll(IDLE, ms + [Cancel(f)]);
            r.results == if f in s.results then s.results else s.results[f := None]
  {
    var s := TakeAll(IDLE, ms);
    assert (ms + [Cancel(f)])[..|ms|] == ms;
    assert TakeAll(IDLE, ms + [Cancel(f)]) == CancelLeader(s, f);
    hide TakeAll;
    assert s.results + (map g | g in {f} :: Lookup(NOTHING, g.key)) == s.results[f := None];
  }

  /** Every caller is served: it waits for the unanswered future of its key if that has a leader, and
      otherwise becomes the leader of a new one. */
  lemma {:induction false} EveryCallerWaitsOrLeads(ms: seq<Move>, key: Address)
    ensures var s, r := TakeAll(IDLE, ms), TakeAll(IDLE, ms + [Find(key)]);
            && r.results == s.results
            && (forall f :: f in s.leaders && f !in s.results && f.key == key ==>
                  r.leaders == s.leaders && r.followers == s.followers[s.nextTask := f] && s.nextTask !in s.followers)
            && ((forall f :: f in s.leaders && f !in s.results ==> f.key != key) ==>
                  && r.followers == s.followers
                  && exists f :: f !in s.leaders && f !in s.results && f.key == key
                                 && r.leaders == s.leaders[f := Queued])
  {
    var s := TakeAll(IDLE, ms);
    assert (ms + [Find(key)])[..|ms|] == ms;
    assert TakeAll(IDLE, ms + [Find(key)]) == FindDevice(s, key);
    hide TakeAll;
    EveryRunKeeps(ms);
    FreshFuture(s, Future(key, s.nextSerial));
    var r := FindDevice(s, key);
    if key in s.pending && s.pending[key] !in s.results {
      assert s.pending[key] in s.leaders && s.pending[key].key == key;
    } else {
      assert r.leaders == s.leaders[Future(key, s.nextSerial) := Queued];
    }
  }

  /** Callers for one key share one search: it never has two unanswered leaders; and a discovery only
      runs for a leader whose future has no answer yet. */
  lemma {:induction false} NoNeedlessScan(ms: seq<Move>, f: Future, g: Future)
    requires var s := TakeAll(IDLE, ms); f in s.leaders && g in s.leaders
    ensures var s := TakeAll(IDLE, ms); f !in s.results && g !in s.results && f.key == g.key ==> f == g
    ensures var s := TakeAll(IDLE, ms); s.leaders[f] == Scanning ==> f !in s.results
  {
    hide TakeAll;
    EveryRunKeeps(ms);
  }

  /** However a leader leaves (lock granted too late, discovery done, failed or cancelled), its
      future is answered. */
  lemma {:induction false} LeavingAnswers(ms: seq<Move>, m: Move, f: Future)
    requires f in TakeAll(IDLE, ms).leaders && f !in TakeAll(IDLE, ms + [m]).leaders
    ensures f in TakeAll(IDLE, ms + [m]).results
  {
    var s := TakeAll(IDLE, ms);
    assert (ms + [m])[..|ms|] == ms;
    assert TakeAll(IDLE, ms + [m]) == Take(s, m);
    hide TakeAll, Leave, Complete, Waiting;
    match m {
      case Grant(g) => LeaveRemovesOnly(s, g); LeaveAnswers(s, g);
      case Cancel(g) => LeaveRemovesOnly(s, g); LeaveAnswers(s, g);
      case Discovered(g, ads) =>
        var index := IndexOf(ads);
        CompleteKeepsSerial(s, Waiting(s), index);
        LeaveRemovesOnly(Complete(s, Waiting(s), index), g);
        LeaveAnswers(Complete(s, Waiting(s), index), g);
      case _ =>
    }
  }

  lemma LeaveRemovesOnly(s: Scan, f: Future)
    ensures Leave(s, f).leaders == s.leaders - {f}
  {}

  lemma LeaveAnswers(s: Scan, f: Future)
    ensures f in Leave(s, f).results
  {}

  // ----- nobody waits forever -----

  /** Steps the present leaders can still take. */
  function Remaining(s: Scan): int {
    2 * |s.leaders| - if s.lock.Some? then 1 else 0
  }

  /** A leader's move that is possible now. */
  predicate Enabled(s: Scan, m: Move) {
    match m
    case Grant(f) => f in s.leaders && s.leaders[f] == Queued && s.lock.None?
    case Discovered(f, _) => f in s.leaders && s.leaders[f] == Scanning
    case Cancel(f) => f in s.leaders
    case _ => false
  }

  lemma LeaveDecreases(s: Scan, f: Future)
    requires f in s.leaders
    ensures Remaining(Leave(s, f)) < Remaining(s)
  {
    assert s.leaders.Keys == (s.leaders - {f}).Keys + {f};
    assert |s.leaders.Keys| == |(s.leaders - {f}).Keys| + 1;
    assert |s.leaders| == |s.leaders.Keys| && |s.leaders - {f}| == |(s.leaders - {f}).Keys|;
  }

  lemma EnabledDecreases(s: Scan, m: Move)
    requires Enabled(s, m)
    ensures Remaining(Take(s, m)) < Remaining(s)
  {
    hide Leave;
    match m {
      case Grant(f) =>
        if f in s.results { LeaveDecreases(s, f); }
        else { assert s.leaders[f := Scanning].Keys == s.leaders.Keys; }
      case Discovered(f, ads) => LeaveDecreases(Complete(s, Waiting(s), IndexOf(ads)), f);
      case Cancel(f) => LeaveDecreases(s, f);
    }
  }

  /** While a leader is alive some leader can move: the lock is never lost. */
  lemma {:induction false} SomeLeaderCanMove(ms: seq<Move>)
    requires TakeAll(IDLE, ms).leaders != map[]
    ensures exists m :: Enabled(TakeAll(IDLE, ms), m) && !m.Cancel?
  {
    var s := TakeAll(IDLE, ms);
    EveryRunKeeps(ms);
    if s.lock.Some? {
      assert Enabled(s, Discovered(s.lock.value, []));
    } else {
      var f :| f in s.leaders;
      assert Enabled(s, Grant(f));
    }
  }

  /** Every move of ms was a leader's, and possible when it was taken. */
  ghost predicate LeadersOnly(s: Scan, ms: seq<Move>) {
    forall k {:trigger ms[k]} :: 0 <= k < |ms| ==> Enabled(TakeAll(s, ms[..k]), ms[k])
  }

  lemma {:induction false} LeadersRunOut(s: Scan, ms: seq<Move>)
    requires LeadersOnly(s, ms)
    ensures Remaining(TakeAll(s, ms)) <= Remaining(s) - |ms|
  {
    hide Enabled, Take, Remaining;
    if ms != [] {
      var n := |ms| - 1;
      var init := ms[..n];
      forall k | 0 <= k < n ensures Enabled(TakeAll(s, init[..k]), init[k]) {
        assert init[..k] == ms[..k] && init[k] == ms[k];
      }
      LeadersRunOut(s, init);
      assert Enabled(TakeAll(s, init), ms[n]);
      EnabledDecreases(TakeAll(s, init), ms[n]);
    }
  }

  lemma {:induction false} TakeAllConcat(s: Scan, a: seq<Move>, b: seq<Move>)
    ensures TakeAll(s, a + b) == TakeAll(TakeAll(s, a), b)
  {
    hide Take;
    if b == [] {
      assert a + b == a;
    } else {
      assert (a + b)[..|a + b| - 1] == a + b[..|b| - 1];
      TakeAllConcat(s, a, b[..|b| - 1]);
    }
  }

  /**
   * No follower waits forever.  From any reachable state the leaders can take at most
   * 2 * |leaders| further steps; as long as one is alive a step is possible; and when none is
   * left every caller's future is answered.
   */
  lemma {:induction false} NoFollowerWaitsForever(ms: seq<Move>, more: seq<Move>)
    requires LeadersOnly(TakeAll(IDLE, ms), more)
    ensures |more| <= 2 * |TakeAll(IDLE, ms).leaders|
    ensures var r := TakeAll(IDLE, ms + more);
            && (r.leaders != map[] ==> exists m :: Enabled(r, m) && !m.Cancel?)
            && (r.leaders == map[] ==> forall t :: t in r.followers ==> r.followers[t] in r.results)
  {
    TakeAllConcat(IDLE, ms, more);
    LeadersRunOut(TakeAll(IDLE, ms), more);
    LockBounded(ms + more);
    EveryRunKeeps(ms + more);
    if TakeAll(IDLE, ms + more).leaders != map[] {
      SomeLeaderCanMove(ms + more);
    }
  }

  /** A held lock has a leader, so the count of remaining steps is never negative. */
  lemma {:induction false} LockBounded(ms: seq<Move>)
    ensures Remaining(TakeAll(IDLE, ms)) >= 0
  {
    var s := TakeAll(IDLE, ms);
    EveryRunKeeps(ms);
    if s.lock.Some? {
      assert s.lock.value in s.leaders.Keys;
    }
  }
}

/** The coordinator's scan bookkeeping, updated in place between suspension points. */
module ScanCoordinator {
  import opened Common
  import opened ScanMerge

  /** The waiters answered so far are those whose keys the loop has passed. */
  ghost predicate AnsweredOutside(s: Scan, answered: set<Future>, keys: set<Address>) {
    forall f :: f in answered <==> f in Waiting(s) && f.key !in keys
  }

  /** A key whose future already has an answer adds no waiter. */
  lemma WaitersDone(s: Scan, answered: set<Future>, keys: set<Address>, k: Address, index: Index)
    requires Labelled(s) && k in s.pending && k !in keys
    requires AnsweredOutside(s, answered, keys + {k})
    requires s.pending[k] in Complete(s, answered, index).results
    ensures AnsweredOutside(s, answered, keys)
  {
    assert s.pending[k] !in answered;
    forall f ensures f in answered <==> f in Waiting(s) && f.key !in keys {}
  }

  /** A key whose future has no answer adds exactly that waiter. */
  lemma OneMoreWaiter(s: Scan, answered: set<Future>, keys: set<Address>, k: Address, index: Index)
    requires Labelled(s) && k in s.pending && k !in keys
    requires AnsweredOutside(s, answered, keys + {k})
    requires s.pending[k] !in Complete(s, answered, index).results
    ensures var f := s.pending[k];
            var c := Complete(s, answered, index);
            && AnsweredOutside(s, answered + {f}, keys)
            && c.(results := c.results[f := Lookup(index, k)], completions := c.completions + multiset{f})
               == Complete(s, answered + {f}, index)
  {
    var f := s.pending[k];
    assert f.key == k && f !in answered && f !in s.results;
    OneMoreAnswer(s, answered, f, index);
    hide Complete;
    forall g ensures g in answered + {f} <==> g in Waiting(s) && g.key !in keys {}
  }

  lemma OneMoreAnswer(s: Scan, answered: set<Future>, f: Future, index: Index)
    requires f !in answered
    ensures var c := Complete(s, answered, index);
            c.(results := c.results[f := Lookup(index, f.key)], completions := c.completions + multiset{f})
              == Complete(s, answered + {f}, index)
  {
    hide Lookup;
    assert multiset(answered + {f}) == multiset(answered) + multiset{f};
    assert s.results + (map g | g in answered + {f} :: Lookup(index, g.key))
        == (s.results + map g | g in answered :: Lookup(index, g.key))[f := Lookup(index, f.key)];
  }

  lemma NobodyAnswered(s: Scan, index: Index)
    ensures Complete(s, {}, index) == s && (Labelled(s) ==> AnsweredOutside(s, {}, s.pending.Keys))
  {
    assert Complete(s, {}, index).results == s.results;
  }

  lemma EverybodyAnswered(s: Scan, answered: set<Future>)
    requires AnsweredOutside(s, answered, {})
    ensures answered == Waiting(s)
  {}

  class Coordinator {
    var pending: map<Address, Future>
    var results: map<Future, Option<Device>>
    ghost var completions: multiset<Future>
    var leaders: map<Future, Phase>
    var lock: Option<Future>
    var followers: map<nat, Future>
    var nextSerial: nat
    var nextTask: nat

    ghost function Value(): Scan
      reads this
    {
      Scan(pending, results, completions, leaders, lock, followers, nextSerial, nextTask)
    }

    constructor ()
      ensures Value() == IDLE
    {
      pending, results, completions, leaders, lock := map[], map[], multiset{}, map[], None;
      followers, nextSerial, nextTask := map[], 0, 0;
    }

    method SetResult(f: Future, dev: Option<Device>)
      requires f !in results
      modifies this`results, this`completions
      ensures results == old(results)[f := dev] && completions == old(completions) + multiset{f}
    {
      results := results[f := dev];
      completions := completions + multiset{f};
    }

    /** find_device up to its first suspension. */
    method FindDevice(key: Address)
      modifies this
      ensures Value() == ScanMerge.FindDevice(old(Value()), key)
    {
      if key in pending {
        var shared := pending[key];
        if shared !in results {
          followers := followers[nextTask := shared];
          nextTask := nextTask + 1;
          return;
        }
      }
      var fut := Future(key, nextSerial);
      nextSerial := nextSerial + 1;
      pending := pending[key := fut];
      leaders := leaders[fut := Queued];
    }

    method DropLeader(f: Future)
      modifies this`pending, this`leaders, this`lock
      ensures Value() == Drop(old(Value()), f)
    {
      if f.key in pending && pending[f.key] == f {
        pending := pending - {f.key};
      }
      leaders := leaders - {f};
      if lock == Some(f) {
        lock := None;
      }
    }

    /** The leader's `finally` block and the release of the lock, in one atomic stretch. */
    method Leave(f: Future)
      modifies this`pending, this`results, this`completions, this`leaders, this`lock
      ensures Value() == ScanMerge.Leave(old(Value()), f)
    {
      hide Drop;
      if f !in results {
        AnswerOne(f, NOTHING);
      }
      DropLeader(f);
    }

    method AnswerOne(f: Future, index: Index)
      requires f !in results
      modifies this`results, this`completions
      ensures Value() == Complete(old(Value()), {f}, index)
    {
      SetResult(f, Lookup(index, f.key));
      assert results == old(results) + map g | g in {f} :: Lookup(index, g.key);
    }

    method LockGranted(f: Future)
      modifies this
      ensures Value() == GrantLock(old(Value()), f)
    {
      if f !in leaders || leaders[f] != Queued || lock.Some? {
        return;
      }
      if f in results {
        Leave(f);
        return;
      }
      lock := Some(f);
      leaders := leaders[f := Scanning];
    }

    /** The loop that answers every waiter from one index. */
    method AnswerWaiters(index: Index)
      requires Labelled(Value())
      modifies this`results, this`completions
      ensures Value() == Complete(old(Value()), Waiting(old(Value())), index)
    {
      hide Complete, Waiting, AnsweredOutside;
      ghost var before := Value();
      var keys := pending.Keys;
      ghost var answered: set<Future> := {};
      NobodyAnswered(before, index);
      while keys != {}
        invariant pending == before.pending && keys <= pending.Keys
        invariant Value() == Complete(before, answered, index)
        invariant AnsweredOutside(before, answered, keys)
        decreases |keys|
      {
        var k :| k in keys;
        var rest := keys - {k};
        assert keys == rest + {k};
        var waiter := pending[k];
        if waiter in results {
          WaitersDone(before, answered, rest, k, index);
        } else {
          OneMoreWaiter(before, answered, rest, k, index);
          SetResult(waiter, Lookup(index, k));
          answered := answered + {waiter};
        }
        keys := rest;
      }
      EverybodyAnswered(before, answered);
    }

    /** The loop over what was heard. */
    method BuildIndex(ads: seq<Advert>) returns (index: Index)
      ensures index == IndexOf(ads)
    {
      index := NOTHING;
      for k := 0 to |ads|
        invariant index == IndexOf(ads[..k])
      {
        assert ads[..k + 1][..k] == ads[..k];
        var a := ads[k];
        index := index.(byAddress := index.byAddress[a.address := a.device]);
        if a.mac.Some? {
          index := index.(byMac := index.byMac[a.mac.value := a.device]);
        }
      }
      assert ads[..|ads|] == ads;
    }

    method DiscoveryReturned(f: Future, ads: seq<Advert>)
      requires Labelled(Value())
      modifies this
      ensures Value() == FinishDiscovery(old(Value()), f, ads)
    {
      if f !in leaders || leaders[f] != Scanning {
        return;
      }
      var index := BuildIndex(ads);
      AnswerWaiters(index);
      Leave(f);
    }

    method LeaderCancelled(f: Future)
      modifies this
      ensures Value() == CancelLeader(old(Value()), f)
    {
      if f !in leaders {
        return;
      }
      Leave(f);
    }

    method FollowerResumed(task: nat)
      modifies this
      ensures Value() == ResumeFollower(old(Value()), task)
    {
      if task in followers && followers[task] in results {
        followers := followers - {task};
      }
    }
  }
}
