/**
 * Database rows of charge sessions under asynchronous registration.
 *
 * A session opens at once; its row is inserted by a worker later, and a callback registers the
 * row's id later still.  In between the session may have closed and others opened.  The value
 * `Rows` is the manager's bookkeeping plus what the database has been asked to do; each `Move` is
 * one atomic step of the event loop or of a worker.
 */
module SessionRows {
  /** A call of start_session handed to the worker pool, and what came of it. */
  datatype Outcome = Requested | Failed | Inserted(sid: int)

  /** Who asked: an opening session, or resumed recording for a placeholder id. */
  datatype Task =
    | ForStart(port: int, outcome: Outcome)
    | ForResume(port: int, fake: int, outcome: Outcome)

  datatype Rows = Rows(
    charging: set<int>,
    active: map<int, int>,
    tasks: map<nat, Task>, nextTask: nat,
    rows: set<int>, nextSid: int,
    scheduled: multiset<int>)

  datatype Move =
    /** A session opens on an idle port. */
    | Start(port: int)
    /** A worker runs the insert; `ok` is false when the database fails. */
    | Insert(id: nat, ok: bool)
    /** The callback of a finished insert runs on the event loop. */
    | Callback(id: nat)
    /** The port's session closes. */
    | Close(port: int)
    /** Recording is switched on: placeholders among `ports` ask for real rows. */
    | Resume(ports: seq<int>)

  /** Hands a task to the worker pool. */
  function Submit(s: Rows, t: Task): Rows {
    s.(tasks := s.tasks[s.nextTask := t], nextTask := s.nextTask + 1)
  }

  function StartSession(s: Rows, p: int): Rows {
    if p in s.charging then s else Submit(s.(charging := s.charging + {p}), ForStart(p, Requested))
  }

  function InsertRow(s: Rows, id: nat, ok: bool): Rows {
    if id !in s.tasks || s.tasks[id].outcome != Requested then s
    else if !ok then s.(tasks := s.tasks[id := s.tasks[id].(outcome := Failed)])
    else s.(tasks := s.tasks[id := s.tasks[id].(outcome := Inserted(s.nextSid))],
            rows := s.rows + {s.nextSid}, nextSid := s.nextSid + 1)
  }

  /** Whether the port still waits for the row this task inserted. */
  predicate Awaited(s: Rows, t: Task) {
    && t.port in s.charging
    && match t
       case ForStart(p, _) => p !in s.active
       case ForResume(p, fake, _) => p in s.active && s.active[p] == fake
  }

  function RunCallback(s: Rows, id: nat): Rows {
    if id !in s.tasks || s.tasks[id].outcome == Requested then s
    else
      var t := s.tasks[id];
      var d := s.(tasks := s.tasks - {id});
      if t.outcome == Failed then d
      else if Awaited(s, t) then d.(active := s.active[t.port := t.outcome.sid])
      else d.(scheduled := s.scheduled + multiset{t.outcome.sid})
  }

  function CloseSession(s: Rows, p: int): Rows {
    if p !in s.active && p !in s.charging then s
    else
      var d := s.(active := s.active - {p}, charging := s.charging - {p});
      if p in s.active && s.active[p] > 0 then d.(scheduled := s.scheduled + multiset{s.active[p]}) else d
  }

  function ResumeOne(s: Rows, p: int): Rows {
    if p in s.active && s.active[p] < 0 && p in s.charging
    then Submit(s, ForResume(p, s.active[p], Requested)) else s
  }

  function ResumeRecording(s: Rows, ports: seq<int>): Rows {
    if ports == [] then s else ResumeOne(ResumeRecording(s, ports[..|ports| - 1]), ports[|ports| - 1])
  }

  function Take(s: Rows, m: Move): Rows {
    match m
    case Start(p) => StartSession(s, p)
    case Insert(id, ok) => InsertRow(s, id, ok)
    case Callback(id) => RunCallback(s, id)
    case Close(p) => CloseSession(s, p)
    case Resume(ports) => ResumeRecording(s, ports)
  }

  function TakeAll(s: Rows, ms: seq<Move>): Rows {
    if ms == [] then s else Take(TakeAll(s, ms[..|ms| - 1]), ms[|ms| - 1])
  }

  // ----- the invariant -----

  ghost predicate InFlight(s: Rows, sid: int) {
    exists id :: id in s.tasks && s.tasks[id].outcome == Inserted(sid)
  }

  ghost predicate Registered(s: Rows, sid: int) {
    exists p :: p in s.active && s.active[p] == sid
  }

  /** Task ids and row ids are handed out once. */
  ghost predicate Numbered(s: Rows) {
    && (forall id :: id in s.tasks ==> id < s.nextTask)
    && (forall sid :: sid in s.rows ==> 0 < sid < s.nextSid)
    && 0 < s.nextSid
  }

  /** Registered ids belong to charging ports and are the ports' own. */
  ghost predicate RegistryOk(s: Rows) {
    && (forall p :: p in s.active ==> p in s.charging && (s.active[p] > 0 ==> s.active[p] in s.rows))
    && (forall p, q :: p in s.active && q in s.active && s.active[p] == s.active[q] > 0 ==> p == q)
  }

  /** An inserted row in flight is one task's alone and registered nowhere. */
  ghost predicate TasksOk(s: Rows) {
    && (forall id :: id in s.tasks && s.tasks[id].outcome.Inserted? ==>
          s.tasks[id].outcome.sid in s.rows && !Registered(s, s.tasks[id].outcome.sid))
    && (forall i, j ::
          i in s.tasks && j in s.tasks && s.tasks[i].outcome.Inserted? && i != j
          ==> s.tasks[i].outcome != s.tasks[j].outcome)
    && (forall id :: id in s.tasks && s.tasks[id].ForResume? ==> s.tasks[id].fake < 0)
  }

  /** A row has been ended or deleted exactly once, unless it is in flight or registered. */
  ghost predicate RowsOk(s: Rows) {
    && (forall sid :: sid in s.rows ==>
          s.scheduled[sid] == if InFlight(s, sid) || Registered(s, sid) then 0 else 1)
    && (forall sid :: sid !in s.rows ==> s.scheduled[sid] == 0)
  }

  ghost predicate Inv(s: Rows) {
    Numbered(s) && RegistryOk(s) && TasksOk(s) && RowsOk(s)
  }

  /** Recording has just been switched on: charging ports hold placeholders, nothing is recorded. */
  ghost predicate RecordingJustOn(s: Rows) {
    && s.tasks == map[] && s.rows == {} && s.scheduled == multiset{} && s.nextSid > 0
    && forall p :: p in s.active ==> p in s.charging && s.active[p] < 0
  }

  // ----- every move keeps it -----

  lemma SubmitKeeps(s: Rows, t: Task)
    requires Inv(s) && t.outcome == Requested && (t.ForResume? ==> t.fake < 0)
    ensures Inv(Submit(s, t))
  {
    var n := Submit(s, t);
    forall sid ensures InFlight(n, sid) == InFlight(s, sid) && Registered(n, sid) == Registered(s, sid) {
      if InFlight(s, sid) {
        var id :| id in s.tasks && s.tasks[id].outcome == Inserted(sid);
        assert n.tasks[id] == s.tasks[id];
      }
    }
  }

  lemma StartKeeps(s: Rows, p: int)
    requires Inv(s)
    ensures Inv(StartSession(s, p))
  {
    if p !in s.charging {
      var c := s.(charging := s.charging + {p});
      assert Inv(c) by {
        assert forall sid :: InFlight(c, sid) == InFlight(s, sid) && Registered(c, sid) == Registered(s, sid);
      }
      SubmitKeeps(c, ForStart(p, Requested));
    }
  }

  lemma InsertKeeps(s: Rows, id: nat, ok: bool)
    requires Inv(s)
    ensures Inv(InsertRow(s, id, ok))
  {
    var n := InsertRow(s, id, ok);
    if n != s {
      forall sid | sid in s.rows
        ensures InFlight(n, sid) == InFlight(s, sid) && Registered(n, sid) == Registered(s, sid)
      {
        if InFlight(s, sid) {
          var i :| i in s.tasks && s.tasks[i].outcome == Inserted(sid);
          assert n.tasks[i] == s.tasks[i];
        }
      }
      if ok {
        assert n.tasks[id].outcome == Inserted(s.nextSid);
        assert InFlight(n, s.nextSid);
        assert !Registered(n, s.nextSid);
      }
    }
  }

  lemma CallbackKeeps(s: Rows, id: nat)
    requires Inv(s)
    ensures Inv(RunCallback(s, id))
  {
    var n := RunCallback(s, id);
    if n != s {
      var t := s.tasks[id];
      forall other | !(t.outcome == Inserted(other)) ensures InFlight(n, other) == InFlight(s, other) {
        if InFlight(s, other) {
          var i :| i in s.tasks && s.tasks[i].outcome == Inserted(other);
          assert i in n.tasks;
        }
      }
      if t.outcome.Inserted? {
        var sid := t.outcome.sid;
        assert InFlight(s, sid) && !InFlight(n, sid);
        if Awaited(s, t) {
          assert n.active[t.port] == sid;
          forall other | other != sid && other > 0 ensures Registered(n, other) == Registered(s, other) {
            if Registered(s, other) {
              var p :| p in s.active && s.active[p] == other;
              assert p != t.port && n.active[p] == other;
            }
          }
        } else {
          assert forall other :: Registered(n, other) == Registered(s, other);
        }
      }
    }
  }

  lemma CloseKeeps(s: Rows, p: int)
    requires Inv(s)
    ensures Inv(CloseSession(s, p))
  {
    var n := CloseSession(s, p);
    if n != s {
      assert forall sid :: InFlight(n, sid) == InFlight(s, sid);
      forall sid | p !in s.active || sid != s.active[p] ensures Registered(n, sid) == Registered(s, sid) {
        if Registered(s, sid) {
          var q :| q in s.active && s.active[q] == sid;
          assert q in n.active;
        }
      }
      if p in s.active && s.active[p] > 0 {
        assert Registered(s, s.active[p]) && !Registered(n, s.active[p]);
      }
    }
  }

  lemma {:induction false} ResumeKeeps(s: Rows, ports: seq<int>)
    requires Inv(s)
    ensures Inv(ResumeRecording(s, ports))
  {
    if ports != [] {
      ResumeKeeps(s, ports[..|ports| - 1]);
      var r, p := ResumeRecording(s, ports[..|ports| - 1]), ports[|ports| - 1];
      if p in r.active && r.active[p] < 0 && p in r.charging {
        SubmitKeeps(r, ForResume(p, r.active[p], Requested));
      }
    }
  }

  lemma {:induction false} AllMovesKeep(s: Rows, ms: seq<Move>)
    requires Inv(s)
    ensures Inv(TakeAll(s, ms))
  {
    hide Inv;
    if ms != [] {
      var r := TakeAll(s, ms[..|ms| - 1]);
      AllMovesKeep(s, ms[..|ms| - 1]);
      match ms[|ms| - 1] {
        case Start(p) => StartKeeps(r, p);
        case Insert(id, ok) => InsertKeeps(r, id, ok);
        case Callback(id) => CallbackKeeps(r, id);
        case Close(p) => CloseKeeps(r, p);
        case Resume(ports) => ResumeKeeps(r, ports);
      }
    }
  }

  // ----- what this means for the rows -----

  /** The row is the id of exactly one port, which is charging. */
  ghost predicate OwnedByOnePort(s: Rows, sid: int) {
    exists p :: p in s.active && s.active[p] == sid && p in s.charging
                && forall q :: q in s.active && s.active[q] == sid ==> q == p
  }

  lemma InitialInv(s: Rows)
    requires RecordingJustOn(s)
    ensures Inv(s)
  {}

  /**
   * No row is lost and none is finished twice.  From the moment recording is switched on, in every
   * interleaving of openings, inserts, callbacks, closes and resumes: a row whose callback has run
   * is either registered for exactly one charging port and untouched, or has had exactly one end or
   * delete scheduled; a row still in flight has had none.
   */
  lemma {:induction false} EveryRowIsAccountedFor(s: Rows, ms: seq<Move>, sid: int)
    requires RecordingJustOn(s) && sid in TakeAll(s, ms).rows
    ensures var r := TakeAll(s, ms);
            && (InFlight(r, sid) ==> r.scheduled[sid] == 0 && !Registered(r, sid))
            && (!InFlight(r, sid) ==>
                  || (OwnedByOnePort(r, sid) && r.scheduled[sid] == 0)
                  || (!Registered(r, sid) && r.scheduled[sid] == 1))
  {
    hide TakeAll;
    InitialInv(s);
    AllMovesKeep(s, ms);
    var r := TakeAll(s, ms);
    if !InFlight(r, sid) && Registered(r, sid) {
      var p :| p in r.active && r.active[p] == sid;
      assert OwnedByOnePort(r, sid);
    }
  }

  /** With nothing in flight the open rows are exactly the registered ones; once every port is
      idle as well, no row is open. */
  lemma {:induction false} OpenRowsAreRegistered(s: Rows, ms: seq<Move>)
    requires RecordingJustOn(s)
    ensures var r := TakeAll(s, ms);
            r.tasks == map[] ==>
              && (forall sid :: sid in r.rows && r.scheduled[sid] == 0 <==> sid > 0 && Registered(r, sid))
              && (r.charging == {} ==> forall sid :: sid in r.rows ==> r.scheduled[sid] == 1)
  {
    hide TakeAll;
    InitialInv(s);
    AllMovesKeep(s, ms);
  }

  // ----- whose row it becomes -----

  /** The move opens a session on port p. */
  predicate Opens(s: Rows, m: Move, p: int) {
    m == Start(p) && p !in s.charging
  }

  /** The move closes the session of port p. */
  predicate Closes(s: Rows, m: Move, p: int) {
    m == Close(p) && p in s.charging
  }

  /** The number of the session that port p has, or had last: how many it has opened so far. */
  function SessionNo(s: Rows, ms: seq<Move>, p: int): nat {
    if ms == [] then 0
    else
      var n := |ms| - 1;
      SessionNo(s, ms[..n], p) + if Opens(TakeAll(s, ms[..n]), ms[n], p) then 1 else 0
  }

  /** Move i of the run opens a session on port p; the task asking for its row gets this id. */
  ghost predicate AsksForRow(s: Rows, ms: seq<Move>, i: int, p: int, id: nat) {
    && 0 <= i < |ms| && Opens(TakeAll(s, ms[..i]), ms[i], p)
    && TakeAll(s, ms[..i]).nextTask == id
  }

  /** Move k is the callback of that task, and registers the row it has inserted. */
  ghost predicate RegistersRow(s: Rows, ms: seq<Move>, k: int, p: int, id: nat) {
    && 0 <= k < |ms| && ms[k] == Callback(id)
    && var r := TakeAll(s, ms[..k]);
       id in r.tasks && r.tasks[id].outcome.Inserted? && Awaited(r, r.tasks[id])
  }

  /** A close of port p between move i and move k. */
  ghost predicate ClosedBetween(s: Rows, ms: seq<Move>, i: int, k: int, p: int) {
    exists j {:trigger ms[j]} :: i < j < k <= |ms| && 0 <= j && Closes(TakeAll(s, ms[..j]), ms[j], p)
  }

  lemma {:induction false} TakeNext(s: Rows, ms: seq<Move>, n: nat)
    requires n < |ms|
    ensures TakeAll(s, ms[..n + 1]) == Take(TakeAll(s, ms[..n]), ms[n])
  {
    hide Take;
    assert ms[..n + 1][..n] == ms[..n];
  }

  lemma {:induction false} CountNext(s: Rows, ms: seq<Move>, n: nat, p: int)
    requires n < |ms|
    ensures SessionNo(s, ms[..n + 1], p)
         == SessionNo(s, ms[..n], p) + if Opens(TakeAll(s, ms[..n]), ms[n], p) then 1 else 0
  {
    hide Take, TakeAll, Opens;
    assert ms[..n + 1][..n] == ms[..n];
  }

  /** One move changes whether a port is charging only by opening or closing its session. */
  lemma {:induction false} ChargingStep(s: Rows, m: Move, p: int)
    ensures p in Take(s, m).charging <==> Opens(s, m, p) || (p in s.charging && !Closes(s, m, p))
  {
    if m.Resume? { ResumeKeepsSessions(s, m.ports); }
  }

  lemma {:induction false} ResumeKeepsSessions(s: Rows, ports: seq<int>)
    ensures ResumeRecording(s, ports).charging == s.charging
    ensures ResumeRecording(s, ports).nextTask >= s.nextTask
    ensures forall id :: id in s.tasks && id < s.nextTask ==>
              id in ResumeRecording(s, ports).tasks && ResumeRecording(s, ports).tasks[id] == s.tasks[id]
    ensures forall id :: id < s.nextTask && id in ResumeRecording(s, ports).tasks ==> id in s.tasks
  {
    if ports != [] { ResumeKeepsSessions(s, ports[..|ports| - 1]); }
  }

  /** What becomes of a port between move i, after which it is charging, and any later point. */
  lemma {:induction false} SinceOpening(s: Rows, ms: seq<Move>, i: nat, n: nat, p: int)
    requires i < n <= |ms| && p in TakeAll(s, ms[..i + 1]).charging
    ensures var asked, now := SessionNo(s, ms[..i + 1], p), SessionNo(s, ms[..n], p);
            && now >= asked
            && (!ClosedBetween(s, ms, i, n, p) ==> p in TakeAll(s, ms[..n]).charging && now == asked)
            && (ClosedBetween(s, ms, i, n, p) && p in TakeAll(s, ms[..n]).charging ==> now > asked)
  {
    hide Take, TakeAll, Opens, Closes, SessionNo;
    TakeNext(s, ms, n - 1);
    ChargingStep(TakeAll(s, ms[..n - 1]), ms[n - 1], p);
    if n > i + 1 {
      SinceOpening(s, ms, i, n - 1, p);
      CountNext(s, ms, n - 1, p);
      ClosedNext(s, ms, i, n, p);
      OpensIdle(TakeAll(s, ms[..n - 1]), ms[n - 1], p);
    }
  }

  lemma OpensIdle(s: Rows, m: Move, p: int)
    ensures Opens(s, m, p) ==> p !in s.charging
    ensures Closes(s, m, p) ==> !Opens(s, m, p)
  {}

  lemma {:induction false} ClosedNext(s: Rows, ms: seq<Move>, i: int, n: nat, p: int)
    requires 0 <= i && i + 1 < n <= |ms|
    ensures ClosedBetween(s, ms, i, n, p) <==>
              ClosedBetween(s, ms, i, n - 1, p) || Closes(TakeAll(s, ms[..n - 1]), ms[n - 1], p)
  {
    hide TakeAll, Closes;
    if Closes(TakeAll(s, ms[..n - 1]), ms[n - 1], p) {
      assert i < n - 1 < n;
    }
    if ClosedBetween(s, ms, i, n - 1, p) {
      var j :| i < j < n - 1 && 0 <= j && Closes(TakeAll(s, ms[..j]), ms[j], p);
      assert i < j < n;
    }
  }

  /** Task id, if still in use, stands for a session of port p; it will not be handed out again. */
  predicate Stands(s: Rows, p: int, id: nat) {
    id < s.nextTask && (id in s.tasks ==> s.tasks[id].ForStart? && s.tasks[id].port == p)
  }

  lemma {:induction false} StandsOn(s: Rows, m: Move, p: int, id: nat)
    requires Stands(s, p, id)
    ensures Stands(Take(s, m), p, id)
  {
    match m {
      case Start(_) =>
      case Insert(_, _) =>
      case Callback(_) =>
      case Close(_) =>
      case Resume(ports) => ResumeKeepsSessions(s, ports);
    }
  }

  /** A task id stands for the same request as long as it is in use. */
  lemma {:induction false} TaskStays(s: Rows, ms: seq<Move>, i: nat, n: nat, p: int, id: nat)
    requires AsksForRow(s, ms, i, p, id) && i < n <= |ms|
    ensures Stands(TakeAll(s, ms[..n]), p, id)
  {
    hide Take, TakeAll, Stands;
    TakeNext(s, ms, n - 1);
    if n > i + 1 {
      TaskStays(s, ms, i, n - 1, p, id);
      StandsOn(TakeAll(s, ms[..n - 1]), ms[n - 1], p, id);
    } else {
      OpeningStands(TakeAll(s, ms[..i]), p);
    }
  }

  lemma OpeningStands(s: Rows, p: int)
    requires Opens(s, Start(p), p)
    ensures Stands(Take(s, Start(p)), p, s.nextTask)
  {}

  /**
   * Whose row it becomes.  On every run, let move i open a session on port p and ask for a row, and
   * let the callback of that request register a row at move k.  The row becomes the id of port p,
   * and it goes to the very session that asked for it if and only if that session was not closed in
   * between; otherwise it goes to a later one.
   */
  lemma {:induction false} RowGoesToItsSessionIffNotClosed(s: Rows, ms: seq<Move>, i: nat, k: nat, p: int, id: nat)
    requires i < k && AsksForRow(s, ms, i, p, id) && RegistersRow(s, ms, k, p, id)
    ensures var asked, gets := SessionNo(s, ms[..i + 1], p), SessionNo(s, ms[..k], p);
            var before, after := TakeAll(s, ms[..k]), TakeAll(s, ms[..k + 1]);
            && p in after.charging
            && p in after.active && after.active[p] == before.tasks[id].outcome.sid
            && (gets == asked <==> !ClosedBetween(s, ms, i, k, p))
            && gets >= asked
  {
    hide TakeAll, SessionNo, ClosedBetween;
    TaskStays(s, ms, i, k, p, id);
    TakeNext(s, ms, i);
    ChargingStep(TakeAll(s, ms[..i]), ms[i], p);
    SinceOpening(s, ms, i, k, p);
    TakeNext(s, ms, k);
  }

  /** Move i switches recording on while port p has the placeholder `fake`; this is the task asking
      for a real row. */
  ghost predicate AsksToResume(s: Rows, ms: seq<Move>, i: int, p: int, fake: int, id: nat) {
    && 0 <= i < |ms| && ms[i].Resume?
    && var before, after := TakeAll(s, ms[..i]), TakeAll(s, ms[..i + 1]);
       && p in before.charging && p in before.active && before.active[p] == fake
       && before.nextTask <= id < after.nextTask
       && id in after.tasks && after.tasks[id] == ForResume(p, fake, Requested)
  }

  /** Task id, if still in use, asks for a row for the placeholder of port p. */
  predicate StandsForPlaceholder(s: Rows, p: int, fake: int, id: nat) {
    && id < s.nextTask
    && (id in s.tasks ==> s.tasks[id].ForResume? && s.tasks[id].port == p && s.tasks[id].fake == fake)
  }

  lemma {:induction false} PlaceholderStandsOn(s: Rows, m: Move, p: int, fake: int, id: nat)
    requires StandsForPlaceholder(s, p, fake, id)
    ensures StandsForPlaceholder(Take(s, m), p, fake, id)
  {
    match m {
      case Start(_) =>
      case Insert(_, _) =>
      case Callback(_) =>
      case Close(_) =>
      case Resume(ports) => ResumeKeepsSessions(s, ports);
    }
  }

  /** A placeholder once given up does not come back: new ids are those of inserted rows. */
  lemma {:induction false} PlaceholderGone(s: Rows, m: Move, p: int, fake: int)
    requires Inv(s) && fake < 0
    ensures p in Take(s, m).active && Take(s, m).active[p] == fake ==> p in s.active && s.active[p] == fake
    ensures Closes(s, m, p) ==> p !in Take(s, m).active
  {
    match m {
      case Resume(ports) => ResumeKeepsIds(s, ports);
      case _ =>
    }
  }

  lemma {:induction false} ResumeKeepsIds(s: Rows, ports: seq<int>)
    ensures ResumeRecording(s, ports).active == s.active
  {
    if ports != [] { ResumeKeepsIds(s, ports[..|ports| - 1]); }
  }

  /** As long as the port shows the placeholder, its session has not been closed. */
  lemma {:induction false} SincePlaceholder(s: Rows, ms: seq<Move>, i: nat, n: nat, p: int, fake: int, id: nat)
    requires RecordingJustOn(s) && fake < 0
    requires i < n <= |ms| && AsksToResume(s, ms, i, p, fake, id)
    ensures var r := TakeAll(s, ms[..n]);
            && StandsForPlaceholder(r, p, fake, id)
            && (ClosedBetween(s, ms, i, n, p) ==> !(p in r.active && r.active[p] == fake))
  {
    hide Take, TakeAll, Inv, RecordingJustOn, Closes, StandsForPlaceholder;
    var before, m := TakeAll(s, ms[..n - 1]), ms[n - 1];
    TakeNext(s, ms, n - 1);
    if n > i + 1 {
      SincePlaceholder(s, ms, i, n - 1, p, fake, id);
      PlaceholderStandsOn(before, m, p, fake, id);
      InitialInv(s);
      AllMovesKeep(s, ms[..n - 1]);
      PlaceholderGone(before, m, p, fake);
      ClosedNext(s, ms, i, n, p);
    } else {
      AskedStands(TakeAll(s, ms[..n]), p, fake, id);
    }
  }

  lemma AskedStands(s: Rows, p: int, fake: int, id: nat)
    requires id < s.nextTask && id in s.tasks && s.tasks[id] == ForResume(p, fake, Requested)
    ensures StandsForPlaceholder(s, p, fake, id)
  {}

  lemma PlaceholderNegative(s: Rows, p: int, fake: int, id: nat)
    requires Inv(s) && id in s.tasks && s.tasks[id] == ForResume(p, fake, Requested)
    ensures fake < 0
  {}

  /**
   * A resumed row always goes to its session.  On every run from the moment recording is switched
   * on, a row requested for the placeholder of port p and registered at move k becomes the id of the
   * very session that held the placeholder: it has not been closed in between.
   */
  lemma {:induction false} ResumedRowGoesToItsSession(
    s: Rows, ms: seq<Move>, i: nat, k: nat, p: int, fake: int, id: nat)
    requires RecordingJustOn(s)
    requires i < k && AsksToResume(s, ms, i, p, fake, id) && RegistersRow(s, ms, k, p, id)
    ensures !ClosedBetween(s, ms, i, k, p)
    ensures SessionNo(s, ms[..k], p) == SessionNo(s, ms[..i + 1], p)
    ensures var before, after := TakeAll(s, ms[..k]), TakeAll(s, ms[..k + 1]);
            && p in before.active && before.active[p] == fake
            && p in after.active && after.active[p] == before.tasks[id].outcome.sid
  {
    hide TakeAll, SessionNo, ClosedBetween, RecordingJustOn;
    InitialInv(s);
    AllMovesKeep(s, ms[..i + 1]);
    PlaceholderNegative(TakeAll(s, ms[..i + 1]), p, fake, id);
    SincePlaceholder(s, ms, i, k, p, fake, id);
    TakeNext(s, ms, i);
    ResumeKeepsSessions(TakeAll(s, ms[..i]), ms[i].ports);
    SinceOpening(s, ms, i, k, p);
    TakeNext(s, ms, k);
  }

  // ----- what is asked for, and what comes of it -----

  /** The port is charging and has a placeholder for an id. */
  predicate HasPlaceholder(s: Rows, p: int) {
    p in s.charging && p in s.active && s.active[p] < 0
  }

  /** The tasks handed out from s to r. */
  predicate NewTask(s: Rows, r: Rows, id: nat) {
    s.nextTask <= id < r.nextTask && id in r.tasks
  }

  /** No two new tasks ask for the same port. */
  ghost predicate OneEach(s: Rows, r: Rows) {
    forall i, j :: NewTask(s, r, i) && NewTask(s, r, j) && r.tasks[i].port == r.tasks[j].port ==> i == j
  }

  /** What resuming has asked for, port by port. */
  ghost predicate AskedFor(s: Rows, r: Rows, ports: seq<int>) {
    && (forall p :: p in ports && HasPlaceholder(s, p) ==>
          exists id :: NewTask(s, r, id) && r.tasks[id] == ForResume(p, s.active[p], Requested))
    && (forall id :: NewTask(s, r, id) ==>
          r.tasks[id].port in ports && HasPlaceholder(s, r.tasks[id].port)
          && r.tasks[id] == ForResume(r.tasks[id].port, s.active[r.tasks[id].port], Requested))
    && (forall id :: s.nextTask <= id < r.nextTask ==> id in r.tasks)
  }

  lemma ResumeOneAsks(s: Rows, r: Rows, before: seq<int>, p: int)
    requires AskedFor(s, r, before) && r.charging == s.charging && r.active == s.active && r.nextTask >= s.nextTask
    ensures AskedFor(s, ResumeOne(r, p), before + [p])
    ensures OneEach(s, r) && p !in before ==> OneEach(s, ResumeOne(r, p))
  {
    var n, ports := ResumeOne(r, p), before + [p];
    forall q | q in ports && HasPlaceholder(s, q)
      ensures exists id :: NewTask(s, n, id) && n.tasks[id] == ForResume(q, s.active[q], Requested)
    {
      if q in before {
        var id :| NewTask(s, r, id) && r.tasks[id] == ForResume(q, s.active[q], Requested);
        assert NewTask(s, n, id) && n.tasks[id] == r.tasks[id];
      } else {
        assert q == p;
        assert NewTask(s, n, r.nextTask) && n.tasks[r.nextTask] == ForResume(p, s.active[p], Requested);
      }
    }
    forall id | NewTask(s, n, id) && id != r.nextTask ensures NewTask(s, r, id) && n.tasks[id] == r.tasks[id] {}
  }

  /**
   * Switching the recording on asks for a row for every port among those given that is charging on a
   * placeholder, and for nothing else; for each of them once, if no port is given twice.
   */
  lemma {:induction false} ResumeAsksForEveryPlaceholder(s: Rows, ports: seq<int>)
    ensures AskedFor(s, Take(s, Resume(ports)), ports)
    ensures (forall i, j :: 0 <= i < j < |ports| ==> ports[i] != ports[j]) ==> OneEach(s, Take(s, Resume(ports)))
    ensures var r := Take(s, Resume(ports));
            && r.charging == s.charging && r.active == s.active && r.scheduled == s.scheduled && r.rows == s.rows
            && forall id :: id in s.tasks && id < s.nextTask ==> id in r.tasks && r.tasks[id] == s.tasks[id]
  {
    if ports != [] {
      var n := |ports| - 1;
      ResumeAsksForEveryPlaceholder(s, ports[..n]);
      ResumeKeepsSessions(s, ports[..n]);
      ResumeOneAsks(s, ResumeRecording(s, ports[..n]), ports[..n], ports[n]);
      assert ports == ports[..n] + [ports[n]];
    }
  }

  /** From move i on, as long as its session is not closed, the port never loses what it has: no id yet,
      this placeholder, or the id of a row. */
  ghost predicate KeepsId(s: Rows, p: int, fake: int) {
    p in s.active ==> s.active[p] > 0 || s.active[p] == fake
  }

  lemma IdStep(s: Rows, m: Move, p: int, fake: int)
    requires Inv(s) && KeepsId(s, p, fake) && !Closes(s, m, p) && p in s.charging
    ensures KeepsId(Take(s, m), p, fake) && (p in s.active ==> p in Take(s, m).active)
  {
    match m {
      case Resume(ports) => ResumeKeepsIds(s, ports);
      case _ =>
    }
  }

  /** The id of an unclosed session over a stretch of the run. */
  lemma {:induction false} IdSince(s: Rows, ms: seq<Move>, i: nat, n: nat, p: int, fake: int)
    requires RecordingJustOn(s) && i < n <= |ms| && !ClosedBetween(s, ms, i, n, p)
    requires var r := TakeAll(s, ms[..i + 1]); p in r.charging && KeepsId(r, p, fake)
    ensures var a, r := TakeAll(s, ms[..i + 1]), TakeAll(s, ms[..n]);
            p in r.charging && KeepsId(r, p, fake) && (p in a.active ==> p in r.active)
  {
    hide Take, TakeAll, Inv, RecordingJustOn, Closes, KeepsId, SessionNo;
    SinceOpening(s, ms, i, n, p);
    if n > i + 1 {
      ClosedNext(s, ms, i, n, p);
      IdSince(s, ms, i, n - 1, p, fake);
      TakeNext(s, ms, n - 1);
      InitialInv(s);
      AllMovesKeep(s, ms[..n - 1]);
      IdStep(TakeAll(s, ms[..n - 1]), ms[n - 1], p, fake);
    }
  }

  /** The callback of a finished insert does one of two things with its row: it becomes the id of port p
      if `wanted`, and otherwise one delete of it is scheduled. */
  ghost predicate RowHandled(before: Rows, after: Rows, p: int, sid: int, wanted: bool) {
    && after.charging == before.charging && after.rows == before.rows
    && (if wanted then after.active == before.active[p := sid] && after.scheduled == before.scheduled
        else after.active == before.active && after.scheduled == before.scheduled + multiset{sid})
  }

  /** Move k is the callback of task id, whose insert has succeeded. */
  ghost predicate ReportsRow(s: Rows, ms: seq<Move>, k: int, id: nat) {
    && 0 <= k < |ms| && ms[k] == Callback(id)
    && id in TakeAll(s, ms[..k]).tasks && TakeAll(s, ms[..k]).tasks[id].outcome.Inserted?
  }

  lemma ReportedIsRow(s: Rows, id: nat)
    requires Inv(s) && id in s.tasks && s.tasks[id].outcome.Inserted?
    ensures s.tasks[id].outcome.sid > 0
  {}

  /**
   * A resumed session gets its row.  On every run from the moment recording is switched on, when the
   * insert asked for port p's placeholder has succeeded and its callback runs, the row becomes the
   * port's id exactly if the port still shows the placeholder, and is deleted otherwise; so if the
   * session has not been closed meanwhile, the port has a row's id afterwards.
   */
  lemma {:induction false} ResumedSessionGetsRow(
    s: Rows, ms: seq<Move>, i: nat, k: nat, p: int, fake: int, id: nat)
    requires RecordingJustOn(s)
    requires i < k && AsksToResume(s, ms, i, p, fake, id) && ReportsRow(s, ms, k, id)
    ensures var before, after := TakeAll(s, ms[..k]), TakeAll(s, ms[..k + 1]);
            && RowHandled(before, after, p, before.tasks[id].outcome.sid,
                          p in before.active && before.active[p] == fake)
            && (!ClosedBetween(s, ms, i, k, p) ==> p in after.active && after.active[p] > 0)
  {
    hide TakeAll, ClosedBetween, RecordingJustOn, Inv;
    InitialInv(s);
    AllMovesKeep(s, ms[..i + 1]);
    AllMovesKeep(s, ms[..k]);
    PlaceholderNegative(TakeAll(s, ms[..i + 1]), p, fake, id);
    SincePlaceholder(s, ms, i, k, p, fake, id);
    ReportedIsRow(TakeAll(s, ms[..k]), id);
    ActiveIsCharging(TakeAll(s, ms[..k]), p);
    TakeNext(s, ms, i);
    TakeNext(s, ms, k);
    ResumeKeepsSessions(TakeAll(s, ms[..i]), ms[i].ports);
    ResumeKeepsIds(TakeAll(s, ms[..i]), ms[i].ports);
    if !ClosedBetween(s, ms, i, k, p) { IdSince(s, ms, i, k, p, fake); }
  }

  lemma ActiveIsCharging(s: Rows, p: int)
    requires Inv(s)
    ensures p in s.active ==> p in s.charging
  {}

  /**
   * An opened session gets a row.  On every run from the moment recording is switched on, when the
   * insert asked for by an opening session of port p has succeeded and its callback runs, the row
   * becomes the port's id exactly if the port is charging and has none, and is deleted otherwise; so if
   * the session has not been closed meanwhile, the port has a row's id afterwards.
   */
  lemma {:induction false} OpenedSessionGetsRow(s: Rows, ms: seq<Move>, i: nat, k: nat, p: int, id: nat)
    requires RecordingJustOn(s)
    requires i < k && AsksForRow(s, ms, i, p, id) && ReportsRow(s, ms, k, id)
    ensures var before, after := TakeAll(s, ms[..k]), TakeAll(s, ms[..k + 1]);
            && RowHandled(before, after, p, before.tasks[id].outcome.sid,
                          p in before.charging && p !in before.active)
            && (!ClosedBetween(s, ms, i, k, p) ==> p in after.active && after.active[p] > 0)
  {
    hide TakeAll, ClosedBetween, RecordingJustOn, Inv;
    InitialInv(s);
    AllMovesKeep(s, ms[..i]);
    AllMovesKeep(s, ms[..k]);
    ActiveIsCharging(TakeAll(s, ms[..i]), p);
    TaskStays(s, ms, i, k, p, id);
    ReportedIsRow(TakeAll(s, ms[..k]), id);
    TakeNext(s, ms, i);
    TakeNext(s, ms, k);
    if !ClosedBetween(s, ms, i, k, p) { IdSince(s, ms, i, k, p, 1); }
  }

  /** An opening session asks for one row and an open one for no other; an insert that is run makes a new
      row for its task, or none if the database fails. */
  lemma {:induction false} RowsAreMade(s: Rows, p: int, id: nat)
    requires Inv(s)
    ensures p in s.charging ==> Take(s, Start(p)) == s
    ensures p !in s.charging ==>
              var r := Take(s, Start(p));
              && p in r.charging && r.nextTask == s.nextTask + 1
              && r.tasks == s.tasks[s.nextTask := ForStart(p, Requested)]
    ensures id in s.tasks && s.tasks[id].outcome == Requested ==>
              && (var r := Take(s, Insert(id, true));
                  exists sid :: sid > 0 && sid !in s.rows && r.rows == s.rows + {sid}
                                && id in r.tasks && r.tasks[id].outcome == Inserted(sid))
              && (var r := TakeAll(s, [Insert(id, false), Callback(id)]);
                  r.rows == s.rows && r.active == s.active && r.scheduled == s.scheduled && r.tasks == s.tasks - {id})
  {
    if id in s.tasks && s.tasks[id].outcome == Requested {
      var sid := s.nextSid;
      assert sid > 0 && sid !in s.rows;
      var r := Take(s, Insert(id, true));
      assert r.rows == s.rows + {sid} && r.tasks[id].outcome == Inserted(sid);
      var run := [Insert(id, false), Callback(id)];
      assert run[..1] == [Insert(id, false)] && run[..1][..0] == [];
      assert TakeAll(s, run[..1]) == Take(s, Insert(id, false));
      assert TakeAll(s, run) == Take(Take(s, Insert(id, false)), Callback(id));
    }
  }

  /** The run in which a row passes on: the port closes and opens again before the first insert
      reports back. */
  function PassingRun(): seq<Move> {
    [Start(1), Close(1), Start(1), Insert(0, true), Callback(0)]
  }

  const EMPTY := Rows({}, map[], map[], 0, {}, 1, multiset{})

  lemma {:induction false} RowMayPassToLaterSession()
    ensures RecordingJustOn(EMPTY)
    ensures AsksForRow(EMPTY, PassingRun(), 0, 1, 0) && RegistersRow(EMPTY, PassingRun(), 4, 1, 0)
    ensures ClosedBetween(EMPTY, PassingRun(), 0, 4, 1)
  {
    var run := PassingRun();
    assert run[..0] == [];
    TakeNext(EMPTY, run, 0);
    TakeNext(EMPTY, run, 1);
    TakeNext(EMPTY, run, 2);
    TakeNext(EMPTY, run, 3);
    assert TakeAll(EMPTY, run[..0]) == EMPTY;
    hide TakeAll;
    assert TakeAll(EMPTY, run[..1]).tasks == map[0 := ForStart(1, Requested)];
    assert Closes(TakeAll(EMPTY, run[..1]), run[1], 1);
    var again := TakeAll(EMPTY, run[..3]);
    assert again.tasks == map[0 := ForStart(1, Requested), 1 := ForStart(1, Requested)];
    assert again.active == map[] && again.charging == {1};
    assert TakeAll(EMPTY, run[..4]).tasks[0] == ForStart(1, Inserted(1));
  }
}

/** The manager's bookkeeping of session ids, updated in place. */
module SessionRegistry {
  import opened Common
  import opened SessionRows

  class Registry {
    var charging: set<int>
    var active: map<int, int>
    var tasks: map<nat, Task>
    var nextTask: nat
    // the database's side: rows inserted, and ends or deletes handed to the workers
    var rows: set<int>
    var nextSid: int
    var scheduled: multiset<int>

    function Value(): Rows
      reads this
    {
      Rows(charging, active, tasks, nextTask, rows, nextSid, scheduled)
    }

    constructor (charging: set<int>, active: map<int, int>, nextSid: int)
      requires nextSid > 0 && forall p :: p in active ==> p in charging && active[p] < 0
      ensures RecordingJustOn(Value())
      ensures this.charging == charging && this.active == active
    {
      this.charging, this.active := charging, active;
      tasks, nextTask := map[], 0;
      rows, this.nextSid, scheduled := {}, nextSid, multiset{};
    }

    method RunInExecutor(t: Task)
      modifies this`tasks, this`nextTask
      ensures Value() == Submit(old(Value()), t)
    {
      tasks := tasks[nextTask := t];
      nextTask := nextTask + 1;
    }

    method StartSession(port: int)
      modifies this
      ensures Value() == SessionRows.StartSession(old(Value()), port)
    {
      if port in charging {
        return;
      }
      charging := charging + {port};
      RunInExecutor(ForStart(port, Requested));
    }

    /** A worker executes start_session. */
    method InsertRow(id: nat, ok: bool)
      modifies this
      ensures Value() == SessionRows.InsertRow(old(Value()), id, ok)
    {
      if id !in tasks || tasks[id].outcome != Requested {
        return;
      }
      if !ok {
        tasks := tasks[id := tasks[id].(outcome := Failed)];
        return;
      }
      tasks := tasks[id := tasks[id].(outcome := Inserted(nextSid))];
      rows := rows + {nextSid};
      nextSid := nextSid + 1;
    }

    method OnInserted(id: nat)
      modifies this
      ensures Value() == RunCallback(old(Value()), id)
    {
      if id !in tasks || tasks[id].outcome == Requested {
        return;
      }
      var t := tasks[id];
      tasks := tasks - {id};
      if t.outcome == Failed {
        return;
      }
      var sid := t.outcome.sid;
      match t {
        case ForStart(port, _) =>
          if port !in charging || port in active {
            scheduled := scheduled + multiset{sid};
            return;
          }
          active := active[port := sid];
        case ForResume(port, fake, _) =>
          if port !in charging || port !in active || active[port] != fake {
            scheduled := scheduled + multiset{sid};
            return;
          }
          active := active[port := sid];
      }
    }

    method CloseSession(port: int)
      modifies this
      ensures Value() == SessionRows.CloseSession(old(Value()), port)
    {
      if port !in active && port !in charging {
        return;
      }
      var sid := if port in active then Some(active[port]) else None;
      active := active - {port};
      charging := charging - {port};
      if sid.Some? && sid.value > 0 {
        scheduled := scheduled + multiset{sid.value};
      }
    }

    method ResumeRecordingSessions(ports: seq<int>)
      modifies this
      ensures Value() == ResumeRecording(old(Value()), ports)
    {
      ghost var before := Value();
      for k := 0 to |ports|
        invariant Value() == ResumeRecording(before, ports[..k])
      {
        assert ports[..k + 1][..k] == ports[..k];
        var port := ports[k];
        if port !in active || active[port] >= 0 {
          continue;
        }
        if port !in charging {
          continue;
        }
        RunInExecutor(ForResume(port, active[port], Requested));
      }
      assert ports[..|ports|] == ports;
    }
  }
}
