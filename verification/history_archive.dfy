/** SQLite's LIKE operator, and the pattern the rollback script builds from a device id. */
module SqlLike {
  import opened Common

  /** LIKE ignores the case of ASCII letters. */
  function Fold(c: char): char {
    if 'A' <= c <= 'Z' then ((c as int) + 32) as char else c
  }

  /** Two characters are the same to LIKE if they are equal or the two cases of one ASCII letter. */
  lemma FoldIgnoresCase(c: char, d: char)
    ensures Fold(c) == Fold(d) <==>
              || c == d
              || ('A' <= c <= 'Z' && d as int == c as int + 32)
              || ('A' <= d <= 'Z' && c as int == d as int + 32)
  {}

  predicate SameFolded(a: string, b: string) {
    |a| == |b| && forall k :: 0 <= k < |a| ==> Fold(a[k]) == Fold(b[k])
  }

  /** `text LIKE pattern [ESCAPE esc]`. */
  predicate Like(pattern: string, text: string, esc: Option<char>)
    decreases |pattern| + |text|
  {
    if pattern == [] then text == []
    else if esc == Some(pattern[0]) then
      |pattern| > 1 && text != [] && Fold(pattern[1]) == Fold(text[0]) && Like(pattern[2..], text[1..], esc)
    else if pattern[0] == '%' then
      Like(pattern[1..], text, esc) || (text != [] && Like(pattern, text[1..], esc))
    else if text == [] then false
    else (pattern[0] == '_' || Fold(pattern[0]) == Fold(text[0])) && Like(pattern[1..], text[1..], esc)
  }

  /** Python's `s.replace(c, sub)` for a single character c. */
  function Replace(s: string, c: char, sub: string): string {
    if s == [] then [] else (if s[0] == c then sub else [s[0]]) + Replace(s[1..], c, sub)
  }

  /** The script's three replacements; the backslash has to come first. */
  function Escaped(id: string): string {
    Replace(Replace(Replace(id, '\\', "\\\\"), '%', "\\%"), '_', "\\_")
  }

  /** One pass over the id: a backslash in front of every special character. */
  function Quoted(id: string): string {
    if id == [] then []
    else (if id[0] in "\\%_" then ['\\', id[0]] else [id[0]]) + Quoted(id[1..])
  }

  lemma {:induction false} ReplaceStep(x: char, rest: string, c: char, sub: string)
    ensures Replace([x] + rest, c, sub) == (if x == c then sub else [x]) + Replace(rest, c, sub)
  {
    assert ([x] + rest)[1..] == rest;
  }

  lemma {:induction false} ReplaceConcat(a: string, b: string, c: char, sub: string)
    ensures Replace(a + b, c, sub) == Replace(a, c, sub) + Replace(b, c, sub)
  {
    if a == [] {
      assert a + b == b;
    } else {
      hide Replace;
      var x, rest := a[0], a[1..];
      assert a == [x] + rest;
      assert a + b == [x] + (rest + b);
      ReplaceStep(x, rest, c, sub);
      ReplaceStep(x, rest + b, c, sub);
      ReplaceConcat(rest, b, c, sub);
    }
  }

  lemma {:induction false} ReplaceOne(x: char, c: char, sub: string)
    ensures Replace([x], c, sub) == if x == c then sub else [x]
  {
    assert [x][1..] == [];
    assert Replace([x], c, sub) == (if x == c then sub else [x]) + Replace([], c, sub);
  }

  lemma EscapedOne(x: char)
    ensures Escaped([x]) == if x in "\\%_" then ['\\', x] else [x]
  {
    hide Replace;
    var s1 := Replace([x], '\\', "\\\\");
    ReplaceOne(x, '\\', "\\\\");
    ReplaceOne(x, '%', "\\%");
    ReplaceOne(x, '_', "\\_");
    ReplaceOne('\\', '%', "\\%");
    ReplaceOne('\\', '_', "\\_");
    if x == '\\' {
      assert "\\\\" == ['\\'] + ['\\'];
      ReplaceConcat(['\\'], ['\\'], '%', "\\%");
      ReplaceConcat(['\\'], ['\\'], '_', "\\_");
    } else if x == '%' {
      assert "\\%" == ['\\'] + ['%'];
      ReplaceConcat(['\\'], ['%'], '_', "\\_");
    }
  }

  /** The three replacements in their order are one pass of quoting. */
  lemma {:induction false} EscapedIsQuoted(id: string)
    ensures Escaped(id) == Quoted(id)
  {
    if id != [] {
      EscapedIsQuoted(id[1..]);
      EscapedOne(id[0]);
      var x, rest := [id[0]], id[1..];
      assert id == x + rest;
      ReplaceConcat(x, rest, '\\', "\\\\");
      ReplaceConcat(Replace(x, '\\', "\\\\"), Replace(rest, '\\', "\\\\"), '%', "\\%");
      hide Replace, Quoted;
      var s1, t1 := Replace(x, '\\', "\\\\"), Replace(rest, '\\', "\\\\");
      ReplaceConcat(Replace(s1, '%', "\\%"), Replace(t1, '%', "\\%"), '_', "\\_");
      assert Escaped(id) == Escaped(x) + Escaped(rest);
      QuotedStep(id);
    }
  }

  lemma {:induction false} QuotedStep(id: string)
    requires id != []
    ensures Quoted(id) == (if id[0] in "\\%_" then ['\\', id[0]] else [id[0]]) + Quoted(id[1..])
  {}

  lemma {:induction false} PercentMatchesAll(text: string, esc: Option<char>)
    requires esc != Some('%')
    ensures Like("%", text, esc)
  {
    if text != [] {
      PercentMatchesAll(text[1..], esc);
    } else {
      assert "%"[1..] == "";
    }
  }

  /** `LIKE '%:%'` selects exactly the keys with a colon in them. */
  lemma {:induction false} ColonPattern(text: string)
    ensures Like("%:%", text, None) <==> ':' in text
  {
    assert "%:%"[1..] == ":%" && ":%"[1..] == "%";
    if text != [] {
      assert text == [text[0]] + text[1..];
      ColonPattern(text[1..]);
      PercentMatchesAll(text[1..], None);
    }
  }

  /**
   * The escaped pattern means what it should: a key matches if and only if it begins with the id and
   * a colon, up to ASCII case, whatever wildcards the id itself contains.
   */
  lemma {:induction false} EscapedPrefix(id: string, key: string)
    ensures Like(Escaped(id) + ":%", key, Some('\\'))
       <==> |key| > |id| && SameFolded(id + ":", key[..|id| + 1])
  {
    EscapedIsQuoted(id);
    QuotedPrefix(id, key);
  }

  lemma {:induction false} QuotedPrefix(id: string, key: string)
    ensures Like(Quoted(id) + ":%", key, Some('\\'))
       <==> |key| > |id| && SameFolded(id + ":", key[..|id| + 1])
  {
    if id == [] {
      assert Quoted(id) + ":%" == ":%" && ":%"[1..] == "%";
      if key != [] { PercentMatchesAll(key[1..], Some('\\')); }
    } else if key == [] {
      assert (Quoted(id) + ":%")[0] != '%';
    } else {
      QuotedPrefix(id[1..], key[1..]);
      StepOver(id, key);
      SameFoldedStep(id, key);
    }
  }

  /** The quoted pattern consumes one character of the id and one of the key. */
  lemma {:induction false} StepOver(id: string, key: string)
    requires id != [] && key != []
    ensures Like(Quoted(id) + ":%", key, Some('\\'))
       <==> Fold(id[0]) == Fold(key[0]) && Like(Quoted(id[1..]) + ":%", key[1..], Some('\\'))
  {
    hide Like, Quoted;
    QuotedStep(id);
    var q := Quoted(id[1..]) + ":%";
    if id[0] in "\\%_" {
      assert Quoted(id) + ":%" == ['\\', id[0]] + q;
      EscapedCharacter(id[0], q, key);
    } else {
      assert Quoted(id) + ":%" == [id[0]] + q;
      PlainCharacter(id[0], q, key);
    }
  }

  lemma {:induction false} EscapedCharacter(x: char, q: string, key: string)
    requires key != []
    ensures Like(['\\', x] + q, key, Some('\\')) <==> Fold(x) == Fold(key[0]) && Like(q, key[1..], Some('\\'))
  {
    assert (['\\', x] + q)[2..] == q;
  }

  lemma {:induction false} PlainCharacter(x: char, q: string, key: string)
    requires key != [] && x !in "\\%_"
    ensures Like([x] + q, key, Some('\\')) <==> Fold(x) == Fold(key[0]) && Like(q, key[1..], Some('\\'))
  {
    assert ([x] + q)[1..] == q;
  }

  lemma SameFoldedStep(id: string, key: string)
    requires id != [] && key != []
    ensures |key| > |id| && SameFolded(id + ":", key[..|id| + 1])
       <==> |key| > |id| && Fold(id[0]) == Fold(key[0]) && SameFolded(id[1..] + ":", key[1..][..|id|])
  {
    if |key| > |id| {
      var a, b := id + ":", key[..|id| + 1];
      assert id[1..] + ":" == a[1..] && key[1..][..|id|] == b[1..];
      if Fold(a[0]) == Fold(b[0]) && SameFolded(a[1..], b[1..]) {
        forall k | 0 <= k < |a| ensures Fold(a[k]) == Fold(b[k]) {
          if k > 0 { assert Fold(a[1..][k - 1]) == Fold(b[1..][k - 1]); }
        }
      }
    }
  }

  /** The key begins like the id and a colon, up to ASCII case, with the id's underscores standing for
      any character. */
  predicate BeginsLike(id: string, key: string) {
    && |key| > |id| && key[|id|] == ':'
    && forall n :: 0 <= n < |id| ==> id[n] == '_' || Fold(id[n]) == Fold(key[n])
  }

  /** What the pattern would mean without escaping, for an id with no other special character. */
  lemma {:induction false} UnescapedPattern(id: string, key: string)
    requires '%' !in id && '\\' !in id
    ensures Like(id + ":%", key, Some('\\')) <==> BeginsLike(id, key)
  {
    if id == [] {
      assert id + ":%" == ":%" && ":%"[1..] == "%";
      if key != [] { PercentMatchesAll(key[1..], Some('\\')); }
    } else if key == [] {
      assert (id + ":%")[0] == id[0];
    } else {
      assert '%' !in id[1..] && '\\' !in id[1..];
      UnescapedPattern(id[1..], key[1..]);
      assert (id + ":%")[0] == id[0] && (id + ":%")[1..] == id[1..] + ":%";
      BeginsLikeStep(id, key);
    }
  }

  lemma {:induction false} BeginsLikeStep(id: string, key: string)
    requires id != [] && key != []
    ensures BeginsLike(id, key)
       <==> (id[0] == '_' || Fold(id[0]) == Fold(key[0])) && BeginsLike(id[1..], key[1..])
  {
    assert forall n :: 0 <= n < |id| - 1 ==> id[1..][n] == id[n + 1];
    assert forall n :: 0 <= n < |key| - 1 ==> key[1..][n] == key[n + 1];
    if BeginsLike(id[1..], key[1..]) && (id[0] == '_' || Fold(id[0]) == Fold(key[0])) {
      forall n | 0 <= n < |id| ensures id[n] == '_' || Fold(id[n]) == Fold(key[n]) {
        if n > 0 { assert id[1..][n - 1] == id[n] && key[1..][n - 1] == key[n]; }
      }
    }
  }
}

/** The rollback archiver: what one run does to the history database. */
module Rollback {
  import opened Common
  import opened SqlLike

  const DEFAULT_DEVICE_ID := "default"

  type Id = int

  /** A row of charge_sessions or port_history: its device, and the other columns. */
  datatype Owned = Owned(device: string, data: nat)

  /** A row of charge_points: it has no device of its own, only a session. */
  datatype Point = Point(session: Id, data: nat)

  /** A main table and its archive table, rows by primary key. */
  datatype Shelf<!K, R> = Shelf(main: map<K, R>, archive: map<K, R>)

  datatype Store = Store(
    points: Shelf<Id, Point>, sessions: Shelf<Id, Owned>, samples: Shelf<Id, Owned>, meta: Shelf<string, string>)

  datatype Table = ChargePoints | ChargeSessions | PortHistory

  /** Insert-or-ignore the rows with these keys into the archive, then delete them from the main table. */
  function Move<K, R>(s: Shelf<K, R>, keys: set<K>): Shelf<K, R> {
    Shelf(s.main - keys, (map k | k in s.main && k in keys :: s.main[k]) + s.archive)
  }

  function Foreign(rows: map<Id, Owned>, keep: string): set<Id> {
    set i | i in rows && rows[i].device != keep
  }

  /** A point belongs to whatever device its session belongs to. */
  function ForeignPoints(points: map<Id, Point>, sessions: map<Id, Owned>, keep: string): set<Id> {
    set i | i in points && points[i].session in sessions && sessions[points[i].session].device != keep
  }

  /** A namespaced key that is not in the kept device's namespace. */
  predicate ForeignKey(key: string, keep: string) {
    Like("%:%", key, None) && !Like(Escaped(keep) + ":%", key, Some('\\'))
  }

  function ForeignKeys(meta: map<string, string>, keep: string): set<string> {
    set k | k in meta && ForeignKey(k, keep)
  }

  /** A point whose session is another device's. */
  predicate ForeignPoint(s: Store, i: Id, keep: string)
    requires i in s.points.main
  {
    var session := s.points.main[i].session;
    session in s.sessions.main && s.sessions.main[session].device != keep
  }

  datatype Stats = Stats(points: nat, sessions: nat, samples: nat, meta: nat)

  function Plan(s: Store, keep: string): Stats {
    Stats(|ForeignPoints(s.points.main, s.sessions.main, keep)|, |Foreign(s.sessions.main, keep)|,
          |Foreign(s.samples.main, keep)|, |ForeignKeys(s.meta.main, keep)|)
  }

  /** What a run is for: every row moved by what it was in the database before the run. */
  function Archived(s: Store, keep: string): Store {
    Store(Move(s.points, ForeignPoints(s.points.main, s.sessions.main, keep)),
          Move(s.sessions, Foreign(s.sessions.main, keep)),
          Move(s.samples, Foreign(s.samples.main, keep)),
          Move(s.meta, ForeignKeys(s.meta.main, keep)))
  }

  /** The statements for one table, their filter evaluated on the database as it is at that point. */
  function Stage(s: Store, table: Table, keep: string): Store {
    match table
    case ChargePoints => s.(points := Move(s.points, ForeignPoints(s.points.main, s.sessions.main, keep)))
    case ChargeSessions => s.(sessions := Move(s.sessions, Foreign(s.sessions.main, keep)))
    case PortHistory => s.(samples := Move(s.samples, Foreign(s.samples.main, keep)))
  }

  function Stages(s: Store, order: seq<Table>, keep: string): Store {
    if order == [] then s else Stage(Stages(s, order[..|order| - 1], keep), order[|order| - 1], keep)
  }

  // ----- what is left in the main tables -----

  /** The main tables are what an installation that only ever knew one device would have. */
  ghost predicate OnlyKept(s: Store, keep: string) {
    && (forall i :: i in s.sessions.main ==> s.sessions.main[i].device == keep)
    && (forall i :: i in s.samples.main ==> s.samples.main[i].device == keep)
    && (forall k :: k in s.meta.main ==> !ForeignKey(k, keep))
  }

  /**
   * After a run the main tables hold exactly the kept device's sessions and samples, exactly the
   * points not belonging to another device's session, and no other device's settings.
   */
  lemma OnlyKeptDeviceRemains(s: Store, keep: string)
    ensures OnlyKept(Archived(s, keep), keep)
    ensures var m := Archived(s, keep);
            && (forall i :: i in m.sessions.main <==> i in s.sessions.main && s.sessions.main[i].device == keep)
            && (forall i :: i in m.samples.main <==> i in s.samples.main && s.samples.main[i].device == keep)
            && (forall i :: i in m.points.main <==> i in s.points.main && !ForeignPoint(s, i, keep))
            && (forall k :: k in m.meta.main <==> k in s.meta.main && !ForeignKey(k, keep))
    ensures forall i :: i in Archived(s, keep).points.main ==> Archived(s, keep).points.main[i] == s.points.main[i]
  {
    hide ForeignKey;
  }

  // ----- nothing is lost -----

  /** All rows, wherever they are. */
  ghost function Rows<K, R>(s: Shelf<K, R>): set<(K, R)> {
    s.main.Items + s.archive.Items
  }

  /** No row about to move finds another row in its place in the archive. */
  ghost predicate NoClash<K, R>(s: Shelf<K, R>, keys: set<K>) {
    forall k :: k in keys && k in s.main && k in s.archive ==> s.archive[k] == s.main[k]
  }

  /** Moving keeps all rows exactly if none of them clashes; it never makes one up. */
  lemma MoveKeepsRows<K, R>(s: Shelf<K, R>, keys: set<K>)
    ensures Rows(Move(s, keys)) <= Rows(s)
    ensures Rows(Move(s, keys)) == Rows(s) <==> NoClash(s, keys)
  {
    var m := Move(s, keys);
    forall p | p in Rows(m) ensures p in Rows(s) {
      assert p.0 in m.main || p.0 in m.archive;
      if p in m.archive.Items && p.0 !in s.archive { assert p in s.main.Items; }
      else if p in m.archive.Items { assert p in s.archive.Items; }
      else { assert p in s.main.Items; }
    }
    if NoClash(s, keys) {
      forall p | p in Rows(s) ensures p in Rows(m) {
        if p in s.archive.Items { assert p in m.archive.Items; }
        else if p.0 in keys { assert m.archive[p.0] == p.1 && p in m.archive.Items; }
        else { assert p in m.main.Items; }
      }
    } else {
      var k :| k in keys && k in s.main && k in s.archive && s.archive[k] != s.main[k];
      assert (k, s.main[k]) in s.main.Items;
      assert k !in m.main && m.archive[k] == s.archive[k];
      assert (k, s.main[k]) !in m.archive.Items;
    }
  }

  /** No selected row meets a different archived row under its id. */
  ghost predicate Clean(s: Store, keep: string) {
    && NoClash(s.points, ForeignPoints(s.points.main, s.sessions.main, keep))
    && NoClash(s.sessions, Foreign(s.sessions.main, keep))
    && NoClash(s.samples, Foreign(s.samples.main, keep))
    && NoClash(s.meta, ForeignKeys(s.meta.main, keep))
  }

  ghost predicate SameRows(a: Store, b: Store) {
    && Rows(a.points) == Rows(b.points) && Rows(a.sessions) == Rows(b.sessions)
    && Rows(a.samples) == Rows(b.samples) && Rows(a.meta) == Rows(b.meta)
  }

  /**
   * A run preserves the rows of main and archive tables together if and only if no row it selects
   * is archived differently under the same id already; in particular if the ids are disjoint.
   */
  lemma NothingIsLost(s: Store, keep: string)
    ensures SameRows(Archived(s, keep), s) <==> Clean(s, keep)
  {
    hide Rows, NoClash, Move, Foreign, ForeignPoints, ForeignKeys;
    MoveKeepsRows(s.points, ForeignPoints(s.points.main, s.sessions.main, keep));
    MoveKeepsRows(s.sessions, Foreign(s.sessions.main, keep));
    MoveKeepsRows(s.samples, Foreign(s.samples.main, keep));
    MoveKeepsRows(s.meta, ForeignKeys(s.meta.main, keep));
  }

  ghost predicate Disjoint(s: Store) {
    && s.points.main.Keys !! s.points.archive.Keys && s.sessions.main.Keys !! s.sessions.archive.Keys
    && s.samples.main.Keys !! s.samples.archive.Keys && s.meta.main.Keys !! s.meta.archive.Keys
  }

  /** With disjoint ids every row is in exactly one of the two tables, before and after. */
  lemma DisjointIdsLoseNothing(s: Store, keep: string)
    requires Disjoint(s)
    ensures SameRows(Archived(s, keep), s) && Disjoint(Archived(s, keep))
  {
    hide SameRows, ForeignKey;
    NothingIsLost(s, keep);
  }

  // ----- running it again -----

  lemma MoveNothing<K, R>(s: Shelf<K, R>)
    ensures Move(s, {}) == s
  {
    var m := Move(s, {});
    assert m.main == s.main;
    assert m.archive == s.archive;
  }

  lemma NoneForeign(rows: map<Id, Owned>, keep: string)
    requires forall i :: i in rows ==> rows[i].device == keep
    ensures Foreign(rows, keep) == {}
  {
    assert forall i: Id :: i !in Foreign(rows, keep);
  }

  /** A second run finds nothing to archive and changes nothing. */
  lemma SecondRunIsIdle(s: Store, keep: string)
    ensures Plan(Archived(s, keep), keep) == Stats(0, 0, 0, 0)
    ensures Archived(Archived(s, keep), keep) == Archived(s, keep)
  {
    var m := Archived(s, keep);
    OnlyKeptDeviceRemains(s, keep);
    hide Move, Archived, ForeignKey;
    NoneForeign(m.sessions.main, keep);
    NoneForeign(m.samples.main, keep);
    assert ForeignPoints(m.points.main, m.sessions.main, keep) == {};
    assert ForeignKeys(m.meta.main, keep) == {};
    IdleWhenNothingForeign(m, keep);
  }

  /** A database with nothing to archive is left as it is: the early exit skips nothing. */
  lemma IdleWhenNothingForeign(s: Store, keep: string)
    requires Plan(s, keep) == Stats(0, 0, 0, 0)
    ensures Archived(s, keep) == s
  {
    hide Move, Foreign, ForeignPoints, ForeignKeys;
    MoveNothing(s.points);
    MoveNothing(s.sessions);
    MoveNothing(s.samples);
    MoveNothing(s.meta);
  }

  // ----- the order of the tables -----

  predicate EachTableOnce(order: seq<Table>) {
    |order| == 3 && ChargePoints in order && ChargeSessions in order && PortHistory in order
  }

  predicate PointsFirst(order: seq<Table>) {
    exists i, j :: 0 <= i < j < |order| && order[i] == ChargePoints && order[j] == ChargeSessions
  }

  /** Once the foreign sessions are gone no point can be told to be foreign. */
  lemma SessionsGone(s: Store, keep: string)
    ensures var t := Stage(s, ChargeSessions, keep);
            ForeignPoints(t.points.main, t.sessions.main, keep) == {} && Stage(t, ChargePoints, keep) == t
  {
    var t := Stage(s, ChargeSessions, keep);
    assert ForeignPoints(t.points.main, t.sessions.main, keep) == {};
    MoveNothing(t.points);
  }

  /** The result of archiving the three tables in some order, over the original filters. */
  lemma {:induction false} StagesResult(s: Store, order: seq<Table>, keep: string)
    requires EachTableOnce(order)
    ensures Stages(s, order, keep) ==
              s.(points := if PointsFirst(order) then Archived(s, keep).points else s.points,
                 sessions := Archived(s, keep).sessions, samples := Archived(s, keep).samples)
  {
    var a, b, c := order[0], order[1], order[2];
    assert order == [a, b, c];
    ThreeStages(s, a, b, c, keep);
    OrderOfThree(a, b, c);
    hide Move, Foreign, ForeignPoints, Stages;
    if PointsFirst(order) {
    } else if b == PortHistory {
      SessionsGone(Stage(s, PortHistory, keep), keep);
      SessionsGone(s, keep);
    } else if a == PortHistory {
      SessionsGone(Stage(s, PortHistory, keep), keep);
    } else {
      SessionsGone(s, keep);
    }
  }

  lemma {:induction false} ThreeStages(s: Store, a: Table, b: Table, c: Table, keep: string)
    ensures Stages(s, [a, b, c], keep) == Stage(Stage(Stage(s, a, keep), b, keep), c, keep)
  {
    hide Stage;
    assert [a, b, c][..2] == [a, b] && [a, b][..1] == [a] && [a][..0] == [];
    assert Stages(s, [a], keep) == Stage(Stages(s, [], keep), a, keep);
    assert Stages(s, [a, b], keep) == Stage(Stages(s, [a], keep), b, keep);
  }

  lemma OrderOfThree(a: Table, b: Table, c: Table)
    requires EachTableOnce([a, b, c])
    ensures PointsFirst([a, b, c]) <==> (a == ChargePoints || (a == PortHistory && b == ChargePoints))
  {
    var o := [a, b, c];
    if a == ChargePoints {
      assert o[0] == ChargePoints && (o[1] == ChargeSessions || o[2] == ChargeSessions);
    } else if a == PortHistory && b == ChargePoints {
      assert o[1] == ChargePoints && o[2] == ChargeSessions;
    }
  }

  /**
   * The order is essential.  Archiving the three tables in some order gives the intended result on
   * a database if and only if the points come before the sessions or no point is foreign; otherwise
   * not one foreign point leaves the main table.
   */
  lemma {:induction false} OrderIsEssential(s: Store, order: seq<Table>, keep: string)
    requires EachTableOnce(order)
    ensures Stages(s, order, keep) == Archived(s, keep).(meta := s.meta)
       <==> PointsFirst(order) || ForeignPoints(s.points.main, s.sessions.main, keep) == {}
    ensures !PointsFirst(order) ==> Stages(s, order, keep).points == s.points
  {
    StagesResult(s, order, keep);
    hide PointsFirst, Stages;
    var f := ForeignPoints(s.points.main, s.sessions.main, keep);
    if i :| i in f {
      assert i in s.points.main && i !in Archived(s, keep).points.main;
    } else {
      assert forall i: Id :: i !in f;
      MoveNothing(s.points);
    }
  }

  // ----- the settings -----

  /** The key under which a device's setting is stored: bare for the primary device. */
  function MetaKey(key: string, device: string): string {
    if device == "" || device == DEFAULT_DEVICE_ID then key else device + ":" + key
  }

  /** Device ids as the configuration accepts them: lower-case letters, digits, dash, underscore. */
  predicate ValidId(id: string) {
    id != "" && forall k :: 0 <= k < |id| ==>
                  'a' <= id[k] <= 'z' || '0' <= id[k] <= '9' || id[k] == '-' || id[k] == '_'
  }

  lemma NoColonInside(id: string, rest: string)
    requires ValidId(id)
    ensures forall n :: 0 <= n < |id| ==> (id + ":" + rest)[n] != ':'
  {
    assert forall n :: 0 <= n < |id| ==> (id + ":" + rest)[n] == id[n];
  }

  /** A device's namespace is recognised by its prefix, although LIKE ignores case. */
  lemma NamespaceIsOwn(id: string, keep: string, key: string)
    requires ValidId(id) && ValidId(keep)
    ensures var k := id + ":" + key;
            |k| > |keep| && SameFolded(keep + ":", k[..|keep| + 1]) <==> id == keep
  {
    var k := id + ":" + key;
    if id == keep {
      assert k[..|keep| + 1] == keep + ":";
    }
    if |k| > |keep| && SameFolded(keep + ":", k[..|keep| + 1]) {
      var a, b := keep + ":", k[..|keep| + 1];
      assert Fold(a[|keep|]) == Fold(b[|keep|]) && k[|keep|] == ':';
      NoColonInside(id, key);
      assert Fold(a[|id|]) == Fold(b[|id|]) && k[|id|] == ':';
      assert keep + ":" + "" == a;
      NoColonInside(keep, "");
      forall n | 0 <= n < |id| ensures id[n] == keep[n] {
        assert Fold(a[n]) == Fold(b[n]) && k[n] == id[n];
      }
      assert id == keep;
    }
  }

  /**
   * Which settings leave: those of every named device except the kept one.  The primary device's
   * keys are bare and always stay.
   */
  lemma SettingsFollowTheirDevice(key: string, device: string, keep: string)
    requires ValidId(device) && ValidId(keep)
    requires ':' !in key
    ensures ForeignKey(MetaKey(key, device), keep) <==> device != DEFAULT_DEVICE_ID && device != keep
  {
    var k := MetaKey(key, device);
    ColonPattern(k);
    EscapedPrefix(keep, k);
    hide Like, Escaped, SameFolded;
    if device != DEFAULT_DEVICE_ID {
      assert k == device + ":" + key && k[|device|] == ':';
      NamespaceIsOwn(device, keep, key);
    }
  }

  /**
   * Why the id is escaped: without it a setting of another device would pass for the kept one's
   * exactly if the two ids have the same length and differ only where the kept one has an underscore.
   */
  lemma {:induction false} UnescapedConfusesExactly(keep: string, other: string, key: string)
    requires ValidId(keep) && ValidId(other) && ':' !in key
    ensures Like(keep + ":%", other + ":" + key, Some('\\'))
       <==> |keep| == |other| && forall n :: 0 <= n < |keep| ==> keep[n] == '_' || keep[n] == other[n]
  {
    var k := other + ":" + key;
    UnescapedPattern(keep, k);
    hide Like;
    OnlyColon(other, key);
    assert forall n :: 0 <= n < |other| ==> k[n] == other[n];
    assert forall n :: 0 <= n < |keep| ==> Fold(keep[n]) == keep[n];
    assert forall n :: 0 <= n < |other| ==> Fold(other[n]) == other[n];
    if BeginsLike(keep, k) {
      assert |keep| == |other|;
    }
  }

  /** The colon behind the id is the key's only one. */
  lemma {:induction false} OnlyColon(id: string, rest: string)
    requires ValidId(id) && ':' !in rest
    ensures forall n :: 0 <= n < |id + ":" + rest| ==> ((id + ":" + rest)[n] == ':' <==> n == |id|)
  {
    var k := id + ":" + rest;
    forall n | 0 <= n < |k| ensures k[n] == ':' <==> n == |id| {
      if n < |id| {
        assert k[n] == id[n];
      } else if n > |id| {
        assert k[n] == rest[n - |id| - 1];
      }
    }
  }

  /** Setting k has the value v in the main table. */
  function Set(s: Store, k: string, v: string): Store {
    s.(meta := s.meta.(main := s.meta.main[k := v]))
  }

  /**
   * A setting rolled back twice loses its second value.  Archive another device's setting once, set
   * it again to something else, and roll back again: the second run meets the archived first value,
   * so it is no longer preserving, and the second value is neither in the main table nor archived.
   */
  lemma SettingSetAgainIsLost(s: Store, key: string, device: string, keep: string, first: string, second: string)
    requires ValidId(device) && ValidId(keep) && device != DEFAULT_DEVICE_ID && device != keep
    requires ':' !in key && first != second
    requires var k := MetaKey(key, device); k !in s.meta.archive
    ensures var k := MetaKey(key, device);
            var again := Set(Archived(Set(s, k, first), keep), k, second);
            var r := Archived(again, keep);
            && !Clean(again, keep) && !SameRows(r, again)
            && k !in r.meta.main && k in r.meta.archive && r.meta.archive[k] == first
            && (k, second) in Rows(again.meta) && (k, second) !in Rows(r.meta)
  {
    hide ForeignKey, NoClash, Foreign, ForeignPoints, Clean, SameRows;
    var k := MetaKey(key, device);
    SettingsFollowTheirDevice(key, device, keep);
    var again := Set(Archived(Set(s, k, first), keep), k, second);
    var r := Archived(again, keep);
    assert again.meta.archive[k] == first && again.meta.main[k] == second;
    assert r.meta.archive[k] == first && k !in r.meta.main;
    assert (k, second) in again.meta.main.Items;
    assert (k, second) !in r.meta.archive.Items && (k, second) !in r.meta.main.Items;
    MetaClash(again, keep, k, r);
  }

  lemma MetaClash(s: Store, keep: string, k: string, r: Store)
    requires r == Archived(s, keep)
    requires k in s.meta.main && (k, s.meta.main[k]) !in Rows(r.meta)
    ensures !SameRows(r, s) && !Clean(s, keep)
  {
    hide Rows, Clean, Move;
    assert (k, s.meta.main[k]) in Rows(s.meta) by { RowsOfMain(s.meta, k); }
    NothingIsLost(s, keep);
  }

  lemma RowsOfMain<K, R>(s: Shelf<K, R>, k: K)
    requires k in s.main
    ensures (k, s.main[k]) in Rows(s)
  {
    assert (k, s.main[k]) in s.main.Items;
  }
}

/** The script itself, statement by statement, on the open database. */
module HistoryDown {
  import opened Rollback

  const TABLES := [ChargePoints, ChargeSessions, PortHistory]

  datatype Outcome =
    | NoHistory
    | LegacySchema
    | SqlError
    | Done(stats: Stats)

  class HistoryDb {
    /** Which tables exist, and whether the sessions have the device column. */
    const hasSessions: bool
    const hasDeviceColumn: bool
    const hasOtherTables: bool

    var points: map<Id, Point>
    var pointsArchive: map<Id, Point>
    var sessions: map<Id, Owned>
    var sessionsArchive: map<Id, Owned>
    var samples: map<Id, Owned>
    var samplesArchive: map<Id, Owned>
    var meta: map<string, string>
    var metaArchive: map<string, string>

    ghost function Value(): Store
      reads this
    {
      Store(Shelf(points, pointsArchive), Shelf(sessions, sessionsArchive),
            Shelf(samples, samplesArchive), Shelf(meta, metaArchive))
    }

    constructor (hasSessions: bool, hasDeviceColumn: bool, hasOtherTables: bool, s: Store)
      ensures Value() == s && this.hasSessions == hasSessions
      ensures this.hasDeviceColumn == hasDeviceColumn && this.hasOtherTables == hasOtherTables
    {
      this.hasSessions, this.hasDeviceColumn := hasSessions, hasDeviceColumn;
      this.hasOtherTables := hasOtherTables;
      points, pointsArchive := s.points.main, s.points.archive;
      sessions, sessionsArchive := s.sessions.main, s.sessions.archive;
      samples, samplesArchive := s.samples.main, s.samples.archive;
      meta, metaArchive := s.meta.main, s.meta.archive;
    }

    /** Insert or ignore into the archive, then delete by the same condition. */
    method ArchiveTable(table: Table, keep: string)
      modifies this
      ensures Value() == Stage(old(Value()), table, keep)
    {
      match table {
        case ChargePoints =>
          var chosen := ForeignPoints(points, sessions, keep);
          pointsArchive := (map i | i in points && i in chosen :: points[i]) + pointsArchive;
          points := points - ForeignPoints(points, sessions, keep);
        case ChargeSessions =>
          var chosen := Foreign(sessions, keep);
          sessionsArchive := (map i | i in sessions && i in chosen :: sessions[i]) + sessionsArchive;
          sessions := sessions - Foreign(sessions, keep);
        case PortHistory =>
          var chosen := Foreign(samples, keep);
          samplesArchive := (map i | i in samples && i in chosen :: samples[i]) + samplesArchive;
          samples := samples - Foreign(samples, keep);
      }
    }

    /**
     * The whole script: count, stop early, then table by table and the settings last.  The database
     * ends up with every row moved by what it was before the run.
     */
    method ArchiveNonPrimary(keep: string, dryRun: bool) returns (r: Outcome)
      modifies this
      ensures r == if !hasSessions then NoHistory
                   else if !hasDeviceColumn then LegacySchema
                   else if !hasOtherTables then SqlError
                   else Done(Plan(old(Value()), keep))
      ensures Value() == if r.Done? && !dryRun then Archived(old(Value()), keep) else old(Value())
    {
      hide Move, Foreign, ForeignPoints, ForeignKeys, Stage, Archived, PointsFirst;
      if !hasSessions { return NoHistory; }
      if !hasDeviceColumn { return LegacySchema; }
      if !hasOtherTables { return SqlError; }
      var stats := Stats(|ForeignPoints(points, sessions, keep)|, |Foreign(sessions, keep)|,
                         |Foreign(samples, keep)|, |ForeignKeys(meta, keep)|);
      r := Done(stats);
      ghost var s := Value();
      if dryRun { return; }
      if stats.points == 0 && stats.sessions == 0 && stats.samples == 0 && stats.meta == 0 {
        IdleWhenNothingForeign(s, keep);
        return;
      }
      for n := 0 to |TABLES|
        invariant Value() == Stages(s, TABLES[..n], keep)
      {
        ArchiveTable(TABLES[n], keep);
        StagesStep(s, n, keep);
      }
      assert TABLES[..|TABLES|] == TABLES;
      TablesInOrder();
      StagesResult(s, TABLES, keep);
      FinishedRun(s, keep);
      if stats.meta != 0 {
        ArchiveMeta(keep);
      } else {
        MoveNothing(s.meta);
      }
    }

    /** The same two statements for the namespaced settings. */
    method ArchiveMeta(keep: string)
      modifies this
      ensures Value() == old(Value()).(meta := Move(old(Value()).meta, ForeignKeys(old(meta), keep)))
    {
      hide ForeignKey;
      var chosen := ForeignKeys(meta, keep);
      metaArchive := (map k | k in meta && k in chosen :: meta[k]) + metaArchive;
      meta := meta - ForeignKeys(meta, keep);
    }
  }

  lemma FinishedRun(s: Store, keep: string)
    ensures s.(points := Archived(s, keep).points, sessions := Archived(s, keep).sessions,
               samples := Archived(s, keep).samples, meta := Move(s.meta, ForeignKeys(s.meta.main, keep)))
         == Archived(s, keep)
  {}

  lemma {:induction false} StagesStep(s: Store, n: nat, keep: string)
    requires n < |TABLES|
    ensures Stages(s, TABLES[..n + 1], keep) == Stage(Stages(s, TABLES[..n], keep), TABLES[n], keep)
  {
    assert TABLES[..n + 1][..n] == TABLES[..n];
  }

  lemma TablesInOrder()
    ensures EachTableOnce(TABLES) && PointsFirst(TABLES)
  {
    assert TABLES[0] == ChargePoints && TABLES[1] == ChargeSessions && TABLES[2] == PortHistory;
  }
}
