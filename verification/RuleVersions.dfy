/**
 The rules service as a transition system: the rule_versions table, publishing transactions,
 readers going through the Redis cell, and a clock. Every statement is one step; steps of
 different calls interleave freely, calls may fail or die between steps, and Redis may fail.
 */
module RuleVersions {
  import opened Fine
  import opened Options
  import opened Traces

  type Time = int

  datatype Row = Row(number: int, active: bool, ruleset: Ruleset, author: string)

  type Rows = map<nat, Row>

  datatype Version = Version(id: nat, number: int, ruleset: Ruleset, author: string)

  /** History: version id became the active one at the given time. */
  datatype Activation = Activation(id: nat, at: Time)

  datatype Expiry = Never | At(time: Time)

  /** The Redis key: the cached version, when the key expires, and (history) when it was read. */
  datatype Cell = Cell(version: Version, expires: Expiry, readAt: Time)

  datatype PublishPhase =
    | Begun
    | Numbered(next: int)
    | Deactivated(next: int, hidden: set<nat>)
    | Inserted(next: int, hidden: set<nat>, id: nat)
    | Committed
    | Finished
    | Rejected
    | Aborted

  datatype Publisher = Publisher(ruleset: Ruleset, author: string, phase: PublishPhase)

  datatype Reader =
    | Asking
    | Missed
    | Fetched(version: Version, readAt: Time)
    | Answered(version: Version, readAt: Time, at: Time)
    | NoActiveRuleset
    | Lost

  /** ttl: RULES_CACHE_TTL, 0 meaning no expiry; lag: the most a reader takes from read to fill. */
  datatype Config = Config(ttl: Time, lag: Time)

  datatype State = State(
    rows: Rows, history: seq<Activation>, cell: Option<Cell>,
    publishers: map<nat, Publisher>, readers: map<nat, Reader>, now: Time)

  datatype Action =
    | Tick(elapsed: Time)
    | StartPublish(p: nat, ruleset: Ruleset, author: string)
    | ReadMax(p: nat)
    | Deactivate(p: nat)
    | Insert(p: nat, id: nat)
    | Commit(p: nat)
    | Abort(p: nat)
    | Invalidate(p: nat, redisOk: bool)
    | Ask(q: nat)
    | Lookup(q: nat, redisOk: bool)
    | Fetch(q: nat)
    | Fill(q: nat, redisOk: bool)
    | Die(q: nat)
    | Evict

  // ------------------------------------------------------------------ the statements

  function ActiveIds(rows: Rows): set<nat> {
    set id | id in rows && rows[id].active
  }

  predicate IsMax(rows: Rows, m: int) {
    if rows == map[] then m == 0
    else (exists id :: id in rows && rows[id].number == m) && forall id :: id in rows ==> rows[id].number <= m
  }

  function VersionOf(rows: Rows, id: nat): Version
    requires id in rows
  {
    Version(id, rows[id].number, rows[id].ruleset, rows[id].author)
  }

  /** UPDATE rule_versions SET is_active = false, for the rows the transaction saw active. */
  function Hide(rows: Rows, hidden: set<nat>): Rows {
    map id | id in rows :: if id in hidden then rows[id].(active := false) else rows[id]
  }

  /** The two unique indexes and the primary key, checked against the committed table. */
  predicate Conflict(rows: Rows, next: int, hidden: set<nat>, id: nat) {
    || id in rows
    || (exists j :: j in rows && rows[j].number == next)
    || exists j :: j in rows && rows[j].active && j !in hidden
  }

  function CommitRows(rows: Rows, p: Publisher): Rows
    requires p.phase.Inserted?
  {
    Hide(rows, p.phase.hidden)[p.phase.id := Row(p.phase.next, true, p.ruleset, p.author)]
  }

  predicate Live(cell: Option<Cell>, now: Time) {
    cell.Some? && (cell.value.expires.At? ==> now < cell.value.expires.time)
  }

  function ExpiryAfter(c: Config, now: Time): Expiry {
    if c.ttl == 0 then Never else At(now + c.ttl)
  }

  predicate InTransaction(phase: PublishPhase) {
    phase.Begun? || phase.Numbered? || phase.Deactivated? || phase.Inserted?
  }

  // ---------------------------------------------------------------- the transitions

  predicate Enabled(c: Config, s: State, a: Action) {
    match a
    case Tick(d) => d >= 0
    case StartPublish(p, _, _) => p !in s.publishers
    case ReadMax(p) => p in s.publishers && s.publishers[p].phase.Begun?
    case Deactivate(p) => p in s.publishers && s.publishers[p].phase.Numbered?
    case Insert(p, _) => p in s.publishers && s.publishers[p].phase.Deactivated?
    case Commit(p) => p in s.publishers && s.publishers[p].phase.Inserted?
    case Abort(p) => p in s.publishers && InTransaction(s.publishers[p].phase)
    case Invalidate(p, _) => p in s.publishers && s.publishers[p].phase.Committed?
    case Ask(q) => q !in s.readers
    case Lookup(q, _) => q in s.readers && s.readers[q].Asking?
    case Fetch(q) => q in s.readers && s.readers[q].Missed?
    case Fill(q, _) => q in s.readers && s.readers[q].Fetched? && s.now <= s.readers[q].readAt + c.lag
    case Die(q) => q in s.readers && !s.readers[q].Answered?
    case Evict => true
  }

  ghost function Max(rows: Rows): int
  {
    if exists m :: IsMax(rows, m) then var m :| IsMax(rows, m); m else 0
  }

  function WithPhase(s: State, p: nat, phase: PublishPhase): State
    requires p in s.publishers
  {
    s.(publishers := s.publishers[p := s.publishers[p].(phase := phase)])
  }

  function WithReader(s: State, q: nat, r: Reader): State {
    s.(readers := s.readers[q := r])
  }

  ghost function FetchActive(s: State): Reader {
    if ActiveIds(s.rows) == {} then NoActiveRuleset
    else var id :| id in ActiveIds(s.rows); Fetched(VersionOf(s.rows, id), s.now)
  }

  ghost function Apply(c: Config, s: State, a: Action): State
    requires Enabled(c, s, a)
  {
    match a
    case Tick(d) => s.(now := s.now + d)
    case StartPublish(p, ruleset, author) =>
      s.(publishers := s.publishers[p := Publisher(ruleset, author, if Valid(ruleset) then Begun else Rejected)])
    case ReadMax(p) => WithPhase(s, p, Numbered(Max(s.rows) + 1))
    case Deactivate(p) => WithPhase(s, p, Deactivated(s.publishers[p].phase.next, ActiveIds(s.rows)))
    case Insert(p, id) =>
      var phase := s.publishers[p].phase;
      WithPhase(s, p, Inserted(phase.next, phase.hidden, id))
    case Commit(p) =>
      var phase := s.publishers[p].phase;
      if Conflict(s.rows, phase.next, phase.hidden, phase.id) then WithPhase(s, p, Aborted)
      else WithPhase(s, p, Committed).(
        rows := CommitRows(s.rows, s.publishers[p]),
        history := s.history + [Activation(phase.id, s.now)])
    case Abort(p) => WithPhase(s, p, Aborted)
    case Invalidate(p, redisOk) => WithPhase(if redisOk then s.(cell := None) else s, p, Finished)
    case Ask(q) => WithReader(s, q, Asking)
    case Lookup(q, redisOk) =>
      if redisOk && Live(s.cell, s.now)
      then WithReader(s, q, Answered(s.cell.value.version, s.cell.value.readAt, s.now))
      else WithReader(s, q, Missed)
    case Fetch(q) => WithReader(s, q, FetchActive(s))
    case Fill(q, redisOk) =>
      var r := s.readers[q];
      var filled := WithReader(s, q, Answered(r.version, r.readAt, s.now));
      if redisOk then filled.(cell := Some(Cell(r.version, ExpiryAfter(c, s.now), r.readAt))) else filled
    case Die(q) => WithReader(s, q, Lost)
    case Evict => s.(cell := None)
  }

  predicate Init(s: State) {
    s.rows == map[] && s.history == [] && s.cell == None && s.publishers == map[] && s.readers == map[]
  }

  ghost function Stepping(c: Config): (State, Action, State) -> bool {
    (s: State, a: Action, t: State) => Enabled(c, s, a) && t == Apply(c, s, a)
  }

  /** A run of the rules service. */
  ghost predicate Run(c: Config, s: State, acts: seq<Action>, t: State) {
    Leads(Stepping(c), s, acts, t)
  }

  // -------------------------------------------------------------- the table invariant

  /** The k-th activation created version number k+1; only the last one is active. */
  ghost predicate TableOk(rows: Rows, history: seq<Activation>) {
    && (forall k :: 0 <= k < |history| ==> history[k].id in rows && rows[history[k].id].number == k + 1)
    && (forall i, j :: i in rows && j in rows && rows[i].number == rows[j].number ==> i == j)
    && forall id :: id in rows ==> RowOk(rows[id], |history|)
  }

  predicate RowOk(row: Row, last: nat) {
    1 <= row.number <= last && (row.active <==> row.number == last) && Valid(row.ruleset)
  }

  ghost predicate HistoryOk(history: seq<Activation>, now: Time) {
    && (forall i, j :: 0 <= i <= j < |history| ==> history[i].at <= history[j].at)
    && forall i :: 0 <= i < |history| ==> history[i].at <= now
  }

  ghost predicate PublisherOk(rows: Rows, history: seq<Activation>, p: Publisher) {
    && (!p.phase.Rejected? ==> Valid(p.ruleset))
    && match p.phase
       case Numbered(next) => 1 <= next <= |history| + 1
       case Deactivated(next, hidden) =>
         1 <= next <= |history| + 1 && (next == |history| + 1 ==> hidden == ActiveIds(rows))
       case Inserted(next, hidden, _) =>
         1 <= next <= |history| + 1 && (next == |history| + 1 ==> hidden == ActiveIds(rows))
       case _ => true
  }

  ghost predicate StoreInv(s: State) {
    && TableOk(s.rows, s.history)
    && HistoryOk(s.history, s.now)
    && forall p :: p in s.publishers ==> PublisherOk(s.rows, s.history, s.publishers[p])
  }

  lemma MaxIsLast(s: State)
    requires TableOk(s.rows, s.history)
    ensures Max(s.rows) == |s.history|
  {
    var n := |s.history|;
    if n == 0 {
      assert s.rows == map[];
    } else {
      var last := s.history[n - 1].id;
      assert last in s.rows && s.rows[last].number == n;
      assert forall id :: id in s.rows ==> RowOk(s.rows[id], n);
    }
    assert IsMax(s.rows, n);
  }

  /** A new highest version in place of the active one. */
  lemma TableExtends(rows: Rows, history: seq<Activation>, p: Publisher, at: Time)
    requires TableOk(rows, history) && p.phase.Inserted? && Valid(p.ruleset)
    requires p.phase.id !in rows && p.phase.next == |history| + 1 && p.phase.hidden == ActiveIds(rows)
    ensures TableOk(CommitRows(rows, p), history + [Activation(p.phase.id, at)])
  {
  }

  /** A transaction overtaken by another commit can only end in a conflict. */
  lemma OvertakenConflicts(s: State, p: nat)
    requires StoreInv(s) && p in s.publishers && s.publishers[p].phase.Inserted?
    requires s.publishers[p].phase.id !in s.rows
    ensures var ph := s.publishers[p].phase;
            Conflict(s.rows, ph.next, ph.hidden, ph.id) <==> ph.next != |s.history| + 1
  {
    var pub := s.publishers[p];
    assert PublisherOk(s.rows, s.history, pub);
    if pub.phase.next <= |s.history| {
      var j := s.history[pub.phase.next - 1].id;
      assert j in s.rows && s.rows[j].number == pub.phase.next;
    }
  }

  /** A transaction that meets no conflict was not overtaken. */
  lemma CommitIsNext(s: State, p: nat)
    requires StoreInv(s) && p in s.publishers && s.publishers[p].phase.Inserted?
    requires var ph := s.publishers[p].phase; !Conflict(s.rows, ph.next, ph.hidden, ph.id)
    ensures s.publishers[p].phase.next == |s.history| + 1
    ensures s.publishers[p].phase.hidden == ActiveIds(s.rows)
  {
    assert PublisherOk(s.rows, s.history, s.publishers[p]);
    OvertakenConflicts(s, p);
  }

  lemma CommitTable(c: Config, s: State, p: nat)
    requires StoreInv(s) && Enabled(c, s, Commit(p))
    ensures var t := Apply(c, s, Commit(p)); TableOk(t.rows, t.history) && HistoryOk(t.history, t.now)
  {
    var ph := s.publishers[p].phase;
    if !Conflict(s.rows, ph.next, ph.hidden, ph.id) {
      CommitIsNext(s, p);
      TableExtends(s.rows, s.history, s.publishers[p], s.now);
    }
  }

  lemma CommitPublisher(c: Config, s: State, p: nat, r: nat)
    requires StoreInv(s) && Enabled(c, s, Commit(p)) && r in s.publishers
    ensures var t := Apply(c, s, Commit(p)); PublisherOk(t.rows, t.history, t.publishers[r])
  {
  }

  lemma CommitStep(c: Config, s: State, p: nat)
    requires StoreInv(s) && Enabled(c, s, Commit(p))
    ensures StoreInv(Apply(c, s, Commit(p)))
  {
    var t := Apply(c, s, Commit(p));
    CommitTable(c, s, p);
    forall r | r in t.publishers ensures PublisherOk(t.rows, t.history, t.publishers[r]) {
      CommitPublisher(c, s, p, r);
    }
  }

  lemma OnlyCommitWrites(c: Config, s: State, a: Action)
    requires Enabled(c, s, a) && !a.Commit?
    ensures var t := Apply(c, s, a); t.rows == s.rows && t.history == s.history && t.now >= s.now
  {
  }

  lemma PublisherStep(c: Config, s: State, a: Action, r: nat)
    requires StoreInv(s) && Enabled(c, s, a) && !a.Commit? && r in Apply(c, s, a).publishers
    ensures PublisherOk(s.rows, s.history, Apply(c, s, a).publishers[r])
  {
  }

  lemma StoreStep(c: Config, s: State, a: Action)
    requires StoreInv(s) && Enabled(c, s, a)
    ensures StoreInv(Apply(c, s, a))
  {
    if a.Commit? {
      CommitStep(c, s, a.p);
    } else {
      var t := Apply(c, s, a);
      OnlyCommitWrites(c, s, a);
      forall r | r in t.publishers ensures PublisherOk(t.rows, t.history, t.publishers[r]) {
        PublisherStep(c, s, a, r);
      }
    }
  }

  lemma StoreRun(c: Config, s: State, acts: seq<Action>, t: State)
    requires StoreInv(s) && Run(c, s, acts, t)
    ensures StoreInv(t)
  {
    var step := Stepping(c);
    forall x, a, y | StoreInv(x) && step(x, a, y) ensures StoreInv(y) { StoreStep(c, x, a); }
    RunKeeps(step, StoreInv, s, acts, t);
  }

  // --------------------------------------------------------- versions never change

  /** Every committed version is still there, with its number, ruleset and author. */
  ghost predicate Preserved(rows: Rows, later: Rows) {
    forall id :: id in rows ==> id in later && VersionOf(later, id) == VersionOf(rows, id)
  }

  /** Versions, history and clock of s, kept and extended in t. */
  ghost predicate Extends(s: State, t: State) {
    Preserved(s.rows, t.rows) && s.history <= t.history && s.now <= t.now
  }

  lemma VersionsKept(c: Config, s: State, a: Action)
    requires Enabled(c, s, a)
    ensures Extends(s, Apply(c, s, a))
  {
  }

  lemma ExtendsComposes(s: State, t: State, u: State)
    requires Extends(s, t) && Extends(t, u)
    ensures Extends(s, u)
  {
  }

  /** No run removes a committed version or changes its number, ruleset or author. */
  lemma VersionsNeverChange(c: Config, s: State, acts: seq<Action>, t: State)
    requires Run(c, s, acts, t)
    ensures Extends(s, t)
  {
    var step := Stepping(c);
    forall x, y, z | Extends(x, y) && Extends(y, z) ensures Extends(x, z) { ExtendsComposes(x, y, z); }
    forall x, a, y | step(x, a, y) ensures Extends(x, y) { VersionsKept(c, x, a); }
    RunRelates(step, Extends, s, acts, t);
  }

  /** Some publisher submitted the row's ruleset under the row's author, and committed it. */
  predicate Submitted(publishers: map<nat, Publisher>, row: Row) {
    exists p :: p in publishers && SubmittedBy(publishers[p], row)
  }

  predicate SubmittedBy(p: Publisher, row: Row) {
    (p.phase.Committed? || p.phase.Finished?) && p.ruleset == row.ruleset && p.author == row.author
  }

  ghost predicate AllSubmitted(s: State) {
    forall id :: id in s.rows ==> Submitted(s.publishers, s.rows[id])
  }

  /** A publisher keeps its submission, and its commit. */
  lemma SubmissionKept(c: Config, s: State, a: Action, row: Row)
    requires Enabled(c, s, a) && Submitted(s.publishers, row)
    ensures Submitted(Apply(c, s, a).publishers, row)
  {
    var p :| p in s.publishers && SubmittedBy(s.publishers[p], row);
    assert p in Apply(c, s, a).publishers && SubmittedBy(Apply(c, s, a).publishers[p], row);
  }

  lemma SubmittedStep(c: Config, s: State, a: Action, id: nat)
    requires AllSubmitted(s) && Enabled(c, s, a) && id in Apply(c, s, a).rows
    ensures Submitted(Apply(c, s, a).publishers, Apply(c, s, a).rows[id])
  {
    var t := Apply(c, s, a);
    if id in s.rows && t.rows[id].ruleset == s.rows[id].ruleset && t.rows[id].author == s.rows[id].author {
      SubmissionKept(c, s, a, s.rows[id]);
      var p :| p in t.publishers && SubmittedBy(t.publishers[p], s.rows[id]);
      assert SubmittedBy(t.publishers[p], t.rows[id]);
    } else {
      assert SubmittedBy(t.publishers[a.p], t.rows[id]);
    }
  }

  /** Whatever is in the table was submitted as it stands there, by its author. */
  lemma VersionsAreSubmitted(c: Config, s: State, acts: seq<Action>, t: State)
    requires Init(s) && Run(c, s, acts, t)
    ensures AllSubmitted(t)
  {
    var step := Stepping(c);
    forall x, a, y | AllSubmitted(x) && step(x, a, y) ensures AllSubmitted(y) {
      forall id | id in y.rows ensures Submitted(y.publishers, y.rows[id]) { SubmittedStep(c, x, a, id); }
    }
    RunKeeps(step, AllSubmitted, s, acts, t);
  }

  // ------------------------------------------------------------- the cache invariant

  /** Version id was the active one at some instant of [from, to]. */
  ghost predicate WasActive(history: seq<Activation>, id: nat, from: Time, to: Time) {
    exists k :: 0 <= k < |history| && ActiveSpan(history, k, id, from, to)
  }

  ghost predicate ActiveSpan(history: seq<Activation>, k: int, id: nat, from: Time, to: Time)
    requires 0 <= k < |history|
  {
    history[k].id == id && history[k].at <= to && (k + 1 < |history| ==> from <= history[k + 1].at)
  }

  /** v is a committed version, unchanged, that was active when it was read. */
  ghost predicate ReadOk(s: State, v: Version, readAt: Time) {
    v.id in s.rows && VersionOf(s.rows, v.id) == v && readAt <= s.now && WasActive(s.history, v.id, readAt, readAt)
  }

  ghost predicate CellOk(c: Config, s: State, cell: Cell) {
    && ReadOk(s, cell.version, cell.readAt)
    && (c.ttl > 0 ==> cell.expires.At? && cell.expires.time <= cell.readAt + c.lag + c.ttl)
  }

  ghost predicate ReaderOk(c: Config, s: State, r: Reader) {
    match r
    case Fetched(v, readAt) => ReadOk(s, v, readAt)
    case Answered(v, readAt, at) =>
      ReadOk(s, v, readAt) && readAt <= at <= s.now && (c.ttl > 0 ==> at <= readAt + c.lag + c.ttl)
    case _ => true
  }

  ghost predicate CacheInv(c: Config, s: State) {
    && (s.cell.Some? ==> CellOk(c, s, s.cell.value))
    && forall q :: q in s.readers ==> ReaderOk(c, s, s.readers[q])
  }

  ghost predicate Inv(c: Config, s: State) {
    c.ttl >= 0 && c.lag >= 0 && StoreInv(s) && CacheInv(c, s)
  }

  /** What was read stays good: versions are kept, and later activations come later. */
  lemma ReadKept(c: Config, s: State, a: Action, v: Version, readAt: Time)
    requires StoreInv(s) && Enabled(c, s, a) && ReadOk(s, v, readAt)
    ensures ReadOk(Apply(c, s, a), v, readAt)
  {
    var t := Apply(c, s, a);
    VersionsKept(c, s, a);
    assert v.id in s.rows;
    var k :| 0 <= k < |s.history| && ActiveSpan(s.history, k, v.id, readAt, readAt);
    assert t.history[k] == s.history[k];
    assert ActiveSpan(t.history, k, v.id, readAt, readAt);
  }

  /** What the store answers is active now. */
  lemma FetchIsActive(s: State)
    requires StoreInv(s)
    ensures FetchActive(s).Fetched? <==> s.history != []
    ensures FetchActive(s).Fetched? ==>
      var v := FetchActive(s).version;
      ReadOk(s, v, s.now) && FetchActive(s).readAt == s.now
      && v.id == s.history[|s.history| - 1].id && v.number == |s.history|
  {
    var r := FetchActive(s);
    var n := |s.history|;
    if n > 0 {
      assert s.history[n - 1].id in ActiveIds(s.rows);
      var v := r.version;
      assert v.id in ActiveIds(s.rows);
      assert RowOk(s.rows[v.id], n);
      assert ActiveSpan(s.history, n - 1, v.id, s.now, s.now);
    } else {
      assert forall id :: id in s.rows ==> RowOk(s.rows[id], 0);
      assert ActiveIds(s.rows) == {};
    }
  }

  lemma ReaderKept(c: Config, s: State, a: Action, r: Reader)
    requires StoreInv(s) && Enabled(c, s, a) && ReaderOk(c, s, r)
    ensures ReaderOk(c, Apply(c, s, a), r)
  {
    VersionsKept(c, s, a);
    if r.Fetched? || r.Answered? { ReadKept(c, s, a, r.version, r.readAt); }
  }

  /** The step a reader takes itself. */
  lemma ReaderStep(c: Config, s: State, a: Action, q: nat)
    requires Inv(c, s) && Enabled(c, s, a) && q in s.readers
    ensures ReaderOk(c, Apply(c, s, a), Apply(c, s, a).readers[q])
  {
    assert ReaderOk(c, s, s.readers[q]);
    ReaderKept(c, s, a, s.readers[q]);
    match a
    case Fetch(r) => FetchIsActive(s);
    case Lookup(r, _) =>
    case _ =>
  }

  lemma CacheStep(c: Config, s: State, a: Action)
    requires Inv(c, s) && Enabled(c, s, a)
    ensures CacheInv(c, Apply(c, s, a))
  {
    var t := Apply(c, s, a);
    if s.cell.Some? { ReadKept(c, s, a, s.cell.value.version, s.cell.value.readAt); }
    if a.Fill? { ReaderStep(c, s, a, a.q); }
    forall q | q in t.readers ensures ReaderOk(c, t, t.readers[q]) {
      if q in s.readers { ReaderStep(c, s, a, q); }
    }
  }

  lemma InvStep(c: Config, s: State, a: Action)
    requires Inv(c, s) && Enabled(c, s, a)
    ensures Inv(c, Apply(c, s, a))
  {
    StoreStep(c, s, a);
    CacheStep(c, s, a);
  }

  lemma InvRun(c: Config, s: State, acts: seq<Action>, t: State)
    requires Inv(c, s) && Run(c, s, acts, t)
    ensures Inv(c, t)
  {
    var step := Stepping(c);
    var inv := x => Inv(c, x);
    forall x, a, y | inv(x) && step(x, a, y) ensures inv(y) { InvStep(c, x, a); }
    RunKeeps(step, inv, s, acts, t);
  }

  // ------------------------------------------------------------------ main theorems

  predicate HasNumber(rows: Rows, k: int) {
    exists id :: id in rows && rows[id].number == k
  }

  /** The committed numbers are exactly 1..n, and exactly version n is active. */
  ghost predicate Gapless(rows: Rows) {
    && (forall i, j :: i in rows && j in rows && rows[i].number == rows[j].number ==> i == j)
    && (forall k :: 1 <= k <= |rows| ==> HasNumber(rows, k))
    && (forall id :: id in rows ==> 1 <= rows[id].number <= |rows|)
    && (forall id :: id in rows ==> (rows[id].active <==> rows[id].number == |rows|))
  }

  lemma {:induction false} HistoryCounts(rows: Rows, history: seq<Activation>, n: nat)
    requires n <= |history|
    requires forall k :: 0 <= k < |history| ==> history[k].id in rows && rows[history[k].id].number == k + 1
    ensures |set k | 0 <= k < n :: history[k].id| == n
  {
    var ids := set k | 0 <= k < n :: history[k].id;
    if n > 0 {
      HistoryCounts(rows, history, n - 1);
      var fewer := set k | 0 <= k < n - 1 :: history[k].id;
      assert ids == fewer + {history[n - 1].id};
      assert history[n - 1].id !in fewer;
    }
  }

  lemma TableIsGapless(rows: Rows, history: seq<Activation>)
    requires TableOk(rows, history)
    ensures |rows| == |history| && Gapless(rows)
  {
    HistoryCounts(rows, history, |history|);
    var ids := set k | 0 <= k < |history| :: history[k].id;
    forall id | id in rows ensures id in ids {
      assert RowOk(rows[id], |history|);
      assert rows[history[rows[id].number - 1].id].number == rows[id].number;
    }
    assert ids == rows.Keys;
    forall id | id in rows ensures 1 <= rows[id].number <= |rows| && (rows[id].active <==> rows[id].number == |rows|) {
      assert RowOk(rows[id], |history|);
    }
    forall k | 1 <= k <= |rows| ensures HasNumber(rows, k) {
      assert rows[history[k - 1].id].number == k;
    }
  }

  /** Under any interleaving of publishers, readers and failures the versions are 1..n without
      gaps, version n alone is active, and every stored ruleset is valid. */
  lemma VersionsGapless(c: Config, s: State, acts: seq<Action>, t: State)
    requires Init(s) && Run(c, s, acts, t)
    ensures Gapless(t.rows)
    ensures forall id :: id in t.rows ==> Valid(t.rows[id].ruleset)
  {
    StoreRun(c, s, acts, t);
    TableIsGapless(t.rows, t.history);
    assert forall id :: id in t.rows ==> RowOk(t.rows[id], |t.history|);
  }

  lemma WasActiveWider(history: seq<Activation>, id: nat, at: Time, from: Time, to: Time)
    requires WasActive(history, id, at, at) && from <= at <= to
    ensures WasActive(history, id, from, to)
  {
    var k :| 0 <= k < |history| && ActiveSpan(history, k, id, at, at);
    assert ActiveSpan(history, k, id, from, to);
  }

  /** Bounded staleness: with an expiry, whatever a reader obtains at time t is a version as it was
      published, and it was the active one at some instant of [t - ttl - lag, t]. */
  lemma BoundedStaleness(c: Config, s: State, acts: seq<Action>, t: State, q: nat)
    requires c.ttl > 0 && c.lag >= 0 && Init(s) && Run(c, s, acts, t)
    requires q in t.readers && t.readers[q].Answered?
    ensures var v, at := t.readers[q].version, t.readers[q].at;
            && v.id in t.rows && VersionOf(t.rows, v.id) == v && Valid(v.ruleset)
            && WasActive(t.history, v.id, at - c.ttl - c.lag, at)
  {
    InvRun(c, s, acts, t);
    var r := t.readers[q];
    assert ReaderOk(c, t, r) && RowOk(t.rows[r.version.id], |t.history|);
    WasActiveWider(t.history, r.version.id, r.readAt, r.at - c.ttl - c.lag, r.at);
  }

  // ---------------------------------------------------------- uninterrupted calls

  lemma RunThen(c: Config, s: State, acts: seq<Action>, t: State, a: Action)
    requires Run(c, s, acts, t) && Enabled(c, t, a)
    ensures Run(c, s, acts + [a], Apply(c, t, a))
  {
    LeadsThen(Stepping(c), s, acts, t, a, Apply(c, t, a));
  }

  lemma RunConcat(c: Config, s: State, a: seq<Action>, t: State, b: seq<Action>, u: State)
    requires Run(c, s, a, t) && Run(c, t, b, u)
    ensures Run(c, s, a + b, u)
  {
    LeadsConcat(Stepping(c), s, a, t, b, u);
  }

  function PublishActions(p: nat, ruleset: Ruleset, author: string, id: nat): seq<Action> {
    [] + [StartPublish(p, ruleset, author)] + [ReadMax(p)] + [Deactivate(p)] + [Insert(p, id)] + [Commit(p)]
  }

  /** The transaction of a publisher that reads, hides and numbers against the current table. */
  ghost function NextTransaction(s: State, ruleset: Ruleset, author: string, id: nat): Publisher {
    Publisher(ruleset, author, Inserted(|s.history| + 1, ActiveIds(s.rows), id))
  }

  function WithPublisher(s: State, p: nat, pub: Publisher): State {
    s.(publishers := s.publishers[p := pub])
  }

  /** A publisher that nothing interrupts, up to its commit. */
  lemma PrepareAlone(c: Config, s: State, p: nat, ruleset: Ruleset, author: string, id: nat)
    requires StoreInv(s) && Valid(ruleset) && p !in s.publishers
    ensures Run(c, s, [] + [StartPublish(p, ruleset, author)] + [ReadMax(p)] + [Deactivate(p)] + [Insert(p, id)],
                  WithPublisher(s, p, NextTransaction(s, ruleset, author, id)))
  {
    var n := |s.history| + 1;
    var hidden := ActiveIds(s.rows);
    MaxIsLast(s);
    var s1 := WithPublisher(s, p, Publisher(ruleset, author, Begun));
    var s2 := WithPublisher(s, p, Publisher(ruleset, author, Numbered(n)));
    var s3 := WithPublisher(s, p, Publisher(ruleset, author, Deactivated(n, hidden)));
    var s4 := WithPublisher(s, p, NextTransaction(s, ruleset, author, id));
    assert Apply(c, s, StartPublish(p, ruleset, author)) == s1;
    assert Apply(c, s1, ReadMax(p)) == s2 by { SameMap(s, p, s1, s2); }
    assert Apply(c, s2, Deactivate(p)) == s3 by { SameMap(s, p, s2, s3); }
    assert Apply(c, s3, Insert(p, id)) == s4 by { SameMap(s, p, s3, s4); }
    var none: seq<Action> := [];
    RunThen(c, s, none, s, StartPublish(p, ruleset, author));
    RunThen(c, s, none + [StartPublish(p, ruleset, author)], s1, ReadMax(p));
    RunThen(c, s, none + [StartPublish(p, ruleset, author)] + [ReadMax(p)], s2, Deactivate(p));
    RunThen(c, s, none + [StartPublish(p, ruleset, author)] + [ReadMax(p)] + [Deactivate(p)], s3, Insert(p, id));
  }

  lemma SameMap(s: State, p: nat, t: State, u: State)
    requires p in t.publishers && p in u.publishers
    requires t == WithPublisher(s, p, t.publishers[p]) && u == WithPublisher(s, p, u.publishers[p])
    ensures t.publishers[p := u.publishers[p]] == u.publishers
  {
  }

  /** The state after a publish that nothing interrupts. */
  ghost function Published(s: State, p: nat, ruleset: Ruleset, author: string, id: nat): State {
    WithPublisher(s, p, Publisher(ruleset, author, Committed)).(
      rows := CommitRows(s.rows, NextTransaction(s, ruleset, author, id)),
      history := s.history + [Activation(id, s.now)])
  }

  /** A publish that nothing interrupts commits the next version. */
  lemma PublishAlone(c: Config, s: State, p: nat, ruleset: Ruleset, author: string, id: nat)
    requires StoreInv(s) && Valid(ruleset) && p !in s.publishers && id !in s.rows
    ensures Run(c, s, PublishActions(p, ruleset, author, id), Published(s, p, ruleset, author, id))
    ensures StoreInv(Published(s, p, ruleset, author, id))
  {
    PrepareAlone(c, s, p, ruleset, author, id);
    var tx := NextTransaction(s, ruleset, author, id);
    var s4 := WithPublisher(s, p, tx);
    var t := Published(s, p, ruleset, author, id);
    NextDoesNotConflict(s, tx);
    assert Apply(c, s4, Commit(p)) == t by {
      SameMap(s, p, s4, WithPublisher(s, p, Publisher(ruleset, author, Committed)));
    }
    RunThen(c, s, [] + [StartPublish(p, ruleset, author)] + [ReadMax(p)] + [Deactivate(p)] + [Insert(p, id)],
              s4, Commit(p));
    StoreRun(c, s, PublishActions(p, ruleset, author, id), t);
  }

  lemma NextDoesNotConflict(s: State, tx: Publisher)
    requires StoreInv(s) && tx.phase.Inserted? && tx.phase.id !in s.rows
    requires tx.phase.next == |s.history| + 1 && tx.phase.hidden == ActiveIds(s.rows)
    ensures !Conflict(s.rows, tx.phase.next, tx.phase.hidden, tx.phase.id)
  {
  }

  function MissActions(q: nat): seq<Action> {
    [] + [Ask(q)] + [Lookup(q, true)] + [Fetch(q)] + [Fill(q, true)]
  }

  /** The state after an uninterrupted read of v from the store. */
  function Refilled(c: Config, s: State, q: nat, v: Version): State {
    WithReader(s, q, Answered(v, s.now, s.now)).(cell := Some(Cell(v, ExpiryAfter(c, s.now), s.now)))
  }

  /** A read through an empty or expired cell: the answer comes from the store and fills the cell. */
  lemma MissAlone(c: Config, s: State, q: nat) returns (v: Version)
    requires c.lag >= 0 && StoreInv(s) && q !in s.readers && !Live(s.cell, s.now) && s.history != []
    ensures FetchActive(s).Fetched? && v == FetchActive(s).version && v.id == s.history[|s.history| - 1].id
    ensures Run(c, s, MissActions(q), Refilled(c, s, q, v))
  {
    FetchIsActive(s);
    v := FetchActive(s).version;
    var s1 := WithReader(s, q, Asking);
    var s2 := WithReader(s, q, Missed);
    var s3 := WithReader(s, q, Fetched(v, s.now));
    assert Apply(c, s, Ask(q)) == s1;
    assert Apply(c, s1, Lookup(q, true)) == s2 by { SameReaders(s, q, Asking, Missed); }
    assert FetchActive(s2) == FetchActive(s);
    assert Apply(c, s2, Fetch(q)) == s3 by { SameReaders(s, q, Missed, Fetched(v, s.now)); }
    assert Apply(c, s3, Fill(q, true)) == Refilled(c, s, q, v) by {
      SameReaders(s, q, Fetched(v, s.now), Answered(v, s.now, s.now));
    }
    var none: seq<Action> := [];
    RunThen(c, s, none, s, Ask(q));
    RunThen(c, s, none + [Ask(q)], s1, Lookup(q, true));
    RunThen(c, s, none + [Ask(q)] + [Lookup(q, true)], s2, Fetch(q));
    RunThen(c, s, none + [Ask(q)] + [Lookup(q, true)] + [Fetch(q)], s3, Fill(q, true));
  }

  lemma SameReaders(s: State, q: nat, r: Reader, r': Reader)
    ensures WithReader(WithReader(s, q, r), q, r') == WithReader(s, q, r')
  {
  }

  /** A publish that nothing interrupts, with Redis answering, is what the next read answers. */
  lemma PublishIsSeen(c: Config, s: State, p: nat, ruleset: Ruleset, author: string, id: nat, q: nat) returns (t: State)
    requires c.lag >= 0 && StoreInv(s) && Valid(ruleset) && p !in s.publishers && id !in s.rows && q !in s.readers
    ensures Run(c, s, PublishActions(p, ruleset, author, id) + [Invalidate(p, true)] + MissActions(q), t)
    ensures q in t.readers && t.readers[q] == Answered(Version(id, |s.history| + 1, ruleset, author), s.now, s.now)
  {
    PublishAlone(c, s, p, ruleset, author, id);
    var s1 := Published(s, p, ruleset, author, id);
    RunThen(c, s, PublishActions(p, ruleset, author, id), s1, Invalidate(p, true));
    var s2 := Apply(c, s1, Invalidate(p, true));
    StoreStep(c, s1, Invalidate(p, true));
    var v := MissAlone(c, s2, q);
    t := Refilled(c, s2, q, v);
    RunConcat(c, s, PublishActions(p, ruleset, author, id) + [Invalidate(p, true)], s2, MissActions(q), t);
  }

  /** With Redis failing, a read answers what the store answers, whatever the cell holds, and leaves it. */
  lemma ReadWithoutRedis(c: Config, s: State, q: nat) returns (t: State)
    requires c.lag >= 0 && StoreInv(s) && q !in s.readers && s.history != []
    ensures Run(c, s, [] + [Ask(q)] + [Lookup(q, false)] + [Fetch(q)] + [Fill(q, false)], t)
    ensures t.cell == s.cell && q in t.readers && t.readers[q].Answered?
    ensures t.readers[q].version.id == s.history[|s.history| - 1].id && t.readers[q].readAt == t.readers[q].at == s.now
  {
    FetchIsActive(s);
    var none: seq<Action> := [];
    var s1 := Apply(c, s, Ask(q));
    var s2 := Apply(c, s1, Lookup(q, false));
    assert FetchActive(s2) == FetchActive(s);
    var s3 := Apply(c, s2, Fetch(q));
    t := Apply(c, s3, Fill(q, false));
    RunThen(c, s, none, s, Ask(q));
    RunThen(c, s, none + [Ask(q)], s1, Lookup(q, false));
    RunThen(c, s, none + [Ask(q)] + [Lookup(q, false)], s2, Fetch(q));
    RunThen(c, s, none + [Ask(q)] + [Lookup(q, false)] + [Fetch(q)], s3, Fill(q, false));
  }

  /** After a fill, and some time, the next lookup is answered from the cell exactly as long as the
      expiry allows: until ttl has passed, or for ever with a ttl of 0. */
  lemma FilledCellServes(c: Config, s: State, q: nat, p: nat, elapsed: Time) returns (v: Version, t: State)
    requires c.ttl >= 0 && c.lag >= 0 && elapsed >= 0
    requires StoreInv(s) && q !in s.readers && p !in s.readers && p != q && !Live(s.cell, s.now) && s.history != []
    ensures v.id == s.history[|s.history| - 1].id
    ensures Run(c, s, MissActions(q) + ([] + [Tick(elapsed)] + [Ask(p)] + [Lookup(p, true)]), t)
    ensures p in t.readers && t.now == s.now + elapsed
    ensures t.readers[p] == if c.ttl == 0 || elapsed < c.ttl then Answered(v, s.now, s.now + elapsed) else Missed
  {
    v := MissAlone(c, s, q);
    var s1 := Refilled(c, s, q, v);
    var s2 := Apply(c, s1, Tick(elapsed));
    var s3 := Apply(c, s2, Ask(p));
    t := Apply(c, s3, Lookup(p, true));
    var none: seq<Action> := [];
    RunThen(c, s1, none, s1, Tick(elapsed));
    RunThen(c, s1, none + [Tick(elapsed)], s2, Ask(p));
    RunThen(c, s1, none + [Tick(elapsed)] + [Ask(p)], s3, Lookup(p, true));
    RunConcat(c, s, MissActions(q), s1, [] + [Tick(elapsed)] + [Ask(p)] + [Lookup(p, true)], t);
  }

  function HitActions(q: nat): seq<Action> {
    [] + [Ask(q)] + [Lookup(q, true)]
  }

  /** A read that finds the key live answers what was cached, whatever the store says now. */
  lemma HitAlone(c: Config, s: State, q: nat) returns (t: State)
    requires q !in s.readers && Live(s.cell, s.now)
    ensures Run(c, s, HitActions(q), t)
    ensures t == WithReader(s, q, Answered(s.cell.value.version, s.cell.value.readAt, s.now))
  {
    var s1 := WithReader(s, q, Asking);
    t := WithReader(s, q, Answered(s.cell.value.version, s.cell.value.readAt, s.now));
    assert Apply(c, s, Ask(q)) == s1;
    assert Apply(c, s1, Lookup(q, true)) == t by { SameReaders(s, q, Asking, t.readers[q]); }
    var none: seq<Action> := [];
    RunThen(c, s, none, s, Ask(q));
    RunThen(c, s, none + [Ask(q)], s1, Lookup(q, true));
  }

  // ------------------------------------------------ when staleness is bounded at all

  /** Some run answers a version that was not active during the last bound time units. */
  ghost predicate StaleBeyond(c: Config, bound: Time) {
    exists s, acts, t, q :: Init(s) && Run(c, s, acts, t) && AnsweredStale(t, q, bound)
  }

  ghost predicate AnsweredStale(t: State, q: nat, bound: Time) {
    && q in t.readers && t.readers[q].Answered?
    && !WasActive(t.history, t.readers[q].version.id, t.readers[q].at - bound, t.readers[q].at)
  }

  /** Publish, then read: the cell holds the version. */
  lemma PublishedThenCached(c: Config) returns (s: State, acts: seq<Action>, t: State)
    requires c.ttl == 0 && c.lag >= 0
    ensures Init(s) && Run(c, s, acts, t) && StoreInv(t)
    ensures t.now == 0 && t.history == [Activation(1, 0)] && 1 !in t.readers && 1 !in t.publishers && 2 !in t.rows
    ensures t.cell.Some? && t.cell.value.expires == Never && t.cell.value.version.id == 1
  {
    var r := DefaultRuleset();
    s := State(map[], [], None, map[], map[], 0);
    var s1 := Published(s, 0, r, "system", 1);
    PublishAlone(c, s, 0, r, "system", 1);
    var v := MissAlone(c, s1, 0);
    t := Refilled(c, s1, 0, v);
    RunConcat(c, s, PublishActions(0, r, "system", 1), s1, MissActions(0), t);
    acts := PublishActions(0, r, "system", 1) + MissActions(0);
  }

  /** Publish again: with its invalidation outstanding, the cell still holds the first version. */
  lemma CachedThenPublished(c: Config) returns (s: State, acts: seq<Action>, t: State)
    requires c.ttl == 0 && c.lag >= 0
    ensures Init(s) && Run(c, s, acts, t)
    ensures t.now == 0 && t.history == [Activation(1, 0), Activation(2, 0)] && 1 !in t.readers
    ensures t.cell.Some? && t.cell.value.expires == Never && t.cell.value.version.id == 1
  {
    var r := DefaultRuleset();
    var u;
    s, acts, u := PublishedThenCached(c);
    PublishAlone(c, u, 1, r, "officer", 2);
    t := Published(u, 1, r, "officer", 2);
    RunConcat(c, s, acts, u, PublishActions(1, r, "officer", 2), t);
    acts := acts + PublishActions(1, r, "officer", 2);
  }

  /** With no expiry, a cell that misses its Invalidate is stale for as long as one waits. */
  lemma NoExpiryStale(c: Config, bound: nat)
    requires c.ttl == 0 && c.lag >= 0
    ensures StaleBeyond(c, bound)
  {
    var s, acts, s3 := CachedThenPublished(c);
    RunThen(c, s, acts, s3, Tick(bound + 1));
    var s4 := Apply(c, s3, Tick(bound + 1));
    var t := HitAlone(c, s4, 1);
    assert t.history == s3.history;
    RunConcat(c, s, acts + [Tick(bound + 1)], s4, HitActions(1), t);
    assert AnsweredStale(t, 1, bound);
  }

  /** Staleness is bounded exactly when the cache is configured to expire. */
  lemma StalenessBoundedIff(c: Config)
    requires c.ttl >= 0 && c.lag >= 0
    ensures (exists bound: nat :: !StaleBeyond(c, bound)) <==> c.ttl > 0
  {
    if c.ttl > 0 {
      var bound := c.ttl + c.lag;
      forall s, acts, t, q | Init(s) && Run(c, s, acts, t) && q in t.readers && t.readers[q].Answered?
        ensures !AnsweredStale(t, q, bound)
      {
        BoundedStaleness(c, s, acts, t, q);
      }
      assert !StaleBeyond(c, bound);
    } else {
      forall bound: nat ensures StaleBeyond(c, bound) { NoExpiryStale(c, bound); }
    }
  }
}
