/**
 The rules service as one process sees it: its table, its cache cell, and the calls that change
 them one after the other. Each call is tied to the step relation of RuleVersions.
 */
module RulesService {
  import opened Options
  import opened RuleVersions
  import Fine

  /** The statements of the publishing transaction; a failing one rolls it back. */
  datatype Statement = Begin | SelectMax | UpdateActive | InsertRow | CommitTx

  datatype PublishResult = Stored(version: Version) | Refused(verdict: Fine.Verdict) | NotStored

  datatype ActiveResult = Found(version: Version) | ErrNoActiveRuleset | ErrStore

  /** The version the store would return now. */
  ghost function StoreVersion(rows: Rows, history: seq<Activation>): ActiveResult
    requires TableOk(rows, history)
  {
    if history == [] then ErrNoActiveRuleset else Found(VersionOf(rows, history[|history| - 1].id))
  }

  lemma OnlyLastIsActive(rows: Rows, history: seq<Activation>)
    requires TableOk(rows, history)
    ensures ActiveIds(rows) == if history == [] then {} else {history[|history| - 1].id}
  {
  }

  predicate PositiveNumbers(rows: Rows) {
    forall id :: id in rows ==> rows[id].number >= 1
  }

  /** SELECT COALESCE(max(version), 0). */
  method MaxNumber(rows: Rows) returns (m: int)
    requires PositiveNumbers(rows)
    ensures IsMax(rows, m)
  {
    m := 0;
    var rest := rows.Keys;
    while rest != {}
      invariant rest <= rows.Keys
      invariant forall id :: id in rows && id !in rest ==> rows[id].number <= m
      invariant if rest == rows.Keys then m == 0 else exists id :: id in rows && rows[id].number == m
      decreases |rest|
    {
      var id :| id in rest;
      if rows[id].number > m { m := rows[id].number; }
      rest := rest - {id};
    }
    assert rows != map[] ==> rows.Keys != {};
  }

  class Service {
    const config: Config
    var rows: Rows
    var cell: Option<Cell>
    var now: Time
    ghost var history: seq<Activation>

    ghost predicate Consistent()
      reads this
    {
      config.ttl >= 0 && config.lag >= 0 && TableOk(rows, history) && HistoryOk(history, now)
    }

    /** The state of the transition system, with no other call running. */
    ghost function View(): State
      reads this
    {
      State(rows, history, cell, map[], map[], now)
    }

    /** A live cell holds exactly what the store would answer. */
    ghost predicate Transparent()
      requires Consistent()
      reads this
    {
      Live(cell, now) ==> StoreVersion(rows, history) == Found(cell.value.version)
    }

    constructor (config: Config)
      requires config.ttl >= 0 && config.lag >= 0
      ensures this.config == config && Consistent() && Transparent() && Init(View()) && now == 0
    {
      this.config := config;
      rows := map[];
      cell := None;
      now := 0;
      history := [];
    }

    /** The transaction up to its commit, on its own copy of the table. */
    method Draft(ruleset: Fine.Ruleset, author: string, id: nat, fails: Option<Statement>)
        returns (ok: bool, draft: Rows, max: int)
      requires PositiveNumbers(rows)
      ensures ok <==> fails == None || fails == Some(CommitTx)
      ensures ok ==> IsMax(rows, max) && draft == Hide(rows, ActiveIds(rows))[id := Row(max + 1, true, ruleset, author)]
    {
      draft, max := rows, 0;
      if fails == Some(Begin) { return false, draft, max; }
      if fails == Some(SelectMax) { return false, draft, max; }
      max := MaxNumber(rows);
      if fails == Some(UpdateActive) { return false, draft, max; }
      draft := Hide(draft, ActiveIds(draft));
      if fails == Some(InsertRow) { return false, draft, max; }
      draft := draft[id := Row(max + 1, true, ruleset, author)];
      assert fails.Some? ==> fails.value.CommitTx?;
      return true, draft, max;
    }

    /** Store.Publish in one transaction that nothing overtakes: the run of PublishAlone, or nothing. */
    method StorePublish(ruleset: Fine.Ruleset, author: string, id: nat, fails: Option<Statement>) returns (r: Option<Version>)
      requires Consistent() && Fine.Valid(ruleset) && id !in rows
      modifies this`rows, this`history
      ensures Consistent()
      ensures r.Some? <==> fails.None?
      ensures r.None? ==> rows == old(rows) && history == old(history)
      ensures r.Some? ==>
        && rows == Published(old(View()), 0, ruleset, author, id).rows
        && history == Published(old(View()), 0, ruleset, author, id).history
        && r.value == Version(id, |history|, ruleset, author)
        && StoreVersion(rows, history) == Found(r.value)
    {
      ghost var before := View();
      NumbersPositive(rows, history);
      var ok, draft, max := Draft(ruleset, author, id, fails);
      if !ok || fails == Some(CommitTx) { return None; }
      NextRows(before, max, draft, ruleset, author, id);
      rows := draft;
      history := history + [Activation(id, now)];
      return Some(Version(id, max + 1, ruleset, author));
    }

    /** A refused or failed publish changes nothing; a stored one is what the store answers from now on. */
    method Publish(ruleset: Fine.Ruleset, author: string, id: nat, fails: Option<Statement>, redisOk: bool)
        returns (r: PublishResult)
      requires Consistent() && id !in rows
      modifies this`rows, this`history, this`cell
      ensures Consistent()
      ensures r.Refused? <==> !Fine.Valid(ruleset)
      ensures r.NotStored? <==> Fine.Valid(ruleset) && fails.Some?
      ensures r.Refused? ==> Fine.Justified(ruleset, r.verdict)
      ensures !r.Stored? ==> View() == old(View())
      ensures r.Stored? ==>
        && r.version == Version(id, |old(history)| + 1, ruleset, author)
        && StoreVersion(rows, history) == Found(r.version)
        && rows == Published(old(View()), 0, ruleset, author, id).rows
        && history == Published(old(View()), 0, ruleset, author, id).history
        && cell == (if redisOk then None else old(cell))
      ensures r.Stored? && redisOk ==> Transparent()
    {
      var verdict := Fine.Validate(ruleset);
      if !verdict.Accepted? { return Refused(verdict); }
      var stored := StorePublish(ruleset, author, id, fails);
      if stored.None? { return NotStored; }
      if redisOk { cell := None; }
      return Stored(stored.value);
    }

    /** Seed: the day-one ruleset becomes version 1 of an empty table; a filled one is left alone. */
    method Seed(id: nat, countFails: bool, fails: Option<Statement>) returns (ok: bool)
      requires Consistent() && id !in rows
      modifies this`rows, this`history
      ensures Consistent()
      ensures ok <==> !countFails && (old(history) != [] || fails.None?)
      ensures !ok || old(history) != [] ==> View() == old(View())
      ensures ok ==> history != []
      ensures ok && old(history) == [] ==>
        StoreVersion(rows, history) == Found(Version(id, 1, Fine.DefaultRuleset(), "system"))
    {
      if countFails { return false; }
      TableIsGapless(rows, history);
      if |rows| > 0 { return true; }
      var stored := StorePublish(Fine.DefaultRuleset(), "system", id, fails);
      return stored.Some?;
    }

    /** storeOk: the store answers. It is asked only on a miss, and only its answers are cached. */
    method Active(redisOk: bool, storeOk: bool) returns (r: ActiveResult)
      requires Consistent()
      modifies this`cell
      ensures Consistent()
      ensures r == if redisOk && old(Live(cell, now)) then Found(old(cell).value.version)
                   else if storeOk then StoreVersion(rows, history) else ErrStore
      ensures cell == if redisOk && !old(Live(cell, now)) && r.Found?
                      then Some(Cell(r.version, ExpiryAfter(config, now), now)) else old(cell)
      ensures old(Transparent()) ==> Transparent() && (r == ErrStore || r == StoreVersion(rows, history))
    {
      if redisOk && Live(cell, now) { return Found(cell.value.version); }
      if !storeOk { return ErrStore; }
      OnlyLastIsActive(rows, history);
      if ActiveIds(rows) == {} { return ErrNoActiveRuleset; }
      var id :| id in ActiveIds(rows);
      var version := VersionOf(rows, id);
      if redisOk { cell := Some(Cell(version, ExpiryAfter(config, now), now)); }
      return Found(version);
    }
  }

  lemma NumbersPositive(rows: Rows, history: seq<Activation>)
    requires TableOk(rows, history)
    ensures PositiveNumbers(rows)
  {
  }

  lemma MaxIsHistory(rows: Rows, history: seq<Activation>, m: int)
    requires TableOk(rows, history) && IsMax(rows, m)
    ensures m == |history|
  {
    var n := |history|;
    assert forall id :: id in rows ==> RowOk(rows[id], n);
    if n > 0 { assert history[n - 1].id in rows; }
  }

  /** The three statements of the transaction write what Published says. */
  lemma NextRows(s: State, max: int, rows: Rows, ruleset: Fine.Ruleset, author: string, id: nat)
    requires TableOk(s.rows, s.history) && Fine.Valid(ruleset) && id !in s.rows && IsMax(s.rows, max)
    requires rows == Hide(s.rows, ActiveIds(s.rows))[id := Row(max + 1, true, ruleset, author)]
    ensures max == |s.history|
    ensures rows == Published(s, 0, ruleset, author, id).rows
    ensures TableOk(rows, s.history + [Activation(id, s.now)])
    ensures StoreVersion(rows, s.history + [Activation(id, s.now)]) == Found(Version(id, max + 1, ruleset, author))
  {
    MaxIsHistory(s.rows, s.history, max);
    TableExtends(s.rows, s.history, NextTransaction(s, ruleset, author, id), s.now);
  }

  // ------------------------------------------------------- serial cache transparency

  datatype Call = Read | Publish(ruleset: Fine.Ruleset, author: string, id: nat) | Elapse(time: nat) | Evicted

  /** The state after one call, Redis answering. */
  ghost function Served(c: Config, s: State, call: Call): State
    requires StoreInv(s)
  {
    match call
    case Read =>
      if Live(s.cell, s.now) || s.history == [] then s
      else s.(cell := Some(Cell(StoreVersion(s.rows, s.history).version, ExpiryAfter(c, s.now), s.now)))
    case Publish(ruleset, author, id) =>
      if !Fine.Valid(ruleset) || id in s.rows then s
      else s.(rows := CommitRows(s.rows, NextTransaction(s, ruleset, author, id)),
              history := s.history + [Activation(id, s.now)],
              cell := None)
    case Elapse(d) => s.(now := s.now + d)
    case Evicted => s.(cell := None)
  }

  lemma ServedKeepsStore(c: Config, s: State, call: Call)
    requires StoreInv(s) && s.publishers == map[]
    ensures StoreInv(Served(c, s, call)) && Served(c, s, call).publishers == map[]
  {
    if call.Publish? && Fine.Valid(call.ruleset) && call.id !in s.rows {
      TableExtends(s.rows, s.history, NextTransaction(s, call.ruleset, call.author, call.id), s.now);
    }
  }

  /** What each Read answers, going through the cell. */
  ghost function CachedAnswers(c: Config, s: State, calls: seq<Call>): seq<ActiveResult>
    requires StoreInv(s) && s.publishers == map[]
    decreases |calls|
  {
    if calls == [] then [] else
    ServedKeepsStore(c, s, calls[0]);
    var rest := CachedAnswers(c, Served(c, s, calls[0]), calls[1..]);
    if !calls[0].Read? then rest
    else [if Live(s.cell, s.now) then Found(s.cell.value.version) else StoreVersion(s.rows, s.history)] + rest
  }

  /** What each Read answers when there is no cache at all. */
  ghost function UncachedAnswers(c: Config, s: State, calls: seq<Call>): seq<ActiveResult>
    requires StoreInv(s) && s.publishers == map[]
    decreases |calls|
  {
    if calls == [] then [] else
    ServedKeepsStore(c, s, calls[0]);
    var rest := UncachedAnswers(c, Served(c, s, calls[0]).(cell := None), calls[1..]);
    if !calls[0].Read? then rest else [StoreVersion(s.rows, s.history)] + rest
  }

  /** The transaction does not look at the cell. */
  lemma PublishIgnoresCell(c: Config, s: State, call: Call)
    requires StoreInv(s) && s.publishers == map[] && call.Publish?
    ensures Served(c, s.(cell := None), call).(cell := None) == Served(c, s, call).(cell := None)
    ensures Served(c, s, call) == s || Served(c, s, call).cell == None
  {
  }

  lemma ServedAgrees(c: Config, s: State, call: Call)
    requires StoreInv(s) && s.publishers == map[]
    requires s.cell.Some? ==> StoreVersion(s.rows, s.history) == Found(s.cell.value.version)
    ensures StoreInv(Served(c, s, call)) && Served(c, s, call).publishers == map[]
    ensures Served(c, s.(cell := None), call).(cell := None) == Served(c, s, call).(cell := None)
    ensures var t := Served(c, s, call);
            t.cell.Some? ==> StoreVersion(t.rows, t.history) == Found(t.cell.value.version)
  {
    ServedKeepsStore(c, s, call);
    if call.Publish? { PublishIgnoresCell(c, s, call); }
  }

  /** Called one after the other with Redis answering, the cached service cannot be told from
      an uncached one, for every sequence of reads, publishes, expiries and evictions. */
  lemma {:induction false} SerialTransparency(c: Config, s: State, calls: seq<Call>)
    requires StoreInv(s) && s.publishers == map[]
    requires s.cell.Some? ==> StoreVersion(s.rows, s.history) == Found(s.cell.value.version)
    ensures CachedAnswers(c, s, calls) == UncachedAnswers(c, s.(cell := None), calls)
    decreases |calls|
  {
    if calls != [] {
      ServedAgrees(c, s, calls[0]);
      SerialTransparency(c, Served(c, s, calls[0]), calls[1..]);
    }
  }
}
