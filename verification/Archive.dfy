/**
 The archive job: one guarded insertion that copies the terminal rows not yet archived, joined with
 their accounts. The statement reads one snapshot; its rows become visible when the job commits.
 */
module Archive {
  import opened Schema
  import opened Ledger

  /** A row of the history table; its calendar columns are functions of `createdAt`. */
  datatype HistoryRow = HistoryRow(
    tx: TxId, user: UserId, origin: AccountId, destination: string, amount: int,
    kind: TxType, paidBy: Method, status: Status, createdAt: int, archivedAt: int)

  /** The row's projection joined with its account. */
  function Project(db: Db, t: TxId, at: int): HistoryRow
    requires t in db.txs && db.txs[t].origin in db.accounts
  {
    var row := db.txs[t];
    HistoryRow(t, db.accounts[row.origin].user, row.origin, row.destination, row.amount,
               row.kind, row.paidBy, row.status, row.createdAt, at)
  }

  /** The history row says of its transaction and account what they say now, column by column. */
  predicate Copies(db: Db, r: HistoryRow) {
    && r.tx in db.txs && db.txs[r.tx].origin in db.accounts
    && (r.status.Completed? || r.status.Failed?)
    && r.status == db.txs[r.tx].status && r.user == db.accounts[db.txs[r.tx].origin].user
    && r.origin == db.txs[r.tx].origin && r.destination == db.txs[r.tx].destination
    && r.amount == db.txs[r.tx].amount && r.kind == db.txs[r.tx].kind
    && r.paidBy == db.txs[r.tx].paidBy && r.createdAt == db.txs[r.tx].createdAt
  }

  /** Terminal, joinable and not in the history the statement sees. */
  predicate Eligible(db: Db, history: seq<HistoryRow>, t: TxId) {
    t in db.txs && Terminal(db.txs[t].status) && db.txs[t].origin in db.accounts && !Archived(history, t)
  }

  predicate Archived(history: seq<HistoryRow>, t: TxId) {
    exists i :: 0 <= i < |history| && history[i].tx == t
  }

  predicate Unique(history: seq<HistoryRow>) {
    forall i, j :: 0 <= i < j < |history| ==> history[i].tx != history[j].tx
  }

  /** Every history row is a copy of its transaction as it is now. */
  ghost predicate Agrees(db: Db, history: seq<HistoryRow>) {
    forall i :: 0 <= i < |history| ==> Copies(db, history[i])
  }

  ghost predicate StampedAt(rows: seq<HistoryRow>, now: int) {
    forall i :: 0 <= i < |rows| ==> rows[i].archivedAt == now
  }

  /** The rows are exactly the projections of the eligible transactions, one each. */
  ghost predicate Selected(db: Db, history: seq<HistoryRow>, rows: seq<HistoryRow>) {
    && Agrees(db, rows) && Unique(rows)
    && forall t :: Eligible(db, history, t) <==> Archived(rows, t)
  }

  function EligibleIds(db: Db, history: seq<HistoryRow>): set<TxId> {
    set t | t in db.txs && Eligible(db, history, t)
  }

  // ----- The job alone -----

  class HistoryTable {
    var rows: seq<HistoryRow>

    constructor ()
      ensures rows == []
    {
      rows := [];
    }

    /** The insertion from the selection; it reports how many rows it inserted. */
    method CopyTransactionsToHistory(db: Db, now: int) returns (count: nat)
      requires DbOk(db)
      modifies this
      ensures old(rows) <= rows && count == |rows| - |old(rows)| == |EligibleIds(db, old(rows))|
      ensures Selected(db, old(rows), rows[|old(rows)|..])
      ensures forall i :: |old(rows)| <= i < |rows| ==> Copies(db, rows[i]) && rows[i].archivedAt == now
      ensures forall t :: Archived(rows[|old(rows)|..], t) <==>
                && t in db.txs && (db.txs[t].status.Completed? || db.txs[t].status.Failed?)
                && forall i :: 0 <= i < |old(rows)| ==> old(rows)[i].tx != t
      ensures Agrees(db, rows) <==> Agrees(db, old(rows))
      ensures Unique(rows) <==> Unique(old(rows))
      ensures forall t :: t in db.txs && (db.txs[t].status.Completed? || db.txs[t].status.Failed?) ==>
                exists i :: 0 <= i < |rows| && rows[i].tx == t
      ensures EligibleIds(db, rows) == {}
    {
      ghost var start := rows;
      var selected := SelectRows(db, rows, now);
      AppendSelection(db, rows, selected);
      SelectionSpelledOut(db, rows, selected);
      NothingLeft(db, rows, selected);
      CountSelection(db, rows, selected);
      rows := rows + selected;
      count := |selected|;
      assert rows[|start|..] == selected;
      assert forall i :: |start| <= i < |rows| ==> rows[i] == selected[i - |start|];
    }
  }

  /** The selection: the eligible transactions joined with their accounts, in no particular order. */
  method SelectRows(db: Db, history: seq<HistoryRow>, now: int) returns (selected: seq<HistoryRow>)
    ensures Selected(db, history, selected) && StampedAt(selected, now)
  {
    selected := [];
    var todo := EligibleIds(db, history);
    ghost var picked := {};
    while todo != {}
      invariant todo + picked == EligibleIds(db, history) && todo !! picked
      invariant forall t :: t in picked <==> Archived(selected, t)
      invariant Agrees(db, selected) && Unique(selected) && StampedAt(selected, now)
      decreases todo
    {
      var t :| t in todo;
      PickOne(db, selected, t, now);
      todo := todo - {t};
      picked := picked + {t};
      selected := selected + [Project(db, t, now)];
    }
    CopyIsSelection(db, history, selected);
  }

  lemma PickOne(db: Db, selected: seq<HistoryRow>, t: TxId, now: int)
    requires Agrees(db, selected) && Unique(selected) && !Archived(selected, t)
    requires t in db.txs && Terminal(db.txs[t].status) && db.txs[t].origin in db.accounts
    ensures Agrees(db, selected + [Project(db, t, now)]) && Unique(selected + [Project(db, t, now)])
    ensures forall u :: Archived(selected + [Project(db, t, now)], u) <==> Archived(selected, u) || u == t
  {
    ArchivedAppend(selected, [Project(db, t, now)]);
    assert [Project(db, t, now)][0].tx == t;
  }

  lemma ArchivedAppend(a: seq<HistoryRow>, b: seq<HistoryRow>)
    ensures forall t :: Archived(a + b, t) <==> Archived(a, t) || Archived(b, t)
  {
    forall t ensures Archived(a + b, t) <==> Archived(a, t) || Archived(b, t) {
      if i :| 0 <= i < |a| && a[i].tx == t {
        assert (a + b)[i].tx == t;
      }
      if i :| 0 <= i < |b| && b[i].tx == t {
        assert (a + b)[|a| + i].tx == t;
      }
      if i :| 0 <= i < |a + b| && (a + b)[i].tx == t {
        assert if i < |a| then a[i].tx == t else b[i - |a|].tx == t;
      }
    }
  }

  /** A selection takes each completed or failed transaction that the history has no row for. */
  lemma SelectionSpelledOut(db: Db, history: seq<HistoryRow>, rows: seq<HistoryRow>)
    requires DbOk(db) && Selected(db, history, rows)
    ensures forall t :: Archived(rows, t) <==>
              && t in db.txs && (db.txs[t].status.Completed? || db.txs[t].status.Failed?)
              && forall i :: 0 <= i < |history| ==> history[i].tx != t
  {
    forall t | t in db.txs ensures db.txs[t].origin in db.accounts {
      assert TxOk(db, db.txs[t]);
    }
  }

  lemma CopyIsSelection(db: Db, history: seq<HistoryRow>, rows: seq<HistoryRow>)
    requires Agrees(db, rows) && Unique(rows)
    requires forall t :: t in EligibleIds(db, history) <==> Archived(rows, t)
    ensures Selected(db, history, rows)
  {
  }

  /** Appending a selection adds neither a wrong row nor a duplicate. */
  lemma AppendSelection(db: Db, history: seq<HistoryRow>, rows: seq<HistoryRow>)
    requires Selected(db, history, rows)
    ensures Agrees(db, history + rows) <==> Agrees(db, history)
    ensures Unique(history + rows) <==> Unique(history)
  {
    assert history == (history + rows)[..|history|];
    SelectionIsDisjoint(db, history, rows);
    UniqueAppend(history, rows);
    if Agrees(db, history + rows) {
      forall i | 0 <= i < |history| ensures Copies(db, history[i]) {
        assert history[i] == (history + rows)[i];
      }
    }
  }

  ghost predicate Disjoint(history: seq<HistoryRow>, rows: seq<HistoryRow>) {
    forall i, j :: 0 <= i < |history| && 0 <= j < |rows| ==> history[i].tx != rows[j].tx
  }

  lemma SelectionIsDisjoint(db: Db, history: seq<HistoryRow>, rows: seq<HistoryRow>)
    requires Selected(db, history, rows)
    ensures Disjoint(history, rows)
  {
    forall i, j | 0 <= i < |history| && 0 <= j < |rows| ensures history[i].tx != rows[j].tx {
      assert Archived(rows, rows[j].tx);
    }
  }

  lemma UniqueAppend(history: seq<HistoryRow>, rows: seq<HistoryRow>)
    requires Unique(rows)
    ensures Unique(history + rows) <==> Unique(history) && Disjoint(history, rows)
  {
    var all := history + rows;
    if Unique(all) {
      forall i, j | 0 <= i < |history| && 0 <= j < |rows| ensures history[i].tx != rows[j].tx {
        assert all[i].tx != all[|history| + j].tx;
      }
      forall i, j | 0 <= i < j < |history| ensures history[i].tx != history[j].tx {
        assert all[i].tx != all[j].tx;
      }
    }
  }

  /** After the selection is appended nothing is eligible: an immediate second run inserts no row. */
  lemma NothingLeft(db: Db, history: seq<HistoryRow>, rows: seq<HistoryRow>)
    requires DbOk(db) && Selected(db, history, rows)
    ensures forall t :: t in db.txs && Terminal(db.txs[t].status) ==> Archived(history + rows, t)
    ensures EligibleIds(db, history + rows) == {}
  {
    ArchivedAppend(history, rows);
    forall t | t in db.txs && Terminal(db.txs[t].status) ensures Archived(history + rows, t) {
      assert TxOk(db, db.txs[t]);
      assert Eligible(db, history, t) || Archived(history, t);
    }
  }

  // ----- The job among everything else -----

  /** Running jobs hold the rows their statement selected. */
  datatype State = State(db: Db, history: seq<HistoryRow>, jobs: map<nat, seq<HistoryRow>>)

  datatype Event =
    | Block(op: Op)
    | Select(job: nat, rows: seq<HistoryRow>)
    | Finish(job: nat)
    | Fail(job: nat)

  ghost predicate Enabled(s: State, e: Event) {
    match e
    case Block(op) => Guard(op, s.db) && Legal(op, s.db, Balance(op, s.db))
    case Select(job, rows) => job !in s.jobs && Selected(s.db, s.history, rows)
    case Finish(job) => job in s.jobs
    case Fail(job) => job in s.jobs
  }

  ghost function Next(s: State, e: Event): State
    requires Enabled(s, e)
  {
    match e
    case Block(op) => s.(db := Run(op, s.db))
    case Select(job, rows) => s.(jobs := s.jobs[job := rows])
    case Finish(job) => s.(history := s.history + s.jobs[job], jobs := s.jobs - {job})
    case Fail(job) => s.(jobs := s.jobs - {job})
  }

  ghost function After(events: seq<Event>): State {
    if events == [] then State(EMPTY_DB, [], map[])
    else
      var s := After(events[..|events| - 1]);
      var e := events[|events| - 1];
      if Enabled(s, e) then Next(s, e) else s
  }

  ghost predicate IsRun(events: seq<Event>) {
    events == [] || (IsRun(events[..|events| - 1]) && Enabled(After(events[..|events| - 1]), events[|events| - 1]))
  }

  /** No job starts while another one runs. */
  ghost predicate NoOverlap(events: seq<Event>) {
    events == [] ||
    (NoOverlap(events[..|events| - 1]) &&
     (events[|events| - 1].Select? ==> After(events[..|events| - 1]).jobs == map[]))
  }

  ghost predicate AgreeInv(s: State) {
    && DbOk(s.db) && Agrees(s.db, s.history)
    && forall job :: job in s.jobs ==> Agrees(s.db, s.jobs[job]) && Unique(s.jobs[job])
  }

  /** Terminal rows and account owners are final, so what was projected stays the projection. */
  lemma AgreesStable(db: Db, db': Db, rows: seq<HistoryRow>)
    requires Agrees(db, rows) && Evolves(db, db')
    ensures Agrees(db', rows)
  {
    forall i | 0 <= i < |rows| ensures Copies(db', rows[i]) {
      assert TxEvolves(db.txs[rows[i].tx], db'.txs[rows[i].tx]);
    }
  }

  lemma AgreesAppend(db: Db, a: seq<HistoryRow>, b: seq<HistoryRow>)
    requires Agrees(db, a) && Agrees(db, b)
    ensures Agrees(db, a + b)
  {
  }

  /**
   The archive agrees with the transactions table for ever: after any run, overlapping jobs included,
   every history row is a copy of its transaction as it stands.
   */
  lemma {:induction false} ArchiveAgrees(events: seq<Event>)
    requires IsRun(events)
    ensures AgreeInv(After(events))
    ensures var s := After(events);
            forall i :: 0 <= i < |s.history| ==>
              var r := s.history[i];
              && r.tx in s.db.txs && (r.status.Completed? || r.status.Failed?)
              && r.status == s.db.txs[r.tx].status && r.amount == s.db.txs[r.tx].amount
              && r.origin == s.db.txs[r.tx].origin && r.destination == s.db.txs[r.tx].destination
              && r.kind == s.db.txs[r.tx].kind && r.paidBy == s.db.txs[r.tx].paidBy
              && r.createdAt == s.db.txs[r.tx].createdAt
              && r.origin in s.db.accounts && r.user == s.db.accounts[r.origin].user
  {
    if events != [] {
      var init, e := events[..|events| - 1], events[|events| - 1];
      ArchiveAgrees(init);
      var s, s' := After(init), After(events);
      match e
      case Block(op) =>
        BlockKeeps(op, s.db, Balance(op, s.db));
        AgreesStable(s.db, s'.db, s.history);
        forall job | job in s.jobs ensures Agrees(s'.db, s'.jobs[job]) {
          AgreesStable(s.db, s'.db, s.jobs[job]);
        }
      case Select(job, rows) =>
      case Finish(job) => AgreesAppend(s.db, s.history, s.jobs[job]);
      case Fail(job) =>
    }
  }

  // ----- When each transaction is archived once -----

  /** No transaction is in the history twice, in two running jobs, or in the history and a running job. */
  ghost predicate Apart(s: State) {
    && Unique(s.history)
    && (forall j :: j in s.jobs ==> Disjoint(s.history, s.jobs[j]))
    && (forall j, k :: j in s.jobs && k in s.jobs && j != k ==> Disjoint(s.jobs[j], s.jobs[k]))
  }

  /** What a job must see before it starts: no running job holds a row. */
  predicate EmptyHanded(s: State) {
    forall j :: j in s.jobs ==> s.jobs[j] == []
  }

  /** The unarchived rows of a running job are still eligible, so the next job selects them again. */
  lemma HeldIsSelectedAgain(s: State, rows: seq<HistoryRow>, k: nat)
    requires AgreeInv(s) && Apart(s) && Selected(s.db, s.history, rows) && k in s.jobs
    ensures Disjoint(s.jobs[k], rows) <==> s.jobs[k] == []
  {
    if s.jobs[k] != [] {
      var t := s.jobs[k][0].tx;
      assert Eligible(s.db, s.history, t);
      var i :| 0 <= i < |rows| && rows[i].tx == t;
    }
  }

  lemma StartKeepsApart(s: State, job: nat, rows: seq<HistoryRow>)
    requires AgreeInv(s) && Apart(s) && Enabled(s, Select(job, rows))
    ensures Apart(Next(s, Select(job, rows))) <==> EmptyHanded(s)
  {
    var s' := Next(s, Select(job, rows));
    SelectionIsDisjoint(s.db, s.history, rows);
    forall k | k in s.jobs ensures Disjoint(s.jobs[k], rows) <==> s.jobs[k] == [] {
      HeldIsSelectedAgain(s, rows, k);
    }
    if Apart(s') {
      forall k | k in s.jobs ensures s.jobs[k] == [] {
        assert Disjoint(s'.jobs[k], s'.jobs[job]);
      }
    }
  }

  /**
   When a job may start: with nothing shared so far, the selection of another job keeps it so exactly
   when every running job is empty-handed.
   */
  lemma {:induction false} MayStart(events: seq<Event>, job: nat, rows: seq<HistoryRow>)
    requires IsRun(events) && Apart(After(events)) && Enabled(After(events), Select(job, rows))
    ensures Apart(Next(After(events), Select(job, rows))) <==> EmptyHanded(After(events))
  {
    ArchiveAgrees(events);
    StartKeepsApart(After(events), job, rows);
  }

  lemma OtherStepsKeepApart(s: State, e: Event)
    requires AgreeInv(s) && Apart(s) && Enabled(s, e) && !e.Select?
    ensures Apart(Next(s, e))
  {
    var s' := Next(s, e);
    if e.Finish? {
      UniqueAppend(s.history, s.jobs[e.job]);
      forall k | k in s'.jobs ensures Disjoint(s'.history, s'.jobs[k]) {
        assert Disjoint(s.jobs[e.job], s.jobs[k]);
      }
    }
  }

  /** Every job of the run started while no running job held a row. */
  ghost predicate QuietStarts(events: seq<Event>) {
    events == [] ||
    (QuietStarts(events[..|events| - 1]) &&
     (events[|events| - 1].Select? ==> EmptyHanded(After(events[..|events| - 1]))))
  }

  ghost predicate ApartThroughout(events: seq<Event>) {
    forall i :: 0 <= i <= |events| ==> Apart(After(events[..i]))
  }

  lemma ThroughoutSplits(events: seq<Event>)
    requires events != []
    ensures ApartThroughout(events) <==> ApartThroughout(events[..|events| - 1]) && Apart(After(events))
  {
    hide Apart, After;
    var init := events[..|events| - 1];
    assert events[..|events|] == events;
    forall i | 0 <= i < |events| ensures After(init[..i]) == After(events[..i]) {
      assert init[..i] == events[..i];
    }
  }

  /**
   Each transaction is archived once at most: at every moment of a run nothing is shared if and only if
   every job started while no running job held a row.
   */
  lemma {:induction false} ArchivedOnce(events: seq<Event>)
    requires IsRun(events)
    ensures ApartThroughout(events) <==> QuietStarts(events)
  {
    if events == [] {
      assert events[..0] == events;
    } else {
      var init, e := events[..|events| - 1], events[|events| - 1];
      ArchivedOnce(init);
      ThroughoutSplits(events);
      ArchiveAgrees(init);
      assert init[..|init|] == init;
      if ApartThroughout(init) {
        if e.Select? {
          MayStart(init, e.job, e.rows);
        } else {
          OtherStepsKeepApart(After(init), e);
        }
      }
    }
  }

  /** In particular when no two jobs overlap. */
  lemma {:induction false} NoOverlapArchivesOnce(events: seq<Event>)
    requires IsRun(events) && NoOverlap(events)
    ensures QuietStarts(events) && Apart(After(events))
    ensures forall j, k :: j in After(events).jobs && k in After(events).jobs ==> j == k
  {
    if events != [] {
      NoOverlapArchivesOnce(events[..|events| - 1]);
    }
    ArchivedOnce(events);
    assert events[..|events|] == events;
  }

  lemma FinishShares(events: seq<Event>, job: nat)
    requires IsRun(events) && job in After(events).jobs && !Disjoint(After(events).history, After(events).jobs[job])
    ensures IsRun(events + [Finish(job)]) && !Unique(After(events + [Finish(job)]).history)
  {
    Extends(events, Finish(job));
    ArchiveAgrees(events);
    UniqueAppend(After(events).history, After(events).jobs[job]);
  }

  /** Anything shared becomes a duplicate in the history once the jobs holding it commit. */
  lemma {:induction false} SharedBecomesDuplicate(events: seq<Event>) returns (longer: seq<Event>)
    requires IsRun(events) && !Apart(After(events))
    ensures events <= longer && IsRun(longer) && !Unique(After(longer).history)
  {
    var s := After(events);
    longer := events;
    if j :| j in s.jobs && !Disjoint(s.history, s.jobs[j]) {
      FinishShares(events, j);
      longer := events + [Finish(j)];
    } else if j, k :| j in s.jobs && k in s.jobs && j != k && !Disjoint(s.jobs[j], s.jobs[k]) {
      Extends(events, Finish(j));
      var one := events + [Finish(j)];
      var x, y :| 0 <= x < |s.jobs[j]| && 0 <= y < |s.jobs[k]| && s.jobs[j][x].tx == s.jobs[k][y].tx;
      assert After(one).history[|s.history| + x].tx == After(one).jobs[k][y].tx;
      FinishShares(one, k);
      longer := one + [Finish(k)];
    }
  }

  lemma {:induction false} Extends(events: seq<Event>, e: Event)
    requires IsRun(events) && Enabled(After(events), e)
    ensures IsRun(events + [e]) && After(events + [e]) == Next(After(events), e)
  {
    assert (events + [e])[..|events|] == events;
  }

  /** The job neither commits nor fails. */
  predicate StillRuns(middle: seq<Event>, job: nat) {
    Finish(job) !in middle && Fail(job) !in middle
  }

  lemma RunningStep(s: State, e: Event, job: nat)
    requires AgreeInv(s) && Enabled(s, e) && job in s.jobs && e != Finish(job) && e != Fail(job)
    ensures var s' := Next(s, e);
            && job in s'.jobs && s'.jobs[job] == s.jobs[job]
            && s.history <= s'.history && Evolves(s.db, s'.db)
            && (!e.Finish? ==> s'.history == s.history)
  {
    if e.Block? {
      BlockKeeps(e.op, s.db, Balance(e.op, s.db));
    }
  }

  /** While a job runs it holds the rows it selected, the history only grows and the tables evolve. */
  lemma {:induction false} WhileRunning(events: seq<Event>, middle: seq<Event>, job: nat)
    requires IsRun(events) && job in After(events).jobs
    requires IsRun(events + middle) && StillRuns(middle, job)
    ensures var s, s' := After(events), After(events + middle);
            && job in s'.jobs && s'.jobs[job] == s.jobs[job]
            && s.history <= s'.history && Evolves(s.db, s'.db)
            && ((forall e :: e in middle ==> !e.Finish?) ==> s'.history == s.history)
  {
    if middle == [] {
      assert events + middle == events;
    } else {
      hide Enabled, Next, AgreeInv, Evolves;
      var init, e := middle[..|middle| - 1], middle[|middle| - 1];
      assert (events + middle)[..|events + middle| - 1] == events + init;
      WhileRunning(events, init, job);
      ArchiveAgrees(events + init);
      RunningStep(After(events + init), e, job);
      EvolvesTransitive(After(events).db, After(events + init).db, After(events + middle).db);
    }
  }

  /** What was terminal at the selection is archived at the commit. */
  lemma SelectedIsArchived(s: State, rows: seq<HistoryRow>, s': State)
    requires DbOk(s.db) && Selected(s.db, s.history, rows) && Evolves(s.db, s'.db)
    requires exists h :: s.history <= h && s'.history == h + rows
    ensures forall t :: t in s.db.txs && Terminal(s.db.txs[t].status) ==> Archived(s'.history, t)
    ensures forall t :: Eligible(s'.db, s'.history, t) ==> !(t in s.db.txs && Terminal(s.db.txs[t].status))
  {
    var h :| s.history <= h && s'.history == h + rows;
    NothingLeft(s.db, s.history, rows);
    ArchivedAppend(s.history, rows);
    ArchivedAppend(h, rows);
    forall t | Archived(s.history, t) ensures Archived(h, t) {
      var i :| 0 <= i < |s.history| && s.history[i].tx == t;
      assert h[i].tx == t;
    }
  }

  /**
   A job from its selection to its commit, whatever happens in between: it adds one row for each
   transaction that was terminal and not archived when it selected, everything terminal at that moment
   is then archived, and only what has become terminal since is left for the next job.
   */
  lemma {:induction false} JobCompletes(events: seq<Event>, job: nat, rows: seq<HistoryRow>, middle: seq<Event>)
    requires IsRun(events) && Enabled(After(events), Select(job, rows))
    requires IsRun(events + [Select(job, rows)] + middle) && StillRuns(middle, job)
    ensures var s, mid := After(events), After(events + [Select(job, rows)] + middle);
            var s' := After(events + [Select(job, rows)] + middle + [Finish(job)]);
            && IsRun(events + [Select(job, rows)] + middle + [Finish(job)])
            && s.history <= mid.history && s'.history == mid.history + rows
            && ((forall e :: e in middle ==> !e.Finish?) ==> mid.history == s.history)
            && |rows| == |EligibleIds(s.db, s.history)|
            && (forall t :: t in s.db.txs && Terminal(s.db.txs[t].status) ==> Archived(s'.history, t))
            && (forall t :: Eligible(s'.db, s'.history, t) ==> !(t in s.db.txs && Terminal(s.db.txs[t].status)))
  {
    var s := After(events);
    var one := events + [Select(job, rows)];
    Extends(events, Select(job, rows));
    WhileRunning(one, middle, job);
    Extends(one + middle, Finish(job));
    ArchiveAgrees(events);
    CountSelection(s.db, s.history, rows);
    SelectedIsArchived(s, rows, After(one + middle + [Finish(job)]));
  }

  /** Undisturbed, it leaves nothing for the next: an immediate second job inserts no row. */
  lemma {:induction false} SecondJobIsEmpty(events: seq<Event>, job: nat, rows: seq<HistoryRow>, more: seq<HistoryRow>)
    requires IsRun(events) && Enabled(After(events), Select(job, rows))
    requires var s := After(events + [Select(job, rows)] + [Finish(job)]); Selected(s.db, s.history, more)
    ensures more == []
  {
    var one := events + [Select(job, rows)];
    assert one + [] == one;
    Extends(events, Select(job, rows));
    Extends(one, Finish(job));
    JobCompletes(events, job, rows, []);
    if more != [] {
      assert Archived(more, more[0].tx);
    }
  }

  function Ids(rows: seq<HistoryRow>): set<TxId> {
    set i | 0 <= i < |rows| :: rows[i].tx
  }

  lemma {:induction false} CountIds(rows: seq<HistoryRow>)
    requires Unique(rows)
    ensures |Ids(rows)| == |rows|
  {
    if rows != [] {
      var n := |rows| - 1;
      CountIds(rows[..n]);
      assert Ids(rows) == Ids(rows[..n]) + {rows[n].tx} by {
        assert forall i :: 0 <= i < n ==> rows[i] == rows[..n][i];
      }
      assert rows[n].tx !in Ids(rows[..n]);
    }
  }

  lemma CountSelection(db: Db, history: seq<HistoryRow>, rows: seq<HistoryRow>)
    requires Selected(db, history, rows)
    ensures |rows| == |EligibleIds(db, history)|
  {
    CountIds(rows);
    forall t ensures t in Ids(rows) <==> t in EligibleIds(db, history) {
      assert Archived(rows, t) <==> t in Ids(rows);
    }
    assert Ids(rows) == EligibleIds(db, history);
  }

  // ----- Overlapping jobs -----

  const PAYMENT := Payment(0, "dest", 5, National, None, None, 0, 0)
  const PAID := Tx(0, 0, "dest", 5, National, Credit, Completed, None, None, 0)
  const STORED := Db(map[0 := Account(7, 0)], map[0 := Card(0, Credit, Hmac("1"))], map[0 := PAID])
  const COPIED := HistoryRow(0, 7, 0, "dest", 5, National, Credit, Completed, 0, 0)

  lemma OnePayment() returns (events: seq<Event>)
    ensures IsRun(events) && After(events) == State(STORED, [], map[])
  {
    var e0, e1, e2 := Block(Open(0, 7)), Block(AddCard(0, Card(0, Credit, Hmac("1")))), Block(Pay(0, PAYMENT));
    Extends([], e0);
    assert After([] + [e0]).db == Db(map[0 := Account(7, 0)], map[], map[]);
    Extends([] + [e0], e1);
    assert After([] + [e0] + [e1]).db == Db(map[0 := Account(7, 0)], map[0 := Card(0, Credit, Hmac("1"))], map[]);
    Extends([] + [e0] + [e1], e2);
    events := [] + [e0] + [e1] + [e2];
  }

  lemma CopySelected()
    ensures Selected(STORED, [], [COPIED])
  {
    forall t ensures Eligible(STORED, [], t) <==> Archived([COPIED], t) {
      assert [COPIED][0].tx == 0;
    }
  }

  /** Two jobs that both select before either commits archive the same transaction twice. */
  lemma OverlapDuplicates() returns (events: seq<Event>)
    ensures IsRun(events) && !Unique(After(events).history)
  {
    events := OnePayment();
    CopySelected();
    var e0, e1 := Select(0, [COPIED]), Select(1, [COPIED]);
    Extends(events, e0);
    Extends(events + [e0], e1);
    Extends(events + [e0] + [e1], Finish(0));
    Extends(events + [e0] + [e1] + [Finish(0)], Finish(1));
    events := events + [e0] + [e1] + [Finish(0)] + [Finish(1)];
    assert After(events).history == [COPIED, COPIED];
    assert After(events).history[0].tx == After(events).history[1].tx;
  }
}
