/** The cron job: one pass over the due ids, each item its own attempt, other blocks in between. */
module Cron {
  import opened Schema
  import opened Ledger
  import opened Service

  /** The blocks others commit while the job is between two items; an illegal one never commits. */
  function Others(w: World, ops: seq<Op>): World {
    if ops == [] then w
    else
      var w' := Others(w, ops[..|ops| - 1]);
      var op := ops[|ops| - 1];
      if Guard(op, w'.db) && Legal(op, w'.db, Balance(op, w'.db)) then
        World(Run(op, w'.db), w'.queue + Sent(op, Run(op, w'.db)))
      else w'
  }

  function OthersAt(others: seq<seq<Op>>, k: nat): seq<Op> {
    if k < |others| then others[k] else []
  }

  function FaultAt(faults: seq<Fault>, k: nat): Fault {
    if k < |faults| then faults[k] else NoFault
  }

  /** The world in which the k-th item is attempted. */
  function AtTurn(w: World, ids: seq<TxId>, others: seq<seq<Op>>, faults: seq<Fault>, k: nat): World
    requires k <= |ids|
    decreases k, 1
  {
    Others(AfterItems(w, ids, others, faults, k), OthersAt(others, k))
  }

  /** The fold of the per-item attempt over the first k ids. */
  function AfterItems(w: World, ids: seq<TxId>, others: seq<seq<Op>>, faults: seq<Fault>, k: nat): World
    requires k <= |ids|
    decreases k, 0
  {
    if k == 0 then w
    else Attempt(AtTurn(w, ids, others, faults, k - 1), ids[k - 1], FaultAt(faults, k - 1)).0
  }

  function ItemResult(w: World, ids: seq<TxId>, others: seq<seq<Op>>, faults: seq<Fault>, k: nat): Attempted
    requires k < |ids|
  {
    Attempt(AtTurn(w, ids, others, faults, k), ids[k], FaultAt(faults, k)).1
  }

  /** How many of the first k items ended this way. */
  function Tally(w: World, ids: seq<TxId>, others: seq<seq<Op>>, faults: seq<Fault>, k: nat, r: Attempted): nat
    requires k <= |ids|
  {
    if k == 0 then 0
    else Tally(w, ids, others, faults, k - 1, r) + if ItemResult(w, ids, others, faults, k - 1) == r then 1 else 0
  }

  // ----- The job -----

  /** Other requests run between two items. */
  method OthersCommit(bank: Bank, ops: seq<Op>)
    requires bank.Valid()
    modifies bank
    ensures bank.Valid() && bank.State() == Others(old(bank.State()), ops)
  {
    hide Evolves, RunFrom;
    ghost var start := bank.State();
    var i := 0;
    assert ops[..0] == [];
    while i < |ops|
      invariant 0 <= i <= |ops|
      invariant bank.Valid() && bank.State() == Others(start, ops[..i])
    {
      assert ops[..i + 1][..i] == ops[..i];
      var op, db := ops[i], bank.Tables();
      if Guard(op, db) && Legal(op, db, Balance(op, db)) {
        BlockKeeps(op, db, Balance(op, db));
        var db' := Run(op, db);
        bank.accounts, bank.cards, bank.txs, bank.queue := db'.accounts, db'.cards, db'.txs, bank.queue + Sent(op, db');
      }
      i := i + 1;
    }
    assert ops[..i] == ops;
  }

  /** One item of the loop: whatever others commit meanwhile, and then the attempt. */
  method RunItem(bank: Bank, id: TxId, ops: seq<Op>, fault: Fault) returns (r: Attempted)
    requires bank.Valid()
    modifies bank
    ensures bank.Valid() && (bank.State(), r) == Attempt(Others(old(bank.State()), ops), id, fault)
  {
    OthersCommit(bank, ops);
    r := bank.ProcessScheduledTransaction(id, fault);
  }

  lemma NextItem(w: World, ids: seq<TxId>, others: seq<seq<Op>>, faults: seq<Fault>, k: nat, w': World, r: Attempted)
    requires k < |ids|
    requires (w', r) ==
             Attempt(Others(AfterItems(w, ids, others, faults, k), OthersAt(others, k)), ids[k], FaultAt(faults, k))
    ensures w' == AfterItems(w, ids, others, faults, k + 1) && r == ItemResult(w, ids, others, faults, k)
    ensures Tally(w, ids, others, faults, k + 1, Processed) ==
            Tally(w, ids, others, faults, k, Processed) + if r.Processed? then 1 else 0
    ensures Tally(w, ids, others, faults, k + 1, Refused) ==
            Tally(w, ids, others, faults, k, Refused) + if r.Refused? then 1 else 0
  {
  }

  /** The loop over the ids with its three counters; a failing item never stops the job. */
  method ProcessIds(bank: Bank, ids: seq<TxId>, others: seq<seq<Op>>, faults: seq<Fault>)
    returns (total: nat, processed: nat, skipped: nat, errors: nat)
    requires bank.Valid()
    modifies bank
    ensures bank.Valid() && bank.State() == AfterItems(old(bank.State()), ids, others, faults, |ids|)
    ensures processed == Tally(old(bank.State()), ids, others, faults, |ids|, Processed)
    ensures skipped == Tally(old(bank.State()), ids, others, faults, |ids|, Refused)
    ensures total == |ids| && total == processed + skipped + errors
  {
    ghost var start := bank.State();
    processed, skipped, errors := 0, 0, 0;
    var k := 0;
    while k < |ids|
      invariant 0 <= k <= |ids|
      invariant bank.Valid() && bank.State() == AfterItems(start, ids, others, faults, k)
      invariant processed == Tally(start, ids, others, faults, k, Processed)
      invariant skipped == Tally(start, ids, others, faults, k, Refused)
      invariant k == processed + skipped + errors
    {
      var r := RunItem(bank, ids[k], OthersAt(others, k), FaultAt(faults, k));
      NextItem(start, ids, others, faults, k, bank.State(), r);
      match r {
        case Processed => processed := processed + 1;
        case Refused => skipped := skipped + 1;
        case _ => errors := errors + 1;
      }
      k := k + 1;
    }
    total := |ids|;
  }

  method RunCron(bank: Bank, now: int, others: seq<seq<Op>>, faults: seq<Fault>)
    returns (ids: seq<TxId>, total: nat, processed: nat, skipped: nat, errors: nat)
    requires bank.Valid()
    modifies bank
    ensures forall t :: t in ids <==>
              && t in old(bank.txs) && old(bank.txs)[t].status.Scheduled?
              && old(bank.txs)[t].scheduledFor.Some? && old(bank.txs)[t].scheduledFor.value <= now
    ensures Distinct(ids)
    ensures bank.Valid() && bank.State() == AfterItems(old(bank.State()), ids, others, faults, |ids|)
    ensures processed == Tally(old(bank.State()), ids, others, faults, |ids|, Processed)
    ensures skipped == Tally(old(bank.State()), ids, others, faults, |ids|, Refused)
    ensures total == |ids| && total == processed + skipped + errors
  {
    ids := bank.GetDueIds(now);
    total, processed, skipped, errors := ProcessIds(bank, ids, others, faults);
  }

  predicate Distinct(ids: seq<TxId>) {
    forall i, j :: 0 <= i < j < |ids| ==> ids[i] != ids[j]
  }

  // ----- What the fold guarantees -----

  lemma {:induction false} OthersKeep(w: World, ops: seq<Op>)
    requires DbOk(w.db)
    ensures DbOk(Others(w, ops).db) && Evolves(w.db, Others(w, ops).db)
  {
    if ops != [] {
      var w' := Others(w, ops[..|ops| - 1]);
      OthersKeep(w, ops[..|ops| - 1]);
      var op := ops[|ops| - 1];
      if Guard(op, w'.db) && Legal(op, w'.db, Balance(op, w'.db)) {
        BlockKeeps(op, w'.db, Balance(op, w'.db));
        EvolvesTransitive(w.db, w'.db, Run(op, w'.db));
      }
    }
  }

  lemma AttemptKeeps(w: World, id: TxId, fault: Fault) returns (w': World)
    requires DbOk(w.db)
    ensures w' == Attempt(w, id, fault).0 && DbOk(w'.db) && Evolves(w.db, w'.db)
  {
    w' := Attempt(w, id, fault).0;
    if w'.db != w.db {
      BlockKeeps(Execute(id), w.db, Balance(Execute(id), w.db));
    }
  }

  lemma ItemKeeps(w: World, ids: seq<TxId>, others: seq<seq<Op>>, faults: seq<Fault>, k: nat, before: World)
    returns (after: World)
    requires k < |ids| && before == AfterItems(w, ids, others, faults, k) && DbOk(before.db)
    ensures after == AfterItems(w, ids, others, faults, k + 1) && DbOk(after.db) && Evolves(before.db, after.db)
  {
    var turn := Others(before, OthersAt(others, k));
    OthersKeep(before, OthersAt(others, k));
    after := AttemptKeeps(turn, ids[k], FaultAt(faults, k));
    EvolvesTransitive(before.db, turn.db, after.db);
  }

  lemma {:induction false} ItemsKeep(w: World, ids: seq<TxId>, others: seq<seq<Op>>, faults: seq<Fault>, k: nat)
    returns (now: World)
    requires DbOk(w.db) && k <= |ids|
    ensures now == AfterItems(w, ids, others, faults, k) && DbOk(now.db) && Evolves(w.db, now.db)
  {
    hide DbOk, Attempt, Others;
    if k == 0 {
      now := w;
    } else {
      var before := ItemsKeep(w, ids, others, faults, k - 1);
      now := ItemKeeps(w, ids, others, faults, k - 1, before);
      EvolvesTransitive(w.db, before.db, now.db);
    }
  }

  lemma ItemEvolves(w: World, ids: seq<TxId>, others: seq<seq<Op>>, faults: seq<Fault>, k: nat)
    returns (before: World, after: World)
    requires DbOk(w.db) && k < |ids|
    ensures before == AfterItems(w, ids, others, faults, k) && after == AfterItems(w, ids, others, faults, k + 1)
    ensures Evolves(before.db, after.db)
  {
    before := ItemsKeep(w, ids, others, faults, k);
    after := ItemKeeps(w, ids, others, faults, k, before);
  }

  ghost predicate Claimed(db: Db, id: TxId) {
    id in db.txs && !db.txs[id].status.Scheduled?
  }

  lemma ClaimedLater(early: Db, late: Db, id: TxId)
    requires Evolves(early, late) && Claimed(early, id)
    ensures Claimed(late, id)
  {
    assert TxEvolves(early.txs[id], late.txs[id]);
  }

  /** A row that has left `scheduled` after some items is out of it after all of them. */
  lemma {:induction false} StaysClaimed(w: World, ids: seq<TxId>, others: seq<seq<Op>>, faults: seq<Fault>,
                                        j: nat, k: nat, id: TxId)
    returns (now: World)
    requires DbOk(w.db) && j <= k <= |ids| && Claimed(AfterItems(w, ids, others, faults, j).db, id)
    ensures now == AfterItems(w, ids, others, faults, k) && Claimed(now.db, id)
    decreases k
  {
    if j == k {
      now := AfterItems(w, ids, others, faults, k);
    } else {
      var earlier := StaysClaimed(w, ids, others, faults, j, k - 1, id);
      var before, after := ItemEvolves(w, ids, others, faults, k - 1);
      ClaimedLater(before.db, after.db, id);
      now := after;
    }
  }

  predicate FaultFree(faults: seq<Fault>) {
    forall k :: 0 <= k < |faults| ==> faults[k].NoFault?
  }

  lemma FaultFreeAttempt(w: World, id: TxId)
    requires DbOk(w.db) && id in w.db.txs
    ensures Attempt(w, id, NoFault).1 == if w.db.txs[id].status.Scheduled? then Processed else Refused
    ensures id in Attempt(w, id, NoFault).0.db.txs && !Attempt(w, id, NoFault).0.db.txs[id].status.Scheduled?
  {
    assert TxOk(w.db, w.db.txs[id]);
  }

  lemma FaultFreeTurn(w: World, ids: seq<TxId>, others: seq<seq<Op>>, faults: seq<Fault>, k: nat)
    returns (turn: World, after: World)
    requires DbOk(w.db) && FaultFree(faults) && k < |ids| && ids[k] in w.db.txs
    ensures turn == AtTurn(w, ids, others, faults, k) && after == AfterItems(w, ids, others, faults, k + 1)
    ensures ids[k] in turn.db.txs
    ensures ItemResult(w, ids, others, faults, k) ==
            if turn.db.txs[ids[k]].status.Scheduled? then Processed else Refused
    ensures ids[k] in after.db.txs && !after.db.txs[ids[k]].status.Scheduled?
  {
    var before := ItemsKeep(w, ids, others, faults, k);
    OthersKeep(before, OthersAt(others, k));
    turn := Others(before, OthersAt(others, k));
    FaultFreeAttempt(turn, ids[k]);
    after := Attempt(turn, ids[k], NoFault).0;
    NextItem(w, ids, others, faults, k, after, Attempt(turn, ids[k], NoFault).1);
  }

  /**
   Without faults every item is processed when its row is still scheduled at its turn and skipped when
   someone else took it; either way the row has left `scheduled` for good, so no later run lists it.
   */
  lemma {:induction false} FaultFreeItem(w: World, ids: seq<TxId>, others: seq<seq<Op>>, faults: seq<Fault>, k: nat)
    requires DbOk(w.db) && FaultFree(faults) && k < |ids| && ids[k] in w.db.txs
    ensures ids[k] in AtTurn(w, ids, others, faults, k).db.txs
    ensures ItemResult(w, ids, others, faults, k) ==
            if AtTurn(w, ids, others, faults, k).db.txs[ids[k]].status.Scheduled? then Processed else Refused
    ensures var final := AfterItems(w, ids, others, faults, |ids|).db;
            ids[k] in final.txs && !final.txs[ids[k]].status.Scheduled?
  {
    var turn, after := FaultFreeTurn(w, ids, others, faults, k);
    var final := StaysClaimed(w, ids, others, faults, k + 1, |ids|, ids[k]);
  }

  // ----- What no fault can break -----

  /** Each item of a run, under any faults and with anything committed in between, is one attempt at its row. */
  lemma {:induction false} ItemOutcome(w: World, ids: seq<TxId>, others: seq<seq<Op>>, faults: seq<Fault>, k: nat)
    requires DbOk(w.db) && k < |ids|
    ensures DbOk(AtTurn(w, ids, others, faults, k).db)
    ensures Attempts(AtTurn(w, ids, others, faults, k), ids[k], FaultAt(faults, k),
                     AfterItems(w, ids, others, faults, k + 1), ItemResult(w, ids, others, faults, k))
  {
    hide DbOk, Attempts, Attempt;
    var before := ItemsKeep(w, ids, others, faults, k);
    OthersKeep(before, OthersAt(others, k));
    AttemptOutcome(AtTurn(w, ids, others, faults, k), ids[k], FaultAt(faults, k));
  }

  lemma BlockAnnounces(op: Op, db: Db, queue: seq<Message>)
    requires Guard(op, db) && Announced(db, queue)
    ensures Announced(Run(op, db), queue + Sent(op, Run(op, db)))
  {
    var db' := Run(op, db);
    var queue' := queue + Sent(op, db');
    forall t | t in db'.txs && db'.txs[t].status.Pending? ensures exists m :: m in queue' && Tells(m, t, db'.txs[t]) {
      if Posts(op) && t == op.id {
        assert MessageOf(t, db'.txs[t]) in queue' && Tells(MessageOf(t, db'.txs[t]), t, db'.txs[t]);
      } else {
        var m :| m in queue && Tells(m, t, db.txs[t]);
        assert m in queue';
      }
    }
  }

  lemma {:induction false} OthersKeepAnnounced(w: World, ops: seq<Op>)
    requires Announced(w.db, w.queue)
    ensures Announced(Others(w, ops).db, Others(w, ops).queue)
  {
    hide Announced, Run, Sent;
    if ops != [] {
      var init, op := ops[..|ops| - 1], ops[|ops| - 1];
      OthersKeepAnnounced(w, init);
      if Guard(op, Others(w, init).db) {
        BlockAnnounces(op, Others(w, init).db, Others(w, init).queue);
      }
    }
  }

  /** Whatever faults strike the job, no row is ever left pending without its message. */
  lemma {:induction false} RunKeepsAnnounced(w: World, ids: seq<TxId>, others: seq<seq<Op>>, faults: seq<Fault>, k: nat)
    requires DbOk(w.db) && Announced(w.db, w.queue) && k <= |ids|
    ensures var now := AfterItems(w, ids, others, faults, k); Announced(now.db, now.queue)
  {
    hide Announced, DbOk, Attempt, Others;
    if k > 0 {
      RunKeepsAnnounced(w, ids, others, faults, k - 1);
      var before := ItemsKeep(w, ids, others, faults, k - 1);
      OthersKeep(before, OthersAt(others, k - 1));
      OthersKeepAnnounced(before, OthersAt(others, k - 1));
      AttemptKeepsAnnounced(AtTurn(w, ids, others, faults, k - 1), ids[k - 1], FaultAt(faults, k - 1));
    }
  }

  // ----- A solo run against the purse -----

  /** The rows are scheduled and listed once each. */
  ghost predicate Listed(db: Db, ids: seq<TxId>) {
    Distinct(ids) && forall k :: 0 <= k < |ids| ==> ids[k] in db.txs && db.txs[ids[k]].status.Scheduled?
  }

  /** The row asks its account for money. */
  predicate Charges(row: Tx, a: AccountId) {
    row.kind.National? && row.paidBy.Debit? && row.origin == a
  }

  /** What is left of an account when the rows are served in order, each taking its amount if it fits. */
  function LeftAfter(db: Db, ids: seq<TxId>, a: AccountId, k: nat): int
    requires k <= |ids| && a in db.accounts && forall i :: 0 <= i < |ids| ==> ids[i] in db.txs
  {
    if k == 0 then db.accounts[a].balance
    else
      var left, row := LeftAfter(db, ids, a, k - 1), db.txs[ids[k - 1]];
      if Charges(row, a) && row.amount <= left then left - row.amount else left
  }

  /** What a served row becomes. */
  function Served(row: Tx, left: int): Status {
    if row.kind.International? then Pending
    else if row.paidBy.Debit? && left < row.amount then Failed
    else Completed
  }

  /** The k-th item is still as it was listed when its turn comes. */
  ghost predicate Untouched(db: Db, now: Db, ids: seq<TxId>, k: nat) {
    forall i :: k <= i < |ids| ==> ids[i] in db.txs && ids[i] in now.txs && now.txs[ids[i]] == db.txs[ids[i]]
  }

  ghost predicate PurseHolds(db: Db, now: Db, ids: seq<TxId>, k: nat)
    requires k <= |ids| && forall i :: 0 <= i < |ids| ==> ids[i] in db.txs
  {
    now.accounts.Keys == db.accounts.Keys &&
    forall a :: a in db.accounts ==> now.accounts[a].balance == LeftAfter(db, ids, a, k)
  }

  /** What one served row changes. */
  ghost predicate ServedOne(db: Db, id: TxId, db': Db)
    requires id in db.txs && db.txs[id].origin in db.accounts
  {
    && db'.txs == db.txs[id := db.txs[id].(status := Served(db.txs[id], db.accounts[db.txs[id].origin].balance))]
    && db'.accounts.Keys == db.accounts.Keys
    && forall a :: a in db.accounts ==>
         db'.accounts[a].balance == db.accounts[a].balance -
           if Charges(db.txs[id], a) && db.txs[id].amount <= db.accounts[a].balance then db.txs[id].amount else 0
  }

  lemma RunServes(db: Db, id: TxId)
    requires DbOk(db) && id in db.txs && db.txs[id].status.Scheduled?
    ensures Guard(Execute(id), db) && db.txs[id].origin in db.accounts && ServedOne(db, id, Run(Execute(id), db))
  {
    assert TxOk(db, db.txs[id]);
  }

  lemma {:induction false} ServeOne(w: World, id: TxId) returns (w': World)
    requires DbOk(w.db) && id in w.db.txs && w.db.txs[id].status.Scheduled?
    ensures (w', Processed) == Attempt(w, id, NoFault) && DbOk(w'.db)
    ensures w.db.txs[id].origin in w.db.accounts && ServedOne(w.db, id, w'.db)
  {
    hide DbOk, Evolves, Run;
    RunServes(w.db, id);
    w' := AttemptKeeps(w, id, NoFault);
  }

  lemma PurseStep(db: Db, before: Db, after: Db, ids: seq<TxId>, k: nat)
    requires Listed(db, ids) && 0 < k <= |ids|
    requires Untouched(db, before, ids, k - 1) && PurseHolds(db, before, ids, k - 1)
    requires db.txs[ids[k - 1]].origin in before.accounts && ServedOne(before, ids[k - 1], after)
    ensures Untouched(db, after, ids, k) && PurseHolds(db, after, ids, k)
  {
  }

  /** Alone and without faults, the next state is the attempt's. */
  lemma SoloTurn(w: World, ids: seq<TxId>, k: nat, before: World, after: World)
    requires k < |ids| && before == AfterItems(w, ids, [], [], k)
    requires (after, Processed) == Attempt(before, ids[k], NoFault)
    ensures after == AfterItems(w, ids, [], [], k + 1) && ItemResult(w, ids, [], [], k) == Processed
  {
    assert Others(before, []) == before;
    NextItem(w, ids, [], [], k, after, Processed);
  }

  lemma {:induction false} SoloItem(w: World, ids: seq<TxId>, k: nat, before: World) returns (after: World)
    requires Listed(w.db, ids) && 0 < k <= |ids| && before == AfterItems(w, ids, [], [], k - 1)
    requires DbOk(before.db) && Untouched(w.db, before.db, ids, k - 1)
    ensures after == AfterItems(w, ids, [], [], k) && ItemResult(w, ids, [], [], k - 1) == Processed
    ensures DbOk(after.db)
    ensures w.db.txs[ids[k - 1]].origin in before.db.accounts && ServedOne(before.db, ids[k - 1], after.db)
  {
    hide AfterItems, Attempt, ItemResult, DbOk, ServedOne;
    after := ServeOne(before, ids[k - 1]);
    SoloTurn(w, ids, k - 1, before, after);
  }

  lemma {:induction false} SoloSteps(w: World, ids: seq<TxId>, k: nat) returns (now: World)
    requires DbOk(w.db) && Listed(w.db, ids) && k <= |ids|
    ensures now == AfterItems(w, ids, [], [], k) && DbOk(now.db)
    ensures Untouched(w.db, now.db, ids, k) && PurseHolds(w.db, now.db, ids, k)
  {
    hide Attempt, DbOk, ServedOne, ItemResult;
    if k == 0 {
      now := w;
    } else {
      var before := SoloSteps(w, ids, k - 1);
      now := SoloItem(w, ids, k, before);
      PurseStep(w.db, before.db, now.db, ids, k);
    }
  }

  /** The row of the j-th item once it has been served. */
  ghost predicate RowServed(db: Db, ids: seq<TxId>, j: nat, now: Db)
    requires j < |ids| && forall i :: 0 <= i < |ids| ==> ids[i] in db.txs
  {
    && db.txs[ids[j]].origin in db.accounts && ids[j] in now.txs
    && now.txs[ids[j]] ==
       db.txs[ids[j]].(status := Served(db.txs[ids[j]], LeftAfter(db, ids, db.txs[ids[j]].origin, j)))
  }

  lemma RowServedNow(db: Db, before: Db, after: Db, ids: seq<TxId>, j: nat)
    requires Listed(db, ids) && j < |ids|
    requires Untouched(db, before, ids, j) && PurseHolds(db, before, ids, j)
    requires db.txs[ids[j]].origin in before.accounts && ServedOne(before, ids[j], after)
    ensures RowServed(db, ids, j, after)
  {
  }

  lemma RowStaysServed(db: Db, before: Db, after: Db, ids: seq<TxId>, j: nat, k: nat)
    requires Listed(db, ids) && j < k < |ids| && RowServed(db, ids, j, before)
    requires ids[k] in before.txs && before.txs[ids[k]].origin in before.accounts && ServedOne(before, ids[k], after)
    ensures RowServed(db, ids, j, after)
  {
    assert ids[j] != ids[k];
  }

  lemma SoloRowAtTurn(w: World, ids: seq<TxId>, j: nat) returns (now: World)
    requires DbOk(w.db) && Listed(w.db, ids) && j < |ids|
    ensures now == AfterItems(w, ids, [], [], j + 1) && RowServed(w.db, ids, j, now.db)
  {
    var before := SoloSteps(w, ids, j);
    now := SoloItem(w, ids, j + 1, before);
    RowServedNow(w.db, before.db, now.db, ids, j);
  }

  lemma SoloState(w: World, ids: seq<TxId>, k: nat) returns (now: World)
    requires DbOk(w.db) && Listed(w.db, ids) && k <= |ids|
    ensures now == AfterItems(w, ids, [], [], k) && DbOk(now.db) && Untouched(w.db, now.db, ids, k)
  {
    now := SoloSteps(w, ids, k);
  }

  lemma SoloRowLater(w: World, ids: seq<TxId>, j: nat, k: nat, before: World) returns (now: World)
    requires DbOk(w.db) && Listed(w.db, ids) && j < k < |ids|
    requires before == AfterItems(w, ids, [], [], k) && RowServed(w.db, ids, j, before.db)
    ensures now == AfterItems(w, ids, [], [], k + 1) && RowServed(w.db, ids, j, now.db)
  {
    hide AfterItems, Attempt, DbOk, Others, ItemResult;
    var same := SoloState(w, ids, k);
    now := SoloItem(w, ids, k + 1, same);
    RowStaysServed(w.db, before.db, now.db, ids, j, k);
  }

  /** A row that was served stays as it was left. */
  lemma {:induction false} SoloRows(w: World, ids: seq<TxId>, j: nat, k: nat) returns (now: World)
    requires DbOk(w.db) && Listed(w.db, ids) && j < k <= |ids|
    ensures now == AfterItems(w, ids, [], [], k) && RowServed(w.db, ids, j, now.db)
    decreases k
  {
    hide AfterItems, Attempt, DbOk, Listed, RowServed;
    if j < k - 1 {
      var before := SoloRows(w, ids, j, k - 1);
      now := SoloRowLater(w, ids, j, k - 1, before);
    } else {
      now := SoloRowAtTurn(w, ids, j);
    }
  }

  lemma {:induction false} SoloCounts(w: World, ids: seq<TxId>, k: nat)
    requires DbOk(w.db) && Listed(w.db, ids) && k <= |ids|
    ensures Tally(w, ids, [], [], k, Processed) == k
  {
    hide AfterItems, Attempt, DbOk, Listed;
    if k > 0 {
      SoloCounts(w, ids, k - 1);
      SoloItemProcessed(w, ids, k - 1);
    }
  }

  lemma SoloItemProcessed(w: World, ids: seq<TxId>, k: nat)
    requires DbOk(w.db) && Listed(w.db, ids) && k < |ids|
    ensures ItemResult(w, ids, [], [], k) == Processed
  {
    var before := SoloSteps(w, ids, k);
    var after := SoloItem(w, ids, k + 1, before);
  }

  /**
   A run alone and without faults, over any order of the due ids: every item is processed, each debit
   completes exactly when its amount fits what is left of its account at its turn, and the balances
   end as the purse does.
   */
  lemma {:induction false} SoloRun(w: World, ids: seq<TxId>, k: nat)
    requires DbOk(w.db) && Listed(w.db, ids) && k < |ids|
    ensures Tally(w, ids, [], [], |ids|, Processed) == |ids|
    ensures RowServed(w.db, ids, k, AfterItems(w, ids, [], [], |ids|).db)
    ensures PurseHolds(w.db, AfterItems(w, ids, [], [], |ids|).db, ids, |ids|)
  {
    var final := SoloSteps(w, ids, |ids|);
    var last := SoloRows(w, ids, k, |ids|);
    SoloCounts(w, ids, |ids|);
  }
}
