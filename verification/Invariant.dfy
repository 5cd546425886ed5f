/** The inductive invariant of the protocol: what holds at each program point, whatever else runs. */
module Invariant {
  import opened Schema
  import opened Ledger
  import opened Protocol

  // ----- Per worker -----

  predicate Idle(w: Worker) {
    w.locks == {} && w.writes == NO_WRITES
  }

  /** The stored card with the job's number belongs to the job's user. */
  predicate Holds(db: Db, job: Job, c: CardId) {
    job.PayJob? && HasDigest(db, c, CardDigest(job.number)) && Owner(db, db.cards[c].account, job.user)
  }

  /** The block does what its worker was asked to do. */
  predicate Serves(db: Db, job: Job, op: Op) {
    match op
    case Pay(_, p) => job.PayJob? && Holds(db, job, p.card) && p == PaymentOf(job, p.card, p.now, p.stamp)
    case Execute(t) => job == ExecuteJob(t)
    case Deposit(a, n) => job.DepositJob? && Owner(db, a, job.user) && n == job.amount
    case _ => false
  }

  /** The balance the block works from, while it holds the account. */
  predicate Based(mode: Mode, db: Db, w: Worker, a: AccountId) {
    a in db.accounts && (mode.Fresh? ==> w.base == db.accounts[a].balance)
  }

  predicate OnRow(db: Db, drawn: map<TxId, Tx>, w: Worker, op: Op, row: Tx) {
    && Posts(op) && Guard(op, db) && row == Draft(op, db) && Serves(db, w.job, op)
    && op.id in drawn && SameTerms(drawn[op.id], row)
  }

  /** The private row versions before the final status is written: a claimed row is `processing`. */
  function Claimed(op: Op, row: Tx): Writes
    requires Posts(op)
  {
    if op.Execute? then RowWrite(op, row) else NO_WRITES
  }

  function BlockLocks(op: Op, row: Tx): set<Lock>
    requires Posts(op)
  {
    {TxRow(op.id)} + (if Settles(op, row) then {AcctRow(row.origin)} else {})
  }

  function FinalWrites(op: Op, db: Db, base: int): Writes
    requires Posts(op) && Guard(op, db)
  {
    var row := Final(op, db, base);
    Writes(if Spends(row) then map[row.origin := base - row.amount] else map[], map[], map[op.id := row])
  }

  predicate ReadyOk(mode: Mode, db: Db, queue: seq<Message>, drawn: map<TxId, Tx>, w: Worker) {
    w.pc.Ready? && Guard(w.pc.op, db) && Storable(w.pc.op, w.base) &&
    match w.pc.op
    case Open(_, _) => false
    case AddCard(c, card) =>
      && w.job.PayJob? && card == Card(card.account, w.job.cardType, CardDigest(w.job.number))
      && Owner(db, card.account, w.job.user)
      && w.locks == {CardRow(c), CardKey(card.digest)}
      && w.writes == Writes(map[], map[c := card], map[])
    case Deposit(a, n) =>
      && Serves(db, w.job, w.pc.op) && w.locks == {AcctRow(a)} && Based(mode, db, w, a)
      && w.writes == Writes(map[a := w.base + n], map[], map[])
    case _ =>
      var op, row := w.pc.op, Draft(w.pc.op, db);
      && OnRow(db, drawn, w, op, row)
      && w.locks == BlockLocks(op, row)
      && (Settles(op, row) ==> Based(mode, db, w, row.origin))
      && w.writes == FinalWrites(op, db, w.base)
      && (Final(op, db, w.base).status.Pending? ==> MessageOf(op.id, row) in queue)
  }

  predicate PcOk(mode: Mode, db: Db, queue: seq<Message>, drawn: map<TxId, Tx>, w: Worker) {
    match w.pc
    case Start => Idle(w)
    case CardMissing(a) => Idle(w) && w.job.PayJob? && Owner(db, a, w.job.user)
    case Refetch => Idle(w) && w.job.PayJob? && DigestTaken(db, CardDigest(w.job.number))
    case Resolved(c) => Idle(w) && Holds(db, w.job, c)
    case GotRow(row) =>
      Idle(w) && w.job.ExecuteJob? && w.job.tx in db.txs && SameTerms(db.txs[w.job.tx], row)
    case Routing(op, row) =>
      OnRow(db, drawn, w, op, row) && w.locks == {TxRow(op.id)} && w.writes == Claimed(op, row)
    case Sending(op, row) =>
      && OnRow(db, drawn, w, op, row) && !Later(op) && row.kind.International? && Fits(op, row)
      && w.locks == {TxRow(op.id)} && w.writes == RowWrite(op, row.(status := Pending))
    case Locked(op, row) =>
      && OnRow(db, drawn, w, op, row) && Settles(op, row) && Based(mode, db, w, row.origin)
      && w.locks == BlockLocks(op, row) && w.writes == Claimed(op, row)
    case Settled(op, row) =>
      && OnRow(db, drawn, w, op, row) && Settles(op, row) && Based(mode, db, w, row.origin)
      && w.locks == BlockLocks(op, row) && w.writes == Claimed(op, row).(balances := Deduction(row, w.base))
    case DepositFound(a) => Idle(w) && w.job.DepositJob? && Owner(db, a, w.job.user)
    case DepositLocked(a) =>
      && w.job.DepositJob? && Owner(db, a, w.job.user) && Based(mode, db, w, a)
      && w.locks == {AcctRow(a)} && w.writes == NO_WRITES
    case Ready(_) => ReadyOk(mode, db, queue, drawn, w)
    case Refreshing => Idle(w)
    case Done(_) => Idle(w)
  }

  predicate WorkerOk(mode: Mode, db: Db, queue: seq<Message>, drawn: map<TxId, Tx>, w: Worker) {
    && ValidJob(w.job)
    && 0 <= w.seen <= MAX_UNITS && 0 <= w.base <= MAX_UNITS
    && PcOk(mode, db, queue, drawn, w)
  }

  // ----- What a worker has committed -----

  /** A block other than the opening of an account or the insertion of a card. */
  predicate Principal(op: Op) {
    Posts(op) || op.Deposit?
  }

  predicate Committed(pc: Pc) {
    pc.Refreshing? ||
    (pc.Done? && match pc.outcome
                 case Returned(_) => true
                 case PaymentRequired(_) => true
                 case Processed => true
                 case Credited => true
                 case RefreshFailed => true
                 case _ => false)
  }

  /** A row refused for lack of funds when it was submitted. */
  predicate Bounced(row: Tx) {
    row.status.Failed? && row.scheduledFor.None?
  }

  predicate DidOk(db: Db, w: Worker, op: Op) {
    && Principal(op) && Serves(db, w.job, op)
    && match w.pc
       case Refreshing => !op.Pay?
       case Done(Returned(id)) => op.Pay? && op.id == id && id in db.txs && !Bounced(db.txs[id])
       case Done(PaymentRequired(id)) => op.Pay? && op.id == id && id in db.txs && Bounced(db.txs[id])
       case Done(Processed) => op.Execute?
       case Done(Credited) => op.Deposit?
       case Done(RefreshFailed) => !op.Pay?
       case _ => true
  }

  /** The number of the job is stored for an account of another user. */
  ghost predicate OthersNumber(db: Db, job: Job) {
    job.PayJob? &&
    exists c :: && c in db.cards && db.cards[c].digest == CardDigest(job.number)
                && db.cards[c].account in db.accounts && db.accounts[db.cards[c].account].user != job.user
  }

  /** A refusal has its reason in the tables: 409 a row that is not scheduled, 403 a card of another user. */
  ghost predicate RefusedOk(db: Db, w: Worker) {
    && (w.pc == Done(Conflict) ==> w.job.ExecuteJob? && w.job.tx in db.txs && !db.txs[w.job.tx].status.Scheduled?)
    && (w.pc == Done(Forbidden) ==> OthersNumber(db, w.job))
  }

  ghost predicate HistoryOk(db: Db, log: seq<Entry>, who: nat, w: Worker) {
    && (forall i :: 0 <= i < |log| && log[i].who == who && Principal(log[i].op) ==> w.did == Some(i))
    && (w.did.Some? <==> Committed(w.pc))
    && (w.did.Some? ==> w.did.value < |log| && log[w.did.value].who == who && DidOk(db, w, log[w.did.value].op))
    && RefusedOk(db, w)
  }

  // ----- The whole state -----

  ghost predicate Exclusive(workers: map<nat, Worker>) {
    forall v, w :: v in workers && w in workers && v != w ==> workers[v].locks !! workers[w].locks
  }

  /** A held row or card has a generated id. */
  ghost predicate LocksDrawn(s: State) {
    && (forall v, t :: v in s.workers && TxRow(t) in s.workers[v].locks ==> t in s.drawn)
    && (forall v, c :: v in s.workers && CardRow(c) in s.workers[v].locks ==> c in s.cardIds)
  }

  /** Each message carries the payload of the row its id was drawn for, an international one. */
  ghost predicate QueueOk(queue: seq<Message>, drawn: map<TxId, Tx>) {
    forall m :: m in queue ==> m.tx in drawn && m == MessageOf(m.tx, drawn[m.tx]) && drawn[m.tx].kind.International?
  }

  ghost predicate RowsDrawn(db: Db, drawn: map<TxId, Tx>) {
    forall t :: t in db.txs ==> t in drawn && SameTerms(drawn[t], db.txs[t])
  }

  /** Publish before commit: every committed pending row has its message on the queue. */
  ghost predicate Published(db: Db, queue: seq<Message>) {
    forall t :: t in db.txs && db.txs[t].status.Pending? ==> MessageOf(t, db.txs[t]) in queue
  }

  ghost predicate LogOk(mode: Mode, s: State) {
    && LegalLog(s.log) && s.db == Replay(s.log) && DbOk(s.db)
    && (mode.Fresh? ==> ExactLog(s.log))
    && (forall i :: 0 <= i < |s.log| && Principal(s.log[i].op) ==> s.log[i].who in s.workers)
  }

  ghost predicate IdsOk(s: State) {
    && RowsDrawn(s.db, s.drawn) && s.db.cards.Keys <= s.cardIds && LocksDrawn(s)
  }

  ghost predicate WorkersOk(mode: Mode, s: State) {
    && (forall v :: v in s.workers ==> WorkerOk(mode, s.db, s.queue, s.drawn, s.workers[v]))
    && (forall v :: v in s.workers ==> HistoryOk(s.db, s.log, v, s.workers[v]))
  }

  ghost predicate Inv(mode: Mode, s: State) {
    && LogOk(mode, s)
    && IdsOk(s)
    && QueueOk(s.queue, s.drawn) && Published(s.db, s.queue)
    && Exclusive(s.workers)
    && WorkersOk(mode, s)
  }

  // ----- Frames -----

  /** Nothing under the locks has changed. */
  ghost predicate KeepsLocked(db: Db, db': Db, locks: set<Lock>) {
    && (forall t :: TxRow(t) in locks ==> (t in db'.txs <==> t in db.txs) && (t in db.txs ==> db'.txs[t] == db.txs[t]))
    && (forall a :: AcctRow(a) in locks && a in db.accounts ==> a in db'.accounts && db'.accounts[a] == db.accounts[a])
    && (forall c :: CardRow(c) in locks ==> (c in db'.cards <==> c in db.cards))
    && (forall k :: CardKey(k) in locks ==> (DigestTaken(db', k) <==> DigestTaken(db, k)))
  }

  ghost predicate Grows(drawn: map<TxId, Tx>, drawn': map<TxId, Tx>) {
    forall t :: t in drawn ==> t in drawn' && drawn'[t] == drawn[t]
  }

  lemma OnRowStable(db: Db, db': Db, drawn: map<TxId, Tx>, drawn': map<TxId, Tx>, w: Worker, op: Op, row: Tx)
    requires OnRow(db, drawn, w, op, row) && TxRow(op.id) in w.locks
    requires Evolves(db, db') && KeepsLocked(db, db', w.locks) && Grows(drawn, drawn')
    ensures OnRow(db', drawn', w, op, row)
  {
  }

  lemma ReadyStable(mode: Mode, db: Db, db': Db, q: seq<Message>, q': seq<Message>,
                    drawn: map<TxId, Tx>, drawn': map<TxId, Tx>, w: Worker)
    requires ReadyOk(mode, db, q, drawn, w)
    requires Evolves(db, db') && KeepsLocked(db, db', w.locks) && q <= q' && Grows(drawn, drawn')
    ensures ReadyOk(mode, db', q', drawn', w)
  {
    if Posts(w.pc.op) {
      OnRowStable(db, db', drawn, drawn', w, w.pc.op, Draft(w.pc.op, db));
    }
  }

  /** While a block is open its locks keep what it has seen. */
  lemma HolderStable(mode: Mode, db: Db, db': Db, q: seq<Message>, q': seq<Message>,
                     drawn: map<TxId, Tx>, drawn': map<TxId, Tx>, w: Worker)
    requires PcOk(mode, db, q, drawn, w) && w.locks != {}
    requires Evolves(db, db') && KeepsLocked(db, db', w.locks) && q <= q' && Grows(drawn, drawn')
    ensures PcOk(mode, db', q', drawn', w)
  {
    hide OnRow, ReadyOk;
    match w.pc
    case Ready(_) => ReadyStable(mode, db, db', q, q', drawn, drawn', w);
    case Routing(op, row) => OnRowStable(db, db', drawn, drawn', w, op, row);
    case Sending(op, row) => OnRowStable(db, db', drawn, drawn', w, op, row);
    case Locked(op, row) => OnRowStable(db, db', drawn, drawn', w, op, row);
    case Settled(op, row) => OnRowStable(db, db', drawn, drawn', w, op, row);
    case _ =>
  }

  /** Between its blocks a worker relies only on what no block takes back. */
  lemma IdleStable(mode: Mode, db: Db, db': Db, q: seq<Message>, q': seq<Message>,
                   drawn: map<TxId, Tx>, drawn': map<TxId, Tx>, w: Worker)
    requires PcOk(mode, db, q, drawn, w) && w.locks == {} && Evolves(db, db')
    ensures PcOk(mode, db', q', drawn', w)
  {
    match w.pc
    case Refetch =>
      var c :| c in db.cards && db.cards[c].digest == CardDigest(w.job.number);
      assert db'.cards[c].digest == CardDigest(w.job.number);
    case GotRow(row) => assert TxEvolves(db.txs[w.job.tx], db'.txs[w.job.tx]);
    case _ =>
  }

  /** A worker's invariant survives any change that keeps what the worker has locked. */
  lemma WorkerStable(mode: Mode, db: Db, db': Db, q: seq<Message>, q': seq<Message>,
                     drawn: map<TxId, Tx>, drawn': map<TxId, Tx>, w: Worker)
    requires WorkerOk(mode, db, q, drawn, w)
    requires Evolves(db, db') && KeepsLocked(db, db', w.locks) && q <= q' && Grows(drawn, drawn')
    ensures WorkerOk(mode, db', q', drawn', w)
  {
    hide PcOk, Evolves, KeepsLocked, Grows;
    if w.locks == {} {
      IdleStable(mode, db, db', q, q', drawn, drawn', w);
    } else {
      HolderStable(mode, db, db', q, q', drawn, drawn', w);
    }
  }

  lemma OthersNumberStable(db: Db, db': Db, job: Job)
    requires OthersNumber(db, job) && Evolves(db, db')
    ensures OthersNumber(db', job)
  {
    var c :| && c in db.cards && db.cards[c].digest == CardDigest(job.number)
             && db.cards[c].account in db.accounts && db.accounts[db.cards[c].account].user != job.user;
    assert db'.cards[c] == db.cards[c];
  }

  lemma HistoryStable(db: Db, db': Db, log: seq<Entry>, log': seq<Entry>, who: nat, w: Worker)
    requires DbOk(db) && HistoryOk(db, log, who, w) && Evolves(db, db') && log <= log'
    requires forall i :: |log| <= i < |log'| && Principal(log'[i].op) ==> log'[i].who != who
    ensures HistoryOk(db', log', who, w)
  {
    assert forall i :: 0 <= i < |log| ==> log'[i] == log[i];
    match w.pc
    case Done(Returned(id)) =>
      assert TxEvolves(db.txs[id], db'.txs[id]);
      assert TxOk(db, db.txs[id]);
    case Done(PaymentRequired(id)) => assert TxEvolves(db.txs[id], db'.txs[id]);
    case Done(Conflict) => assert TxEvolves(db.txs[w.job.tx], db'.txs[w.job.tx]);
    case Done(Forbidden) => OthersNumberStable(db, db', w.job);
    case _ =>
  }
}
