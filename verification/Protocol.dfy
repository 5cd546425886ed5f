/**
 The transaction service as a concurrent protocol. Any number of workers (customer payments,
 deposits, the per-id endpoint and the items of cron runs) take small steps over shared committed
 tables. Each open block keeps its writes private and its row locks until it commits or is rolled
 back; the queue is outside the database, so a message that was sent stays sent.
 */
module Protocol {
  import opened Schema
  import opened Ledger

  // ----- State -----

  /**
   What a block sees of an account it locks: the balance committed when the lock is granted, or the
   one its session had loaded earlier.
   */
  datatype Mode = Fresh | Cached

  datatype Job =
    | PayJob(user: UserId, number: string, cardType: Method, destination: string, amount: int,
             kind: TxType, scheduledFor: Option<int>, reversalOf: Option<TxId>)
    | ExecuteJob(tx: TxId)
    | DepositJob(user: UserId, amount: int)

  /** A row or unique key held by an open block; a row it has inserted is held as well. */
  datatype Lock = TxRow(t: TxId) | AcctRow(a: AccountId) | CardRow(c: CardId) | CardKey(d: Digest)

  /** The uncommitted changes of an open block. */
  datatype Writes = Writes(balances: map<AccountId, int>, cards: map<CardId, Card>, rows: map<TxId, Tx>)

  const NO_WRITES := Writes(map[], map[], map[])

  datatype Outcome =
    | Returned(id: TxId)
    | PaymentRequired(id: TxId)
    | Processed
    | Credited
    | Forbidden
    | NotFound
    | Conflict
    | Aborted
    | RefreshFailed

  datatype Pc =
    | Start
    | CardMissing(account: AccountId)
    | Refetch
    | Resolved(card: CardId)
    | GotRow(seenRow: Tx)
    | Routing(op: Op, row: Tx)
    | Sending(op: Op, row: Tx)
    | Locked(op: Op, row: Tx)
    | Settled(op: Op, row: Tx)
    | DepositFound(account: AccountId)
    | DepositLocked(account: AccountId)
    | Ready(op: Op)
    | Refreshing
    | Done(outcome: Outcome)

  /**
   `seen` is the balance loaded before the lock, `base` the one the block works from, and `did` the
   place in the log of the block that posted or credited.
   */
  datatype Worker = Worker(job: Job, pc: Pc, locks: set<Lock>, writes: Writes, seen: int, base: int, did: Option<nat>)

  /** `drawn` and `cardIds` are the ids generated so far; a drawn id stands for the row it was drawn for. */
  datatype State = State(
    db: Db,
    queue: seq<Message>,
    drawn: map<TxId, Tx>,
    cardIds: set<CardId>,
    log: seq<Entry>,
    workers: map<nat, Worker>)

  const INIT := State(EMPTY_DB, [], map[], {}, [], map[])

  // ----- Steps -----

  datatype CardAct =
    | LookupHit(card: CardId)
    | LookupMiss(account: AccountId)
    | LookupNoAccount
    | InsertCard(card: CardId)
    | InsertConflict
    | RefetchHit(card: CardId)
    | RefetchMiss

  datatype BeginAct =
    | BeginPay(id: TxId, now: int, stamp: int)
    | ReversalMissing
    | ReadRow
    | ReadMissing
    | Claim
    | ClaimRefused

  datatype RouteAct =
    | RouteDeferred
    | RouteInternational
    | RouteCredit
    | LockOrigin
    | OriginMissing
    | Send
    | Deduct
    | WriteRow

  datatype DepositAct =
    | FindAccount(account: AccountId)
    | FindNone
    | LockAccount
    | AddBalance

  datatype EndAct = Overflow | Commit | Refresh | RefreshFails | Abort

  datatype Action =
    | Spawn(job: Job)
    | OpenAccount(account: AccountId, user: UserId)
    | OnCard(card: CardAct)
    | OnBegin(begin: BeginAct)
    | OnRoute(route: RouteAct)
    | OnDeposit(deposit: DepositAct)
    | OnEnd(end: EndAct)

  datatype Event = Event(who: nat, act: Action)

  predicate ValidJob(job: Job) {
    match job
    case ExecuteJob(_) => true
    case PayJob(_, _, _, _, amount, _, _, _) => 0 < amount
    case DepositJob(_, amount) => 0 < amount
  }

  predicate Later(op: Op) {
    op.Pay? && Deferred(op.payment)
  }

  /** The block has to settle against the balance of the origin account. */
  predicate Settles(op: Op, row: Tx) {
    !Later(op) && row.kind.National? && row.paidBy.Debit?
  }

  predicate Unfinished(pc: Pc) {
    !pc.Refreshing? && !pc.Done?
  }

  /** No other worker holds the lock. */
  predicate Free(s: State, who: nat, k: Lock) {
    forall v :: v in s.workers && v != who ==> k !in s.workers[v].locks
  }

  predicate HasDigest(db: Db, c: CardId, digest: Digest) {
    c in db.cards && db.cards[c].digest == digest
  }

  predicate Owner(db: Db, a: AccountId, user: UserId) {
    a in db.accounts && db.accounts[a].user == user
  }

  predicate HasAccount(db: Db, user: UserId) {
    exists a :: a in db.accounts && db.accounts[a].user == user
  }

  function PaymentOf(job: Job, card: CardId, now: int, stamp: int): Payment
    requires job.PayJob?
  {
    Payment(card, job.destination, job.amount, job.kind, job.scheduledFor, job.reversalOf, now, stamp)
  }

  /**
   The columns of a row, its status aside, are those the request asks for, with the stored card's account
   and type.
   */
  predicate AsRequested(db: Db, job: Job, card: CardId, now: int, stamp: int, row: Tx)
    requires job.PayJob? && card in db.cards
  {
    && row.card == card && row.origin == db.cards[card].account && row.paidBy == db.cards[card].cardType
    && row.destination == job.destination && row.amount == job.amount && row.kind == job.kind
    && row.reversalOf == job.reversalOf && row.createdAt == stamp
    && row.scheduledFor == (if job.scheduledFor.Some? && now < job.scheduledFor.value then job.scheduledFor else None)
  }

  predicate CanCard(s: State, who: nat, w: Worker, act: CardAct) {
    && w.job.PayJob?
    && var digest := CardDigest(w.job.number);
       match act
       case LookupHit(c) => w.pc.Start? && HasDigest(s.db, c, digest) && s.db.cards[c].account in s.db.accounts
       case LookupMiss(a) => w.pc.Start? && !DigestTaken(s.db, digest) && Owner(s.db, a, w.job.user)
       case LookupNoAccount => w.pc.Start? && !DigestTaken(s.db, digest) && !HasAccount(s.db, w.job.user)
       case InsertCard(c) =>
         w.pc.CardMissing? && c !in s.cardIds && !DigestTaken(s.db, digest) && Free(s, who, CardKey(digest))
       case InsertConflict => w.pc.CardMissing? && DigestTaken(s.db, digest)
       case RefetchHit(c) => w.pc.Refetch? && HasDigest(s.db, c, digest) && s.db.cards[c].account in s.db.accounts
       case RefetchMiss => w.pc.Refetch? && !DigestTaken(s.db, digest)
  }

  predicate ReversalKnown(db: Db, job: Job)
    requires job.PayJob?
  {
    job.reversalOf.Some? ==> job.reversalOf.value in db.txs
  }

  predicate CanBegin(s: State, who: nat, w: Worker, act: BeginAct) {
    match act
    case BeginPay(id, now, stamp) =>
      && w.pc.Resolved? && w.job.PayJob? && ReversalKnown(s.db, w.job) && id !in s.drawn
      && Guard(Pay(id, PaymentOf(w.job, w.pc.card, now, stamp)), s.db)
    case ReversalMissing => w.pc.Resolved? && w.job.PayJob? && !ReversalKnown(s.db, w.job)
    case ReadRow =>
      w.pc.Start? && w.job.ExecuteJob? && w.job.tx in s.db.txs && s.db.txs[w.job.tx].origin in s.db.accounts
    case ReadMissing => w.pc.Start? && w.job.ExecuteJob? && w.job.tx !in s.db.txs
    case Claim =>
      w.pc.GotRow? && w.job.ExecuteJob? && Guard(Execute(w.job.tx), s.db) && Free(s, who, TxRow(w.job.tx))
    case ClaimRefused =>
      w.pc.GotRow? && w.job.ExecuteJob? && (w.job.tx in s.db.txs ==> !s.db.txs[w.job.tx].status.Scheduled?)
  }

  /** The columns of the posted row can hold the amount. */
  predicate Fits(op: Op, row: Tx) {
    op.Execute? || row.amount <= MAX_UNITS
  }

  predicate CanRoute(s: State, who: nat, w: Worker, act: RouteAct) {
    match act
    case RouteDeferred => w.pc.Routing? && Later(w.pc.op) && Fits(w.pc.op, w.pc.row)
    case RouteInternational =>
      w.pc.Routing? && !Later(w.pc.op) && w.pc.row.kind.International? && Posts(w.pc.op) && Fits(w.pc.op, w.pc.row)
    case RouteCredit =>
      && w.pc.Routing? && !Later(w.pc.op) && w.pc.row.kind.National? && w.pc.row.paidBy.Credit?
      && Posts(w.pc.op) && Fits(w.pc.op, w.pc.row)
    case LockOrigin =>
      && w.pc.Routing? && Settles(w.pc.op, w.pc.row)
      && w.pc.row.origin in s.db.accounts && Free(s, who, AcctRow(w.pc.row.origin))
    case OriginMissing => w.pc.Routing? && Settles(w.pc.op, w.pc.row) && w.pc.row.origin !in s.db.accounts
    case Send => w.pc.Sending? && Posts(w.pc.op)
    case Deduct => w.pc.Locked?
    case WriteRow => w.pc.Settled? && Posts(w.pc.op) && Fits(w.pc.op, w.pc.row)
  }

  predicate CanDeposit(s: State, who: nat, w: Worker, act: DepositAct) {
    && w.job.DepositJob?
    && match act
       case FindAccount(a) => w.pc.Start? && Owner(s.db, a, w.job.user)
       case FindNone => w.pc.Start? && !HasAccount(s.db, w.job.user)
       case LockAccount =>
         w.pc.DepositFound? && w.pc.account in s.db.accounts && Free(s, who, AcctRow(w.pc.account))
       case AddBalance => w.pc.DepositLocked? && w.base + w.job.amount <= MAX_UNITS
  }

  /** The database refuses a value its numeric columns cannot hold. */
  predicate Overflows(w: Worker) {
    match w.pc
    case Routing(op, row) => !Fits(op, row) && !Settles(op, row)
    case Settled(op, row) => !Fits(op, row)
    case DepositLocked(_) => w.job.DepositJob? && MAX_UNITS < w.base + w.job.amount
    case _ => false
  }

  predicate CanEnd(w: Worker, act: EndAct) {
    match act
    case Overflow => Overflows(w)
    case Commit => w.pc.Ready? && (Posts(w.pc.op) ==> w.pc.op.id in w.writes.rows)
    case Refresh => w.pc.Refreshing?
    case RefreshFails => w.pc.Refreshing?
    case Abort => Unfinished(w.pc)
  }

  predicate Enabled(s: State, e: Event) {
    match e.act
    case Spawn(job) => e.who !in s.workers && ValidJob(job)
    case OpenAccount(a, u) => Guard(Open(a, u), s.db)
    case OnCard(act) => e.who in s.workers && CanCard(s, e.who, s.workers[e.who], act)
    case OnBegin(act) => e.who in s.workers && CanBegin(s, e.who, s.workers[e.who], act)
    case OnRoute(act) => e.who in s.workers && CanRoute(s, e.who, s.workers[e.who], act)
    case OnDeposit(act) => e.who in s.workers && CanDeposit(s, e.who, s.workers[e.who], act)
    case OnEnd(act) => e.who in s.workers && CanEnd(s.workers[e.who], act)
  }

  /** The end of a block that leaves nothing behind. */
  function Finish(w: Worker, outcome: Outcome): Worker {
    w.(pc := Done(outcome), locks := {}, writes := NO_WRITES)
  }

  /** The card found under the digest is used if its account is the caller's, and refused otherwise. */
  function UseCard(db: Db, w: Worker, c: CardId): Worker
    requires w.job.PayJob? && c in db.cards && db.cards[c].account in db.accounts
  {
    var account := db.accounts[db.cards[c].account];
    if account.user == w.job.user then w.(pc := Resolved(c), seen := account.balance) else Finish(w, Forbidden)
  }

  function CardMove(s: State, who: nat, w: Worker, act: CardAct): Worker
    requires CanCard(s, who, w, act)
  {
    match act
    case LookupHit(c) => UseCard(s.db, w, c)
    case LookupMiss(a) => w.(pc := CardMissing(a), seen := s.db.accounts[a].balance)
    case LookupNoAccount => Finish(w, NotFound)
    case InsertCard(c) =>
      var digest := CardDigest(w.job.number);
      var card := Card(w.pc.account, w.job.cardType, digest);
      w.(pc := Ready(AddCard(c, card)), locks := {CardRow(c), CardKey(digest)},
         writes := Writes(map[], map[c := card], map[]))
    case InsertConflict => w.(pc := Refetch)
    case RefetchHit(c) => UseCard(s.db, w, c)
    case RefetchMiss => Finish(w, Forbidden)
  }

  function RowWrite(op: Op, row: Tx): Writes
    requires Posts(op)
  {
    Writes(map[], map[], map[op.id := row])
  }

  function BeginMove(s: State, who: nat, w: Worker, act: BeginAct): Worker
    requires CanBegin(s, who, w, act)
  {
    match act
    case BeginPay(id, now, stamp) =>
      var op := Pay(id, PaymentOf(w.job, w.pc.card, now, stamp));
      w.(pc := Routing(op, Draft(op, s.db)), locks := {TxRow(id)})
    case ReversalMissing => Finish(w, NotFound)
    case ReadRow =>
      var row := s.db.txs[w.job.tx];
      w.(pc := GotRow(row), seen := s.db.accounts[row.origin].balance)
    case ReadMissing => Finish(w, NotFound)
    case Claim =>
      var op := Execute(w.job.tx);
      w.(pc := Routing(op, w.pc.seenRow.(status := Processing)), locks := {TxRow(op.id)},
         writes := RowWrite(op, s.db.txs[w.job.tx].(status := Processing)))
    case ClaimRefused => Finish(w, Conflict)
  }

  function LockedBalance(mode: Mode, s: State, w: Worker, a: AccountId): int
    requires a in s.db.accounts
  {
    if mode.Fresh? then s.db.accounts[a].balance else w.seen
  }

  function Deduction(row: Tx, base: int): map<AccountId, int> {
    if row.amount <= base then map[row.origin := base - row.amount] else map[]
  }

  function RouteMove(mode: Mode, s: State, who: nat, w: Worker, act: RouteAct): Worker
    requires CanRoute(s, who, w, act)
  {
    var op, row := w.pc.op, w.pc.row;
    match act
    case RouteDeferred => w.(pc := Ready(op), writes := RowWrite(op, row.(status := Scheduled)))
    case RouteInternational => w.(pc := Sending(op, row), writes := RowWrite(op, row.(status := Pending)))
    case RouteCredit => w.(pc := Ready(op), writes := RowWrite(op, row.(status := Completed)))
    case LockOrigin =>
      w.(pc := Locked(op, row), locks := w.locks + {AcctRow(row.origin)}, base := LockedBalance(mode, s, w, row.origin))
    case OriginMissing => Finish(w, NotFound)
    case Send => w.(pc := Ready(op))
    case Deduct => w.(pc := Settled(op, row), writes := w.writes.(balances := Deduction(row, w.base)))
    case WriteRow =>
      var status := if row.amount <= w.base then Completed else Failed;
      w.(pc := Ready(op), writes := w.writes.(rows := map[op.id := row.(status := status)]))
  }

  function DepositMove(mode: Mode, s: State, who: nat, w: Worker, act: DepositAct): Worker
    requires CanDeposit(s, who, w, act)
  {
    match act
    case FindAccount(a) => w.(pc := DepositFound(a), seen := s.db.accounts[a].balance)
    case FindNone => Finish(w, NotFound)
    case LockAccount =>
      var a := w.pc.account;
      w.(pc := DepositLocked(a), locks := {AcctRow(a)}, base := LockedBalance(mode, s, w, a))
    case AddBalance =>
      var a := w.pc.account;
      w.(pc := Ready(Deposit(a, w.job.amount)), writes := Writes(map[a := w.base + w.job.amount], map[], map[]))
  }

  function EndMove(s: State, w: Worker, act: EndAct): Worker
    requires CanEnd(w, act)
  {
    match act
    case Overflow => Finish(w, Aborted)
    case Abort => Finish(w, Aborted)
    case Refresh => Finish(w, if w.job.ExecuteJob? then Processed else Credited)
    case RefreshFails => Finish(w, RefreshFailed)
    case Commit =>
      var closed := w.(locks := {}, writes := NO_WRITES);
      match w.pc.op
      case AddCard(c, _) => closed.(pc := Resolved(c))
      case Pay(id, _) =>
        var row := w.writes.rows[id];
        closed.(pc := Done(if row.paidBy.Debit? && row.status.Failed? then PaymentRequired(id) else Returned(id)),
                did := Some(|s.log|))
      case _ => closed.(pc := Refreshing, did := Some(|s.log|))
  }

  /** What a commit makes of the tables. */
  function Apply(db: Db, writes: Writes): Db {
    Db(map a | a in db.accounts ::
         if a in writes.balances then db.accounts[a].(balance := writes.balances[a]) else db.accounts[a],
       db.cards + writes.cards,
       db.txs + writes.rows)
  }

  function Next(mode: Mode, s: State, e: Event): State
    requires Enabled(s, e)
  {
    match e.act
    case Spawn(job) => s.(workers := s.workers[e.who := Worker(job, Start, {}, NO_WRITES, 0, 0, None)])
    case OpenAccount(a, u) =>
      s.(db := Run(Open(a, u), s.db), log := s.log + [Entry(e.who, Open(a, u), 0)])
    case OnCard(act) =>
      var w := s.workers[e.who];
      s.(workers := s.workers[e.who := CardMove(s, e.who, w, act)],
         cardIds := if act.InsertCard? then s.cardIds + {act.card} else s.cardIds)
    case OnBegin(act) =>
      var w := s.workers[e.who];
      var w' := BeginMove(s, e.who, w, act);
      s.(workers := s.workers[e.who := w'],
         drawn := if act.BeginPay? then s.drawn[act.id := w'.pc.row] else s.drawn)
    case OnRoute(act) =>
      var w := s.workers[e.who];
      s.(workers := s.workers[e.who := RouteMove(mode, s, e.who, w, act)],
         queue := if act.Send? then s.queue + [MessageOf(w.pc.op.id, w.pc.row)] else s.queue)
    case OnDeposit(act) =>
      s.(workers := s.workers[e.who := DepositMove(mode, s, e.who, s.workers[e.who], act)])
    case OnEnd(act) =>
      var w := s.workers[e.who];
      s.(workers := s.workers[e.who := EndMove(s, w, act)],
         db := if act.Commit? then Apply(s.db, w.writes) else s.db,
         log := if act.Commit? then s.log + [Entry(e.who, w.pc.op, w.base)] else s.log)
  }

  // ----- Runs -----

  /** The state after a run, read from the initial empty tables. */
  ghost function After(mode: Mode, events: seq<Event>): State {
    if events == [] then INIT
    else
      var s := After(mode, events[..|events| - 1]);
      var e := events[|events| - 1];
      if Enabled(s, e) then Next(mode, s, e) else s
  }

  /** Every event of the run was possible when it happened. */
  ghost predicate IsRun(mode: Mode, events: seq<Event>) {
    events == [] ||
    (IsRun(mode, events[..|events| - 1]) && Enabled(After(mode, events[..|events| - 1]), events[|events| - 1]))
  }
}
