/**
 The service itself, statement by statement, over tables it updates in place. Each public method is
 one request or job item running alone; it is proved to have the effect of the atomic ledger's blocks.
 */
module Service {
  import opened Schema
  import opened Ledger
  import Protocol
  import Invariant

  /** Where an exception strikes while a scheduled transaction or a payment is processed. */
  datatype Fault = NoFault | OnRead | InBlock | OnSend | AfterSend | AfterCommit

  datatype Attempted = Processed | Refused | Missing | Raised

  datatype Resolution = Use(card: CardId) | NotYours | NoAccount

  datatype PayResult = Returned(row: Tx) | PaymentRequired | Forbidden | NotFound | Error

  /** The database and the queue beside it. */
  datatype World = World(db: Db, queue: seq<Message>)

  /** One attempt to execute a scheduled transaction, fault or no fault. */
  function Attempt(w: World, id: TxId, fault: Fault): (World, Attempted) {
    if fault.OnRead? then (w, Raised)
    else if id !in w.db.txs then (w, Missing)
    else if !Guard(Execute(id), w.db) then (w, Refused)
    else if fault.InBlock? || (fault.OnSend? && w.db.txs[id].kind.International?) then (w, Raised)
    else
      var db := Run(Execute(id), w.db);
      var queue := w.queue + Sent(Execute(id), db);
      match fault
      case AfterSend => (World(w.db, queue), Raised)
      case AfterCommit => (World(db, queue), Raised)
      case _ => (World(db, queue), Processed)
  }

  /** The message the execution of a row leads to: one for an international row. */
  function Called(db: Db, id: TxId): seq<Message>
    requires id in db.txs
  {
    var row := db.txs[id];
    if row.kind.International? then
      [Message(tx := id, origin := row.origin, destination := row.destination, amount := row.amount,
               paidBy := row.paidBy)]
    else []
  }

  /**
   What the execution of a scheduled row does: an international one is pending and its message sent, a
   national one is completed unless it is a debit of more than the balance, and a completed debit is
   deducted. Nothing else changes.
   */
  ghost predicate Performed(before: World, id: TxId, after: World)
    requires id in before.db.txs && before.db.txs[id].origin in before.db.accounts
  {
    var row := before.db.txs[id];
    var account := before.db.accounts[row.origin];
    var short := row.paidBy.Debit? && account.balance < row.amount;
    && after.db.cards == before.db.cards
    && after.db.txs == before.db.txs[id := row.(status := if row.kind.International? then Pending
                                                          else if short then Failed else Completed)]
    && after.db.accounts ==
       (if row.kind.National? && row.paidBy.Debit? && !short
        then before.db.accounts[row.origin := Account(account.user, account.balance - row.amount)]
        else before.db.accounts)
    && after.queue == before.queue + Called(before.db, id)
  }

  /** The fault keeps the execution of the row from committing. */
  predicate Stops(fault: Fault, row: Tx) {
    fault.InBlock? || fault.AfterSend? || (fault.OnSend? && row.kind.International?)
  }

  /** The execution was committed: it succeeded, or only its refresh failed. */
  predicate Effective(fault: Fault, r: Attempted) {
    r.Processed? || (r.Raised? && fault.AfterCommit?)
  }

  /**
   An attempt at a row, case by case: 404 exactly for an unknown row, 409 exactly for one that is not
   scheduled; otherwise the execution takes place, reported as processed unless the refresh fails, or the
   fault stops it and the tables are as before, and the queue as well unless the block failed after its
   send.
   */
  ghost predicate Attempts(before: World, id: TxId, fault: Fault, after: World, r: Attempted)
    requires DbOk(before.db)
  {
    && (r.Missing? <==> !fault.OnRead? && id !in before.db.txs)
    && (r.Refused? <==> !fault.OnRead? && id in before.db.txs && !before.db.txs[id].status.Scheduled?)
    && (Effective(fault, r) <==> && !fault.OnRead? && id in before.db.txs && before.db.txs[id].status.Scheduled?
                                 && !Stops(fault, before.db.txs[id]))
    && (r.Processed? ==> !fault.AfterCommit?)
    && (Effective(fault, r) ==> before.db.txs[id].origin in before.db.accounts && Performed(before, id, after))
    && (!Effective(fault, r) ==>
          && after.db == before.db
          && after.queue == before.queue + if r.Raised? && fault.AfterSend? then Called(before.db, id) else [])
  }

  lemma ScheduledHasAccount(db: Db, id: TxId)
    requires DbOk(db) && id in db.txs
    ensures db.txs[id].origin in db.accounts && (Guard(Execute(id), db) <==> db.txs[id].status.Scheduled?)
    ensures Guard(Execute(id), db) ==> Legal(Execute(id), db, Balance(Execute(id), db))
  {
    assert TxOk(db, db.txs[id]);
  }

  lemma {:induction false} ExecutionPerforms(w: World, id: TxId)
    requires Guard(Execute(id), w.db)
    ensures var db := Run(Execute(id), w.db);
            Performed(w, id, World(db, w.queue + Sent(Execute(id), db)))
  {
  }

  /** The specification of an attempt says what the rules say, whatever fault strikes. */
  lemma {:induction false} AttemptOutcome(w: World, id: TxId, fault: Fault)
    requires DbOk(w.db)
    ensures Attempts(w, id, fault, Attempt(w, id, fault).0, Attempt(w, id, fault).1)
  {
    hide Performed, RunFrom, Balance, Sent, DbOk;
    if id in w.db.txs {
      ScheduledHasAccount(w.db, id);
      if Guard(Execute(id), w.db) {
        ExecutionPerforms(w, id);
      }
    }
  }

  lemma ExecutionAnnounces(before: World, id: TxId, after: World)
    requires DbOk(before.db) && id in before.db.txs && before.db.txs[id].origin in before.db.accounts
    requires Performed(before, id, after) && Announced(before.db, before.queue)
    ensures Announced(after.db, after.queue)
  {
    forall t | t in after.db.txs && after.db.txs[t].status.Pending?
      ensures exists m :: m in after.queue && Tells(m, t, after.db.txs[t])
    {
      if t == id {
        var m := after.queue[|before.queue|];
        assert m in after.queue && Tells(m, t, after.db.txs[t]);
      } else {
        var m :| m in before.queue && Tells(m, t, before.db.txs[t]);
        assert m in after.queue;
      }
    }
  }

  /** No attempt, whatever strikes it, leaves a pending row without its message. */
  lemma {:induction false} AttemptKeepsAnnounced(w: World, id: TxId, fault: Fault)
    requires DbOk(w.db) && Announced(w.db, w.queue)
    ensures Announced(Attempt(w, id, fault).0.db, Attempt(w, id, fault).0.queue)
  {
    hide Attempt, Performed, DbOk;
    AttemptOutcome(w, id, fault);
    var after, r := Attempt(w, id, fault).0, Attempt(w, id, fault).1;
    if Effective(fault, r) {
      ExecutionAnnounces(w, id, after);
    } else {
      QueueGrows(w.db, w.queue, after.queue);
    }
  }

  lemma AttemptFacts(w: World, id: TxId, fault: Fault)
    requires DbOk(w.db)
    ensures var (after, r) := Attempt(w, id, fault);
            && Attempts(w, id, fault, after, r)
            && (r.Raised? && !fault.AfterCommit? ==> after.db == w.db)
            && (r.Raised? && !fault.AfterCommit? && !fault.AfterSend? ==> after.queue == w.queue)
            && (Announced(w.db, w.queue) ==> Announced(after.db, after.queue))
  {
    hide Attempt, DbOk, Announced;
    AttemptOutcome(w, id, fault);
    if Announced(w.db, w.queue) {
      AttemptKeepsAnnounced(w, id, fault);
    }
  }

  lemma QueueGrows(db: Db, queue: seq<Message>, queue': seq<Message>)
    requires Announced(db, queue) && queue <= queue'
    ensures Announced(db, queue')
  {
    forall t | t in db.txs && db.txs[t].status.Pending? ensures exists m :: m in queue' && Tells(m, t, db.txs[t]) {
      var m :| m in queue && Tells(m, t, db.txs[t]);
      assert m in queue';
    }
  }

  /** The payment, if it is routed at all, goes to the queue. */
  predicate Sends(p: Payment) {
    !Deferred(p) && p.kind.International?
  }

  /** How the outcome of a committed payment is reported. */
  function Reported(row: Tx): PayResult {
    if row.paidBy.Debit? && row.status.Failed? then PaymentRequired else Returned(row)
  }

  predicate Due(row: Tx, now: int) {
    row.status.Scheduled? && row.scheduledFor.Some? && row.scheduledFor.value <= now
  }

  /** Who may use the card stored under a digest. */
  function Judged(db: Db, user: UserId, c: CardId): Resolution
    requires c in db.cards && db.cards[c].account in db.accounts
  {
    if db.accounts[db.cards[c].account].user == user then Use(c) else NotYours
  }

  /** A card another request commits while this one is between its lookup and its insertion. */
  datatype Rival = Rival(id: CardId, card: Card)

  function WithRival(cards: map<CardId, Card>, rival: Option<Rival>): map<CardId, Card> {
    if rival.Some? then cards[rival.value.id := rival.value.card] else cards
  }

  /** The number is stored for an account of the caller. */
  ghost predicate OwnCard(db: Db, job: Protocol.Job) {
    exists c :: Invariant.Holds(db, job, c)
  }

  /** The number is stored for somebody else's account. */
  ghost predicate OthersCard(db: Db, job: Protocol.Job)
    requires job.PayJob?
  {
    exists c :: Protocol.HasDigest(db, c, CardDigest(job.number)) && !Protocol.Owner(db, db.cards[c].account, job.user)
  }

  /** One card is stored under the number, and the resolution follows from its owner. */
  ghost predicate JudgedByOwner(db: Db, job: Protocol.Job, r: Resolution)
    requires DbOk(db) && job.PayJob?
  {
    exists c :: Protocol.HasDigest(db, c, CardDigest(job.number)) && r == Judged(db, job.user, c)
  }

  /** The sixteen characters are stored for an account of another user. */
  ghost predicate StoredForOther(db: Db, user: UserId, x: string) {
    exists c :: && c in db.cards && db.cards[c].digest == Hmac(x)
                && db.cards[c].account in db.accounts && db.accounts[db.cards[c].account].user != user
  }

  lemma OthersWritten(db: Db, job: Protocol.Job, x: string)
    requires DbOk(db) && job.PayJob? && WrittenAs(job.number, x)
    ensures OthersCard(db, job) <==> StoredForOther(db, job.user, x)
  {
    DigestOfWritten(job.number, x);
    if OthersCard(db, job) {
      var c :| Protocol.HasDigest(db, c, CardDigest(job.number)) && !Protocol.Owner(db, db.cards[c].account, job.user);
      assert db.cards[c].digest == Hmac(x);
    }
    if StoredForOther(db, job.user, x) {
      var c :| && c in db.cards && db.cards[c].digest == Hmac(x)
               && db.cards[c].account in db.accounts && db.accounts[db.cards[c].account].user != job.user;
      assert Protocol.HasDigest(db, c, CardDigest(job.number));
    }
  }

  /** A resolution decides whose card it is, and every case excludes the others. */
  lemma ResolutionDecides(db: Db, job: Protocol.Job, r: Resolution)
    requires DbOk(db) && job.PayJob?
    requires if r.NoAccount? then !DigestTaken(db, CardDigest(job.number)) else JudgedByOwner(db, job, r)
    ensures r.NoAccount? <==> !DigestTaken(db, CardDigest(job.number))
    ensures r.NotYours? <==> OthersCard(db, job)
    ensures r.Use? <==> OwnCard(db, job)
    ensures r.Use? ==> Invariant.Holds(db, job, r.card)
  {
    if !r.NoAccount? {
      var c :| Protocol.HasDigest(db, c, CardDigest(job.number)) && r == Judged(db, job.user, c);
      assert r.Use? ==> Invariant.Holds(db, job, c);
    }
  }

  /** However the number is written, a resolution refuses it exactly when its sixteen characters are another user's. */
  lemma RefusedExactly(db: Db, job: Protocol.Job, r: Resolution)
    requires DbOk(db) && job.PayJob?
    requires if r.NoAccount? then !DigestTaken(db, CardDigest(job.number)) else JudgedByOwner(db, job, r)
    ensures forall x :: WrittenAs(job.number, x) ==> (r.NotYours? <==> StoredForOther(db, job.user, x))
    ensures forall x :: WrittenAs(job.number, x) && r.Use? ==>
              && r.card in db.cards && db.cards[r.card].digest == Hmac(x)
              && db.cards[r.card].account in db.accounts && db.accounts[db.cards[r.card].account].user == job.user
  {
    ResolutionDecides(db, job, r);
    forall x | WrittenAs(job.number, x) ensures OthersCard(db, job) <==> StoredForOther(db, job.user, x) {
      OthersWritten(db, job, x);
    }
    forall x | WrittenAs(job.number, x) ensures CardDigest(job.number) == Hmac(x) {
      DigestOfWritten(job.number, x);
    }
  }

  predicate Posted(r: PayResult) {
    r.Returned? || r.PaymentRequired?
  }

  /** The payment is stored for later. */
  predicate Waits(job: Protocol.Job, now: int)
    requires job.PayJob?
  {
    job.scheduledFor.Some? && now < job.scheduledFor.value
  }

  /** The message a request leads to: one for an international payment that is not stored for later. */
  function Asked(db: Db, job: Protocol.Job, card: CardId, id: TxId, now: int): seq<Message>
    requires job.PayJob? && card in db.cards
  {
    if job.kind.International? && !Waits(job, now) then
      [Message(tx := id, origin := db.cards[card].account, destination := job.destination, amount := job.amount,
               paidBy := db.cards[card].cardType)]
    else []
  }

  /** The fault keeps this payment's block from committing. */
  predicate Strikes(fault: Fault, job: Protocol.Job, now: int)
    requires job.PayJob?
  {
    fault.InBlock? || fault.AfterSend? || (fault.OnSend? && job.kind.International? && !Waits(job, now))
  }

  /** The status the request's row gets, given the stored card's type and the balance of its account. */
  predicate Decided(job: Protocol.Job, paidBy: Method, balance: int, now: int, status: Status)
    requires job.PayJob?
  {
    && (status.Scheduled? <==> Waits(job, now))
    && (status.Pending? <==> !Waits(job, now) && job.kind.International?)
    && (status.Failed? <==> !Waits(job, now) && job.kind.National? && paidBy.Debit? && balance < job.amount)
    && (status.Completed? <==> !Waits(job, now) && job.kind.National? && (paidBy.Credit? || job.amount <= balance))
  }

  /**
   What a posted payment has done: one new row with the columns the request asked for and the status the
   rules give, a deduction exactly for a completed debit, one message exactly for an international payment
   routed now, and the row as the answer, or 402 for a failed one.
   */
  ghost predicate Fulfilled(before: World, job: Protocol.Job, card: CardId, id: TxId, now: int, stamp: int,
                            after: World, r: PayResult)
    requires job.PayJob? && card in before.db.cards && before.db.cards[card].account in before.db.accounts
  {
    var stored := before.db.cards[card];
    var account := before.db.accounts[stored.account];
    && id in after.db.txs
    && var row := after.db.txs[id];
       && after.db.txs == before.db.txs[id := row] && after.db.cards == before.db.cards
       && Protocol.AsRequested(before.db, job, card, now, stamp, row)
       && Decided(job, stored.cardType, account.balance, now, row.status)
       && after.db.accounts ==
          (if row.status.Completed? && stored.cardType.Debit?
           then before.db.accounts[stored.account := Account(account.user, account.balance - job.amount)]
           else before.db.accounts)
       && after.queue == before.queue + Asked(before.db, job, card, id, now)
       && r == if row.status.Failed? then PaymentRequired else Returned(row)
  }

  lemma PaymentFits(db: Db, id: TxId, p: Payment)
    requires DbOk(db) && Guard(Pay(id, p), db) && p.amount <= MAX_UNITS
    ensures DbOk(Run(Pay(id, p), db))
  {
    assert AccountOk(db.accounts[db.cards[p.card].account]);
    BlockKeeps(Pay(id, p), db, Balance(Pay(id, p), db));
  }

  lemma {:induction false} PaymentFulfils(w: World, job: Protocol.Job, card: CardId, id: TxId, now: int, stamp: int)
    requires DbOk(w.db) && job.PayJob? && Protocol.ValidJob(job) && Protocol.ReversalKnown(w.db, job)
    requires id !in w.db.txs && card in w.db.cards
    ensures var op := Pay(id, Protocol.PaymentOf(job, card, now, stamp));
            && Guard(op, w.db)
            && var db := Run(op, w.db);
               Fulfilled(w, job, card, id, now, stamp, World(db, w.queue + Sent(op, db)), Reported(db.txs[id]))
  {
  }

  /**
   Submitting with a settled card: 404 exactly when the reversed row is unknown, a posting exactly when it
   is known, no fault strikes and the amount has at most fifteen digits before the point; anything else
   leaves the tables as they were and the queue as well, unless the block failed after its send.
   */
  ghost predicate PaidWith(before: World, job: Protocol.Job, card: CardId, id: TxId, now: int, stamp: int, fault: Fault,
                           after: World, r: PayResult)
    requires job.PayJob? && card in before.db.cards && before.db.cards[card].account in before.db.accounts
  {
    var known := job.reversalOf.Some? ==> job.reversalOf.value in before.db.txs;
    var fits := job.amount < 10_000_000_000_000_000_000;
    && !r.Forbidden?
    && (r.NotFound? <==> !known)
    && (Posted(r) <==> known && fits && !Strikes(fault, job, now))
    && (Posted(r) ==> Fulfilled(before, job, card, id, now, stamp, after, r))
    && (!Posted(r) ==> && after.db == before.db
                       && after.queue == before.queue + if known && fits && fault.AfterSend?
                                                        then Asked(before.db, job, card, id, now) else [])
  }

  /** No payment, whatever strikes it, leaves a pending row without its message. */
  lemma PaidKeepsAnnounced(before: World, job: Protocol.Job, card: CardId, id: TxId, now: int, stamp: int, fault: Fault,
                           after: World, r: PayResult)
    requires DbOk(before.db) && job.PayJob? && card in before.db.cards && id !in before.db.txs
    requires PaidWith(before, job, card, id, now, stamp, fault, after, r)
    requires Announced(before.db, before.queue)
    ensures Announced(after.db, after.queue)
  {
    forall t | t in after.db.txs && after.db.txs[t].status.Pending?
      ensures exists m :: m in after.queue && Tells(m, t, after.db.txs[t])
    {
      if t == id && Posted(r) {
        var m := Asked(before.db, job, card, id, now)[0];
        assert m in after.queue && Tells(m, t, after.db.txs[t]);
      } else {
        var m :| m in before.queue && Tells(m, t, before.db.txs[t]);
        assert m in after.queue;
      }
    }
  }

  /**
   The answer to a payment request once its number is settled: 403 exactly for somebody else's card, 404
   exactly without an account or without the reversed row, and otherwise what paying with the caller's card
   comes to.
   */
  ghost predicate Answered(settled: World, job: Protocol.Job, id: TxId, now: int, stamp: int, fault: Fault,
                           after: World, r: PayResult, card: CardId)
    requires DbOk(settled.db) && job.PayJob? && Protocol.ValidJob(job) && id !in settled.db.txs
  {
    && (r.Forbidden? <==> OthersCard(settled.db, job))
    && (r.NotFound? <==> !DigestTaken(settled.db, CardDigest(job.number)) ||
                         (OwnCard(settled.db, job) && !Protocol.ReversalKnown(settled.db, job)))
    && (OwnCard(settled.db, job) ==>
          && Invariant.Holds(settled.db, job, card)
          && PaidWith(settled, job, card, id, now, stamp, fault, after, r))
    && (!OwnCard(settled.db, job) ==> after == settled)
  }

  /**
   The cards once a payment's number is settled: nothing changes if it was known or the caller has no
   account; otherwise a rival's card may come first, and the caller's is added unless it took the number.
   */
  ghost predicate CardsSettled(before: Db, job: Protocol.Job, newCard: CardId, rival: Option<Rival>,
                               cards: map<CardId, Card>)
    requires job.PayJob?
  {
    var digest, known := CardDigest(job.number), WithRival(before.cards, rival);
    if DigestTaken(before, digest) || !Protocol.HasAccount(before, job.user) then cards == before.cards
    else if DigestTaken(before.(cards := known), digest) then cards == known
    else
      exists a :: Protocol.Owner(before, a, job.user) && cards == known[newCard := Card(a, job.cardType, digest)]
  }

  class Bank {
    var accounts: map<AccountId, Account>
    var cards: map<CardId, Card>
    var txs: map<TxId, Tx>
    var queue: seq<Message>

    function Tables(): Db
      reads this
    {
      Db(accounts, cards, txs)
    }

    function State(): World
      reads this
    {
      World(Tables(), queue)
    }

    ghost predicate Valid()
      reads this
    {
      DbOk(Tables())
    }

    constructor ()
      ensures Valid() && State() == World(EMPTY_DB, [])
    {
      accounts, cards, txs, queue := map[], map[], map[], [];
    }

    /** The end of a block that raised: the tables return to where they were, the queue does not. */
    method Rollback(saved: Db)
      modifies this`accounts, this`cards, this`txs
      ensures Tables() == saved
    {
      accounts, cards, txs := saved.accounts, saved.cards, saved.txs;
    }

    // ----- Tables -----

    method UpdateStatus(id: TxId, newStatus: Status, expected: Status) returns (updated: bool)
      modifies this`txs
      ensures updated <==> id in old(txs) && old(txs)[id].status == expected
      ensures txs == if updated then old(txs)[id := old(txs)[id].(status := newStatus)] else old(txs)
    {
      updated := id in txs && txs[id].status == expected;
      if updated {
        txs := txs[id := txs[id].(status := newStatus)];
      }
    }

    /** The insertion of a row; the column types refuse an amount they cannot hold. */
    method CreateRow(id: TxId, row: Tx) returns (stored: bool)
      requires id !in txs
      modifies this`txs
      ensures stored <==> 0 < row.amount <= MAX_UNITS
      ensures txs == if stored then old(txs)[id := row] else old(txs)
    {
      stored := 0 < row.amount <= MAX_UNITS;
      if stored {
        txs := txs[id := row];
      }
    }

    method GetWithLock(a: AccountId) returns (account: Option<Account>)
      ensures account == if a in accounts then Some(accounts[a]) else None
    {
      account := if a in accounts then Some(accounts[a]) else None;
    }

    method DeductBalance(a: AccountId, amount: int)
      requires a in accounts
      modifies this`accounts
      ensures accounts == SetBalance(old(accounts), a, old(accounts)[a].balance - amount)
    {
      accounts := accounts[a := accounts[a].(balance := accounts[a].balance - amount)];
    }

    method AddBalance(a: AccountId, amount: int)
      requires a in accounts
      modifies this`accounts
      ensures accounts == SetBalance(old(accounts), a, old(accounts)[a].balance + amount)
    {
      accounts := accounts[a := accounts[a].(balance := accounts[a].balance + amount)];
    }

    /** The send; it raises when the queue service does, and then nothing was sent. */
    method Publish(id: TxId, row: Tx, fails: bool) returns (sent: bool)
      modifies this`queue
      ensures sent <==> !fails
      ensures sent ==> |queue| == |old(queue)| + 1 && old(queue) <= queue && Tells(queue[|old(queue)|], id, row)
      ensures queue == if sent then old(queue) + [MessageOf(id, row)] else old(queue)
    {
      if fails {
        return false;
      }
      queue := queue + [MessageOf(id, row)];
      return true;
    }

    /** The ids of the scheduled rows that are due, in no particular order. */
    method GetDueIds(now: int) returns (ids: seq<TxId>)
      ensures forall t :: t in ids <==>
                && t in txs && txs[t].status.Scheduled?
                && txs[t].scheduledFor.Some? && txs[t].scheduledFor.value <= now
      ensures forall i, j :: 0 <= i < j < |ids| ==> ids[i] != ids[j]
    {
      ids := [];
      var rest := txs.Keys;
      while rest != {}
        invariant rest <= txs.Keys
        invariant forall t :: t in ids <==> t in txs && t !in rest && Due(txs[t], now)
        invariant forall i, j :: 0 <= i < j < |ids| ==> ids[i] != ids[j]
        decreases rest
      {
        var t :| t in rest;
        rest := rest - {t};
        if Due(txs[t], now) {
          ids := ids + [t];
        }
      }
    }

    // ----- Payments -----

    /**
     The national rules inside the caller's block: lock and check the account of a debit, deduct, and
     store the final status on a new row or on the claimed one.
     */
    method ProcessNational(id: TxId, row: Tx, existing: bool) returns (final: Option<Tx>)
      requires row.kind.National? && row.status.Processing? && (id in txs <==> existing)
      requires existing ==> txs[id] == row
      modifies this`accounts, this`txs
      ensures final.None? <==>
                || (row.paidBy.Debit? && row.origin !in old(accounts))
                || (!existing && !(0 < row.amount <= MAX_UNITS))
      ensures final.Some? && row.paidBy.Debit? ==> row.origin in old(accounts)
      ensures final.Some? && row.paidBy.Debit? ==>
                final.value == row.(status := NationalVerdict(row, old(accounts)[row.origin].balance))
      ensures final.Some? && row.paidBy.Credit? ==> final.value == row.(status := Completed)
      ensures final.Some? ==> txs == old(txs)[id := final.value]
      ensures final.Some? ==>
                accounts == if !Spends(final.value) then old(accounts)
                            else SetBalance(old(accounts), row.origin, old(accounts)[row.origin].balance - row.amount)
    {
      var status;
      if row.paidBy.Debit? {
        var account := GetWithLock(row.origin);
        if account.None? {
          return None;
        }
        if account.value.balance >= row.amount {
          DeductBalance(row.origin, row.amount);
          status := Completed;
        } else {
          status := Failed;
        }
      } else {
        status := Completed;
      }
      if existing {
        var updated := UpdateStatus(id, status, Processing);
        return Some(txs[id]);
      }
      var stored := CreateRow(id, row.(status := status));
      return if stored then Some(row.(status := status)) else None;
    }

    /**
     The routing of a claimed row: the block's work between its claim and its end. The keys of the
     tables keep the origin account in place, so the national branch always finds it.
     */
    method RouteClaimed(id: TxId, transaction: Tx, sendFails: bool, ghost saved: Db) returns (routed: bool)
      requires DbOk(saved) && Guard(Execute(id), saved) && transaction == saved.txs[id]
      requires Tables() == saved.(txs := saved.txs[id := transaction.(status := Processing)])
      modifies this`accounts, this`txs, this`queue
      ensures routed <==> !(sendFails && transaction.kind.International?)
      ensures routed ==> Tables() == Run(Execute(id), saved)
      ensures queue == if routed then old(queue) + Sent(Execute(id), Tables()) else old(queue)
    {
      assert TxOk(saved, saved.txs[id]);
      if transaction.kind.International? {
        var updated := UpdateStatus(id, Pending, Processing);
        routed := Publish(id, transaction, sendFails);
        assert txs == saved.txs[id := Final(Execute(id), saved, Balance(Execute(id), saved))];
      } else {
        var final := ProcessNational(id, transaction.(status := Processing), true);
        assert final.value == Final(Execute(id), saved, Balance(Execute(id), saved));
        assert txs == saved.txs[id := final.value];
        routed := true;
      }
    }

    method ProcessScheduledTransaction(id: TxId, fault: Fault) returns (r: Attempted)
      requires Valid()
      modifies this
      ensures Valid()
      ensures (State(), r) == Attempt(old(State()), id, fault)
      ensures Attempts(old(State()), id, fault, State(), r)
      ensures r.Raised? && !fault.AfterCommit? ==> Tables() == old(Tables())
      ensures r.Raised? && !fault.AfterCommit? && !fault.AfterSend? ==> queue == old(queue)
      ensures Announced(old(Tables()), old(queue)) ==> Announced(Tables(), queue)
    {
      hide DbOk, Evolves, RunFrom, Sent, Attempts, Announced;
      AttemptFacts(State(), id, fault);
      var saved := Tables();
      if fault.OnRead? {
        return Raised;
      }
      if id !in txs {
        return Missing;
      }
      var transaction := txs[id];
      ScheduledHasAccount(saved, id);
      var claimed := UpdateStatus(id, Processing, Scheduled);
      if !claimed {
        return Refused;
      }
      if fault.InBlock? {
        Rollback(saved);
        return Raised;
      }
      var routed := RouteClaimed(id, transaction, fault.OnSend?, saved);
      BlockKeeps(Execute(id), saved, Balance(Execute(id), saved));
      if !routed || fault.AfterSend? {
        Rollback(saved);
        return Raised;
      }
      if fault.AfterCommit? {
        return Raised;
      }
      return Processed;
    }

    // ----- Cards and new payments -----

    method FindCard(digest: Digest) returns (card: Option<CardId>)
      ensures card.Some? ==> card.value in cards && cards[card.value].digest == digest
      ensures card.None? ==> !DigestTaken(Tables(), digest)
    {
      if c :| c in cards && cards[c].digest == digest {
        return Some(c);
      }
      return None;
    }

    method FindAccount(user: UserId) returns (account: Option<AccountId>)
      ensures account.Some? ==> account.value in accounts && accounts[account.value].user == user
      ensures account.None? ==> !Protocol.HasAccount(Tables(), user)
    {
      if a :| a in accounts && accounts[a].user == user {
        return Some(a);
      }
      return None;
    }

    /** Another request commits a card. */
    method RivalCommits(rival: Option<Rival>)
      requires Valid() && (rival.Some? ==> Guard(AddCard(rival.value.id, rival.value.card), Tables()))
      modifies this`cards
      ensures Valid() && cards == WithRival(old(cards), rival)
    {
      if rival.Some? {
        BlockKeeps(AddCard(rival.value.id, rival.value.card), Tables(), 0);
        cards := cards[rival.value.id := rival.value.card];
      }
    }

    /** The insertion of a missed card; a conflict on the unique digest is answered by fetching again. */
    method InsertCard(job: Protocol.Job, account: AccountId, newCard: CardId) returns (r: Resolution)
      requires Valid() && job.PayJob? && newCard !in cards && Protocol.Owner(Tables(), account, job.user)
      modifies this`cards
      ensures Valid() && JudgedByOwner(Tables(), job, r)
      ensures cards == if DigestTaken(old(Tables()), CardDigest(job.number)) then old(cards)
                       else old(cards)[newCard := Card(account, job.cardType, CardDigest(job.number))]
      ensures newCard in cards ==> r == Use(newCard)
      ensures cards - {newCard} == old(cards)
    {
      var card := FindCard(CardDigest(job.number));
      if card.Some? {
        return Judged(Tables(), job.user, card.value);
      }
      var row := Card(account, job.cardType, CardDigest(job.number));
      BlockKeeps(AddCard(newCard, row), Tables(), 0);
      cards := cards[newCard := row];
      assert Protocol.HasDigest(Tables(), newCard, CardDigest(job.number));
      return Use(newCard);
    }

    /**
     Get or create the card of a payment. `rival` is a card some other request commits between the
     lookup and the insertion; when it has the same digest the insertion conflicts.
     */
    method ResolveCard(job: Protocol.Job, newCard: CardId, rival: Option<Rival>) returns (r: Resolution)
      requires Valid() && job.PayJob? && newCard !in WithRival(cards, rival)
      requires rival.Some? ==> Guard(AddCard(rival.value.id, rival.value.card), Tables())
      modifies this`cards
      ensures Valid()
      ensures r.NoAccount? <==>
                !DigestTaken(old(Tables()), CardDigest(job.number)) && !Protocol.HasAccount(Tables(), job.user)
      ensures !r.NoAccount? ==> JudgedByOwner(Tables(), job, r)
      ensures CardsSettled(old(Tables()), job, newCard, rival, cards)
      ensures newCard in cards ==> r == Use(newCard)
      ensures forall x :: WrittenAs(job.number, x) ==> (r.NotYours? <==> StoredForOther(Tables(), job.user, x))
      ensures forall x :: WrittenAs(job.number, x) && newCard in cards ==>
                cards[newCard].digest == Hmac(x) && cards[newCard].cardType == job.cardType
    {
      var card := FindCard(CardDigest(job.number));
      if card.Some? {
        assert Protocol.HasDigest(Tables(), card.value, CardDigest(job.number));
        r := Judged(Tables(), job.user, card.value);
        RefusedExactly(Tables(), job, r);
        return;
      }
      var account := FindAccount(job.user);
      if account.None? {
        RefusedExactly(Tables(), job, NoAccount);
        return NoAccount;
      }
      RivalCommits(rival);
      r := InsertCard(job, account.value, newCard);
      RefusedExactly(Tables(), job, r);
    }

    /** The decision tree for a new payment, inside its block. */
    method RouteNew(id: TxId, p: Payment, sendFails: bool) returns (routed: bool)
      requires Valid() && Guard(Pay(id, p), Tables())
      modifies this`accounts, this`txs, this`queue
      ensures routed <==> p.amount <= MAX_UNITS && !(sendFails && Sends(p))
      ensures routed ==> Tables() == Run(Pay(id, p), old(Tables()))
      ensures queue == if routed then old(queue) + Sent(Pay(id, p), Tables()) else old(queue)
    {
      ghost var saved := Tables();
      var card := cards[p.card];
      if Deferred(p) {
        routed := CreateRow(id, Tx(p.card, card.account, p.destination, p.amount, p.kind, card.cardType,
                                   Scheduled, p.scheduledFor, p.reversalOf, p.stamp));
      } else if p.kind.International? {
        var row := Tx(p.card, card.account, p.destination, p.amount, International, card.cardType,
                      Pending, None, p.reversalOf, p.stamp);
        routed := CreateRow(id, row);
        if routed {
          routed := Publish(id, row, sendFails);
        }
      } else {
        var row := Tx(p.card, card.account, p.destination, p.amount, National, card.cardType,
                      Processing, None, p.reversalOf, p.stamp);
        var final := ProcessNational(id, row, false);
        routed := final.Some?;
      }
      if routed {
        assert txs == saved.txs[id := Final(Pay(id, p), saved, Balance(Pay(id, p), saved))];
      }
    }

    /** The second block of a payment, its card being settled. */
    method PayWithCard(job: Protocol.Job, card: CardId, id: TxId, now: int, stamp: int, fault: Fault)
      returns (r: PayResult)
      requires Valid() && job.PayJob? && Protocol.ValidJob(job) && card in cards && id !in txs
      modifies this`accounts, this`cards, this`txs, this`queue
      ensures Valid() && cards == old(cards)
      ensures PaidWith(old(State()), job, card, id, now, stamp, fault, State(), r)
    {
      hide Evolves, TxOk, RunFrom, Balance, Sent;
      var saved := Tables();
      if job.reversalOf.Some? && job.reversalOf.value !in txs {
        return NotFound;
      }
      if fault.InBlock? {
        return Error;
      }
      var p := Protocol.PaymentOf(job, card, now, stamp);
      PaymentFulfils(State(), job, card, id, now, stamp);
      var routed := RouteNew(id, p, fault.OnSend?);
      if !routed || fault.AfterSend? {
        Rollback(saved);
        return Error;
      }
      PaymentFits(saved, id, p);
      return Reported(txs[id]);
    }

    /** The rest of a payment request, once its number is settled. */
    method AnswerWith(job: Protocol.Job, resolution: Resolution, id: TxId, now: int, stamp: int, fault: Fault)
      returns (r: PayResult, card: CardId)
      requires Valid() && job.PayJob? && Protocol.ValidJob(job) && id !in txs
      requires if resolution.NoAccount? then !DigestTaken(Tables(), CardDigest(job.number))
               else JudgedByOwner(Tables(), job, resolution)
      modifies this`accounts, this`cards, this`txs, this`queue
      ensures Valid() && cards == old(cards)
      ensures Answered(old(State()), job, id, now, stamp, fault, State(), r, card)
      ensures Announced(old(Tables()), old(queue)) ==> Announced(Tables(), queue)
    {
      ResolutionDecides(Tables(), job, resolution);
      match resolution
      case NotYours => return Forbidden, 0;
      case NoAccount => return NotFound, 0;
      case Use(c) =>
        card := c;
        r := PayWithCard(job, c, id, now, stamp, fault);
        if Announced(old(Tables()), old(queue)) {
          PaidKeepsAnnounced(old(State()), job, c, id, now, stamp, fault, State(), r);
        }
    }

    /** A payment request: the card's block, then the payment's. */
    method CreateTransaction(job: Protocol.Job, newCard: CardId, rival: Option<Rival>,
                             id: TxId, now: int, stamp: int, fault: Fault)
      returns (r: PayResult, card: CardId)
      requires Valid() && job.PayJob? && Protocol.ValidJob(job)
      requires id !in txs && newCard !in WithRival(cards, rival)
      requires rival.Some? ==> Guard(AddCard(rival.value.id, rival.value.card), Tables())
      modifies this
      ensures Valid()
      ensures CardsSettled(old(Tables()), job, newCard, rival, cards)
      ensures DbOk(old(Tables()).(cards := cards))
      ensures Answered(old(State()).(db := old(Tables()).(cards := cards)), job, id, now, stamp, fault,
                       State(), r, card)
      ensures forall x :: WrittenAs(job.number, x) ==>
                (r.Forbidden? <==> StoredForOther(old(Tables()).(cards := cards), job.user, x))
      ensures Announced(old(Tables()), old(queue)) ==> Announced(Tables(), queue)
    {
      var resolution := ResolveCard(job, newCard, rival);
      ghost var settled := Tables();
      r, card := AnswerWith(job, resolution, id, now, stamp, fault);
      forall x | WrittenAs(job.number, x) ensures OthersCard(settled, job) <==> StoredForOther(settled, job.user, x) {
        OthersWritten(settled, job, x);
      }
    }

    // ----- Deposits -----

    /** The locked account gains the amount; a balance the column cannot hold is rolled back. */
    method CreditAccount(a: AccountId, amount: int) returns (credited: bool)
      requires Valid() && 0 < amount && a in accounts
      modifies this`accounts
      ensures Valid()
      ensures credited <==> old(accounts)[a].balance + amount < 10_000_000_000_000_000_000
      ensures accounts == if !credited then old(accounts)
                          else old(accounts)[a := Account(old(accounts)[a].user, old(accounts)[a].balance + amount)]
      ensures Tables() == if credited then Run(Deposit(a, amount), old(Tables())) else old(Tables())
    {
      hide Evolves, TxOk;
      var saved := accounts;
      AddBalance(a, amount);
      if MAX_UNITS < accounts[a].balance {
        accounts := saved;
        return false;
      }
      BlockKeeps(Deposit(a, amount), old(Tables()), saved[a].balance);
      return true;
    }

    /** A deposit by the owner of an account. */
    method AddToOwnAccount(user: UserId, amount: int) returns (credited: Option<AccountId>)
      requires Valid() && 0 < amount
      modifies this`accounts
      ensures Valid()
      ensures credited.None? ==> accounts == old(accounts)
      ensures credited.None? ==>
                forall a :: a in old(accounts) && old(accounts)[a].user == user ==>
                  10_000_000_000_000_000_000 <= old(accounts)[a].balance + amount
      ensures credited.Some? ==>
                && credited.value in old(accounts) && old(accounts)[credited.value].user == user
                && accounts == old(accounts)[credited.value :=
                                             Account(user, old(accounts)[credited.value].balance + amount)]
                && Tables() == Run(Deposit(credited.value, amount), old(Tables()))
    {
      var account := FindAccount(user);
      if account.None? {
        return None;
      }
      var locked := GetWithLock(account.value);
      if locked.None? {
        return None;
      }
      var done := CreditAccount(account.value, amount);
      return if done then account else None;
    }
  }
}
