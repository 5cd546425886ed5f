/**
 The atomic ledger: every committed database block as one step on the tables, and what any
 sequence of such steps keeps. A block that touches a balance works from a `base`, the balance it
 read for the account; the block is exact when that is the balance committed at that moment.
 */
module Ledger {
  import opened Schema

  // ----- The blocks -----

  /** A validated payment together with the clock readings the service takes for it. */
  datatype Payment = Payment(
    card: CardId,
    destination: string,
    amount: int,
    kind: TxType,
    scheduledFor: Option<int>,
    reversalOf: Option<TxId>,
    now: int,
    stamp: int)

  datatype Op =
    | Open(account: AccountId, user: UserId)
    | AddCard(cardId: CardId, card: Card)
    | Pay(id: TxId, payment: Payment)
    | Execute(id: TxId)
    | Deposit(account: AccountId, amount: int)

  /** The payment is stored for later instead of being routed now. */
  predicate Deferred(p: Payment) {
    p.scheduledFor.Some? && p.now < p.scheduledFor.value
  }

  predicate Posts(op: Op) {
    op.Pay? || op.Execute?
  }

  /** What the block's own checks and the schema's keys demand of the tables. */
  predicate Guard(op: Op, db: Db) {
    match op
    case Open(a, u) =>
      a !in db.accounts && forall b :: b in db.accounts ==> db.accounts[b].user != u
    case AddCard(c, card) =>
      c !in db.cards && card.account in db.accounts && !DigestTaken(db, card.digest)
    case Pay(id, p) =>
      && id !in db.txs
      && p.card in db.cards && db.cards[p.card].account in db.accounts
      && 0 < p.amount
      && (p.reversalOf.Some? ==> p.reversalOf.value in db.txs)
    case Execute(id) =>
      id in db.txs && db.txs[id].status.Scheduled? && db.txs[id].origin in db.accounts
    case Deposit(a, n) =>
      a in db.accounts && 0 < n
  }

  predicate DigestTaken(db: Db, digest: Digest) {
    exists c :: c in db.cards && db.cards[c].digest == digest
  }

  /** The numeric columns can hold what the block writes. */
  predicate Storable(op: Op, base: int) {
    match op
    case Pay(_, p) => p.amount <= MAX_UNITS
    case Deposit(_, n) => base + n <= MAX_UNITS
    case _ => true
  }

  /** The row a payment block works on, before its final status is known. */
  function Draft(op: Op, db: Db): Tx
    requires Posts(op) && Guard(op, db)
  {
    match op
    case Pay(_, p) =>
      Tx(p.card, db.cards[p.card].account, p.destination, p.amount, p.kind, db.cards[p.card].cardType,
         Processing, if Deferred(p) then p.scheduledFor else None, p.reversalOf, p.stamp)
    case Execute(id) => db.txs[id].(status := Processing)
  }

  /** The balance rule: a debit needs the funds, a credit does not. */
  function NationalVerdict(row: Tx, base: int): Status {
    if row.paidBy.Debit? && base < row.amount then Failed else Completed
  }

  /** The decision tree: scheduled, then international, then the balance rule. */
  function Verdict(op: Op, row: Tx, base: int): Status {
    if op.Pay? && Deferred(op.payment) then Scheduled
    else if row.kind.International? then Pending
    else NationalVerdict(row, base)
  }

  function Final(op: Op, db: Db, base: int): Tx
    requires Posts(op) && Guard(op, db)
  {
    var row := Draft(op, db);
    row.(status := Verdict(op, row, base))
  }

  /** The tables after the block, when the balance it works from is `base`. */
  function RunFrom(op: Op, db: Db, base: int): Db
    requires Guard(op, db)
  {
    match op
    case Open(a, u) => db.(accounts := db.accounts[a := Account(u, 0)])
    case AddCard(c, card) => db.(cards := db.cards[c := card])
    case Deposit(a, n) => db.(accounts := SetBalance(db.accounts, a, base + n))
    case _ =>
      var row := Final(op, db, base);
      db.(accounts := if Spends(row) then SetBalance(db.accounts, row.origin, base - row.amount) else db.accounts,
          txs := db.txs[op.id := row])
  }

  /** The message a block sends, if it leaves its row pending. */
  function Sent(op: Op, db: Db): seq<Message> {
    if Posts(op) && op.id in db.txs && db.txs[op.id].status.Pending? then [MessageOf(op.id, db.txs[op.id])] else []
  }

  /** The committed balance of the account the block works on. */
  function Balance(op: Op, db: Db): int
    requires Guard(op, db)
  {
    match op
    case Open(_, _) => 0
    case AddCard(_, _) => 0
    case Deposit(a, _) => db.accounts[a].balance
    case _ => db.accounts[Draft(op, db).origin].balance
  }

  /** The atomic block: it works from the committed balance. */
  function Run(op: Op, db: Db): Db
    requires Guard(op, db)
  {
    RunFrom(op, db, Balance(op, db))
  }

  // ----- What every block keeps -----

  predicate AccountOk(account: Account) {
    0 <= account.balance <= MAX_UNITS
  }

  /** Provenance: the origin and the method come from the stored card, never from the caller. */
  predicate TxOk(db: Db, row: Tx) {
    && row.card in db.cards
    && row.origin == db.cards[row.card].account
    && row.paidBy == db.cards[row.card].cardType
    && 0 < row.amount <= MAX_UNITS
    && (row.reversalOf.Some? ==> row.reversalOf.value in db.txs)
    && !row.status.Processing?
    && (row.status.Scheduled? ==> row.scheduledFor.Some?)
    && (row.status.Pending? ==> row.kind.International?)
    && (Terminal(row.status) ==> row.kind.National?)
    && (row.status.Failed? ==> row.paidBy.Debit?)
  }

  ghost predicate DbOk(db: Db) {
    && (forall a :: a in db.accounts ==> AccountOk(db.accounts[a]))
    && (forall a, b :: a in db.accounts && b in db.accounts && db.accounts[a].user == db.accounts[b].user ==> a == b)
    && (forall c :: c in db.cards ==> db.cards[c].account in db.accounts)
    && (forall c, d :: c in db.cards && d in db.cards && db.cards[c].digest == db.cards[d].digest ==> c == d)
    && (forall t :: t in db.txs ==> TxOk(db, db.txs[t]))
  }

  /** The only committed status change takes a scheduled row to pending, completed or failed. */
  predicate TxEvolves(r: Tx, r': Tx) {
    && SameTerms(r, r')
    && (r'.status == r.status || (r.status.Scheduled? && !r'.status.Processing?))
  }

  /** No row disappears, and what may not change does not. */
  ghost predicate Evolves(db: Db, db': Db) {
    && (forall a :: a in db.accounts ==> a in db'.accounts && db'.accounts[a].user == db.accounts[a].user)
    && (forall c :: c in db.cards ==> c in db'.cards && db'.cards[c] == db.cards[c])
    && (forall t :: t in db.txs ==> t in db'.txs && TxEvolves(db.txs[t], db'.txs[t]))
  }

  predicate Legal(op: Op, db: Db, base: int) {
    Guard(op, db) && Storable(op, base) && 0 <= base <= MAX_UNITS
  }

  lemma PostKeepsRows(op: Op, db: Db, base: int)
    requires DbOk(db) && Legal(op, db, base) && Posts(op)
    ensures forall t :: t in RunFrom(op, db, base).txs ==> TxOk(RunFrom(op, db, base), RunFrom(op, db, base).txs[t])
  {
    var db' := RunFrom(op, db, base);
    var row := Final(op, db, base);
    if op.Execute? {
      assert TxOk(db, db.txs[op.id]);
    }
    assert TxOk(db', row);
    forall t | t in db'.txs ensures TxOk(db', db'.txs[t]) {
      if t != op.id {
        assert TxOk(db, db.txs[t]);
      }
    }
  }

  lemma PostKeepsBalances(op: Op, db: Db, base: int)
    requires DbOk(db) && Legal(op, db, base) && Posts(op)
    ensures forall a :: a in RunFrom(op, db, base).accounts ==>
              && a in db.accounts && AccountOk(RunFrom(op, db, base).accounts[a])
              && RunFrom(op, db, base).accounts[a].user == db.accounts[a].user
  {
    var row := Final(op, db, base);
    if op.Execute? {
      assert TxOk(db, db.txs[op.id]);
    }
    assert Spends(row) ==> 0 <= base - row.amount <= MAX_UNITS;
  }

  lemma PostEvolves(op: Op, db: Db, base: int)
    requires DbOk(db) && Legal(op, db, base) && Posts(op)
    ensures Evolves(db, RunFrom(op, db, base))
  {
    var db' := RunFrom(op, db, base);
    PostKeepsBalances(op, db, base);
    forall t | t in db.txs ensures t in db'.txs && TxEvolves(db.txs[t], db'.txs[t]) {
    }
  }

  lemma PostKeeps(op: Op, db: Db, base: int)
    requires DbOk(db) && Legal(op, db, base) && Posts(op)
    ensures DbOk(RunFrom(op, db, base))
  {
    var db' := RunFrom(op, db, base);
    PostKeepsRows(op, db, base);
    PostKeepsBalances(op, db, base);
    assert db'.cards == db.cards && db'.accounts.Keys == db.accounts.Keys;
  }

  lemma RowsKept(db: Db, db': Db)
    requires DbOk(db) && db'.txs == db.txs
    requires forall c :: c in db.cards ==> c in db'.cards && db'.cards[c] == db.cards[c]
    ensures forall t :: t in db'.txs ==> TxOk(db', db'.txs[t])
  {
    forall t | t in db'.txs ensures TxOk(db', db'.txs[t]) {
      assert TxOk(db, db.txs[t]);
    }
  }

  lemma OpenBlockKeeps(op: Op, db: Db, base: int)
    requires DbOk(db) && Legal(op, db, base) && op.Open?
    ensures DbOk(RunFrom(op, db, base))
    ensures Evolves(db, RunFrom(op, db, base))
  {
    RowsKept(db, RunFrom(op, db, base));
  }

  lemma DepositBlockKeeps(op: Op, db: Db, base: int)
    requires DbOk(db) && Legal(op, db, base) && op.Deposit?
    ensures DbOk(RunFrom(op, db, base))
    ensures Evolves(db, RunFrom(op, db, base))
  {
    hide DigestTaken;
    var db' := RunFrom(op, db, base);
    RowsKept(db, db');
    assert forall a :: a in db.accounts ==> db'.accounts[a].user == db.accounts[a].user;
  }

  lemma CardBlockKeeps(op: Op, db: Db, base: int)
    requires DbOk(db) && Legal(op, db, base) && op.AddCard?
    ensures DbOk(RunFrom(op, db, base))
    ensures Evolves(db, RunFrom(op, db, base))
  {
    RowsKept(db, RunFrom(op, db, base));
  }

  lemma {:induction false} BlockKeeps(op: Op, db: Db, base: int)
    requires DbOk(db) && Legal(op, db, base)
    ensures DbOk(RunFrom(op, db, base))
    ensures Evolves(db, RunFrom(op, db, base))
  {
    if Posts(op) {
      PostKeeps(op, db, base);
      PostEvolves(op, db, base);
    } else if op.AddCard? {
      CardBlockKeeps(op, db, base);
    } else if op.Open? {
      OpenBlockKeeps(op, db, base);
    } else {
      DepositBlockKeeps(op, db, base);
    }
  }

  lemma EvolvesTransitive(x: Db, y: Db, z: Db)
    requires Evolves(x, y) && Evolves(y, z)
    ensures Evolves(x, z)
  {
    forall t | t in x.txs ensures t in z.txs && TxEvolves(x.txs[t], z.txs[t]) {
      assert TxEvolves(x.txs[t], y.txs[t]) && TxEvolves(y.txs[t], z.txs[t]);
    }
  }

  // ----- Logs of committed blocks -----

  /** One committed block: the worker that committed it and the balance it worked from. */
  datatype Entry = Entry(who: nat, op: Op, base: int)

  function Replay(log: seq<Entry>): Db {
    if log == [] then EMPTY_DB
    else
      var db := Replay(log[..|log| - 1]);
      var e := log[|log| - 1];
      if Guard(e.op, db) then RunFrom(e.op, db, e.base) else db
  }

  ghost predicate LegalLog(log: seq<Entry>) {
    log == [] ||
    (LegalLog(log[..|log| - 1]) && Legal(log[|log| - 1].op, Replay(log[..|log| - 1]), log[|log| - 1].base))
  }

  /** Every block of the log worked from the balance committed at its turn. */
  ghost predicate ExactLog(log: seq<Entry>) {
    log == [] ||
    (ExactLog(log[..|log| - 1]) &&
     var e := log[|log| - 1];
     var db := Replay(log[..|log| - 1]);
     Guard(e.op, db) ==> RunFrom(e.op, db, e.base) == Run(e.op, db))
  }

  function Ops(log: seq<Entry>): (ops: seq<Op>)
    ensures |ops| == |log|
    ensures forall i :: 0 <= i < |log| ==> ops[i] == log[i].op
  {
    seq(|log|, i requires 0 <= i < |log| => log[i].op)
  }

  /** The atomic ledger run over a sequence of blocks, one at a time. */
  function AtomicRun(ops: seq<Op>): Db {
    if ops == [] then EMPTY_DB
    else
      var db := AtomicRun(ops[..|ops| - 1]);
      var op := ops[|ops| - 1];
      if Guard(op, db) then Run(op, db) else db
  }

  lemma {:induction false} ExactLogIsAtomic(log: seq<Entry>)
    requires ExactLog(log)
    ensures Replay(log) == AtomicRun(Ops(log))
  {
    if log != [] {
      ExactLogIsAtomic(log[..|log| - 1]);
      assert Ops(log)[..|log| - 1] == Ops(log[..|log| - 1]);
    }
  }

  lemma {:induction false} Extend(log: seq<Entry>, e: Entry)
    requires LegalLog(log) && Legal(e.op, Replay(log), e.base)
    ensures LegalLog(log + [e])
    ensures Replay(log + [e]) == RunFrom(e.op, Replay(log), e.base)
    ensures ExactLog(log) && RunFrom(e.op, Replay(log), e.base) == Run(e.op, Replay(log)) ==> ExactLog(log + [e])
  {
    var log' := log + [e];
    assert log'[..|log'| - 1] == log;
  }

  /** Every state of the tables is well formed: provenance, key uniqueness and the balance bound. */
  lemma {:induction false} ReplayOk(log: seq<Entry>)
    requires LegalLog(log)
    ensures DbOk(Replay(log))
  {
    if log != [] {
      ReplayOk(log[..|log| - 1]);
      BlockKeeps(log[|log| - 1].op, Replay(log[..|log| - 1]), log[|log| - 1].base);
    }
  }

  lemma {:induction false} LegalPrefix(log: seq<Entry>, i: nat)
    requires LegalLog(log) && i <= |log|
    ensures LegalLog(log[..i])
  {
    if i < |log| {
      LegalPrefix(log[..|log| - 1], i);
      assert log[..|log| - 1][..i] == log[..i];
    } else {
      assert log[..i] == log;
    }
  }

  /** The lifecycle over whole runs: between any two moments rows are kept and evolve as allowed. */
  lemma {:induction false} Lifecycle(log: seq<Entry>, i: nat)
    requires LegalLog(log) && i <= |log|
    ensures Evolves(Replay(log[..i]), Replay(log))
  {
    if i == |log| {
      assert log[..i] == log;
    } else {
      var init := log[..|log| - 1];
      Lifecycle(init, i);
      assert init[..i] == log[..i];
      ReplayOk(init);
      BlockKeeps(log[|log| - 1].op, Replay(init), log[|log| - 1].base);
      EvolvesTransitive(Replay(log[..i]), Replay(init), Replay(log));
    }
  }

  // ----- Conservation -----

  function Share(row: Tx, a: AccountId): int {
    if Spends(row) && row.origin == a then row.amount else 0
  }

  /** The sum of the amounts of the completed national debit rows whose origin is the account. */
  ghost function Spent(txs: map<TxId, Tx>, a: AccountId): int
    decreases txs.Keys
  {
    if txs == map[] then 0
    else
      var t :| t in txs;
      Share(txs[t], a) + Spent(txs - {t}, a)
  }

  lemma {:induction false} SpentSplit(txs: map<TxId, Tx>, a: AccountId, t: TxId)
    requires t in txs
    ensures Spent(txs, a) == Share(txs[t], a) + Spent(txs - {t}, a)
    decreases txs.Keys
  {
    var u :| u in txs && Spent(txs, a) == Share(txs[u], a) + Spent(txs - {u}, a);
    if u != t {
      SpentSplit(txs - {u}, a, t);
      SpentSplit(txs - {t}, a, u);
      assert txs - {u} - {t} == txs - {t} - {u};
    }
  }

  lemma SpentUpdate(txs: map<TxId, Tx>, t: TxId, row: Tx, a: AccountId)
    ensures Spent(txs[t := row], a) ==
            Spent(txs, a) + Share(row, a) - (if t in txs then Share(txs[t], a) else 0)
  {
    var txs' := txs[t := row];
    SpentSplit(txs', a, t);
    if t in txs {
      SpentSplit(txs, a, t);
      assert txs' - {t} == txs - {t};
    } else {
      assert txs' - {t} == txs;
    }
  }

  function PaidIn(op: Op, a: AccountId): int {
    if op.Deposit? && op.account == a then op.amount else 0
  }

  function Deposited(log: seq<Entry>, a: AccountId): int {
    if log == [] then 0
    else Deposited(log[..|log| - 1], a) + PaidIn(log[|log| - 1].op, a)
  }

  predicate WritesBalance(op: Op, db: Db, base: int, a: AccountId)
    requires Guard(op, db)
  {
    match op
    case Open(_, _) => false
    case AddCard(_, _) => false
    case Deposit(b, _) => a == b
    case _ => Spends(Final(op, db, base)) && Final(op, db, base).origin == a
  }

  /** What the blocks that wrote the account's balance were wrong about, summed over the log. */
  function Drift(log: seq<Entry>, a: AccountId): int {
    if log == [] then 0
    else
      var db := Replay(log[..|log| - 1]);
      var e := log[|log| - 1];
      Drift(log[..|log| - 1], a) +
      (if Guard(e.op, db) && a in db.accounts && WritesBalance(e.op, db, e.base, a)
       then e.base - db.accounts[a].balance else 0)
  }

  /** No row names an account that does not exist yet. */
  lemma {:induction false} NothingSpentBefore(txs: map<TxId, Tx>, a: AccountId)
    requires forall t :: t in txs ==> txs[t].origin != a
    ensures Spent(txs, a) == 0
    decreases txs.Keys
  {
    if txs == map[] {
    } else {
      var t :| t in txs;
      SpentSplit(txs, a, t);
      NothingSpentBefore(txs - {t}, a);
    }
  }

  lemma {:induction false} NothingDepositedBefore(log: seq<Entry>, a: AccountId)
    requires LegalLog(log) && a !in Replay(log).accounts
    ensures Deposited(log, a) == 0 && Drift(log, a) == 0
  {
    if log != [] {
      var init := log[..|log| - 1];
      ReplayOk(init);
      BlockKeeps(log[|log| - 1].op, Replay(init), log[|log| - 1].base);
      NothingDepositedBefore(init, a);
    }
  }

  /** How one block moves an account's balance against its deposits and its spendings. */
  lemma BlockMovesMoney(op: Op, db: Db, base: int, a: AccountId)
    requires DbOk(db) && Legal(op, db, base) && a in db.accounts
    ensures
      var db' := RunFrom(op, db, base);
      db'.accounts[a].balance - db.accounts[a].balance ==
      PaidIn(op, a) - (Spent(db'.txs, a) - Spent(db.txs, a)) +
      (if WritesBalance(op, db, base, a) then base - db.accounts[a].balance else 0)
  {
    hide DbOk, DigestTaken, Spent;
    if Posts(op) {
      SpentUpdate(db.txs, op.id, Final(op, db, base), a);
    }
  }

  /**
   The money of an account over any log: what was deposited, less what its completed national debit
   rows took, plus what stale readings added or lost.
   */
  lemma {:induction false} ConservationWithDrift(log: seq<Entry>, a: AccountId)
    requires LegalLog(log) && a in Replay(log).accounts
    ensures Replay(log).accounts[a].balance == Deposited(log, a) - Spent(Replay(log).txs, a) + Drift(log, a)
  {
    assert log != [];
    var init, e := log[..|log| - 1], log[|log| - 1];
    var db := Replay(init);
    ReplayOk(init);
    if a in db.accounts {
      ConservationWithDrift(init, a);
      BlockMovesMoney(e.op, db, e.base, a);
    } else {
      NewAccountIsEmpty(log, a);
    }
  }

  lemma {:induction false} NewAccountIsEmpty(log: seq<Entry>, a: AccountId)
    requires LegalLog(log) && a in Replay(log).accounts
    requires log != [] && a !in Replay(log[..|log| - 1]).accounts
    ensures Replay(log).accounts[a].balance == 0 && Deposited(log, a) == 0
    ensures Spent(Replay(log).txs, a) == 0 && Drift(log, a) == 0
  {
    var init, e := log[..|log| - 1], log[|log| - 1];
    var db := Replay(init);
    ReplayOk(init);
    assert e.op.Open? by {
      if Posts(e.op) {
        PostKeepsBalances(e.op, db, e.base);
      }
    }
    NothingDepositedBefore(init, a);
    forall t | t in db.txs ensures db.txs[t].origin != a {
      assert TxOk(db, db.txs[t]);
    }
    NothingSpentBefore(db.txs, a);
  }

  lemma {:induction false} ExactLogHasNoDrift(log: seq<Entry>, a: AccountId)
    requires LegalLog(log) && ExactLog(log)
    ensures Drift(log, a) == 0
  {
    if log != [] {
      var init, e := log[..|log| - 1], log[|log| - 1];
      ExactLogHasNoDrift(init, a);
      var db := Replay(init);
      assert RunFrom(e.op, db, e.base) == Run(e.op, db);
      if a in db.accounts && WritesBalance(e.op, db, e.base, a) {
        assert RunFrom(e.op, db, e.base).accounts[a].balance == Run(e.op, db).accounts[a].balance;
        if Posts(e.op) {
          assert RunFrom(e.op, db, e.base).txs[e.op.id] == Run(e.op, db).txs[e.op.id];
        }
      }
    }
  }

  /** Conservation: deposits less completed national debits, to the unit, for every account. */
  lemma {:induction false} Conservation(log: seq<Entry>, a: AccountId)
    requires LegalLog(log) && ExactLog(log) && a in Replay(log).accounts
    ensures Replay(log).accounts[a].balance == Deposited(log, a) - Spent(Replay(log).txs, a)
  {
    ConservationWithDrift(log, a);
    ExactLogHasNoDrift(log, a);
  }

  /**
   When one block keeps an account's money balanced: exactly when it leaves the balance alone or
   worked from the committed one.
   */
  lemma {:induction false} StaleBlockBreaksConservation(op: Op, db: Db, base: int, a: AccountId)
    requires DbOk(db) && Legal(op, db, base) && a in db.accounts
    ensures
      var db' := RunFrom(op, db, base);
      db'.accounts[a].balance - db.accounts[a].balance == PaidIn(op, a) - (Spent(db'.txs, a) - Spent(db.txs, a))
      <==> !WritesBalance(op, db, base, a) || base == db.accounts[a].balance
  {
    BlockMovesMoney(op, db, base, a);
  }

  /** At every moment of the log the account holds its deposits less its spendings. */
  ghost predicate BalancedThroughout(log: seq<Entry>, a: AccountId) {
    log == [] ||
    (BalancedThroughout(log[..|log| - 1], a) &&
     var db := Replay(log);
     a in db.accounts ==> db.accounts[a].balance == Deposited(log, a) - Spent(db.txs, a))
  }

  /** Every block that wrote the account's balance worked from the one committed at its turn. */
  ghost predicate WroteFromCommitted(log: seq<Entry>, a: AccountId) {
    log == [] ||
    (WroteFromCommitted(log[..|log| - 1], a) &&
     var db, e := Replay(log[..|log| - 1]), log[|log| - 1];
     Guard(e.op, db) && a in db.accounts && WritesBalance(e.op, db, e.base, a) ==> e.base == db.accounts[a].balance)
  }

  /** The balanced state before a block stays balanced exactly when the block did not misread the balance. */
  lemma {:induction false} BalancedStep(log: seq<Entry>, a: AccountId)
    requires LegalLog(log) && log != [] && BalancedThroughout(log[..|log| - 1], a)
    ensures var db, e := Replay(log[..|log| - 1]), log[|log| - 1];
            BalancedThroughout(log, a) <==>
            (a in db.accounts && WritesBalance(e.op, db, e.base, a) ==> e.base == db.accounts[a].balance)
  {
    var init, e := log[..|log| - 1], log[|log| - 1];
    var db := Replay(init);
    ReplayOk(init);
    if a in db.accounts {
      BlockMovesMoney(e.op, db, e.base, a);
      BlockKeeps(e.op, db, e.base);
      assert init != [];
    } else if a in Replay(log).accounts {
      NewAccountIsEmpty(log, a);
    }
  }

  /**
   When the money of an account is balanced at every moment: exactly when no block that wrote its
   balance worked from another balance than the one committed at its turn.
   */
  lemma {:induction false} BalancedExactly(log: seq<Entry>, a: AccountId)
    requires LegalLog(log)
    ensures BalancedThroughout(log, a) <==> WroteFromCommitted(log, a)
  {
    if log != [] {
      BalancedExactly(log[..|log| - 1], a);
      if BalancedThroughout(log[..|log| - 1], a) {
        BalancedStep(log, a);
      }
    }
  }

  // ----- At most once -----

  function Executions(log: seq<Entry>, t: TxId): nat {
    if log == [] then 0
    else Executions(log[..|log| - 1], t) + (if log[|log| - 1].op == Execute(t) then 1 else 0)
  }

  predicate WasExecuted(db: Db, t: TxId) {
    t in db.txs && db.txs[t].scheduledFor.Some? && !db.txs[t].status.Scheduled?
  }

  /** At most one execution commits per scheduled row, and one has exactly when the row left `scheduled`. */
  lemma {:induction false} AtMostOnce(log: seq<Entry>, t: TxId)
    requires LegalLog(log)
    ensures Executions(log, t) == if WasExecuted(Replay(log), t) then 1 else 0
  {
    if log != [] {
      var init, e := log[..|log| - 1], log[|log| - 1];
      AtMostOnce(init, t);
      ReplayOk(init);
      if e.op == Execute(t) {
        assert TxOk(Replay(init), Replay(init).txs[t]);
      }
    }
  }

  lemma {:induction false} ExecutionsAt(log: seq<Entry>, t: TxId)
    ensures Executions(log, t) > 0 <==> exists i :: 0 <= i < |log| && log[i].op == Execute(t)
    ensures Executions(log, t) <= 1 ==>
              forall i, j :: 0 <= i < |log| && 0 <= j < |log| && log[i].op == log[j].op == Execute(t) ==> i == j
  {
    if log != [] {
      var n := |log| - 1;
      var init := log[..n];
      ExecutionsAt(init, t);
      assert forall i :: 0 <= i < n ==> init[i] == log[i];
    }
  }

  /** The row a payment stores, column by column, when the balance it works from is `base`. */
  predicate PaidAs(db: Db, p: Payment, base: int, row: Tx)
    requires p.card in db.cards
  {
    var card := db.cards[p.card];
    var later := p.scheduledFor.Some? && p.now < p.scheduledFor.value;
    && row.card == p.card && row.origin == card.account && row.paidBy == card.cardType
    && row.destination == p.destination && row.amount == p.amount && row.kind == p.kind
    && row.reversalOf == p.reversalOf && row.createdAt == p.stamp
    && row.scheduledFor == (if later then p.scheduledFor else None)
    && (row.status.Scheduled? <==> later)
    && (row.status.Pending? <==> !later && p.kind.International?)
    && (row.status.Failed? <==> !later && p.kind.National? && card.cardType.Debit? && base < p.amount)
    && (row.status.Completed? <==> !later && p.kind.National? && (card.cardType.Credit? || p.amount <= base))
  }

  lemma PayStores(op: Op, db: Db, base: int)
    requires op.Pay? && Guard(op, db)
    ensures PaidAs(db, op.payment, base, RunFrom(op, db, base).txs[op.id])
  {
  }

  /** Every row was put there by one payment block, as it asked, and differs from that at most in its status. */
  lemma {:induction false} EveryRowWasPaid(log: seq<Entry>, t: TxId) returns (i: nat)
    requires LegalLog(log) && t in Replay(log).txs
    ensures i < |log| && log[i].op.Pay? && log[i].op.id == t
    ensures var db, p := Replay(log[..i]), log[i].op.payment;
            && p.card in db.cards && t in Replay(log[..i + 1]).txs
            && PaidAs(db, p, log[i].base, Replay(log[..i + 1]).txs[t])
            && SameTerms(Replay(log[..i + 1]).txs[t], Replay(log).txs[t])
  {
    var n := |log| - 1;
    if log[n].op.Pay? && log[n].op.id == t {
      i := n;
      assert log[..n + 1] == log;
      PayStores(log[n].op, Replay(log[..n]), log[n].base);
    } else {
      i := EveryRowWasPaid(log[..n], t);
      assert log[..n][..i] == log[..i] && log[..n][..i + 1] == log[..i + 1];
    }
  }

  /** Every account was opened by one block, for the user it belongs to. */
  lemma {:induction false} EveryAccountWasOpened(log: seq<Entry>, a: AccountId) returns (i: nat)
    requires LegalLog(log) && a in Replay(log).accounts
    ensures i < |log| && log[i].op == Open(a, Replay(log).accounts[a].user)
    ensures a !in Replay(log[..i]).accounts && a in Replay(log[..i + 1]).accounts
    ensures Replay(log[..i + 1]).accounts[a] == Account(log[i].op.user, 0)
  {
    var n := |log| - 1;
    if log[n].op.Open? && log[n].op.account == a {
      i := n;
      assert log[..n + 1] == log;
    } else {
      var init := log[..n];
      ReplayOk(init);
      BlockKeeps(log[n].op, Replay(init), log[n].base);
      if Posts(log[n].op) {
        PostKeepsBalances(log[n].op, Replay(init), log[n].base);
      }
      i := EveryAccountWasOpened(init, a);
      assert init[..i] == log[..i] && init[..i + 1] == log[..i + 1];
    }
  }

  // ----- Deferred equals immediate -----

  /**
   Executing a scheduled row does what submitting the payment now with the same card would do: the
   same accounts, the same final status, and the same message but for the id or none in both cases.
   */
  lemma {:induction false} DeferredEqualsImmediate(log: seq<Entry>, t: TxId, id: TxId, p: Payment)
    requires LegalLog(log)
    requires var db := Replay(log); t in db.txs && db.txs[t].status.Scheduled? && id !in db.txs
    requires var row := Replay(log).txs[t];
             && !Deferred(p) && p.card == row.card && p.destination == row.destination
             && p.amount == row.amount && p.kind == row.kind && p.reversalOf == row.reversalOf
    ensures var db := Replay(log);
            && Guard(Execute(t), db) && Guard(Pay(id, p), db)
            && Storable(Pay(id, p), Balance(Pay(id, p), db))
            && var later, now := Run(Execute(t), db), Run(Pay(id, p), db);
               && later.accounts == now.accounts
               && now.txs[id] == later.txs[t].(scheduledFor := None, createdAt := p.stamp)
               && var waited := Sent(Execute(t), later);
                  Sent(Pay(id, p), now) == if waited == [] then [] else [waited[0].(tx := id)]
  {
    ReplayOk(log);
    var db := Replay(log);
    assert TxOk(db, db.txs[t]);
  }
}
