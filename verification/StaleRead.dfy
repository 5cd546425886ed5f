/** Why the account has to be read afresh under its lock, and exactly when a cached reading does harm. */
module StaleRead {
  import opened Schema
  import opened Ledger
  import opened Protocol
  import opened Invariant
  import opened Preservation
  import opened Progress
  import opened Theorems

  // ----- Stale locks -----

  /** The step takes the lock of an account. */
  predicate LocksAccount(act: Action) {
    act == OnRoute(LockOrigin) || act == OnDeposit(LockAccount)
  }

  /** A lock of an account by a session whose reading of it is not the committed balance. */
  predicate LocksStale(s: State, e: Event) {
    && e.who in s.workers
    && var w := s.workers[e.who];
       match e.act
       case OnRoute(LockOrigin) =>
         w.pc.Routing? && w.pc.row.origin in s.db.accounts && w.seen != s.db.accounts[w.pc.row.origin].balance
       case OnDeposit(LockAccount) =>
         w.pc.DepositFound? && w.pc.account in s.db.accounts && w.seen != s.db.accounts[w.pc.account].balance
       case _ => false
  }

  /** No lock of the run is granted to a session with a stale reading. */
  ghost predicate NeverStale(events: seq<Event>) {
    events == [] ||
    (NeverStale(events[..|events| - 1]) && !LocksStale(After(Cached, events[..|events| - 1]), events[|events| - 1]))
  }

  lemma SameStep(s: State, e: Event)
    requires Enabled(s, e) && !LocksStale(s, e)
    ensures Next(Cached, s, e) == Next(Fresh, s, e)
  {
  }

  /**
   A schedule in which no cached reading is stale when its account is locked is a run with fresh reads,
   so refinement and conservation hold for it.
   */
  lemma {:induction false} CachedButNeverStale(events: seq<Event>)
    requires IsRun(Cached, events) && NeverStale(events)
    ensures IsRun(Fresh, events) && After(Fresh, events) == After(Cached, events)
  {
    if events != [] {
      CachedButNeverStale(events[..|events| - 1]);
      SameStep(After(Cached, events[..|events| - 1]), events[|events| - 1]);
    }
  }

  /** The worker's last lock of an account was granted to a stale reading. */
  ghost predicate LockedStale(events: seq<Event>, who: nat) {
    events != [] &&
    var init, e := events[..|events| - 1], events[|events| - 1];
    if e.who == who && LocksAccount(e.act) then LocksStale(After(Cached, init), e) else LockedStale(init, who)
  }

  /** The step commits a block that writes the account's balance. */
  predicate CommitsBalance(s: State, e: Event, a: AccountId) {
    && e.who in s.workers && e.act == OnEnd(Commit) && a in s.db.accounts
    && var w := s.workers[e.who];
       w.pc.Ready? && Guard(w.pc.op, s.db) && WritesBalance(w.pc.op, s.db, w.base, a)
  }

  /** Every block that committed a balance of the account had locked it with a reading that was not stale. */
  ghost predicate WritersLockedFresh(events: seq<Event>, a: AccountId) {
    events == [] ||
    var init, e := events[..|events| - 1], events[|events| - 1];
    WritersLockedFresh(init, a) && (CommitsBalance(After(Cached, init), e, a) ==> !LockedStale(init, e.who))
  }

  // ----- What a locked account's worker works from -----

  lemma HeldAccountExists(s: State, who: nat, a: AccountId)
    requires Inv(Cached, s) && who in s.workers && AcctRow(a) in s.workers[who].locks
    ensures a in s.db.accounts
  {
    assert WorkerOk(Cached, s.db, s.queue, s.drawn, s.workers[who]);
  }

  /** At the lock the worker takes over its session's reading. */
  lemma LockReads(s: State, e: Event, a: AccountId)
    requires Inv(Cached, s) && Enabled(s, e) && LocksAccount(e.act)
    requires AcctRow(a) in Next(Cached, s, e).workers[e.who].locks
    ensures var s' := Next(Cached, s, e);
            a in s'.db.accounts && (LocksStale(s, e) <==> s'.workers[e.who].base != s'.db.accounts[a].balance)
  {
    hide LogOk, IdsOk, QueueOk, Published, Exclusive, HistoryOk, ReadyOk;
    assert WorkerOk(Cached, s.db, s.queue, s.drawn, s.workers[e.who]);
  }

  /** The worker's other steps take no account and keep the balance it works from. */
  lemma OwnStepKeepsBase(s: State, e: Event, a: AccountId)
    requires Enabled(s, e) && !LocksAccount(e.act) && e.who in s.workers && !e.act.OpenAccount?
    requires AcctRow(a) in Next(Cached, s, e).workers[e.who].locks
    ensures var s' := Next(Cached, s, e);
            && AcctRow(a) in s.workers[e.who].locks
            && s'.workers[e.who].base == s.workers[e.who].base && s'.db == s.db
  {
  }

  /** Nothing anyone else does changes a held account. */
  lemma OtherStepKeepsHeld(s: State, e: Event, who: nat, a: AccountId)
    requires Inv(Cached, s) && Enabled(s, e) && who in s.workers && (e.who != who || e.act.OpenAccount?)
    requires AcctRow(a) in s.workers[who].locks && a in s.db.accounts
    ensures var s' := Next(Cached, s, e);
            && who in s'.workers && s'.workers[who] == s.workers[who]
            && a in s'.db.accounts && s'.db.accounts[a] == s.db.accounts[a]
  {
    if e.act == OnEnd(Commit) {
      var w := s.workers[e.who];
      assert WorkerOk(Cached, s.db, s.queue, s.drawn, w);
      CommitIsBlock(Cached, s.db, s.queue, s.drawn, w);
      CommitKeepsLocked(Cached, s.db, s.queue, s.drawn, w, s.workers[who].locks);
    }
  }

  /** While a worker holds an account its base misses the committed balance exactly if its lock was stale. */
  lemma {:induction false} StaleBase(events: seq<Event>, who: nat, a: AccountId)
    requires IsRun(Cached, events)
    requires who in After(Cached, events).workers && AcctRow(a) in After(Cached, events).workers[who].locks
    ensures var s := After(Cached, events);
            a in s.db.accounts && (LockedStale(events, who) <==> s.workers[who].base != s.db.accounts[a].balance)
  {
    if events != [] {
      var init, e := events[..|events| - 1], events[|events| - 1];
      var s := After(Cached, init);
      RunKeepsInv(Cached, init);
      if e.who == who && LocksAccount(e.act) {
        LockReads(s, e, a);
      } else if e.who == who && !e.act.OpenAccount? {
        assert !e.act.Spawn?;
        OwnStepKeepsBase(s, e, a);
        StaleBase(init, who, a);
      } else {
        HeldAccountExists(s, who, a);
        OtherStepKeepsHeld(s, e, who, a);
        StaleBase(init, who, a);
      }
    }
  }

  // ----- Where a session's reading comes from -----

  /** The account the worker's session has loaded. */
  function Loaded(db: Db, pc: Pc): Option<AccountId> {
    match pc
    case CardMissing(a) => Some(a)
    case Resolved(c) => if c in db.cards then Some(db.cards[c].account) else None
    case GotRow(row) => Some(row.origin)
    case Routing(_, row) => Some(row.origin)
    case DepositFound(a) => Some(a)
    case Ready(op) => if op.AddCard? then Some(op.card.account) else None
    case _ => None
  }

  /** The reading is the balance committed now. */
  predicate ReadsNow(db: Db, a: AccountId, seen: int) {
    a in db.accounts && seen == db.accounts[a].balance
  }

  /** The worker has loaded the account, with that reading. */
  predicate Read(s: State, who: nat, a: AccountId, seen: int) {
    who in s.workers && Loaded(s.db, s.workers[who].pc) == Some(a) && s.workers[who].seen == seen
  }

  predicate WorkerRead(db: Db, w: Worker, a: AccountId, seen: int) {
    Loaded(db, w.pc) == Some(a) && w.seen == seen
  }

  lemma CardReads(s: State, who: nat, w: Worker, act: CardAct, a: AccountId, seen: int)
    requires CanCard(s, who, w, act) && WorkerRead(s.db, CardMove(s, who, w, act), a, seen)
    ensures ReadsNow(s.db, a, seen) || WorkerRead(s.db, w, a, seen)
  {
  }

  lemma BeginReads(mode: Mode, s: State, who: nat, w: Worker, act: BeginAct, a: AccountId, seen: int)
    requires CanBegin(s, who, w, act) && WorkerOk(mode, s.db, s.queue, s.drawn, w)
    requires WorkerRead(s.db, BeginMove(s, who, w, act), a, seen)
    ensures ReadsNow(s.db, a, seen) || WorkerRead(s.db, w, a, seen)
  {
  }

  lemma RouteReads(mode: Mode, s: State, who: nat, w: Worker, act: RouteAct)
    requires CanRoute(s, who, w, act) && WorkerOk(mode, s.db, s.queue, s.drawn, w)
    ensures Loaded(s.db, RouteMove(mode, s, who, w, act).pc).None?
  {
  }

  lemma DepositReads(mode: Mode, s: State, who: nat, w: Worker, act: DepositAct, a: AccountId, seen: int)
    requires CanDeposit(s, who, w, act) && WorkerRead(s.db, DepositMove(mode, s, who, w, act), a, seen)
    ensures ReadsNow(s.db, a, seen) || WorkerRead(s.db, w, a, seen)
  {
  }

  lemma EndReads(mode: Mode, s: State, w: Worker, act: EndAct, db': Db, a: AccountId, seen: int)
    requires CanEnd(w, act) && WorkerOk(mode, s.db, s.queue, s.drawn, w)
    requires db' == (if act.Commit? then Apply(s.db, w.writes) else s.db)
    requires WorkerRead(db', EndMove(s, w, act), a, seen)
    ensures WorkerRead(s.db, w, a, seen)
  {
  }

  lemma OwnStepReads(mode: Mode, s: State, e: Event, a: AccountId, seen: int)
    requires Inv(mode, s) && Enabled(s, e) && !e.act.OpenAccount? && Read(Next(mode, s, e), e.who, a, seen)
    ensures ReadsNow(s.db, a, seen) || Read(s, e.who, a, seen)
  {
    hide CardMove, BeginMove, RouteMove, DepositMove, EndMove, Apply, WorkerOk, DbOk;
    hide CanCard, CanBegin, CanRoute, CanDeposit, CanEnd, Loaded;
    if e.who !in s.workers {
      StartReadsNothing(s.db);
    } else {
      var w := s.workers[e.who];
      match e.act
      case OnCard(act) => CardReads(s, e.who, w, act, a, seen);
      case OnBegin(act) => BeginReads(mode, s, e.who, w, act, a, seen);
      case OnRoute(act) => RouteReads(mode, s, e.who, w, act);
      case OnDeposit(act) => DepositReads(mode, s, e.who, w, act, a, seen);
      case OnEnd(act) => EndReads(mode, s, w, act, Next(mode, s, e).db, a, seen);
      case Spawn(_) =>
    }
  }

  lemma StartReadsNothing(db: Db)
    ensures Loaded(db, Start).None?
  {
  }

  lemma OtherStepReads(mode: Mode, s: State, e: Event, who: nat, a: AccountId, seen: int)
    requires Inv(mode, s) && Enabled(s, e) && (who != e.who || e.act.OpenAccount?)
    requires Read(Next(mode, s, e), who, a, seen) && Evolves(s.db, Next(mode, s, e).db)
    ensures Read(s, who, a, seen)
  {
    assert WorkerOk(mode, s.db, s.queue, s.drawn, s.workers[who]);
  }

  /** What a session takes for an account's balance was its committed balance at some moment of the run. */
  lemma {:induction false} SeenWasCommitted(mode: Mode, events: seq<Event>, who: nat, a: AccountId, seen: int)
    returns (k: nat)
    requires IsRun(mode, events) && Read(After(mode, events), who, a, seen)
    ensures k <= |events| && ReadsNow(After(mode, events[..k]).db, a, seen)
  {
    hide Next, Enabled, Inv, Read, ReadsNow, Evolves;
    if events == [] {
      NobodyReads(who, a, seen);
      assert false;
    }
    k := |events| - 1;
    var init, e := events[..k], events[k];
    RunKeepsInv(mode, init);
    DbEvolves(mode, events, k);
    if e.who == who && !e.act.OpenAccount? {
      OwnStepReads(mode, After(mode, init), e, a, seen);
    } else {
      OtherStepReads(mode, After(mode, init), e, who, a, seen);
    }
    if !ReadsNow(After(mode, init).db, a, seen) {
      k := SeenWasCommitted(mode, init, who, a, seen);
      assert init[..k] == events[..k];
    }
  }

  lemma NobodyReads(who: nat, a: AccountId, seen: int)
    ensures !Read(INIT, who, a, seen)
  {
  }

  // ----- The money of a run with cached readings -----

  /** A block that writes a balance holds the account. */
  lemma WriterHolds(s: State, e: Event, a: AccountId)
    requires Inv(Cached, s) && CommitsBalance(s, e, a)
    ensures AcctRow(a) in s.workers[e.who].locks
  {
    assert WorkerOk(Cached, s.db, s.queue, s.drawn, s.workers[e.who]);
  }

  lemma LogStep(s: State, e: Event, a: AccountId)
    requires Inv(Cached, s) && Enabled(s, e)
    ensures WroteFromCommitted(Next(Cached, s, e).log, a) <==>
            WroteFromCommitted(s.log, a) &&
            (CommitsBalance(s, e, a) ==> s.workers[e.who].base == s.db.accounts[a].balance)
  {
    var log' := Next(Cached, s, e).log;
    if log' != s.log {
      assert log'[..|log'| - 1] == s.log;
      if e.act == OnEnd(Commit) {
        assert WorkerOk(Cached, s.db, s.queue, s.drawn, s.workers[e.who]);
      }
    }
  }

  lemma {:induction false} WritersOfRun(events: seq<Event>, a: AccountId)
    requires IsRun(Cached, events)
    ensures WroteFromCommitted(After(Cached, events).log, a) <==> WritersLockedFresh(events, a)
  {
    if events != [] {
      var init, e := events[..|events| - 1], events[|events| - 1];
      var s := After(Cached, init);
      WritersOfRun(init, a);
      RunKeepsInv(Cached, init);
      LogStep(s, e, a);
      if CommitsBalance(s, e, a) {
        WriterHolds(s, e, a);
        StaleBase(init, e.who, a);
      }
    }
  }

  /**
   With cached readings the money of an account is balanced at every moment of a run if and only if
   every block that committed its balance had locked it with a reading equal to the balance then
   committed.
   */
  lemma {:induction false} BalancedExactlyWhenLockedFresh(events: seq<Event>, a: AccountId)
    requires IsRun(Cached, events)
    ensures BalancedThroughout(After(Cached, events).log, a) <==> WritersLockedFresh(events, a)
  {
    RunKeepsInv(Cached, events);
    BalancedExactly(After(Cached, events).log, a);
    WritersOfRun(events, a);
  }

  // ----- A lost deposit -----

  const LOADED := Worker(DepositJob(7, 100), DepositFound(0), {}, NO_WRITES, 0, 0, None)
  const LOCKED := LOADED.(pc := DepositLocked(0), locks := {AcctRow(0)})
  const READY := LOCKED.(pc := Ready(Deposit(0, 100)), writes := Writes(map[0 := 100], map[], map[]))

  function Paid(at: nat): Worker {
    LOADED.(pc := Refreshing, did := Some(at))
  }

  function Snapshot(balance: int, log: seq<Entry>, first: Worker, second: Worker): State {
    State(Db(map[0 := Account(7, balance)], map[], map[]), [], map[], {}, log, map[1 := first, 2 := second])
  }

  const OPENED := [Entry(0, Open(0, 7), 0)]
  const ONE_PAID := OPENED + [Entry(1, Deposit(0, 100), 0)]
  const BOTH_PAID := ONE_PAID + [Entry(2, Deposit(0, 100), 0)]

  /** Both deposits have loaded the account, still empty, and neither holds it. */
  lemma BothLoad() returns (events: seq<Event>)
    ensures IsRun(Cached, events) && After(Cached, events) == Snapshot(0, OPENED, LOADED, LOADED)
  {
    assert IsRun(Cached, []) && After(Cached, []) == INIT;
    hide IsRun, After;
    var job := DepositJob(7, 100);
    var e0, e1, e2 := Event(0, OpenAccount(0, 7)), Event(1, Spawn(job)), Event(2, Spawn(job));
    var e3, e4 := Event(1, OnDeposit(FindAccount(0))), Event(2, OnDeposit(FindAccount(0)));
    RunExtends(Cached, [], e0);
    RunExtends(Cached, [] + [e0], e1);
    RunExtends(Cached, [] + [e0] + [e1], e2);
    RunExtends(Cached, [] + [e0] + [e1] + [e2], e3);
    RunExtends(Cached, [] + [e0] + [e1] + [e2] + [e3], e4);
    events := [] + [e0] + [e1] + [e2] + [e3] + [e4];
    assert [] + OPENED == OPENED;
  }

  lemma FirstLocks(before: seq<Event>) returns (events: seq<Event>)
    requires IsRun(Cached, before) && After(Cached, before) == Snapshot(0, OPENED, LOADED, LOADED)
    ensures IsRun(Cached, events) && After(Cached, events) == Snapshot(0, OPENED, READY, LOADED)
  {
    hide IsRun, After;
    var e0, e1 := Event(1, OnDeposit(LockAccount)), Event(1, OnDeposit(AddBalance));
    RunExtends(Cached, before, e0);
    assert After(Cached, before + [e0]) == Snapshot(0, OPENED, LOCKED, LOADED);
    RunExtends(Cached, before + [e0], e1);
    events := before + [e0] + [e1];
  }

  lemma FirstCommits(before: seq<Event>) returns (events: seq<Event>)
    requires IsRun(Cached, before) && After(Cached, before) == Snapshot(0, OPENED, READY, LOADED)
    ensures IsRun(Cached, events) && After(Cached, events) == Snapshot(100, ONE_PAID, Paid(1), LOADED)
  {
    RunExtends(Cached, before, Event(1, OnEnd(Commit)));
    events := before + [Event(1, OnEnd(Commit))];
  }

  lemma SecondLocks(before: seq<Event>) returns (events: seq<Event>)
    requires IsRun(Cached, before) && After(Cached, before) == Snapshot(100, ONE_PAID, Paid(1), LOADED)
    ensures IsRun(Cached, events) && After(Cached, events) == Snapshot(100, ONE_PAID, Paid(1), READY)
  {
    var e0, e1 := Event(2, OnDeposit(LockAccount)), Event(2, OnDeposit(AddBalance));
    RunExtends(Cached, before, e0);
    assert After(Cached, before + [e0]) == Snapshot(100, ONE_PAID, Paid(1), LOCKED);
    RunExtends(Cached, before + [e0], e1);
    events := before + [e0] + [e1];
  }

  lemma SecondCommits(before: seq<Event>) returns (events: seq<Event>)
    requires IsRun(Cached, before) && After(Cached, before) == Snapshot(100, ONE_PAID, Paid(1), READY)
    ensures IsRun(Cached, events) && After(Cached, events) == Snapshot(100, BOTH_PAID, Paid(1), Paid(2))
  {
    RunExtends(Cached, before, Event(2, OnEnd(Commit)));
    events := before + [Event(2, OnEnd(Commit))];
  }

  lemma BothCounted()
    ensures Deposited(BOTH_PAID, 0) == 200
  {
    assert BOTH_PAID[..2] == ONE_PAID;
    assert ONE_PAID[..1] == OPENED;
    assert OPENED[..0] == [];
    assert Deposited([], 0) == 0;
    assert Deposited(OPENED, 0) == 0;
    assert Deposited(ONE_PAID, 0) == 100;
  }

  /**
   With the balance a session had cached before the lock, two overlapping deposits of 100 both commit
   and the account holds 100: one deposit is lost, and conservation with it.
   */
  lemma CachedReadLosesADeposit() returns (events: seq<Event>)
    ensures IsRun(Cached, events)
    ensures var s := After(Cached, events);
            && 0 in s.db.accounts && s.db.accounts[0].balance == 100
            && Deposited(s.log, 0) == 200 && Spent(s.db.txs, 0) == 0
  {
    events := BothLoad();
    events := FirstLocks(events);
    events := FirstCommits(events);
    events := SecondLocks(events);
    events := SecondCommits(events);
    BothCounted();
  }
}
