/** Every step of the protocol keeps the invariant. */
module Preservation {
  import opened Schema
  import opened Ledger
  import opened Protocol
  import opened Invariant

  // ----- Steps that commit nothing -----

  /** The step changes one worker and perhaps the queue or the generated ids. */
  ghost predicate Local(s: State, s': State, who: nat) {
    && who in s.workers && who in s'.workers
    && s'.db == s.db && s'.log == s.log
    && s.queue <= s'.queue && Grows(s.drawn, s'.drawn) && s.cardIds <= s'.cardIds
    && s'.workers == s.workers[who := s'.workers[who]]
  }

  /** The locks the worker has gained were free and have generated ids. */
  ghost predicate LocksGained(s: State, s': State, who: nat)
    requires who in s.workers && who in s'.workers
  {
    forall k :: k in s'.workers[who].locks && k !in s.workers[who].locks ==>
      && Free(s, who, k)
      && (k.TxRow? ==> k.t in s'.drawn)
      && (k.CardRow? ==> k.c in s'.cardIds)
  }

  lemma LocalLocks(s: State, s': State, who: nat)
    requires Local(s, s', who) && LocksGained(s, s', who)
    requires Exclusive(s.workers) && LocksDrawn(s)
    ensures Exclusive(s'.workers) && LocksDrawn(s')
  {
    var w, w' := s.workers[who], s'.workers[who];
    forall v | v in s.workers && v != who ensures s.workers[v].locks !! w'.locks {
      forall k | k in w'.locks ensures k !in s.workers[v].locks {
        assert k !in w.locks ==> Free(s, who, k);
      }
    }
    forall v, t | v in s'.workers && TxRow(t) in s'.workers[v].locks ensures t in s'.drawn {
      assert (v == who && TxRow(t) !in w.locks) || TxRow(t) in s.workers[v].locks;
    }
    forall v, c | v in s'.workers && CardRow(c) in s'.workers[v].locks ensures c in s'.cardIds {
      assert (v == who && CardRow(c) !in w.locks) || CardRow(c) in s.workers[v].locks;
    }
  }

  lemma LocalWorkers(mode: Mode, s: State, s': State, who: nat)
    requires WorkersOk(mode, s) && Local(s, s', who)
    requires WorkerOk(mode, s.db, s'.queue, s'.drawn, s'.workers[who])
    requires HistoryOk(s.db, s.log, who, s'.workers[who])
    ensures WorkersOk(mode, s')
  {
    forall v | v in s'.workers ensures WorkerOk(mode, s'.db, s'.queue, s'.drawn, s'.workers[v]) {
      if v != who {
        WorkerStable(mode, s.db, s.db, s.queue, s'.queue, s.drawn, s'.drawn, s.workers[v]);
      }
    }
  }

  lemma LocalStep(mode: Mode, s: State, s': State, who: nat)
    requires Inv(mode, s) && Local(s, s', who) && LocksGained(s, s', who)
    requires QueueOk(s'.queue, s'.drawn)
    requires WorkerOk(mode, s.db, s'.queue, s'.drawn, s'.workers[who])
    requires HistoryOk(s.db, s.log, who, s'.workers[who])
    ensures Inv(mode, s')
  {
    hide DbOk, LegalLog, WorkerOk, HistoryOk;
    LocalLocks(s, s', who);
    LocalWorkers(mode, s, s', who);
  }

  // ----- Commits -----

  lemma PostIsBlock(mode: Mode, db: Db, q: seq<Message>, drawn: map<TxId, Tx>, w: Worker)
    requires ReadyOk(mode, db, q, drawn, w) && Posts(w.pc.op)
    ensures Apply(db, w.writes) == RunFrom(w.pc.op, db, w.base)
    ensures mode.Fresh? ==> RunFrom(w.pc.op, db, w.base) == Run(w.pc.op, db)
  {
    var row := Final(w.pc.op, db, w.base);
    var applied, block := Apply(db, w.writes), RunFrom(w.pc.op, db, w.base);
    assert w.writes == FinalWrites(w.pc.op, db, w.base);
    assert applied.accounts == block.accounts;
    assert applied.cards == block.cards;
    assert applied.txs == block.txs;
    if mode.Fresh? && Settles(w.pc.op, Draft(w.pc.op, db)) {
      assert w.base == Balance(w.pc.op, db);
    } else if mode.Fresh? {
      assert !Spends(row) && row == Final(w.pc.op, db, Balance(w.pc.op, db));
    }
  }

  lemma OtherIsBlock(mode: Mode, db: Db, q: seq<Message>, drawn: map<TxId, Tx>, w: Worker)
    requires ReadyOk(mode, db, q, drawn, w) && !Posts(w.pc.op)
    ensures Apply(db, w.writes) == RunFrom(w.pc.op, db, w.base)
    ensures mode.Fresh? ==> RunFrom(w.pc.op, db, w.base) == Run(w.pc.op, db)
  {
    var applied, block := Apply(db, w.writes), RunFrom(w.pc.op, db, w.base);
    assert applied.accounts == block.accounts;
    assert applied.cards == block.cards;
    assert applied.txs == block.txs;
  }

  /** The private writes of a ready block, applied at its commit, are the atomic block. */
  lemma CommitIsBlock(mode: Mode, db: Db, q: seq<Message>, drawn: map<TxId, Tx>, w: Worker)
    requires ReadyOk(mode, db, q, drawn, w) && 0 <= w.base <= MAX_UNITS
    ensures Legal(w.pc.op, db, w.base)
    ensures Apply(db, w.writes) == RunFrom(w.pc.op, db, w.base)
    ensures mode.Fresh? ==> RunFrom(w.pc.op, db, w.base) == Run(w.pc.op, db)
  {
    if Posts(w.pc.op) {
      PostIsBlock(mode, db, q, drawn, w);
    } else {
      OtherIsBlock(mode, db, q, drawn, w);
    }
  }

  lemma CommitKeepsLocked(mode: Mode, db: Db, q: seq<Message>, drawn: map<TxId, Tx>, w: Worker, others: set<Lock>)
    requires ReadyOk(mode, db, q, drawn, w) && others !! w.locks
    ensures KeepsLocked(db, RunFrom(w.pc.op, db, w.base), others)
  {
    var db' := RunFrom(w.pc.op, db, w.base);
    match w.pc.op
    case AddCard(c, card) =>
      forall k | CardKey(k) in others ensures DigestTaken(db', k) <==> DigestTaken(db, k) {
        if DigestTaken(db, k) {
          var d :| d in db.cards && db.cards[d].digest == k;
          assert db'.cards[d].digest == k;
        }
      }
    case Deposit(_, _) => assert db'.cards == db.cards;
    case Pay(_, _) => assert db'.cards == db.cards;
    case Execute(_) => assert db'.cards == db.cards;
    case Open(_, _) =>
  }

  /** What a commit event does to the state, when the block's worker was ready. */
  ghost predicate Commits(s: State, s': State, who: nat) {
    && who in s.workers && CanEnd(s.workers[who], Commit)
    && s' == s.(workers := s.workers[who := EndMove(s, s.workers[who], Commit)],
                db := Apply(s.db, s.workers[who].writes),
                log := s.log + [Entry(who, s.workers[who].pc.op, s.workers[who].base)])
  }

  lemma CommitDb(mode: Mode, s: State, s': State, who: nat)
    requires DbOk(s.db) && Commits(s, s', who)
    requires WorkerOk(mode, s.db, s.queue, s.drawn, s.workers[who])
    ensures Legal(s.workers[who].pc.op, s.db, s.workers[who].base)
    ensures s'.db == RunFrom(s.workers[who].pc.op, s.db, s.workers[who].base)
    ensures mode.Fresh? ==> s'.db == Run(s.workers[who].pc.op, s.db)
    ensures DbOk(s'.db) && Evolves(s.db, s'.db)
  {
    var w := s.workers[who];
    CommitIsBlock(mode, s.db, s.queue, s.drawn, w);
    BlockKeeps(w.pc.op, s.db, w.base);
  }

  lemma CommitLog(mode: Mode, s: State, s': State, who: nat)
    requires LogOk(mode, s) && Commits(s, s', who)
    requires WorkerOk(mode, s.db, s.queue, s.drawn, s.workers[who])
    ensures LogOk(mode, s') && Evolves(s.db, s'.db)
    ensures Guard(s.workers[who].pc.op, s.db)
    ensures s'.db == RunFrom(s.workers[who].pc.op, s.db, s.workers[who].base)
  {
    CommitDb(mode, s, s', who);
    Extend(s.log, Entry(who, s.workers[who].pc.op, s.workers[who].base));
  }

  lemma CommitPublished(mode: Mode, s: State, s': State, who: nat)
    requires Commits(s, s', who) && Published(s.db, s.queue)
    requires WorkerOk(mode, s.db, s.queue, s.drawn, s.workers[who])
    requires s'.db == RunFrom(s.workers[who].pc.op, s.db, s.workers[who].base)
    ensures Published(s'.db, s'.queue)
  {
    var w := s.workers[who];
    if Posts(w.pc.op) {
      var row := Final(w.pc.op, s.db, w.base);
      assert s'.db.txs == s.db.txs[w.pc.op.id := row];
      assert MessageOf(w.pc.op.id, row) == MessageOf(w.pc.op.id, Draft(w.pc.op, s.db));
    }
  }

  lemma CommitRowsDrawn(mode: Mode, s: State, s': State, who: nat)
    requires Commits(s, s', who) && RowsDrawn(s.db, s.drawn)
    requires WorkerOk(mode, s.db, s.queue, s.drawn, s.workers[who])
    requires s'.db == RunFrom(s.workers[who].pc.op, s.db, s.workers[who].base)
    ensures RowsDrawn(s'.db, s'.drawn)
  {
    var w := s.workers[who];
    if Posts(w.pc.op) {
      assert s'.db.txs == s.db.txs[w.pc.op.id := Final(w.pc.op, s.db, w.base)];
      assert SameTerms(s.drawn[w.pc.op.id], Final(w.pc.op, s.db, w.base));
    }
  }

  lemma CommitLocks(s: State, s': State, who: nat)
    requires LocksDrawn(s) && Exclusive(s.workers) && Commits(s, s', who)
    ensures LocksDrawn(s') && Exclusive(s'.workers)
  {
  }

  lemma CommitCards(mode: Mode, s: State, s': State, who: nat)
    requires s.db.cards.Keys <= s.cardIds && LocksDrawn(s) && Commits(s, s', who)
    requires WorkerOk(mode, s.db, s.queue, s.drawn, s.workers[who])
    requires s'.db == RunFrom(s.workers[who].pc.op, s.db, s.workers[who].base)
    ensures s'.db.cards.Keys <= s'.cardIds
  {
    var w := s.workers[who];
    if w.pc.op.AddCard? {
      assert CardRow(w.pc.op.cardId) in w.locks;
    }
  }

  lemma CommitSelfOk(mode: Mode, s: State, s': State, who: nat)
    requires Commits(s, s', who) && Evolves(s.db, s'.db)
    requires WorkerOk(mode, s.db, s.queue, s.drawn, s.workers[who])
    requires s'.db == RunFrom(s.workers[who].pc.op, s.db, s.workers[who].base)
    ensures WorkerOk(mode, s'.db, s'.queue, s'.drawn, s'.workers[who])
  {
    var w, w' := s.workers[who], s'.workers[who];
    assert Idle(w');
    if w.pc.op.AddCard? {
      assert Holds(s'.db, w.job, w.pc.op.cardId);
    }
  }

  lemma ServesStable(db: Db, db': Db, job: Job, op: Op)
    requires Serves(db, job, op) && Evolves(db, db')
    ensures Serves(db', job, op)
  {
  }

  lemma CommitDid(mode: Mode, s: State, s': State, who: nat)
    requires Commits(s, s', who) && Evolves(s.db, s'.db) && Principal(s.workers[who].pc.op)
    requires WorkerOk(mode, s.db, s.queue, s.drawn, s.workers[who])
    requires s'.db == RunFrom(s.workers[who].pc.op, s.db, s.workers[who].base)
    ensures DidOk(s'.db, s'.workers[who], s.workers[who].pc.op)
    ensures s'.workers[who].did == Some(|s.log|) && Committed(s'.workers[who].pc)
  {
    hide DbOk, Evolves, RunFrom;
    var w := s.workers[who];
    ServesStable(s.db, s'.db, w.job, w.pc.op);
    if w.pc.op.Pay? {
      assert w.writes == FinalWrites(w.pc.op, s.db, w.base);
      assert s'.db.txs[w.pc.op.id] == w.writes.rows[w.pc.op.id] == Final(w.pc.op, s.db, w.base);
    }
  }

  lemma CommitHistory(mode: Mode, s: State, s': State, who: nat)
    requires Commits(s, s', who) && Evolves(s.db, s'.db)
    requires WorkerOk(mode, s.db, s.queue, s.drawn, s.workers[who])
    requires HistoryOk(s.db, s.log, who, s.workers[who])
    requires s'.db == RunFrom(s.workers[who].pc.op, s.db, s.workers[who].base)
    ensures HistoryOk(s'.db, s'.log, who, s'.workers[who])
  {
    hide Evolves, RunFrom, Apply, DidOk;
    var w, w' := s.workers[who], s'.workers[who];
    assert w.did.None?;
    assert forall i :: 0 <= i < |s.log| ==> s'.log[i] == s.log[i];
    if Principal(w.pc.op) {
      CommitDid(mode, s, s', who);
    }
  }

  /** The committing worker after its commit. */
  lemma CommitSelf(mode: Mode, s: State, s': State, who: nat)
    requires Commits(s, s', who) && Evolves(s.db, s'.db)
    requires WorkerOk(mode, s.db, s.queue, s.drawn, s.workers[who])
    requires HistoryOk(s.db, s.log, who, s.workers[who])
    requires s'.db == RunFrom(s.workers[who].pc.op, s.db, s.workers[who].base)
    ensures WorkerOk(mode, s'.db, s'.queue, s'.drawn, s'.workers[who])
    ensures HistoryOk(s'.db, s'.log, who, s'.workers[who])
  {
    CommitSelfOk(mode, s, s', who);
    CommitHistory(mode, s, s', who);
  }

  lemma CommitOther(mode: Mode, s: State, s': State, who: nat, v: nat)
    requires DbOk(s.db) && Commits(s, s', who) && v in s.workers && v != who && Evolves(s.db, s'.db)
    requires s.workers[v].locks !! s.workers[who].locks
    requires WorkerOk(mode, s.db, s.queue, s.drawn, s.workers[who])
    requires WorkerOk(mode, s.db, s.queue, s.drawn, s.workers[v]) && HistoryOk(s.db, s.log, v, s.workers[v])
    requires s'.db == RunFrom(s.workers[who].pc.op, s.db, s.workers[who].base)
    ensures WorkerOk(mode, s'.db, s'.queue, s'.drawn, s'.workers[v])
    ensures HistoryOk(s'.db, s'.log, v, s'.workers[v])
  {
    hide HistoryOk, DbOk, Evolves, KeepsLocked, RunFrom, Apply, DidOk;
    CommitKeepsLocked(mode, s.db, s.queue, s.drawn, s.workers[who], s.workers[v].locks);
    WorkerStable(mode, s.db, s'.db, s.queue, s'.queue, s.drawn, s'.drawn, s.workers[v]);
    HistoryStable(s.db, s'.db, s.log, s'.log, v, s.workers[v]);
  }

  lemma CommitWorkers(mode: Mode, s: State, s': State, who: nat)
    requires DbOk(s.db) && Exclusive(s.workers) && WorkersOk(mode, s)
    requires Commits(s, s', who) && Evolves(s.db, s'.db) && Guard(s.workers[who].pc.op, s.db)
    requires s'.db == RunFrom(s.workers[who].pc.op, s.db, s.workers[who].base)
    ensures WorkersOk(mode, s')
  {
    CommitSelf(mode, s, s', who);
    forall v | v in s'.workers && v != who
      ensures WorkerOk(mode, s'.db, s'.queue, s'.drawn, s'.workers[v])
      ensures HistoryOk(s'.db, s'.log, v, s'.workers[v])
    {
      CommitOther(mode, s, s', who, v);
    }
  }

  lemma CommitStep(mode: Mode, s: State, s': State, who: nat)
    requires Inv(mode, s) && Commits(s, s', who)
    ensures Inv(mode, s')
  {
    CommitLog(mode, s, s', who);
    CommitPublished(mode, s, s', who);
    CommitRowsDrawn(mode, s, s', who);
    CommitLocks(s, s', who);
    CommitCards(mode, s, s', who);
    CommitWorkers(mode, s, s', who);
  }

  // ----- The steps one group at a time -----

  lemma SpawnWorkers(mode: Mode, s: State, who: nat, w: Worker)
    requires LogOk(mode, s) && WorkersOk(mode, s) && who !in s.workers
    requires ValidJob(w.job) && w == Worker(w.job, Start, {}, NO_WRITES, 0, 0, None)
    ensures WorkersOk(mode, s.(workers := s.workers[who := w]))
    ensures LogOk(mode, s.(workers := s.workers[who := w]))
  {
  }

  lemma SpawnLocks(s: State, who: nat, w: Worker)
    requires Exclusive(s.workers) && IdsOk(s) && who !in s.workers && w.locks == {}
    ensures Exclusive(s.workers[who := w]) && IdsOk(s.(workers := s.workers[who := w]))
  {
  }

  lemma SpawnStep(mode: Mode, s: State, who: nat, job: Job)
    requires Inv(mode, s) && Enabled(s, Event(who, Spawn(job)))
    ensures Inv(mode, Next(mode, s, Event(who, Spawn(job))))
  {
    var w := Worker(job, Start, {}, NO_WRITES, 0, 0, None);
    SpawnWorkers(mode, s, who, w);
    SpawnLocks(s, who, w);
  }

  lemma OpenKeepsLocked(db: Db, a: AccountId, u: UserId, locks: set<Lock>)
    requires Guard(Open(a, u), db)
    ensures KeepsLocked(db, Run(Open(a, u), db), locks)
  {
    assert Run(Open(a, u), db).cards == db.cards && Run(Open(a, u), db).txs == db.txs;
  }

  lemma OpenWorker(mode: Mode, s: State, s': State, who: nat, a: AccountId, u: UserId, v: nat)
    requires v in s.workers && DbOk(s.db) && Evolves(s.db, s'.db)
    requires WorkerOk(mode, s.db, s.queue, s.drawn, s.workers[v]) && HistoryOk(s.db, s.log, v, s.workers[v])
    requires Guard(Open(a, u), s.db) && s'.db == Run(Open(a, u), s.db) && s'.log == s.log + [Entry(who, Open(a, u), 0)]
    ensures WorkerOk(mode, s'.db, s.queue, s.drawn, s.workers[v])
    ensures HistoryOk(s'.db, s'.log, v, s.workers[v])
  {
    OpenKeepsLocked(s.db, a, u, s.workers[v].locks);
    WorkerStable(mode, s.db, s'.db, s.queue, s.queue, s.drawn, s.drawn, s.workers[v]);
    HistoryStable(s.db, s'.db, s.log, s'.log, v, s.workers[v]);
  }

  lemma OpenWorkers(mode: Mode, s: State, s': State, who: nat, a: AccountId, u: UserId)
    requires WorkersOk(mode, s) && DbOk(s.db) && Evolves(s.db, s'.db)
    requires Guard(Open(a, u), s.db)
    requires s' == s.(db := Run(Open(a, u), s.db), log := s.log + [Entry(who, Open(a, u), 0)])
    ensures WorkersOk(mode, s')
  {
    forall v | v in s'.workers
      ensures WorkerOk(mode, s'.db, s'.queue, s'.drawn, s'.workers[v])
      ensures HistoryOk(s'.db, s'.log, v, s'.workers[v])
    {
      OpenWorker(mode, s, s', who, a, u, v);
    }
  }

  lemma OpenLog(mode: Mode, s: State, who: nat, a: AccountId, u: UserId)
    requires LogOk(mode, s) && Guard(Open(a, u), s.db)
    ensures LogOk(mode, Next(mode, s, Event(who, OpenAccount(a, u))))
    ensures Evolves(s.db, Next(mode, s, Event(who, OpenAccount(a, u))).db)
  {
    hide DbOk, Evolves, Replay;
    Extend(s.log, Entry(who, Open(a, u), 0));
    BlockKeeps(Open(a, u), s.db, 0);
  }

  lemma OpenStep(mode: Mode, s: State, who: nat, a: AccountId, u: UserId)
    requires Inv(mode, s) && Enabled(s, Event(who, OpenAccount(a, u)))
    ensures Inv(mode, Next(mode, s, Event(who, OpenAccount(a, u))))
  {
    OpenLog(mode, s, who, a, u);
    OpenWorkers(mode, s, Next(mode, s, Event(who, OpenAccount(a, u))), who, a, u);
  }

  /** A worker that has committed nothing keeps its history until it commits. */
  lemma StillUncommitted(db: Db, log: seq<Entry>, who: nat, w: Worker, w': Worker)
    requires HistoryOk(db, log, who, w) && w'.did == w.did && !Committed(w.pc) && !Committed(w'.pc) && RefusedOk(db, w')
    ensures HistoryOk(db, log, who, w')
  {
  }

  // Resolving the card of a payment

  lemma CardLocks(mode: Mode, s: State, s': State, who: nat, act: CardAct)
    requires IdsOk(s) && Enabled(s, Event(who, OnCard(act))) && s' == Next(mode, s, Event(who, OnCard(act)))
    requires WorkerOk(mode, s.db, s.queue, s.drawn, s.workers[who])
    ensures LocksGained(s, s', who)
  {
  }

  lemma CardOk(mode: Mode, s: State, who: nat, w: Worker, act: CardAct)
    requires DbOk(s.db) && s.db.cards.Keys <= s.cardIds && CanCard(s, who, w, act)
    requires WorkerOk(mode, s.db, s.queue, s.drawn, w)
    ensures WorkerOk(mode, s.db, s.queue, s.drawn, CardMove(s, who, w, act))
  {
  }

  lemma CardHistory(mode: Mode, s: State, who: nat, w: Worker, act: CardAct)
    requires CanCard(s, who, w, act) && HistoryOk(s.db, s.log, who, w)
    requires WorkerOk(mode, s.db, s.queue, s.drawn, w)
    ensures HistoryOk(s.db, s.log, who, CardMove(s, who, w, act))
  {
    assert CardMove(s, who, w, act).pc == Done(Forbidden) ==> OthersNumber(s.db, w.job);
    StillUncommitted(s.db, s.log, who, w, CardMove(s, who, w, act));
  }

  lemma CardStep(mode: Mode, s: State, who: nat, act: CardAct)
    requires Inv(mode, s) && Enabled(s, Event(who, OnCard(act)))
    ensures Inv(mode, Next(mode, s, Event(who, OnCard(act))))
  {
    hide DbOk, LegalLog, ExactLog, WorkerOk, HistoryOk, Exclusive;
    var s' := Next(mode, s, Event(who, OnCard(act)));
    CardOk(mode, s, who, s.workers[who], act);
    CardHistory(mode, s, who, s.workers[who], act);
    CardLocks(mode, s, s', who, act);
    LocalStep(mode, s, s', who);
  }

  // Beginning a payment, reading and claiming a scheduled row

  lemma BeginPayOk(mode: Mode, s: State, who: nat, w: Worker, act: BeginAct, drawn: map<TxId, Tx>)
    requires act.BeginPay? && CanBegin(s, who, w, act) && WorkerOk(mode, s.db, s.queue, s.drawn, w)
    requires act.id in drawn && drawn[act.id] == BeginMove(s, who, w, act).pc.row
    ensures WorkerOk(mode, s.db, s.queue, drawn, BeginMove(s, who, w, act))
  {
    var w' := BeginMove(s, who, w, act);
    assert Holds(s.db, w.job, w.pc.card);
    assert OnRow(s.db, drawn, w', w'.pc.op, w'.pc.row);
  }

  lemma ClaimOk(mode: Mode, s: State, who: nat, w: Worker)
    requires RowsDrawn(s.db, s.drawn) && CanBegin(s, who, w, Claim) && WorkerOk(mode, s.db, s.queue, s.drawn, w)
    ensures WorkerOk(mode, s.db, s.queue, s.drawn, BeginMove(s, who, w, Claim))
  {
    var w' := BeginMove(s, who, w, Claim);
    assert w'.pc.row == Draft(w'.pc.op, s.db);
    assert OnRow(s.db, s.drawn, w', w'.pc.op, w'.pc.row);
  }

  lemma OtherBeginOk(mode: Mode, s: State, who: nat, w: Worker, act: BeginAct)
    requires DbOk(s.db) && !act.BeginPay? && !act.Claim?
    requires CanBegin(s, who, w, act) && WorkerOk(mode, s.db, s.queue, s.drawn, w)
    ensures WorkerOk(mode, s.db, s.queue, s.drawn, BeginMove(s, who, w, act))
  {
  }

  lemma BeginOk(mode: Mode, s: State, who: nat, w: Worker, act: BeginAct, drawn: map<TxId, Tx>)
    requires DbOk(s.db) && RowsDrawn(s.db, s.drawn) && CanBegin(s, who, w, act)
    requires WorkerOk(mode, s.db, s.queue, s.drawn, w)
    requires if act.BeginPay? then act.id in drawn && drawn[act.id] == BeginMove(s, who, w, act).pc.row
             else drawn == s.drawn
    ensures WorkerOk(mode, s.db, s.queue, drawn, BeginMove(s, who, w, act))
  {
    match act
    case BeginPay(_, _, _) => BeginPayOk(mode, s, who, w, act, drawn);
    case Claim => ClaimOk(mode, s, who, w);
    case _ => OtherBeginOk(mode, s, who, w, act);
  }

  lemma BeginHistory(mode: Mode, s: State, who: nat, w: Worker, act: BeginAct)
    requires CanBegin(s, who, w, act) && WorkerOk(mode, s.db, s.queue, s.drawn, w) && HistoryOk(s.db, s.log, who, w)
    ensures HistoryOk(s.db, s.log, who, BeginMove(s, who, w, act))
  {
    StillUncommitted(s.db, s.log, who, w, BeginMove(s, who, w, act));
  }

  lemma BeginLocks(mode: Mode, s: State, s': State, who: nat, act: BeginAct)
    requires IdsOk(s) && Enabled(s, Event(who, OnBegin(act))) && s' == Next(mode, s, Event(who, OnBegin(act)))
    ensures LocksGained(s, s', who)
  {
  }

  lemma BeginStep(mode: Mode, s: State, who: nat, act: BeginAct)
    requires Inv(mode, s) && Enabled(s, Event(who, OnBegin(act)))
    ensures Inv(mode, Next(mode, s, Event(who, OnBegin(act))))
  {
    hide DbOk, LegalLog, ExactLog, WorkerOk, HistoryOk, Exclusive;
    var s' := Next(mode, s, Event(who, OnBegin(act)));
    BeginOk(mode, s, who, s.workers[who], act, s'.drawn);
    BeginHistory(mode, s, who, s.workers[who], act);
    BeginLocks(mode, s, s', who, act);
    LocalStep(mode, s, s', who);
  }

  // The decision tree, the account lock and the send

  lemma RoutedOk(mode: Mode, s: State, who: nat, w: Worker, act: RouteAct)
    requires act.RouteDeferred? || act.RouteCredit?
    requires CanRoute(s, who, w, act) && WorkerOk(mode, s.db, s.queue, s.drawn, w)
    ensures WorkerOk(mode, s.db, s.queue, s.drawn, RouteMove(mode, s, who, w, act))
  {
    var w' := RouteMove(mode, s, who, w, act);
    assert OnRow(s.db, s.drawn, w', w.pc.op, w.pc.row);
    assert Final(w.pc.op, s.db, w.base) == w'.writes.rows[w.pc.op.id];
  }

  lemma InternationalOk(mode: Mode, s: State, who: nat, w: Worker)
    requires CanRoute(s, who, w, RouteInternational) && WorkerOk(mode, s.db, s.queue, s.drawn, w)
    ensures WorkerOk(mode, s.db, s.queue, s.drawn, RouteMove(mode, s, who, w, RouteInternational))
  {
    assert OnRow(s.db, s.drawn, RouteMove(mode, s, who, w, RouteInternational), w.pc.op, w.pc.row);
  }

  lemma SendOk(mode: Mode, s: State, who: nat, w: Worker)
    requires CanRoute(s, who, w, Send) && WorkerOk(mode, s.db, s.queue, s.drawn, w)
    ensures WorkerOk(mode, s.db, s.queue + [MessageOf(w.pc.op.id, w.pc.row)], s.drawn, RouteMove(mode, s, who, w, Send))
  {
    var w' := RouteMove(mode, s, who, w, Send);
    assert OnRow(s.db, s.drawn, w', w.pc.op, w.pc.row);
    assert Final(w.pc.op, s.db, w.base) == w.pc.row.(status := Pending);
  }

  lemma LockOriginOk(mode: Mode, s: State, who: nat, w: Worker)
    requires DbOk(s.db) && CanRoute(s, who, w, LockOrigin) && WorkerOk(mode, s.db, s.queue, s.drawn, w)
    ensures WorkerOk(mode, s.db, s.queue, s.drawn, RouteMove(mode, s, who, w, LockOrigin))
  {
    assert OnRow(s.db, s.drawn, RouteMove(mode, s, who, w, LockOrigin), w.pc.op, w.pc.row);
    assert AccountOk(s.db.accounts[w.pc.row.origin]);
  }

  lemma DeductOk(mode: Mode, s: State, who: nat, w: Worker)
    requires CanRoute(s, who, w, Deduct) && WorkerOk(mode, s.db, s.queue, s.drawn, w)
    ensures WorkerOk(mode, s.db, s.queue, s.drawn, RouteMove(mode, s, who, w, Deduct))
  {
    assert OnRow(s.db, s.drawn, RouteMove(mode, s, who, w, Deduct), w.pc.op, w.pc.row);
  }

  lemma WriteRowOk(mode: Mode, s: State, who: nat, w: Worker)
    requires CanRoute(s, who, w, WriteRow) && WorkerOk(mode, s.db, s.queue, s.drawn, w)
    ensures WorkerOk(mode, s.db, s.queue, s.drawn, RouteMove(mode, s, who, w, WriteRow))
  {
    var w' := RouteMove(mode, s, who, w, WriteRow);
    assert OnRow(s.db, s.drawn, w', w.pc.op, w.pc.row);
    assert Final(w.pc.op, s.db, w.base) == w'.writes.rows[w.pc.op.id];
    assert w'.writes == FinalWrites(w.pc.op, s.db, w.base);
  }

  function QueueAfter(s: State, w: Worker, act: RouteAct): seq<Message>
    requires act.Send? ==> w.pc.Sending? && Posts(w.pc.op)
  {
    if act.Send? then s.queue + [MessageOf(w.pc.op.id, w.pc.row)] else s.queue
  }

  lemma RouteOk(mode: Mode, s: State, who: nat, w: Worker, act: RouteAct)
    requires DbOk(s.db) && CanRoute(s, who, w, act) && WorkerOk(mode, s.db, s.queue, s.drawn, w)
    ensures WorkerOk(mode, s.db, QueueAfter(s, w, act), s.drawn, RouteMove(mode, s, who, w, act))
  {
    match act
    case RouteDeferred => RoutedOk(mode, s, who, w, act);
    case RouteCredit => RoutedOk(mode, s, who, w, act);
    case RouteInternational => InternationalOk(mode, s, who, w);
    case LockOrigin => LockOriginOk(mode, s, who, w);
    case OriginMissing =>
    case Send => SendOk(mode, s, who, w);
    case Deduct => DeductOk(mode, s, who, w);
    case WriteRow => WriteRowOk(mode, s, who, w);
  }

  lemma RouteHistory(mode: Mode, s: State, who: nat, w: Worker, act: RouteAct)
    requires CanRoute(s, who, w, act) && HistoryOk(s.db, s.log, who, w)
    ensures HistoryOk(s.db, s.log, who, RouteMove(mode, s, who, w, act))
  {
    StillUncommitted(s.db, s.log, who, w, RouteMove(mode, s, who, w, act));
  }

  lemma RouteQueue(mode: Mode, s: State, who: nat, w: Worker, act: RouteAct)
    requires CanRoute(s, who, w, act) && WorkerOk(mode, s.db, s.queue, s.drawn, w) && QueueOk(s.queue, s.drawn)
    ensures QueueOk(QueueAfter(s, w, act), s.drawn)
  {
    if act.Send? {
      assert MessageOf(w.pc.op.id, w.pc.row) == MessageOf(w.pc.op.id, s.drawn[w.pc.op.id]);
    }
  }

  lemma RouteLocks(mode: Mode, s: State, s': State, who: nat, act: RouteAct)
    requires Enabled(s, Event(who, OnRoute(act))) && s' == Next(mode, s, Event(who, OnRoute(act)))
    ensures LocksGained(s, s', who)
  {
  }

  lemma RouteStep(mode: Mode, s: State, who: nat, act: RouteAct)
    requires Inv(mode, s) && Enabled(s, Event(who, OnRoute(act)))
    ensures Inv(mode, Next(mode, s, Event(who, OnRoute(act))))
  {
    hide DbOk, LegalLog, ExactLog, WorkerOk, HistoryOk, Exclusive;
    var s' := Next(mode, s, Event(who, OnRoute(act)));
    RouteOk(mode, s, who, s.workers[who], act);
    RouteHistory(mode, s, who, s.workers[who], act);
    RouteQueue(mode, s, who, s.workers[who], act);
    RouteLocks(mode, s, s', who, act);
    LocalStep(mode, s, s', who);
  }

  // Deposits

  lemma DepositOk(mode: Mode, s: State, who: nat, w: Worker, act: DepositAct)
    requires DbOk(s.db) && CanDeposit(s, who, w, act) && WorkerOk(mode, s.db, s.queue, s.drawn, w)
    ensures WorkerOk(mode, s.db, s.queue, s.drawn, DepositMove(mode, s, who, w, act))
  {
  }

  lemma DepositHistory(mode: Mode, s: State, who: nat, w: Worker, act: DepositAct)
    requires CanDeposit(s, who, w, act) && HistoryOk(s.db, s.log, who, w)
    ensures HistoryOk(s.db, s.log, who, DepositMove(mode, s, who, w, act))
  {
    StillUncommitted(s.db, s.log, who, w, DepositMove(mode, s, who, w, act));
  }

  lemma DepositStep(mode: Mode, s: State, who: nat, act: DepositAct)
    requires Inv(mode, s) && Enabled(s, Event(who, OnDeposit(act)))
    ensures Inv(mode, Next(mode, s, Event(who, OnDeposit(act))))
  {
    hide DbOk, LegalLog, ExactLog, WorkerOk, HistoryOk, Exclusive;
    var s' := Next(mode, s, Event(who, OnDeposit(act)));
    DepositOk(mode, s, who, s.workers[who], act);
    DepositHistory(mode, s, who, s.workers[who], act);
    LocalStep(mode, s, s', who);
  }

  // Endings

  lemma EndOk(mode: Mode, s: State, who: nat, w: Worker, act: EndAct)
    requires !act.Commit? && CanEnd(w, act)
    requires WorkerOk(mode, s.db, s.queue, s.drawn, w) && HistoryOk(s.db, s.log, who, w)
    ensures WorkerOk(mode, s.db, s.queue, s.drawn, EndMove(s, w, act))
    ensures HistoryOk(s.db, s.log, who, EndMove(s, w, act))
  {
  }

  lemma EndStep(mode: Mode, s: State, who: nat, act: EndAct)
    requires Inv(mode, s) && Enabled(s, Event(who, OnEnd(act)))
    ensures Inv(mode, Next(mode, s, Event(who, OnEnd(act))))
  {
    hide DbOk, LegalLog, ExactLog, WorkerOk, HistoryOk, Exclusive;
    var s' := Next(mode, s, Event(who, OnEnd(act)));
    if act.Commit? {
      CommitStep(mode, s, s', who);
    } else {
      EndOk(mode, s, who, s.workers[who], act);
      LocalStep(mode, s, s', who);
    }
  }

  lemma {:induction false} StepKeepsInv(mode: Mode, s: State, e: Event)
    requires Inv(mode, s) && Enabled(s, e)
    ensures Inv(mode, Next(mode, s, e))
  {
    match e.act
    case Spawn(job) => SpawnStep(mode, s, e.who, job);
    case OpenAccount(a, u) => OpenStep(mode, s, e.who, a, u);
    case OnCard(act) => CardStep(mode, s, e.who, act);
    case OnBegin(act) => BeginStep(mode, s, e.who, act);
    case OnRoute(act) => RouteStep(mode, s, e.who, act);
    case OnDeposit(act) => DepositStep(mode, s, e.who, act);
    case OnEnd(act) => EndStep(mode, s, e.who, act);
  }

  /** The invariant holds after every run. */
  lemma {:induction false} RunKeepsInv(mode: Mode, events: seq<Event>)
    requires IsRun(mode, events)
    ensures Inv(mode, After(mode, events))
  {
    if events != [] {
      RunKeepsInv(mode, events[..|events| - 1]);
      StepKeepsInv(mode, After(mode, events[..|events| - 1]), events[|events| - 1]);
    }
  }
}
