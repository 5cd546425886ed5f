/** What every run of the protocol guarantees. */
module Theorems {
  import opened Schema
  import opened Ledger
  import opened Protocol
  import opened Invariant
  import opened Preservation

  // ----- Refinement, conservation, lifecycle -----

  /**
   Refinement: the tables after any interleaving are those of the atomic ledger running the committed
   blocks one at a time in commit order, each of them legal at its turn.
   */
  lemma {:induction false} Refinement(events: seq<Event>)
    requires IsRun(Fresh, events)
    ensures var s := After(Fresh, events); LegalLog(s.log) && s.db == AtomicRun(Ops(s.log))
  {
    RunKeepsInv(Fresh, events);
    ExactLogIsAtomic(After(Fresh, events).log);
  }

  lemma StepGrowsLog(mode: Mode, s: State, e: Event)
    requires Enabled(s, e)
    ensures s.log <= Next(mode, s, e).log
  {
  }

  /** The log of committed blocks only grows. */
  lemma {:induction false} LogGrows(mode: Mode, events: seq<Event>, i: nat)
    requires IsRun(mode, events) && i <= |events|
    ensures IsRun(mode, events[..i]) && After(mode, events[..i]).log <= After(mode, events).log
  {
    if i < |events| {
      hide Enabled, Next;
      LogGrows(mode, events[..|events| - 1], i);
      StepGrowsLog(mode, After(mode, events[..|events| - 1]), events[|events| - 1]);
      assert events[..|events| - 1][..i] == events[..i];
    } else {
      assert events[..i] == events;
    }
  }

  /** Conservation over all interleavings, for every account, to the unit. */
  lemma {:induction false} ConservationOverRuns(events: seq<Event>, a: AccountId)
    requires IsRun(Fresh, events) && a in After(Fresh, events).db.accounts
    ensures var s := After(Fresh, events);
            && s.db.accounts[a].balance == Deposited(s.log, a) - Spent(s.db.txs, a)
            && 0 <= s.db.accounts[a].balance <= MAX_UNITS
  {
    RunKeepsInv(Fresh, events);
    Conservation(After(Fresh, events).log, a);
  }

  /** With cached readings the same law holds up to the drift the stale readings cause. */
  lemma {:induction false} MoneyOverAnyRun(mode: Mode, events: seq<Event>, a: AccountId)
    requires IsRun(mode, events) && a in After(mode, events).db.accounts
    ensures var s := After(mode, events);
            s.db.accounts[a].balance == Deposited(s.log, a) - Spent(s.db.txs, a) + Drift(s.log, a)
  {
    RunKeepsInv(mode, events);
    ConservationWithDrift(After(mode, events).log, a);
  }

  /**
   For each account, whatever is cached: its money is balanced at every moment of the run if and only if
   every committed block that wrote its balance worked from the balance committed at its turn.
   */
  lemma {:induction false} BalancedRuns(mode: Mode, events: seq<Event>, a: AccountId)
    requires IsRun(mode, events)
    ensures var log := After(mode, events).log; BalancedThroughout(log, a) <==> WroteFromCommitted(log, a)
  {
    RunKeepsInv(mode, events);
    BalancedExactly(After(mode, events).log, a);
  }

  lemma {:induction false} NeverProcessing(mode: Mode, events: seq<Event>)
    requires IsRun(mode, events)
    ensures forall t :: t in After(mode, events).db.txs ==> !After(mode, events).db.txs[t].status.Processing?
  {
    RunKeepsInv(mode, events);
    var db := After(mode, events).db;
    forall t | t in db.txs ensures !db.txs[t].status.Processing? {
      assert TxOk(db, db.txs[t]);
    }
  }

  /**
   Lifecycle: between any two moments of a run no row disappears, only the allowed status changes
   happen, terminal rows stay as they are, and `processing` is never visible.
   */
  lemma {:induction false} LifecycleOverRuns(mode: Mode, events: seq<Event>, i: nat)
    requires IsRun(mode, events) && i <= |events|
    ensures Evolves(After(mode, events[..i]).db, After(mode, events).db)
    ensures forall t :: t in After(mode, events).db.txs ==> !After(mode, events).db.txs[t].status.Processing?
    ensures var early, late := After(mode, events[..i]).db, After(mode, events).db;
            forall t :: t in early.txs && Terminal(early.txs[t].status) ==> t in late.txs && late.txs[t] == early.txs[t]
  {
    NeverProcessing(mode, events);
    DbEvolves(mode, events, i);
    var early, late := After(mode, events[..i]).db, After(mode, events).db;
    forall t | t in early.txs && Terminal(early.txs[t].status) ensures t in late.txs && late.txs[t] == early.txs[t] {
      assert TxEvolves(early.txs[t], late.txs[t]);
    }
  }

  lemma {:induction false} DbEvolves(mode: Mode, events: seq<Event>, i: nat)
    requires IsRun(mode, events) && i <= |events|
    ensures Evolves(After(mode, events[..i]).db, After(mode, events).db)
  {
    LogGrows(mode, events, i);
    RunKeepsInv(mode, events[..i]);
    RunKeepsInv(mode, events);
    var early, late := After(mode, events[..i]).log, After(mode, events).log;
    assert late[..|early|] == early;
    Lifecycle(late, |early|);
  }

  // ----- The queue -----

  /**
   Publish before commit: a committed pending row has its message, and a message whose row is
   committed carries that row's payload; the row is pending, or still scheduled after a rolled-back
   attempt.
   */
  lemma {:induction false} PublishBeforeCommit(mode: Mode, events: seq<Event>)
    requires IsRun(mode, events)
    ensures var s := After(mode, events);
            && Announced(s.db, s.queue)
            && (forall m :: m in s.queue && m.tx in s.db.txs ==>
                  && Tells(m, m.tx, s.db.txs[m.tx])
                  && (s.db.txs[m.tx].status.Pending? || s.db.txs[m.tx].status.Scheduled?))
  {
    RunKeepsInv(mode, events);
    var s := After(mode, events);
    forall t | t in s.db.txs && s.db.txs[t].status.Pending?
      ensures exists m :: m in s.queue && Tells(m, t, s.db.txs[t])
    {
      assert Tells(MessageOf(t, s.db.txs[t]), t, s.db.txs[t]);
    }
    forall m | m in s.queue && m.tx in s.db.txs
      ensures Tells(m, m.tx, s.db.txs[m.tx])
      ensures s.db.txs[m.tx].status.Pending? || s.db.txs[m.tx].status.Scheduled?
    {
      assert SameTerms(s.drawn[m.tx], s.db.txs[m.tx]);
      assert TxOk(s.db, s.db.txs[m.tx]);
    }
  }

  // ----- Who executed a scheduled row -----

  /** The worker committed the execution of the row. */
  predicate Executed(s: State, who: nat, t: TxId) {
    && who in s.workers && s.workers[who].did.Some? && s.workers[who].did.value < |s.log|
    && s.log[s.workers[who].did.value].op == Execute(t)
  }

  /** At most one execution of a row commits, whatever mix of cron runs and direct calls tries it. */
  lemma {:induction false} AtMostOneExecution(mode: Mode, events: seq<Event>, t: TxId, v: nat, w: nat)
    requires IsRun(mode, events)
    requires Executed(After(mode, events), v, t) && Executed(After(mode, events), w, t)
    ensures v == w
  {
    RunKeepsInv(mode, events);
    var s := After(mode, events);
    AtMostOnce(s.log, t);
    ExecutionsAt(s.log, t);
    assert HistoryOk(s.db, s.log, v, s.workers[v]) && HistoryOk(s.db, s.log, w, s.workers[w]);
  }

  /**
   A row that was stored as scheduled has left that status exactly when some worker committed its
   execution.
   */
  lemma {:induction false} LeftScheduledByExecution(mode: Mode, events: seq<Event>, t: TxId)
    requires IsRun(mode, events)
    ensures var s := After(mode, events); WasExecuted(s.db, t) <==> exists w :: Executed(s, w, t)
  {
    RunKeepsInv(mode, events);
    var s := After(mode, events);
    AtMostOnce(s.log, t);
    ExecutionsAt(s.log, t);
    if WasExecuted(s.db, t) {
      var i :| 0 <= i < |s.log| && s.log[i].op == Execute(t);
      var w := s.log[i].who;
      assert HistoryOk(s.db, s.log, w, s.workers[w]);
      assert Executed(s, w, t);
    }
  }

  lemma HistoryOfRun(mode: Mode, events: seq<Event>, who: nat)
    requires IsRun(mode, events) && who in After(mode, events).workers
    ensures HistoryOk(After(mode, events).db, After(mode, events).log, who, After(mode, events).workers[who])
  {
    RunKeepsInv(mode, events);
  }

  /**
   Overlapping cron runs and direct calls: if every attempt at a row that was stored as scheduled has
   ended as processed or refused with 409, then exactly one of them processed it.
   */
  lemma {:induction false} ExactlyOneProcesses(mode: Mode, events: seq<Event>, t: TxId, attempt: nat)
    requires IsRun(mode, events)
    requires var s := After(mode, events);
             && t in s.db.txs && s.db.txs[t].scheduledFor.Some?
             && attempt in s.workers && s.workers[attempt].job == ExecuteJob(t)
             && (forall w :: w in s.workers && s.workers[w].job == ExecuteJob(t) ==>
                   s.workers[w].pc == Done(Processed) || s.workers[w].pc == Done(Conflict))
    ensures var s := After(mode, events);
            exists w :: && w in s.workers && s.workers[w].job == ExecuteJob(t) && s.workers[w].pc == Done(Processed)
                        && (forall v :: v in s.workers && v != w && s.workers[v].job == ExecuteJob(t) ==>
                              s.workers[v].pc == Done(Conflict))
  {
    hide IsRun, After;
    var s := After(mode, events);
    HistoryOfRun(mode, events, attempt);
    LeftScheduledByExecution(mode, events, t);
    if s.workers[attempt].pc == Done(Processed) {
      assert Executed(s, attempt, t);
    }
    var w :| Executed(s, w, t);
    HistoryOfRun(mode, events, w);
    forall v | v in s.workers && v != w && s.workers[v].job == ExecuteJob(t) ensures s.workers[v].pc == Done(Conflict) {
      HistoryOfRun(mode, events, v);
      if s.workers[v].pc == Done(Processed) {
        assert Executed(s, v, t);
        AtMostOneExecution(mode, events, t, v, w);
      }
    }
  }

  /** The worker is in the middle of executing the row, or about to claim it. */
  predicate Executing(s: State, who: nat, t: TxId) {
    who in s.workers && s.workers[who].job == ExecuteJob(t) && TxRow(t) in s.workers[who].locks
  }

  predicate AboutToClaim(s: State, who: nat, t: TxId) {
    who in s.workers && s.workers[who].job == ExecuteJob(t) && s.workers[who].pc.GotRow?
  }

  /**
   A rolled-back attempt leaves the tables, the log and the queue alone, and the row claimable by any
   worker that has read it and had to wait.
   */
  lemma {:induction false} RollbackLeavesClaimable(mode: Mode, events: seq<Event>, who: nat, other: nat, t: TxId)
    requires IsRun(mode, events) && who != other
    requires Executing(After(mode, events), who, t) && AboutToClaim(After(mode, events), other, t)
    ensures Enabled(After(mode, events), Event(who, OnEnd(Abort)))
    ensures !Enabled(After(mode, events), Event(other, OnBegin(Claim)))
    ensures var s := After(mode, events);
            var s' := Next(mode, s, Event(who, OnEnd(Abort)));
            s'.db == s.db && s'.log == s.log && s'.queue == s.queue && Enabled(s', Event(other, OnBegin(Claim)))
  {
    hide Inv, DbOk;
    RunKeepsInv(mode, events);
    var s := After(mode, events);
    ExecutingIsGuarded(mode, s, who, t);
    AbortFrees(mode, s, who, other, t);
  }

  lemma ExecutingIsGuarded(mode: Mode, s: State, who: nat, t: TxId)
    requires Inv(mode, s) && Executing(s, who, t)
    ensures Guard(Execute(t), s.db) && CanEnd(s.workers[who], Abort)
  {
    assert WorkerOk(mode, s.db, s.queue, s.drawn, s.workers[who]);
  }

  lemma AbortFrees(mode: Mode, s: State, who: nat, other: nat, t: TxId)
    requires Inv(mode, s) && who in s.workers && TxRow(t) in s.workers[who].locks && CanEnd(s.workers[who], Abort)
    ensures Free(s.(workers := s.workers[who := EndMove(s, s.workers[who], Abort)]), other, TxRow(t))
  {
    var s' := s.(workers := s.workers[who := EndMove(s, s.workers[who], Abort)]);
    forall v | v in s'.workers && v != other ensures TxRow(t) !in s'.workers[v].locks {
      if v != who {
        assert s.workers[v].locks !! s.workers[who].locks;
      }
    }
  }

  // ----- Outcomes -----

  /** The worker's block that posted or credited something, if it committed one. */
  ghost predicate Wrote(s: State, who: nat, op: Op) {
    exists i :: 0 <= i < |s.log| && s.log[i].who == who && s.log[i].op == op && Principal(op)
  }

  /**
   The outcome reported for a payment matches its effect: a row is returned, or 402 reported, exactly
   when that row was committed, 402 exactly when it failed for lack of funds when submitted, and any
   other ending committed no row.
   */
  lemma {:induction false} OutcomeMatchesEffect(mode: Mode, events: seq<Event>, who: nat)
    requires IsRun(mode, events)
    requires who in After(mode, events).workers
    requires var w := After(mode, events).workers[who]; w.job.PayJob? && w.pc.Done?
    ensures var s := After(mode, events);
            var outcome := s.workers[who].pc.outcome;
            && (forall id, p :: Wrote(s, who, Pay(id, p)) ==>
                  && id in s.db.txs
                  && outcome == if Bounced(s.db.txs[id]) then PaymentRequired(id) else Returned(id))
            && (outcome.Returned? || outcome.PaymentRequired? ==>
                  exists p :: Wrote(s, who, Pay(outcome.id, p)) && Serves(s.db, s.workers[who].job, Pay(outcome.id, p)))
  {
    RunKeepsInv(mode, events);
    var s := After(mode, events);
    var w := s.workers[who];
    assert HistoryOk(s.db, s.log, who, w);
    if w.did.Some? {
      assert Wrote(s, who, s.log[w.did.value].op);
      assert s.log[w.did.value].op == Pay(w.pc.outcome.id, s.log[w.did.value].op.payment);
    }
  }

  /** A worker that ended in a refusal, a missing row, a conflict or a rollback has written nothing. */
  lemma {:induction false} FailureWritesNothing(mode: Mode, events: seq<Event>, who: nat, op: Op)
    requires IsRun(mode, events)
    requires who in After(mode, events).workers
    requires var pc := After(mode, events).workers[who].pc; pc.Done? && !Committed(pc)
    ensures !Wrote(After(mode, events), who, op)
  {
    RunKeepsInv(mode, events);
    var s := After(mode, events);
    assert HistoryOk(s.db, s.log, who, s.workers[who]);
  }

  predicate DepositedAt(log: seq<Entry>, i: nat, who: nat) {
    i < |log| && log[i].who == who && log[i].op.Deposit?
  }

  /** A deposit is reported as credited exactly when it was committed, once, to the user's account with its amount. */
  lemma {:induction false} DepositMatchesEffect(mode: Mode, events: seq<Event>, who: nat)
    requires IsRun(mode, events) && who in After(mode, events).workers
    requires var w := After(mode, events).workers[who]; w.job.DepositJob? && w.pc.Done?
    ensures var s, w := After(mode, events), After(mode, events).workers[who];
            && (w.pc.outcome.Credited? || w.pc.outcome.RefreshFailed? <==>
                  exists i: nat :: DepositedAt(s.log, i, who))
            && (forall i: nat, j: nat :: DepositedAt(s.log, i, who) && DepositedAt(s.log, j, who) ==> i == j)
            && (forall i: nat :: DepositedAt(s.log, i, who) ==>
                  && s.log[i].op.amount == w.job.amount && s.log[i].op.account in s.db.accounts
                  && s.db.accounts[s.log[i].op.account].user == w.job.user)
  {
    HistoryOfRun(mode, events, who);
    var s, w := After(mode, events), After(mode, events).workers[who];
    if w.did.Some? {
      assert DepositedAt(s.log, w.did.value, who);
    }
  }

  /** An execution is reported as processed exactly when it was committed, as 409 only for a row not scheduled. */
  lemma {:induction false} ExecutionMatchesEffect(mode: Mode, events: seq<Event>, who: nat, t: TxId)
    requires IsRun(mode, events) && who in After(mode, events).workers
    requires var w := After(mode, events).workers[who]; w.job == ExecuteJob(t) && w.pc.Done?
    ensures var s, w := After(mode, events), After(mode, events).workers[who];
            && (w.pc.outcome.Processed? || w.pc.outcome.RefreshFailed? <==>
                  exists i :: 0 <= i < |s.log| && s.log[i].who == who && s.log[i].op == Execute(t))
            && (w.pc.outcome.Conflict? ==> t in s.db.txs && !s.db.txs[t].status.Scheduled?)
  {
    HistoryOfRun(mode, events, who);
  }

  /** What a 404 reports: no account for a card not stored, no reversed row, no scheduled row, no account to credit. */
  ghost predicate Lacks(db: Db, job: Job) {
    match job
    case ExecuteJob(t) => t !in db.txs
    case DepositJob(user, _) => forall a :: a in db.accounts ==> db.accounts[a].user != user
    case PayJob(user, number, _, _, _, _, _, reversalOf) =>
      || (reversalOf.Some? && reversalOf.value !in db.txs)
      || ((forall c :: c in db.cards ==> db.cards[c].digest != CardDigest(number)) &&
          (forall a :: a in db.accounts ==> db.accounts[a].user != user))
  }

  lemma CardNotFound(s: State, who: nat, w: Worker, act: CardAct)
    requires CanCard(s, who, w, act) && CardMove(s, who, w, act).pc == Done(NotFound)
    ensures !w.pc.Done? && Lacks(s.db, w.job)
  {
  }

  lemma BeginNotFound(s: State, who: nat, w: Worker, act: BeginAct)
    requires CanBegin(s, who, w, act) && BeginMove(s, who, w, act).pc == Done(NotFound)
    ensures !w.pc.Done? && Lacks(s.db, w.job)
  {
  }

  lemma DepositNotFound(mode: Mode, s: State, who: nat, w: Worker, act: DepositAct)
    requires CanDeposit(s, who, w, act) && DepositMove(mode, s, who, w, act).pc == Done(NotFound)
    ensures !w.pc.Done? && Lacks(s.db, w.job)
  {
  }

  /** The keys keep the origin account of a row, so looking for it never fails. */
  lemma RouteFinds(mode: Mode, s: State, who: nat, w: Worker, act: RouteAct)
    requires CanRoute(s, who, w, act) && WorkerOk(mode, s.db, s.queue, s.drawn, w) && DbOk(s.db)
    ensures RouteMove(mode, s, who, w, act).pc != Done(NotFound)
  {
    if w.pc.Routing? {
      assert OnRow(s.db, s.drawn, w, w.pc.op, w.pc.row);
    }
  }

  lemma NotFoundStep(mode: Mode, s: State, e: Event, who: nat)
    requires Inv(mode, s) && Enabled(s, e) && who in Next(mode, s, e).workers
    requires Next(mode, s, e).workers[who].pc == Done(NotFound)
    ensures who in s.workers && s.workers[who].job == Next(mode, s, e).workers[who].job
    ensures s.workers[who].pc == Done(NotFound) || (!s.workers[who].pc.Done? && Lacks(s.db, s.workers[who].job))
  {
    hide Lacks, CardMove, BeginMove, RouteMove, DepositMove, WorkerOk, DbOk, CanCard, CanBegin, CanRoute, CanDeposit;
    assert who in s.workers;
    StepKeepsJobs(mode, s, e, who);
    if e.who == who {
      match e.act
      case OnCard(act) => CardNotFound(s, who, s.workers[who], act);
      case OnBegin(act) => BeginNotFound(s, who, s.workers[who], act);
      case OnRoute(act) => RouteFinds(mode, s, who, s.workers[who], act);
      case OnDeposit(act) => DepositNotFound(mode, s, who, s.workers[who], act);
      case _ =>
    }
  }

  /** A worker ends in 404 only if what it needed was missing at the moment it looked. */
  lemma {:induction false} NotFoundMeansMissing(mode: Mode, events: seq<Event>, who: nat) returns (k: nat)
    requires IsRun(mode, events) && who in After(mode, events).workers
    requires After(mode, events).workers[who].pc == Done(NotFound)
    ensures k < |events| && who in After(mode, events[..k]).workers
    ensures var seen := After(mode, events[..k]);
            !seen.workers[who].pc.Done? && Lacks(seen.db, After(mode, events).workers[who].job)
  {
    hide Next, Enabled, Inv, Lacks;
    assert events != [];
    k := |events| - 1;
    RunKeepsInv(mode, events[..k]);
    NotFoundStep(mode, After(mode, events[..k]), events[k], who);
    if After(mode, events[..k]).workers[who].pc == Done(NotFound) {
      var init := events[..k];
      k := NotFoundMeansMissing(mode, init, who);
      assert init[..k] == events[..k];
    }
  }

  /** The step undid the worker's block: a fault struck, a value did not fit, or the refresh failed. */
  predicate Undoes(e: Event, who: nat, outcome: Outcome) {
    && e.who == who
    && if outcome.RefreshFailed? then e.act == OnEnd(RefreshFails)
       else e.act == OnEnd(Abort) || e.act == OnEnd(Overflow)
  }

  lemma UndoneStep(mode: Mode, s: State, e: Event, who: nat)
    requires Enabled(s, e) && who in Next(mode, s, e).workers
    requires Next(mode, s, e).workers[who].pc in {Done(Aborted), Done(RefreshFailed)}
    ensures Undoes(e, who, Next(mode, s, e).workers[who].pc.outcome) ||
            (who in s.workers && s.workers[who].pc == Next(mode, s, e).workers[who].pc)
  {
  }

  /** A worker ends in a rollback only by a fault or a value that does not fit, and in a failed refresh only by one. */
  lemma {:induction false} UndoneByEvent(mode: Mode, events: seq<Event>, who: nat) returns (k: nat)
    requires IsRun(mode, events) && who in After(mode, events).workers
    requires After(mode, events).workers[who].pc in {Done(Aborted), Done(RefreshFailed)}
    ensures k < |events| && Undoes(events[k], who, After(mode, events).workers[who].pc.outcome)
  {
    hide Next, Enabled;
    assert events != [];
    k := |events| - 1;
    UndoneStep(mode, After(mode, events[..k]), events[k], who);
    if !Undoes(events[k], who, After(mode, events).workers[who].pc.outcome) {
      k := UndoneByEvent(mode, events[..k], who);
    }
  }

  // ----- Cards and provenance -----

  /** The block a worker has open for a row. */
  function InHand(pc: Pc): Option<Op> {
    match pc
    case Routing(op, _) => Some(op)
    case Sending(op, _) => Some(op)
    case Locked(op, _) => Some(op)
    case Settled(op, _) => Some(op)
    case Ready(op) => Some(op)
    case _ => None
  }

  predicate PaysWith(op: Op, c: CardId) {
    op.Pay? && op.payment.card == c
  }

  /** The worker has resolved its number to the card, is paying with it, or has committed a payment with it. */
  predicate Resolves(s: State, who: nat, c: CardId) {
    && who in s.workers
    && var w := s.workers[who];
       || w.pc == Resolved(c)
       || (InHand(w.pc).Some? && PaysWith(InHand(w.pc).value, c))
       || (w.did.Some? && w.did.value < |s.log| && PaysWith(s.log[w.did.value].op, c))
  }

  lemma ResolvedHolds(mode: Mode, s: State, who: nat, c: CardId)
    requires Inv(mode, s) && Resolves(s, who, c)
    ensures Holds(s.db, s.workers[who].job, c)
  {
    assert WorkerOk(mode, s.db, s.queue, s.drawn, s.workers[who]);
    assert HistoryOk(s.db, s.log, who, s.workers[who]);
  }

  /** A card resolved at one moment is the caller's at every later one. */
  lemma {:induction false} HoldsEverAfter(mode: Mode, events: seq<Event>, i: nat, who: nat, c: CardId)
    requires IsRun(mode, events) && i <= |events| && Resolves(After(mode, events[..i]), who, c)
    ensures Holds(After(mode, events).db, After(mode, events[..i]).workers[who].job, c)
  {
    LogGrows(mode, events, i);
    RunKeepsInv(mode, events[..i]);
    DbEvolves(mode, events, i);
    ResolvedHolds(mode, After(mode, events[..i]), who, c);
  }

  lemma SameDigestSameCard(db: Db, job: Job, other: Job, c: CardId, d: CardId)
    requires DbOk(db) && Holds(db, job, c) && Holds(db, other, d)
    ensures Digits(job.number) == Digits(other.number) <==> c == d
    ensures forall x, y :: WrittenAs(job.number, x) && WrittenAs(other.number, y) ==> (c == d <==> x == y)
  {
    forall x, y | WrittenAs(job.number, x) && WrittenAs(other.number, y) ensures c == d <==> x == y {
      DigestOfWritten(job.number, x);
      DigestOfWritten(other.number, y);
    }
  }

  /**
   The card race: two resolutions at any two moments of a run, whatever becomes of their payments, give
   the same card if and only if the digits are the same, with or without hyphens, and each card stays its
   caller's.
   */
  lemma {:induction false} SameDigitsSameCard(mode: Mode, events: seq<Event>, i: nat, j: nat,
                                              v: nat, w: nat, c: CardId, d: CardId)
    requires IsRun(mode, events) && i <= |events| && j <= |events|
    requires Resolves(After(mode, events[..i]), v, c) && Resolves(After(mode, events[..j]), w, d)
    ensures var job, other := After(mode, events[..i]).workers[v].job, After(mode, events[..j]).workers[w].job;
            var db := After(mode, events).db;
            && Holds(db, job, c) && Holds(db, other, d)
            && db.accounts[db.cards[c].account].user == job.user && db.accounts[db.cards[d].account].user == other.user
            && (Digits(job.number) == Digits(other.number) <==> c == d)
            && (forall x, y :: WrittenAs(job.number, x) && WrittenAs(other.number, y) ==> (c == d <==> x == y))
  {
    HoldsEverAfter(mode, events, i, v, c);
    HoldsEverAfter(mode, events, j, w, d);
    RunKeepsInv(mode, events);
    SameDigestSameCard(After(mode, events).db, After(mode, events[..i]).workers[v].job,
                       After(mode, events[..j]).workers[w].job, c, d);
  }

  /** After a conflict on the unique digest the re-fetch finds a row. */
  lemma {:induction false} RefetchFinds(mode: Mode, events: seq<Event>, who: nat)
    requires IsRun(mode, events)
    requires who in After(mode, events).workers && After(mode, events).workers[who].pc.Refetch?
    ensures var s := After(mode, events);
            && !Enabled(s, Event(who, OnCard(RefetchMiss)))
            && exists c :: Enabled(s, Event(who, OnCard(RefetchHit(c))))
  {
    RunKeepsInv(mode, events);
    var s := After(mode, events);
    var w := s.workers[who];
    assert WorkerOk(mode, s.db, s.queue, s.drawn, w);
    var c :| c in s.db.cards && s.db.cards[c].digest == CardDigest(w.job.number);
    assert Enabled(s, Event(who, OnCard(RefetchHit(c))));
  }

  /** The customer read check: the row's origin account belongs to the user. */
  predicate MayRead(db: Db, user: UserId, id: TxId) {
    id in db.txs && Owner(db, db.txs[id].origin, user)
  }

  /**
   Provenance: every row was posted by one payment worker, from the stored card of its user's account
   and with that card's stored type, and the read check lets exactly that user see it.
   */
  lemma {:induction false} ReadCheckMatchesCreator(mode: Mode, events: seq<Event>, id: TxId) returns (who: nat)
    requires IsRun(mode, events) && id in After(mode, events).db.txs
    ensures var s := After(mode, events);
            && who in s.workers && s.workers[who].job.PayJob?
            && (exists p :: Wrote(s, who, Pay(id, p)))
            && Holds(s.db, s.workers[who].job, s.db.txs[id].card)
            && s.db.txs[id].origin == s.db.cards[s.db.txs[id].card].account
            && s.db.txs[id].paidBy == s.db.cards[s.db.txs[id].card].cardType
            && (forall user :: MayRead(s.db, user, id) <==> user == s.workers[who].job.user)
  {
    RunKeepsInv(mode, events);
    var s := After(mode, events);
    assert TxOk(s.db, s.db.txs[id]);
    var i := EveryRowWasPaid(s.log, id);
    who := s.log[i].who;
    assert HistoryOk(s.db, s.log, who, s.workers[who]);
    assert Wrote(s, who, Pay(id, s.log[i].op.payment));
    PostedCard(s.log, i);
  }

  /** A payment's row keeps the card the payment named. */
  lemma {:induction false} PostedCard(log: seq<Entry>, i: nat)
    requires LegalLog(log) && i < |log| && log[i].op.Pay?
    ensures log[i].op.id in Replay(log).txs && Replay(log).txs[log[i].op.id].card == log[i].op.payment.card
  {
    var upto := log[..i + 1];
    LegalPrefix(log, i + 1);
    assert upto[..|upto| - 1] == log[..i];
    Lifecycle(log, i + 1);
    assert TxEvolves(Replay(upto).txs[log[i].op.id], Replay(log).txs[log[i].op.id]);
  }

  // ----- What was asked for is what is stored and sent -----

  lemma StepKeepsJobs(mode: Mode, s: State, e: Event, who: nat)
    requires Enabled(s, e) && who in s.workers
    ensures who in Next(mode, s, e).workers && Next(mode, s, e).workers[who].job == s.workers[who].job
  {
  }

  /** The worker began its payment of the row at the k-th event, with the card it had resolved. */
  ghost predicate BeganAt(mode: Mode, events: seq<Event>, k: nat, id: TxId, card: CardId) {
    && k < |events| && events[k].act.OnBegin? && events[k].act.begin.BeginPay? && events[k].act.begin.id == id
    && events[k].who in After(mode, events[..k]).workers
    && After(mode, events[..k]).workers[events[k].who].pc == Resolved(card)
  }

  lemma BeginPayDraws(mode: Mode, s: State, who: nat, id: TxId, now: int, stamp: int)
    requires Enabled(s, Event(who, OnBegin(BeginPay(id, now, stamp))))
    ensures var s' := Next(mode, s, Event(who, OnBegin(BeginPay(id, now, stamp))));
            var w := s.workers[who];
            && w.pc.Resolved? && w.pc.card in s.db.cards && w.job.PayJob? && s'.db == s.db
            && id in s'.drawn && AsRequested(s.db, w.job, w.pc.card, now, stamp, s'.drawn[id])
            && (forall t :: t != id ==>
                  (t in s'.drawn <==> t in s.drawn) && (t in s.drawn ==> s'.drawn[t] == s.drawn[t]))
  {
  }

  lemma OthersDrawNothing(mode: Mode, s: State, e: Event)
    requires Enabled(s, e) && !(e.act.OnBegin? && e.act.begin.BeginPay?)
    ensures Next(mode, s, e).drawn == s.drawn
  {
  }

  lemma RequestStable(db: Db, db': Db, job: Job, card: CardId, now: int, stamp: int, row: Tx)
    requires job.PayJob? && card in db.cards && AsRequested(db, job, card, now, stamp, row) && Evolves(db, db')
    ensures card in db'.cards && AsRequested(db', job, card, now, stamp, row)
  {
  }

  /** The terms a worker began to pay for are those of its request, clock readings included. */
  ghost predicate DrawnFor(mode: Mode, events: seq<Event>, k: nat, id: TxId)
    requires id in After(mode, events).drawn
  {
    var s := After(mode, events);
    var row := s.drawn[id];
    && BeganAt(mode, events, k, id, row.card)
    && events[k].who in s.workers && s.workers[events[k].who].job.PayJob? && row.card in s.db.cards
    && AsRequested(s.db, s.workers[events[k].who].job, row.card,
                   events[k].act.begin.now, events[k].act.begin.stamp, row)
  }

  lemma DrawnNow(mode: Mode, events: seq<Event>, id: TxId)
    requires IsRun(mode, events) && events != []
    requires events[|events| - 1].act.OnBegin? && events[|events| - 1].act.begin.BeginPay?
    requires events[|events| - 1].act.begin.id == id
    ensures id in After(mode, events).drawn && DrawnFor(mode, events, |events| - 1, id)
  {
    var s, e := After(mode, events[..|events| - 1]), events[|events| - 1];
    BeginPayDraws(mode, s, e.who, id, e.act.begin.now, e.act.begin.stamp);
    StepKeepsJobs(mode, s, e, e.who);
  }

  lemma DrawnStays(mode: Mode, events: seq<Event>, k: nat, id: TxId)
    requires IsRun(mode, events) && events != []
    requires id in After(mode, events[..|events| - 1]).drawn && DrawnFor(mode, events[..|events| - 1], k, id)
    requires id in After(mode, events).drawn
    requires After(mode, events).drawn[id] == After(mode, events[..|events| - 1]).drawn[id]
    ensures DrawnFor(mode, events, k, id)
  {
    hide AsRequested, Evolves, Next, Inv;
    var init := events[..|events| - 1];
    var s, s', row := After(mode, init), After(mode, events), After(mode, events).drawn[id];
    assert init[..k] == events[..k] && init[k] == events[k];
    StepKeepsJobs(mode, s, events[|events| - 1], init[k].who);
    DbEvolves(mode, events, |events| - 1);
    RequestStable(s.db, s'.db, s.workers[init[k].who].job, row.card,
                  events[k].act.begin.now, events[k].act.begin.stamp, row);
  }

  lemma {:induction false} DrawnAsRequested(mode: Mode, events: seq<Event>, id: TxId) returns (k: nat)
    requires IsRun(mode, events) && id in After(mode, events).drawn
    ensures DrawnFor(mode, events, k, id)
  {
    hide Next, Enabled, DrawnFor;
    assert events != [];
    var init, e := events[..|events| - 1], events[|events| - 1];
    if e.act.OnBegin? && e.act.begin.BeginPay? && e.act.begin.id == id {
      k := |events| - 1;
      DrawnNow(mode, events, id);
    } else {
      KeepsDrawn(mode, After(mode, init), e, id);
      k := DrawnAsRequested(mode, init, id);
      DrawnStays(mode, events, k, id);
    }
  }

  lemma KeepsDrawn(mode: Mode, s: State, e: Event, id: TxId)
    requires Enabled(s, e) && !(e.act.OnBegin? && e.act.begin.BeginPay? && e.act.begin.id == id)
    ensures id in Next(mode, s, e).drawn <==> id in s.drawn
    ensures id in s.drawn ==> Next(mode, s, e).drawn[id] == s.drawn[id]
  {
    if e.act.OnBegin? && e.act.begin.BeginPay? {
      BeginPayDraws(mode, s, e.who, e.act.begin.id, e.act.begin.now, e.act.begin.stamp);
    } else {
      OthersDrawNothing(mode, s, e);
    }
  }

  /**
   Every stored row is what one worker's request asked for, column by column: its destination, amount,
   kind, reversed row and schedule, with the account and type of the stored card of its number.
   */
  lemma {:induction false} RowsAsRequested(mode: Mode, events: seq<Event>, id: TxId) returns (k: nat)
    requires IsRun(mode, events) && id in After(mode, events).db.txs
    ensures var s := After(mode, events);
            var row := s.db.txs[id];
            && BeganAt(mode, events, k, id, row.card)
            && events[k].who in s.workers && s.workers[events[k].who].job.PayJob?
            && var job, now := s.workers[events[k].who].job, events[k].act.begin.now;
               && row.destination == job.destination && row.amount == job.amount && row.kind == job.kind
               && row.reversalOf == job.reversalOf && row.createdAt == events[k].act.begin.stamp
               && row.scheduledFor ==
                  (if job.scheduledFor.Some? && now < job.scheduledFor.value then job.scheduledFor else None)
               && row.card in s.db.cards
               && row.origin == s.db.cards[row.card].account && row.paidBy == s.db.cards[row.card].cardType
               && (forall x :: WrittenAs(job.number, x) ==> s.db.cards[row.card].digest == Hmac(x))
  {
    RunKeepsInv(mode, events);
    var s := After(mode, events);
    assert SameTerms(s.drawn[id], s.db.txs[id]);
    k := DrawnAsRequested(mode, events, id);
    HoldsAt(mode, events, k, id, s.db.txs[id].card);
  }

  lemma HoldsAt(mode: Mode, events: seq<Event>, k: nat, id: TxId, card: CardId)
    requires IsRun(mode, events) && BeganAt(mode, events, k, id, card)
    ensures var job := After(mode, events[..k]).workers[events[k].who].job;
            && events[k].who in After(mode, events).workers && After(mode, events).workers[events[k].who].job == job
            && job.PayJob? && HasDigest(After(mode, events).db, card, CardDigest(job.number))
            && (forall x :: WrittenAs(job.number, x) ==> After(mode, events).db.cards[card].digest == Hmac(x))
  {
    HoldsEverAfter(mode, events, k, events[k].who, card);
    JobsStay(mode, events, k, events[k].who);
    var job := After(mode, events[..k]).workers[events[k].who].job;
    forall x | WrittenAs(job.number, x) ensures CardDigest(job.number) == Hmac(x) {
      DigestOfWritten(job.number, x);
    }
  }

  lemma {:induction false} JobsStay(mode: Mode, events: seq<Event>, i: nat, who: nat)
    requires IsRun(mode, events) && i <= |events| && who in After(mode, events[..i]).workers
    ensures who in After(mode, events).workers
    ensures After(mode, events).workers[who].job == After(mode, events[..i]).workers[who].job
  {
    if i == |events| {
      assert events[..i] == events;
    } else {
      hide Next, Enabled;
      var init := events[..|events| - 1];
      assert init[..i] == events[..i];
      JobsStay(mode, init, i, who);
      StepKeepsJobs(mode, After(mode, init), events[|events| - 1], who);
    }
  }

  /** Every message ever sent, of a rolled-back attempt too, is for an international request and repeats its terms. */
  lemma {:induction false} MessagesAsRequested(mode: Mode, events: seq<Event>, m: Message) returns (k: nat)
    requires IsRun(mode, events) && m in After(mode, events).queue
    ensures var s := After(mode, events);
            && k < |events| && events[k].act.OnBegin? && events[k].act.begin.BeginPay?
            && events[k].act.begin.id == m.tx
            && events[k].who in s.workers && s.workers[events[k].who].job.PayJob?
            && var job := s.workers[events[k].who].job;
               && job.kind.International? && m.destination == job.destination && m.amount == job.amount
               && exists c :: && c in s.db.cards && s.db.cards[c].digest == CardDigest(job.number)
                              && m.origin == s.db.cards[c].account && m.paidBy == s.db.cards[c].cardType
  {
    RunKeepsInv(mode, events);
    var s := After(mode, events);
    k := DrawnAsRequested(mode, events, m.tx);
    HoldsAt(mode, events, k, m.tx, s.drawn[m.tx].card);
    assert s.db.cards[s.drawn[m.tx].card].digest == CardDigest(s.workers[events[k].who].job.number);
  }

  /** A card stored by some worker, for its own account, with the digits and the type it gave. */
  ghost predicate StoredBy(s: State, c: CardId, who: nat) {
    && c in s.db.cards && who in s.workers && s.workers[who].job.PayJob?
    && s.db.cards[c].cardType == s.workers[who].job.cardType
    && s.db.cards[c].digest == CardDigest(s.workers[who].job.number)
    && s.db.cards[c].account in s.db.accounts
    && s.db.accounts[s.db.cards[c].account].user == s.workers[who].job.user
  }

  lemma CommitStoresCard(mode: Mode, s: State, e: Event, c: CardId)
    requires Inv(mode, s) && Enabled(s, e) && c in Next(mode, s, e).db.cards && c !in s.db.cards
    ensures StoredBy(Next(mode, s, e), c, e.who)
  {
    assert e.act == OnEnd(Commit);
    assert WorkerOk(mode, s.db, s.queue, s.drawn, s.workers[e.who]);
  }

  /** Every stored card is one a caller typed: its own account, its number and its type. */
  lemma {:induction false} CardsAsRequested(mode: Mode, events: seq<Event>, c: CardId) returns (who: nat)
    requires IsRun(mode, events) && c in After(mode, events).db.cards
    ensures StoredBy(After(mode, events), c, who)
    ensures forall x :: WrittenAs(After(mode, events).workers[who].job.number, x) ==>
              After(mode, events).db.cards[c].digest == Hmac(x)
  {
    hide Next, Enabled;
    assert events != [];
    var init, e := events[..|events| - 1], events[|events| - 1];
    RunKeepsInv(mode, init);
    if c in After(mode, init).db.cards {
      who := CardsAsRequested(mode, init, c);
      DbEvolves(mode, events, |events| - 1);
      StepKeepsJobs(mode, After(mode, init), e, who);
    } else {
      who := e.who;
      CommitStoresCard(mode, After(mode, init), e, c);
    }
    forall x | WrittenAs(After(mode, events).workers[who].job.number, x)
      ensures After(mode, events).db.cards[c].digest == Hmac(x)
    {
      DigestOfWritten(After(mode, events).workers[who].job.number, x);
    }
  }

  /** A payment ends in 403 only when its number is stored for another user. */
  lemma {:induction false} ForbiddenMeansOthers(mode: Mode, events: seq<Event>, who: nat)
    requires IsRun(mode, events) && who in After(mode, events).workers
    requires After(mode, events).workers[who].pc == Done(Forbidden)
    ensures var s := After(mode, events);
            && s.workers[who].job.PayJob?
            && exists c :: && c in s.db.cards && s.db.cards[c].digest == CardDigest(s.workers[who].job.number)
                           && s.db.cards[c].account in s.db.accounts
                           && s.db.accounts[s.db.cards[c].account].user != s.workers[who].job.user
  {
    HistoryOfRun(mode, events, who);
    assert OthersNumber(After(mode, events).db, After(mode, events).workers[who].job);
  }

  // ----- Deadlock freedom -----

  /** The lock the worker's next step has to take. */
  function Wanted(w: Worker): Option<Lock> {
    match w.pc
    case CardMissing(_) => if w.job.PayJob? then Some(CardKey(CardDigest(w.job.number))) else None
    case GotRow(_) => if w.job.ExecuteJob? then Some(TxRow(w.job.tx)) else None
    case Routing(op, row) => if Settles(op, row) then Some(AcctRow(row.origin)) else None
    case DepositFound(a) => Some(AcctRow(a))
    case _ => None
  }

  predicate WaitsFor(s: State, v: nat, w: nat) {
    v in s.workers && w in s.workers && v != w && Wanted(s.workers[v]).Some? &&
    Wanted(s.workers[v]).value in s.workers[w].locks
  }

  /** Locks are taken in the order: first rows and keys, last the account. */
  ghost function Rank(w: Worker): nat {
    if exists a :: AcctRow(a) in w.locks then 2 else if w.locks != {} then 1 else 0
  }

  lemma WaitingRaisesRank(mode: Mode, s: State, v: nat, w: nat)
    requires Inv(mode, s) && WaitsFor(s, v, w)
    ensures Rank(s.workers[v]) < Rank(s.workers[w]) && (Rank(s.workers[w]) == 2 ==> Wanted(s.workers[w]).None?)
  {
    assert WorkerOk(mode, s.db, s.queue, s.drawn, s.workers[v]);
    assert WorkerOk(mode, s.db, s.queue, s.drawn, s.workers[w]);
  }

  ghost predicate WaitChain(s: State, path: seq<nat>) {
    |path| > 0 && forall i :: 0 <= i < |path| - 1 ==> WaitsFor(s, path[i], path[i + 1])
  }

  lemma {:induction false} ChainRaisesRank(mode: Mode, s: State, path: seq<nat>)
    requires Inv(mode, s) && WaitChain(s, path) && path[0] in s.workers
    ensures path[|path| - 1] in s.workers
    ensures Rank(s.workers[path[|path| - 1]]) >= Rank(s.workers[path[0]]) + |path| - 1
  {
    hide Inv, Rank;
    if |path| > 1 {
      var init := path[..|path| - 1];
      assert forall i :: 0 <= i < |init| - 1 ==> WaitsFor(s, path[i], path[i + 1]);
      ChainRaisesRank(mode, s, init);
      assert WaitsFor(s, path[|path| - 2], path[|path| - 1]);
      WaitingRaisesRank(mode, s, path[|path| - 2], path[|path| - 1]);
    }
  }

  /** The waits-for relation has no cycle, and no chain of waits is longer than two. */
  lemma {:induction false} NoWaitCycle(mode: Mode, events: seq<Event>, path: seq<nat>)
    requires IsRun(mode, events) && WaitChain(After(mode, events), path) && path[0] in After(mode, events).workers
    ensures |path| <= 3 && (|path| > 1 ==> path[0] != path[|path| - 1])
  {
    RunKeepsInv(mode, events);
    ChainRaisesRank(mode, After(mode, events), path);
  }

  /** A worker's own step that is neither an abort nor a failed refresh. */
  predicate Forward(act: Action) {
    act != OnEnd(Abort) && act != OnEnd(RefreshFails) && !act.Spawn? && !act.OpenAccount?
  }

  ghost predicate CanStep(s: State, who: nat) {
    exists act: Action :: Forward(act) && Enabled(s, Event(who, act))
  }

  /** The columns cannot hold the worker's amount, or the balance its deposit would lead to. */
  predicate TooLarge(mode: Mode, s: State, who: nat) {
    && who in s.workers
    && var w := s.workers[who];
       match w.job
       case PayJob(_, _, _, _, amount, _, _, _) => MAX_UNITS < amount
       case DepositJob(_, amount) =>
         w.pc.DepositLocked? && Based(mode, s.db, w, w.pc.account) && MAX_UNITS < w.base + amount
       case ExecuteJob(_) => false
  }

  /** The database refuses a value only when it does not fit, and then the worker has no other way forward. */
  lemma OverflowOnlyWhenTooLarge(mode: Mode, s: State, who: nat)
    requires Inv(mode, s) && who in s.workers && CanEnd(s.workers[who], Overflow)
    ensures TooLarge(mode, s, who)
    ensures forall act :: Forward(act) && Enabled(s, Event(who, act)) ==> act == OnEnd(Overflow)
  {
    assert WorkerOk(mode, s.db, s.queue, s.drawn, s.workers[who]);
  }

  lemma {:induction false} FreshId(ids: set<nat>) returns (id: nat)
    ensures forall i :: i in ids ==> i < id
  {
    if ids == {} {
      id := 0;
    } else {
      var x :| x in ids;
      var above := FreshId(ids - {x});
      id := if x < above then above else x + 1;
      forall i | i in ids ensures i < id {
        assert i == x || i in ids - {x};
      }
    }
  }

  lemma NotFree(s: State, v: nat, k: Lock)
    requires v in s.workers && !Free(s, v, k) && Wanted(s.workers[v]) == Some(k)
    ensures exists w :: WaitsFor(s, v, w)
  {
    var w :| w in s.workers && w != v && k in s.workers[w].locks;
    assert WaitsFor(s, v, w);
  }

  lemma Stepping(s: State, who: nat, act: Action)
    requires Forward(act) && Enabled(s, Event(who, act))
    ensures CanStep(s, who)
  {
  }

  lemma StartStep(mode: Mode, s: State, v: nat)
    requires Inv(mode, s) && v in s.workers && s.workers[v].pc.Start?
    ensures CanStep(s, v)
  {
    var w := s.workers[v];
    match w.job
    case ExecuteJob(t) =>
      if t in s.db.txs {
        assert TxOk(s.db, s.db.txs[t]);
        Stepping(s, v, OnBegin(ReadRow));
      } else {
        Stepping(s, v, OnBegin(ReadMissing));
      }
    case DepositJob(user, _) =>
      if a :| a in s.db.accounts && s.db.accounts[a].user == user {
        Stepping(s, v, OnDeposit(FindAccount(a)));
      } else {
        Stepping(s, v, OnDeposit(FindNone));
      }
    case PayJob(user, number, _, _, _, _, _, _) =>
      if c :| c in s.db.cards && s.db.cards[c].digest == CardDigest(number) {
        Stepping(s, v, OnCard(LookupHit(c)));
      } else if a :| a in s.db.accounts && s.db.accounts[a].user == user {
        Stepping(s, v, OnCard(LookupMiss(a)));
      } else {
        Stepping(s, v, OnCard(LookupNoAccount));
      }
  }

  lemma CardStepOrWait(mode: Mode, s: State, v: nat)
    requires Inv(mode, s) && v in s.workers && s.workers[v].pc.CardMissing?
    ensures CanStep(s, v) || exists w :: WaitsFor(s, v, w)
  {
    var w := s.workers[v];
    assert WorkerOk(mode, s.db, s.queue, s.drawn, w);
    var digest := CardDigest(w.job.number);
    if DigestTaken(s.db, digest) {
      Stepping(s, v, OnCard(InsertConflict));
    } else if Free(s, v, CardKey(digest)) {
      var c := FreshId(s.cardIds);
      Stepping(s, v, OnCard(InsertCard(c)));
    } else {
      NotFree(s, v, CardKey(digest));
    }
  }

  lemma ResolvedStep(mode: Mode, s: State, v: nat)
    requires Inv(mode, s) && v in s.workers && s.workers[v].pc.Resolved?
    ensures CanStep(s, v)
  {
    var w := s.workers[v];
    assert WorkerOk(mode, s.db, s.queue, s.drawn, w);
    if ReversalKnown(s.db, w.job) {
      var id := FreshId(s.drawn.Keys);
      assert id !in s.drawn.Keys;
      Stepping(s, v, OnBegin(BeginPay(id, 0, 0)));
    } else {
      Stepping(s, v, OnBegin(ReversalMissing));
    }
  }

  lemma RoutingStepOrWait(mode: Mode, s: State, v: nat)
    requires Inv(mode, s) && v in s.workers && s.workers[v].pc.Routing?
    ensures CanStep(s, v) || exists w :: WaitsFor(s, v, w)
  {
    var w := s.workers[v];
    assert WorkerOk(mode, s.db, s.queue, s.drawn, w);
    var op, row := w.pc.op, w.pc.row;
    if Settles(op, row) {
      if Free(s, v, AcctRow(row.origin)) {
        Stepping(s, v, OnRoute(LockOrigin));
      } else {
        NotFree(s, v, AcctRow(row.origin));
      }
    } else if !Fits(op, row) {
      Stepping(s, v, OnEnd(Overflow));
    } else if Later(op) {
      Stepping(s, v, OnRoute(RouteDeferred));
    } else if row.kind.International? {
      Stepping(s, v, OnRoute(RouteInternational));
    } else {
      Stepping(s, v, OnRoute(RouteCredit));
    }
  }

  lemma GotRowStepOrWait(mode: Mode, s: State, v: nat)
    requires Inv(mode, s) && v in s.workers && s.workers[v].pc.GotRow?
    ensures CanStep(s, v) || exists w :: WaitsFor(s, v, w)
  {
    var w := s.workers[v];
    assert WorkerOk(mode, s.db, s.queue, s.drawn, w);
    assert TxOk(s.db, s.db.txs[w.job.tx]);
    if !s.db.txs[w.job.tx].status.Scheduled? {
      Stepping(s, v, OnBegin(ClaimRefused));
    } else if Free(s, v, TxRow(w.job.tx)) {
      Stepping(s, v, OnBegin(Claim));
    } else {
      NotFree(s, v, TxRow(w.job.tx));
    }
  }

  lemma DepositStepOrWait(mode: Mode, s: State, v: nat)
    requires Inv(mode, s) && v in s.workers && s.workers[v].pc.DepositFound?
    ensures CanStep(s, v) || exists w :: WaitsFor(s, v, w)
  {
    var w := s.workers[v];
    assert WorkerOk(mode, s.db, s.queue, s.drawn, w);
    if Free(s, v, AcctRow(w.pc.account)) {
      Stepping(s, v, OnDeposit(LockAccount));
    } else {
      NotFree(s, v, AcctRow(w.pc.account));
    }
  }

  lemma RefetchStep(mode: Mode, s: State, v: nat)
    requires Inv(mode, s) && v in s.workers && s.workers[v].pc.Refetch?
    ensures CanStep(s, v)
  {
    var w := s.workers[v];
    assert WorkerOk(mode, s.db, s.queue, s.drawn, w);
    var c :| c in s.db.cards && s.db.cards[c].digest == CardDigest(w.job.number);
    Stepping(s, v, OnCard(RefetchHit(c)));
  }

  lemma HoldingStep(mode: Mode, s: State, v: nat)
    requires Inv(mode, s) && v in s.workers
    requires var pc := s.workers[v].pc; pc.Sending? || pc.Locked? || pc.Settled? || pc.DepositLocked?
    ensures CanStep(s, v)
  {
    var w := s.workers[v];
    assert WorkerOk(mode, s.db, s.queue, s.drawn, w);
    match w.pc
    case Sending(_, _) => Stepping(s, v, OnRoute(Send));
    case Locked(_, _) => Stepping(s, v, OnRoute(Deduct));
    case Settled(op, row) => Stepping(s, v, if Fits(op, row) then OnRoute(WriteRow) else OnEnd(Overflow));
    case DepositLocked(_) =>
      Stepping(s, v, if w.base + w.job.amount <= MAX_UNITS then OnDeposit(AddBalance) else OnEnd(Overflow));
  }

  lemma ClosingStep(mode: Mode, s: State, v: nat)
    requires Inv(mode, s) && v in s.workers && (s.workers[v].pc.Ready? || s.workers[v].pc.Refreshing?)
    ensures CanStep(s, v)
  {
    assert WorkerOk(mode, s.db, s.queue, s.drawn, s.workers[v]);
    Stepping(s, v, if s.workers[v].pc.Ready? then OnEnd(Commit) else OnEnd(Refresh));
  }

  lemma StepOrWait(mode: Mode, s: State, v: nat)
    requires Inv(mode, s) && v in s.workers && !s.workers[v].pc.Done?
    ensures CanStep(s, v) || exists w :: WaitsFor(s, v, w)
  {
    assert WorkerOk(mode, s.db, s.queue, s.drawn, s.workers[v]);
    match s.workers[v].pc
    case Start => StartStep(mode, s, v);
    case CardMissing(_) => CardStepOrWait(mode, s, v);
    case Resolved(_) => ResolvedStep(mode, s, v);
    case GotRow(_) => GotRowStepOrWait(mode, s, v);
    case Routing(_, _) => RoutingStepOrWait(mode, s, v);
    case DepositFound(_) => DepositStepOrWait(mode, s, v);
    case Refetch => RefetchStep(mode, s, v);
    case Ready(_) => ClosingStep(mode, s, v);
    case Refreshing => ClosingStep(mode, s, v);
    case Sending(_, _) => HoldingStep(mode, s, v);
    case Locked(_, _) => HoldingStep(mode, s, v);
    case Settled(_, _) => HoldingStep(mode, s, v);
    case DepositLocked(_) => HoldingStep(mode, s, v);
  }

  lemma HoldersAreUnfinished(mode: Mode, s: State, v: nat, w: nat)
    requires Inv(mode, s) && WaitsFor(s, v, w)
    ensures !s.workers[w].pc.Done?
  {
    assert WorkerOk(mode, s.db, s.queue, s.drawn, s.workers[w]);
  }

  /**
   Deadlock freedom: while any worker is unfinished, it or a worker at the end of its chain of waits
   can take a step that is neither an abort nor a failed refresh.
   */
  lemma {:induction false} NoDeadlock(mode: Mode, events: seq<Event>, v: nat) returns (path: seq<nat>)
    requires IsRun(mode, events)
    requires v in After(mode, events).workers && !After(mode, events).workers[v].pc.Done?
    ensures WaitChain(After(mode, events), path) && path[0] == v
    ensures path[|path| - 1] in After(mode, events).workers && CanStep(After(mode, events), path[|path| - 1])
  {
    RunKeepsInv(mode, events);
    var s := After(mode, events);
    path := FollowWaits(mode, s, v);
  }

  lemma {:induction false} FollowWaits(mode: Mode, s: State, v: nat) returns (path: seq<nat>)
    requires Inv(mode, s) && v in s.workers && !s.workers[v].pc.Done?
    ensures WaitChain(s, path) && path[0] == v
    ensures path[|path| - 1] in s.workers && CanStep(s, path[|path| - 1])
    decreases 2 - Rank(s.workers[v])
  {
    hide Inv, CanStep;
    StepOrWait(mode, s, v);
    path := [v];
    if !CanStep(s, v) {
      var w :| WaitsFor(s, v, w);
      WaitingRaisesRank(mode, s, v, w);
      HoldersAreUnfinished(mode, s, v, w);
      var rest := FollowWaits(mode, s, w);
      path := [v] + rest;
      assert forall i :: 0 < i < |path| ==> path[i] == rest[i - 1];
      assert forall i :: 1 <= i < |path| - 1 ==> WaitsFor(s, rest[i - 1], rest[i]);
    }
  }
}
