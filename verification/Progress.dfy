/**
 Every run can be completed in a bounded number of steps, without an abort or a failed refresh; a block
 is refused only for a value its column cannot hold.
 */
module Progress {
  import opened Schema
  import opened Ledger
  import opened Protocol
  import opened Invariant
  import opened Preservation
  import opened Theorems

  /** How many steps a worker at this point can still take. */
  function Left(pc: Pc): nat {
    match pc
    case Done(_) => 0
    case Refreshing => 1
    case Ready(op) => if op.AddCard? then 7 else 2
    case Settled(_, _) => 3
    case DepositLocked(_) => 3
    case Locked(_, _) => 4
    case Sending(_, _) => 4
    case DepositFound(_) => 4
    case Routing(_, _) => 5
    case Resolved(_) => 6
    case GotRow(_) => 6
    case Refetch => 7
    case CardMissing(_) => 8
    case Start => 9
  }

  ghost function WorkLeft(workers: map<nat, Worker>): nat
    decreases workers.Keys
  {
    if workers == map[] then 0
    else
      var v :| v in workers;
      Left(workers[v].pc) + WorkLeft(workers - {v})
  }

  lemma {:induction false} WorkSplit(workers: map<nat, Worker>, v: nat)
    requires v in workers
    ensures WorkLeft(workers) == Left(workers[v].pc) + WorkLeft(workers - {v})
    decreases workers.Keys
  {
    var u :| u in workers && WorkLeft(workers) == Left(workers[u].pc) + WorkLeft(workers - {u});
    if u != v {
      WorkSplit(workers - {u}, v);
      WorkSplit(workers - {v}, u);
      assert workers - {u} - {v} == workers - {v} - {u};
    }
  }

  lemma {:induction false} WorkBound(workers: map<nat, Worker>)
    ensures WorkLeft(workers) <= 9 * |workers|
    decreases workers.Keys
  {
    if workers == map[] {
    } else {
      var v :| v in workers;
      WorkSplit(workers, v);
      WorkBound(workers - {v});
      assert (workers - {v}).Keys == workers.Keys - {v};
    }
  }

  lemma MoveAdvances(mode: Mode, s: State, who: nat, act: Action)
    requires who in s.workers && !act.Spawn? && !act.OpenAccount? && Enabled(s, Event(who, act))
    ensures var w := s.workers[who];
            match act
            case OnCard(a) => Left(CardMove(s, who, w, a).pc) < Left(w.pc)
            case OnBegin(a) => Left(BeginMove(s, who, w, a).pc) < Left(w.pc)
            case OnRoute(a) => Left(RouteMove(mode, s, who, w, a).pc) < Left(w.pc)
            case OnDeposit(a) => Left(DepositMove(mode, s, who, w, a).pc) < Left(w.pc)
            case OnEnd(a) => Left(EndMove(s, w, a).pc) < Left(w.pc)
            case _ => true
  {
  }

  /** Every step of a worker brings it closer to its outcome. */
  lemma StepAdvances(mode: Mode, s: State, who: nat, act: Action)
    requires who in s.workers && !act.Spawn? && !act.OpenAccount? && Enabled(s, Event(who, act))
    ensures var s' := Next(mode, s, Event(who, act));
            && s'.workers.Keys == s.workers.Keys
            && s'.workers == s.workers[who := s'.workers[who]]
            && Left(s'.workers[who].pc) < Left(s.workers[who].pc)
  {
    MoveAdvances(mode, s, who, act);
  }

  lemma WorkShrinks(mode: Mode, s: State, who: nat, act: Action)
    requires who in s.workers && !act.Spawn? && !act.OpenAccount? && Enabled(s, Event(who, act))
    ensures WorkLeft(Next(mode, s, Event(who, act)).workers) < WorkLeft(s.workers)
    ensures Next(mode, s, Event(who, act)).workers.Keys == s.workers.Keys
  {
    StepAdvances(mode, s, who, act);
    var workers' := Next(mode, s, Event(who, act)).workers;
    WorkSplit(s.workers, who);
    WorkSplit(workers', who);
    assert workers' - {who} == s.workers - {who};
  }

  lemma {:induction false} RunExtends(mode: Mode, events: seq<Event>, e: Event)
    requires IsRun(mode, events) && Enabled(After(mode, events), e)
    ensures IsRun(mode, events + [e]) && After(mode, events + [e]) == Next(mode, After(mode, events), e)
  {
    assert (events + [e])[..|events|] == events;
  }

  ghost predicate AllDone(s: State) {
    forall v :: v in s.workers ==> s.workers[v].pc.Done?
  }

  /** A step towards an outcome; an overflow only where the value does not fit. */
  predicate Onward(mode: Mode, s: State, e: Event) {
    Forward(e.act) && (e.act == OnEnd(Overflow) ==> TooLarge(mode, s, e.who))
  }

  lemma ForwardIsOnward(mode: Mode, s: State, who: nat, act: Action)
    requires Inv(mode, s) && Forward(act) && Enabled(s, Event(who, act))
    ensures Onward(mode, s, Event(who, act))
  {
    if act == OnEnd(Overflow) {
      OverflowOnlyWhenTooLarge(mode, s, who);
    }
  }

  lemma {:induction false} OneMore(mode: Mode, events: seq<Event>) returns (e: Event)
    requires IsRun(mode, events) && !AllDone(After(mode, events))
    ensures IsRun(mode, events + [e]) && Onward(mode, After(mode, events), e)
    ensures WorkLeft(After(mode, events + [e]).workers) < WorkLeft(After(mode, events).workers)
    ensures After(mode, events + [e]).workers.Keys == After(mode, events).workers.Keys
  {
    var s := After(mode, events);
    var v :| v in s.workers && !s.workers[v].pc.Done?;
    var path := NoDeadlock(mode, events, v);
    var who := path[|path| - 1];
    var act: Action :| Forward(act) && Enabled(s, Event(who, act));
    e := Event(who, act);
    RunKeepsInv(mode, events);
    ForwardIsOnward(mode, s, who, act);
    RunExtends(mode, events, e);
    WorkShrinks(mode, s, who, act);
  }

  /** Every event from the given moment on brings some worker closer to its outcome. */
  ghost predicate OnwardFrom(mode: Mode, events: seq<Event>, start: nat) {
    forall i :: start <= i < |events| ==> Onward(mode, After(mode, events[..i]), events[i])
  }

  /**
   From any reachable state the open work can be completed: some continuation without an abort or a
   failed refresh, and with an overflow only where a value does not fit, gives every worker its outcome
   within nine steps for each worker.
   */
  lemma {:induction false} EveryRunCanFinish(mode: Mode, events: seq<Event>) returns (longer: seq<Event>)
    requires IsRun(mode, events)
    ensures events <= longer && IsRun(mode, longer) && AllDone(After(mode, longer))
    ensures After(mode, longer).workers.Keys == After(mode, events).workers.Keys
    ensures OnwardFrom(mode, longer, |events|)
    ensures |longer| - |events| <= 9 * |After(mode, events).workers|
  {
    longer := FinishFrom(mode, events);
    WorkBound(After(mode, events).workers);
  }

  lemma OnwardExtends(mode: Mode, events: seq<Event>, e: Event, longer: seq<Event>)
    requires events + [e] <= longer && OnwardFrom(mode, longer, |events| + 1)
    requires Onward(mode, After(mode, events), e)
    ensures events <= longer && OnwardFrom(mode, longer, |events|)
  {
    assert longer[|events|] == (events + [e])[|events|] == e;
    assert longer[..|events|] == (events + [e])[..|events|] == events;
  }

  lemma {:induction false} FinishFrom(mode: Mode, events: seq<Event>) returns (longer: seq<Event>)
    requires IsRun(mode, events)
    ensures events <= longer && IsRun(mode, longer) && AllDone(After(mode, longer))
    ensures After(mode, longer).workers.Keys == After(mode, events).workers.Keys
    ensures OnwardFrom(mode, longer, |events|)
    ensures |longer| - |events| <= WorkLeft(After(mode, events).workers)
    decreases WorkLeft(After(mode, events).workers)
  {
    if AllDone(After(mode, events)) {
      longer := events;
    } else {
      var e := OneMore(mode, events);
      longer := FinishFrom(mode, events + [e]);
      OnwardExtends(mode, events, e, longer);
    }
  }
}
