/**
 The executor, the reconciler and the scan's selection loop, acting on the intent table and
 on the broker. `trace` logs every persisted write and every broker call as a step of
 `OrderProtocol`, and `Valid` says that the log is one of its runs: what `OrderSafety`
 proves of every run therefore holds of this object after every call, and, because a
 prefix of a run is a run, after a crash inside one.
 */
module OrderSystem {
  import opened Wrappers
  import opened Symbols
  import opened Transport
  import opened OrderProtocol
  import opened OrderSafety
  import opened Ranking
  import opened Sessions

  /**
   How a question put to the broker goes: answered and in order, refused or not answered in a
   way the code has a handler for, or answered with something nothing below the scan can name.
   */
  datatype Reading = Fine | Denied | Broke

  /** One pass of the position poll: what the market does first, and how the read goes. */
  datatype Poll = Poll(moves: seq<Action>, reading: Reading)

  /** Everything the world decides during one execute. */
  datatype Script = Script(
    databaseUp: bool, demoAtCreation: bool,
    beforeRead: seq<Action>, positions: Reading, afterRead: seq<Action>,
    spread: Reading, demoAtSubmission: bool, beforeSend: seq<Action>, wire: Wire,
    polls: seq<Poll>)

  /** `Escaped` stands for the exception that leaves an execute without a result. */
  datatype ResultStatus = Aborted | Duplicate | SentUnknown | SentRejected | Unverified | Done | Escaped

  datatype ExecutionResult = ExecutionResult(status: ResultStatus, symbolSpecific: bool)

  /** How many orders hold, or may still come to hold, a position. */
  function LiveCount(orders: seq<Order>): nat {
    if orders == [] then 0
    else LiveCount(orders[..|orders| - 1]) + (if orders[|orders| - 1].Live() then 1 else 0)
  }

  function InFlightCount(orders: seq<Order>): nat {
    if orders == [] then 0
    else InFlightCount(orders[..|orders| - 1]) + (if orders[|orders| - 1].fate == InFlight then 1 else 0)
  }

  lemma {:induction false} LiveIsOpenOrInFlight(orders: seq<Order>)
    ensures LiveCount(orders) == |OpenPositions(orders)| + InFlightCount(orders)
  {
    if orders != [] {
      LiveIsOpenOrInFlight(orders[..|orders| - 1]);
    }
  }

  /** A read lists the positions in the broker's order, so the first match in the list is the broker's first. */
  lemma {:induction false} PositionsAreInOrder(orders: seq<Order>)
    ensures forall i, j :: 0 <= i < j < |OpenPositions(orders)| ==> OpenPositions(orders)[i] < OpenPositions(orders)[j]
  {
    if orders != [] {
      var n := |orders| - 1;
      var earlier := OpenPositions(orders[..n]);
      PositionsAreInOrder(orders[..n]);
      assert forall i :: 0 <= i < |earlier| ==> earlier[i] in earlier && earlier[i] < n;
    }
  }

  lemma {:induction false} LiveCountOnlyFalls(before: seq<Order>, after: seq<Order>)
    requires |before| == |after|
    requires forall i :: 0 <= i < |before| && after[i].Live() ==> before[i].Live()
    ensures LiveCount(after) <= LiveCount(before)
  {
    if before != [] {
      LiveCountOnlyFalls(before[..|before| - 1], after[..|after| - 1]);
    }
  }

  class OrderSystem {
    var intents: map<Key, Intent>     // the persisted intent table
    var orders: seq<Order>            // the broker's record of what it was sent
    var startupComplete: bool
    ghost var pc: Pc
    ghost var trace: seq<Action>

    ghost function Snapshot(): World
      reads this
    {
      World(intents, orders, pc)
    }

    ghost predicate Valid()
      reads this
    {
      Leads(START, trace, Snapshot())
    }

    /** Between calls: trading is permitted exactly when the process is up. */
    ghost predicate AtRest()
      reads this
    {
      Valid() && pc == if startupComplete then Ready else Down
    }

    constructor ()
      ensures AtRest() && Snapshot() == START && !startupComplete && trace == []
    {
      intents, orders, startupComplete, pc, trace := map[], [], false, Down, [];
    }

    /** Logs the step that has just been taken. */
    ghost method Log(before: World, a: Action)
      requires Leads(START, trace, before) && Enabled(before, a)
      requires intents == Next(before, a).intents && orders == Next(before, a).orders
      modifies this`trace, this`pc
      ensures Valid() && trace == old(trace) + [a] && Snapshot() == Next(before, a)
    {
      LeadsStep(START, trace, before, a);
      pc := Next(before, a).pc;
      trace := trace + [a];
    }

    /** One thing happens at the broker: an order in flight lands or dies, or a position closes. */
    method Move(a: Action)
      requires Valid() && (a.Land? || a.Vanish? || a.Close?) && Enabled(Snapshot(), a)
      modifies this`orders, this`trace, this`pc
      ensures Valid() && old(trace) <= trace && pc == old(pc) && SameOrdersLater(old(orders), orders)
      ensures orders == Moved(old(orders), a)
    {
      hide Leads;
      ghost var before := Snapshot();
      var fate := if a.Land? then Open else if a.Vanish? then Dead else Closed;
      orders := orders[a.order := orders[a.order].(fate := fate)];
      Log(before, a);
    }

    /** Time passes: orders in flight land or die, positions close. Impossible moves are ignored. */
    method Elapse(moves: seq<Action>)
      requires Valid()
      modifies this`orders, this`trace, this`pc
      ensures Valid() && old(trace) <= trace && pc == old(pc)
      ensures SameOrdersLater(old(orders), orders) && orders == Elapsed(old(orders), moves)
    {
      hide Leads, SameOrdersLater;
      LaterAtOnce(orders);
      for n := 0 to |moves|
        invariant Valid() && old(trace) <= trace && pc == old(pc) && SameOrdersLater(old(orders), orders)
        invariant orders == Elapsed(old(orders), moves[..n])
      {
        assert moves[..n + 1][..n] == moves[..n];
        var a := moves[n];
        if (a.Land? || a.Vanish? || a.Close?) && a.order < |orders| && orders[a.order].fate == (if a.Close? then Open else InFlight) {
          ghost var earlier := orders;
          Move(a);
          LaterTwice(old(orders), earlier, orders);
        }
      }
      assert moves[..|moves|] == moves;
    }

    /** Is there a position on the plan's instrument? */
    method HasPositionOn(key: Key) returns (found: bool)
      ensures found == PositionOn(Snapshot(), key)
    {
      found := false;
      for i := 0 to |orders|
        invariant found == exists j :: 0 <= j < i && orders[j].fate == Open && Same(orders[j].key, key)
      {
        if orders[i].fate == Open && Same(orders[i].key, key) {
          found := true;
        }
      }
    }

    /** The first position of a read that matches by instrument and side. */
    method FirstMatch(positions: seq<nat>, key: Key) returns (found: Option<nat>)
      ensures found.Some? ==> found.value in positions && Matches(Snapshot(), key, found.value)
      ensures found.Some? ==> exists n: nat :: IsFirstMatch(orders, key, positions, n) && positions[n] == found.value
      ensures found.None? ==> forall p :: p in positions ==> !Matches(Snapshot(), key, p)
    {
      for i := 0 to |positions|
        invariant forall j :: 0 <= j < i ==> !Matches(Snapshot(), key, positions[j])
      {
        var p := positions[i];
        if p < |orders| && Same(orders[p].key, key) && orders[p].key.direction == key.direction {
          assert IsFirstMatch(orders, key, positions, i);
          return Some(p);
        }
      }
      return None;
    }

    /** An exception without a handler leaves the running execute or reconcile; nothing is written. */
    method Flee()
      requires Valid() && (pc.Executing? || pc.Settling?)
      modifies this`trace, this`pc
      ensures Valid() && old(trace) <= trace && pc == Ready
    {
      ghost var before := Snapshot();
      Log(before, OrderProtocol.Action.Escape);
    }

    /** Is there another unresolved intent on the instrument? */
    method HasRival(key: Key) returns (found: bool)
      ensures found == OtherUnresolved(Snapshot(), key)
    {
      found := exists k :: k in intents && intents[k].Unresolved() && k != key && Same(k, key);
    }

    /** The first half of the check: the positions, as the broker lists them now. */
    method PositionsCheck(key: Key, s: Script) returns (r: Reading)
      requires Valid() && pc == Executing(key, Armed)
      modifies this`orders, this`trace, this`pc
      ensures Valid() && old(trace) <= trace && SameOrdersLater(old(orders), orders)
      ensures orders == Elapsed(old(orders), s.beforeRead)
      ensures r == Broke <==> s.positions == Broke
      ensures r == Fine <==> s.positions == Fine && NothingHeldOn(orders, key)
      ensures r == Broke ==> pc == Ready
      ensures r == Fine ==> pc == Executing(key, PositionsClear)
      ensures r == Denied ==> pc == Executing(key, Armed) && (s.positions == Denied || !NoLiveOn(old(Snapshot()), key))
    {
      Elapse(s.beforeRead);
      if s.positions == Broke {
        Flee();
        return Broke;
      }
      if s.positions == Denied {
        return Denied;
      }
      var held := HasPositionOn(key);
      if held {
        return Denied;
      }
      ghost var before := Snapshot();
      Log(before, ClearPositions);
      return Fine;
    }

    /** Step 4: the live duplicate check, first against the broker and then against the intents. */
    method FreshDuplicateCheck(key: Key, s: Script) returns (r: Reading)
      requires Valid() && pc == Executing(key, Armed)
      modifies this`orders, this`trace, this`pc
      ensures Valid() && old(trace) <= trace && SameOrdersLater(old(orders), orders)
      ensures r == Broke <==> s.positions == Broke
      ensures r == Broke ==> pc == Ready
      // it passes exactly on a readable list with nothing on the instrument and no rival intent
      ensures r == Fine <==> Clears(key, s, intents, old(orders))
      ensures r == Fine ==> orders == Elapsed(Elapsed(old(orders), s.beforeRead), s.afterRead)
      // passed: the list was readable, no order on the instrument is open or may open, no other intent is unresolved
      ensures r == Fine ==> s.positions == Fine && pc == Executing(key, Cleared)
      ensures r == Fine ==> NoLiveOn(Snapshot(), key) && NoRival(Snapshot(), key)
      // refused: the list was unreadable, an order on the instrument may hold a position, or another intent is unresolved
      ensures r == Denied ==> pc in {Executing(key, Armed), Executing(key, PositionsClear)}
      ensures r == Denied ==> s.positions == Denied || !NoLiveOn(old(Snapshot()), key) || !NoRival(old(Snapshot()), key)
    {
      hide PositionOn, Enabled, Next, Leads, NothingHeldOn;
      r := PositionsCheck(key, s);
      if r != Fine {
        return;
      }
      Elapse(s.afterRead);
      var rival := HasRival(key);
      if rival {
        RivalsAreRivals(Snapshot(), key);
        return Denied;
      }
      ghost var before := Snapshot();
      ClearedWhen(before, key);
      Log(before, ClearIntents);
      ClearedMeansClear(trace, Snapshot());
    }

    /** Persists the outcome of a step on one intent. */
    method Persist(key: Key, row: Intent, ghost a: Action)
      requires Valid() && Enabled(Snapshot(), a)
      requires intents[key := row] == Next(Snapshot(), a).intents && orders == Next(Snapshot(), a).orders
      modifies this`intents, this`trace, this`pc
      ensures Valid() && old(trace) <= trace
      ensures intents == old(intents)[key := row] && pc == Next(old(Snapshot()), a).pc
    {
      ghost var before := Snapshot();
      intents := intents[key := row];
      Log(before, a);
    }

    /** One look for the plan's position: the first match in the broker's order. */
    method LookForPosition(key: Key) returns (found: Option<nat>)
      requires Valid() && pc == Executing(key, Acked)
      modifies this`trace, this`pc
      ensures Valid() && old(trace) <= trace
      ensures found.Some? ==> pc == Executing(key, Seen(found.value)) && FirstOpenMatch(orders, key, found.value)
      ensures found.None? ==> pc == old(pc) && !HasOpenMatch(orders, key)
    {
      hide Leads;
      for i := 0 to |orders|
        invariant Valid() && trace == old(trace) && pc == old(pc)
        invariant forall j :: 0 <= j < i ==> !OpenMatch(orders, key, j)
      {
        if orders[i].fate == Open && Same(orders[i].key, key) && orders[i].key.direction == key.direction {
          ghost var before := Snapshot();
          Log(before, SeePosition(i));
          return Some(i);
        }
      }
      return None;
    }

    /** One pass of the poll: time passes, the positions are read, and the plan's is looked for. */
    method PollOnce(key: Key, poll: Poll) returns (found: Option<nat>)
      requires Valid() && pc == Executing(key, Acked)
      modifies this`orders, this`trace, this`pc
      ensures Valid() && old(trace) <= trace && SameOrdersLater(old(orders), orders)
      ensures orders == Elapsed(old(orders), poll.moves)
      ensures found.Some? <==> poll.reading == Fine && HasOpenMatch(orders, key)
      ensures found.Some? ==> pc == Executing(key, Seen(found.value)) && FirstOpenMatch(orders, key, found.value)
      ensures found.None? ==> pc == if poll.reading == Broke then Ready else old(pc)
    {
      hide Leads;
      Elapse(poll.moves);
      if poll.reading == Fine {
        found := LookForPosition(key);
        if found.Some? {
          assert OpenMatch(orders, key, found.value);
        }
      } else {
        if poll.reading == Broke {
          Flee();
        }
        found := None;
      }
    }

    /** Step 8: poll for the resulting position, a bounded number of times. */
    method VerifyPosition(key: Key, polls: seq<Poll>) returns (found: Option<nat>, broke: bool)
      requires Valid() && pc == Executing(key, Acked)
      modifies this`orders, this`trace, this`pc
      ensures Valid() && old(trace) <= trace && SameOrdersLater(old(orders), orders)
      // what it returns is open and matches the plan by instrument and side
      ensures found.Some? ==> !broke && pc == Executing(key, Seen(found.value))
      ensures found.Some? ==> FirstOpenMatch(orders, key, found.value)
      // and it returns one exactly when a readable poll, before any that breaks, has one
      ensures found.Some? <==> PollFinds(old(orders), polls, key)
      ensures broke <==> PollBreaks(old(orders), polls, key)
      ensures broke ==> pc == Ready && exists n :: 0 <= n < |polls| && polls[n].reading == Broke
      ensures found.None? && !broke ==> pc == old(pc) && forall n :: 0 <= n < |polls| ==> polls[n].reading != Broke
    {
      hide ByPoll, HasOpenMatch, OpenMatch, Leads, SameOrdersLater;
      NoPollYet(orders, polls);
      LaterAtOnce(orders);
      for n := 0 to |polls|
        invariant Valid() && old(trace) <= trace && pc == old(pc) && SameOrdersLater(old(orders), orders)
        invariant orders == ByPoll(old(orders), polls, n)
        invariant forall m :: 0 <= m < n ==> polls[m].reading != Broke && !FoundAt(old(orders), polls, key, m)
      {
        ghost var earlier := orders;
        OnePollLater(old(orders), polls, n);
        found := PollOnce(key, polls[n]);
        LaterTwice(old(orders), earlier, orders);
        assert found.Some? <==> FoundAt(old(orders), polls, key, n);
        if found.Some? || polls[n].reading == Broke {
          return found, found.None?;
        }
      }
      return None, false;
    }

    /** The one write of an execute: what it did to the broker's record, and the order id its answer carries. */
    method SendOrder(key: Key, wire: Wire) returns (orderId: Option<nat>)
      requires Valid() && pc == Executing(key, Sending)
      modifies this`orders, this`trace, this`pc
      ensures Valid() && old(trace) <= trace
      ensures pc == Executing(key, Answered(Classify(wire, true), orderId)) && orderId == IdAnswered(wire, old(orders))
      ensures orders == AfterSend(old(orders), key, wire) && OneMore(old(orders), orders, key)
    {
      hide Leads;
      ghost var before := Snapshot();
      orderId := ReturnedId(orders, wire);
      orders := AfterSend(orders, key, wire);
      Log(before, Send(wire));
      assert orders[..|old(orders)|] == old(orders);
    }

    /** What the polls found is persisted: FILLED with its position, or AMBIGUOUS. */
    method PersistFinding(key: Key, found: Option<nat>)
      requires Valid() && key in intents && pc == Executing(key, if found.Some? then Seen(found.value) else Acked)
      modifies this`intents, this`trace, this`pc
      ensures Valid() && old(trace) <= trace && pc == Ready && OnlyRow(old(intents), intents, key) && key in intents
      ensures intents[key] == if found.Some? then old(intents[key]).(status := Filled, positionId := found)
                              else old(intents[key]).(status := Ambiguous, reason := Some(NoPositionSeen))
    {
      hide Leads;
      if found.None? {
        Persist(key, Mark(intents[key], Ambiguous, None, None, Some(NoPositionSeen)), SeeNothing);
      } else {
        Persist(key, Mark(intents[key], Filled, None, found, None), MarkFilled);
      }
    }

    /** Step 8: an order id is not a fill, so the position is looked for before FILLED is persisted. */
    method VerifyAndRecord(key: Key, polls: seq<Poll>) returns (status: ResultStatus)
      requires Valid() && pc == Executing(key, Acked) && key in intents && intents[key].status == Acknowledged
      modifies this`intents, this`orders, this`trace, this`pc
      ensures Valid() && old(trace) <= trace && pc == Ready
      ensures SameOrdersLater(old(orders), orders) && OnlyRow(old(intents), intents, key)
      ensures status in {Unverified, Done, Escaped} && Recorded(status, intents, orders, key)
      ensures status == Done <==> PollFinds(old(orders), polls, key)
      ensures status == Escaped <==> PollBreaks(old(orders), polls, key)
      // the id of the answer is kept, and the position recorded is the first that matches
      ensures key in intents && intents[key].orderId == old(intents[key]).orderId
      ensures status == Done ==> intents[key].positionId.Some? && FirstOpenMatch(orders, key, intents[key].positionId.value)
    {
      hide OpenMatch, Leads, PollFinds, PollBreaks, SameOrdersLater, Enabled, Next;
      NothingYet(intents, orders, key);
      var found, broke := VerifyPosition(key, polls);
      if broke {
        return Escaped;
      }
      if found.Some? {
        SeenPositionIsOwn(trace, Snapshot());
      }
      PersistFinding(key, found);
      return if found.Some? then Done else Unverified;
    }

    /** The answer to the one write is persisted, unless it is one that no handler names. */
    method PersistAnswer(key: Key, outcome: Outcome, orderId: Option<nat>)
      requires Valid() && key in intents && intents[key] == Intent(Submitted, None, None, None)
      requires pc == Executing(key, Answered(outcome, orderId)) && !outcome.Raised?
      modifies this`intents, this`trace, this`pc
      ensures Valid() && old(trace) <= trace && OnlyRow(old(intents), intents, key) && key in intents
      ensures pc == if outcome.Accepted? then Executing(key, Acked) else Ready
      ensures intents[key] ==
              if outcome.Accepted? then Intent(Acknowledged, orderId, None, None)
              else if outcome.Rejected? then Intent(Failed, None, None, Some(BrokerRefused))
              else Intent(Ambiguous, None, None, Some(OutcomeUnknown))
    {
      hide Leads;
      Persist(key, MarkedAnswer(intents[key], outcome, orderId), MarkAnswer);
    }

    /** Step 7: the one write, and the row as its answer leaves it. `last` is set when nothing more is to be done. */
    method SubmitOnce(key: Key, wire: Wire) returns (last: Option<ResultStatus>)
      requires Valid() && pc == Executing(key, Sending)
      requires key in intents && intents[key] == Intent(Submitted, None, None, None)
      modifies this`intents, this`orders, this`trace, this`pc
      ensures Valid() && old(trace) <= trace
      ensures OnlyRow(old(intents), intents, key) && OneMore(old(orders), orders, key) && key in intents
      ensures last.None? <==> wire.Reply?
      ensures last == Some(SentRejected) <==> Refuses(wire)
      ensures last == Some(Escaped) <==> wire.BrokenReply? || wire.BrokenError?
      ensures orders == if wire == NotSent then old(orders) else old(orders) + [Order(key, if MayHaveLanded(wire) then InFlight else Dead)]
      ensures last.None? ==> pc == Executing(key, Acked)
      ensures last.None? ==> intents[key] == Intent(Acknowledged, IdAnswered(wire, old(orders)), None, None)
      ensures last.Some? ==> pc == Ready && last.value in {SentRejected, SentUnknown, Escaped} && Recorded(last.value, intents, orders, key)
    {
      hide Leads, OneMore, Enabled, Next;
      NothingYet(intents, orders, key);
      var orderId := SendOrder(key, wire);
      var outcome := Classify(wire, true);
      if outcome.Raised? {
        Flee();
        return Some(Escaped);
      }
      PersistAnswer(key, outcome, orderId);
      if outcome.Rejected? {
        return Some(SentRejected);
      }
      return if outcome.Accepted? then None else Some(SentUnknown);
    }

    /** Steps 7 and 8, from SUBMITTED on: send once, persist the answer, and look for the position. */
    method SubmitAndVerify(key: Key, s: Script) returns (r: ExecutionResult)
      requires Valid() && pc == Executing(key, Sending)
      requires key in intents && intents[key] == Intent(Submitted, None, None, None)
      modifies this`intents, this`orders, this`trace, this`pc
      ensures Valid() && old(trace) <= trace && pc == Ready
      ensures OnlyRow(old(intents), intents, key) && OneMore(old(orders), orders, key)
      ensures !r.symbolSpecific && Recorded(r.status, intents, orders, key)
      ensures r.status in {SentRejected, SentUnknown, Unverified, Done, Escaped}
      ensures |orders| == |old(orders)| + (if s.wire == NotSent then 0 else 1)
      ensures EndsAs(r.status, s, old(orders), key)
      ensures r.status in {Done, Unverified} ==> key in intents && intents[key].orderId == IdAnswered(s.wire, old(orders))
      ensures r.status == Done ==> intents[key].positionId.Some? && FirstOpenMatch(orders, key, intents[key].positionId.value)
    {
      hide Leads, Recorded, OnlyRow, FirstOpenMatch, Enabled, Next, PollFinds, PollBreaks, Refuses, SameOrdersLater, OneMore;
      var last := SubmitOnce(key, s.wire);
      if last.Some? {
        return ExecutionResult(last.value, false);
      }
      ghost var sent, kept := orders, intents;
      var status := VerifyAndRecord(key, s.polls);
      OneMoreStaysOneMore(old(orders), sent, orders, key);
      LaterIsAsMany(sent, orders);
      OnlyRowTwice(old(intents), kept, intents, key);
      return ExecutionResult(status, false);
    }

    /** Step 3: persists a new intent, or re-arms the old one; false when neither is allowed. */
    method ArmIntent(key: Key) returns (armed: bool)
      requires Valid() && pc == Ready
      modifies this`intents, this`trace, this`pc
      ensures Valid() && old(trace) <= trace
      ensures armed <==> (key in old(intents) ==> old(intents)[key].Rearmable())
      ensures armed ==> pc == Executing(key, Armed) && intents == old(intents)[key := NewIntent()]
      ensures !armed ==> pc == Ready && intents == old(intents)
    {
      hide Leads;
      if key in intents {
        if !intents[key].Rearmable() {
          return false;
        }
        Persist(key, Rearmed(intents[key]), Rearm(key));
      } else {
        Persist(key, NewIntent(), Arm(key));
      }
      return true;
    }

    /** Steps 4 to 7: every check on an armed intent, up to persisting SUBMITTED; or the result that ends it. */
    method CheckAndMark(key: Key, s: Script) returns (last: Option<ExecutionResult>)
      requires Valid() && pc == Executing(key, Armed) && key in intents && intents[key] == NewIntent()
      modifies this`intents, this`orders, this`trace, this`pc
      ensures Valid() && old(trace) <= trace && SameOrdersLater(old(orders), orders) && key in intents
      ensures OnlyRow(old(intents), intents, key)
      ensures last.None? ==> pc == Executing(key, Sending) && intents[key] == Intent(Submitted, None, None, None)
      // it goes on to send exactly when every check passes
      ensures last.None? <==> Clears(key, s, old(intents), old(orders)) && s.spread == Fine && s.demoAtSubmission
      ensures last.None? ==> orders == Elapsed(Elapsed(old(orders), s.beforeRead), s.afterRead)
      ensures last.Some? ==>
                (last.value.status == Escaped
                 <==> s.positions == Broke || (Clears(key, s, old(intents), old(orders)) && s.spread == Broke))
      ensures last.Some? && last.value.status == Aborted ==>
                (last.value.symbolSpecific <==> !Clears(key, s, old(intents), old(orders)) || s.spread == Denied)
      ensures last.Some? ==> pc == Ready && last.value.status in {Aborted, Escaped} && Recorded(last.value.status, intents, orders, key)
      ensures last.Some? && last.value.symbolSpecific ==> last.value.status == Aborted
    {
      hide Leads, NoLiveOn, NoRival, Clears;
      var check := FreshDuplicateCheck(key, s);
      if check == Broke {
        return Some(ExecutionResult(Escaped, false));
      }
      if check == Fine && s.spread == Broke {
        Flee();
        return Some(ExecutionResult(Escaped, false));
      }
      if check == Denied || s.spread == Denied || !s.demoAtSubmission {
        Persist(key, Mark(NewIntent(), Failed, None, None, Some(Refused)), Refuse);
        return Some(ExecutionResult(Aborted, check == Denied || s.spread == Denied));
      }
      Persist(key, Mark(NewIntent(), Submitted, None, None, None), MarkSubmitted);
      return None;
    }

    /**
     Steps 1 to 8 for one plan. The demo and spread gates and the market come from the script.
     At most one order leaves, only for this plan, and never on a symbol-specific refusal.
     */
    method Execute(key: Key, s: Script) returns (r: ExecutionResult)
      requires Valid() && pc == Ready
      modifies this`intents, this`orders, this`trace, this`pc
      ensures Valid() && old(trace) <= trace && pc == Ready
      ensures OnlyRow(old(intents), intents, key) && OneMore(old(orders), orders, key)
      ensures r.status in {Aborted, Duplicate} || r.symbolSpecific ==> |orders| == |old(orders)|
      ensures r.status == Duplicate <==>
                s.databaseUp && s.demoAtCreation && key in old(intents) && !old(intents)[key].Rearmable()
      ensures r.status == Duplicate || !s.databaseUp || !s.demoAtCreation ==> intents == old(intents)
      ensures s.databaseUp && s.demoAtCreation ==> Recorded(r.status, intents, orders, key)
      // an order leaves exactly when every gate is open, and then the outcome is what became of it
      ensures |orders| == |old(orders)| + 1 <==> Submits(key, s, old(intents), old(orders)) && s.wire != NotSent
      ensures Submits(key, s, old(intents), old(orders)) ==>
                !r.symbolSpecific && EndsAs(r.status, s, WhenSent(old(orders), s), key)
      // the row keeps the id of the answer, and the position recorded is the broker's first that matches
      ensures r.status in {Done, Unverified} ==> key in intents && intents[key].orderId == IdAnswered(s.wire, old(orders))
      ensures r.status == Done ==> intents[key].positionId.Some? && FirstOpenMatch(orders, key, intents[key].positionId.value)
      ensures !Submits(key, s, old(intents), old(orders)) ==>
                r.status in {Aborted, Duplicate, Escaped} && |orders| == |old(orders)|
      ensures !Submits(key, s, old(intents), old(orders)) ==>
                (r.status == Escaped
                 <==> Arms(key, s, old(intents))
                      && (s.positions == Broke || (Clears(key, s, old(intents), old(orders)) && s.spread == Broke)))
      // the refusal concerns this symbol alone exactly when the check or the spread gate refused
      ensures r.symbolSpecific <==>
                Arms(key, s, old(intents)) && s.positions != Broke
                && (!Clears(key, s, old(intents), old(orders)) || s.spread == Denied)
    {
      hide Leads, OnlyRow, SameOrdersLater, OneMore, Clears, EndsAs, Recorded, Elapsed, FirstOpenMatch, Enabled, Next;
      NothingYet(intents, orders, key);
      if !s.databaseUp || !s.demoAtCreation {
        return ExecutionResult(Aborted, false);
      }
      var armed := ArmIntent(key);
      if !armed {
        AlreadyRecorded(intents, orders, key);
        return ExecutionResult(Duplicate, false);
      }
      ghost var withRow := intents;
      OnlyRowWritten(old(intents), key, NewIntent());
      ArmingClearsNothing(key, s, old(intents), old(orders));
      var last := CheckAndMark(key, s);
      OnlyRowTwice(old(intents), withRow, intents, key);
      LaterIsNoneMore(old(orders), orders, key);
      if last.Some? {
        return last.value;
      }
      ghost var checked := orders;
      Elapse(s.beforeSend);
      LaterTwice(old(orders), checked, orders);
      ghost var later, marked := orders, intents;
      r := SubmitAndVerify(key, s);
      OnlyRowTwice(old(intents), marked, intents, key);
      LaterThenOneMore(old(orders), later, orders, key);
      LaterIsAsMany(old(orders), later);
    }

    // -------------------------------------------------------------- reconciling

    /** The unresolved intents, each once. */
    method Unresolved() returns (todo: seq<Key>)
      ensures ListsUnresolved(intents, todo)
    {
      todo := [];
      var rest := set k | k in intents && intents[k].Unresolved();
      while rest != {}
        invariant forall k :: k in intents && intents[k].Unresolved() <==> k in rest || k in todo
        invariant forall k :: k in todo ==> k !in rest
        invariant forall i, j :: 0 <= i < j < |todo| ==> todo[i] != todo[j]
      {
        var k :| k in rest;
        rest := rest - {k};
        todo := todo + [k];
      }
    }

    /**
     Settles one unresolved intent against a read of the broker. The order history is asked only
     when no position matches; `Fine` means it holds the recorded order, `Denied` that it does not
     or could not be read.
     */
    method SettleOne(key: Key, positions: seq<nat>, history: Reading) returns (settled: bool)
      requires Valid() && pc.Settling? && pc.todo != [] && pc.todo[0] == key && pc.seen == positions
      requires key in intents && intents[key].Unresolved()
      modifies this`intents, this`trace, this`pc
      ensures Valid() && old(trace) <= trace && key in intents
      ensures !settled ==> history == Broke && pc == old(pc) && intents == old(intents)
      ensures settled ==> pc == Settling(old(pc).todo[1..], positions)
      ensures settled ==>
                OnlyRow(old(intents), intents, key) && SettledRow(old(intents)[key], intents[key], key, orders, positions, history)
      ensures !settled <==> Stuck(orders, positions, key, history)
    {
      hide Leads;
      var found := FirstMatch(positions, key);
      if found.Some? {
        Persist(key, Mark(intents[key], Filled, None, found, None), SettleFilled(found.value));
        return true;
      }
      if history == Broke {
        return false;
      }
      var recorded := intents[key].orderId;
      if history == Fine && recorded.Some? && recorded.value < |orders| {
        Persist(key, Mark(intents[key], Filled, None, None, None), SettleHistorical);
        return true;
      }
      Persist(key, Abandonment(intents[key]), SettleAbandoned);
      return true;
    }

    /** Reads the positions and the unresolved intents; what was in flight and is absent never lands. */
    method ReadBrokerState() returns (todo: seq<Key>, positions: seq<nat>)
      requires Valid() && pc in {Ready, Down}
      modifies this`orders, this`trace, this`pc
      ensures Valid() && old(trace) <= trace && pc == Settling(todo, positions)
      ensures ListsUnresolved(intents, todo) && positions == OpenPositions(old(orders))
      ensures SameOrdersLater(old(orders), orders)
      ensures forall history :: Progress(intents, intents, todo, 0, old(orders), positions, history)
    {
      todo := Unresolved();
      positions := OpenPositions(orders);
      ghost var before := Snapshot();
      orders := AllSettled(orders);
      Log(before, ReadBroker(todo));
    }

    method FinishSettling()
      requires Valid() && pc.Settling? && pc.todo == []
      modifies this`trace, this`pc
      ensures Valid() && old(trace) <= trace && pc == Ready
    {
      ghost var before := Snapshot();
      Log(before, EndSettling);
    }

    /**
     A reconcile whose position read succeeded. Every intent unresolved at its start ends
     FILLED or ABANDONED by what the broker had at the read, and no other row changes; unless a
     history reply breaks, which leaves the pass with the rest of the list as it was.
     */
    method ResolveIntents(history: map<Key, Reading>, pauses: map<Key, seq<Action>>) returns (resolved: seq<Key>, finished: bool)
      requires Valid() && pc in {Ready, Down}
      modifies this`intents, this`orders, this`trace, this`pc
      ensures Valid() && old(trace) <= trace && pc == Ready
      ensures SameOrdersLater(old(orders), orders)
      ensures intents.Keys == old(intents).Keys
      ensures finished ==> forall k :: k in resolved <==> k in old(intents) && old(intents)[k].Unresolved()
      ensures !finished ==> exists k ::
                k in history && k in intents && intents[k].Unresolved() && Stuck(old(orders), OpenPositions(old(orders)), k, history[k])
      ensures forall k :: k in resolved ==> k in old(intents) && old(intents)[k].Unresolved()
      ensures forall k :: k in intents && k !in resolved ==> intents[k] == old(intents)[k]
      ensures forall k :: k in intents && k in resolved ==>
                SettledRow(old(intents)[k], intents[k], k, old(orders), OpenPositions(old(orders)), HistoryOf(history, k))
    {
      hide Leads, SettledRow, Progress, ListsUnresolved, SameOrdersLater, Stuck;
      var todo, positions := ReadBrokerState();
      var n := 0;
      while n < |todo|
        invariant n <= |todo|
        invariant Valid() && old(trace) <= trace && pc == Settling(todo[n..], positions)
        invariant SameOrdersLater(old(orders), orders)
        invariant Progress(old(intents), intents, todo, n, old(orders), positions, history)
      {
        var key := todo[n];
        ghost var soFar, earlier := intents, orders;
        assert todo[n..][0] == key && todo[n..][1..] == todo[n + 1..];
        NextIsUntouched(old(intents), intents, todo, n, old(orders), positions, history);
        Elapse(if key in pauses then pauses[key] else []);
        LaterTwice(old(orders), earlier, orders);
        var settled := SettleOne(key, positions, HistoryOf(history, key));
        if !settled {
          Flee();
          StuckIgnoresTime(old(orders), orders, positions, key, HistoryOf(history, key));
          ProgressMeans(old(intents), intents, todo, n, old(orders), positions, history);
          return todo[..n], false;
        }
        SettledRowIgnoresTime(soFar[key], intents[key], key, old(orders), orders, positions, HistoryOf(history, key));
        ProgressStep(old(intents), soFar, intents, todo, n, old(orders), positions, history);
        n := n + 1;
      }
      FinishSettling();
      ProgressMeans(old(intents), intents, todo, n, old(orders), positions, history);
      assert todo[..n] == todo;
      return todo, true;
    }

    /**
     The startup sequence after the session, demo and database gates. It completes even when
     the reconcile could not read the broker's positions; then nothing was settled. Only an
     answer without a handler stops it, and then nothing may trade.
     */
    method Startup(positions: Reading, history: map<Key, Reading>, pauses: map<Key, seq<Action>>)
      requires AtRest() && !startupComplete
      modifies this
      ensures AtRest() && old(trace) <= trace
      ensures SameOrdersLater(old(orders), orders)
      ensures startupComplete <== positions == Denied || (positions == Fine && forall k :: k in history ==> history[k] != Broke)
      ensures startupComplete ==> positions != Broke
      ensures !startupComplete && positions == Fine ==> exists k ::
                k in history && k in intents && intents[k].Unresolved() && Stuck(old(orders), OpenPositions(old(orders)), k, history[k])
      ensures startupComplete && positions == Fine ==> forall k :: k in intents ==> !intents[k].Unresolved()
      ensures startupComplete && positions == Fine ==> SettledTable(old(intents), intents, old(orders), history)
      ensures positions != Fine ==> intents == old(intents)
    {
      hide Leads;
      if positions == Fine {
        var resolved, finished := ResolveIntents(history, pauses);
        if !finished {
          ghost var before := Snapshot();
          Log(before, Crash);
          return;
        }
      } else if positions == Denied {
        ghost var before := Snapshot();
        Log(before, StartBlind);
      } else {
        return;
      }
      startupComplete := true;
    }

    /** The periodic reconcile of a running process; `clean` is false when it could not, or did not, get to the end. */
    method Reconcile(positions: Reading, history: map<Key, Reading>, pauses: map<Key, seq<Action>>) returns (clean: bool)
      requires AtRest() && startupComplete
      modifies this
      ensures AtRest() && startupComplete && old(trace) <= trace
      ensures SameOrdersLater(old(orders), orders)
      ensures clean ==> positions == Fine && forall k :: k in intents ==> !intents[k].Unresolved()
      ensures clean ==> SettledTable(old(intents), intents, old(orders), history)
      ensures positions == Fine && (forall k :: k in history ==> history[k] != Broke) ==> clean
      ensures positions == Fine && !clean ==> exists k ::
                k in history && k in intents && intents[k].Unresolved() && Stuck(old(orders), OpenPositions(old(orders)), k, history[k])
      ensures positions != Fine ==> intents == old(intents)
    {
      hide Leads;
      clean := false;
      if positions == Fine {
        var resolved, finished := ResolveIntents(history, pauses);
        clean := finished;
      }
    }

    /** The process dies: memory is lost, the intent table and the broker are not. */
    method Restart()
      requires Valid()
      modifies this
      ensures AtRest() && !startupComplete && old(trace) <= trace
      ensures intents == old(intents) && orders == old(orders)
    {
      ghost var before := Snapshot();
      Log(before, Crash);
      startupComplete := false;
    }

    // -------------------------------------------------------------- scanning

    /**
     Works down the ranking while a refusal is about that symbol alone: one order at most goes out.
     `tried` counts the contenders attempted, best first.
     */
    method ExecuteBest(executable: seq<(Merit, (Key, Script))>) returns (last: Option<ExecutionResult>, tried: nat)
      requires Valid() && pc == Ready
      modifies this`intents, this`orders, this`trace, this`pc
      ensures Valid() && old(trace) <= trace && pc == Ready
      ensures |orders| <= |old(orders)| + 1
      ensures LiveCount(orders) <= LiveCount(old(orders)) + |orders| - |old(orders)|
      ensures tried <= |Ranked(executable)| && (tried == 0 <==> Ranked(executable) == []) && (tried == 0 <==> last.None?)
      // the best contender is tried first, and when every gate is open to it its order goes out
      ensures Ranked(executable) != [] && Submits(Ranked(executable)[0].1.0, Ranked(executable)[0].1.1, old(intents), old(orders)) ==>
                tried == 1 && (|orders| == |old(orders)| + 1 <==> Ranked(executable)[0].1.1.wire != NotSent)
      // only a symbol-specific refusal lets the loop pass a contender, so a sent order is the last one tried
      ensures tried < |Ranked(executable)| && last.Some? ==> last.value.status == Done || !last.value.symbolSpecific
      ensures last.Some? && (last.value.symbolSpecific || last.value.status in {Aborted, Duplicate}) ==>
                |orders| == |old(orders)|
      // an order that went out is the last contender's, and none ranked above it was sent
      ensures |orders| > |old(orders)| ==> tried > 0 && orders[|old(orders)|].key == Ranked(executable)[tried - 1].1.0
    {
      last := None;
      var ranked := Ranked(executable);
      tried := 0;
      while tried < |ranked|
        invariant tried <= |ranked|
        invariant Valid() && old(trace) <= trace && pc == Ready
        invariant |orders| == |old(orders)| && LiveCount(orders) <= LiveCount(old(orders))
        invariant tried > 0 ==> last.Some? && last.value.symbolSpecific
        invariant tried == 0 ==> last.None? && intents == old(intents) && orders == old(orders)
        invariant tried > 0 ==> !Submits(ranked[0].1.0, ranked[0].1.1, old(intents), old(orders))
      {
        var r := Execute(ranked[tried].1.0, ranked[tried].1.1);
        tried := tried + 1;
        last := Some(r);
        if r.status == Done || !r.symbolSpecific {
          return;
        }
      }
    }

    /**
     One scan under the position limit. The gates are asked in order, and the first one that is
     shut ends the scan before anything is evaluated. What the scan may add is bounded by what
     it can see: the positions open at its account read. Orders still in flight are the slack.
     */
    method Scan(maxOpen: nat, gates: Gates, evaluate: seq<Action>, executable: seq<(Merit, (Key, Script))>)
      returns (skipped: Option<Skip>, last: Option<ExecutionResult>, tried: nat)
      requires AtRest()
      modifies this
      ensures AtRest() && old(trace) <= trace && startupComplete == old(startupComplete)
      ensures skipped == FirstShut(startupComplete, gates)
      ensures skipped.Some? ==> Snapshot() == old(Snapshot())
      ensures Scanned(maxOpen, old(orders), orders)
      // with a slot free it works down the ranking, and the best contender's order goes out if nothing stops it
      ensures tried > 0 <==> skipped.None? && |OpenPositions(old(orders))| < maxOpen && Ranked(executable) != []
      ensures tried > 0 && Submits(Ranked(executable)[0].1.0, Ranked(executable)[0].1.1, old(intents), Elapsed(old(orders), evaluate)) ==>
                tried == 1 && last.Some?
                && (|orders| == |old(orders)| + 1 <==> Ranked(executable)[0].1.1.wire != NotSent)
    {
      hide Leads, Submits;
      skipped, last, tried := FirstShut(startupComplete, gates), None, 0;
      if !startupComplete {
        return Some(NotStarted), None, 0;
      }
      if !gates.trading {
        return Some(Paused), None, 0;
      }
      if IsForexWeekend(gates.minute) {
        return Some(MarketClosed), None, 0;
      }
      if !gates.demoVerified {
        return Some(NotDemo), None, 0;
      }
      if !gates.accountRead {
        return Some(NoAccount), None, 0;
      }
      if gates.tripped || gates.killed {
        return Some(Killed), None, 0;
      }
      var open := OpenPositions(orders);
      LiveIsOpenOrInFlight(orders);
      Elapse(evaluate);
      SettledLives(old(orders), orders);
      if |open| >= maxOpen {
        return;
      }
      last, tried := ExecuteBest(executable);
    }

    /** What happens to the account between two scans. */
    method Between(cycle: Cycle)
      requires AtRest()
      modifies this
      ensures AtRest() && old(trace) <= trace && startupComplete == old(startupComplete)
      ensures SameOrdersLater(old(orders), orders)
    {
      hide Leads, SameOrdersLater;
      Elapse(cycle.between);
      ghost var earlier := orders;
      if startupComplete && cycle.reconciles {
        var clean := Reconcile(cycle.positions, cycle.history, map[]);
        LaterTwice(old(orders), earlier, orders);
      }
    }

    /** The scheduler's scan job: what happens to the account between scans, then a scan, again and again. */
    method RunScans(maxOpen: nat, cycles: seq<Cycle>) returns (ghost before: seq<seq<Order>>, ghost after: seq<seq<Order>>)
      requires AtRest()
      modifies this
      ensures AtRest() && old(trace) <= trace
      ensures |before| == |after| == |cycles| && OneScanAfterAnother(maxOpen, old(orders), before, after)
      ensures orders == if after == [] then old(orders) else after[|after| - 1]
    {
      hide Leads, Scanned, SameOrdersLater, OneScanAfterAnother;
      before, after := [], [];
      NoScanYet(maxOpen, orders);
      for n := 0 to |cycles|
        invariant AtRest() && old(trace) <= trace && |before| == |after| == n
        invariant OneScanAfterAnother(maxOpen, old(orders), before, after)
        invariant orders == if n == 0 then old(orders) else after[n - 1]
      {
        Between(cycles[n]);
        ghost var asked := orders;
        var skipped, last, tried := Scan(maxOpen, cycles[n].gates, cycles[n].evaluate, cycles[n].executable);
        AnotherScan(maxOpen, old(orders), before, after, asked, orders);
        before, after := before + [asked], after + [orders];
      }
    }
  }

  /**
   What a scan finds before it evaluates anything. `tripped` is the account's own reason to
   trip the kill switch, `killed` that it was active already.
   */
  datatype Gates = Gates(trading: bool, minute: int, demoVerified: bool, accountRead: bool, tripped: bool, killed: bool)

  /** Why a scan evaluated nothing. */
  datatype Skip = NotStarted | Paused | MarketClosed | NotDemo | NoAccount | Killed

  /** The gate each reason speaks of is shut. */
  predicate Shut(started: bool, gates: Gates, skip: Skip) {
    match skip
    case NotStarted => !started
    case Paused => !gates.trading
    case MarketClosed => IsForexWeekend(gates.minute)
    case NotDemo => !gates.demoVerified
    case NoAccount => !gates.accountRead
    case Killed => gates.tripped || gates.killed
  }

  /** The place of each gate in the order they are asked. */
  function Asked(skip: Skip): nat {
    match skip
    case NotStarted => 0
    case Paused => 1
    case MarketClosed => 2
    case NotDemo => 3
    case NoAccount => 4
    case Killed => 5
  }

  /** The first gate that is shut, in the order they are asked. */
  function FirstShut(started: bool, gates: Gates): (r: Option<Skip>)
    ensures r.Some? ==> Shut(started, gates, r.value)
    ensures r.Some? ==> forall skip :: Shut(started, gates, skip) ==> Asked(r.value) <= Asked(skip)
    ensures r.None? ==> forall skip :: !Shut(started, gates, skip)
  {
    if !started then Some(NotStarted)
    else if !gates.trading then Some(Paused)
    else if IsForexWeekend(gates.minute) then Some(MarketClosed)
    else if !gates.demoVerified then Some(NotDemo)
    else if !gates.accountRead then Some(NoAccount)
    else if gates.tripped || gates.killed then Some(Killed)
    else None
  }

  /** One turn of the scheduler: time passes, perhaps a reconcile, then a scan. */
  datatype Cycle = Cycle(
    between: seq<Action>, reconciles: bool, positions: Reading, history: map<Key, Reading>,
    gates: Gates, evaluate: seq<Action>, executable: seq<(Merit, (Key, Script))>)

  /** What one scan may do to the account. */
  ghost predicate Scanned(maxOpen: nat, before: seq<Order>, after: seq<Order>) {
    LiveCount(after) <= LiveCount(before) || LiveCount(after) <= maxOpen + InFlightCount(before)
  }

  /** Scan i takes the broker's record from before[i] to after[i]; between scans orders only end. */
  ghost predicate OneScanAfterAnother(maxOpen: nat, start: seq<Order>, before: seq<seq<Order>>, after: seq<seq<Order>>) {
    && |before| == |after|
    && (forall i :: 0 <= i < |before| ==> SameOrdersLater(if i == 0 then start else after[i - 1], before[i]))
    && (forall i :: 0 <= i < |before| ==> Scanned(maxOpen, before[i], after[i]))
  }

  lemma NoScanYet(maxOpen: nat, start: seq<Order>)
    ensures OneScanAfterAnother(maxOpen, start, [], [])
  {
  }

  lemma AnotherScan(
    maxOpen: nat, start: seq<Order>, before: seq<seq<Order>>, after: seq<seq<Order>>, asked: seq<Order>, done: seq<Order>)
    requires OneScanAfterAnother(maxOpen, start, before, after)
    requires SameOrdersLater(if after == [] then start else after[|after| - 1], asked) && Scanned(maxOpen, asked, done)
    ensures OneScanAfterAnother(maxOpen, start, before + [asked], after + [done])
  {
    hide SameOrdersLater, Scanned;
  }

  lemma OneScanKeepsTheLimit(maxOpen: nat, most: nat, last: seq<Order>, before: seq<Order>, after: seq<Order>)
    requires SameOrdersLater(last, before) && Scanned(maxOpen, before, after) && InFlightCount(before) == 0
    requires LiveCount(last) <= most && maxOpen <= most
    ensures LiveCount(before) <= most && LiveCount(after) <= most && |OpenPositions(after)| <= most
  {
    hide LiveCount, InFlightCount, OpenPositions, SameOrdersLater;
    SettledLives(last, before);
    LiveIsOpenOrInFlight(after);
  }

  /**
   Over any number of scans, each of which sees the effects of those before it (nothing is in
   flight when it starts), the positions and the orders that may become one never exceed the
   limit, or the number there was to begin with if that was more.
   */
  lemma {:induction false} ScansKeepTheLimit(
    maxOpen: nat, start: seq<Order>, before: seq<seq<Order>>, after: seq<seq<Order>>, n: nat)
    requires OneScanAfterAnother(maxOpen, start, before, after) && n < |after|
    requires forall i :: 0 <= i < |before| ==> InFlightCount(before[i]) == 0
    ensures
      var most := if LiveCount(start) > maxOpen then LiveCount(start) else maxOpen;
      LiveCount(before[n]) <= most && LiveCount(after[n]) <= most && |OpenPositions(after[n])| <= most
  {
    hide LiveCount, InFlightCount, OpenPositions, SameOrdersLater, Scanned;
    var most := if LiveCount(start) > maxOpen then LiveCount(start) else maxOpen;
    if n > 0 {
      ScansKeepTheLimit(maxOpen, start, before, after, n - 1);
    }
    OneScanKeepsTheLimit(maxOpen, most, if n == 0 then start else after[n - 1], before[n], after[n]);
  }

  // ---------------------------------------------------------------- what time and the polls bring

  /** One thing that happens at the broker; what cannot happen changes nothing. */
  function Moved(orders: seq<Order>, a: Action): seq<Order> {
    if a.Land? && a.order < |orders| && orders[a.order].fate == InFlight then
      orders[a.order := orders[a.order].(fate := Open)]
    else if a.Vanish? && a.order < |orders| && orders[a.order].fate == InFlight then
      orders[a.order := orders[a.order].(fate := Dead)]
    else if a.Close? && a.order < |orders| && orders[a.order].fate == Open then
      orders[a.order := orders[a.order].(fate := Closed)]
    else orders
  }

  function Elapsed(orders: seq<Order>, moves: seq<Action>): seq<Order>
    decreases |moves|
  {
    if moves == [] then orders else Moved(Elapsed(orders, moves[..|moves| - 1]), moves[|moves| - 1])
  }

  /** An order of this instrument and side. */
  predicate Matching(orders: seq<Order>, key: Key, i: nat) {
    i < |orders| && Same(orders[i].key, key) && orders[i].key.direction == key.direction
  }

  predicate OpenMatch(orders: seq<Order>, key: Key, i: nat) { Matching(orders, key, i) && orders[i].fate == Open }

  ghost predicate FirstOpenMatch(orders: seq<Order>, key: Key, i: nat) {
    OpenMatch(orders, key, i) && forall j :: 0 <= j < i ==> !OpenMatch(orders, key, j)
  }

  ghost predicate HasOpenMatch(orders: seq<Order>, key: Key) { exists i: nat :: OpenMatch(orders, key, i) }

  /** The broker's record after n polls. */
  function ByPoll(orders: seq<Order>, polls: seq<Poll>, n: nat): seq<Order>
    requires n <= |polls|
  {
    if n == 0 then orders else Elapsed(ByPoll(orders, polls, n - 1), polls[n - 1].moves)
  }

  lemma OnePollLater(orders: seq<Order>, polls: seq<Poll>, n: nat)
    requires n < |polls|
    ensures ByPoll(orders, polls, n + 1) == Elapsed(ByPoll(orders, polls, n), polls[n].moves)
  {
  }

  lemma NoPollYet(orders: seq<Order>, polls: seq<Poll>)
    ensures ByPoll(orders, polls, 0) == orders
  {
  }

  /** The n-th poll reads the positions and there is a match among them. */
  ghost predicate FoundAt(orders: seq<Order>, polls: seq<Poll>, key: Key, n: nat)
    requires n < |polls|
  {
    polls[n].reading == Fine && HasOpenMatch(ByPoll(orders, polls, n + 1), key)
  }

  /** Some poll finds a match, and none before it breaks. */
  ghost predicate PollFinds(orders: seq<Order>, polls: seq<Poll>, key: Key) {
    exists n :: 0 <= n < |polls| && FoundAt(orders, polls, key, n) && forall m :: 0 <= m < n ==> polls[m].reading != Broke
  }

  /** Some poll breaks, and none before it finds a match. */
  ghost predicate PollBreaks(orders: seq<Order>, polls: seq<Poll>, key: Key) {
    exists n :: 0 <= n < |polls| && polls[n].reading == Broke && forall m :: 0 <= m < n ==> !FoundAt(orders, polls, key, m)
  }

  // ---------------------------------------------------------------- when an execute goes through

  ghost predicate NothingHeldOn(orders: seq<Order>, key: Key) {
    forall i :: 0 <= i < |orders| && orders[i].fate == Open ==> !Same(orders[i].key, key)
  }

  /** The position list is readable and has nothing on the instrument, and no other intent on it is unresolved. */
  ghost predicate Clears(key: Key, s: Script, intents: map<Key, Intent>, orders: seq<Order>) {
    && s.positions == Fine && NothingHeldOn(Elapsed(orders, s.beforeRead), key)
    && (forall k :: k in intents && k != key && intents[k].status in {Created, Submitted, Acknowledged, Ambiguous} ==> !Same(k, key))
  }

  /** The first gates are open, and the plan is new or its last attempt left nothing at the broker. */
  ghost predicate Arms(key: Key, s: Script, intents: map<Key, Intent>) {
    && s.databaseUp && s.demoAtCreation
    && (key in intents ==>
          intents[key].status in {Failed, Abandoned} && intents[key].orderId.None? && intents[key].positionId.None?)
  }

  /** Every gate is open to this plan. */
  ghost predicate Submits(key: Key, s: Script, intents: map<Key, Intent>, orders: seq<Order>) {
    Arms(key, s, intents) && Clears(key, s, intents, orders) && s.spread == Fine && s.demoAtSubmission
  }

  /** The broker's record just before the order is sent. */
  function WhenSent(orders: seq<Order>, s: Script): seq<Order> {
    Elapsed(Elapsed(Elapsed(orders, s.beforeRead), s.afterRead), s.beforeSend)
  }

  /** The answers that prove the order was not accepted. */
  predicate Refuses(wire: Wire) {
    wire.ErrorEnvelope? || (wire.ErrorStatus? && wire.code < 500 && wire.code !in {401, 403, 429})
  }

  /** The id the answer carries, if it carries one: the broker's number for the order just sent. */
  function IdAnswered(wire: Wire, orders: seq<Order>): Option<nat> {
    if wire.Reply? && wire.withId then Some(|orders|) else None
  }

  /** How an execute that sends ends, by the wire and, if the order was accepted, by the polls. */
  ghost predicate EndsAs(status: ResultStatus, s: Script, orders: seq<Order>, key: Key) {
    var sent := orders + [Order(key, InFlight)];
    && (status == Done <==> s.wire.Reply? && PollFinds(sent, s.polls, key))
    && (status == Escaped <==>
          s.wire.BrokenReply? || s.wire.BrokenError? || (s.wire.Reply? && PollBreaks(sent, s.polls, key)))
    && (status == Unverified <==> s.wire.Reply? && !PollFinds(sent, s.polls, key) && !PollBreaks(sent, s.polls, key))
    && (status == SentRejected <==> Refuses(s.wire))
    && status !in {Aborted, Duplicate}
  }

  /** The plan's own row does not stand in its way. */
  lemma ArmingClearsNothing(key: Key, s: Script, intents: map<Key, Intent>, orders: seq<Order>)
    ensures Clears(key, s, intents[key := NewIntent()], orders) == Clears(key, s, intents, orders)
  {
  }

  lemma LaterIsAsMany(before: seq<Order>, after: seq<Order>)
    requires SameOrdersLater(before, after)
    ensures |after| == |before|
  {
  }

  /** The first of the positions of a read that matches. */
  ghost predicate IsFirstMatch(orders: seq<Order>, key: Key, positions: seq<nat>, n: nat) {
    n < |positions| && Matching(orders, key, positions[n]) && forall m :: 0 <= m < n ==> !Matching(orders, key, positions[m])
  }

  /** What the order history says of an intent; what is not told could not be read. */
  function HistoryOf(history: map<Key, Reading>, key: Key): Reading { if key in history then history[key] else Denied }

  /** The same orders at a later time: none was added, and none came back to life. */
  ghost predicate SameOrdersLater(before: seq<Order>, after: seq<Order>) {
    && |after| == |before|
    && (forall i :: 0 <= i < |before| ==> after[i].key == before[i].key && (after[i].Live() ==> before[i].Live()))
  }

  /** No row but this one was touched. */
  ghost predicate OnlyRow(before: map<Key, Intent>, after: map<Key, Intent>, key: Key) {
    forall k :: k != key ==> (k in after <==> k in before) && (k in before && k in after ==> after[k] == before[k])
  }

  /** At most one order was added, for this id, and the account carries at most one more because of it. */
  ghost predicate OneMore(before: seq<Order>, after: seq<Order>, key: Key) {
    && |before| <= |after| <= |before| + 1
    && (|after| > |before| ==> after[|before|].key == key)
    && LiveCount(after) <= LiveCount(before) + |after| - |before|
  }

  ghost predicate OwnPosition(orders: seq<Order>, key: Key, position: nat) {
    position < |orders| && orders[position].key == key && orders[position].Landed()
  }

  /** What each way of finishing leaves in the intent's row. */
  ghost predicate Recorded(status: ResultStatus, intents: map<Key, Intent>, orders: seq<Order>, key: Key) {
    && key in intents
    && (var row := intents[key];
        match status
        case Aborted => row == Intent(Failed, None, None, Some(Refused))
        case Escaped => row == NewIntent() || row == Intent(Submitted, None, None, None) || row.status == Acknowledged
        case Duplicate => !row.Rearmable()
        case SentRejected => row == Intent(Failed, None, None, Some(BrokerRefused))
        case SentUnknown => row == Intent(Ambiguous, None, None, Some(OutcomeUnknown))
        case Unverified => row.status == Ambiguous && row.reason == Some(NoPositionSeen)
        case Done => row.status == Filled && row.positionId.Some? && OwnPosition(orders, key, row.positionId.value))
  }

  lemma AlreadyRecorded(intents: map<Key, Intent>, orders: seq<Order>, key: Key)
    requires key in intents && !intents[key].Rearmable()
    ensures Recorded(Duplicate, intents, orders, key)
  {
  }

  /**
   How a reconcile settles a row, given the positions its read returned and what the history
   says: filled with the first position that matches; failing that, filled if the history
   holds the order it recorded; failing that, abandoned.
   */
  ghost predicate SettledRow(before: Intent, after: Intent, key: Key, orders: seq<Order>, positions: seq<nat>, history: Reading) {
    if exists p :: p in positions && Matching(orders, key, p) then
      exists n: nat :: IsFirstMatch(orders, key, positions, n) && after == before.(status := Filled, positionId := Some(positions[n]))
    else if history == Fine && before.orderId.Some? && before.orderId.value < |orders| then
      after == before.(status := Filled)
    else
      && history != Broke
      && after == before.(status := Abandoned, reason := Some(if before.status == Created then NeverSubmitted else NothingFound))
  }

  /** Every unresolved row is settled, and no other is touched. */
  ghost predicate SettledTable(before: map<Key, Intent>, after: map<Key, Intent>, orders: seq<Order>, history: map<Key, Reading>) {
    && after.Keys == before.Keys
    && forall k :: k in before ==>
         if before[k].Unresolved() then SettledRow(before[k], after[k], k, orders, OpenPositions(orders), HistoryOf(history, k))
         else after[k] == before[k]
  }

  /** The first n of the listed intents are settled; nothing else has changed. */
  ghost predicate Progress(
    before: map<Key, Intent>, after: map<Key, Intent>, todo: seq<Key>, n: nat, orders: seq<Order>, positions: seq<nat>,
    history: map<Key, Reading>)
  {
    && n <= |todo|
    && after.Keys == before.Keys
    && ListsUnresolved(before, todo)
    && (forall i :: 0 <= i < n ==> SettledRow(before[todo[i]], after[todo[i]], todo[i], orders, positions, HistoryOf(history, todo[i])))
    && (forall i :: n <= i < |todo| ==> after[todo[i]] == before[todo[i]])
    && (forall k :: k in before && k !in todo ==> after[k] == before[k])
  }

  /** The listed intents are the unresolved ones, and the next of them is as it was. */
  lemma NextIsUntouched(
    before: map<Key, Intent>, after: map<Key, Intent>, todo: seq<Key>, n: nat, orders: seq<Order>, positions: seq<nat>,
    history: map<Key, Reading>)
    requires Progress(before, after, todo, n, orders, positions, history) && n < |todo|
    ensures todo[n] in before && todo[n] in after && after[todo[n]] == before[todo[n]] && before[todo[n]].Unresolved()
  {
  }

  lemma ProgressMeans(
    before: map<Key, Intent>, after: map<Key, Intent>, todo: seq<Key>, n: nat, orders: seq<Order>, positions: seq<nat>,
    history: map<Key, Reading>)
    requires Progress(before, after, todo, n, orders, positions, history)
    ensures after.Keys == before.Keys
    ensures forall k :: k in todo <==> k in before && before[k].Unresolved()
    ensures forall k :: k in todo[..n] ==> k in before && before[k].Unresolved()
    ensures forall k :: k in after && k !in todo[..n] ==> after[k] == before[k]
    ensures forall k :: k in after && k in todo[..n] ==> SettledRow(before[k], after[k], k, orders, positions, HistoryOf(history, k))
  {
    hide SettledRow;
    forall k | k in after && k !in todo[..n] ensures after[k] == before[k] {
      if k in todo {
        assert todo == todo[..n] + todo[n..];
        var i :| 0 <= i < |todo[n..]| && todo[n..][i] == k;
        assert todo[n + i] == k;
      }
    }
  }

  lemma ProgressStep(
    before: map<Key, Intent>, mid: map<Key, Intent>, after: map<Key, Intent>,
    todo: seq<Key>, n: nat, orders: seq<Order>, positions: seq<nat>,
    history: map<Key, Reading>)
    requires Progress(before, mid, todo, n, orders, positions, history) && n < |todo|
    requires OnlyRow(mid, after, todo[n]) && todo[n] in after
    requires SettledRow(mid[todo[n]], after[todo[n]], todo[n], orders, positions, HistoryOf(history, todo[n]))
    ensures Progress(before, after, todo, n + 1, orders, positions, history)
  {
    hide SettledRow;
  }

  /** No position of the read matches, and the history reply breaks: the intent cannot be settled. */
  ghost predicate Stuck(orders: seq<Order>, positions: seq<nat>, key: Key, history: Reading) {
    history == Broke && forall p :: p in positions ==> !Matching(orders, key, p)
  }

  lemma StuckIgnoresTime(earlier: seq<Order>, later: seq<Order>, positions: seq<nat>, key: Key, history: Reading)
    requires SameOrdersLater(earlier, later)
    ensures Stuck(later, positions, key, history) <==> Stuck(earlier, positions, key, history)
  {
    forall p: nat ensures Matching(later, key, p) <==> Matching(earlier, key, p) {
    }
  }

  lemma SettledRowIgnoresTime(before: Intent, after: Intent, key: Key, earlier: seq<Order>, later: seq<Order>, positions: seq<nat>,
    history: Reading)
    requires SameOrdersLater(earlier, later) && SettledRow(before, after, key, later, positions, history)
    ensures SettledRow(before, after, key, earlier, positions, history)
  {
  }

  lemma SeenPositionIsOwn(acts: seq<Action>, w: World)
    requires Leads(START, acts, w) && w.pc.Executing? && w.pc.stage.Seen?
    ensures OwnPosition(w.orders, w.pc.key, w.pc.stage.position)
  {
    RunKeepsInv(START, acts, w);
  }

  /** What the positions read proved is what the two halves of the check leave true of the whole state. */
  lemma ClearedMeansClear(acts: seq<Action>, w: World)
    requires Leads(START, acts, w) && w.pc.Executing? && w.pc.stage == Cleared
    ensures NoLiveOn(w, w.pc.key) && NoRival(w, w.pc.key)
  {
    RunKeepsInv(START, acts, w);
  }

  lemma RivalsAreRivals(w: World, key: Key)
    requires OtherUnresolved(w, key)
    ensures !NoRival(w, key)
  {
  }

  lemma ClearedWhen(w: World, key: Key)
    requires w.pc == Executing(key, PositionsClear) && !OtherUnresolved(w, key)
    ensures Enabled(w, ClearIntents) && Next(w, ClearIntents) == w.(pc := Executing(key, Cleared))
  {
  }

  lemma OnlyRowTwice(a: map<Key, Intent>, b: map<Key, Intent>, c: map<Key, Intent>, key: Key)
    requires OnlyRow(a, b, key) && OnlyRow(b, c, key)
    ensures OnlyRow(a, c, key)
  {
  }

  lemma OnlyRowWritten(a: map<Key, Intent>, key: Key, row: Intent)
    ensures OnlyRow(a, a[key := row], key)
  {
  }

  lemma NothingYet(intents: map<Key, Intent>, orders: seq<Order>, key: Key)
    ensures OnlyRow(intents, intents, key) && OneMore(orders, orders, key)
  {
  }

  lemma LaterAtOnce(orders: seq<Order>)
    ensures SameOrdersLater(orders, orders)
  {
  }

  lemma LaterTwice(a: seq<Order>, b: seq<Order>, c: seq<Order>)
    requires SameOrdersLater(a, b) && SameOrdersLater(b, c)
    ensures SameOrdersLater(a, c)
  {
  }

  lemma LaterIsNoneMore(before: seq<Order>, after: seq<Order>, key: Key)
    requires SameOrdersLater(before, after)
    ensures OneMore(before, after, key) && |after| == |before|
  {
    SettledLives(before, after);
  }

  lemma OneMoreStaysOneMore(before: seq<Order>, sent: seq<Order>, after: seq<Order>, key: Key)
    requires OneMore(before, sent, key) && SameOrdersLater(sent, after)
    ensures OneMore(before, after, key)
  {
    LiveCountOnlyFalls(sent, after);
  }

  lemma LaterThenOneMore(before: seq<Order>, later: seq<Order>, after: seq<Order>, key: Key)
    requires SameOrdersLater(before, later) && OneMore(later, after, key)
    ensures OneMore(before, after, key)
  {
    LiveCountOnlyFalls(before, later);
  }

  lemma SettledLives(before: seq<Order>, after: seq<Order>)
    requires SameOrdersLater(before, after)
    ensures LiveCount(after) <= LiveCount(before)
  {
  }
}
