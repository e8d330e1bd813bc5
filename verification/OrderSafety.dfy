/**
 What every run of the order protocol keeps. `Inv` holds in every run of the code as it is.
 `Truthful` (what an id's row proves, and at most one order accepted for it) needs one
 discipline the code does not impose: that id must not be re-armed while its row was
 abandoned only because nothing was found. `ReopenSecondOrder` and `AReopenedRowProvesNothing`
 are the runs that show why.
 */
module OrderSafety {
  import opened Wrappers
  import opened Symbols
  import opened Transport
  import opened OrderProtocol

  // ---------------------------------------------------------------- invariants of every run

  /** No instrument carries two orders that hold, or may come to hold, a position. */
  ghost predicate OneLivePerInstrument(w: World) {
    forall i, j | 0 <= i < j < |w.orders| && w.orders[i].Live() && w.orders[j].Live() ::
      !Same(w.orders[i].key, w.orders[j].key)
  }

  /** A live order's intent says so: it is in doubt, or it is filled and the order is not in flight. */
  ghost predicate LiveOrdersAreRecorded(w: World) {
    forall i :: 0 <= i < |w.orders| && w.orders[i].Live() ==>
      && w.orders[i].key in w.intents
      && (w.intents[w.orders[i].key].InDoubt()
          || (w.intents[w.orders[i].key].status == Filled && w.orders[i].fate == Open))
  }

  /** While an intent is in doubt, any live order on its instrument is its own. */
  ghost predicate DoubtOwnsItsInstrument(w: World) {
    forall k, i | k in w.intents && w.intents[k].InDoubt() && 0 <= i < |w.orders| && w.orders[i].Live() ::
      Same(w.orders[i].key, k) ==> w.orders[i].key == k
  }

  ghost predicate NoLiveOn(w: World, key: Key) {
    forall i :: 0 <= i < |w.orders| && w.orders[i].Live() ==> !Same(w.orders[i].key, key)
  }

  ghost predicate NoRival(w: World, key: Key) {
    forall k :: k in w.intents && w.intents[k].Unresolved() && k != key ==> !Same(k, key)
  }

  ghost predicate StageInv(w: World, key: Key, stage: Stage) {
    && key in w.intents
    && (match stage
        case Armed => w.intents[key].status == Created
        case PositionsClear =>
          w.intents[key].status == Created
          && (forall i :: 0 <= i < |w.orders| && w.orders[i].Live() && Same(w.orders[i].key, key) ==>
                w.orders[i].key in w.intents && w.intents[w.orders[i].key].InDoubt())
        case Cleared => w.intents[key].status == Created && NoLiveOn(w, key) && NoRival(w, key)
        case Sending => w.intents[key].status == Submitted && NoLiveOn(w, key) && NoRival(w, key)
        case Answered(outcome, _) =>
          w.intents[key].status == Submitted
          && (outcome == Outcome.Rejected ==>
                forall i :: 0 <= i < |w.orders| && w.orders[i].Live() ==> w.orders[i].key != key)
        case Acked => w.intents[key].status == Acknowledged
        case Seen(p) =>
          w.intents[key].status == Acknowledged
          && p < |w.orders| && w.orders[p].key == key && w.orders[p].Landed()
          && (forall i :: 0 <= i < |w.orders| && w.orders[i].key == key ==> w.orders[i].fate != InFlight))
  }

  ghost predicate SettlingInv(w: World, todo: seq<Key>, seen: seq<nat>) {
    && (forall i :: 0 <= i < |w.orders| ==> w.orders[i].fate != InFlight)
    && (forall i :: i in seen ==> i < |w.orders| && w.orders[i].Landed())
    && (forall i :: 0 <= i < |w.orders| && w.orders[i].fate == Open ==> i in seen)
    && ListsUnresolved(w.intents, todo)
    && (forall k, i | k in w.intents && w.intents[k].InDoubt() && i in seen && i < |w.orders| ::
          Same(w.orders[i].key, k) ==> w.orders[i].key == k)
    && (forall k, i | k in w.intents && w.intents[k].status == Created && i in seen && i < |w.orders| :: w.orders[i].key != k)
  }

  ghost predicate PcInv(w: World) {
    match w.pc
    case Down => true
    case Ready => true
    case Executing(key, stage) => StageInv(w, key, stage)
    case Settling(todo, seen) => SettlingInv(w, todo, seen)
  }

  ghost predicate Inv(w: World) {
    && OneLivePerInstrument(w)
    && LiveOrdersAreRecorded(w)
    && DoubtOwnsItsInstrument(w)
    && PcInv(w)
  }

  lemma SameIsSymmetric(a: Key, b: Key)
    ensures Same(a, b) == Same(b, a) && Same(a, a)
  {
  }

  // ---------------------------------------------------------------- preservation, step by step

  lemma ControlKeepsInv(w: World, a: Action)
    requires Inv(w) && Enabled(w, a) && (a.Crash? || a.StartBlind? || a.EndSettling? || a.Escape?)
    ensures Inv(Next(w, a))
  {
  }

  lemma LandingKeepsInv(w: World, i: nat)
    requires Inv(w) && Enabled(w, Land(i))
    ensures Inv(Next(w, Land(i)))
  {
  }

  /** The broker's record changed only by orders dying or positions closing. */
  ghost predicate OnlyEnded(w: World, w2: World) {
    && w2.intents == w.intents && w2.pc == w.pc && |w2.orders| == |w.orders|
    && (forall i :: 0 <= i < |w.orders| ==>
          && w2.orders[i].key == w.orders[i].key
          && (w2.orders[i].Live() ==> w2.orders[i] == w.orders[i])
          && (w.orders[i].Landed() ==> w2.orders[i].Landed()))
  }

  lemma EndingKeepsTheTables(w: World, w2: World)
    requires Inv(w) && OnlyEnded(w, w2)
    ensures OneLivePerInstrument(w2) && LiveOrdersAreRecorded(w2) && DoubtOwnsItsInstrument(w2)
  {
  }

  lemma EndingKeepsTheStage(w: World, w2: World)
    requires PcInv(w) && OnlyEnded(w, w2)
    ensures PcInv(w2)
  {
  }

  lemma EndOfLifeKeepsInv(w: World, a: Action)
    requires Inv(w) && Enabled(w, a) && (a.Vanish? || a.Close?)
    ensures Inv(Next(w, a))
  {
    var w2 := Next(w, a);
    assert OnlyEnded(w, w2);
    EndingKeepsTheTables(w, w2);
    EndingKeepsTheStage(w, w2);
  }

  lemma ArmingKeepsInv(w: World, a: Action)
    requires Inv(w) && Enabled(w, a) && (a.Arm? || a.Rearm?)
    ensures Inv(Next(w, a))
  {
  }

  lemma ChecksKeepInv(w: World, a: Action)
    requires Inv(w) && Enabled(w, a) && (a.ClearPositions? || a.ClearIntents? || a.Refuse?)
    ensures Inv(Next(w, a))
  {
  }

  lemma MarkSubmittedKeepsInv(w: World)
    requires Inv(w) && Enabled(w, MarkSubmitted)
    ensures Inv(Next(w, MarkSubmitted))
  {
  }

  lemma SendKeepsInv(w: World, wire: Wire)
    requires Inv(w) && Enabled(w, Send(wire))
    ensures Inv(Next(w, Send(wire)))
  {
  }

  lemma MarkAnswerKeepsInv(w: World)
    requires Inv(w) && Enabled(w, MarkAnswer)
    ensures Inv(Next(w, MarkAnswer))
  {
  }

  lemma SeeingKeepsInv(w: World, a: Action)
    requires Inv(w) && Enabled(w, a) && (a.SeePosition? || a.SeeNothing?)
    ensures Inv(Next(w, a))
  {
    SameIsSymmetric(w.pc.key, w.pc.key);
  }

  lemma MarkFilledKeepsInv(w: World)
    requires Inv(w) && Enabled(w, MarkFilled)
    ensures Inv(Next(w, MarkFilled))
  {
    SameIsSymmetric(w.pc.key, w.pc.key);
  }

  lemma ReadKeepsInv(w: World, todo: seq<Key>)
    requires Inv(w) && Enabled(w, ReadBroker(todo))
    ensures Inv(Next(w, ReadBroker(todo)))
  {
  }

  ghost predicate NoneLiveFor(w: World, key: Key) {
    forall i :: 0 <= i < |w.orders| && w.orders[i].Live() ==> w.orders[i].key != key
  }

  /** A row on the list is settled: it leaves the list, and no other row changes. */
  ghost predicate OneSettled(w: World, w2: World) {
    && w.pc.Settling? && w.pc.todo != [] && w.pc.todo[0] in w.intents
    && w2.orders == w.orders && w2.pc == Settling(w.pc.todo[1..], w.pc.seen)
    && (exists row: Intent :: !row.Unresolved() && w2.intents == w.intents[w.pc.todo[0] := row])
  }

  lemma SettlingStepSettlesOne(w: World, a: Action)
    requires Inv(w) && Enabled(w, a) && (a.SettleFilled? || a.SettleHistorical? || a.SettleAbandoned?)
    ensures OneSettled(w, Next(w, a))
    ensures a.SettleAbandoned? ==> NoneLiveFor(w, w.pc.todo[0])
    ensures Next(w, a).intents[w.pc.todo[0]].status == if a.SettleAbandoned? then Abandoned else Filled
  {
    var w2 := Next(w, a);
    SameIsSymmetric(w.pc.todo[0], w.pc.todo[0]);
    assert !w2.intents[w.pc.todo[0]].Unresolved();
    assert w2.intents == w.intents[w.pc.todo[0] := w2.intents[w.pc.todo[0]]];
  }

  lemma SettlingOneKeepsTheList(w: World, w2: World)
    requires PcInv(w) && OneSettled(w, w2)
    ensures PcInv(w2)
  {
    assert forall k | k in w2.intents && w2.intents[k].Unresolved() :: k != w.pc.todo[0] && k in w.intents;
    assert ListsUnresolved(w2.intents, w2.pc.todo);
  }

  lemma SettlingOneKeepsTheTables(w: World, w2: World)
    requires Inv(w) && OneSettled(w, w2)
    requires w2.intents[w.pc.todo[0]].status == Filled || NoneLiveFor(w, w.pc.todo[0])
    ensures OneLivePerInstrument(w2) && LiveOrdersAreRecorded(w2) && DoubtOwnsItsInstrument(w2)
  {
  }

  lemma SettlingKeepsInv(w: World, a: Action)
    requires Inv(w) && Enabled(w, a) && (a.SettleFilled? || a.SettleHistorical? || a.SettleAbandoned?)
    ensures Inv(Next(w, a))
  {
    SettlingStepSettlesOne(w, a);
    hide Next, Enabled, OneSettled, PcInv, OneLivePerInstrument, LiveOrdersAreRecorded, DoubtOwnsItsInstrument, NoneLiveFor;
    SettlingOneKeepsTheTables(w, Next(w, a));
    SettlingOneKeepsTheList(w, Next(w, a));
  }

  lemma StepKeepsInv(w: World, a: Action)
    requires Inv(w) && Enabled(w, a)
    ensures Inv(Next(w, a))
  {
    hide Inv, Enabled, Next;
    match a {
      case Arm(_) => ArmingKeepsInv(w, a);
      case Rearm(_) => ArmingKeepsInv(w, a);
      case ClearPositions => ChecksKeepInv(w, a);
      case ClearIntents => ChecksKeepInv(w, a);
      case Refuse => ChecksKeepInv(w, a);
      case MarkSubmitted => MarkSubmittedKeepsInv(w);
      case Send(wire) => SendKeepsInv(w, wire);
      case MarkAnswer => MarkAnswerKeepsInv(w);
      case SeePosition(_) => SeeingKeepsInv(w, a);
      case SeeNothing => SeeingKeepsInv(w, a);
      case MarkFilled => MarkFilledKeepsInv(w);
      case ReadBroker(todo) => ReadKeepsInv(w, todo);
      case SettleFilled(_) => SettlingKeepsInv(w, a);
      case SettleHistorical => SettlingKeepsInv(w, a);
      case SettleAbandoned => SettlingKeepsInv(w, a);
      case Land(i) => LandingKeepsInv(w, i);
      case Vanish(_) => EndOfLifeKeepsInv(w, a);
      case Close(_) => EndOfLifeKeepsInv(w, a);
      case StartBlind => ControlKeepsInv(w, a);
      case EndSettling => ControlKeepsInv(w, a);
      case Escape => ControlKeepsInv(w, a);
      case Crash => ControlKeepsInv(w, a);
    }
  }

  lemma {:induction false} RunKeepsInv(w: World, acts: seq<Action>, w2: World)
    requires Inv(w) && Leads(w, acts, w2)
    ensures Inv(w2)
    decreases |acts|
  {
    if acts != [] {
      StepKeepsInv(w, acts[0]);
      RunKeepsInv(Next(w, acts[0]), acts[1..], w2);
    }
  }

  // ---------------------------------------------------------------- safety of every run

  /** Positions plus orders that may still become one: never two on one instrument. */
  lemma NeverTwoLiveOrdersOnAnInstrument(acts: seq<Action>, w: World, i: nat, j: nat)
    requires Leads(START, acts, w)
    requires i < |w.orders| && j < |w.orders| && i != j && w.orders[i].Live() && w.orders[j].Live()
    ensures !SameInstrument(w.orders[i].key.symbol, w.orders[j].key.symbol)
  {
    RunKeepsInv(START, acts, w);
    SameIsSymmetric(w.orders[i].key, w.orders[j].key);
  }

  /**
   A position matched by symbol and side when an execute verifies its order is that order's
   own. When a reconcile matches one to an intent, it is that intent's own exactly if the
   intent was submitted.
   */
  lemma MatchedPositionIsOwn(acts: seq<Action>, w: World, a: Action)
    requires Leads(START, acts, w) && Enabled(w, a)
    ensures a.SeePosition? ==> w.orders[a.position].key == w.pc.key
    ensures a.SettleFilled? ==> (w.orders[a.position].key == w.pc.todo[0] <==> w.intents[w.pc.todo[0]].InDoubt())
  {
    RunKeepsInv(START, acts, w);
  }

  /** A row at rest, or not yet submitted, has no order that is open or could still open. */
  lemma RestingRowsHaveNoLiveOrder(acts: seq<Action>, w: World, key: Key, i: nat)
    requires Leads(START, acts, w) && key in w.intents && i < |w.orders| && w.orders[i].key == key
    ensures w.intents[key].status in {Created, Failed, Abandoned} ==> !w.orders[i].Live()
    ensures w.intents[key].status == Filled ==> w.orders[i].fate != InFlight
  {
    RunKeepsInv(START, acts, w);
  }

  lemma {:induction false} LeadsPrefix(w: World, acts: seq<Action>, w2: World, n: nat) returns (mid: World)
    requires Leads(w, acts, w2) && n <= |acts|
    ensures Leads(w, acts[..n], mid) && Leads(mid, acts[n..], w2)
    decreases |acts|
  {
    if n == 0 {
      mid := w;
      assert acts[..0] == [] && acts[0..] == acts;
    } else {
      mid := LeadsPrefix(Next(w, acts[0]), acts[1..], w2, n - 1);
      assert acts[..n][0] == acts[0] && acts[..n][1..] == acts[1..][..n - 1];
      assert acts[n..] == acts[1..][n - 1..];
    }
  }

  /** A process that dies after any step of any run is in a state every theorem here speaks about. */
  lemma CrashAfterAnyStepIsARun(acts: seq<Action>, w: World, n: nat) returns (mid: World)
    requires Leads(START, acts, w) && n <= |acts|
    ensures Leads(START, acts[..n] + [Crash], mid) && mid.pc == Down && Inv(mid)
  {
    var before := LeadsPrefix(START, acts, w, n);
    mid := Next(before, Crash);
    LeadsStep(START, acts[..n], before, Crash);
    RunKeepsInv(START, acts[..n] + [Crash], mid);
  }

  // ---------------------------------------------------------------- one order per execution id

  /** No order sent for this id was accepted, and none can be any more. */
  ghost predicate ProvenUnaccepted(w: World, key: Key) {
    forall i :: 0 <= i < |w.orders| && w.orders[i].key == key ==> w.orders[i].fate == Dead
  }

  ghost predicate OneChance(w: World, key: Key) {
    forall i, j | 0 <= i < j < |w.orders| && w.orders[i].key == key && w.orders[j].key == key ::
      w.orders[i].fate == Dead || w.orders[j].fate == Dead
  }

  ghost predicate RowTellsTheTruth(w: World, key: Key) {
    key in w.intents
    && (w.intents[key].status == Created || w.intents[key].status == Failed
        || (w.intents[key].status == Abandoned && !w.intents[key].Unproven()))
    ==> ProvenUnaccepted(w, key)
  }

  /** What is true of one id: one chance, a truthful row, and an execute of it that knows what it sent. */
  ghost predicate Truthful(w: World, key: Key) {
    && OneChance(w, key)
    && RowTellsTheTruth(w, key)
    && (forall i :: 0 <= i < |w.orders| && w.orders[i].key == key ==> key in w.intents)
    && (w.pc.Executing? && w.pc.key == key ==>
          key in w.intents
          && match w.pc.stage
             case Armed => w.intents[key].status == Created
             case PositionsClear => w.intents[key].status == Created
             case Cleared => w.intents[key].status == Created
             case Sending => w.intents[key].status == Submitted && ProvenUnaccepted(w, key)
             case Answered(outcome, _) =>
               w.intents[key].status == Submitted && (outcome == Outcome.Rejected ==> ProvenUnaccepted(w, key))
             case _ => w.intents[key].status == Acknowledged)
  }

  /** Steps that touch no row and send nothing. */
  lemma QuietStepStaysTruthful(w: World, a: Action, key: Key)
    requires Truthful(w, key) && Enabled(w, a)
    requires !a.Rearm? && !a.Arm? && !a.Refuse? && !a.MarkSubmitted? && !a.Send? && !a.MarkAnswer?
    requires !a.SeeNothing? && !a.MarkFilled? && !a.SettleFilled? && !a.SettleHistorical? && !a.SettleAbandoned?
    ensures Truthful(Next(w, a), key)
  {
    var w2 := Next(w, a);
    assert |w2.orders| == |w.orders|;
    assert forall i | 0 <= i < |w.orders| ::
      w2.orders[i].key == w.orders[i].key && (w.orders[i].fate == Dead ==> w2.orders[i].fate == Dead);
  }

  lemma SendStaysTruthful(w: World, wire: Wire, key: Key)
    requires Truthful(w, key) && Enabled(w, Send(wire))
    ensures Truthful(Next(w, Send(wire)), key)
  {
  }

  lemma ArmingStaysTruthful(w: World, a: Action, key: Key)
    requires Truthful(w, key) && Enabled(w, a) && (a.Arm? || a.Rearm?)
    requires a == Rearm(key) ==> !w.intents[key].Unproven()
    ensures Truthful(Next(w, a), key)
  {
  }

  lemma WriteStaysTruthful(w: World, a: Action, key: Key)
    requires Truthful(w, key) && Enabled(w, a)
    requires a.Refuse? || a.MarkSubmitted? || a.MarkAnswer? || a.SeeNothing? || a.MarkFilled?
             || a.SettleFilled? || a.SettleHistorical? || a.SettleAbandoned?
    ensures Truthful(Next(w, a), key)
  {
    var w2 := Next(w, a);
    assert w2.orders == w.orders;
  }

  lemma {:induction false} CautiousRunStaysTruthful(w: World, acts: seq<Action>, w2: World, key: Key)
    requires Truthful(w, key) && Leads(w, acts, w2) && Cautious(w, acts, key)
    ensures Truthful(w2, key)
    decreases |acts|
  {
    if acts != [] {
      var a := acts[0];
      if a.Send? {
        SendStaysTruthful(w, a.wire, key);
      } else if a.Arm? || a.Rearm? {
        ArmingStaysTruthful(w, a, key);
      } else if a.Refuse? || a.MarkSubmitted? || a.MarkAnswer? || a.SeeNothing? || a.MarkFilled?
                || a.SettleFilled? || a.SettleHistorical? || a.SettleAbandoned? {
        WriteStaysTruthful(w, a, key);
      } else {
        QuietStepStaysTruthful(w, a, key);
      }
      CautiousRunStaysTruthful(Next(w, a), acts[1..], w2, key);
    }
  }

  /** The broker accepts at most one order for an id that the run never re-armed on a nothing-found row. */
  lemma AtMostOneAcceptedOrderPerId(acts: seq<Action>, w: World, i: nat, j: nat)
    requires Leads(START, acts, w)
    requires i < |w.orders| && j < |w.orders| && w.orders[i].Landed() && w.orders[j].Landed()
    requires w.orders[i].key == w.orders[j].key && Cautious(START, acts, w.orders[i].key)
    ensures i == j
  {
    CautiousRunStaysTruthful(START, acts, w, w.orders[i].key);
  }

  /** And such an id is only ever sent once every earlier order for it is proven never accepted. */
  lemma SecondSendNeedsProof(acts: seq<Action>, w: World, wire: Wire)
    requires Leads(START, acts, w) && Enabled(w, Send(wire)) && Cautious(START, acts, w.pc.key)
    ensures ProvenUnaccepted(w, w.pc.key)
  {
    CautiousRunStaysTruthful(START, acts, w, w.pc.key);
  }

  /**
   What a persisted status proves of an id that the run never re-armed on a nothing-found row,
   whichever step the process crashed after and whatever became of other ids.
   */
  lemma StatusIsSoundAfterAnyCrash(acts: seq<Action>, w: World, key: Key)
    requires Leads(START, acts, w) && Cautious(START, acts, key) && key in w.intents
    ensures w.intents[key].status in {Created, Failed} ==> ProvenUnaccepted(w, key)
    ensures w.intents[key].status == Abandoned && w.intents[key].reason == Some(NeverSubmitted) ==> ProvenUnaccepted(w, key)
    ensures (exists i :: 0 <= i < |w.orders| && w.orders[i].key == key && w.orders[i].Landed()) ==>
              w.intents[key].InDoubt() || w.intents[key].status == Filled || w.intents[key].Unproven()
  {
    CautiousRunStaysTruthful(START, acts, w, key);
  }

  // ---------------------------------------------------------------- where the code needs the discipline

  ghost predicate NeverRearms(acts: seq<Action>) { forall a :: a in acts ==> !a.Rearm? }

  /** A run that re-arms nothing is cautious about every id. */
  lemma {:induction false} NeverRearmingIsCautious(w: World, acts: seq<Action>, w2: World, key: Key)
    requires Leads(w, acts, w2) && NeverRearms(acts)
    ensures Cautious(w, acts, key)
    decreases |acts|
  {
    if acts != [] {
      NeverRearmingIsCautious(Next(w, acts[0]), acts[1..], w2, key);
    }
  }

  /** Extends a run by one step. */
  lemma Extend(acts: seq<Action>, w: World, a: Action, w2: World)
    requires Leads(START, acts, w) && Enabled(w, a) && Next(w, a) == w2
    ensures Leads(START, acts + [a], w2)
    ensures NeverRearms(acts) && !a.Rearm? ==> NeverRearms(acts + [a])
  {
    LeadsStep(START, acts, w, a);
  }

  /** A startup whose reconcile had nothing to settle. */
  lemma BootRun() returns (acts: seq<Action>)
    ensures Leads(START, acts, World(map[], [], Ready)) && NeverRearms(acts)
  {
    acts := [];
    Extend(acts, START, ReadBroker([]), World(map[], [], Settling([], [])));
    acts := acts + [ReadBroker([])];
    Extend(acts, World(map[], [], Settling([], [])), EndSettling, World(map[], [], Ready));
    acts := acts + [EndSettling];
  }

  /** The steps of an execute from a row just armed to the moment before its answer is marked. */
  lemma SubmitRun(before: seq<Action>, w: World, wire: Wire) returns (acts: seq<Action>, w2: World)
    requires Leads(START, before, w)
    requires w.pc.Executing? && w.pc.stage == Armed && w.pc.key in w.intents
    requires w.intents[w.pc.key] == NewIntent() && !PositionOn(w, w.pc.key) && !OtherUnresolved(w, w.pc.key)
    requires wire != NotSent
    ensures Leads(START, acts, w2) && (NeverRearms(before) ==> NeverRearms(acts))
    ensures w2 == World(w.intents[w.pc.key := Intent(Submitted, None, None, None)], AfterSend(w.orders, w.pc.key, wire),
                        Executing(w.pc.key, Answered(Classify(wire, true), ReturnedId(w.orders, wire))))
  {
    hide Leads, NeverRearms;
    var key := w.pc.key;
    acts := before;
    var a := w.(pc := Executing(key, PositionsClear));
    Extend(acts, w, ClearPositions, a);
    acts := acts + [ClearPositions];
    assert OtherUnresolved(a, key) ==> OtherUnresolved(w, key);
    var b := w.(pc := Executing(key, Cleared));
    Extend(acts, a, ClearIntents, b);
    acts := acts + [ClearIntents];
    var c := Next(b, MarkSubmitted);
    Extend(acts, b, MarkSubmitted, c);
    acts := acts + [MarkSubmitted];
    w2 := Next(c, Send(wire));
    Extend(acts, c, Send(wire), w2);
    acts := acts + [Send(wire)];
  }

  const LOST_ROW := Intent(Abandoned, None, None, Some(NothingFound))

  /** From boot to an order in flight whose answer is about to be marked. */
  lemma FirstSubmitRun(key: Key, wire: Wire) returns (acts: seq<Action>, w: World)
    requires wire != NotSent
    ensures Leads(START, acts, w) && NeverRearms(acts)
    ensures w == World(map[key := Intent(Submitted, None, None, None)], AfterSend([], key, wire),
                       Executing(key, Answered(Classify(wire, true), ReturnedId([], wire))))
  {
    hide Leads, NeverRearms;
    acts := BootRun();
    var armed := World(map[key := NewIntent()], [], Executing(key, Armed));
    Extend(acts, World(map[], [], Ready), Arm(key), armed);
    acts := acts + [Arm(key)];
    acts, w := SubmitRun(acts, armed, wire);
  }

  function LostWorld(key: Key, fate: Fate): World {
    World(map[key := Intent(Ambiguous, None, None, Some(OutcomeUnknown))], [Order(key, fate)], Ready)
  }

  /** The reply to the first submission is lost. */
  lemma LostInFlightRun(key: Key) returns (acts: seq<Action>)
    ensures Leads(START, acts, LostWorld(key, InFlight)) && NeverRearms(acts)
  {
    hide Leads, NeverRearms;
    var sent;
    acts, sent := FirstSubmitRun(key, NoReply);
    Extend(acts, sent, MarkAnswer, LostWorld(key, InFlight));
    acts := acts + [MarkAnswer];
  }

  /** The reply is lost, the order fills, and the position closes again. */
  lemma LostAndClosedRun(key: Key) returns (acts: seq<Action>)
    ensures Leads(START, acts, LostWorld(key, Closed)) && NeverRearms(acts)
  {
    hide Leads, NeverRearms;
    acts := LostInFlightRun(key);
    assert LostWorld(key, InFlight).orders[0 := Order(key, Open)] == [Order(key, Open)];
    Extend(acts, LostWorld(key, InFlight), Land(0), LostWorld(key, Open));
    acts := acts + [Land(0)];
    assert LostWorld(key, Open).orders[0 := Order(key, Closed)] == [Order(key, Closed)];
    Extend(acts, LostWorld(key, Open), Close(0), LostWorld(key, Closed));
    acts := acts + [Close(0)];
  }

  function LostRead(key: Key): World { LostWorld(key, Closed).(pc := Settling([key], [])) }

  /** The reconcile reads a broker that has nothing on the instrument any more. */
  lemma LostReadRun(key: Key) returns (acts: seq<Action>)
    ensures Leads(START, acts, LostRead(key)) && NeverRearms(acts)
  {
    hide Leads, NeverRearms;
    acts := LostAndClosedRun(key);
    var closed := LostWorld(key, Closed);
    assert ListsUnresolved(closed.intents, [key]);
    assert AllSettled(closed.orders) == closed.orders && OpenPositions(closed.orders) == [];
    Extend(acts, closed, ReadBroker([key]), LostRead(key));
    acts := acts + [ReadBroker([key])];
  }

  /** Submitted; the reply was lost; it filled and closed; the reconcile then found nothing. */
  lemma LostFillRun(key: Key) returns (acts: seq<Action>, w: World)
    ensures Leads(START, acts, w) && NeverRearms(acts)
    ensures w == World(map[key := LOST_ROW], [Order(key, Closed)], Ready)
  {
    hide Leads, NeverRearms;
    acts := LostReadRun(key);
    var abandoned := World(map[key := LOST_ROW], [Order(key, Closed)], Settling([], []));
    assert [key][1..] == [];
    Extend(acts, LostRead(key), SettleAbandoned, abandoned);
    acts := acts + [SettleAbandoned];
    w := abandoned.(pc := Ready);
    Extend(acts, abandoned, EndSettling, w);
    acts := acts + [EndSettling];
  }

  /**
   The code as it is: for every execution id there is a run in which the broker accepts two
   orders for it. The second follows a re-arm of a row abandoned because nothing was found.
   */
  lemma ReopenSecondOrder(key: Key)
    ensures exists acts, w :: Leads(START, acts, w) && |w.orders| == 2
              && w.orders[0] == Order(key, Closed) && w.orders[1] == Order(key, Open)
  {
    hide Leads, NeverRearms;
    var acts, armed := RearmedLostRun(key);
    var w;
    acts, w := SubmitRun(acts, armed, NoReply);
    assert w.orders == [Order(key, Closed), Order(key, InFlight)];
    var second := w.(orders := [Order(key, Closed), Order(key, Open)]);
    Extend(acts, w, Land(1), second);
    assert Leads(START, acts + [Land(1)], second);
  }

  /** The rows `reopen` admits that a run can have written. */
  predicate Reopenable(row: Intent) {
    row in {Intent(Failed, None, None, Some(Refused)), Intent(Failed, None, None, Some(BrokerRefused)),
            Intent(Abandoned, None, None, Some(NeverSubmitted)), LOST_ROW}
  }

  /** The row just re-armed after its order was lost, filled and closed. */
  lemma RearmedLostRun(key: Key) returns (acts: seq<Action>, w: World)
    ensures Leads(START, acts, w)
    ensures w == World(map[key := NewIntent()], [Order(key, Closed)], Executing(key, Armed))
  {
    hide Leads, NeverRearms;
    acts, w := LostFillRun(key);
    var armed := World(map[key := NewIntent()], w.orders, Executing(key, Armed));
    Extend(acts, w, Rearm(key), armed);
    acts, w := acts + [Rearm(key)], armed;
  }

  /** The re-armed row is sent again and the broker answers with a refusal. */
  lemma RefusedAgainRun(key: Key) returns (acts: seq<Action>, w: World)
    ensures Leads(START, acts, w) && w.orders == [Order(key, Closed), Order(key, Dead)]
    ensures w.intents == map[key := Intent(Failed, None, None, Some(BrokerRefused))]
  {
    hide Leads, NeverRearms;
    var armed;
    acts, armed := RearmedLostRun(key);
    var sent;
    acts, sent := SubmitRun(acts, armed, ErrorStatus(400));
    w := Next(sent, MarkAnswer);
    Extend(acts, sent, MarkAnswer, w);
    acts := acts + [MarkAnswer];
  }

  function RearmedRead(key: Key): World {
    World(map[key := NewIntent()], [Order(key, Closed)], Settling([key], []))
  }

  /** The process dies before the re-armed row is sent, and the next reconcile reads the broker. */
  lemma DiesBeforeSendingRun(key: Key) returns (acts: seq<Action>)
    ensures Leads(START, acts, RearmedRead(key))
  {
    hide Leads, NeverRearms;
    var armed;
    acts, armed := RearmedLostRun(key);
    var down := armed.(pc := Down);
    Extend(acts, armed, Crash, down);
    acts := acts + [Crash];
    assert ListsUnresolved(down.intents, [key]);
    assert AllSettled(down.orders) == down.orders && OpenPositions(down.orders) == [];
    Extend(acts, down, ReadBroker([key]), RearmedRead(key));
    acts := acts + [ReadBroker([key])];
  }

  /** And abandons the row as never submitted. */
  lemma NeverSentAgainRun(key: Key) returns (acts: seq<Action>, w: World)
    ensures Leads(START, acts, w) && w.orders == [Order(key, Closed)]
    ensures w.intents == map[key := Intent(Abandoned, None, None, Some(NeverSubmitted))]
  {
    hide Leads, NeverRearms;
    acts := DiesBeforeSendingRun(key);
    var read := RearmedRead(key);
    w := Next(read, SettleAbandoned);
    Extend(acts, read, SettleAbandoned, w);
    acts := acts + [SettleAbandoned];
  }

  /** A refused or abandoned row says why. */
  ghost predicate RowsSayWhy(w: World) {
    forall k :: k in w.intents ==>
      && (w.intents[k].status == Failed ==> w.intents[k].reason in {Some(Refused), Some(BrokerRefused)})
      && (w.intents[k].status == Abandoned ==> w.intents[k].reason in {Some(NeverSubmitted), Some(NothingFound)})
  }

  lemma StepKeepsReasons(w: World, a: Action)
    requires RowsSayWhy(w) && Enabled(w, a)
    ensures RowsSayWhy(Next(w, a))
  {
    hide AllSettled, OpenPositions, AfterSend, ReturnedId, Classify, Matches;
  }

  lemma {:induction false} RunKeepsReasons(w: World, acts: seq<Action>, w2: World)
    requires RowsSayWhy(w) && Leads(w, acts, w2)
    ensures RowsSayWhy(w2)
    decreases |acts|
  {
    if acts != [] {
      StepKeepsReasons(w, acts[0]);
      RunKeepsReasons(Next(w, acts[0]), acts[1..], w2);
    }
  }

  /** `reopen` never meets any other row than these four. */
  lemma RowsToReopenAreFour(acts: seq<Action>, w: World, key: Key)
    requires Leads(START, acts, w) && key in w.intents && w.intents[key].Rearmable()
    ensures Reopenable(w.intents[key])
  {
    RunKeepsReasons(START, acts, w);
  }

  /**
   The code as it is: no row that `reopen` admits proves anything of an id once it has been
   re-armed on a nothing-found row. For each of them, and every id, there is a run that ends
   in it although an order of the id was accepted.
   */
  lemma AReopenedRowProvesNothing(key: Key, row: Intent)
    requires Reopenable(row)
    ensures row.Rearmable()
    ensures exists acts, w :: Leads(START, acts, w) && w.intents == map[key := row] && !ProvenUnaccepted(w, key)
  {
    hide Leads, NeverRearms;
    var acts, w;
    if row == LOST_ROW {
      acts, w := LostFillRun(key);
    } else if row.status == Abandoned {
      acts, w := NeverSentAgainRun(key);
    } else if row.reason == Some(BrokerRefused) {
      acts, w := RefusedAgainRun(key);
    } else {
      var armed;
      acts, armed := RearmedLostRun(key);
      w := Next(armed, Refuse);
      Extend(acts, armed, Refuse, w);
      acts := acts + [Refuse];
    }
    assert w.orders[0] == Order(key, Closed) && !ProvenUnaccepted(w, key);
  }

  /** Holding this row proves that no order of its id was accepted, if the id was never re-armed unproven. */
  ghost predicate RowProves(row: Intent) {
    forall acts, w, key | Leads(START, acts, w) && Cautious(START, acts, key) && key in w.intents && w.intents[key] == row ::
      ProvenUnaccepted(w, key)
  }

  /**
   Of the rows `reopen` admits, exactly those prove it whose failure reason is anything but
   "nothing was found", as long as none of the others has been re-armed for the id before.
   */
  lemma RearmIsProvenSafeExactlyWhen(row: Intent)
    requires row.Rearmable()
    ensures RowProves(row) <==> !row.Unproven()
  {
    if row.Unproven() {
      var key := Key("EURUSD", Buy, 0);
      var acts, w := LostFillRun(key);
      NeverRearmingIsCautious(START, acts, w, key);
      assert w.orders[0].key == key && w.orders[0].fate == Closed && w.intents[key] == row;
      assert !ProvenUnaccepted(w, key);
    } else {
      forall acts, w, key | Leads(START, acts, w) && Cautious(START, acts, key) && key in w.intents && w.intents[key] == row
        ensures ProvenUnaccepted(w, key)
      {
        CautiousRunStaysTruthful(START, acts, w, key);
      }
    }
  }

  function FilledWorld(key: Key): World {
    World(map[key := Intent(Filled, Some(0), Some(0), None)], [Order(key, Open)], Ready)
  }

  function AckedWorld(key: Key, fate: Fate): World {
    World(map[key := Intent(Acknowledged, Some(0), None, None)], [Order(key, fate)], Executing(key, Acked))
  }

  /** From boot to an order acknowledged. */
  lemma AckedRun(key: Key) returns (acts: seq<Action>)
    ensures Leads(START, acts, AckedWorld(key, InFlight)) && NeverRearms(acts)
  {
    hide Leads, NeverRearms;
    var w;
    acts, w := FirstSubmitRun(key, Reply(true));
    Extend(acts, w, MarkAnswer, AckedWorld(key, InFlight));
    acts := acts + [MarkAnswer];
  }

  /** The order opens its position. */
  lemma LandedRun(key: Key) returns (acts: seq<Action>)
    ensures Leads(START, acts, AckedWorld(key, Open)) && NeverRearms(acts)
  {
    hide Leads, NeverRearms;
    acts := AckedRun(key);
    assert AckedWorld(key, InFlight).orders[0 := Order(key, Open)] == [Order(key, Open)];
    Extend(acts, AckedWorld(key, InFlight), Land(0), AckedWorld(key, Open));
    acts := acts + [Land(0)];
  }

  /** From boot to a position opened and verified. */
  lemma FilledRun(key: Key) returns (acts: seq<Action>)
    ensures Leads(START, acts, FilledWorld(key)) && NeverRearms(acts)
  {
    hide Leads, NeverRearms;
    SameIsSymmetric(key, key);
    acts := LandedRun(key);
    var seen := AckedWorld(key, Open).(pc := Executing(key, Seen(0)));
    Extend(acts, AckedWorld(key, Open), SeePosition(0), seen);
    acts := acts + [SeePosition(0)];
    Extend(acts, seen, MarkFilled, FilledWorld(key));
    acts := acts + [MarkFilled];
  }

  /** With a position open for another id, an armed intent crashes before any of its checks. */
  lemma CrashedArmRun(other: Key, mine: Key) returns (acts: seq<Action>)
    requires mine != other
    ensures Leads(START, acts, CrashedArm(other, mine)) && NeverRearms(acts)
  {
    hide Leads, NeverRearms;
    acts := FilledRun(other);
    var armed := CrashedArm(other, mine).(pc := Executing(mine, Armed));
    Extend(acts, FilledWorld(other), Arm(mine), armed);
    acts := acts + [Arm(mine)];
    Extend(acts, armed, Crash, CrashedArm(other, mine));
    acts := acts + [Crash];
  }

  function CrashedArm(other: Key, mine: Key): World {
    var filled := FilledWorld(other);
    World(filled.intents[mine := NewIntent()], filled.orders, Down)
  }

  /**
   A row still CREATED when a reconcile finds a position on its instrument is marked filled
   with that position, although the position is another id's and nothing was ever sent for it.
   */
  lemma CreatedRowCanAdoptAForeignPosition(other: Key, mine: Key)
    requires mine != other && Same(other, mine) && other.direction == mine.direction
    ensures exists acts, w :: Leads(START, acts, w) && NeverRearms(acts) && w.orders == [Order(other, Open)]
              && mine in w.intents && w.intents[mine] == Intent(Filled, None, Some(0), None)
  {
    hide Leads, NeverRearms;
    var acts := CrashedArmRun(other, mine);
    var down := CrashedArm(other, mine);
    var read := down.(pc := Settling([mine], [0]));
    assert ListsUnresolved(down.intents, [mine]);
    assert OpenPositions(down.orders[..0]) == [] && OpenPositions(down.orders) == [0];
    assert AllSettled(down.orders) == down.orders;
    Extend(acts, down, ReadBroker([mine]), read);
    acts := acts + [ReadBroker([mine])];
    var adopted := Next(read, SettleFilled(0));
    Extend(acts, read, SettleFilled(0), adopted);
    acts := acts + [SettleFilled(0)];
    assert adopted.intents[mine] == Intent(Filled, None, Some(0), None);
  }
}
