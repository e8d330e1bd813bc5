/**
 The order protocol as a labelled step system over the intent table, the broker's own
 record of what was sent to it, and the program counter of the one running execute or
 reconcile. Every persisted write and every broker call is a step, and a crash can follow
 any step, so a property of every reachable state is a property after every crash.

 What the environment is assumed to do, all of it visible in `Next`:
   - only this bot opens positions on the account (only `Send` adds an order);
   - executes are serialised and a reconcile does not interleave with one (one `Pc`);
   - an answer that is not 5xx, lost or unreadable proves the order was not accepted;
   - an answer no handler names escapes and leaves the row as it is (`Escape`);
   - an order absent from positions and history when a reconcile reads them never lands
     later (`ReadBroker` settles whatever is still in flight).
 */
module OrderProtocol {
  import opened Wrappers
  import opened Symbols
  import opened Transport

  /** An execution id: a collision-free digest of the instrument, the side and the rounded setup. */
  datatype Key = Key(symbol: string, direction: Direction, setup: nat)

  predicate Same(a: Key, b: Key) { SameInstrument(a.symbol, b.symbol) }

  datatype Status = Created | Submitted | Acknowledged | Ambiguous | Filled | Failed | Abandoned

  /** Why an intent failed, went ambiguous or was abandoned (the row's failure reason). */
  datatype Reason = Refused | BrokerRefused | OutcomeUnknown | NoPositionSeen | NeverSubmitted | NothingFound

  /** One row of the intent table. Order and position ids are the broker's own numbering. */
  datatype Intent = Intent(status: Status, orderId: Option<nat>, positionId: Option<nat>, reason: Option<Reason>) {

    predicate Unresolved() { status in {Created, Submitted, Acknowledged, Ambiguous} }

    /** Unresolved, and the order may have left this process. */
    predicate InDoubt() { status in {Submitted, Acknowledged, Ambiguous} }

    /** The rows `reopen` admits. */
    predicate Rearmable() { status in {Failed, Abandoned} && orderId.None? && positionId.None? }

    /** Abandoned only because a reconcile found nothing: an order that closed early ends here too. */
    predicate Unproven() { status == Abandoned && reason == Some(NothingFound) }
  }

  /** A new value replaces a column only when there is one. */
  function Coalesce<T>(given: Option<T>, stored: Option<T>): Option<T> {
    if given.Some? then given else stored
  }

  function Mark(row: Intent, status: Status, orderId: Option<nat>, positionId: Option<nat>, reason: Option<Reason>): Intent {
    Intent(status, Coalesce(orderId, row.orderId), Coalesce(positionId, row.positionId), Coalesce(reason, row.reason))
  }

  function NewIntent(): Intent { Intent(Created, None, None, None) }

  function Rearmed(row: Intent): Intent { row.(status := Created, reason := None) }

  /** What has become of an order the broker was sent. */
  datatype Fate = InFlight | Open | Closed | Dead

  datatype Order = Order(key: Key, fate: Fate) {
    /** It holds a position, or may come to hold one. */
    predicate Live() { fate == InFlight || fate == Open }

    /** The broker accepted it at some time. */
    predicate Landed() { fate == Open || fate == Closed }
  }

  datatype Stage =
    | Armed                        // the intent is persisted as CREATED
    | PositionsClear               // a live read showed no position on the instrument
    | Cleared                      // and no other unresolved intent on it
    | Sending                      // the intent is persisted as SUBMITTED
    | Answered(outcome: Outcome, orderId: Option<nat>)
    | Acked                        // the intent is persisted as ACKNOWLEDGED
    | Seen(position: nat)          // a matching position was read back

  datatype Pc =
    | Down
    | Ready
    | Executing(key: Key, stage: Stage)
    | Settling(todo: seq<Key>, seen: seq<nat>)

  datatype World = World(intents: map<Key, Intent>, orders: seq<Order>, pc: Pc)

  const START := World(map[], [], Down)

  datatype Action =
    | Arm(key: Key)
    | Rearm(key: Key)
    | ClearPositions
    | ClearIntents
    | Refuse
    | MarkSubmitted
    | Send(wire: Wire)
    | MarkAnswer
    | SeePosition(position: nat)
    | SeeNothing
    | MarkFilled
    | ReadBroker(todo: seq<Key>)
    | StartBlind                         // startup completes although positions could not be read
    | SettleFilled(position: nat)
    | SettleHistorical
    | SettleAbandoned
    | EndSettling
    | Escape                             // an exception nothing names leaves the execute or the reconcile
    | Crash
    | Land(order: nat)                   // environment: an order in flight opens a position
    | Vanish(order: nat)                 // environment: an order in flight dies
    | Close(order: nat)                  // environment: a position closes

  // ---------------------------------------------------------------- reads

  predicate IsOpenAt(w: World, i: nat) { i < |w.orders| && w.orders[i].fate == Open }

  predicate PositionOn(w: World, key: Key) {
    exists i :: 0 <= i < |w.orders| && w.orders[i].fate == Open && Same(w.orders[i].key, key)
  }

  predicate OtherUnresolved(w: World, key: Key) {
    exists k :: k in w.intents && w.intents[k].Unresolved() && k != key && Same(k, key)
  }

  /** The positions a read returns: the broker's order numbers that hold one, in broker order. */
  function OpenPositions(orders: seq<Order>): (open: seq<nat>)
    ensures forall i :: i in open <==> 0 <= i < |orders| && orders[i].fate == Open
  {
    if orders == [] then []
    else
      var n := |orders| - 1;
      OpenPositions(orders[..n]) + (if orders[n].fate == Open then [n] else [])
  }

  predicate Matches(w: World, key: Key, position: nat) {
    position < |w.orders| && Same(w.orders[position].key, key) && w.orders[position].key.direction == key.direction
  }

  /** `todo` lists each unresolved intent once. */
  ghost predicate ListsUnresolved(intents: map<Key, Intent>, todo: seq<Key>) {
    (forall k :: k in todo <==> k in intents && intents[k].Unresolved())
    && (forall i, j :: 0 <= i < j < |todo| ==> todo[i] != todo[j])
  }

  function Settled(order: Order): Order {
    if order.fate == InFlight then order.(fate := Dead) else order
  }

  function AllSettled(orders: seq<Order>): (settled: seq<Order>)
    ensures |settled| == |orders|
    ensures forall i :: 0 <= i < |orders| ==> settled[i] == Settled(orders[i])
  {
    seq(|orders|, i requires 0 <= i < |orders| => Settled(orders[i]))
  }

  function AfterSend(orders: seq<Order>, key: Key, wire: Wire): seq<Order> {
    if wire == NotSent then orders
    else orders + [Order(key, if MayHaveLanded(wire) then InFlight else Dead)]
  }

  /** The id that comes back: the broker's number for the order, when the answer carries one. */
  function ReturnedId(orders: seq<Order>, wire: Wire): Option<nat> {
    if wire.Reply? && wire.withId then Some(|orders|) else None
  }

  // ---------------------------------------------------------------- steps

  ghost predicate Enabled(w: World, a: Action) {
    match a
    case Arm(k) => w.pc == Ready && k !in w.intents
    case Rearm(k) => w.pc == Ready && k in w.intents && w.intents[k].Rearmable()
    case ClearPositions => w.pc.Executing? && w.pc.stage == Armed && !PositionOn(w, w.pc.key)
    case ClearIntents => w.pc.Executing? && w.pc.stage == PositionsClear && !OtherUnresolved(w, w.pc.key)
    case Refuse =>
      w.pc.Executing? && w.pc.key in w.intents
      && (w.pc.stage == Armed || w.pc.stage == PositionsClear || w.pc.stage == Cleared)
    case MarkSubmitted => w.pc.Executing? && w.pc.stage == Cleared && w.pc.key in w.intents
    case Send(wire) => w.pc.Executing? && w.pc.stage == Sending
    case MarkAnswer => w.pc.Executing? && w.pc.stage.Answered? && !w.pc.stage.outcome.Raised? && w.pc.key in w.intents
    case SeePosition(i) => w.pc.Executing? && w.pc.stage == Acked && IsOpenAt(w, i) && Matches(w, w.pc.key, i)
    case SeeNothing => w.pc.Executing? && w.pc.stage == Acked && w.pc.key in w.intents
    case MarkFilled => w.pc.Executing? && w.pc.stage.Seen? && w.pc.key in w.intents
    case ReadBroker(todo) => (w.pc == Down || w.pc == Ready) && ListsUnresolved(w.intents, todo)
    case StartBlind => w.pc == Down
    case SettleFilled(i) =>
      w.pc.Settling? && w.pc.todo != [] && w.pc.todo[0] in w.intents
      && i in w.pc.seen && Matches(w, w.pc.todo[0], i)
    case SettleHistorical =>
      w.pc.Settling? && w.pc.todo != [] && w.pc.todo[0] in w.intents && NoneSeen(w)
      && w.intents[w.pc.todo[0]].orderId.Some? && w.intents[w.pc.todo[0]].orderId.value < |w.orders|
    case SettleAbandoned => w.pc.Settling? && w.pc.todo != [] && w.pc.todo[0] in w.intents && NoneSeen(w)
    case EndSettling => w.pc.Settling? && w.pc.todo == []
    case Escape => w.pc.Executing? || w.pc.Settling?
    case Crash => true
    case Land(i) => i < |w.orders| && w.orders[i].fate == InFlight
    case Vanish(i) => i < |w.orders| && w.orders[i].fate == InFlight
    case Close(i) => i < |w.orders| && w.orders[i].fate == Open
  }

  ghost predicate NoneSeen(w: World)
    requires w.pc.Settling? && w.pc.todo != []
  {
    forall i :: i in w.pc.seen ==> !Matches(w, w.pc.todo[0], i)
  }

  function Abandonment(row: Intent): Intent {
    Mark(row, Abandoned, None, None, Some(if row.status == Created then NeverSubmitted else NothingFound))
  }

  /** What the executor persists for each way the write can come back. */
  function MarkedAnswer(row: Intent, outcome: Outcome, orderId: Option<nat>): Intent {
    if outcome.Accepted? then Mark(row, Acknowledged, orderId, None, None)
    else if outcome == Outcome.Rejected then Mark(row, Failed, None, None, Some(BrokerRefused))
    else Mark(row, Ambiguous, None, None, Some(OutcomeUnknown))
  }

  function SetFate(w: World, i: nat, fate: Fate): World
    requires i < |w.orders|
  {
    w.(orders := w.orders[i := w.orders[i].(fate := fate)])
  }

  /** Persists one row and moves the program counter. */
  function Write(w: World, key: Key, row: Intent, pc: Pc): World {
    w.(intents := w.intents[key := row], pc := pc)
  }

  ghost function Next(w: World, a: Action): World
    requires Enabled(w, a)
  {
    match a
    case Arm(k) => Write(w, k, NewIntent(), Executing(k, Armed))
    case Rearm(k) => Write(w, k, Rearmed(w.intents[k]), Executing(k, Armed))
    case ClearPositions => w.(pc := Executing(w.pc.key, PositionsClear))
    case ClearIntents => w.(pc := Executing(w.pc.key, Cleared))
    case Refuse => Write(w, w.pc.key, Mark(w.intents[w.pc.key], Failed, None, None, Some(Refused)), Ready)
    case MarkSubmitted =>
      Write(w, w.pc.key, Mark(w.intents[w.pc.key], Submitted, None, None, None), Executing(w.pc.key, Sending))
    case Send(wire) =>
      w.(orders := AfterSend(w.orders, w.pc.key, wire),
         pc := Executing(w.pc.key, Answered(Classify(wire, true), ReturnedId(w.orders, wire))))
    case MarkAnswer =>
      Write(w, w.pc.key, MarkedAnswer(w.intents[w.pc.key], w.pc.stage.outcome, w.pc.stage.orderId),
            if w.pc.stage.outcome.Accepted? then Executing(w.pc.key, Acked) else Ready)
    case SeePosition(i) => w.(pc := Executing(w.pc.key, Seen(i)))
    case SeeNothing =>
      Write(w, w.pc.key, Mark(w.intents[w.pc.key], Ambiguous, None, None, Some(NoPositionSeen)), Ready)
    case MarkFilled =>
      Write(w, w.pc.key, Mark(w.intents[w.pc.key], Filled, None, Some(w.pc.stage.position), None), Ready)
    case ReadBroker(todo) =>
      w.(orders := AllSettled(w.orders), pc := Settling(todo, OpenPositions(w.orders)))
    case StartBlind => w.(pc := Ready)
    case SettleFilled(i) =>
      Write(w, w.pc.todo[0], Mark(w.intents[w.pc.todo[0]], Filled, None, Some(i), None),
            Settling(w.pc.todo[1..], w.pc.seen))
    case SettleHistorical =>
      Write(w, w.pc.todo[0], Mark(w.intents[w.pc.todo[0]], Filled, None, None, None),
            Settling(w.pc.todo[1..], w.pc.seen))
    case SettleAbandoned =>
      Write(w, w.pc.todo[0], Abandonment(w.intents[w.pc.todo[0]]), Settling(w.pc.todo[1..], w.pc.seen))
    case EndSettling => w.(pc := Ready)
    case Escape => w.(pc := Ready)
    case Crash => w.(pc := Down)
    case Land(i) => SetFate(w, i, Open)
    case Vanish(i) => SetFate(w, i, Dead)
    case Close(i) => SetFate(w, i, Closed)
  }

  // ---------------------------------------------------------------- runs

  /** `acts`, taken one after another from `w`, end in `w2`. */
  ghost predicate Leads(w: World, acts: seq<Action>, w2: World)
    decreases |acts|
  {
    if acts == [] then w == w2
    else Enabled(w, acts[0]) && Leads(Next(w, acts[0]), acts[1..], w2)
  }

  /** No step of the run re-arms this id while its row was abandoned only because nothing was found. */
  ghost predicate Cautious(w: World, acts: seq<Action>, key: Key)
    decreases |acts|
  {
    acts == []
    || (Enabled(w, acts[0])
        && (acts[0] == Rearm(key) ==> !w.intents[key].Unproven())
        && Cautious(Next(w, acts[0]), acts[1..], key))
  }

  lemma {:induction false} LeadsConcat(w: World, a: seq<Action>, mid: World, b: seq<Action>, w2: World)
    requires Leads(w, a, mid) && Leads(mid, b, w2)
    ensures Leads(w, a + b, w2)
    decreases |a|
  {
    if a == [] {
      assert a + b == b;
    } else {
      assert (a + b)[0] == a[0] && (a + b)[1..] == a[1..] + b;
      LeadsConcat(Next(w, a[0]), a[1..], mid, b, w2);
    }
  }

  lemma LeadsStep(w: World, acts: seq<Action>, mid: World, a: Action)
    requires Leads(w, acts, mid) && Enabled(mid, a)
    ensures Leads(w, acts + [a], Next(mid, a))
  {
    assert [a][1..] == [];
    assert Leads(Next(mid, a), [], Next(mid, a));
    assert Leads(mid, [a], Next(mid, a));
    LeadsConcat(w, acts, mid, [a], Next(mid, a));
  }
}
