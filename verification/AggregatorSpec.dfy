/**
 The review event aggregator on values: one function per critical section of
 internal/agent/aggregate_sink.go.

 Each function takes the aggregator state and returns the new state together with the
 atomic operations the calling goroutine still has to perform. `mu` sections change the
 counters, buffers and tables; the `emitMu` section (EmitSection) appends to the outer log.
 No operation does both, so no goroutine ever needs both locks.
 */
module AggregatorSpec {
  import opened Sums

  /** Who an event speaks for: the aggregator itself (Source "") or the job with label group-(index+1). */
  datatype Source = Outer | Job(index: nat)

  /** PassThrough(tag) stands for every kind the streaming handler forwards as is. */
  datatype Kind = Ready | ToolStart | ToolEnd | TaskCreate | TaskUpdate | Result | Error | PassThrough(tag: nat) {
    predicate Task() { TaskCreate? || TaskUpdate? }
  }

  datatype Item = Item(id: string, body: string)

  /** toolId is "" for an event without a tool payload or with an empty id. */
  datatype Event = Event(kind: Kind, source: Source, toolId: string, items: seq<Item>, body: string) {
    predicate KeyedStart() { kind.ToolStart? && toolId != "" }
    predicate KeyedEnd() { kind.ToolEnd? && toolId != "" }
  }

  const SyntheticReady := Event(Ready, Outer, "", [], "")
  const OuterResult := Event(Result, Outer, "", [], "")

  datatype Phase = Buffering | Streaming | Closed {
    function Rank(): nat { match this case Buffering => 0 case Streaming => 1 case Closed => 2 }
  }

  datatype PerJob = PerJob(pending: map<string, Event>, initBuffer: seq<Event>)

  const EmptyJob := PerJob(map[], [])

  /**
   The aggregator's fields, plus two histories kept only to state what happened: `merged`
   is every task event merged so far in lock order, `strays` every keyed ToolEnd whose
   phase-1 lookup found no Start.
   */
  datatype Aggregator = Aggregator(
    expected: nat,
    phase: Phase,
    readyCount: nat,
    doneCount: nat,
    readyEmitted: bool,
    finalEmitted: bool,
    perJob: seq<PerJob>,
    tasks: map<string, Item>,
    log: seq<Event>,
    merged: seq<Event>,
    strays: seq<Event>)

  function NewAggregator(expected: nat): Aggregator {
    Aggregator(expected, Buffering, 0, 0, false, false, seq(expected, _ => EmptyJob), map[], [], [], [])
  }

  /** What a goroutine inside the aggregator still has to do, one atomic operation each. */
  datatype Op =
    | Handle(ev: Event)                 // handle: snapshot the phase
    | Buffer(ev: Event)                 // handleBuffering: the first section
    | Redirect(ev: Event)               // handleBuffering: the second phase load of a stale event
    | Gate                              // handleBuffering: re-lock after a phase-1 ToolEnd
    | Stream(owner: nat, ev: Event)     // handleStreaming: phase load and dispatch
    | Store(owner: nat, ev: Event)      // handleStreaming: remember a ToolStart
    | Match(owner: nat, ev: Event)      // handleStreaming: look a ToolEnd up
    | Merge(ev: Event)                  // handleStreaming: merge a task list
    | Emit(evs: seq<Event>)             // one emitMu section

  /** What Go's map iteration leaves open: the replay order and the order of a task snapshot. */
  datatype Choice = Choice(order: seq<nat>, items: seq<Item>)

  /** order lists every job once; jobs that have not called wrapJob yet have nothing to replay. */
  ghost predicate ValidOrder(order: seq<nat>, n: nat) {
    multiset(order) == multiset(Range(n))
  }

  /** items is a listing of the table, in any order. */
  ghost predicate Lists(items: seq<Item>, tasks: map<string, Item>) {
    && (forall j, k | 0 <= j < k < |items| :: items[j].id != items[k].id)
    && (forall k | 0 <= k < |items| :: items[k].id in tasks && tasks[items[k].id] == items[k])
    && (forall id | id in tasks :: tasks[id] in items)
  }

  /** The task table after merging items one by one, the latest item of an id winning. */
  function MergeItems(tasks: map<string, Item>, items: seq<Item>): map<string, Item>
    decreases items
  {
    if items == [] then tasks else MergeItems(tasks[items[0].id := items[0]], items[1..])
  }

  // ----- the sections -----

  function WrapSection(a: Aggregator, i: nat): Aggregator
    requires i < |a.perJob|
  {
    a.(perJob := a.perJob[i := EmptyJob])
  }

  function HandleSection(a: Aggregator, i: nat, ev: Event): seq<Op> {
    match a.phase
    case Buffering => [Buffer(ev)]
    case Streaming => [Stream(i, ev)]
    case Closed => []
  }

  function RedirectSection(a: Aggregator, i: nat, ev: Event): seq<Op> {
    if a.phase.Closed? then [] else [Stream(i, ev)]
  }

  function ReplayJob(owner: nat, events: seq<Event>): seq<Op> {
    seq(|events|, k requires 0 <= k < |events| => Stream(owner, events[k]))
  }

  function Replay(perJob: seq<PerJob>, order: seq<nat>): seq<Op> {
    if order == [] then []
    else if order[0] < |perJob| then
      ReplayJob(order[0], perJob[order[0]].initBuffer) + Replay(perJob, order[1..])
    else
      Replay(perJob, order[1..])
  }

  function ClearBuffers(perJob: seq<PerJob>): (r: seq<PerJob>)
    ensures |r| == |perJob|
    ensures forall k | 0 <= k < |r| :: r[k] == PerJob(perJob[k].pending, [])
  {
    seq(|perJob|, k requires 0 <= k < |perJob| => perJob[k].(initBuffer := []))
  }

  /** The end of a handleBuffering section: leave phase 1 once every expected Ready was counted. */
  function TransitionGate(a: Aggregator, order: seq<nat>): (Aggregator, seq<Op>) {
    if a.readyCount >= a.expected && !a.readyEmitted then
      (a.(readyEmitted := true, phase := Streaming, perJob := ClearBuffers(a.perJob)),
       [Emit([SyntheticReady])] + Replay(a.perJob, order))
    else
      (a, [])
  }

  function Buffered(a: Aggregator, i: nat, ev: Event): Aggregator
    requires i < |a.perJob|
  {
    a.(perJob := a.perJob[i := a.perJob[i].(initBuffer := a.perJob[i].initBuffer + [ev])])
  }

  function BufferSection(a: Aggregator, i: nat, ev: Event, order: seq<nat>): (Aggregator, seq<Op>)
    requires i < |a.perJob|
  {
    var p := a.perJob[i];
    if !a.phase.Buffering? then (a, [Redirect(ev)])
    else if ev.kind.Ready? then
      TransitionGate(Buffered(a, i, ev).(readyCount := a.readyCount + 1), order)
    else if ev.KeyedStart() then
      TransitionGate(
        a.(perJob := a.perJob[i := PerJob(p.pending[ev.toolId := ev], p.initBuffer + [ev])]), order)
    else if ev.KeyedEnd() then
      if ev.toolId in p.pending then
        (a.(perJob := a.perJob[i := PerJob(p.pending - {ev.toolId}, p.initBuffer)]),
         [Emit([p.pending[ev.toolId], ev]), Gate])
      else
        (Buffered(a, i, ev).(strays := a.strays + [ev]), [Emit([ev]), Gate])
    else
      TransitionGate(Buffered(a, i, ev), order)
  }

  function GateSection(a: Aggregator, order: seq<nat>): (Aggregator, seq<Op>) {
    if !a.phase.Buffering? then (a, []) else TransitionGate(a, order)
  }

  function StreamSection(a: Aggregator, owner: nat, ev: Event): seq<Op> {
    if a.phase.Closed? then []
    else match ev.kind
      case Ready => []
      case ToolStart => if ev.toolId != "" then [Store(owner, ev)] else []
      case ToolEnd => if ev.toolId != "" then [Match(owner, ev)] else []
      case TaskCreate => [Merge(ev)]
      case TaskUpdate => [Merge(ev)]
      case Result => []
      case Error => []
      case PassThrough(_) => [Emit([ev])]
  }

  function StoreSection(a: Aggregator, owner: nat, ev: Event): Aggregator
    requires owner < |a.perJob|
  {
    var p := a.perJob[owner];
    a.(perJob := a.perJob[owner := p.(pending := p.pending[ev.toolId := ev])])
  }

  function MatchSection(a: Aggregator, owner: nat, ev: Event): (Aggregator, seq<Op>)
    requires owner < |a.perJob|
  {
    var p := a.perJob[owner];
    if ev.toolId in p.pending then
      (a.(perJob := a.perJob[owner := p.(pending := p.pending - {ev.toolId})]),
       [Emit([p.pending[ev.toolId], ev])])
    else
      (a, [Emit([ev])])
  }

  function Snapshot(ev: Event, items: seq<Item>): Event {
    Event(ev.kind, ev.source, "", items, "")
  }

  /** items is the listing of the merged table that the map iteration produced. */
  function MergeSection(a: Aggregator, ev: Event, items: seq<Item>): (Aggregator, seq<Op>) {
    (a.(tasks := MergeItems(a.tasks, ev.items), merged := a.merged + [ev]),
     [Emit([Snapshot(ev, items)])])
  }

  function EmitSection(a: Aggregator, evs: seq<Event>): Aggregator {
    a.(log := a.log + evs)
  }

  function MarkDoneSection(a: Aggregator): (Aggregator, seq<Op>) {
    if a.finalEmitted then (a, [])
    else if a.doneCount + 1 >= a.expected then
      (a.(doneCount := a.doneCount + 1, finalEmitted := true, phase := Closed), [Emit([OuterResult])])
    else
      (a.(doneCount := a.doneCount + 1), [])
  }

  /** finalize counts the missing jobs first, so its own completion test always holds. */
  function FinalizeSection(a: Aggregator): (Aggregator, seq<Op>) {
    if a.finalEmitted then (a, [])
    else
      (a.(doneCount := if a.expected > a.doneCount then a.expected else a.doneCount,
          finalEmitted := true, phase := Closed),
       [Emit([OuterResult])])
  }

  /** One atomic operation of job i's goroutine. */
  function ExecOp(a: Aggregator, i: nat, op: Op, c: Choice): (Aggregator, seq<Op>)
    requires i < |a.perJob|
  {
    match op
    case Handle(ev) => (a, HandleSection(a, i, ev))
    case Buffer(ev) => BufferSection(a, i, ev, c.order)
    case Redirect(ev) => (a, RedirectSection(a, i, ev))
    case Gate => GateSection(a, c.order)
    case Stream(owner, ev) => (a, StreamSection(a, owner, ev))
    case Store(owner, ev) => if owner < |a.perJob| then (StoreSection(a, owner, ev), []) else (a, [])
    case Match(owner, ev) => if owner < |a.perJob| then MatchSection(a, owner, ev) else (a, [])
    case Merge(ev) => MergeSection(a, ev, c.items)
    case Emit(evs) => (EmitSection(a, evs), [])
  }

  ghost predicate ValidChoice(a: Aggregator, op: Op, c: Choice) {
    && ValidOrder(c.order, |a.perJob|)
    && (op.Merge? ==> Lists(c.items, MergeItems(a.tasks, op.ev.items)))
  }
}
