/**
 The chat session's message queue on values: two sequences, in flight and pending.
 What internal/chatsession/message_queue.go promises over whole histories of calls is proved
 here; MessageQueue.dfy proves that the linked list does exactly these steps.
 */
module QueueSpec {

  /** MessageKindQueue is a barrier: it always travels alone. */
  datatype Kind = Normal | Barrier
  datatype Message = Message(id: string, kind: Kind, body: string)

  datatype Queue = Queue(inFlight: seq<Message>, pending: seq<Message>, capacity: nat) {
    function Contents(): seq<Message> { inFlight + pending }
    predicate Full() { capacity > 0 && |inFlight| + |pending| >= capacity }
  }

  datatype Outcome = Accepted | Ignored | ErrFull

  function New(capacity: int): Queue { Queue([], [], if capacity < 0 then 0 else capacity) }

  // ----- batches -----

  /** The length of the leading run of Normal messages. */
  function NormalRun(p: seq<Message>): (n: nat)
    ensures n <= |p|
    ensures forall k | 0 <= k < n :: p[k].kind.Normal?
    ensures n < |p| ==> p[n].kind.Barrier?
  {
    if p == [] || p[0].kind.Barrier? then 0 else 1 + NormalRun(p[1..])
  }

  function BatchSize(p: seq<Message>): (n: nat)
    ensures n <= |p| && (p != [] ==> n > 0)
  {
    if p == [] then 0 else if NormalRun(p) == 0 then 1 else NormalRun(p)
  }

  function Batch(p: seq<Message>): seq<Message> { p[..BatchSize(p)] }

  // ----- the operations -----

  function Peek(q: Queue): (Queue, seq<Message>) {
    var n := BatchSize(q.pending);
    (q.(inFlight := q.inFlight + q.pending[..n], pending := q.pending[n..]), q.pending[..n])
  }

  function PushOutcome(q: Queue, msg: Message): Outcome {
    if msg.id == "" then Ignored else if q.Full() then ErrFull else Accepted
  }

  function Push(q: Queue, msg: Message): Queue {
    if PushOutcome(q, msg).Accepted? then q.(pending := q.pending + [msg]) else q
  }

  function PushFront(q: Queue, msg: Message): Queue {
    if PushOutcome(q, msg).Accepted? then q.(pending := [msg] + q.pending) else q
  }

  function Commit(q: Queue): Queue { q.(inFlight := []) }

  function Rewind(q: Queue): Queue { q.(inFlight := [], pending := q.inFlight + q.pending) }

  /** The position of the first message with this id; |s| when there is none. */
  function Find(s: seq<Message>, id: string): (k: nat)
    ensures k <= |s|
    ensures forall j | 0 <= j < k :: s[j].id != id
    ensures k < |s| ==> s[k].id == id
  {
    if s == [] || s[0].id == id then 0 else 1 + Find(s[1..], id)
  }

  function Without(s: seq<Message>, k: nat): seq<Message>
    requires k < |s|
  {
    s[..k] + s[k + 1..]
  }

  function Remove(q: Queue, id: string): (Queue, seq<Message>) {
    var k := Find(q.Contents(), id);
    if k == |q.Contents()| then (q, [])
    else if k < |q.inFlight| then (q.(inFlight := Without(q.inFlight, k)), [q.inFlight[k]])
    else (q.(pending := Without(q.pending, k - |q.inFlight|)), [q.pending[k - |q.inFlight|]])
  }

  function Clear(q: Queue): (Queue, seq<Message>) { (q.(inFlight := [], pending := []), q.Contents()) }

  // ----- what they do, on the two sequences -----

  /** A capacity that is not positive is no bound. */
  lemma NewMeans(capacity: int)
    ensures New(capacity).inFlight == New(capacity).pending == []
    ensures New(capacity).capacity == if capacity <= 0 then 0 else capacity
  {
  }

  /** A message with an id is accepted exactly if there is no bound or the whole queue is below it. */
  lemma AcceptsExactly(q: Queue, msg: Message)
    ensures PushOutcome(q, msg) == Ignored <==> msg.id == ""
    ensures PushOutcome(q, msg) == Accepted <==>
      msg.id != "" && (q.capacity == 0 || |q.inFlight| + |q.pending| < q.capacity)
    ensures PushOutcome(q, msg) == ErrFull <==>
      msg.id != "" && q.capacity > 0 && |q.inFlight| + |q.pending| >= q.capacity
  {
  }

  /** An accepted message goes behind or in front of what is pending; any other changes nothing. */
  lemma PushesMean(q: Queue, msg: Message)
    ensures var room := msg.id != "" && (q.capacity == 0 || |q.inFlight| + |q.pending| < q.capacity);
      && Push(q, msg) == (if room then Queue(q.inFlight, q.pending + [msg], q.capacity) else q)
      && PushFront(q, msg) == (if room then Queue(q.inFlight, [msg] + q.pending, q.capacity) else q)
  {
    AcceptsExactly(q, msg);
  }

  /** Peek moves a lone barrier, or all messages up to the next one, from the pending to the in-flight region. */
  lemma PeekMeans(q: Queue)
    ensures var (t, batch) := Peek(q);
      && batch + t.pending == q.pending && t.inFlight == q.inFlight + batch && t.capacity == q.capacity
      && (batch == [] <==> q.pending == [])
      && (batch != [] && batch[0].kind.Barrier? ==> |batch| == 1)
      && (batch != [] && batch[0].kind.Normal? ==>
            && (forall k | 0 <= k < |batch| :: batch[k].kind.Normal?)
            && (t.pending == [] || t.pending[0].kind.Barrier?))
  {
    var n := BatchSize(q.pending);
    assert q.pending == q.pending[..n] + q.pending[n..];
  }

  /** Commit drops the in-flight region, Rewind gives it back, Clear returns both. */
  lemma RegionsMean(q: Queue)
    ensures Commit(q) == Queue([], q.pending, q.capacity)
    ensures Rewind(q) == Queue([], q.inFlight + q.pending, q.capacity)
    ensures Clear(q) == (Queue([], [], q.capacity), q.inFlight + q.pending)
  {
  }

  /** t is q without message k, the first with the id, and out is that message. */
  ghost predicate TakesOut(q: Queue, t: Queue, out: seq<Message>, id: string, k: nat) {
    var all := q.inFlight + q.pending;
    && k < |all| && all[k].id == id && (forall j | 0 <= j < k :: all[j].id != id) && out == [all[k]]
    && t.capacity == q.capacity && t.inFlight + t.pending == all[..k] + all[k + 1..]
    && |t.inFlight| == if k < |q.inFlight| then |q.inFlight| - 1 else |q.inFlight|
  }

  lemma WithoutLeft(a: seq<Message>, b: seq<Message>, k: nat)
    requires k < |a|
    ensures (a + b)[k] == a[k] && Without(a, k) + b == (a + b)[..k] + (a + b)[k + 1..]
  {
  }

  lemma WithoutRight(a: seq<Message>, b: seq<Message>, k: nat)
    requires |a| <= k < |a + b|
    ensures (a + b)[k] == b[k - |a|] && a + Without(b, k - |a|) == (a + b)[..k] + (a + b)[k + 1..]
  {
  }

  /** Remove takes out the first message with the id, wherever it is, and leaves all others in their places. */
  lemma RemoveMeans(q: Queue, id: string)
    ensures var (t, out) := Remove(q, id);
      if forall m | m in q.inFlight + q.pending :: m.id != id then t == q && out == []
      else exists k :: TakesOut(q, t, out, id, k)
  {
    var all, k := q.inFlight + q.pending, Find(q.Contents(), id);
    var (t, out) := Remove(q, id);
    FindExactly(all, id);
    if k < |q.inFlight| {
      WithoutLeft(q.inFlight, q.pending, k);
      assert TakesOut(q, t, out, id, k);
    } else if k < |all| {
      WithoutRight(q.inFlight, q.pending, k);
      assert TakesOut(q, t, out, id, k);
    }
  }

  // ----- histories -----

  datatype Call =
    | DoPeek
    | DoPush(msg: Message)
    | DoPushFront(msg: Message)
    | DoCommit
    | DoRewind
    | DoRemove(id: string)
    | DoClear

  /** The queue with a ledger of everything that ever entered or left it, in order. */
  datatype Ledger = Ledger(
    q: Queue, accepted: seq<Message>, committed: seq<Message>, removed: seq<Message>, cleared: seq<Message>)

  function Step(l: Ledger, call: Call): Ledger {
    match call
    case DoPeek => l.(q := Peek(l.q).0)
    case DoPush(msg) =>
      l.(q := Push(l.q, msg), accepted := if PushOutcome(l.q, msg).Accepted? then l.accepted + [msg] else l.accepted)
    case DoPushFront(msg) =>
      l.(q := PushFront(l.q, msg),
         accepted := if PushOutcome(l.q, msg).Accepted? then l.accepted + [msg] else l.accepted)
    case DoCommit => l.(q := Commit(l.q), committed := l.committed + l.q.inFlight)
    case DoRewind => l.(q := Rewind(l.q))
    case DoRemove(id) => l.(q := Remove(l.q, id).0, removed := l.removed + Remove(l.q, id).1)
    case DoClear => l.(q := Clear(l.q).0, cleared := l.cleared + Clear(l.q).1)
  }

  function History(l: Ledger, calls: seq<Call>): Ledger
    decreases calls
  {
    if calls == [] then l else History(Step(l, calls[0]), calls[1..])
  }

  function Start(capacity: int): Ledger { Ledger(New(capacity), [], [], [], []) }

  ghost predicate Conserved(l: Ledger) {
    multiset(l.accepted) == multiset(l.committed) + multiset(l.removed) + multiset(l.cleared)
      + multiset(l.q.inFlight) + multiset(l.q.pending)
  }

  lemma WithoutMultiset(s: seq<Message>, k: nat)
    requires k < |s|
    ensures multiset(Without(s, k)) + multiset{s[k]} == multiset(s)
  {
    assert s == s[..k] + [s[k]] + s[k + 1..];
  }

  /** Remove takes out exactly one message, the first with the id, or nothing. */
  lemma RemoveTakesOne(q: Queue, id: string)
    ensures var (r, out) := Remove(q, id);
      && |out| <= 1
      && multiset(r.inFlight) + multiset(r.pending) + multiset(out) == multiset(q.inFlight) + multiset(q.pending)
      && (out == [] <==> forall m | m in q.Contents() :: m.id != id)
      && (out != [] ==> out[0].id == id)
      && r.capacity == q.capacity
  {
    var k := Find(q.Contents(), id);
    FindExactly(q.Contents(), id);
    if k < |q.inFlight| {
      WithoutMultiset(q.inFlight, k);
      assert q.Contents()[k] == q.inFlight[k];
    } else if k < |q.Contents()| {
      WithoutMultiset(q.pending, k - |q.inFlight|);
      assert q.Contents()[k] == q.pending[k - |q.inFlight|];
    }
  }

  lemma FindExactly(s: seq<Message>, id: string)
    ensures Find(s, id) == |s| <==> forall m | m in s :: m.id != id
  {
    var k := Find(s, id);
    if k < |s| {
      assert s[k] in s;
    }
  }

  lemma RemoveConserves(l: Ledger, id: string)
    requires Conserved(l)
    ensures Conserved(Step(l, DoRemove(id)))
  {
    var (r, out) := Remove(l.q, id);
    RemoveTakesOne(l.q, id);
    var t := Step(l, DoRemove(id));
    assert t == Ledger(r, l.accepted, l.committed, l.removed + out, l.cleared);
    assert multiset(t.removed) == multiset(l.removed) + multiset(out);
    calc {
      multiset(l.accepted);
      multiset(l.committed) + multiset(l.removed) + multiset(l.cleared)
        + (multiset(l.q.inFlight) + multiset(l.q.pending));
      multiset(l.committed) + multiset(l.removed) + multiset(l.cleared)
        + (multiset(r.inFlight) + multiset(r.pending) + multiset(out));
    }
  }

  lemma PushConserves(l: Ledger, msg: Message, front: bool)
    requires Conserved(l)
    ensures Conserved(Step(l, if front then DoPushFront(msg) else DoPush(msg)))
  {
    assert multiset([msg] + l.q.pending) == multiset(l.q.pending + [msg]) == multiset(l.q.pending) + multiset{msg};
  }

  lemma PeekConserves(l: Ledger)
    requires Conserved(l)
    ensures Conserved(Step(l, DoPeek))
  {
    var n, q := BatchSize(l.q.pending), Step(l, DoPeek).q;
    assert l.q.pending == l.q.pending[..n] + l.q.pending[n..];
    assert multiset(q.inFlight) + multiset(q.pending) == multiset(l.q.inFlight) + multiset(l.q.pending);
  }

  lemma StepConserves(l: Ledger, call: Call)
    requires Conserved(l)
    ensures Conserved(Step(l, call))
  {
    match call
    case DoPeek => PeekConserves(l);
    case DoPush(msg) => PushConserves(l, msg, false);
    case DoPushFront(msg) => PushConserves(l, msg, true);
    case DoRemove(id) => RemoveConserves(l, id);
    case DoCommit =>
      assert multiset(Step(l, call).committed) == multiset(l.committed) + multiset(l.q.inFlight);
    case DoRewind =>
      assert multiset(Step(l, call).q.pending) == multiset(l.q.inFlight) + multiset(l.q.pending);
    case DoClear =>
      assert multiset(Step(l, call).cleared)
          == multiset(l.cleared) + (multiset(l.q.inFlight) + multiset(l.q.pending));
  }

  lemma {:induction false} HistoryConserves(l: Ledger, calls: seq<Call>)
    requires Conserved(l)
    ensures Conserved(History(l, calls))
    decreases calls
  {
    if calls != [] {
      StepConserves(l, calls[0]);
      HistoryConserves(Step(l, calls[0]), calls[1..]);
    }
  }

  /**
   No message is lost or duplicated, over any history of calls on a fresh queue: what was
   accepted is exactly what was committed, removed, cleared, is in flight or is pending.
   */
  lemma NothingLost(capacity: int, calls: seq<Call>)
    ensures Conserved(History(Start(capacity), calls))
  {
    HistoryConserves(Start(capacity), calls);
  }

  ghost predicate Ordered(l: Ledger) { l.committed + l.q.inFlight + l.q.pending == l.accepted }

  ghost predicate Fifo(call: Call) { call.DoPush? || call.DoPeek? || call.DoCommit? || call.DoRewind? }

  lemma StepOrdered(l: Ledger, call: Call)
    requires Ordered(l) && Fifo(call)
    ensures Ordered(Step(l, call))
  {
    match call
    case DoPeek =>
      var n := BatchSize(l.q.pending);
      assert l.q.pending == l.q.pending[..n] + l.q.pending[n..];
    case DoPush(msg) =>
      if PushOutcome(l.q, msg).Accepted? {
        assert l.committed + l.q.inFlight + (l.q.pending + [msg]) == (l.committed + l.q.inFlight + l.q.pending) + [msg];
      }
    case DoCommit =>
      assert (l.committed + l.q.inFlight) + [] + l.q.pending == l.accepted;
    case DoRewind =>
      assert l.committed + [] + (l.q.inFlight + l.q.pending) == l.committed + l.q.inFlight + l.q.pending;
  }

  lemma {:induction false} HistoryOrdered(l: Ledger, calls: seq<Call>)
    requires Ordered(l) && forall k | 0 <= k < |calls| :: Fifo(calls[k])
    ensures Ordered(History(l, calls))
    decreases calls
  {
    if calls != [] {
      StepOrdered(l, calls[0]);
      HistoryOrdered(Step(l, calls[0]), calls[1..]);
    }
  }

  /** First in, first out: pushes, peeks, commits and rewinds never reorder, skip or repeat a message. */
  lemma FirstInFirstOut(capacity: int, calls: seq<Call>)
    requires forall k | 0 <= k < |calls| :: Fifo(calls[k])
    ensures Ordered(History(Start(capacity), calls))
  {
    HistoryOrdered(Start(capacity), calls);
  }

  /** The configured capacity bounds in-flight and pending messages together, over any history. */
  lemma {:induction false} NeverOverCapacity(l: Ledger, calls: seq<Call>)
    requires l.q.capacity > 0 ==> |l.q.Contents()| <= l.q.capacity
    ensures var q := History(l, calls).q;
      q.capacity == l.q.capacity && (q.capacity > 0 ==> |q.Contents()| <= q.capacity)
    decreases calls
  {
    if calls != [] {
      NeverOverCapacity(Step(l, calls[0]), calls[1..]);
    }
  }

  /** A history does what its calls do, and the ledger notes what leaves the queue. */
  lemma StepsMean(l: Ledger, id: string)
    ensures Step(l, DoRewind) == l.(q := Queue([], l.q.inFlight + l.q.pending, l.q.capacity))
    ensures Step(l, DoClear)
         == l.(q := Queue([], [], l.q.capacity), cleared := l.cleared + (l.q.inFlight + l.q.pending))
    ensures Step(l, DoRemove(id)) == l.(q := Remove(l.q, id).0, removed := l.removed + Remove(l.q, id).1)
    ensures var (t, batch) := Peek(l.q);
      Step(l, DoPeek) == l.(q := Queue(l.q.inFlight + batch, t.pending, l.q.capacity))
    ensures Step(l, DoCommit) == l.(q := Queue([], l.q.pending, l.q.capacity), committed := l.committed + l.q.inFlight)
  {
    RegionsMean(l.q);
    PeekMeans(l.q);
  }

  /** The messages with an id that a history pushes, at either end. */
  function Pushed(calls: seq<Call>): seq<Message> {
    if calls == [] then []
    else
      (if (calls[0].DoPush? || calls[0].DoPushFront?) && calls[0].msg.id != "" then [calls[0].msg] else [])
        + Pushed(calls[1..])
  }

  /** Only a push makes a queue longer, and by one. */
  lemma StepLength(l: Ledger, call: Call)
    ensures var t := Step(l, call);
      && t.q.capacity == l.q.capacity
      && |t.q.inFlight| + |t.q.pending| <= |l.q.inFlight| + |l.q.pending| + |Pushed([call])|
      && (l.q.capacity == 0 || |l.q.inFlight| + |l.q.pending| + |Pushed([call])| <= l.q.capacity ==>
            t.accepted == l.accepted + Pushed([call]))
  {
    assert [call][1..] == [];
    if call.DoPush? || call.DoPushFront? {
      PushesMean(l.q, call.msg);
      AcceptsExactly(l.q, call.msg);
    } else if call.DoRemove? {
      RemoveTakesOne(l.q, call.id);
      RemoveShortens(l.q, call.id);
    }
    assert l.accepted + [] == l.accepted;
  }

  lemma RemoveShortens(q: Queue, id: string)
    ensures var t := Remove(q, id).0; |t.inFlight| + |t.pending| <= |q.inFlight| + |q.pending|
  {
  }

  lemma Concat(a: seq<Message>, b: seq<Message>, c: seq<Message>)
    ensures (a + b) + c == a + (b + c)
  {
  }

  lemma PushedFirst(calls: seq<Call>)
    requires calls != []
    ensures Pushed(calls) == Pushed([calls[0]]) + Pushed(calls[1..])
  {
    assert [calls[0]][1..] == [];
  }

  /** With room for all of them, or no bound, exactly the messages with an id are accepted, in order. */
  lemma {:induction false} AllAccepted(l: Ledger, calls: seq<Call>)
    requires l.q.capacity == 0 || |l.q.inFlight| + |l.q.pending| + |Pushed(calls)| <= l.q.capacity
    ensures History(l, calls).accepted == l.accepted + Pushed(calls)
    decreases calls
  {
    if calls == [] {
      assert l.accepted + [] == l.accepted;
    } else {
      var t := Step(l, calls[0]);
      StepLength(l, calls[0]);
      PushedFirst(calls);
      AllAccepted(t, calls[1..]);
      Concat(l.accepted, Pushed([calls[0]]), Pushed(calls[1..]));
    }
  }

  /** From a fresh queue: no message is refused below the capacity, and none ever without one. */
  lemma NoneRefused(capacity: int, calls: seq<Call>)
    requires capacity <= 0 || |Pushed(calls)| <= capacity
    ensures History(Start(capacity), calls).accepted == Pushed(calls)
  {
    NewMeans(capacity);
    AllAccepted(Start(capacity), calls);
    assert [] + Pushed(calls) == Pushed(calls);
  }

  /** n rounds of a dispatcher that submits every batch. */
  function Rounds(n: nat): seq<Call> { if n == 0 then [] else [DoPeek, DoCommit] + Rounds(n - 1) }

  lemma OneRound(l: Ledger)
    requires l.q.inFlight == []
    ensures var (t, batch) := Peek(l.q);
      Step(Step(l, DoPeek), DoCommit) == l.(q := Queue([], t.pending, l.q.capacity), committed := l.committed + batch)
  {
    PeekMeans(l.q);
    assert [] + Peek(l.q).1 == Peek(l.q).1;
  }

  lemma AfterRound(l: Ledger) returns (m: Ledger)
    requires l.q.inFlight == []
    ensures m == Step(Step(l, DoPeek), DoCommit) && m.q.inFlight == [] && m.q.capacity == l.q.capacity
    ensures |m.q.pending| <= |l.q.pending| && (l.q.pending != [] ==> |m.q.pending| < |l.q.pending|)
    ensures m == l.(q := m.q, committed := m.committed)
    ensures m.committed + m.q.pending == l.committed + l.q.pending
  {
    var (t, batch) := Peek(l.q);
    PeekMeans(l.q);
    OneRound(l);
    m := Step(Step(l, DoPeek), DoCommit);
    Concat(l.committed, batch, t.pending);
  }

  lemma FirstRound(l: Ledger, n: nat)
    requires n > 0
    ensures History(l, Rounds(n)) == History(Step(Step(l, DoPeek), DoCommit), Rounds(n - 1))
  {
    var calls := Rounds(n);
    assert calls[0] == DoPeek && calls[1..][0] == DoCommit && calls[1..][1..] == Rounds(n - 1);
  }

  /** Everything pending is delivered, in order, within as many rounds as there are messages. */
  lemma {:induction false} AllDelivered(l: Ledger, n: nat)
    requires l.q.inFlight == [] && n >= |l.q.pending|
    ensures History(l, Rounds(n))
         == l.(q := Queue([], [], l.q.capacity), committed := l.committed + l.q.pending)
    decreases n
  {
    if n == 0 {
      assert l.committed + [] == l.committed;
    } else {
      var m := AfterRound(l);
      FirstRound(l, n);
      AllDelivered(m, n - 1);
    }
  }

  // ----- segmentation -----

  /** The batches that repeated Peek and Commit hand out. */
  function Drain(q: Queue): seq<seq<Message>>
    decreases |q.pending|
  {
    if q.pending == [] then [] else [Peek(q).1] + Drain(Commit(Peek(q).0))
  }

  function Flatten(segments: seq<seq<Message>>): seq<Message> {
    if segments == [] then [] else segments[0] + Flatten(segments[1..])
  }

  ghost predicate AllNormal(s: seq<Message>) { forall m | m in s :: m.kind.Normal? }

  /** A lone barrier, or a non-empty run without barriers. */
  ghost predicate Segment(s: seq<Message>) { s != [] && (AllNormal(s) || (|s| == 1 && s[0].kind.Barrier?)) }

  /** p cut into segments, no two neighbours of which are both runs: the runs are maximal. */
  ghost predicate Segmentation(segments: seq<seq<Message>>, p: seq<Message>) {
    && Flatten(segments) == p
    && (forall k | 0 <= k < |segments| :: Segment(segments[k]))
    && (forall k | 0 < k < |segments| :: !(AllNormal(segments[k - 1]) && AllNormal(segments[k])))
  }

  /** In any segmentation the first segment is the batch Peek takes. */
  lemma FirstSegment(segments: seq<seq<Message>>, p: seq<Message>)
    requires Segmentation(segments, p) && p != []
    ensures segments != [] && segments[0] == Batch(p)
    ensures Segmentation(segments[1..], p[|segments[0]|..])
  {
    var s := segments[0];
    var rest := Flatten(segments[1..]);
    assert p == s + rest;
    assert p[|s|..] == rest && p[..|s|] == s;
    assert Segment(s);
    if AllNormal(s) {
      assert forall k | 0 <= k < |s| :: p[k].kind.Normal? by {
        assert forall k | 0 <= k < |s| :: p[k] == s[k] && s[k] in s;
      }
      if rest != [] {
        var next := segments[1];
        assert Segment(next) && !AllNormal(next);
        assert rest[0] == next[0];
        assert p[|s|] == rest[0] && p[|s|].kind.Barrier?;
      }
      assert NormalRun(p) == |s|;
    } else {
      assert p[0] == s[0] && p[0].kind.Barrier?;
      assert NormalRun(p) == 0;
    }
  }

  lemma SegmentsFill(segments: seq<seq<Message>>, p: seq<Message>)
    requires Segmentation(segments, p)
    ensures segments != [] ==> p != []
  {
    if segments != [] {
      assert Segment(segments[0]);
    }
  }

  /** There is only one segmentation. */
  lemma {:induction false} SegmentationUnique(a: seq<seq<Message>>, b: seq<seq<Message>>, p: seq<Message>)
    requires Segmentation(a, p) && Segmentation(b, p)
    ensures a == b
    decreases |p|
  {
    SegmentsFill(a, p);
    SegmentsFill(b, p);
    if p != [] {
      FirstSegment(a, p);
      FirstSegment(b, p);
      assert Segment(a[0]);
      SegmentationUnique(a[1..], b[1..], p[|a[0]|..]);
      assert a == [a[0]] + a[1..] && b == [b[0]] + b[1..];
    }
  }

  lemma BatchIsSegment(p: seq<Message>)
    requires p != []
    ensures Segment(Batch(p))
    ensures AllNormal(Batch(p)) <==> p[0].kind.Normal?
    ensures p[0].kind.Normal? && |Batch(p)| < |p| ==> p[|Batch(p)|].kind.Barrier?
  {
    if p[0].kind.Barrier? {
      assert Batch(p)[0] == p[0];
      assert Batch(p)[0] in Batch(p);
    }
  }

  /** Putting the batch in front of a segmentation of the rest. */
  lemma BatchFirst(p: seq<Message>, rest: seq<seq<Message>>)
    requires p != [] && Segmentation(rest, p[|Batch(p)|..])
    ensures Segmentation([Batch(p)] + rest, p)
  {
    var segments := [Batch(p)] + rest;
    var n := |Batch(p)|;
    BatchIsSegment(p);
    assert segments[1..] == rest && p == p[..n] + p[n..];
    if rest != [] {
      SegmentsFill(rest, p[n..]);
      FirstSegment(rest, p[n..]);
      BatchIsSegment(p[n..]);
    }
    forall k | 0 < k < |segments| ensures !(AllNormal(segments[k - 1]) && AllNormal(segments[k])) {
      assert segments[k] == rest[k - 1];
      if k > 1 { assert segments[k - 1] == rest[k - 2]; }
    }
  }

  /** Repeated Peek and Commit hand out the segmentation of what was pending. */
  lemma {:induction false} DrainSegments(q: Queue)
    requires q.inFlight == []
    ensures Segmentation(Drain(q), q.pending)
    decreases |q.pending|
  {
    if q.pending != [] {
      DrainSegments(Commit(Peek(q).0));
      BatchFirst(q.pending, Drain(Commit(Peek(q).0)));
    }
  }

  // ----- retry after a failed submission -----

  function PushAll(q: Queue, msgs: seq<Message>): Queue
    decreases msgs
  {
    if msgs == [] then q else PushAll(Push(q, msgs[0]), msgs[1..])
  }

  /** What a run of pushes adds: only the accepted ones, in order, at the end. */
  lemma {:induction false} PushAllAppends(q: Queue, msgs: seq<Message>) returns (added: seq<Message>)
    ensures PushAll(q, msgs) == q.(pending := q.pending + added)
    ensures forall m | m in added :: m in msgs
    decreases msgs
  {
    if msgs == [] {
      added := [];
      assert q.pending + [] == q.pending;
    } else {
      var tail := PushAllAppends(Push(q, msgs[0]), msgs[1..]);
      if PushOutcome(q, msgs[0]).Accepted? {
        added := [msgs[0]] + tail;
        assert q.pending + ([msgs[0]] + tail) == (q.pending + [msgs[0]]) + tail;
      } else {
        added := tail;
      }
    }
  }

  lemma {:induction false} RunExtends(p: seq<Message>, more: seq<Message>)
    ensures NormalRun(p + more) == if NormalRun(p) < |p| then NormalRun(p) else |p| + NormalRun(more)
    decreases p
  {
    if p == [] {
      assert p + more == more;
    } else {
      assert (p + more)[0] == p[0] && (p + more)[1..] == p[1..] + more;
      RunExtends(p[1..], more);
    }
  }

  /** The first batch was a barrier, or a barrier stopped it. */
  ghost predicate Closed(p: seq<Message>) { p != [] && (p[0].kind.Barrier? || |Batch(p)| < |p|) }

  /**
   Rewind undoes Peek exactly, and a retry after any pushes starts with the same messages:
   the new batch extends the old one, and equals it exactly when the old batch was closed or
   nothing without a barrier follows.
   */
  lemma RetryBatch(q: Queue, msgs: seq<Message>)
    requires q.inFlight == [] && q.pending != []
    ensures Rewind(Peek(q).0) == q
    ensures var after := PushAll(Rewind(Peek(q).0), msgs);
      && Batch(q.pending) <= Peek(after).1
      && q.pending <= after.pending
      && (Peek(after).1 == Batch(q.pending) <==>
            Closed(q.pending) || |after.pending| == |q.pending| || after.pending[|q.pending|].kind.Barrier?)
  {
    var n := BatchSize(q.pending);
    assert [] + q.pending[..n] + q.pending[n..] == q.pending;
    var added := PushAllAppends(q, msgs);
    var p := q.pending;
    var both := p + added;
    RunExtends(p, added);
    if p[0].kind.Normal? {
      assert NormalRun(p) > 0;
    }
    assert both[..BatchSize(p)] == p[..BatchSize(p)];
    assert BatchSize(both) >= BatchSize(p);
    assert both[..BatchSize(both)][..BatchSize(p)] == both[..BatchSize(p)];
    if added != [] {
      assert both[|p|] == added[0];
    }
  }

  function PeekTimes(q: Queue, n: nat): Queue {
    if n == 0 then q else Peek(PeekTimes(q, n - 1)).0
  }

  /** One Rewind takes back every Peek since the last Commit, and those before them too. */
  lemma {:induction false} RewindUndoesAllPeeks(q: Queue, n: nat)
    ensures Rewind(PeekTimes(q, n)) == Rewind(q)
  {
    if n > 0 {
      var before := PeekTimes(q, n - 1);
      RewindUndoesAllPeeks(q, n - 1);
      RewindPeek(before);
      assert PeekTimes(q, n) == Peek(before).0;
    }
  }

  /** It gives back the queue as it was before those Peeks exactly when nothing was in flight then. */
  lemma RewindRestoresExactly(q: Queue, n: nat)
    ensures Rewind(PeekTimes(q, n)) == q <==> q.inFlight == []
  {
    RewindUndoesAllPeeks(q, n);
    assert [] + q.pending == q.pending;
  }

  lemma RewindPeek(q: Queue)
    ensures Rewind(Peek(q).0) == Rewind(q)
  {
    var k := BatchSize(q.pending);
    assert (q.inFlight + q.pending[..k]) + q.pending[k..] == q.inFlight + q.pending;
  }

  /** A pushed-front message leads the next batch, whatever else is pending or in flight. */
  lemma SteerGoesFirst(q: Queue, msg: Message)
    requires PushOutcome(q, msg).Accepted?
    ensures Peek(PushFront(q, msg)).1[0] == msg
    ensures PushFront(q, msg).inFlight == q.inFlight
    ensures msg.kind.Barrier? ==> Peek(PushFront(q, msg)).1 == [msg]
    ensures msg.kind.Normal? && q.pending != [] && q.pending[0].kind.Normal? ==>
      Peek(PushFront(q, msg)).1 == [msg] + Batch(q.pending)
  {
    var p := [msg] + q.pending;
    assert p[1..] == q.pending;
    if msg.kind.Normal? && q.pending != [] && q.pending[0].kind.Normal? {
      assert p[..1 + NormalRun(q.pending)] == [msg] + q.pending[..NormalRun(q.pending)];
    }
  }
}
