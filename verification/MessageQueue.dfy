/**
 The linked list of internal/chatsession/message_queue.go, pointer by pointer.

 The ghost field `spine` lists the nodes from head to tail and `cut` is the position of the
 first pending node; Valid ties every pointer and the length to them. Each method is proved
 to do exactly the corresponding step of QueueSpec on the two regions.
 */
module MessageQueues {
  import opened QueueSpec

  class Node {
    const value: Message
    var next: Node?

    constructor (value: Message)
      ensures this.value == value && next == null
    {
      this.value := value;
      next := null;
    }
  }

  ghost function Values(nodes: seq<Node>): (s: seq<Message>)
    ensures |s| == |nodes|
    ensures forall k | 0 <= k < |s| :: s[k] == nodes[k].value
  {
    seq(|nodes|, k requires 0 <= k < |nodes| => nodes[k].value)
  }

  ghost function NodeAt(nodes: seq<Node>, k: int): Node? {
    if 0 <= k < |nodes| then nodes[k] else null
  }

  ghost predicate Distinct(nodes: seq<Node>) {
    forall j, k | 0 <= j < k < |nodes| :: nodes[j] != nodes[k]
  }

  ghost predicate Chained(nodes: seq<Node>)
    reads nodes
  {
    forall k {:trigger nodes[k].next} | 0 <= k < |nodes| :: nodes[k].next == NodeAt(nodes, k + 1)
  }

  /** The cursor is at the head only when nothing is in flight. */
  lemma OnlyAtZero(nodes: seq<Node>, k: nat)
    requires Distinct(nodes) && k <= |nodes|
    ensures NodeAt(nodes, 0) == NodeAt(nodes, k) <==> k == 0
  {
  }

  /** Bypassing node i links the remaining nodes up. */
  lemma SpliceLinked(was: seq<Node>, i: nat)
    requires Distinct(was) && i < |was|
    requires forall k {:trigger was[k].next} | 0 <= k < |was| && k != i && k != i - 1 ::
      was[k].next == NodeAt(was, k + 1)
    requires i > 0 ==> was[i - 1].next == NodeAt(was, i + 1)
    ensures Distinct(Spliced(was, i)) && Chained(Spliced(was, i))
  {
    var nodes := Spliced(was, i);
    assert forall k | 0 <= k < |nodes| :: nodes[k] == if k < i then was[k] else was[k + 1];
  }

  /** Putting node n between positions i-1 and i keeps the chain. */
  lemma InsertLinked(was: seq<Node>, i: nat, n: Node)
    requires Distinct(was) && i <= |was| && n !in was
    requires forall k {:trigger was[k].next} | 0 <= k < |was| && k != i - 1 :: was[k].next == NodeAt(was, k + 1)
    requires i > 0 ==> was[i - 1].next == n
    requires n.next == NodeAt(was, i)
    ensures Distinct(Inserted(was, i, n)) && Chained(Inserted(was, i, n))
  {
    var nodes := Inserted(was, i, n);
    assert forall k | 0 <= k < |nodes| :: nodes[k] == if k < i then was[k] else if k == i then n else was[k - 1];
  }

  ghost function Inserted(was: seq<Node>, i: nat, n: Node): seq<Node>
    requires i <= |was|
  {
    was[..i] + [n] + was[i..]
  }

  lemma InsertedEnds(was: seq<Node>, i: nat, n: Node)
    requires i <= |was|
    ensures NodeAt(Inserted(was, i, n), 0) == if i == 0 then n else NodeAt(was, 0)
    ensures NodeAt(Inserted(was, i, n), |was|) == if i == |was| then n else NodeAt(was, |was| - 1)
    ensures NodeAt(Inserted(was, i, n), i) == n
    ensures |Inserted(was, i, n)| == |was| + 1
    ensures forall m | m in Inserted(was, i, n) :: m in was || m == n
  {
  }

  ghost function Spliced(was: seq<Node>, i: nat): seq<Node>
    requires i < |was|
  {
    was[..i] + was[i + 1..]
  }

  /** The node at position i stands nowhere else. */
  lemma OnlyHere(nodes: seq<Node>, i: nat, k: nat)
    requires Distinct(nodes) && i < |nodes|
    ensures nodes[i] == NodeAt(nodes, k) <==> i == k
  {
  }

  lemma SplicedEnds(was: seq<Node>, i: nat, k: nat)
    requires i < |was| && k <= |was|
    ensures NodeAt(Spliced(was, i), 0) == if i == 0 then NodeAt(was, 1) else NodeAt(was, 0)
    ensures NodeAt(Spliced(was, i), |was| - 2)
         == if i == |was| - 1 then NodeAt(was, i - 1) else NodeAt(was, |was| - 1)
    ensures NodeAt(Spliced(was, i), if i < k then k - 1 else k)
         == if i == k then NodeAt(was, k + 1) else NodeAt(was, k)
    ensures |Spliced(was, i)| == |was| - 1
  {
  }

  lemma ValuesInsert(nodes: seq<Node>, k: nat, n: Node)
    requires k <= |nodes|
    ensures Values(Inserted(nodes, k, n)) == Values(nodes)[..k] + [n.value] + Values(nodes)[k..]
  {
  }

  lemma ValuesWithout(nodes: seq<Node>, k: nat)
    requires k < |nodes|
    ensures Values(Spliced(nodes, k)) == Without(Values(nodes), k)
  {
  }

  // ----- the two regions of one list, as QueueSpec sees them -----

  /** contents cut at position k: in flight before it, pending from it on. */
  ghost function Cut(contents: seq<Message>, k: nat, capacity: nat): Queue
    requires k <= |contents|
  {
    Queue(contents[..k], contents[k..], capacity)
  }

  lemma CutContents(c: seq<Message>, k: nat, capacity: nat)
    requires k <= |c|
    ensures Cut(c, k, capacity).Contents() == c
  {
  }

  lemma CutPeek(c: seq<Message>, k: nat, capacity: nat, n: nat)
    requires k <= |c| && n == BatchSize(c[k..])
    ensures QueueSpec.Peek(Cut(c, k, capacity)) == (Cut(c, k + n, capacity), c[k..k + n])
  {
    assert c[..k] + c[k..][..n] == c[..k + n];
    assert c[k..][n..] == c[k + n..] && c[k..][..n] == c[k..k + n];
  }

  lemma CutPush(c: seq<Message>, k: nat, capacity: nat, msg: Message)
    requires k <= |c| && PushOutcome(Cut(c, k, capacity), msg).Accepted?
    ensures QueueSpec.Push(Cut(c, k, capacity), msg) == Cut(c + [msg], k, capacity)
  {
    assert (c + [msg])[..k] == c[..k] && (c + [msg])[k..] == c[k..] + [msg];
  }

  lemma CutPushFront(c: seq<Message>, k: nat, capacity: nat, msg: Message)
    requires k <= |c| && PushOutcome(Cut(c, k, capacity), msg).Accepted?
    ensures QueueSpec.PushFront(Cut(c, k, capacity), msg) == Cut(c[..k] + [msg] + c[k..], k, capacity)
  {
    var d := c[..k] + [msg] + c[k..];
    assert d[..k] == c[..k] && d[k..] == [msg] + c[k..];
  }

  lemma CutRewind(c: seq<Message>, k: nat, capacity: nat)
    requires k <= |c|
    ensures QueueSpec.Rewind(Cut(c, k, capacity)) == Cut(c, 0, capacity)
  {
    assert c[..k] + c[k..] == c[0..];
  }

  lemma CutRemove(c: seq<Message>, k: nat, capacity: nat, id: string, i: nat)
    requires k <= |c| && i < |c| && c[i].id == id && forall j | 0 <= j < i :: c[j].id != id
    ensures QueueSpec.Remove(Cut(c, k, capacity), id)
         == (Cut(Without(c, i), if i < k then k - 1 else k, capacity), [c[i]])
  {
    CutContents(c, k, capacity);
    FoundAt(c, id, i);
    WithoutCut(c, k, i);
  }

  lemma WithoutCut(c: seq<Message>, k: nat, i: nat)
    requires k <= |c| && i < |c|
    ensures i < k ==> Without(c, i)[..k - 1] == Without(c[..k], i) && Without(c, i)[k - 1..] == c[k..]
    ensures i >= k ==> Without(c, i)[..k] == c[..k] && Without(c, i)[k..] == Without(c[k..], i - k)
    ensures if i < k then c[..k][i] == c[i] else c[k..][i - k] == c[i]
  {
  }

  lemma CutCommit(c: seq<Message>, k: nat, capacity: nat)
    requires k <= |c|
    ensures QueueSpec.Commit(Cut(c, k, capacity)) == Cut(c[k..], 0, capacity)
  {
  }

  class MessageQueue {
    var head: Node?
    var tail: Node?
    var inFlightEnd: Node?
    var length: int
    const capacity: nat
    ghost var spine: seq<Node>
    ghost var cut: nat

    ghost predicate Valid()
      reads this, spine
    {
      Linked() && length == |spine|
    }

    ghost predicate Linked()
      reads this, spine
    {
      && Distinct(spine) && Chained(spine)
      && head == NodeAt(spine, 0)
      && tail == NodeAt(spine, |spine| - 1)
      && cut <= |spine|
      && inFlightEnd == NodeAt(spine, cut)
    }

    ghost function Contents(): seq<Message>
      reads this`spine
    {
      Values(spine)
    }

    /** The queue's two regions. */
    ghost function View(): Queue
      reads this
      requires cut <= |spine|
    {
      Cut(Contents(), cut, capacity)
    }

    constructor (capacity: int)
      ensures Valid() && spine == [] && View() == New(capacity)
      ensures this.capacity == if capacity <= 0 then 0 else capacity
    {
      this.capacity := if capacity < 0 then 0 else capacity;
      head, tail, inFlightEnd := null, null, null;
      length := 0;
      spine, cut := [], 0;
    }

    /** The walk of Peek: Normal messages from start on, up to a barrier or the tail. */
    method CollectRun(start: Node) returns (batch: seq<Message>, lastNormal: Node?, ghost i: nat)
      requires Valid() && start == NodeAt(spine, cut)
      ensures StopsAt(Contents(), cut, i) && batch == Contents()[cut..i]
      ensures i > cut ==> lastNormal == spine[i - 1]
    {
      batch := [];
      lastNormal := null;
      i := cut;
      ghost var c := Contents();
      var n: Node? := start;
      while n != null && n.value.kind.Normal?
        invariant cut <= i <= |spine| && n == NodeAt(spine, i)
        invariant batch == c[cut..i]
        invariant forall k | cut <= k < i :: c[k].kind.Normal?
        invariant i > cut ==> lastNormal == spine[i - 1]
        decreases |spine| - i
      {
        batch := batch + [n.value];
        assert c[i] == n.value;
        lastNormal := n;
        n := n.next;
        i := i + 1;
      }
    }

    /** Peek's cursor move. */
    method TakeBatch(start: Node) returns (batch: seq<Message>)
      requires Valid() && start == inFlightEnd
      modifies this`inFlightEnd, this`cut
      ensures Valid() && old(cut) <= cut
      ensures cut - old(cut) == BatchSize(Contents()[old(cut)..])
      ensures batch == Contents()[old(cut)..cut]
    {
      var run, lastNormal, i := CollectRun(start);
      BatchIs(Contents(), cut, i);
      if |run| > 0 {
        batch := run;
        inFlightEnd := lastNormal.next;
        cut := i;
      } else {
        batch := [start.value];
        inFlightEnd := start.next;
        cut := cut + 1;
      }
    }

    method Peek() returns (batch: seq<Message>)
      requires Valid()
      modifies this`inFlightEnd, this`cut
      ensures Valid()
      ensures (View(), batch) == QueueSpec.Peek(old(View()))
    {
      ghost var c, k := Contents(), cut;
      batch := [];
      var start := inFlightEnd;
      if start != null {
        batch := TakeBatch(start);
      } else {
        assert c[k..] == [];
      }
      ghost var n := cut - k;
      assert old(View()) == Cut(c, k, capacity) && View() == Cut(c, k + n, capacity);
      assert batch == c[k..k + n];
      CutPeek(c, k, capacity, n);
    }

    method Push(msg: Message) returns (r: Outcome)
      requires Valid()
      modifies this, tail
      ensures Valid() && (forall n | n in spine :: n in old(spine) || fresh(n))
      ensures r == PushOutcome(old(View()), msg) && View() == QueueSpec.Push(old(View()), msg)
      ensures r == Ignored <==> msg.id == ""
      ensures r == Accepted <==> msg.id != "" && (capacity == 0 || |old(Contents())| < capacity)
    {
      if msg.id == "" {
        return Ignored;
      }
      if capacity > 0 && length >= capacity {
        return ErrFull;
      }
      var n := new Node(msg);
      Append(n);
      length := length + 1;
      r := Accepted;
      CutPush(old(Contents()), cut, capacity, msg);
      assert Contents() == old(Contents()) + [msg];
    }

    /** The pointer surgery of Push: everything but the length. */
    method Append(n: Node)
      requires Valid() && n !in spine && n.next == null
      modifies this`head, this`tail, this`inFlightEnd, this`spine, tail
      ensures spine == old(spine) + [n]
      ensures Linked()
    {
      if tail == null {
        head := n;
        inFlightEnd := n;
      } else {
        tail.next := n;
        if inFlightEnd == null {
          inFlightEnd := n;
        }
      }
      tail := n;
      InsertLinked(spine, |spine|, n);
      InsertedEnds(spine, |spine|, n);
      assert Inserted(spine, |spine|, n) == spine + [n];
      spine := spine + [n];
    }

    method PushFront(msg: Message) returns (r: Outcome)
      requires Valid()
      modifies this, spine
      ensures Valid() && (forall n | n in spine :: n in old(spine) || fresh(n))
      ensures r == PushOutcome(old(View()), msg) && View() == QueueSpec.PushFront(old(View()), msg)
      ensures r == Ignored <==> msg.id == ""
      ensures r == Accepted <==> msg.id != "" && (capacity == 0 || |old(Contents())| < capacity)
    {
      if msg.id == "" {
        return Ignored;
      }
      if capacity > 0 && length >= capacity {
        return ErrFull;
      }
      CutPushFront(Contents(), cut, capacity, msg);
      ghost var n := InsertMessage(msg);
      ValuesInsert(old(spine), cut, n);
      InsertedEnds(old(spine), cut, n);
      r := Accepted;
    }

    method InsertMessage(msg: Message) returns (ghost n: Node)
      requires Valid()
      modifies this`head, this`tail, this`inFlightEnd, this`spine, this`length, spine
      ensures Valid() && fresh(n) && n.value == msg && spine == Inserted(old(spine), cut, n)
    {
      var node := new Node(msg);
      InsertedEnds(spine, cut, node);
      InsertBeforePending(node);
      length := length + 1;
      n := node;
    }

    /** The pointer surgery of PushFront: everything but the length. */
    method InsertBeforePending(n: Node)
      requires Valid() && n !in spine && n.next == null
      modifies this`head, this`tail, this`inFlightEnd, this`spine, spine, n
      ensures spine == Inserted(old(spine), cut, n)
      ensures Linked()
    {
      if inFlightEnd == null {
        InsertAtTail(n);
      } else {
        InsertBeforeCursor(n);
      }
    }

    /** With nothing pending the new node becomes the tail. */
    method InsertAtTail(n: Node)
      requires Valid() && n !in spine && n.next == null && inFlightEnd == null
      modifies this`head, this`tail, this`inFlightEnd, this`spine, tail
      ensures spine == Inserted(old(spine), cut, n)
      ensures Linked()
    {
      if head == null {
        head, tail, inFlightEnd := n, n, n;
      } else {
        tail.next := n;
        tail := n;
        inFlightEnd := n;
      }
      InsertLinked(spine, cut, n);
      InsertedEnds(spine, cut, n);
      spine := Inserted(spine, cut, n);
    }

    /** Otherwise it goes in front of the first pending node. */
    method InsertBeforeCursor(n: Node)
      requires Valid() && n !in spine && inFlightEnd != null
      modifies this`head, this`inFlightEnd, this`spine, spine, n
      ensures spine == Inserted(old(spine), cut, n)
      ensures Linked()
    {
      OnlyAtZero(spine, cut);
      if inFlightEnd == head {
        n.next := head;
        head := n;
      } else {
        var prev := Predecessor();
        n.next := inFlightEnd;
        prev.next := n;
      }
      inFlightEnd := n;
      InsertLinked(spine, cut, n);
      InsertedEnds(spine, cut, n);
      spine := Inserted(spine, cut, n);
    }

    /** The length-bounded walk of PushFront; its panic branch is unreachable. */
    method Predecessor() returns (prev: Node)
      requires Valid() && 0 < cut < |spine|
      ensures prev == spine[cut - 1]
    {
      prev := head;
      var steps := 0;
      while prev.next != inFlightEnd
        invariant 0 <= steps < cut && prev == spine[steps]
        decreases cut - steps
      {
        prev := prev.next;
        steps := steps + 1;
        if steps > length {
          assert false;
        }
      }
    }

    method Commit()
      requires Valid()
      modifies this, spine
      ensures Valid() && spine == old(spine[cut..])
      ensures View() == QueueSpec.Commit(old(View()))
    {
      CutCommit(Contents(), cut, capacity);
      UnlinkInFlight();
      assert Contents() == old(Contents()[cut..]);
    }

    /** The body of Commit: the nodes in front of the cursor are unlinked and the head moves up. */
    method UnlinkInFlight()
      requires Valid()
      modifies this, spine
      ensures Valid() && spine == old(spine[cut..]) && cut == 0
    {
      OnlyAtZero(spine, cut);
      if head == inFlightEnd {
        assert spine[cut..] == spine;
        return;
      }
      var removed := 0;
      var cur := head;
      while cur != null && cur != inFlightEnd
        invariant 0 <= removed <= cut && cur == NodeAt(spine, removed)
        invariant unchanged(this)
        invariant forall k {:trigger spine[k].next} | removed <= k < |spine| :: spine[k].next == NodeAt(spine, k + 1)
        decreases cut - removed
      {
        var next := cur.next;
        cur.next := null;
        cur := next;
        removed := removed + 1;
      }
      head := inFlightEnd;
      if head == null {
        tail := null;
      }
      length := length - removed;
      spine, cut := spine[cut..], 0;
    }

    method Rewind()
      requires Valid()
      modifies this`inFlightEnd, this`cut
      ensures Valid() && spine == old(spine)
      ensures View() == QueueSpec.Rewind(old(View()))
    {
      CutRewind(Contents(), cut, capacity);
      MoveCursorHome();
    }

    /** Rewind's cursor move. */
    method MoveCursorHome()
      requires Valid()
      modifies this`inFlightEnd, this`cut
      ensures Valid() && spine == old(spine) && cut == 0
    {
      OnlyAtZero(spine, cut);
      if head == inFlightEnd {
        return;
      }
      inFlightEnd := head;
      cut := 0;
    }

    method Remove(id: string) returns (removed: seq<Message>)
      requires Valid()
      modifies this, spine
      ensures Valid() && (forall n | n in spine :: n in old(spine))
      ensures (View(), removed) == QueueSpec.Remove(old(View()), id)
    {
      removed := [];
      ghost var c, k := Contents(), cut;
      ghost var i := 0;
      var prev: Node? := null;
      var n := head;
      while n != null && n.value.id != id
        invariant 0 <= i <= |spine| && n == NodeAt(spine, i)
        invariant prev == NodeAt(spine, i - 1)
        invariant forall k | 0 <= k < i :: c[k].id != id
        decreases |spine| - i
      {
        prev, n := n, n.next;
        i := i + 1;
      }
      if n == null {
        NotFound(c, id);
        CutContents(c, cut, capacity);
        return;
      }
      CutRemove(c, k, capacity, id, i);
      TakeOut(prev, n, i);
      removed := [n.value];
    }

    /** Unlinking n, as the two regions see it. */
    method TakeOut(prev: Node?, n: Node, ghost i: nat)
      requires Valid() && i < |spine| && n == spine[i] && prev == NodeAt(spine, i - 1)
      modifies this, spine
      ensures Valid() && forall m | m in spine :: m in old(spine)
      ensures View() == Cut(Without(old(Contents()), i), if i < old(cut) then old(cut) - 1 else old(cut), capacity)
    {
      ValuesWithout(spine, i);
      Unlink(prev, n, i);
    }

    /** The unlinking inside Remove's loop: n is taken out, and n was at position i. */
    method Unlink(prev: Node?, n: Node, ghost i: nat)
      requires Valid() && i < |spine| && n == spine[i] && prev == NodeAt(spine, i - 1)
      modifies this, spine
      ensures Valid() && spine == Spliced(old(spine), i)
      ensures cut == if i < old(cut) then old(cut) - 1 else old(cut)
    {
      Bypass(prev, n, i);
      length := length - 1;
      SpliceLinked(spine, i);
      SplicedEnds(spine, i, cut);
      spine, cut := Spliced(spine, i), if i < cut then cut - 1 else cut;
    }

    /** Its pointer surgery: the chain, the ends and the cursor skip n. */
    method Bypass(prev: Node?, n: Node, ghost i: nat)
      requires Valid() && i < |spine| && n == spine[i] && prev == NodeAt(spine, i - 1)
      modifies this`head, this`tail, this`inFlightEnd, spine
      ensures head == if i == 0 then NodeAt(spine, 1) else NodeAt(spine, 0)
      ensures tail == if i == |spine| - 1 then NodeAt(spine, i - 1) else NodeAt(spine, |spine| - 1)
      ensures inFlightEnd == if i == cut then NodeAt(spine, cut + 1) else NodeAt(spine, cut)
      ensures i > 0 ==> spine[i - 1].next == NodeAt(spine, i + 1)
      ensures forall k {:trigger spine[k].next} | 0 <= k < |spine| && k != i && k != i - 1 ::
        spine[k].next == NodeAt(spine, k + 1)
    {
      OnlyHere(spine, i, |spine| - 1);
      OnlyHere(spine, i, cut);
      if prev == null {
        head := n.next;
      } else {
        prev.next := n.next;
      }
      if n == tail {
        tail := prev;
      }
      if n == inFlightEnd {
        inFlightEnd := n.next;
      }
      n.next := null;
    }

    method Clear() returns (out: seq<Message>)
      requires Valid()
      modifies this, spine
      ensures Valid() && spine == []
      ensures (View(), out) == QueueSpec.Clear(old(View()))
    {
      CutContents(Contents(), cut, capacity);
      out := UnlinkAll();
    }

    /** The body of Clear: every message from head to tail, every node unlinked. */
    method UnlinkAll() returns (out: seq<Message>)
      requires Valid()
      modifies this, spine
      ensures Valid() && spine == [] && cut == 0
      ensures out == old(Contents())
    {
      out := [];
      if head == null {
        return;
      }
      ghost var c := Contents();
      ghost var i := 0;
      var n := head;
      while n != null
        invariant 0 <= i <= |spine| && n == NodeAt(spine, i)
        invariant unchanged(this)
        invariant out == c[..i]
        invariant forall k {:trigger spine[k].next} | i <= k < |spine| :: spine[k].next == NodeAt(spine, k + 1)
        decreases |spine| - i
      {
        var next := n.next;
        n.next := null;
        assert c[..i + 1] == c[..i] + [n.value];
        out := out + [n.value];
        n := next;
        i := i + 1;
      }
      assert c[..i] == c;
      head, tail, inFlightEnd := null, null, null;
      length := 0;
      spine, cut := [], 0;
    }

    method Len() returns (n: int)
      requires Valid()
      ensures n == |View().Contents()|
    {
      n := length;
    }
  }

  /** From k on the messages are Normal up to i, where a barrier or the end is. */
  ghost predicate StopsAt(c: seq<Message>, k: nat, i: nat) {
    && k <= i <= |c| && (forall j | k <= j < i :: c[j].kind.Normal?)
    && (i < |c| ==> c[i].kind.Barrier?)
  }

  /** A walk that stopped at i from the pending head k has found the batch. */
  lemma BatchIs(c: seq<Message>, k: nat, i: nat)
    requires StopsAt(c, k, i) && k < |c|
    ensures BatchSize(c[k..]) == if i == k then 1 else i - k
  {
    RunLength(c[k..], i - k);
  }

  lemma {:induction false} RunLength(p: seq<Message>, n: nat)
    requires n <= |p|
    requires forall k | 0 <= k < n :: p[k].kind.Normal?
    requires n == |p| || p[n].kind.Barrier?
    ensures NormalRun(p) == n
  {
    if n > 0 {
      RunLength(p[1..], n - 1);
    }
  }

  lemma {:induction false} FoundAt(s: seq<Message>, id: string, i: nat)
    requires i < |s| && s[i].id == id
    requires forall k | 0 <= k < i :: s[k].id != id
    ensures Find(s, id) == i
  {
    if i > 0 {
      FoundAt(s[1..], id, i - 1);
    }
  }

  lemma {:induction false} NotFound(s: seq<Message>, id: string)
    requires forall k | 0 <= k < |s| :: s[k].id != id
    ensures Find(s, id) == |s|
  {
    if s != [] {
      NotFound(s[1..], id);
    }
  }
}
