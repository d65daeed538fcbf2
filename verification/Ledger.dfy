/** What becomes of every admit command the manager accepts: the members' FIFO
    queues, the messages sent on reply channels, and the waiters taken out by a
    cancel. The manager's handlers touch this record only through the operations
    below, so each law about it is proved once per operation. */
module Ledger {
  import opened Names
  import opened State

  /** `next` is the pool's waiter counter; `asked`, `sent` and `removed` are history:
      the service each accepted command named, every send in order, and the waiters
      removed by a cancel. */
  datatype Book = Book(
    queues: map<Name, seq<Waiter>>, next: nat,
    asked: map<nat, Name>, sent: seq<Sent>, removed: set<nat>)

  ghost predicate Holds(q: seq<Waiter>, reply: nat)
  {
    exists i :: 0 <= i < |q| && q[i].reply == reply
  }

  ghost predicate Answered(sent: seq<Sent>, reply: nat)
  {
    exists i :: 0 <= i < |sent| && sent[i].reply == reply
  }

  ghost predicate Queued(b: Book, reply: nat)
  {
    exists n :: n in b.queues && Holds(b.queues[n], reply)
  }

  function Replies(q: seq<Waiter>, result: AdmitResult): seq<Sent>
  {
    seq(|q|, i requires 0 <= i < |q| => Sent(q[i].reply, result))
  }

  // --- the operations ---

  /** The command is answered at once, without queueing. */
  function Answer(b: Book, service: Name, reply: nat, result: AdmitResult): Book
  {
    b.(asked := b.asked[reply := service], sent := b.sent + [Sent(reply, result)])
  }

  /** member.enqueue under handleAdmit: the counter advances even when the queue is full. */
  function Enqueue(b: Book, n: Name, reply: nat, maxQueue: int): Book
    requires n in b.queues
  {
    if |b.queues[n]| >= maxQueue then
      Answer(b, n, reply, QueueFull).(next := b.next + 1)
    else
      b.(next := b.next + 1, asked := b.asked[reply := n],
         queues := b.queues[n := b.queues[n] + [Waiter(b.next + 1, reply)]])
  }

  /** member.removeByReply on one queue. */
  function Without(q: seq<Waiter>, reply: nat): seq<Waiter>
  {
    if q == [] then []
    else if q[0].reply == reply then q[1..]
    else [q[0]] + Without(q[1..], reply)
  }

  ghost function Remove(b: Book, n: Name, reply: nat): Book
  {
    if n !in b.queues then b
    else b.(queues := b.queues[n := Without(b.queues[n], reply)],
            removed := if Holds(b.queues[n], reply) then b.removed + {reply} else b.removed)
  }

  /** member.flush. */
  function Flush(b: Book, n: Name, result: AdmitResult): Book
    requires n in b.queues
  {
    b.(queues := b.queues[n := []], sent := b.sent + Replies(b.queues[n], result))
  }

  /** Flushing every member, in the order a map iteration happens to take. */
  function FlushAll(b: Book, order: seq<Name>, result: AdmitResult): (r: Book)
    requires forall n :: n in order ==> n in b.queues
    ensures r.queues.Keys == b.queues.Keys
    decreases |order|
  {
    if order == [] then b
    else FlushAll(Flush(b, order[0], result), order[1..], result)
  }

  // --- the laws ---

  /** One queue: FIFO by number, no number above the counter, no channel twice, and
      every waiter asked for this member. */
  ghost predicate QueueOk(q: seq<Waiter>, n: Name, next: nat, asked: map<nat, Name>)
  {
    && (forall i :: 0 <= i < |q| ==> q[i].seq_ <= next && q[i].reply in asked && asked[q[i].reply] == n)
    && (forall i, j :: 0 <= i < j < |q| ==> q[i].seq_ < q[j].seq_ && q[i].reply != q[j].reply)
  }

  ghost predicate QueuesOk(b: Book)
  {
    forall n {:trigger QueueOk(b.queues[n], n, b.next, b.asked)} ::
      n in b.queues ==> QueueOk(b.queues[n], n, b.next, b.asked)
  }

  /** No number is in both queues. */
  ghost predicate Apart(p: seq<Waiter>, q: seq<Waiter>)
  {
    forall i, j :: 0 <= i < |p| && 0 <= j < |q| ==> p[i].seq_ != q[j].seq_
  }

  ghost predicate NumbersDistinct(b: Book)
  {
    forall m, n {:trigger Apart(b.queues[m], b.queues[n])} ::
      m in b.queues && n in b.queues && m != n ==> Apart(b.queues[m], b.queues[n])
  }

  ghost predicate SentOnce(b: Book)
  {
    && (forall i, j :: 0 <= i < j < |b.sent| ==> b.sent[i].reply != b.sent[j].reply)
    && (forall i :: 0 <= i < |b.sent| ==> b.sent[i].reply in b.asked && b.sent[i].reply !in b.removed)
  }

  /** No waiter of this queue was answered or removed. */
  ghost predicate Open(q: seq<Waiter>, sent: seq<Sent>, removed: set<nat>)
  {
    forall i :: 0 <= i < |q| ==> q[i].reply !in removed && !Answered(sent, q[i].reply)
  }

  ghost predicate WaitersPending(b: Book)
  {
    && b.removed <= b.asked.Keys
    && (forall n {:trigger Open(b.queues[n], b.sent, b.removed)} ::
          n in b.queues ==> Open(b.queues[n], b.sent, b.removed))
  }

  ghost predicate Accounted(b: Book, reply: nat)
  {
    Queued(b, reply) || Answered(b.sent, reply) || reply in b.removed
  }

  ghost predicate NoneLost(b: Book)
  {
    forall r {:trigger Accounted(b, r)} :: r in b.asked ==> Accounted(b, r)
  }

  ghost predicate Balanced(b: Book)
  {
    QueuesOk(b) && NumbersDistinct(b) && SentOnce(b) && WaitersPending(b) && NoneLost(b)
  }

  /** Conservation: an accepted command is waiting in exactly one place of exactly one
      queue, or was answered exactly once, or was removed by a cancel, and never two of these. */
  lemma ExactlyOneFate(b: Book, r: nat)
    requires Balanced(b) && r in b.asked
    ensures Queued(b, r) || Answered(b.sent, r) || r in b.removed
    ensures !(Queued(b, r) && Answered(b.sent, r)) && !(Queued(b, r) && r in b.removed)
    ensures !(Answered(b.sent, r) && r in b.removed)
    ensures forall m, n, i, j | m in b.queues && n in b.queues && 0 <= i < |b.queues[m]| && 0 <= j < |b.queues[n]| ::
      b.queues[m][i].reply == r == b.queues[n][j].reply ==> m == n == b.asked[r] && i == j
    ensures forall i, j | 0 <= i < |b.sent| && 0 <= j < |b.sent| ::
      b.sent[i].reply == r == b.sent[j].reply ==> i == j
  {
    assert Accounted(b, r);
    if n :| n in b.queues && Holds(b.queues[n], r) {
      assert Open(b.queues[n], b.sent, b.removed);
    }
    forall m, n, i, j | m in b.queues && n in b.queues && 0 <= i < |b.queues[m]| && 0 <= j < |b.queues[n]|
      && b.queues[m][i].reply == r == b.queues[n][j].reply
      ensures m == n == b.asked[r] && i == j
    {
      assert QueueOk(b.queues[m], m, b.next, b.asked) && QueueOk(b.queues[n], n, b.next, b.asked);
    }
  }

  /** FIFO across services: a member whose head has the lowest number among the heads
      holds the waiter with the lowest number of all. */
  lemma LowestHeadIsLowest(b: Book, n: Name, m: Name, i: nat)
    requires Balanced(b) && n in b.queues && m in b.queues && b.queues[n] != [] && i < |b.queues[m]|
    requires b.queues[n][0].seq_ <= b.queues[m][0].seq_
    ensures b.queues[n][0].seq_ <= b.queues[m][i].seq_
    ensures b.queues[n][0].seq_ == b.queues[m][i].seq_ ==> m == n && i == 0
  {
    assert QueueOk(b.queues[m], m, b.next, b.asked);
    if m != n { assert Apart(b.queues[n], b.queues[m]); }
  }

  // --- every operation keeps them ---

  lemma AnsweredConcat(a: seq<Sent>, c: seq<Sent>)
    ensures forall r :: Answered(a + c, r) <==> Answered(a, r) || Answered(c, r)
  {
    forall r ensures Answered(a + c, r) <==> Answered(a, r) || Answered(c, r) {
      if Answered(a, r) {
        var i :| 0 <= i < |a| && a[i].reply == r;
        assert (a + c)[i].reply == r;
      }
      if Answered(c, r) {
        var i :| 0 <= i < |c| && c[i].reply == r;
        assert (a + c)[|a| + i].reply == r;
      }
    }
  }

  lemma AnswerKeeps(b: Book, service: Name, reply: nat, result: AdmitResult)
    requires Balanced(b) && reply !in b.asked
    ensures Balanced(Answer(b, service, reply, result))
  {
    var c := Answer(b, service, reply, result);
    AnsweredConcat(b.sent, [Sent(reply, result)]);
    assert [Sent(reply, result)][0].reply == reply;
    forall n | n in c.queues ensures QueueOk(c.queues[n], n, c.next, c.asked) {
      assert QueueOk(b.queues[n], n, b.next, b.asked);
    }
    forall n | n in c.queues ensures Open(c.queues[n], c.sent, c.removed) {
      assert Open(b.queues[n], b.sent, b.removed) && QueueOk(b.queues[n], n, b.next, b.asked);
    }
    forall m, n | m in c.queues && n in c.queues && m != n ensures Apart(c.queues[m], c.queues[n]) {
      assert Apart(b.queues[m], b.queues[n]);
    }
    forall r | r in c.asked ensures Accounted(c, r) {
      assert r != reply ==> Accounted(b, r);
      if r != reply && Queued(b, r) {
        var n :| n in b.queues && Holds(b.queues[n], r);
        assert n in c.queues && Holds(c.queues[n], r);
      }
    }
  }

  lemma AppendKeeps(b: Book, n: Name, reply: nat, maxQueue: int)
    requires Balanced(b) && n in b.queues && reply !in b.asked && |b.queues[n]| < maxQueue
    ensures Balanced(Enqueue(b, n, reply, maxQueue))
  {
    var c := Enqueue(b, n, reply, maxQueue);
    AppendQueues(b, n, reply, c);
    AppendDistinct(b, n, reply, c);
    AppendLosesNone(b, n, reply, c);
  }

  lemma AppendQueues(b: Book, n: Name, reply: nat, c: Book)
    requires QueuesOk(b) && WaitersPending(b) && SentOnce(b) && n in b.queues && reply !in b.asked
    requires c == b.(next := b.next + 1, asked := b.asked[reply := n],
                     queues := b.queues[n := b.queues[n] + [Waiter(b.next + 1, reply)]])
    ensures QueuesOk(c) && WaitersPending(c) && SentOnce(c)
  {
    forall m | m in c.queues ensures QueueOk(c.queues[m], m, c.next, c.asked) {
      assert QueueOk(b.queues[m], m, b.next, b.asked);
    }
    forall m | m in c.queues ensures Open(c.queues[m], c.sent, c.removed) {
      assert Open(b.queues[m], b.sent, b.removed);
    }
  }

  lemma AppendDistinct(b: Book, n: Name, reply: nat, c: Book)
    requires QueuesOk(b) && NumbersDistinct(b) && n in b.queues
    requires c.queues == b.queues[n := b.queues[n] + [Waiter(b.next + 1, reply)]]
    ensures NumbersDistinct(c)
  {
    forall m, k | m in c.queues && k in c.queues && m != k ensures Apart(c.queues[m], c.queues[k]) {
      assert QueueOk(b.queues[m], m, b.next, b.asked) && QueueOk(b.queues[k], k, b.next, b.asked);
      assert Apart(b.queues[m], b.queues[k]);
    }
  }

  lemma AppendLosesNone(b: Book, n: Name, reply: nat, c: Book)
    requires NoneLost(b) && n in b.queues
    requires c == b.(next := b.next + 1, asked := b.asked[reply := n],
                     queues := b.queues[n := b.queues[n] + [Waiter(b.next + 1, reply)]])
    ensures NoneLost(c)
  {
    assert c.queues[n][|b.queues[n]|].reply == reply;
    assert Holds(c.queues[n], reply);
    forall r | r in c.asked ensures Accounted(c, r) {
      assert r != reply ==> Accounted(b, r);
      if r != reply && Queued(b, r) {
        var m :| m in b.queues && Holds(b.queues[m], r);
        var i :| 0 <= i < |b.queues[m]| && b.queues[m][i].reply == r;
        assert c.queues[m][i].reply == r;
        assert Holds(c.queues[m], r);
      }
    }
  }

  lemma EnqueueKeeps(b: Book, n: Name, reply: nat, maxQueue: int)
    requires Balanced(b) && n in b.queues && reply !in b.asked
    ensures Balanced(Enqueue(b, n, reply, maxQueue))
  {
    if |b.queues[n]| < maxQueue {
      AppendKeeps(b, n, reply, maxQueue);
    } else {
      AnswerKeeps(b, n, reply, QueueFull);
      CounterKeeps(Answer(b, n, reply, QueueFull));
    }
  }

  lemma CounterKeeps(a: Book)
    requires Balanced(a)
    ensures Balanced(a.(next := a.next + 1))
  {
    var c := a.(next := a.next + 1);
    forall m | m in c.queues ensures QueueOk(c.queues[m], m, c.next, c.asked) {
      assert QueueOk(a.queues[m], m, a.next, a.asked);
    }
    forall m | m in c.queues ensures Open(c.queues[m], c.sent, c.removed) {
      assert Open(a.queues[m], a.sent, a.removed);
    }
    forall m, n | m in c.queues && n in c.queues && m != n ensures Apart(c.queues[m], c.queues[n]) {
      assert Apart(a.queues[m], a.queues[n]);
    }
    forall r | r in c.asked ensures Accounted(c, r) {
      assert Accounted(a, r);
    }
  }

  /** Without takes out exactly the first waiter with that channel, if there is one. */
  ghost predicate FirstAt(q: seq<Waiter>, reply: nat, i: int)
  {
    0 <= i < |q| && q[i].reply == reply && forall j :: 0 <= j < i ==> q[j].reply != reply
  }

  lemma {:induction false} WithoutFirst(q: seq<Waiter>, reply: nat, i: int)
    requires FirstAt(q, reply, i)
    ensures Without(q, reply) == q[..i] + q[i + 1..]
  {
    if i == 0 {
      assert q[1..] == q[..0] + q[0 + 1..];
    } else {
      var t := q[1..];
      assert FirstAt(t, reply, i - 1);
      WithoutFirst(t, reply, i - 1);
      assert [q[0]] + (t[..i - 1] + t[i..]) == q[..i] + q[i + 1..];
    }
  }

  lemma {:induction false} WithoutNone(q: seq<Waiter>, reply: nat)
    requires !Holds(q, reply)
    ensures Without(q, reply) == q
  {
    if q != [] {
      assert q[0].reply != reply;
      forall i | 0 <= i < |q[1..]| ensures q[1..][i].reply != reply { assert q[i + 1].reply != reply; }
      WithoutNone(q[1..], reply);
    }
  }

  lemma {:induction false} FirstExists(q: seq<Waiter>, reply: nat, k: nat) returns (i: nat)
    requires k < |q| && q[k].reply == reply
    ensures FirstAt(q, reply, i)
  {
    i := 0;
    while q[i].reply != reply
      invariant i <= k && forall j :: 0 <= j < i ==> q[j].reply != reply
      decreases k - i
    {
      i := i + 1;
    }
  }

  lemma RemoveKeeps(b: Book, n: Name, reply: nat)
    requires Balanced(b)
    ensures Balanced(Remove(b, n, reply))
  {
    if n in b.queues {
      var q := b.queues[n];
      if !Holds(q, reply) {
        WithoutNone(q, reply);
        assert Remove(b, n, reply).queues == b.queues;
      } else {
        var k :| 0 <= k < |q| && q[k].reply == reply;
        var i := FirstExists(q, reply, k);
        WithoutFirst(q, reply, i);
        CutKeeps(b, n, i, Remove(b, n, reply));
      }
    }
  }

  lemma CutKeeps(b: Book, n: Name, k: nat, c: Book)
    requires Balanced(b) && n in b.queues && k < |b.queues[n]|
    requires c == b.(queues := b.queues[n := b.queues[n][..k] + b.queues[n][k + 1..]],
                     removed := b.removed + {b.queues[n][k].reply})
    ensures Balanced(c)
  {
    var q := b.queues[n];
    assert QueueOk(q, n, b.next, b.asked);
    assert Open(q, b.sent, b.removed);
    forall i | 0 <= i < |c.sent| ensures c.sent[i].reply !in c.removed {
      assert Answered(b.sent, b.sent[i].reply);
    }
    CutQueues(b, n, k, c);
    CutDistinct(b, n, k, c);
    CutLoses(b, n, k, c);
  }

  lemma CutQueues(b: Book, n: Name, k: nat, c: Book)
    requires QueuesOk(b) && WaitersPending(b) && n in b.queues && k < |b.queues[n]|
    requires c == b.(queues := b.queues[n := b.queues[n][..k] + b.queues[n][k + 1..]],
                     removed := b.removed + {b.queues[n][k].reply})
    ensures QueuesOk(c) && WaitersPending(c)
  {
    var q := b.queues[n];
    var p := q[..k] + q[k + 1..];
    assert QueueOk(q, n, b.next, b.asked);
    assert forall i :: 0 <= i < k ==> p[i] == q[i];
    assert forall i :: k <= i < |p| ==> p[i] == q[i + 1];
    assert QueueOk(p, n, b.next, b.asked);
    forall m | m in c.queues ensures QueueOk(c.queues[m], m, c.next, c.asked) {
      assert QueueOk(b.queues[m], m, b.next, b.asked);
    }
    assert Open(q, b.sent, b.removed);
    assert Open(p, c.sent, c.removed);
    forall m | m in c.queues ensures Open(c.queues[m], c.sent, c.removed) {
      assert QueueOk(b.queues[m], m, b.next, b.asked) && Open(b.queues[m], b.sent, b.removed);
    }
  }

  lemma CutDistinct(b: Book, n: Name, k: nat, c: Book)
    requires NumbersDistinct(b) && n in b.queues && k < |b.queues[n]|
    requires c.queues == b.queues[n := b.queues[n][..k] + b.queues[n][k + 1..]]
    ensures NumbersDistinct(c)
  {
    var q := b.queues[n];
    var p := q[..k] + q[k + 1..];
    assert forall i :: 0 <= i < |p| ==> p[i] == q[if i < k then i else i + 1];
    forall m, l | m in c.queues && l in c.queues && m != l ensures Apart(c.queues[m], c.queues[l]) {
      assert Apart(b.queues[m], b.queues[l]);
    }
  }

  lemma CutLoses(b: Book, n: Name, k: nat, c: Book)
    requires NoneLost(b) && n in b.queues && k < |b.queues[n]|
    requires c == b.(queues := b.queues[n := b.queues[n][..k] + b.queues[n][k + 1..]],
                     removed := b.removed + {b.queues[n][k].reply})
    ensures NoneLost(c)
  {
    forall r | r in c.asked ensures Accounted(c, r) {
      assert Accounted(b, r);
      if Queued(b, r) && r !in c.removed {
        var m :| m in b.queues && Holds(b.queues[m], r);
        var i :| 0 <= i < |b.queues[m]| && b.queues[m][i].reply == r;
        var i' := if m == n && i > k then i - 1 else i;
        assert c.queues[m][i'].reply == r;
        assert Holds(c.queues[m], r);
      }
    }
  }

  lemma RepliesAnswer(q: seq<Waiter>, result: AdmitResult)
    ensures forall r :: Answered(Replies(q, result), r) <==> Holds(q, r)
  {
    var s := Replies(q, result);
    forall r ensures Answered(s, r) <==> Holds(q, r) {
      if Holds(q, r) {
        var i :| 0 <= i < |q| && q[i].reply == r;
        assert s[i].reply == r;
      }
    }
  }

  lemma FlushKeeps(b: Book, n: Name, result: AdmitResult)
    requires Balanced(b) && n in b.queues
    ensures Balanced(Flush(b, n, result))
  {
    var q := b.queues[n];
    var c := Flush(b, n, result);
    RepliesAnswer(q, result);
    AnsweredConcat(b.sent, Replies(q, result));
    assert QueueOk(q, n, b.next, b.asked);
    forall m | m in c.queues ensures QueueOk(c.queues[m], m, c.next, c.asked) {
      assert QueueOk(b.queues[m], m, b.next, b.asked);
    }
    forall m | m in c.queues ensures Open(c.queues[m], c.sent, c.removed) {
      assert QueueOk(b.queues[m], m, b.next, b.asked) && Open(b.queues[m], b.sent, b.removed);
    }
    forall m, k | m in c.queues && k in c.queues && m != k ensures Apart(c.queues[m], c.queues[k]) {
      assert Apart(b.queues[m], b.queues[k]);
    }
    FlushSentOnce(b, n, result);
    forall r | r in c.asked ensures Accounted(c, r) {
      assert Accounted(b, r);
      if Queued(b, r) && !Holds(q, r) {
        var m :| m in b.queues && Holds(b.queues[m], r);
        assert m in c.queues && Holds(c.queues[m], r);
      }
    }
  }

  lemma FlushSentOnce(b: Book, n: Name, result: AdmitResult)
    requires QueuesOk(b) && SentOnce(b) && WaitersPending(b) && n in b.queues
    ensures SentOnce(Flush(b, n, result))
  {
    var q := b.queues[n];
    var c := Flush(b, n, result);
    assert QueueOk(q, n, b.next, b.asked) && Open(q, b.sent, b.removed);
    forall i, j | 0 <= i < j < |c.sent| ensures c.sent[i].reply != c.sent[j].reply {
      if i < |b.sent| <= j {
        assert !Answered(b.sent, q[j - |b.sent|].reply);
        assert Answered(b.sent, b.sent[i].reply);
      }
    }
  }

  lemma {:induction false} FlushAllKeeps(b: Book, order: seq<Name>, result: AdmitResult)
    requires Balanced(b) && forall n :: n in order ==> n in b.queues
    ensures Balanced(FlushAll(b, order, result))
    decreases |order|
  {
    if order != [] {
      FlushKeeps(b, order[0], result);
      FlushAllKeeps(Flush(b, order[0], result), order[1..], result);
    }
  }

  /** A pass over every member leaves no waiter, and only ever appends to what was sent. */
  lemma {:induction false} FlushAllEmpties(b: Book, order: seq<Name>, result: AdmitResult)
    requires forall n :: n in order ==> n in b.queues
    ensures var c := FlushAll(b, order, result);
      && (forall n :: n in order ==> c.queues[n] == [])
      && (forall n :: n in b.queues && n !in order ==> c.queues[n] == b.queues[n])
      && b.sent <= c.sent && c.asked == b.asked && c.removed == b.removed && c.next == b.next
      && (forall i :: |b.sent| <= i < |c.sent| ==> c.sent[i].result == result)
    decreases |order|
  {
    if order != [] {
      var d := Flush(b, order[0], result);
      FlushAllEmpties(d, order[1..], result);
      var c := FlushAll(b, order, result);
      forall n | n in order ensures c.queues[n] == [] {
        if n !in order[1..] { assert n == order[0]; }
      }
    }
  }
}
