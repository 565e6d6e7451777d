/** How each queue operation keeps every thread in exactly one place. */
module SchedPlaces {
  import opened Basics
  import opened SchedModel
  import opened SchedInv

  predicate Disjoint(p: seq<Tid>, q: seq<Tid>) { forall t :: t in p ==> t !in q }

  lemma AppendNoDup(p: seq<Tid>, q: seq<Tid>)
    requires NoDup(p) && NoDup(q) && Disjoint(p, q)
    ensures NoDup(p + q)
    ensures forall t :: t in p + q <==> t in p || t in q
  {
    forall i, j | 0 <= i < j < |p + q| ensures (p + q)[i] != (p + q)[j] {
      if i < |p| <= j { assert p[i] in p && q[j - |p|] in q; }
    }
  }

  lemma EnqueueQ(s: State, id: QueueId, t: Tid)
    ensures var n := SetQ(s, id, Q(s, id) + [t]);
            n.threads == s.threads && Q(n, id) == Q(s, id) + [t] && forall i :: i != id ==> Q(n, i) == Q(s, i)
  {}

  lemma FitsLocated(n: State, t: Tid, id: QueueId)
    requires t in n.threads && Fits(n.threads[t], id) && t in Q(n, id)
    ensures Located(n, t)
  {
    hide Q, OffCpu;
  }

  lemma LocatedStill(s: State, n: State, id: QueueId, t: Tid, u: Tid)
    requires u in s.threads && n.threads == s.threads && Located(s, u)
    requires Q(n, id) == Q(s, id) + [t] && forall i :: i != id ==> Q(n, i) == Q(s, i)
    ensures Located(n, u)
  {
    hide Q;
  }

  /** The thread on the processor takes its place in a queue. */
  lemma EnqueuePlaces(s: State, id: QueueId, t: Tid)
    requires Places(s, t) && t in s.threads && NULL !in s.threads && Fits(s.threads[t], id)
    ensures t !in Q(s, id)
    ensures Places(SetQ(s, id, Q(s, id) + [t]), NULL)
  {
    hide Q, SetQ, Fits, Located;
    var n := SetQ(s, id, Q(s, id) + [t]);
    EnqueueQ(s, id, t);
    assert QueueOk(s, t, id);
    AppendNoDup(Q(s, id), [t]);
    forall i ensures QueueOk(n, NULL, i) {
      assert QueueOk(s, t, i);
    }
    forall i, j, u | u in Q(n, i) && u in Q(n, j) ensures i == j {
      assert QueueOk(s, t, i) && QueueOk(s, t, j);
    }
    forall u | u in n.threads ensures Located(n, u) {
      if u != t {
        assert Located(s, u);
        LocatedStill(s, n, id, t, u);
      } else {
        FitsLocated(n, t, id);
      }
    }
  }

  /** `kept` and `moved` split queue `from`. */
  ghost predicate Splits(s: State, from: QueueId, kept: seq<Tid>, moved: seq<Tid>) {
    && NoDup(kept) && NoDup(moved) && Disjoint(kept, moved)
    && forall t :: t in Q(s, from) <==> t in kept || t in moved
  }

  /** Some members of a queue of waiting threads move to the tail of the run queue. */
  lemma MovePlaces(s: State, f: Tid, from: QueueId, kept: seq<Tid>, moved: seq<Tid>)
    requires Places(s, f) && NULL !in s.threads && Splits(s, from, kept, moved)
    requires from != RunQueue && from != Graveyard && from != Doomed
    ensures Appendable(Q(s, RunQueue), moved)
    ensures Places(SetQ(SetQ(s, from, kept), RunQueue, Q(s, RunQueue) + moved), f)
  {
    var n := SetQ(SetQ(s, from, kept), RunQueue, Q(s, RunQueue) + moved);
    assert QueueOk(s, f, from) && QueueOk(s, f, RunQueue);
    assert Disjoint(Q(s, RunQueue), moved);
    AppendNoDup(Q(s, RunQueue), moved);
    forall i ensures QueueOk(n, f, i) {
      assert QueueOk(s, f, i);
    }
    forall i, j, u | u in Q(n, i) && u in Q(n, j) ensures i == j {
      assert u in moved ==> u in Q(s, from);
      assert i != RunQueue ==> u in Q(s, i);
      assert j != RunQueue ==> u in Q(s, j);
    }
    forall u | u in n.threads && u != f ensures Located(n, u) {
      assert Located(s, u);
    }
  }

  /** The head of the run queue takes the processor. */
  lemma TakePlaces(s: State)
    requires Places(s, NULL) && NULL !in s.threads && Q(s, RunQueue) != []
    ensures var r := Q(s, RunQueue)[0];
            r in s.threads && Fits(s.threads[r], RunQueue) && Places(SetQ(s, RunQueue, Q(s, RunQueue)[1..]), r)
  {
    var q := Q(s, RunQueue);
    var r := q[0];
    var n := SetQ(s, RunQueue, q[1..]);
    assert QueueOk(s, NULL, RunQueue);
    assert q == [r] + q[1..];
    assert r in Q(s, RunQueue);
    forall i ensures QueueOk(n, r, i) {
      assert QueueOk(s, NULL, i);
      assert i != RunQueue ==> r !in Q(s, i);
    }
    forall i, j, u | u in Q(n, i) && u in Q(n, j) ensures i == j {
      assert u in Q(s, i) && u in Q(s, j);
    }
    forall u | u in n.threads && u != r ensures Located(n, u) {
      assert Located(s, u);
    }
  }

  /** Places look only at the queues, and at program point and reference count of queued threads. */
  lemma SamePlaces(s: State, n: State, f: Tid)
    requires Places(s, f) && n.queues == s.queues && n.threads.Keys == s.threads.Keys
    requires forall t :: t in s.threads && t != f ==> n.threads[t].pc == s.threads[t].pc && n.threads[t].refCount == s.threads[t].refCount
    ensures Places(n, f)
  {
    forall i ensures QueueOk(n, f, i) {
      assert QueueOk(s, f, i);
      assert Q(n, i) == Q(s, i);
    }
    forall i, j, u | u in Q(n, i) && u in Q(n, j) ensures i == j {
      assert u in Q(s, i) && u in Q(s, j);
    }
    forall u | u in n.threads && u != f ensures Located(n, u) {
      assert Located(s, u);
    }
  }

  // ---------------------------------------------------------------- waking sleepers

  lemma {:induction false} DueSplits(s: State, q: seq<Tid>)
    requires NoDup(q)
    ensures NoDup(Due(s, q)) && NoDup(NotDue(s, q))
    ensures forall t :: t in Due(s, q) <==> t in q && Expired(s, t)
    ensures forall t :: t in NotDue(s, q) <==> t in q && !Expired(s, t)
  {
    if q != [] {
      DueSplits(s, q[1..]);
      assert q == [q[0]] + q[1..];
      assert q[0] !in q[1..];
    }
  }
}
