/** What the walks over the chains rely on, stated on queues as sequences. */
module SchedWalks {
  import opened Basics
  import opened SchedModel
  import opened SchedPlaces
  import opened SchedDispatch
  import opened SchedLocal
  import opened SchedLinks

  /** The due members of the first part of a queue, one more at a time. */
  lemma {:induction false} DueMore(s: State, q: seq<Tid>, t: Tid)
    ensures Due(s, q + [t]) == Due(s, q) + if Expired(s, t) then [t] else []
    ensures NotDue(s, q + [t]) == NotDue(s, q) + if Expired(s, t) then [] else [t]
  {
    hide *;
    DueStep(s, q);
    DueStep(s, q + [t]);
    if q == [] {
      assert (q + [t])[1..] == q;
    } else {
      DueMore(s, q[1..], t);
      assert (q + [t])[1..] == q[1..] + [t];
    }
  }

  /** The recursion of both parts, one step. */
  lemma DueStep(s: State, q: seq<Tid>)
    ensures q == [] ==> Due(s, q) == [] && NotDue(s, q) == []
    ensures q != [] ==> Due(s, q) == (if Expired(s, q[0]) then [q[0]] else []) + Due(s, q[1..])
    ensures q != [] ==> NotDue(s, q) == (if Expired(s, q[0]) then [] else [q[0]]) + NotDue(s, q[1..])
  {}

  lemma {:induction false} DueOf(s: State, q: seq<Tid>)
    ensures forall t :: t in Due(s, q) ==> t in q
    ensures forall t :: t in NotDue(s, q) ==> t in q
  {
    if q != [] {
      DueOf(s, q[1..]);
      assert q == [q[0]] + q[1..];
    }
  }

  lemma AppendableWhen(q: seq<Tid>, r: seq<Tid>)
    requires NoDup(r) && NULL !in r && forall t :: t in r ==> t !in q
    ensures Appendable(q, r)
  {}

  lemma TwoQueues(m: map<QueueId, seq<Tid>>, id: QueueId, a: seq<Tid>, a': seq<Tid>, b: seq<Tid>, b': seq<Tid>)
    requires id != RunQueue
    ensures m[id := a][RunQueue := b][id := a'][RunQueue := b'] == m[id := a'][RunQueue := b']
  {}

  lemma FreeOf(queues: map<QueueId, seq<Tid>>, id: QueueId, t: Tid)
    requires Free(queues, t)
    ensures t !in QOf(queues, id)
  {}

  predicate Recorded(threads: map<Tid, Thread>, q: seq<Tid>) { forall t :: t in q ==> t in threads }

  lemma NoneWoken(q: seq<Tid>, r: seq<Tid>)
    ensures q[0..] == q && r + q[..0] == r
  {}

  /** The walk over a queue `q` being emptied onto `r` has come to `q[i]`. */
  lemma OneWoken(q: seq<Tid>, r: seq<Tid>, i: nat)
    requires Proper(q) && i <= |q| && At0(q, i) != NULL
    ensures i < |q| && q[i..] != [] && q[i..][0] == At0(q, i) && q[i..][1..] == q[i + 1..]
    ensures At0(q[i..], 1) == At0(q, i + 1) && r + q[..i] + [At0(q, i)] == r + q[..i + 1]
  {
    assert q[..i + 1] == q[..i] + [q[i]];
  }

  lemma AllWoken(q: seq<Tid>, r: seq<Tid>, i: nat)
    requires Proper(q) && i <= |q| && At0(q, i) == NULL
    ensures q[i..] == [] && r + q[..i] == r + q
  {
    NullEnds(q, i);
    assert q[..i] == q;
  }

  /** The members of a queue: real threads, none twice. */
  predicate Proper(q: seq<Tid>) { NoDup(q) && NULL !in q }

  /** What a walk needs to know of a stored queue. */
  lemma StoredAt(next: map<Tid, Tid>, ends: map<QueueId, Ends>, queues: map<QueueId, seq<Tid>>, id: QueueId)
    requires Linked(next, ends, queues)
    ensures Stored(next, ends, queues, id)
    ensures Proper(QOf(queues, id)) && EndsOf(ends, id) == EndsFor(QOf(queues, id))
    ensures EndsOf(ends, id).head == At0(QOf(queues, id), 0)
    ensures var e := EndsFor(QOf(queues, id)); e.head == e.tail && e.head != NULL ==> e.head in next && next[e.head] == NULL
  {
    assert Stored(next, ends, queues, id);
    if |QOf(queues, id)| == 1 { assert Linking(next, QOf(queues, id), 0); }
  }

  /** The links after a thread is hung behind the tail, told by the queue's ends. */
  lemma HungAt(next: map<Tid, Tid>, q: seq<Tid>, t: Tid)
    requires Proper(q)
    ensures var e := EndsFor(q);
            && (e.head == NULL <==> q == []) && (e.tail == NULL <==> q == [])
            && (q != [] ==> e.head == q[0]) && HungNext(next, q, t) == if e.head == NULL then next else next[e.tail := t]
  {}

  /** Some of the members of `q`, each once. */
  predicate PartOf(ts: seq<Tid>, q: seq<Tid>) { NoDup(ts) && forall t :: t in ts ==> t in q }

  /** Members of another queue may be appended to the run queue. */
  lemma MayAppend(next: map<Tid, Tid>, ends: map<QueueId, Ends>, queues: map<QueueId, seq<Tid>>, id: QueueId, ts: seq<Tid>)
    requires Linked(next, ends, queues) && id != RunQueue && PartOf(ts, QOf(queues, id))
    ensures Appendable(QOf(queues, RunQueue), ts)
  {
    assert Stored(next, ends, queues, id);
    AppendableWhen(QOf(queues, RunQueue), ts);
  }

  lemma DuePart(s: State, q: seq<Tid>)
    requires Proper(q)
    ensures PartOf(Due(s, q), q)
  {
    DueOf(s, q);
    DueSplits(s, q);
  }

  lemma DueNone(s: State)
    ensures Due(s, []) == [] && NotDue(s, []) == []
  {}

  lemma ClearNone(threads: map<Tid, Thread>)
    ensures ClearSleep(threads, []) == threads
  {}

  lemma ClearOne(threads: map<Tid, Thread>, ts: seq<Tid>, t: Tid)
    requires t in threads
    ensures var c := ClearSleep(threads, ts);
            t in c && c[t := c[t].(sleepUntil := 0)] == ClearSleep(threads, ts + [t])
  {}

  /** The link of the sleeper the walk has come to leads to the next one. */
  lemma SleeperNext(next: map<Tid, Tid>, ends: map<QueueId, Ends>, queues: map<QueueId, seq<Tid>>, kept: seq<Tid>, q: seq<Tid>, i: nat)
    requires Linked(next, ends, queues) && i < |q| && QOf(queues, SleepQueue) == kept + q[i..]
    ensures q[i] in next && next[q[i]] == At0(q, i + 1)
  {
    assert Stored(next, ends, queues, SleepQueue);
    assert Linking(next, kept + q[i..], |kept|);
  }

  /** The sleeper the walk has come to is still recorded with its own wake-up time. */
  lemma SleeperRecord(s: State, q: seq<Tid>, i: nat)
    requires Proper(q) && i < |q| && q[i] in s.threads
    ensures var c := ClearSleep(s.threads, Due(s, q[..i]));
            q[i] in c && c[q[i]] == s.threads[q[i]]
  {
    DueOf(s, q[..i]);
  }

  /** What the walk of `wakeSleepers` has done before it looks at index `i` of the old queue `q`. */
  predicate Walked(s: State, q: seq<Tid>, r: seq<Tid>, i: nat, queues: map<QueueId, seq<Tid>>, threads: map<Tid, Thread>)
    requires i <= |q|
  {
    && queues == s.queues[SleepQueue := NotDue(s, q[..i]) + q[i..]][RunQueue := r + Due(s, q[..i])]
    && threads == ClearSleep(s.threads, Due(s, q[..i]))
  }

  lemma NoneWalked(s: State, q: seq<Tid>, r: seq<Tid>)
    ensures Walked(s, q, r, 0, s.queues[SleepQueue := q][RunQueue := r], s.threads)
  {
    assert q[..0] == [] && [] + q[0..] == q && r + [] == r;
    DueNone(s);
    ClearNone(s.threads);
  }

  /** How many of the sleepers already looked at stay asleep. */
  function Kept(s: State, q: seq<Tid>, i: nat): nat
    requires i <= |q|
  {
    |NotDue(s, q[..i])|
  }

  /** Where the walk finds the next sleeper: with its own record, its own link, and its place in the queue. */
  lemma WalkedAt(s: State, q: seq<Tid>, r: seq<Tid>, i: nat, next: map<Tid, Tid>, ends: map<QueueId, Ends>,
                 queues: map<QueueId, seq<Tid>>, threads: map<Tid, Thread>)
    requires Proper(q) && i <= |q| && At0(q, i) != NULL && Recorded(s.threads, q)
    requires Walked(s, q, r, i, queues, threads) && Linked(next, ends, queues)
    ensures var t := At0(q, i);
            && i < |q| && t in s.threads && t in threads && threads[t] == s.threads[t] && t in next && next[t] == At0(q, i + 1)
            && Kept(s, q, i) < |QOf(queues, SleepQueue)| && QOf(queues, SleepQueue)[Kept(s, q, i)] == t
  {
    NullEnds(q, i);
    SleeperRecord(s, q, i);
    SleeperNext(next, ends, queues, NotDue(s, q[..i]), q, i);
  }

  /** A sleeper that is not due stays where it is. */
  lemma WalkedOn(s: State, q: seq<Tid>, r: seq<Tid>, i: nat, queues: map<QueueId, seq<Tid>>, threads: map<Tid, Thread>)
    requires i < |q| && Walked(s, q, r, i, queues, threads) && !Expired(s, At0(q, i))
    ensures Walked(s, q, r, i + 1, queues, threads)
  {
    assert q[..i + 1] == q[..i] + [q[i]];
    DueMore(s, q[..i], q[i]);
    assert NotDue(s, q[..i]) + q[i..] == NotDue(s, q[..i]) + [q[i]] + q[i + 1..];
    assert NotDue(s, q[..i + 1]) == NotDue(s, q[..i]) + [q[i]];
    assert Due(s, q[..i + 1]) == Due(s, q[..i]);
  }

  /** A sleeper that is due has its record cleared and is moved. */
  lemma WalkedOff(s: State, q: seq<Tid>, r: seq<Tid>, i: nat, queues: map<QueueId, seq<Tid>>, threads: map<Tid, Thread>)
    requires i < |q| && Walked(s, q, r, i, queues, threads) && Expired(s, At0(q, i))
    ensures var t := At0(q, i); var k := Kept(s, q, i); var sleep := QOf(queues, SleepQueue);
            && k < |sleep| && t in threads
            && Walked(s, q, r, i + 1, queues[SleepQueue := Without(sleep, k)][RunQueue := QOf(queues, RunQueue) + [t]],
                      threads[t := threads[t].(sleepUntil := 0)])
  {
    assert q[..i + 1] == q[..i] + [q[i]];
    DueMore(s, q[..i], q[i]);
    ClearOne(s.threads, Due(s, q[..i]), q[i]);
    var kept := NotDue(s, q[..i]);
    assert NotDue(s, q[..i + 1]) == kept && Due(s, q[..i + 1]) == Due(s, q[..i]) + [q[i]];
    assert Without(kept + q[i..], |kept|) == kept + q[i + 1..];
    assert r + Due(s, q[..i]) + [q[i]] == r + Due(s, q[..i + 1]);
    TwoQueues(s.queues, SleepQueue, kept + q[i..], kept + q[i + 1..], r + Due(s, q[..i]), r + Due(s, q[..i + 1]));
  }

  lemma AllWalked(s: State, q: seq<Tid>, r: seq<Tid>, i: nat, queues: map<QueueId, seq<Tid>>, threads: map<Tid, Thread>)
    requires Proper(q) && i <= |q| && At0(q, i) == NULL && Walked(s, q, r, i, queues, threads)
    ensures queues == s.queues[SleepQueue := NotDue(s, q)][RunQueue := r + Due(s, q)]
    ensures threads == ClearSleep(s.threads, Due(s, q))
  {
    NullEnds(q, i);
    assert q[..i] == q && NotDue(s, q) + q[i..] == NotDue(s, q);
  }

  /** What the model's operations come to when the queues are stored properly. */
  lemma WakeAllResult(next: map<Tid, Tid>, ends: map<QueueId, Ends>, s: State, id: QueueId)
    requires Linked(next, ends, s.queues) && !s.intr && id != RunQueue
    ensures WakeAll(s, id) == s.(queues := s.queues[id := []][RunQueue := QOf(s.queues, RunQueue) + QOf(s.queues, id)])
  {
    StoredAt(next, ends, s.queues, id);
    MayAppend(next, ends, s.queues, id, QOf(s.queues, id));
    hide Linked, Stored, Appendable, WakeAll;
    WakeAllIs(s, id);
  }

  lemma WakeOneResult(next: map<Tid, Tid>, ends: map<QueueId, Ends>, s: State, id: QueueId)
    requires Linked(next, ends, s.queues) && !s.intr && id != RunQueue
    ensures var q := QOf(s.queues, id);
            WakeOne(s, id) == if q == [] then s
                              else s.(queues := s.queues[id := q[1..]][RunQueue := QOf(s.queues, RunQueue) + [q[0]]])
  {
    var q := QOf(s.queues, id);
    if q != [] {
      StoredAt(next, ends, s.queues, id);
      assert q[..1] == [q[0]];
      MayAppend(next, ends, s.queues, id, q[..1]);
    }
    hide Linked, Stored, Appendable, WakeOne;
    WakeOneIs(s, id);
  }

  lemma WakeSleepersResult(next: map<Tid, Tid>, ends: map<QueueId, Ends>, s: State)
    requires Linked(next, ends, s.queues) && !s.intr && !s.halted
    ensures var q := QOf(s.queues, SleepQueue);
            WakeSleepers(s) == s.(queues := s.queues[SleepQueue := NotDue(s, q)][RunQueue := QOf(s.queues, RunQueue) + Due(s, q)],
                                  threads := ClearSleep(s.threads, Due(s, q)))
  {
    var q := QOf(s.queues, SleepQueue);
    StoredAt(next, ends, s.queues, SleepQueue);
    DuePart(s, q);
    MayAppend(next, ends, s.queues, SleepQueue, Due(s, q));
    hide Linked, Stored, Appendable, WakeSleepers;
    WakeSleepersIs(s);
  }
}
