/** Queues as the kernel stores them: a head and a tail pointer each, and one `queueNext` field in
    every thread that links whatever queue the thread is in. */
module SchedLinks {
  import opened Basics
  import opened SchedModel

  datatype Ends = Ends(head: Tid, tail: Tid)

  function EndsOf(ends: map<QueueId, Ends>, id: QueueId): Ends {
    if id in ends then ends[id] else Ends(NULL, NULL)
  }

  /** The member at `i`, or null past the end. */
  function At0(q: seq<Tid>, i: nat): Tid { if i < |q| then q[i] else NULL }

  predicate Linking(next: map<Tid, Tid>, q: seq<Tid>, i: nat)
    requires i < |q|
  {
    q[i] in next && next[q[i]] == At0(q, i + 1)
  }

  predicate Chain(next: map<Tid, Tid>, q: seq<Tid>) {
    forall i {:trigger Linking(next, q, i)} :: 0 <= i < |q| ==> Linking(next, q, i)
  }

  function EndsFor(q: seq<Tid>): Ends {
    if q == [] then Ends(NULL, NULL) else Ends(q[0], q[|q| - 1])
  }

  /** Queue `id` is stored: chained from head to tail, ended by null, nobody twice. */
  predicate Stored(next: map<Tid, Tid>, ends: map<QueueId, Ends>, queues: map<QueueId, seq<Tid>>, id: QueueId) {
    && Chain(next, QOf(queues, id)) && NoDup(QOf(queues, id)) && NULL !in QOf(queues, id)
    && EndsOf(ends, id) == EndsFor(QOf(queues, id))
  }

  /** Nobody is in two queues. */
  ghost predicate Apart(queues: map<QueueId, seq<Tid>>) {
    forall i, j, t :: t in QOf(queues, i) && t in QOf(queues, j) ==> i == j
  }

  /** Every queue is stored, and the chains do not touch. */
  ghost predicate Linked(next: map<Tid, Tid>, ends: map<QueueId, Ends>, queues: map<QueueId, seq<Tid>>) {
    (forall id :: Stored(next, ends, queues, id)) && Apart(queues)
  }

  ghost predicate Free(queues: map<QueueId, seq<Tid>>, t: Tid) {
    forall id :: t !in QOf(queues, id)
  }

  lemma NullEnds(q: seq<Tid>, i: nat)
    requires NULL !in q && i <= |q|
    ensures At0(q, i) == NULL <==> i == |q|
    ensures EndsFor(q).head == NULL <==> q == []
    ensures EndsFor(q).tail == NULL <==> q == []
  {}

  // ---------------------------------------------------------------- writing one link

  lemma ChainKept(next: map<Tid, Tid>, q: seq<Tid>, t: Tid, v: Tid)
    requires Chain(next, q) && t !in q
    ensures Chain(next[t := v], q)
  {
    var n := next[t := v];
    forall i | 0 <= i < |q| ensures Linking(n, q, i) {
      assert Linking(next, q, i);
    }
  }

  /** A link field of a thread in no queue may be written. */
  lemma FreeKept(next: map<Tid, Tid>, ends: map<QueueId, Ends>, queues: map<QueueId, seq<Tid>>, t: Tid, v: Tid)
    requires Linked(next, ends, queues) && Free(queues, t)
    ensures Linked(next[t := v], ends, queues)
  {
    var n := next[t := v];
    forall id ensures Stored(n, ends, queues, id) {
      assert Stored(next, ends, queues, id);
      ChainKept(next, QOf(queues, id), t, v);
    }
  }

  // ---------------------------------------------------------------- adding at the tail

  /** The links after `t` is hung behind the tail of `q`. */
  function HungNext(next: map<Tid, Tid>, q: seq<Tid>, t: Tid): map<Tid, Tid> {
    if q == [] then next else next[q[|q| - 1] := t]
  }

  lemma ChainHung(next: map<Tid, Tid>, q: seq<Tid>, t: Tid)
    requires Chain(next, q) && NoDup(q) && t !in q && t != NULL && t in next && next[t] == NULL
    ensures Chain(HungNext(next, q, t), q + [t])
  {
    var n := HungNext(next, q, t);
    forall i | 0 <= i < |q + [t]| ensures Linking(n, q + [t], i) {
      if i < |q| {
        assert Linking(next, q, i);
        if i < |q| - 1 { assert q[i] != q[|q| - 1]; }
      }
    }
  }

  lemma Appended(q: seq<Tid>, t: Tid)
    requires NoDup(q) && t !in q
    ensures NoDup(q + [t]) && EndsFor(q + [t]) == Ends(if q == [] then t else q[0], t)
  {}

  lemma HungLinked(next: map<Tid, Tid>, ends: map<QueueId, Ends>, queues: map<QueueId, seq<Tid>>, id: QueueId, t: Tid)
    requires Linked(next, ends, queues) && Free(queues, t) && t != NULL && t in next && next[t] == NULL
    ensures var q := QOf(queues, id);
            Linked(HungNext(next, q, t), ends[id := Ends(if q == [] then t else q[0], t)], queues[id := q + [t]])
  {
    var q := QOf(queues, id);
    var n := HungNext(next, q, t);
    var e := ends[id := Ends(if q == [] then t else q[0], t)];
    var r := queues[id := q + [t]];
    assert Stored(next, ends, queues, id);
    forall j ensures Stored(n, e, r, j) {
      assert Stored(next, ends, queues, j);
      if j == id {
        ChainHung(next, q, t);
        Appended(q, t);
      } else {
        assert QOf(r, j) == QOf(queues, j) && EndsOf(e, j) == EndsOf(ends, j);
        if q != [] {
          assert q[|q| - 1] in q;
          ChainKept(next, QOf(queues, j), q[|q| - 1], t);
        }
      }
    }
    forall i, j, u | u in QOf(r, i) && u in QOf(r, j) ensures i == j {
      HungMember(queues, id, t, i, u);
      HungMember(queues, id, t, j, u);
    }
  }

  /** Only the hung thread is new, and only in its queue. */
  lemma HungMember(queues: map<QueueId, seq<Tid>>, id: QueueId, t: Tid, i: QueueId, u: Tid)
    requires u in QOf(queues[id := QOf(queues, id) + [t]], i)
    ensures (u == t && i == id) || u in QOf(queues, i)
  {}

  // ---------------------------------------------------------------- taking one out

  function Without(q: seq<Tid>, k: nat): seq<Tid>
    requires k < |q|
  {
    q[..k] + q[k + 1..]
  }

  lemma WithoutHas(q: seq<Tid>, k: nat)
    requires NoDup(q) && k < |q|
    ensures NoDup(Without(q, k)) && q[k] !in Without(q, k)
    ensures forall t :: t in Without(q, k) <==> t in q && t != q[k]
  {
    forall t | t in q && t != q[k] ensures t in Without(q, k) {
      var i :| 0 <= i < |q| && q[i] == t;
      assert Without(q, k)[if i < k then i else i - 1] == t;
    }
  }

  /** The links once the predecessor of `q[k]` skips it. */
  function SkippedNext(next: map<Tid, Tid>, q: seq<Tid>, k: nat): map<Tid, Tid>
    requires k < |q|
  {
    if k == 0 then next else next[q[k - 1] := At0(q, k + 1)]
  }

  lemma ChainSkips(next: map<Tid, Tid>, q: seq<Tid>, k: nat)
    requires Chain(next, q) && NoDup(q) && k < |q|
    ensures Chain(SkippedNext(next, q, k), Without(q, k))
  {
    var n := SkippedNext(next, q, k);
    var w := Without(q, k);
    forall i | 0 <= i < |w| ensures Linking(n, w, i) {
      var j := if i < k then i else i + 1;
      assert w[i] == q[j] && Linking(next, q, j);
      if k > 0 && j != k - 1 { assert q[j] != q[k - 1]; }
      assert At0(w, i + 1) == if i + 1 < k then q[i + 1] else At0(q, i + 2);
    }
  }

  /** Head and tail after the removal of `q[k]`. */
  function SkippedEnds(q: seq<Tid>, k: nat): Ends
    requires k < |q|
  {
    Ends(if k == 0 then At0(q, 1) else q[0],
         if |q| == 1 then NULL else if k == |q| - 1 then q[|q| - 2] else q[|q| - 1])
  }

  lemma SkippedLinked(next: map<Tid, Tid>, ends: map<QueueId, Ends>, queues: map<QueueId, seq<Tid>>, id: QueueId, k: nat)
    requires Linked(next, ends, queues) && k < |QOf(queues, id)|
    ensures var q := QOf(queues, id);
            && Linked(SkippedNext(next, q, k), ends[id := SkippedEnds(q, k)], queues[id := Without(q, k)])
            && Free(queues[id := Without(q, k)], q[k])
  {
    var q := QOf(queues, id);
    var n := SkippedNext(next, q, k);
    var e := ends[id := SkippedEnds(q, k)];
    var r := queues[id := Without(q, k)];
    assert Stored(next, ends, queues, id);
    WithoutHas(q, k);
    assert q[k] in q;
    forall j ensures Stored(n, e, r, j) {
      assert Stored(next, ends, queues, j);
      if j == id {
        ChainSkips(next, q, k);
        assert SkippedEnds(q, k) == EndsFor(Without(q, k));
      } else {
        assert QOf(r, j) == QOf(queues, j) && EndsOf(e, j) == EndsOf(ends, j);
        if k > 0 {
          assert q[k - 1] in q;
          ChainKept(next, QOf(queues, j), q[k - 1], At0(q, k + 1));
        }
      }
    }
    forall i, j, u | u in QOf(r, i) && u in QOf(r, j) ensures i == j {
      assert u in QOf(queues, i) && u in QOf(queues, j);
    }
    forall j ensures q[k] !in QOf(r, j) {
      if j != id { assert QOf(r, j) == QOf(queues, j); }
    }
  }

  // ---------------------------------------------------------------- a chain given up from its head

  /** The chain of `id` gives up its head; only its ends, about to be cleared, are out of date. */
  ghost predicate LinkedBut(next: map<Tid, Tid>, ends: map<QueueId, Ends>, queues: map<QueueId, seq<Tid>>, id: QueueId) {
    Linked(next, ends[id := EndsFor(QOf(queues, id))], queues)
  }

  lemma HeadGiven(next: map<Tid, Tid>, ends: map<QueueId, Ends>, queues: map<QueueId, seq<Tid>>, id: QueueId)
    requires LinkedBut(next, ends, queues, id) && QOf(queues, id) != []
    ensures var q := QOf(queues, id);
            && q[0] in next && next[q[0]] == At0(q, 1) && q[0] != NULL
            && LinkedBut(next, ends, queues[id := q[1..]], id) && Free(queues[id := q[1..]], q[0])
  {
    var q := QOf(queues, id);
    assert Stored(next, ends[id := EndsFor(q)], queues, id);
    assert Linking(next, q, 0);
    assert q[0] in q;
    SkippedLinked(next, ends[id := EndsFor(q)], queues, id, 0);
    assert Without(q, 0) == q[1..];
    assert ends[id := EndsFor(q)][id := SkippedEnds(q, 0)] == ends[id := EndsFor(q[1..])];
    assert QOf(queues[id := q[1..]], id) == q[1..];
  }

  /** Ends of a queue that is stored may be written again. */
  lemma EndsAnew(next: map<Tid, Tid>, ends: map<QueueId, Ends>, queues: map<QueueId, seq<Tid>>, id: QueueId)
    requires Linked(next, ends, queues)
    ensures Linked(next, ends[id := EndsFor(QOf(queues, id))], queues)
  {
    var e := ends[id := EndsFor(QOf(queues, id))];
    forall j ensures Stored(next, e, queues, j) {
      assert Stored(next, ends, queues, j);
    }
  }

  /** Only the members of the queues matter. */
  lemma SameLinks(next: map<Tid, Tid>, ends: map<QueueId, Ends>, queues: map<QueueId, seq<Tid>>, same: map<QueueId, seq<Tid>>)
    requires Linked(next, ends, queues) && forall j :: QOf(same, j) == QOf(queues, j)
    ensures Linked(next, ends, same)
  {
    forall j ensures Stored(next, ends, same, j) {
      assert Stored(next, ends, queues, j);
    }
    forall i, j, u | u in QOf(same, i) && u in QOf(same, j) ensures i == j {
      assert u in QOf(queues, i) && u in QOf(queues, j);
    }
  }

  // ---------------------------------------------------------------- the reaper's private chain

  /** A whole chain changes hands by its ends alone. */
  lemma ChainTaken(next: map<Tid, Tid>, ends: map<QueueId, Ends>, queues: map<QueueId, seq<Tid>>, from: QueueId, to: QueueId)
    requires Linked(next, ends, queues) && QOf(queues, to) == [] && from != to
    ensures Linked(next, ends[to := EndsOf(ends, from)][from := Ends(NULL, NULL)], queues[to := QOf(queues, from)][from := []])
  {
    var e := ends[to := EndsOf(ends, from)][from := Ends(NULL, NULL)];
    var r := queues[to := QOf(queues, from)][from := []];
    assert Stored(next, ends, queues, from);
    forall j ensures Stored(next, e, r, j) {
      assert Stored(next, ends, queues, j);
    }
    forall i, j, u | u in QOf(r, i) && u in QOf(r, j) ensures i == j {
      assert u in QOf(queues, if i == to then from else i) && u in QOf(queues, if j == to then from else j);
    }
  }

  /** A chain advances by its head. */
  lemma HeadDropped(next: map<Tid, Tid>, ends: map<QueueId, Ends>, queues: map<QueueId, seq<Tid>>, id: QueueId)
    requires Linked(next, ends, queues) && QOf(queues, id) != []
    ensures var q := QOf(queues, id);
            && q[0] in next && next[q[0]] == At0(q, 1) && EndsOf(ends, id).head == q[0] && q[0] != NULL
            && Linked(next, ends[id := if next[q[0]] == NULL then Ends(NULL, NULL) else Ends(next[q[0]], EndsOf(ends, id).tail)],
                      queues[id := q[1..]])
  {
    var q := QOf(queues, id);
    assert Stored(next, ends, queues, id);
    assert Linking(next, q, 0);
    assert q[0] in q && (|q| > 1 ==> q[1] in q);
    SkippedLinked(next, ends, queues, id, 0);
    assert Without(q, 0) == q[1..];
  }
}
