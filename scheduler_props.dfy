/** Properties of the pull and push schedulers, proved about the reference
    definitions of module SchedulerModel (and so, through the methods'
    postconditions, about the imperative model of module GraphScheduler). */
module SchedulerProps {
  import opened SchedulerModel

  // ------------------------------------------------------------ vocabulary

  ghost predicate Distinct(q: seq<nat>) {
    forall i, j :: 0 <= i < j < |q| ==> q[i] != q[j]
  }

  /** The `ready_link` flags `l` are those of `base` plus exactly the nodes
      of the ready list q, each of them once and none of them linked in
      `base`. */
  ghost predicate LinkedExactly(l: seq<bool>, base: seq<bool>, q: seq<nat>) {
    && |l| == |base| && Distinct(q)
    && (forall i :: 0 <= i < |q| ==> q[i] < |base| && !base[q[i]])
    && (forall m :: 0 <= m < |l| ==> l[m] == (base[m] || m in q))
  }

  /** Trace b continues trace a. */
  ghost predicate Extends(a: seq<Call>, b: seq<Call>) {
    |a| <= |b| && b[..|a|] == a
  }

  /** Every call of tr from index `from` on is on a node of rank below k. */
  ghost predicate CallsBelow(t: Topology, tr: seq<Call>, from: nat, k: nat) {
    forall i :: from <= i < |tr| ==> tr[i].node < |t.rank| && t.rank[tr[i].node] < k
  }

  /** Every call of tr from index `from` up to `to` (excluded) is on a node of
      rank above k. */
  ghost predicate CallsAbove(t: Topology, tr: seq<Call>, from: nat, to: nat, k: nat) {
    forall i :: from <= i < to && i < |tr| ==> tr[i].node < |t.rank| && t.rank[tr[i].node] > k
  }

  /** No call of kind k in tr, from index `from` on, is on a node whose
      flag in l is set. */
  ghost predicate NoCallOn(tr: seq<Call>, from: nat, k: Kind, l: seq<bool>) {
    forall i :: from <= i < |tr| && tr[i].kind == k && tr[i].node < |l| ==> !l[tr[i].node]
  }

  /** The nodes of q get their calls of kind k in tr in list order, one
      entry after the other: ks are increasing indices from `from` on, the
      call on q[j] sits at ks[j], and no call of kind k on q[j] comes
      before it from `from` on. */
  ghost predicate CalledInOrder(tr: seq<Call>, from: nat, k: Kind, q: seq<nat>, ks: seq<nat>) {
    && |ks| == |q|
    && (forall j :: 0 <= j < |q| ==>
          from <= ks[j] < |tr| && tr[ks[j]] == Call(k, q[j]) && Call(k, q[j]) !in tr[from..ks[j]])
    && (forall i, j :: 0 <= i < j < |ks| ==> ks[i] < ks[j])
  }

  ghost predicate InputsOf(t: Topology, ps: seq<nat>, v: nat) {
    forall i :: 0 <= i < |ps| ==> t.InputPort(ps[i], v)
  }

  ghost predicate OutputsOf(t: Topology, ps: seq<nat>, v: nat) {
    forall i :: 0 <= i < |ps| ==> t.OutputPort(ps[i], v)
  }

  // ------------------------------------------------------------ small facts

  lemma ExtendsTrans(a: seq<Call>, b: seq<Call>, c: seq<Call>)
    requires Extends(a, b) && Extends(b, c)
    ensures Extends(a, c)
  {
    assert c[..|a|] == c[..|b|][..|a|];
  }

  lemma BelowTrans(t: Topology, b: seq<Call>, c: seq<Call>, from: nat, k: nat)
    requires Extends(b, c) && from <= |b|
    requires CallsBelow(t, b, from, k) && CallsBelow(t, c, |b|, k)
    ensures CallsBelow(t, c, from, k)
  {
    forall i | from <= i < |c| ensures c[i].node < |t.rank| && t.rank[c[i].node] < k {
      if i < |b| { assert c[i] == c[..|b|][i]; }
    }
  }

  lemma AboveTrans(t: Topology, b: seq<Call>, c: seq<Call>, from: nat, k: nat)
    requires Extends(b, c) && from <= |b|
    requires CallsAbove(t, b, from, |b|, k) && CallsAbove(t, c, |b|, |c|, k)
    ensures CallsAbove(t, c, from, |c|, k)
  {
    forall i | from <= i < |c| ensures c[i].node < |t.rank| && t.rank[c[i].node] > k {
      if i < |b| { assert c[i] == c[..|b|][i]; }
    }
  }

  /** A call made after index `from` of b sits at some index from `from` on
      in every continuation of b. */
  lemma FoundAt(b: seq<Call>, c: seq<Call>, from: nat, x: Call)
    requires Extends(b, c) && from <= |b| && x in b[from..]
    ensures exists k :: from <= k < |c| && c[k] == x
  {
    var i :| from <= i < |b| && b[i] == x;
    assert c[i] == c[..|b|][i];
  }

  /** When the head of q was called at index `from` of e and the rest of q
      after e ends, every node of q was called from `from` on. */
  lemma QueueCalled(e: seq<Call>, r: seq<Call>, from: nat, k: Kind, q: seq<nat>)
    requires Extends(e, r) && from < |e| && q != [] && e[from] == Call(k, q[0])
    requires forall j :: 0 <= j < |q[1..]| ==> Call(k, q[1..][j]) in r[|e|..]
    ensures forall j :: 0 <= j < |q| ==> Call(k, q[j]) in r[from..]
  {
    assert e[from..][0] == Call(k, q[0]);
    CallKept(e, r, from, Call(k, q[0]));
    forall j | 0 <= j < |q| ensures Call(k, q[j]) in r[from..] {
      if j > 0 {
        assert q[j] == q[1..][j - 1];
        var x := Call(k, q[j]);
        var i :| 0 <= i < |r[|e|..]| && r[|e|..][i] == x;
        assert r[from..][|e| + i - from] == x;
      }
    }
  }

  /** Calls below the rank of n, possibly followed by one last process_input
      of n, are all below any rank k above n's. */
  lemma BelowLast(t: Topology, tr: seq<Call>, from: nat, n: nat, k: nat)
    requires n < t.NodeCount() && t.Valid() && t.rank[n] < k
    requires forall i :: from <= i < |tr| ==>
      tr[i].node < t.NodeCount() &&
      (t.rank[tr[i].node] < t.rank[n] || (i == |tr| - 1 && tr[i] == Call(ProcessInput, n)))
    ensures CallsBelow(t, tr, from, k)
  {
  }

  /** Calls above the rank of n, followed by one call on n, are all above
      any rank k below n's. */
  lemma AboveLast(t: Topology, tr: seq<Call>, from: nat, n: nat, k: nat)
    requires from < |tr| && n < |t.rank| && t.rank[n] > k && tr[|tr| - 1].node == n
    requires CallsAbove(t, tr, from, |tr| - 1, t.rank[n])
    ensures CallsAbove(t, tr, from, |tr|, k)
  {
  }

  /** A call made after index `from` of b is still there in every
      continuation of b. */
  lemma CallKept(b: seq<Call>, c: seq<Call>, from: nat, x: Call)
    requires Extends(b, c) && from <= |b| && x in b[from..]
    ensures x in c[from..]
  {
    var i :| from <= i < |b| && b[i] == x;
    assert c[i] == c[..|b|][i];
    assert c[from..][i - from] == x;
  }

  /** Adding one call of another kind keeps NoCallOn. */
  lemma NoCallExtend(a: seq<Call>, b: seq<Call>, c: Call, from: nat, k: Kind, l: seq<bool>)
    requires NoCallOn(a, from, k, l) && c.kind != k && (b == a || b == a + [c])
    ensures NoCallOn(b, from, k, l)
  {
  }

  /** An entry's trace et starts, at index |dt|, with its own call on a node
      n that is not flagged in base; its later calls of kind k avoid the
      nodes flagged in l, which include those flagged in base; and the rest
      of the drain, rt, avoids base. Then the whole drain avoids base. */
  lemma NoCallJoin(dt: seq<Call>, et: seq<Call>, rt: seq<Call>, k: Kind, n: nat, l: seq<bool>, base: seq<bool>)
    requires Extends(dt, et) && Extends(et, rt) && |dt| < |et| && et[|dt|] == Call(k, n)
    requires n < |base| && !base[n] && |l| == |base| && (forall m :: 0 <= m < |base| && base[m] ==> l[m])
    requires NoCallOn(et, |dt| + 1, k, l) && NoCallOn(rt, |et|, k, base)
    ensures NoCallOn(rt, |dt|, k, base)
  {
    forall i | |dt| <= i < |et| ensures rt[i] == et[i] {
      assert rt[i] == rt[..|et|][i];
    }
  }

  /** The head q[0] of a ready list is called at index |dt| of its entry's
      trace et; the entry's later calls avoid every node linked in l, where
      the rest of q is linked; the rest of q is called in order after et.
      Then all of q is called in order from |dt| on. */
  lemma OrderCons(dt: seq<Call>, et: seq<Call>, rt: seq<Call>, k: Kind, q: seq<nat>, ks: seq<nat>,
                  l: seq<bool>, base: seq<bool>)
    requires Extends(dt, et) && Extends(et, rt) && |dt| < |et| && q != [] && et[|dt|] == Call(k, q[0])
    requires LinkedExactly(l, base, q) && NoCallOn(et, |dt| + 1, k, l)
    requires CalledInOrder(rt, |et|, k, q[1..], ks)
    ensures CalledInOrder(rt, |dt|, k, q, [|dt|] + ks)
  {
    var ks2 := [|dt|] + ks;
    assert rt[|dt|] == rt[..|et|][|dt|];
    forall j | 0 <= j < |q|
      ensures |dt| <= ks2[j] < |rt| && rt[ks2[j]] == Call(k, q[j]) && Call(k, q[j]) !in rt[|dt|..ks2[j]]
    {
      if j > 0 {
        assert q[j] == q[1..][j - 1] && ks2[j] == ks[j - 1];
        assert q[j] in q && q[j] != q[0];
        assert l[q[j]];
        forall y | |dt| <= y < ks2[j] ensures rt[y] != Call(k, q[j]) {
          if y >= |et| {
            assert rt[|et|..ks[j - 1]][y - |et|] == rt[y];
          } else {
            assert rt[y] == rt[..|et|][y];
          }
        }
        assert forall x :: x in rt[|dt|..ks2[j]] ==> x != Call(k, q[j]);
      }
    }
  }

  /** Calls made in order in a trace are still made in order once one more
      call is added. */
  lemma OrderKept(et: seq<Call>, rt: seq<Call>, c: Call, from: nat, k: Kind, q: seq<nat>)
    requires exists ks :: CalledInOrder(et, from, k, q, ks)
    requires rt == et || rt == et + [c]
    ensures exists ks :: CalledInOrder(rt, from, k, q, ks)
  {
    var ks :| CalledInOrder(et, from, k, q, ks);
    forall j | 0 <= j < |q| ensures rt[ks[j]] == Call(k, q[j]) && Call(k, q[j]) !in rt[from..ks[j]] {
      assert rt[from..ks[j]] == et[from..ks[j]];
    }
    assert CalledInOrder(rt, from, k, q, ks);
  }

  lemma NodeLists(t: Topology, v: nat)
    requires t.Valid() && v < t.NodeCount()
    ensures InputsOf(t, t.inputs[v], v) && OutputsOf(t, t.outputs[v], v)
    ensures Ports(t, t.inputs[v]) && Ports(t, t.outputs[v])
  {
    assert t.InputsOk(v) && t.OutputsOk(v);
    NodePorts(t, v);
  }

  /** No input port of v is linked to v itself. */
  lemma {:induction false} InputsNotFromSelf(t: Topology, io: seq<Status>, ps: seq<nat>, v: nat, st: Status, viaPeer: bool)
    requires t.Valid() && |io| == t.ioCount && v < t.NodeCount() && InputsOf(t, ps, v) && Ports(t, ps)
    ensures CountLinksTo(t, io, ps, v, st, viaPeer) == 0
    decreases |ps|
  {
    if ps != [] {
      assert t.InputPort(ps[0], v);
      InputsNotFromSelf(t, io, ps[1..], v, st, viaPeer);
    }
  }

  /** No output port of v is linked to v itself. */
  lemma {:induction false} OutputsNotToSelf(t: Topology, io: seq<Status>, ps: seq<nat>, v: nat, st: Status, viaPeer: bool)
    requires t.Valid() && |io| == t.ioCount && v < t.NodeCount() && OutputsOf(t, ps, v) && Ports(t, ps)
    ensures CountLinksTo(t, io, ps, v, st, viaPeer) == 0
    decreases |ps|
  {
    if ps != [] {
      assert t.OutputPort(ps[0], v);
      OutputsNotToSelf(t, io, ps[1..], v, st, viaPeer);
    }
  }

  // ------------------------------------------------------------ callbacks

  /** Feeding adds, to every node m, one ready input per port of ps whose
      own io is st and whose peer port belongs to m. */
  lemma {:induction false} FeedCounts(t: Topology, d: Dyn, ps: seq<nat>, st: Status, skip: bool)
    requires t.Valid() && Fits(t, d) && Ports(t, ps)
    ensures forall m :: 0 <= m < t.NodeCount() ==>
      Feed(t, d, ps, st, skip).readyIn[m] == d.readyIn[m] + (if skip then 0 else CountLinksTo(t, d.io, ps, m, st, false))
    decreases |ps|
  {
    if ps != [] {
      var p := ps[0];
      var d1 := if d.io[t.portIo[p]] == st && !skip && t.peer[p].Some? then
                  var m := t.portNode[t.peer[p].value];
                  d.(readyIn := d.readyIn[m := d.readyIn[m] + 1])
                else d;
      FeedCounts(t, d1, ps[1..], st, skip);
    }
  }

  /** Appending to a ready list keeps the links exact, unless it records a
      corruption. */
  lemma EnqueueLinks(d: Dyn, q: seq<nat>, n: nat, base: seq<bool>)
    requires n < |d.linked| && (d.corrupt || LinkedExactly(d.linked, base, q))
    ensures var r := Enqueue(d, q, n); r.after.corrupt || LinkedExactly(r.after.linked, base, r.ready)
  {
    var r := Enqueue(d, q, n);
    if !r.after.corrupt {
      assert !d.linked[n] && n !in q;
      forall m | 0 <= m < |r.after.linked| ensures r.after.linked[m] == (base[m] || m in r.ready) {
        assert (m in q + [n]) == (m in q || m == n);
      }
    }
  }

  // ------------------------------------------------------------ pull

  /** One input port p of v: the io cells, states and trace are untouched;
      v gains the ready input SyncReadyAt counts for p; the ready list grows
      by NeedPeerAt's node for p unless a corruption is recorded; the links
      stay exact. */
  lemma InputStepEffect(t: Topology, d: Dyn, v: nat, p: nat, q: seq<nat>, base: seq<bool>)
    requires t.Valid() && Fits(t, d) && v < t.NodeCount()
    requires t.InputPort(p, v) && Upstream(t, q, v)
    ensures var s := InputStep(t, d, v, p, q);
      && s.after.io == d.io && s.after.state == d.state && s.after.trace == d.trace
      && s.after.readyIn == d.readyIn[v := d.readyIn[v] + SyncReadyAt(t, d.io, p)]
      && |s.ready| <= |q| + |NeedPeerAt(t, d.io, p)|
      && (!s.after.corrupt ==> s.ready == q + NeedPeerAt(t, d.io, p))
      && (d.corrupt || LinkedExactly(d.linked, base, q) ==> s.after.corrupt || LinkedExactly(s.after.linked, base, s.ready))
  {
    match t.peer[p]
    case None =>
    case Some(pp) =>
      if d.io[t.portIo[pp]] == NeedBuffer && (d.corrupt || LinkedExactly(d.linked, base, q)) {
        EnqueueLinks(d, q, t.portNode[pp], base);
      }
  }

  /** The scan of pull's input ports touches neither io cells, states nor
      trace; v's `ready_in` gains one per linked input whose peer output is
      OK on a synchronous peer node. */
  lemma {:induction false} ScanInputsCounts(t: Topology, d: Dyn, v: nat, ps: seq<nat>, q: seq<nat>)
    requires t.Valid() && Fits(t, d) && v < t.NodeCount()
    requires InputsOf(t, ps, v) && Ports(t, ps) && Upstream(t, q, v)
    ensures var r := ScanInputs(t, d, v, ps, q);
      && r.after.io == d.io && r.after.state == d.state && r.after.trace == d.trace
      && r.after.readyIn == d.readyIn[v := d.readyIn[v] + CountSyncReady(t, d.io, ps)]
    decreases |ps|
  {
    if ps != [] {
      InputStepEffect(t, d, v, ps[0], q, d.linked);
      var s := InputStep(t, d, v, ps[0], q);
      ScanInputsCounts(t, s.after, v, ps[1..], s.ready);
    }
  }

  /** The scan of pull's input ports queues exactly the nodes of the
      NEED_BUFFER peer outputs, in port order, unless a corruption was
      recorded. */
  lemma {:induction false} ScanInputsQueue(t: Topology, d: Dyn, v: nat, ps: seq<nat>, q: seq<nat>)
    requires t.Valid() && Fits(t, d) && v < t.NodeCount()
    requires InputsOf(t, ps, v) && Ports(t, ps) && Upstream(t, q, v)
    ensures var r := ScanInputs(t, d, v, ps, q);
      && |r.ready| <= |q| + |NeedPeers(t, d.io, ps)|
      && (!r.after.corrupt ==> r.ready == q + NeedPeers(t, d.io, ps))
    decreases |ps|
  {
    if ps != [] {
      InputStepEffect(t, d, v, ps[0], q, d.linked);
      var s := InputStep(t, d, v, ps[0], q);
      ScanInputsQueue(t, s.after, v, ps[1..], s.ready);
      var here := NeedPeerAt(t, d.io, ps[0]);
      var rest := NeedPeers(t, d.io, ps[1..]);
      assert NeedPeers(t, d.io, ps) == here + rest;
      AppendAssoc(q, here, rest);
    }
  }

  lemma {:induction false} ScanInputsLinks(t: Topology, d: Dyn, v: nat, ps: seq<nat>, q: seq<nat>, base: seq<bool>)
    requires t.Valid() && Fits(t, d) && v < t.NodeCount()
    requires InputsOf(t, ps, v) && Upstream(t, q, v)
    requires d.corrupt || LinkedExactly(d.linked, base, q)
    ensures var r := ScanInputs(t, d, v, ps, q); r.after.corrupt || LinkedExactly(r.after.linked, base, r.ready)
    decreases |ps|
  {
    if ps != [] {
      InputStepEffect(t, d, v, ps[0], q, base);
      var s := InputStep(t, d, v, ps[0], q);
      ScanInputsLinks(t, s.after, v, ps[1..], s.ready, base);
    }
  }

  /** Taking the head n of a ready list out keeps the links exact for the
      rest of the list. */
  lemma UnlinkHead(l: seq<bool>, base: seq<bool>, q: seq<nat>)
    requires q != [] && LinkedExactly(l, base, q)
    ensures LinkedExactly(l[q[0] := false], base, q[1..])
  {
    var n := q[0];
    assert n !in q[1..] by {
      forall i | 0 <= i < |q[1..]| ensures q[1..][i] != n { assert q[1..][i] == q[i + 1]; }
    }
    forall m | 0 <= m < |l| ensures l[n := false][m] == (base[m] || m in q[1..]) {
      assert q == [n] + q[1..];
      assert (m in q) == (m == n || m in q[1..]);
    }
    assert Distinct(q[1..]) by {
      forall i, j | 0 <= i < j < |q[1..]| ensures q[1..][i] != q[1..][j] {
        assert q[1..][i] == q[i + 1] && q[1..][j] == q[j + 1];
      }
    }
  }

  /** Every node that pull puts on a ready list is taken off it again, with
      its link cleared, before pull returns: the `ready_link` flags are
      those pull started with (for a run that never inserted a node twice). */
  lemma {:induction false} PullUnlinksAll(t: Topology, d: Dyn, v: nat)
    requires t.Valid() && Fits(t, d) && v < t.NodeCount()
    ensures var r := Pull(t, d, v); !r.corrupt ==> r.linked == d.linked
    decreases t.rank[v], 2, 0
  {
    var d1 := d.(readyIn := d.readyIn[v := 0]);
    NodeLists(t, v);
    ScanInputsLinks(t, d1, v, t.inputs[v], [], d.linked);
    var s := ScanInputs(t, d1, v, t.inputs[v], []);
    DrainPullUnlinks(t, s.after, v, s.ready, d.linked);
  }

  lemma {:induction false} DrainPullUnlinks(t: Topology, d: Dyn, v: nat, q: seq<nat>, base: seq<bool>)
    requires t.Valid() && Fits(t, d) && v < t.NodeCount() && Upstream(t, q, v)
    requires d.corrupt || LinkedExactly(d.linked, base, q)
    ensures var r := DrainPull(t, d, v, q); r.corrupt || r.linked == base
    decreases t.rank[v], 1, |q|
  {
    if q == [] {
      if !d.corrupt {
        assert forall m :: 0 <= m < |d.linked| ==> d.linked[m] == base[m];
      }
    } else {
      var n := q[0];
      PullEntryUnlinks(t, d, v, n);
      var e := PullEntry(t, d, v, n);
      if !e.corrupt {
        UnlinkHead(d.linked, base, q);
      }
      DrainPullUnlinks(t, e, v, q[1..], base);
    }
  }

  lemma {:induction false} PullEntryUnlinks(t: Topology, d: Dyn, v: nat, n: nat)
    requires t.Valid() && Fits(t, d) && v < t.NodeCount()
    requires n < t.NodeCount() && t.rank[n] < t.rank[v]
    ensures var r := PullEntry(t, d, v, n); r.corrupt || r.linked == d.linked[n := false]
    decreases t.rank[v], 0, 0
  {
    var d1 := Activate(t, d, n, ProcessOutput);
    if d1.state[n] == NeedBuffer {
      PullUnlinksAll(t, d1, n);
    }
  }

  /** The callbacks pull makes: the trace only grows, and every new call is
      on a node strictly upstream of v, except that v's own process_input
      may be the very last call. */
  lemma {:induction false} PullCalls(t: Topology, d: Dyn, v: nat)
    requires t.Valid() && Fits(t, d) && v < t.NodeCount()
    ensures var r := Pull(t, d, v);
      && Extends(d.trace, r.trace)
      && forall i :: |d.trace| <= i < |r.trace| ==>
           r.trace[i].node < t.NodeCount() &&
           (t.rank[r.trace[i].node] < t.rank[v] || (i == |r.trace| - 1 && r.trace[i] == Call(ProcessInput, v)))
    decreases t.rank[v], 2, 0
  {
    var d1 := d.(readyIn := d.readyIn[v := 0]);
    NodeLists(t, v);
    ScanInputsCounts(t, d1, v, t.inputs[v], []);
    ScanInputsQueue(t, d1, v, t.inputs[v], []);
    var s := ScanInputs(t, d1, v, t.inputs[v], []);
    DrainPullCalls(t, s.after, v, s.ready);
    var e := DrainPull(t, s.after, v, s.ready);
    PullFinishGate(t, e, v);
    var r := PullFinish(t, e, v);
    assert r.trace[..|e.trace|] == e.trace;
    ExtendsTrans(d.trace, e.trace, r.trace);
    forall i | |d.trace| <= i < |e.trace| ensures r.trace[i] == e.trace[i] {
      assert r.trace[i] == r.trace[..|e.trace|][i];
    }
  }

  lemma {:induction false} DrainPullCalls(t: Topology, d: Dyn, v: nat, q: seq<nat>)
    requires t.Valid() && Fits(t, d) && v < t.NodeCount() && Upstream(t, q, v)
    ensures var r := DrainPull(t, d, v, q);
      && Extends(d.trace, r.trace)
      && CallsBelow(t, r.trace, |d.trace|, t.rank[v])
      && forall j :: 0 <= j < |q| ==> Call(ProcessOutput, q[j]) in r.trace[|d.trace|..]
    decreases t.rank[v], 1, |q|
  {
    if q != [] {
      var n := q[0];
      PullEntryCalls(t, d, v, n);
      var e := PullEntry(t, d, v, n);
      DrainPullCalls(t, e, v, q[1..]);
      var r := DrainPull(t, e, v, q[1..]);
      ExtendsTrans(d.trace, e.trace, r.trace);
      BelowTrans(t, e.trace, r.trace, |d.trace|, t.rank[v]);
      QueueCalled(e.trace, r.trace, |d.trace|, ProcessOutput, q);
    }
  }

  lemma {:induction false} PullEntryCalls(t: Topology, d: Dyn, v: nat, n: nat)
    requires t.Valid() && Fits(t, d) && v < t.NodeCount()
    requires n < t.NodeCount() && t.rank[n] < t.rank[v]
    ensures var r := PullEntry(t, d, v, n);
      && Extends(d.trace, r.trace) && |d.trace| < |r.trace|
      && r.trace[|d.trace|] == Call(ProcessOutput, n)
      && CallsBelow(t, r.trace, |d.trace|, t.rank[v])
    decreases t.rank[v], 0, 1
  {
    var d1 := Activate(t, d, n, ProcessOutput);
    assert d1.trace == d.trace + [Call(ProcessOutput, n)];
    PullReplyCalls(t, d1, v, n);
    var r := PullEntry(t, d, v, n);
    assert r.trace == PullReply(t, d1, v, n).trace;
    ExtendsTrans(d.trace, d1.trace, r.trace);
    BelowTrans(t, d1.trace, r.trace, |d.trace|, t.rank[v]);
    assert r.trace[|d.trace|] == r.trace[..|d1.trace|][|d.trace|];
  }

  /** Answering n's process_output only adds calls on nodes upstream of v. */
  lemma {:induction false} PullReplyCalls(t: Topology, d: Dyn, v: nat, n: nat)
    requires t.Valid() && Fits(t, d) && v < t.NodeCount()
    requires n < t.NodeCount() && t.rank[n] < t.rank[v]
    ensures var r := PullReply(t, d, v, n);
      Extends(d.trace, r.trace) && CallsBelow(t, r.trace, |d.trace|, t.rank[v])
    decreases t.rank[v], 0, 0
  {
    if d.state[n] == NeedBuffer {
      PullCalls(t, d, n);
      var p := Pull(t, d, n);
      BelowLast(t, p.trace, |d.trace|, n, t.rank[v]);
      assert PullReply(t, d, v, n) == p;
    } else {
      assert PullReply(t, d, v, n).trace == d.trace;
    }
  }

  /** The end of pull: v's process_input is called, as the one last call,
      exactly when v requires inputs and its `ready_in` equals
      `required_in`; v's own `ready_in` is not changed; on HAVE_BUFFER each
      output port of v whose io is HAVE_BUFFER and that has a peer adds one to
      the peer node's `ready_in`. */
  lemma PullFinishGate(t: Topology, e: Dyn, v: nat)
    requires t.Valid() && Fits(t, e) && v < t.NodeCount()
    ensures var r := PullFinish(t, e, v);
      && (r.trace == e.trace + [Call(ProcessInput, v)] <==> t.requiredIn[v] > 0 && e.readyIn[v] == t.requiredIn[v])
      && (!(t.requiredIn[v] > 0 && e.readyIn[v] == t.requiredIn[v]) ==> r == e)
      && r.readyIn[v] == e.readyIn[v]
      && (r.trace != e.trace && r.state[v] == HaveBuffer ==>
            forall m :: 0 <= m < t.NodeCount() ==>
              r.readyIn[m] == e.readyIn[m] + CountLinksTo(t, r.io, t.outputs[v], m, HaveBuffer, false))
      && (r.state[v] != HaveBuffer ==> r.readyIn == e.readyIn)
  {
    NodeLists(t, v);
    if t.requiredIn[v] > 0 && e.readyIn[v] == t.requiredIn[v] {
      var d1 := Activate(t, e, v, ProcessInput);
      if d1.state[v] == HaveBuffer {
        FeedCounts(t, d1, t.outputs[v], HaveBuffer, false);
        OutputsNotToSelf(t, d1.io, t.outputs[v], v, HaveBuffer, false);
      }
    }
  }

  /** Pull calls v's process_input if and only if v requires inputs and,
      when pull ends, v's `ready_in` equals `required_in`; in particular a
      node with `required_in` 0 never gets process_input from pull. */
  lemma PullInputIff(t: Topology, d: Dyn, v: nat)
    requires t.Valid() && Fits(t, d) && v < t.NodeCount()
    ensures var r := Pull(t, d, v);
      (exists i :: |d.trace| <= i < |r.trace| && r.trace[i] == Call(ProcessInput, v)) <==>
        t.requiredIn[v] > 0 && r.readyIn[v] == t.requiredIn[v]
  {
    var d1 := d.(readyIn := d.readyIn[v := 0]);
    NodeLists(t, v);
    var s := ScanInputs(t, d1, v, t.inputs[v], []);
    ScanInputsCounts(t, d1, v, t.inputs[v], []);
    ScanInputsQueue(t, d1, v, t.inputs[v], []);
    DrainPullCalls(t, s.after, v, s.ready);
    var e := DrainPull(t, s.after, v, s.ready);
    PullFinishGate(t, e, v);
    var r := PullFinish(t, e, v);
    if t.requiredIn[v] > 0 && e.readyIn[v] == t.requiredIn[v] {
      assert r.trace[|r.trace| - 1] == Call(ProcessInput, v);
    } else {
      assert r == e;
      forall i | |d.trace| <= i < |r.trace| ensures r.trace[i] != Call(ProcessInput, v) {
        assert t.rank[e.trace[i].node] < t.rank[v];
      }
    }
  }

  /** Demand first: for every input port of v whose peer's io is NEED_BUFFER
      when pull starts, the peer node's process_output is called before any
      process_input of v (for a run that never inserted a node twice). */
  lemma PullDemandFirst(t: Topology, d: Dyn, v: nat, i: nat, pp: nat)
    requires t.Valid() && Fits(t, d) && v < t.NodeCount()
    requires i < |t.inputs[v]| && t.peer[t.inputs[v][i]] == Some(pp)
    requires pp < t.PortCount() && d.io[t.portIo[pp]] == NeedBuffer
    requires !Pull(t, d, v).corrupt
    ensures var r := Pull(t, d, v);
      exists j :: |d.trace| <= j < |r.trace| && r.trace[j] == Call(ProcessOutput, t.portNode[pp]) &&
        Call(ProcessInput, v) !in r.trace[|d.trace|..j]
  {
    PullCalls(t, d, v);
    PullServesPeer(t, d, v, i, pp);
    InputLast(t, Pull(t, d, v).trace, |d.trace|, Call(ProcessOutput, t.portNode[pp]), v);
  }

  /** The peer of an input port of v whose io is NEED_BUFFER when pull
      starts gets a process_output call during the pull. */
  lemma PullServesPeer(t: Topology, d: Dyn, v: nat, i: nat, pp: nat)
    requires t.Valid() && Fits(t, d) && v < t.NodeCount()
    requires i < |t.inputs[v]| && t.peer[t.inputs[v][i]] == Some(pp)
    requires pp < t.PortCount() && d.io[t.portIo[pp]] == NeedBuffer
    requires !Pull(t, d, v).corrupt
    ensures var r := Pull(t, d, v);
      exists k :: |d.trace| <= k < |r.trace| && r.trace[k] == Call(ProcessOutput, t.portNode[pp])
  {
    var d1 := d.(readyIn := d.readyIn[v := 0]);
    NodeLists(t, v);
    var s := ScanInputs(t, d1, v, t.inputs[v], []);
    ScanInputsCounts(t, d1, v, t.inputs[v], []);
    ScanInputsQueue(t, d1, v, t.inputs[v], []);
    var e := DrainPull(t, s.after, v, s.ready);
    var r := PullFinish(t, e, v);
    assert !s.after.corrupt;
    NeedPeersHas(t, d.io, t.inputs[v], i, pp);
    assert s.ready == NeedPeers(t, d.io, t.inputs[v]);
    DrainPullCalls(t, s.after, v, s.ready);
    PullFinishGate(t, e, v);
    assert r.trace[..|e.trace|] == e.trace;
    FoundAt(e.trace, r.trace, |d.trace|, Call(ProcessOutput, t.portNode[pp]));
  }

  /** In a trace whose calls from `from` on are below v's rank except for a
      last process_input of v, any other call x made there comes before
      every process_input of v. */
  lemma InputLast(t: Topology, tr: seq<Call>, from: nat, x: Call, v: nat)
    requires t.Valid() && v < t.NodeCount() && x != Call(ProcessInput, v)
    requires exists k :: from <= k < |tr| && tr[k] == x
    requires forall i :: from <= i < |tr| ==>
      tr[i].node < t.NodeCount() &&
      (t.rank[tr[i].node] < t.rank[v] || (i == |tr| - 1 && tr[i] == Call(ProcessInput, v)))
    ensures exists j :: from <= j < |tr| && tr[j] == x && Call(ProcessInput, v) !in tr[from..j]
  {
    var j :| from <= j < |tr| && tr[j] == x;
    assert Call(ProcessInput, v) !in tr[from..j] by {
      forall y | from <= y < j ensures tr[y] != Call(ProcessInput, v) {
        assert tr[from..j][y - from] == tr[y];
      }
    }
  }

  lemma {:induction false} NeedPeersHas(t: Topology, io: seq<Status>, ps: seq<nat>, i: nat, pp: nat)
    requires t.Valid() && |io| == t.ioCount && Ports(t, ps)
    requires i < |ps| && t.peer[ps[i]] == Some(pp) && pp < t.PortCount() && io[t.portIo[pp]] == NeedBuffer
    ensures t.portNode[pp] in NeedPeers(t, io, ps)
    decreases |ps|
  {
    if i > 0 {
      NeedPeersHas(t, io, ps[1..], i - 1, pp);
    }
  }

  /** Without demand, pull only counts: when no linked input of v has a
      NEED_BUFFER peer output, pull makes no call except, possibly, v's
      process_input, and v's `ready_in` ends as the number of linked inputs
      whose peer output is OK on a synchronous peer node. */
  lemma PullWithoutDemand(t: Topology, d: Dyn, v: nat)
    requires t.Valid() && Fits(t, d) && v < t.NodeCount()
    requires Ports(t, t.inputs[v]) && NeedPeers(t, d.io, t.inputs[v]) == []
    ensures var r := Pull(t, d, v);
      var ready := CountSyncReady(t, d.io, t.inputs[v]);
      && r.readyIn[v] == ready
      && r.trace == d.trace + (if t.requiredIn[v] > 0 && ready == t.requiredIn[v] then [Call(ProcessInput, v)] else [])
  {
    var d1 := d.(readyIn := d.readyIn[v := 0]);
    NodeLists(t, v);
    var s := ScanInputs(t, d1, v, t.inputs[v], []);
    ScanInputsCounts(t, d1, v, t.inputs[v], []);
    ScanInputsQueue(t, d1, v, t.inputs[v], []);
    assert s.ready == [];
    PullFinishGate(t, s.after, v);
  }

  /** Pull calls process_output only on nodes whose `ready_link` was not in
      a list when it started (for a run that never inserted a node twice). */
  lemma {:induction false} PullFresh(t: Topology, d: Dyn, v: nat)
    requires t.Valid() && Fits(t, d) && v < t.NodeCount()
    ensures var r := Pull(t, d, v); r.corrupt || NoCallOn(r.trace, |d.trace|, ProcessOutput, d.linked)
    decreases t.rank[v], 2, 0
  {
    var d1 := d.(readyIn := d.readyIn[v := 0]);
    NodeLists(t, v);
    ScanInputsCounts(t, d1, v, t.inputs[v], []);
    ScanInputsLinks(t, d1, v, t.inputs[v], [], d.linked);
    var s := ScanInputs(t, d1, v, t.inputs[v], []);
    DrainPullFresh(t, s.after, v, s.ready, d.linked);
    var e := DrainPull(t, s.after, v, s.ready);
    PullFinishGate(t, e, v);
    if !e.corrupt {
      NoCallExtend(e.trace, PullFinish(t, e, v).trace, Call(ProcessInput, v), |d.trace|, ProcessOutput, d.linked);
    }
  }

  lemma {:induction false} DrainPullFresh(t: Topology, d: Dyn, v: nat, q: seq<nat>, base: seq<bool>)
    requires t.Valid() && Fits(t, d) && v < t.NodeCount() && Upstream(t, q, v)
    requires d.corrupt || LinkedExactly(d.linked, base, q)
    ensures var r := DrainPull(t, d, v, q); r.corrupt || NoCallOn(r.trace, |d.trace|, ProcessOutput, base)
    decreases t.rank[v], 1, |q|
  {
    if q != [] {
      var n := q[0];
      PullEntryFresh(t, d, v, n);
      PullEntryCalls(t, d, v, n);
      PullEntryUnlinks(t, d, v, n);
      var e := PullEntry(t, d, v, n);
      if !e.corrupt {
        UnlinkHead(d.linked, base, q);
      }
      DrainPullFresh(t, e, v, q[1..], base);
      DrainPullCalls(t, e, v, q[1..]);
      var r := DrainPull(t, e, v, q[1..]);
      if !r.corrupt {
        NoCallJoin(d.trace, e.trace, r.trace, ProcessOutput, n, d.linked, base);
      }
    }
  }

  lemma {:induction false} PullEntryFresh(t: Topology, d: Dyn, v: nat, n: nat)
    requires t.Valid() && Fits(t, d) && v < t.NodeCount()
    requires n < t.NodeCount() && t.rank[n] < t.rank[v]
    ensures var r := PullEntry(t, d, v, n); r.corrupt || NoCallOn(r.trace, |d.trace| + 1, ProcessOutput, d.linked)
    decreases t.rank[v], 0, 1
  {
    var d1 := Activate(t, d, n, ProcessOutput);
    PullReplyFresh(t, d1, v, n);
  }

  lemma {:induction false} PullReplyFresh(t: Topology, d: Dyn, v: nat, n: nat)
    requires t.Valid() && Fits(t, d) && v < t.NodeCount()
    requires n < t.NodeCount() && t.rank[n] < t.rank[v]
    ensures var r := PullReply(t, d, v, n); r.corrupt || NoCallOn(r.trace, |d.trace|, ProcessOutput, d.linked)
    decreases t.rank[v], 0, 0
  {
    if d.state[n] == NeedBuffer {
      PullFresh(t, d, n);
      assert PullReply(t, d, v, n) == Pull(t, d, n);
    }
  }

  /** The drain of a ready list runs process_output on its nodes in FIFO
      order, one entry after the other: the call on q[j] comes after those
      on q[0] .. q[j-1], and nothing the earlier entries cause calls
      q[j]'s process_output first (for a run that never inserted a node
      twice). */
  lemma {:induction false} DrainPullOrder(t: Topology, d: Dyn, v: nat, q: seq<nat>, base: seq<bool>)
    requires t.Valid() && Fits(t, d) && v < t.NodeCount() && Upstream(t, q, v)
    requires d.corrupt || LinkedExactly(d.linked, base, q)
    ensures var r := DrainPull(t, d, v, q);
      r.corrupt || exists ks :: CalledInOrder(r.trace, |d.trace|, ProcessOutput, q, ks)
    decreases |q|
  {
    var r0 := DrainPull(t, d, v, q);
    if q == [] {
      assert CalledInOrder(r0.trace, |d.trace|, ProcessOutput, q, []);
    } else {
      var n := q[0];
      PullEntryFresh(t, d, v, n);
      PullEntryCalls(t, d, v, n);
      PullEntryUnlinks(t, d, v, n);
      var e := PullEntry(t, d, v, n);
      if !e.corrupt {
        UnlinkHead(d.linked, base, q);
      }
      DrainPullOrder(t, e, v, q[1..], base);
      DrainPullCalls(t, e, v, q[1..]);
      var r := DrainPull(t, e, v, q[1..]);
      assert r0 == r;
      if !r.corrupt {
        var ks :| CalledInOrder(r.trace, |e.trace|, ProcessOutput, q[1..], ks);
        OrderCons(d.trace, e.trace, r.trace, ProcessOutput, q, ks, d.linked, base);
      }
    }
  }

  /** Pull serves demand in port order: the nodes of the NEED_BUFFER peer
      outputs of v's input ports get their process_output in the order of
      those ports, each before the next (for a run that never inserted a
      node twice). */
  lemma PullServesInOrder(t: Topology, d: Dyn, v: nat)
    requires t.Valid() && Fits(t, d) && v < t.NodeCount()
    requires Ports(t, t.inputs[v])
    ensures var r := Pull(t, d, v);
      r.corrupt || exists ks :: CalledInOrder(r.trace, |d.trace|, ProcessOutput, NeedPeers(t, d.io, t.inputs[v]), ks)
  {
    var d1 := d.(readyIn := d.readyIn[v := 0]);
    NodeLists(t, v);
    ScanInputsCounts(t, d1, v, t.inputs[v], []);
    ScanInputsQueue(t, d1, v, t.inputs[v], []);
    ScanInputsLinks(t, d1, v, t.inputs[v], [], d.linked);
    var s := ScanInputs(t, d1, v, t.inputs[v], []);
    DrainPullOrder(t, s.after, v, s.ready, d.linked);
    var e := DrainPull(t, s.after, v, s.ready);
    PullFinishGate(t, e, v);
    var r := PullFinish(t, e, v);
    if !r.corrupt {
      assert s.ready == NeedPeers(t, d.io, t.inputs[v]);
      OrderKept(e.trace, r.trace, Call(ProcessInput, v), |d.trace|, ProcessOutput, s.ready);
    }
  }

  // ------------------------------------------------------------ push

  /** One output port p of v: the io cells, states and trace are untouched;
      the counters become CreditPeer's, so every node m gains the ready input
      LinkAt counts for p with the peer's HAVE_BUFFER; the links stay exact. */
  lemma OutputStepEffect(t: Topology, d: Dyn, v: nat, p: nat, q: seq<nat>, base: seq<bool>)
    requires t.Valid() && Fits(t, d) && v < t.NodeCount()
    requires t.OutputPort(p, v) && Downstream(t, q, v)
    ensures var s := OutputStep(t, d, v, p, q);
      && s.after.io == d.io && s.after.state == d.state && s.after.trace == d.trace
      && s.after.readyIn == CreditPeer(t, d.io, d.readyIn, p)
      && (forall m :: 0 <= m < t.NodeCount() ==>
            s.after.readyIn[m] == d.readyIn[m] + LinkAt(t, d.io, p, m, HaveBuffer, true))
      && (d.corrupt || LinkedExactly(d.linked, base, q) ==> s.after.corrupt || LinkedExactly(s.after.linked, base, s.ready))
  {
    CreditPeerCounts(t, d.io, d.readyIn, p);
    match t.peer[p]
    case None =>
    case Some(pp) =>
      var pn := t.portNode[pp];
      var d1 := if d.io[t.portIo[pp]] == HaveBuffer then d.(readyIn := d.readyIn[pn := d.readyIn[pn] + 1]) else d;
      if t.requiredIn[pn] > 0 && d1.readyIn[pn] == t.requiredIn[pn] && (d1.corrupt || LinkedExactly(d1.linked, base, q)) {
        EnqueueLinks(d1, q, pn, base);
      }
  }

  /** Crediting output port p adds, to every node m, the ready input LinkAt
      counts for p with the peer's HAVE_BUFFER. */
  lemma CreditPeerCounts(t: Topology, io: seq<Status>, ri: seq<nat>, p: nat)
    requires t.Valid() && |io| == t.ioCount && p < t.PortCount() && |ri| == t.NodeCount()
    ensures forall m :: 0 <= m < |ri| ==> CreditPeer(t, io, ri, p)[m] == ri[m] + LinkAt(t, io, p, m, HaveBuffer, true)
  {
  }

  /** One output port p of v, its ready list: it only grows, by nodes that
      require inputs, and unless a corruption is recorded it grows by
      exactly the peer node when that node, once p is credited, has all its
      required inputs ready, whether or not p credited it. */
  lemma OutputStepQueue(t: Topology, d: Dyn, v: nat, p: nat, q: seq<nat>)
    requires t.Valid() && Fits(t, d) && v < t.NodeCount()
    requires t.OutputPort(p, v) && Downstream(t, q, v)
    ensures var s := OutputStep(t, d, v, p, q);
      && |q| <= |s.ready| && s.ready[..|q|] == q
      && (forall j :: |q| <= j < |s.ready| ==> t.requiredIn[s.ready[j]] > 0)
      && (!s.after.corrupt ==> s.ready == q + ReadyPeerAt(t, CreditPeer(t, d.io, d.readyIn, p), p))
  {
    match t.peer[p]
    case None =>
    case Some(pp) =>
      var pn := t.portNode[pp];
      var d1 := if d.io[t.portIo[pp]] == HaveBuffer then d.(readyIn := d.readyIn[pn := d.readyIn[pn] + 1]) else d;
      assert d1.readyIn == CreditPeer(t, d.io, d.readyIn, p);
      if t.requiredIn[pn] > 0 && d1.readyIn[pn] == t.requiredIn[pn] {
        assert (q + [pn])[..|q|] == q;
      }
  }

  /** The scan of push's output ports touches neither io cells, states nor
      trace; every node m gains one ready input per linked output port of v
      whose peer port is on m and has io HAVE_BUFFER. */
  lemma {:induction false} ScanOutputsCounts(t: Topology, d: Dyn, v: nat, ps: seq<nat>, q: seq<nat>)
    requires t.Valid() && Fits(t, d) && v < t.NodeCount()
    requires OutputsOf(t, ps, v) && Ports(t, ps) && Downstream(t, q, v)
    ensures var r := ScanOutputs(t, d, v, ps, q);
      && r.after.io == d.io && r.after.state == d.state && r.after.trace == d.trace
      && (forall m :: 0 <= m < t.NodeCount() ==>
            r.after.readyIn[m] == d.readyIn[m] + CountLinksTo(t, d.io, ps, m, HaveBuffer, true))
    decreases |ps|
  {
    if ps != [] {
      OutputStepEffect(t, d, v, ps[0], q, d.linked);
      var s := OutputStep(t, d, v, ps[0], q);
      ScanOutputsCounts(t, s.after, v, ps[1..], s.ready);
    }
  }

  /** The scan of push's output ports only appends to the ready list, and
      only nodes that require inputs. */
  lemma {:induction false} ScanOutputsQueue(t: Topology, d: Dyn, v: nat, ps: seq<nat>, q: seq<nat>)
    requires t.Valid() && Fits(t, d) && v < t.NodeCount()
    requires OutputsOf(t, ps, v) && Downstream(t, q, v)
    ensures var r := ScanOutputs(t, d, v, ps, q);
      && |q| <= |r.ready| && r.ready[..|q|] == q
      && (forall j :: |q| <= j < |r.ready| ==> t.requiredIn[r.ready[j]] > 0)
    decreases |ps|
  {
    if ps != [] {
      OutputStepQueue(t, d, v, ps[0], q);
      var s := OutputStep(t, d, v, ps[0], q);
      ScanOutputsQueue(t, s.after, v, ps[1..], s.ready);
      PrefixGrows(t, q, s.ready, ScanOutputs(t, s.after, v, ps[1..], s.ready).ready);
    }
  }

  lemma AppendAssoc(a: seq<nat>, b: seq<nat>, c: seq<nat>)
    ensures a + b + c == a + (b + c)
  {
  }

  lemma ReadyPeersCons(t: Topology, io: seq<Status>, ri: seq<nat>, ps: seq<nat>)
    requires t.Valid() && |io| == t.ioCount && Ports(t, ps) && |ri| == t.NodeCount() && ps != []
    ensures var ri1 := CreditPeer(t, io, ri, ps[0]);
      ReadyPeers(t, io, ri, ps) == ReadyPeerAt(t, ri1, ps[0]) + ReadyPeers(t, io, ri1, ps[1..])
  {
  }

  /** Unless a corruption was recorded, the scan of push's output ports
      appends exactly the peers ReadyPeers finds, in port order: the peer of
      each linked output whose `ready_in`, once that port is credited,
      equals its non-zero `required_in`. */
  lemma {:induction false} ScanOutputsReady(t: Topology, d: Dyn, v: nat, ps: seq<nat>, q: seq<nat>)
    requires t.Valid() && Fits(t, d) && v < t.NodeCount()
    requires OutputsOf(t, ps, v) && Ports(t, ps) && Downstream(t, q, v)
    ensures var r := ScanOutputs(t, d, v, ps, q);
      !r.after.corrupt ==> r.ready == q + ReadyPeers(t, d.io, d.readyIn, ps)
    decreases |ps|
  {
    if ps != [] {
      OutputStepEffect(t, d, v, ps[0], q, d.linked);
      OutputStepQueue(t, d, v, ps[0], q);
      var s := OutputStep(t, d, v, ps[0], q);
      ScanOutputsReady(t, s.after, v, ps[1..], s.ready);
      var r := ScanOutputs(t, s.after, v, ps[1..], s.ready);
      assert ScanOutputs(t, d, v, ps, q) == r;
      if !r.after.corrupt {
        var ri := CreditPeer(t, d.io, d.readyIn, ps[0]);
        var here := ReadyPeerAt(t, ri, ps[0]);
        var rest := ReadyPeers(t, d.io, ri, ps[1..]);
        ReadyPeersCons(t, d.io, d.readyIn, ps);
        assert s.ready == q + here;
        assert r.ready == s.ready + rest;
        AppendAssoc(q, here, rest);
      }
    } else {
      assert q + [] == q;
    }
  }

  /** Appending in two steps, each adding only nodes that require inputs. */
  lemma PrefixGrows(t: Topology, a: seq<nat>, b: seq<nat>, c: seq<nat>)
    requires |a| <= |b| && b[..|a|] == a && (forall j :: |a| <= j < |b| ==> j < |b| && b[j] < |t.requiredIn| && t.requiredIn[b[j]] > 0)
    requires |b| <= |c| && c[..|b|] == b && (forall j :: |b| <= j < |c| ==> c[j] < |t.requiredIn| && t.requiredIn[c[j]] > 0)
    ensures |a| <= |c| && c[..|a|] == a && (forall j :: |a| <= j < |c| ==> c[j] < |t.requiredIn| && t.requiredIn[c[j]] > 0)
  {
    assert c[..|a|] == c[..|b|][..|a|];
    forall j | |a| <= j < |c| ensures c[j] < |t.requiredIn| && t.requiredIn[c[j]] > 0 {
      if j < |b| { assert c[j] == c[..|b|][j]; }
    }
  }

  lemma {:induction false} ScanOutputsLinks(t: Topology, d: Dyn, v: nat, ps: seq<nat>, q: seq<nat>, base: seq<bool>)
    requires t.Valid() && Fits(t, d) && v < t.NodeCount()
    requires OutputsOf(t, ps, v) && Downstream(t, q, v)
    requires d.corrupt || LinkedExactly(d.linked, base, q)
    ensures var r := ScanOutputs(t, d, v, ps, q); r.after.corrupt || LinkedExactly(r.after.linked, base, r.ready)
    decreases |ps|
  {
    if ps != [] {
      OutputStepEffect(t, d, v, ps[0], q, base);
      var s := OutputStep(t, d, v, ps[0], q);
      ScanOutputsLinks(t, s.after, v, ps[1..], s.ready, base);
    }
  }

  /** Every node that push puts on a ready list is taken off it again, with
      its link cleared, before push returns (for a run that never inserted a
      node twice). */
  lemma {:induction false} PushUnlinksAll(t: Topology, d: Dyn, v: nat)
    requires t.Valid() && Fits(t, d) && v < t.NodeCount()
    ensures var r := Push(t, d, v); !r.corrupt ==> r.linked == d.linked
    decreases t.NodeCount() - t.rank[v], 2, 0
  {
    NodeLists(t, v);
    ScanOutputsLinks(t, d, v, t.outputs[v], [], d.linked);
    var s := ScanOutputs(t, d, v, t.outputs[v], []);
    DrainPushUnlinks(t, s.after, v, s.ready, d.linked);
  }

  lemma {:induction false} DrainPushUnlinks(t: Topology, d: Dyn, v: nat, q: seq<nat>, base: seq<bool>)
    requires t.Valid() && Fits(t, d) && v < t.NodeCount() && Downstream(t, q, v)
    requires d.corrupt || LinkedExactly(d.linked, base, q)
    ensures var r := DrainPush(t, d, v, q); r.corrupt || r.linked == base
    decreases t.NodeCount() - t.rank[v], 1, |q|
  {
    if q == [] {
      if !d.corrupt {
        assert forall m :: 0 <= m < |d.linked| ==> d.linked[m] == base[m];
      }
    } else {
      var n := q[0];
      PushEntryUnlinks(t, d, v, n);
      var e := PushEntry(t, d, v, n);
      if !e.corrupt {
        UnlinkHead(d.linked, base, q);
      }
      DrainPushUnlinks(t, e, v, q[1..], base);
    }
  }

  lemma {:induction false} PushEntryUnlinks(t: Topology, d: Dyn, v: nat, n: nat)
    requires t.Valid() && Fits(t, d) && v < t.NodeCount()
    requires n < t.NodeCount() && t.rank[n] > t.rank[v]
    ensures var r := PushEntry(t, d, v, n); r.corrupt || r.linked == d.linked[n := false]
    decreases t.NodeCount() - t.rank[v], 0, 0
  {
    var d1 := Activate(t, d, n, ProcessInput);
    if d1.state[n] == HaveBuffer {
      PushUnlinksAll(t, d1, n);
    }
  }

  /** The callbacks push makes: the trace only grows, v's own
      process_output is the last call, and every other new call is on a
      node strictly downstream of v, so push never calls v's process_input. */
  lemma {:induction false} PushCalls(t: Topology, d: Dyn, v: nat)
    requires t.Valid() && Fits(t, d) && v < t.NodeCount()
    ensures var r := Push(t, d, v);
      && Extends(d.trace, r.trace) && |d.trace| < |r.trace|
      && r.trace[|r.trace| - 1] == Call(ProcessOutput, v)
      && CallsAbove(t, r.trace, |d.trace|, |r.trace| - 1, t.rank[v])
    decreases t.NodeCount() - t.rank[v], 2, 0
  {
    NodeLists(t, v);
    ScanOutputsCounts(t, d, v, t.outputs[v], []);
    var s := ScanOutputs(t, d, v, t.outputs[v], []);
    DrainPushCalls(t, s.after, v, s.ready);
    var e := DrainPush(t, s.after, v, s.ready);
    PushFinishEffect(t, e, v);
    var r := PushFinish(t, e, v);
    assert r.trace[..|e.trace|] == e.trace;
    ExtendsTrans(d.trace, e.trace, r.trace);
    forall i | |d.trace| <= i < |r.trace| - 1 ensures r.trace[i].node < |t.rank| && t.rank[r.trace[i].node] > t.rank[v] {
      assert r.trace[i] == r.trace[..|e.trace|][i] == e.trace[i];
    }
  }

  lemma {:induction false} DrainPushCalls(t: Topology, d: Dyn, v: nat, q: seq<nat>)
    requires t.Valid() && Fits(t, d) && v < t.NodeCount() && Downstream(t, q, v)
    ensures var r := DrainPush(t, d, v, q);
      && Extends(d.trace, r.trace)
      && CallsAbove(t, r.trace, |d.trace|, |r.trace|, t.rank[v])
      && forall j :: 0 <= j < |q| ==> Call(ProcessInput, q[j]) in r.trace[|d.trace|..]
    decreases t.NodeCount() - t.rank[v], 1, |q|
  {
    if q != [] {
      var n := q[0];
      PushEntryCalls(t, d, v, n);
      var e := PushEntry(t, d, v, n);
      DrainPushCalls(t, e, v, q[1..]);
      var r := DrainPush(t, e, v, q[1..]);
      ExtendsTrans(d.trace, e.trace, r.trace);
      AboveTrans(t, e.trace, r.trace, |d.trace|, t.rank[v]);
      QueueCalled(e.trace, r.trace, |d.trace|, ProcessInput, q);
    }
  }

  lemma {:induction false} PushEntryCalls(t: Topology, d: Dyn, v: nat, n: nat)
    requires t.Valid() && Fits(t, d) && v < t.NodeCount()
    requires n < t.NodeCount() && t.rank[n] > t.rank[v]
    ensures var r := PushEntry(t, d, v, n);
      && Extends(d.trace, r.trace) && |d.trace| < |r.trace|
      && r.trace[|d.trace|] == Call(ProcessInput, n)
      && CallsAbove(t, r.trace, |d.trace|, |r.trace|, t.rank[v])
    decreases t.NodeCount() - t.rank[v], 0, 1
  {
    var d1 := Activate(t, d, n, ProcessInput);
    assert d1.trace == d.trace + [Call(ProcessInput, n)];
    PushReplyCalls(t, d1, v, n);
    var r := PushEntry(t, d, v, n);
    assert r.trace == PushReply(t, d1, v, n).trace;
    ExtendsTrans(d.trace, d1.trace, r.trace);
    AboveTrans(t, d1.trace, r.trace, |d.trace|, t.rank[v]);
    assert r.trace[|d.trace|] == r.trace[..|d1.trace|][|d.trace|];
  }

  /** Answering n's process_input only adds calls on nodes downstream of v. */
  lemma {:induction false} PushReplyCalls(t: Topology, d: Dyn, v: nat, n: nat)
    requires t.Valid() && Fits(t, d) && v < t.NodeCount()
    requires n < t.NodeCount() && t.rank[n] > t.rank[v]
    ensures var r := PushReply(t, d, v, n);
      Extends(d.trace, r.trace) && CallsAbove(t, r.trace, |d.trace|, |r.trace|, t.rank[v])
    decreases t.NodeCount() - t.rank[v], 0, 0
  {
    if d.state[n] == HaveBuffer {
      PushCalls(t, d, n);
      var p := Push(t, d, n);
      AboveLast(t, p.trace, |d.trace|, n, t.rank[v]);
      assert PushReply(t, d, v, n) == p;
    } else {
      assert PushReply(t, d, v, n).trace == d.trace;
    }
  }

  /** The end of push: v's process_output is the one call added; on
      NEED_BUFFER v's `ready_in` becomes 0 and, unless v is ASYNC, each input
      port of v whose io is OK and that has a peer adds one to the peer
      node's `ready_in`; on any other result nothing else changes. */
  lemma PushFinishEffect(t: Topology, e: Dyn, v: nat)
    requires t.Valid() && Fits(t, e) && v < t.NodeCount()
    ensures var r := PushFinish(t, e, v);
      && r.trace == e.trace + [Call(ProcessOutput, v)]
      && (r.state[v] == NeedBuffer ==>
            forall m :: 0 <= m < t.NodeCount() ==>
              r.readyIn[m] == (if m == v then 0 else e.readyIn[m]) +
                (if t.async[v] then 0 else CountLinksTo(t, r.io, t.inputs[v], m, Ok, false)))
      && (r.state[v] != NeedBuffer ==> r.readyIn == e.readyIn)
  {
    NodeLists(t, v);
    var d1 := Activate(t, e, v, ProcessOutput);
    if d1.state[v] == NeedBuffer {
      var d2 := d1.(readyIn := d1.readyIn[v := 0]);
      FeedCounts(t, d2, t.inputs[v], Ok, t.async[v]);
      InputsNotFromSelf(t, d2.io, t.inputs[v], v, Ok, false);
    }
  }

  /** Push calls process_input only on nodes whose `ready_link` was not in
      a list when it started (for a run that never inserted a node twice). */
  lemma {:induction false} PushFresh(t: Topology, d: Dyn, v: nat)
    requires t.Valid() && Fits(t, d) && v < t.NodeCount()
    ensures var r := Push(t, d, v); r.corrupt || NoCallOn(r.trace, |d.trace|, ProcessInput, d.linked)
    decreases t.NodeCount() - t.rank[v], 2, 0
  {
    NodeLists(t, v);
    ScanOutputsCounts(t, d, v, t.outputs[v], []);
    ScanOutputsLinks(t, d, v, t.outputs[v], [], d.linked);
    var s := ScanOutputs(t, d, v, t.outputs[v], []);
    DrainPushFresh(t, s.after, v, s.ready, d.linked);
    var e := DrainPush(t, s.after, v, s.ready);
    PushFinishEffect(t, e, v);
    if !e.corrupt {
      NoCallExtend(e.trace, PushFinish(t, e, v).trace, Call(ProcessOutput, v), |d.trace|, ProcessInput, d.linked);
    }
  }

  lemma {:induction false} DrainPushFresh(t: Topology, d: Dyn, v: nat, q: seq<nat>, base: seq<bool>)
    requires t.Valid() && Fits(t, d) && v < t.NodeCount() && Downstream(t, q, v)
    requires d.corrupt || LinkedExactly(d.linked, base, q)
    ensures var r := DrainPush(t, d, v, q); r.corrupt || NoCallOn(r.trace, |d.trace|, ProcessInput, base)
    decreases t.NodeCount() - t.rank[v], 1, |q|
  {
    if q != [] {
      var n := q[0];
      PushEntryFresh(t, d, v, n);
      PushEntryCalls(t, d, v, n);
      PushEntryUnlinks(t, d, v, n);
      var e := PushEntry(t, d, v, n);
      if !e.corrupt {
        UnlinkHead(d.linked, base, q);
      }
      DrainPushFresh(t, e, v, q[1..], base);
      DrainPushCalls(t, e, v, q[1..]);
      var r := DrainPush(t, e, v, q[1..]);
      if !r.corrupt {
        NoCallJoin(d.trace, e.trace, r.trace, ProcessInput, n, d.linked, base);
      }
    }
  }

  lemma {:induction false} PushEntryFresh(t: Topology, d: Dyn, v: nat, n: nat)
    requires t.Valid() && Fits(t, d) && v < t.NodeCount()
    requires n < t.NodeCount() && t.rank[n] > t.rank[v]
    ensures var r := PushEntry(t, d, v, n); r.corrupt || NoCallOn(r.trace, |d.trace| + 1, ProcessInput, d.linked)
    decreases t.NodeCount() - t.rank[v], 0, 1
  {
    var d1 := Activate(t, d, n, ProcessInput);
    PushReplyFresh(t, d1, v, n);
  }

  lemma {:induction false} PushReplyFresh(t: Topology, d: Dyn, v: nat, n: nat)
    requires t.Valid() && Fits(t, d) && v < t.NodeCount()
    requires n < t.NodeCount() && t.rank[n] > t.rank[v]
    ensures var r := PushReply(t, d, v, n); r.corrupt || NoCallOn(r.trace, |d.trace|, ProcessInput, d.linked)
    decreases t.NodeCount() - t.rank[v], 0, 0
  {
    if d.state[n] == HaveBuffer {
      PushFresh(t, d, n);
      assert PushReply(t, d, v, n) == Push(t, d, n);
    }
  }

  /** The drain of push's ready list runs process_input on its nodes in
      FIFO order, one entry after the other (for a run that never inserted
      a node twice). */
  lemma {:induction false} DrainPushOrder(t: Topology, d: Dyn, v: nat, q: seq<nat>, base: seq<bool>)
    requires t.Valid() && Fits(t, d) && v < t.NodeCount() && Downstream(t, q, v)
    requires d.corrupt || LinkedExactly(d.linked, base, q)
    ensures var r := DrainPush(t, d, v, q);
      r.corrupt || exists ks :: CalledInOrder(r.trace, |d.trace|, ProcessInput, q, ks)
    decreases |q|
  {
    var r0 := DrainPush(t, d, v, q);
    if q == [] {
      assert CalledInOrder(r0.trace, |d.trace|, ProcessInput, q, []);
    } else {
      var n := q[0];
      PushEntryFresh(t, d, v, n);
      PushEntryCalls(t, d, v, n);
      PushEntryUnlinks(t, d, v, n);
      var e := PushEntry(t, d, v, n);
      if !e.corrupt {
        UnlinkHead(d.linked, base, q);
      }
      DrainPushOrder(t, e, v, q[1..], base);
      DrainPushCalls(t, e, v, q[1..]);
      var r := DrainPush(t, e, v, q[1..]);
      assert r0 == r;
      if !r.corrupt {
        var ks :| CalledInOrder(r.trace, |e.trace|, ProcessInput, q[1..], ks);
        OrderCons(d.trace, e.trace, r.trace, ProcessInput, q, ks, d.linked, base);
      }
    }
  }

  /** Push serves supply in port order: the peers that v's output ports
      make ready (ReadyPeers) get their process_input in the order of those
      ports, each before the next (for a run that never inserted a node
      twice). */
  lemma PushServesInOrder(t: Topology, d: Dyn, v: nat)
    requires t.Valid() && Fits(t, d) && v < t.NodeCount()
    requires Ports(t, t.outputs[v])
    ensures var r := Push(t, d, v);
      r.corrupt || exists ks :: CalledInOrder(r.trace, |d.trace|, ProcessInput, ReadyPeers(t, d.io, d.readyIn, t.outputs[v]), ks)
  {
    NodeLists(t, v);
    ScanOutputsCounts(t, d, v, t.outputs[v], []);
    ScanOutputsReady(t, d, v, t.outputs[v], []);
    ScanOutputsLinks(t, d, v, t.outputs[v], [], d.linked);
    var s := ScanOutputs(t, d, v, t.outputs[v], []);
    DrainPushOrder(t, s.after, v, s.ready, d.linked);
    var e := DrainPush(t, s.after, v, s.ready);
    PushFinishEffect(t, e, v);
    var r := PushFinish(t, e, v);
    if !r.corrupt {
      assert s.ready == ReadyPeers(t, d.io, d.readyIn, t.outputs[v]);
      OrderKept(e.trace, r.trace, Call(ProcessOutput, v), |d.trace|, ProcessInput, s.ready);
    }
  }

  // ------------------------------------------------------------ a source and a sink

  /** Node 0 (a source with one output port, 0) linked to node 1 (a sink
      with one required input port, 1); both ports use io cell 0 and the
      nodes' callbacks behave as `respond` says. */
  function Pair(respond: (Call, nat) -> Reply): (t: Topology)
    ensures t.Valid() && t.NodeCount() == 2 && t.ioCount == 1
  {
    Topology([0, 1], [false, false], [[], [1]], [[0], []], [0, 1], [Some(1), Some(0)], [0, 0], 1, [0, 1], respond)
  }

  /** Both nodes idle, io cell 0 holding `io`, nothing called yet. */
  function PairState(io: Status): (d: Dyn)
    ensures Fits(Pair((c: Call, k: nat) => Reply(Ok, map[])), d) && d.io == [io] && d.trace == []
  {
    Dyn([0, 0], [Ok, Ok], [io], [false, false], [], false)
  }

  /** The source produces (HAVE_BUFFER on its output); the sink consumes and
      asks for more (NEED_BUFFER on its input). */
  function Producing(c: Call, k: nat): Reply {
    if c.node == 0 then Reply(HaveBuffer, map[0 := HaveBuffer])
    else Reply(NeedBuffer, map[1 := NeedBuffer])
  }

  /** Pushing the source while its output holds a buffer makes the sink
      ready (`ready_in` 1 = `required_in`), calls the sink's process_input
      exactly once, then the source's process_output. */
  lemma PushSourceToSink()
    ensures var t := Pair(Producing);
      var r := Push(t, PairState(HaveBuffer), 0);
      && r.trace == [Call(ProcessInput, 1), Call(ProcessOutput, 0)]
      && r.readyIn == [0, 0] && !r.corrupt && r.linked == [false, false]
  {
    var t := Pair(Producing);
    var scanned := Dyn([0, 1], [Ok, Ok], [HaveBuffer], [false, true], [], false);
    var drained := Dyn([0, 0], [Ok, NeedBuffer], [NeedBuffer], [false, false], [Call(ProcessInput, 1)], false);
    var finished := Dyn([0, 0], [HaveBuffer, NeedBuffer], [HaveBuffer], [false, false], [Call(ProcessInput, 1), Call(ProcessOutput, 0)], false);
    PushSourceScan(scanned);
    PushSourceDrain(scanned, drained);
    PushSourceFinish(drained, finished);
    assert Push(t, PairState(HaveBuffer), 0) == PushFinish(t, DrainPush(t, scanned, 0, [1]), 0);
  }

  lemma PushSourceFinish(drained: Dyn, finished: Dyn)
    requires drained == Dyn([0, 0], [Ok, NeedBuffer], [NeedBuffer], [false, false], [Call(ProcessInput, 1)], false)
    requires finished == Dyn([0, 0], [HaveBuffer, NeedBuffer], [HaveBuffer], [false, false], [Call(ProcessInput, 1), Call(ProcessOutput, 0)], false)
    ensures PushFinish(Pair(Producing), drained, 0) == finished
  {
    var t := Pair(Producing);
    assert Activate(t, drained, 0, ProcessOutput) == finished;
  }

  lemma PushSourceScan(scanned: Dyn)
    requires scanned == Dyn([0, 1], [Ok, Ok], [HaveBuffer], [false, true], [], false)
    ensures ScanOutputs(Pair(Producing), PairState(HaveBuffer), 0, [0], []) == Scan(scanned, [1])
  {
    var t := Pair(Producing);
    assert ScanOutputs(t, scanned, 0, [], [1]) == Scan(scanned, [1]);
  }

  lemma PushSourceDrain(scanned: Dyn, drained: Dyn)
    requires scanned == Dyn([0, 1], [Ok, Ok], [HaveBuffer], [false, true], [], false)
    requires drained == Dyn([0, 0], [Ok, NeedBuffer], [NeedBuffer], [false, false], [Call(ProcessInput, 1)], false)
    ensures DrainPush(Pair(Producing), scanned, 0, [1]) == drained
  {
    var t := Pair(Producing);
    var d1 := Activate(t, scanned, 1, ProcessInput);
    assert d1.io == [NeedBuffer] && d1.state == [Ok, NeedBuffer];
    assert SyncOkInputs(t, d1.io, 1) == 0;
    assert PushEntry(t, scanned, 0, 1) == drained;
  }

  /** Pulling the sink while the source's output asks for a buffer runs the
      source's process_output first; the buffer it produces makes the sink
      ready, and the sink's process_input is then called once. */
  lemma PullSinkFromSource()
    ensures var t := Pair(Producing);
      var r := Pull(t, PairState(NeedBuffer), 1);
      && r.trace == [Call(ProcessOutput, 0), Call(ProcessInput, 1)]
      && r.readyIn[1] == 1 && !r.corrupt && r.linked == [false, false]
  {
    var t := Pair(Producing);
    var scanned := Dyn([0, 0], [Ok, Ok], [NeedBuffer], [true, false], [], false);
    var drained := Dyn([0, 1], [HaveBuffer, Ok], [HaveBuffer], [false, false], [Call(ProcessOutput, 0)], false);
    var finished := Dyn([0, 1], [HaveBuffer, NeedBuffer], [NeedBuffer], [false, false], [Call(ProcessOutput, 0), Call(ProcessInput, 1)], false);
    PullSinkScan(scanned);
    PullSinkDrain(scanned, drained);
    PullSinkFinish(drained, finished);
    var d := PairState(NeedBuffer);
    assert Pull(t, d, 1) == PullFinish(t, DrainPull(t, scanned, 1, [0]), 1);
  }

  lemma PullSinkFinish(drained: Dyn, finished: Dyn)
    requires drained == Dyn([0, 1], [HaveBuffer, Ok], [HaveBuffer], [false, false], [Call(ProcessOutput, 0)], false)
    requires finished == Dyn([0, 1], [HaveBuffer, NeedBuffer], [NeedBuffer], [false, false], [Call(ProcessOutput, 0), Call(ProcessInput, 1)], false)
    ensures PullFinish(Pair(Producing), drained, 1) == finished
  {
    var t := Pair(Producing);
    assert Activate(t, drained, 1, ProcessInput) == finished;
  }

  lemma PullSinkScan(scanned: Dyn)
    requires scanned == Dyn([0, 0], [Ok, Ok], [NeedBuffer], [true, false], [], false)
    ensures var d := PairState(NeedBuffer);
      ScanInputs(Pair(Producing), d.(readyIn := d.readyIn[1 := 0]), 1, [1], []) == Scan(scanned, [0])
  {
    var t := Pair(Producing);
    assert ScanInputs(t, scanned, 1, [], [0]) == Scan(scanned, [0]);
  }

  lemma PullSinkDrain(scanned: Dyn, drained: Dyn)
    requires scanned == Dyn([0, 0], [Ok, Ok], [NeedBuffer], [true, false], [], false)
    requires drained == Dyn([0, 1], [HaveBuffer, Ok], [HaveBuffer], [false, false], [Call(ProcessOutput, 0)], false)
    ensures DrainPull(Pair(Producing), scanned, 1, [0]) == drained
  {
    var t := Pair(Producing);
    var d1 := Activate(t, scanned, 0, ProcessOutput);
    assert d1.io == [HaveBuffer] && d1.state == [HaveBuffer, Ok];
    assert CountStatus(t, d1.io, [0], HaveBuffer) == 1;
    assert PullEntry(t, scanned, 1, 0) == drained;
  }

  // ------------------------------------------------------------ the ASYNC test after push's drain

  /** The source's push callback result is irrelevant here; the sink's
      process_output asks for a buffer. */
  function Demanding(c: Call, k: nat): Reply {
    Reply(NeedBuffer, map[])
  }

  /** As written, the end of push reads the ASYNC flag through the drain
      loop's cursor instead of the pushed node. With the sink 1 synchronous
      and its input's io OK, the source must get one ready input; if the flag
      read through the stale cursor happens to be set, it gets none. The
      corrected end of push always gives it. */
  lemma PushFinishStaleCursor()
    ensures var t := Pair(Demanding);
      var d := PairState(Ok);
      && !t.async[1]
      && PushFinishAsWritten(t, d, 1, true).readyIn[0] == 0
      && PushFinishAsWritten(t, d, 1, false).readyIn[0] == 1
      && PushFinish(t, d, 1).readyIn[0] == 1
  {
    var t := Pair(Demanding);
    var d := PairState(Ok);
    var d1 := Activate(t, d, 1, ProcessOutput);
    assert d1.io == [Ok] && d1.state[1] == NeedBuffer;
    var d2 := d1.(readyIn := d1.readyIn[1 := 0]);
    assert Feed(t, d2, [1], Ok, false).readyIn == [1, 0];
    assert Feed(t, d2, [1], Ok, true).readyIn == [0, 0];
  }
}
