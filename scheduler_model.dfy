/** Value-level model of the readiness bookkeeping done by the pull and push
    schedulers of spa/include/spa/graph-scheduler3.h.

    The graph's structure (ports, links, io cells, flags) is a constant
    `Topology`; everything the scheduler and the node callbacks change is a
    `Dyn` value. `Pull` and `Push` below are the reference definitions that the
    imperative methods of module GraphScheduler are proved to follow, and that
    the lemmas of module SchedulerProps are about. */
module SchedulerModel {

  datatype Option<T> = None | Some(value: T)

  /** The result codes a port's io status and a node callback can hold. */
  datatype Status = Ok | NeedBuffer | HaveBuffer | Error(code: int)

  /** The two node callbacks, process_input and process_output. */
  datatype Kind = ProcessInput | ProcessOutput

  /** One invocation of a node callback. */
  datatype Call = Call(kind: Kind, node: nat)

  /** What a callback does: the result code it returns and the io statuses it
      writes, keyed by port; only the called node's own ports are written. */
  datatype Reply = Reply(result: Status, writes: map<nat, Status>)

  /** Nodes and ports are numbered from 0. `inputs[n]` and `outputs[n]` list
      node n's ports in link order; `portNode[p]` owns port p, `peer[p]` is the
      port at the other end of its link, and `portIo[p]` is the io cell the
      port's `io` field refers to (linked ports may share one cell).
      `rank` orders the graph: an upstream peer has a strictly lower rank.
      `respond(c, k)` is what the node implementation does on call `c` when
      it is the k-th callback of the run. */
  datatype Topology = Topology(
    requiredIn: seq<nat>,
    async: seq<bool>,
    inputs: seq<seq<nat>>,
    outputs: seq<seq<nat>>,
    portNode: seq<nat>,
    peer: seq<Option<nat>>,
    portIo: seq<nat>,
    ioCount: nat,
    rank: seq<nat>,
    respond: (Call, nat) -> Reply)
  {
    function NodeCount(): nat { |requiredIn| }

    function PortCount(): nat { |peer| }

    /** Port p is an input port of node n whose upstream peer, if any,
        belongs to a node of lower rank. */
    ghost predicate InputPort(p: nat, n: nat) {
      && p < |peer| && p < |portNode| && portNode[p] == n && n < |rank|
      && (peer[p].Some? ==>
            peer[p].value < |portNode| && portNode[peer[p].value] < |rank| &&
            rank[portNode[peer[p].value]] < rank[n])
    }

    /** Port p is an output port of node n whose downstream peer, if any,
        belongs to a node of higher rank. */
    ghost predicate OutputPort(p: nat, n: nat) {
      && p < |peer| && p < |portNode| && portNode[p] == n && n < |rank|
      && (peer[p].Some? ==>
            peer[p].value < |portNode| && portNode[peer[p].value] < |rank| &&
            rank[portNode[peer[p].value]] > rank[n])
    }

    /** Every port listed among node n's inputs is an input port of n. */
    ghost predicate InputsOk(n: nat) {
      n < |inputs| && forall i :: 0 <= i < |inputs[n]| ==> InputPort(inputs[n][i], n)
    }

    /** Every port listed among node n's outputs is an output port of n. */
    ghost predicate OutputsOk(n: nat) {
      n < |outputs| && forall i :: 0 <= i < |outputs[n]| ==> OutputPort(outputs[n][i], n)
    }

    /** The graph is well formed and acyclic. */
    ghost predicate Valid() {
      && |async| == |requiredIn| && |inputs| == |requiredIn|
      && |outputs| == |requiredIn| && |rank| == |requiredIn|
      && |portNode| == |peer| && |portIo| == |peer|
      && (forall p :: 0 <= p < |peer| ==> portIo[p] < ioCount && portNode[p] < |requiredIn|)
      && (forall p :: 0 <= p < |peer| && peer[p].Some? ==> peer[p].value < |peer|)
      && (forall n :: 0 <= n < |rank| ==> rank[n] < |rank|)
      && (forall n :: 0 <= n < |inputs| ==> Ports(this, inputs[n]))
      && (forall n :: 0 <= n < |outputs| ==> Ports(this, outputs[n]))
      && (forall n :: 0 <= n < |inputs| ==> InputsOk(n))
      && (forall n :: 0 <= n < |outputs| ==> OutputsOk(n))
    }
  }

  /** The state the scheduler and the callbacks change: per node `ready_in`,
      `state` and whether its `ready_link` is in a list; per io cell its
      status; the callbacks made so far; and whether a node was ever inserted
      into a ready list while its link was already in one (which corrupts the
      intrusive list in C). */
  datatype Dyn = Dyn(
    readyIn: seq<nat>,
    state: seq<Status>,
    io: seq<Status>,
    linked: seq<bool>,
    trace: seq<Call>,
    corrupt: bool)

  ghost predicate Fits(t: Topology, d: Dyn) {
    && |d.readyIn| == t.NodeCount() && |d.state| == t.NodeCount()
    && |d.linked| == t.NodeCount() && |d.io| == t.ioCount
  }

  ghost predicate Ports(t: Topology, ps: seq<nat>) {
    forall i :: 0 <= i < |ps| ==> ps[i] < t.PortCount()
  }

  /** The ports listed for node n are ports of the graph. */
  lemma NodePorts(t: Topology, n: nat)
    requires t.Valid() && n < t.NodeCount()
    ensures Ports(t, t.inputs[n]) && Ports(t, t.outputs[n]) && Ports(t, t.inputs[n] + t.outputs[n])
  {
    assert t.InputsOk(n) && t.OutputsOk(n);
    var ps := t.inputs[n] + t.outputs[n];
    forall i | 0 <= i < |ps| ensures ps[i] < t.PortCount() {
      if i < |t.inputs[n]| { assert t.InputPort(t.inputs[n][i], n); }
      else { assert t.OutputPort(t.outputs[n][i - |t.inputs[n]|], n); }
    }
  }

  /** Applies a callback's writes to the io cells of the ports `ps`. */
  function ApplyWrites(t: Topology, io: seq<Status>, ps: seq<nat>, writes: map<nat, Status>): (r: seq<Status>)
    requires t.Valid() && |io| == t.ioCount && Ports(t, ps)
    ensures |r| == |io|
    ensures forall c :: 0 <= c < |io| && (forall p :: p in ps ==> t.portIo[p] != c) ==> r[c] == io[c]
    decreases |ps|
  {
    if ps == [] then io
    else
      var p := ps[0];
      ApplyWrites(t, if p in writes then io[t.portIo[p] := writes[p]] else io, ps[1..], writes)
  }

  /** One callback of kind k on node n; the scheduler stores its result in
      the node's `state`. The call is recorded, and no io cell outside those
      of n's own ports changes. */
  function Activate(t: Topology, d: Dyn, n: nat, k: Kind): (r: Dyn)
    requires t.Valid() && Fits(t, d) && n < t.NodeCount()
    ensures Fits(t, r)
    ensures r.trace == d.trace + [Call(k, n)]
    ensures r.state[n] == t.respond(Call(k, n), |d.trace|).result
    ensures forall m :: 0 <= m < |d.state| && m != n ==> r.state[m] == d.state[m]
    ensures r.readyIn == d.readyIn && r.linked == d.linked && r.corrupt == d.corrupt
    ensures forall c :: 0 <= c < |d.io| && (forall p :: p in t.inputs[n] + t.outputs[n] ==> t.portIo[p] != c) ==>
      r.io[c] == d.io[c]
  {
    var reply := t.respond(Call(k, n), |d.trace|);
    NodePorts(t, n);
    d.(io := ApplyWrites(t, d.io, t.inputs[n] + t.outputs[n], reply.writes),
       state := d.state[n := reply.result],
       trace := d.trace + [Call(k, n)])
  }

  /** Number of ports of `ps` whose own io cell holds `st`. */
  function CountStatus(t: Topology, io: seq<Status>, ps: seq<nat>, st: Status): nat
    requires t.Valid() && |io| == t.ioCount && Ports(t, ps)
    decreases |ps|
  {
    if ps == [] then 0
    else (if io[t.portIo[ps[0]]] == st then 1 else 0) + CountStatus(t, io, ps[1..], st)
  }

  /** CountStatus counts at most one per port, one for each port when all
      of them hold `st`, and none when none does. */
  lemma {:induction false} CountStatusBounds(t: Topology, io: seq<Status>, ps: seq<nat>, st: Status)
    requires t.Valid() && |io| == t.ioCount && Ports(t, ps)
    ensures CountStatus(t, io, ps, st) <= |ps|
    ensures (forall i :: 0 <= i < |ps| ==> io[t.portIo[ps[i]]] == st) ==> CountStatus(t, io, ps, st) == |ps|
    ensures (forall i :: 0 <= i < |ps| ==> io[t.portIo[ps[i]]] != st) ==> CountStatus(t, io, ps, st) == 0
    decreases |ps|
  {
    if ps != [] {
      CountStatusBounds(t, io, ps[1..], st);
      assert forall i :: 0 <= i < |ps[1..]| ==> ps[1..][i] == ps[i + 1];
    }
  }

  /** 1 when port p is linked to a port of node m and the status is st: the
      status of the peer's cell when `viaPeer`, of p's own cell otherwise. */
  function LinkAt(t: Topology, io: seq<Status>, p: nat, m: nat, st: Status, viaPeer: bool): nat
    requires t.Valid() && |io| == t.ioCount && p < t.PortCount()
  {
    match t.peer[p]
    case None => 0
    case Some(q) => if t.portNode[q] == m && io[t.portIo[if viaPeer then q else p]] == st then 1 else 0
  }

  /** Number of ports of `ps` linked to a port of node m whose status is st
      (see LinkAt). */
  function CountLinksTo(t: Topology, io: seq<Status>, ps: seq<nat>, m: nat, st: Status, viaPeer: bool): nat
    requires t.Valid() && |io| == t.ioCount && Ports(t, ps)
    decreases |ps|
  {
    if ps == [] then 0
    else LinkAt(t, io, ps[0], m, st, viaPeer) + CountLinksTo(t, io, ps[1..], m, st, viaPeer)
  }

  /** 1 when port p is linked, its peer's cell is OK and its peer node is not
      ASYNC: an input pull counts as ready without running anything. */
  function SyncReadyAt(t: Topology, io: seq<Status>, p: nat): nat
    requires t.Valid() && |io| == t.ioCount && p < t.PortCount()
  {
    match t.peer[p]
    case None => 0
    case Some(q) => if io[t.portIo[q]] == Ok && !t.async[t.portNode[q]] then 1 else 0
  }

  /** Number of ports of `ps` that SyncReadyAt counts. */
  function CountSyncReady(t: Topology, io: seq<Status>, ps: seq<nat>): nat
    requires t.Valid() && |io| == t.ioCount && Ports(t, ps)
    decreases |ps|
  {
    if ps == [] then 0
    else SyncReadyAt(t, io, ps[0]) + CountSyncReady(t, io, ps[1..])
  }

  /** The peer node of port p when p is linked and its peer's cell is
      NEED_BUFFER; nothing otherwise. */
  function NeedPeerAt(t: Topology, io: seq<Status>, p: nat): seq<nat>
    requires t.Valid() && |io| == t.ioCount && p < t.PortCount()
  {
    match t.peer[p]
    case None => []
    case Some(q) => if io[t.portIo[q]] == NeedBuffer then [t.portNode[q]] else []
  }

  /** The peer nodes, in port order, that NeedPeerAt gives for `ps`. */
  function NeedPeers(t: Topology, io: seq<Status>, ps: seq<nat>): seq<nat>
    requires t.Valid() && |io| == t.ioCount && Ports(t, ps)
    decreases |ps|
  {
    if ps == [] then []
    else NeedPeerAt(t, io, ps[0]) + NeedPeers(t, io, ps[1..])
  }

  /** Every node of q is a valid node upstream of v. */
  ghost predicate Upstream(t: Topology, q: seq<nat>, v: nat)
    requires t.Valid() && v < t.NodeCount()
  {
    forall i :: 0 <= i < |q| ==> q[i] < t.NodeCount() && t.rank[q[i]] < t.rank[v]
  }

  /** Every node of q is a valid node downstream of v. */
  ghost predicate Downstream(t: Topology, q: seq<nat>, v: nat)
    requires t.Valid() && v < t.NodeCount()
  {
    forall i :: 0 <= i < |q| ==> q[i] < t.NodeCount() && t.rank[q[i]] > t.rank[v]
  }

  /** A ready list under construction, and the state after building it. */
  datatype Scan = Scan(after: Dyn, ready: seq<nat>)

  /** Appends node n to the ready list q through its `ready_link`. A link
      that is already in a list is not inserted again; the corruption that
      the C insertion would cause is recorded instead. */
  function Enqueue(d: Dyn, q: seq<nat>, n: nat): (r: Scan)
    requires n < |d.linked|
    ensures |r.after.linked| == |d.linked|
    ensures d.linked[n] ==> r.ready == q && r.after.corrupt
    ensures !d.linked[n] ==> r.ready == q + [n] && r.after.linked[n] && r.after.corrupt == d.corrupt
    ensures forall m :: 0 <= m < |d.linked| && m != n ==> r.after.linked[m] == d.linked[m]
    ensures r.after.(linked := d.linked, corrupt := d.corrupt) == d
  {
    if d.linked[n] then Scan(d.(corrupt := true), q)
    else Scan(d.(linked := d.linked[n := true]), q + [n])
  }

  /** For every output port of `ps` whose own cell holds `st` and that has a
      peer, one more ready input for the peer's node; nothing when `skip`. */
  function Feed(t: Topology, d: Dyn, ps: seq<nat>, st: Status, skip: bool): (r: Dyn)
    requires t.Valid() && Fits(t, d) && Ports(t, ps)
    ensures Fits(t, r)
    ensures r == d.(readyIn := r.readyIn)
    decreases |ps|
  {
    if ps == [] then d
    else
      var p := ps[0];
      var d1 := if d.io[t.portIo[p]] == st && !skip && t.peer[p].Some? then
                  var m := t.portNode[t.peer[p].value];
                  d.(readyIn := d.readyIn[m := d.readyIn[m] + 1])
                else d;
      Feed(t, d1, ps[1..], st, skip)
  }

  // ---------------------------------------------------------------- pull

  /** One input port p of the pulled node v: a peer whose output is
      NEED_BUFFER joins the ready list, an OK output of a synchronous peer
      counts as a ready input of v at once. */
  function InputStep(t: Topology, d: Dyn, v: nat, p: nat, q: seq<nat>): (r: Scan)
    requires t.Valid() && Fits(t, d) && v < t.NodeCount()
    requires t.InputPort(p, v) && Upstream(t, q, v)
    ensures Fits(t, r.after)
    ensures d.corrupt ==> r.after.corrupt
    ensures Upstream(t, r.ready, v)
  {
    match t.peer[p]
    case None => Scan(d, q)
    case Some(pp) =>
      var pn := t.portNode[pp];
      var st := d.io[t.portIo[pp]];
      if st == NeedBuffer then Enqueue(d, q, pn)
      else if st == Ok && !t.async[pn] then Scan(d.(readyIn := d.readyIn[v := d.readyIn[v] + 1]), q)
      else Scan(d, q)
  }

  /** The loop over the pulled node's input ports `ps`, in order. */
  function ScanInputs(t: Topology, d: Dyn, v: nat, ps: seq<nat>, q: seq<nat>): (r: Scan)
    requires t.Valid() && Fits(t, d) && v < t.NodeCount()
    requires forall i :: 0 <= i < |ps| ==> t.InputPort(ps[i], v)
    requires Upstream(t, q, v)
    ensures Fits(t, r.after)
    ensures d.corrupt ==> r.after.corrupt
    ensures Upstream(t, r.ready, v)
    decreases |ps|
  {
    if ps == [] then Scan(d, q)
    else
      var s := InputStep(t, d, v, ps[0], q);
      ScanInputs(t, s.after, v, ps[1..], s.ready)
  }

  /** spa_graph_scheduler_pull on node v. */
  function Pull(t: Topology, d: Dyn, v: nat): (r: Dyn)
    requires t.Valid() && Fits(t, d) && v < t.NodeCount()
    ensures Fits(t, r)
    ensures d.corrupt ==> r.corrupt
    decreases t.rank[v], 2, 0
  {
    assert t.InputsOk(v);
    var s := ScanInputs(t, d.(readyIn := d.readyIn[v := 0]), v, t.inputs[v], []);
    PullFinish(t, DrainPull(t, s.after, v, s.ready), v)
  }

  /** Drains the pulled node v's ready list in FIFO order. */
  function DrainPull(t: Topology, d: Dyn, v: nat, q: seq<nat>): (r: Dyn)
    requires t.Valid() && Fits(t, d) && v < t.NodeCount()
    requires Upstream(t, q, v)
    ensures Fits(t, r)
    ensures d.corrupt ==> r.corrupt
    decreases t.rank[v], 1, |q|
  {
    if q == [] then d
    else DrainPull(t, PullEntry(t, d, v, q[0]), v, q[1..])
  }

  /** One entry n of v's ready list: n's process_output runs, its result is
      answered (PullReply), and n's link is then taken out of the list. */
  function PullEntry(t: Topology, d: Dyn, v: nat, n: nat): (r: Dyn)
    requires t.Valid() && Fits(t, d) && v < t.NodeCount()
    requires n < t.NodeCount() && t.rank[n] < t.rank[v]
    ensures Fits(t, r)
    ensures d.corrupt ==> r.corrupt
    decreases t.rank[v], 0, 1
  {
    var d2 := PullReply(t, Activate(t, d, n, ProcessOutput), v, n);
    d2.(linked := d2.linked[n := false])
  }

  /** What the result of n's process_output leads to: a peer that needs a
      buffer is pulled in turn, any other adds its HAVE_BUFFER output ports
      to v's `ready_in`. */
  function PullReply(t: Topology, d: Dyn, v: nat, n: nat): (r: Dyn)
    requires t.Valid() && Fits(t, d) && v < t.NodeCount()
    requires n < t.NodeCount() && t.rank[n] < t.rank[v]
    ensures Fits(t, r)
    ensures d.corrupt ==> r.corrupt
    decreases t.rank[v], 0, 0
  {
    NodePorts(t, n);
    if d.state[n] == NeedBuffer then Pull(t, d, n)
    else d.(readyIn := d.readyIn[v := d.readyIn[v] + CountStatus(t, d.io, t.outputs[n], HaveBuffer)])
  }

  /** The end of pull: v consumes when all its required inputs are ready,
      and a produced buffer counts as ready input downstream. */
  function PullFinish(t: Topology, d: Dyn, v: nat): (r: Dyn)
    requires t.Valid() && Fits(t, d) && v < t.NodeCount()
    ensures Fits(t, r)
    ensures r.linked == d.linked && r.corrupt == d.corrupt
  {
    if t.requiredIn[v] > 0 && d.readyIn[v] == t.requiredIn[v] then
      var d1 := Activate(t, d, v, ProcessInput);
      NodePorts(t, v);
      if d1.state[v] == HaveBuffer then Feed(t, d1, t.outputs[v], HaveBuffer, false) else d1
    else d
  }

  // ---------------------------------------------------------------- push

  /** One output port p of the pushing node v: a HAVE_BUFFER peer input
      counts as one more ready input of the peer node, and a peer whose
      required inputs are then all ready joins the ready list. */
  function OutputStep(t: Topology, d: Dyn, v: nat, p: nat, q: seq<nat>): (r: Scan)
    requires t.Valid() && Fits(t, d) && v < t.NodeCount()
    requires t.OutputPort(p, v) && Downstream(t, q, v)
    ensures Fits(t, r.after)
    ensures d.corrupt ==> r.after.corrupt
    ensures Downstream(t, r.ready, v)
  {
    match t.peer[p]
    case None => Scan(d, q)
    case Some(pp) =>
      var pn := t.portNode[pp];
      var d1 := if d.io[t.portIo[pp]] == HaveBuffer then d.(readyIn := d.readyIn[pn := d.readyIn[pn] + 1]) else d;
      if t.requiredIn[pn] > 0 && d1.readyIn[pn] == t.requiredIn[pn] then Enqueue(d1, q, pn)
      else Scan(d1, q)
  }

  /** The `ready_in` counters after output port p of a pushing node is
      seen: the peer node gains one when the peer's cell is HAVE_BUFFER. */
  function CreditPeer(t: Topology, io: seq<Status>, ri: seq<nat>, p: nat): (r: seq<nat>)
    requires t.Valid() && |io| == t.ioCount && p < t.PortCount() && |ri| == t.NodeCount()
    ensures |r| == |ri|
  {
    match t.peer[p]
    case None => ri
    case Some(pp) =>
      var pn := t.portNode[pp];
      if io[t.portIo[pp]] == HaveBuffer then ri[pn := ri[pn] + 1] else ri
  }

  /** The peer node of output port p when it is linked, requires inputs and,
      by the counters `ri`, has all of them ready; nothing otherwise. */
  function ReadyPeerAt(t: Topology, ri: seq<nat>, p: nat): seq<nat>
    requires t.Valid() && p < t.PortCount() && |ri| == t.NodeCount()
  {
    match t.peer[p]
    case None => []
    case Some(pp) =>
      var pn := t.portNode[pp];
      if t.requiredIn[pn] > 0 && ri[pn] == t.requiredIn[pn] then [pn] else []
  }

  /** The peer nodes, in port order, that the ports `ps` of a pushing node
      make ready, starting from the counters `ri`: each port is credited
      first and its peer is then tested, whether or not it was credited. */
  function ReadyPeers(t: Topology, io: seq<Status>, ri: seq<nat>, ps: seq<nat>): seq<nat>
    requires t.Valid() && |io| == t.ioCount && Ports(t, ps) && |ri| == t.NodeCount()
    decreases |ps|
  {
    if ps == [] then []
    else
      var ri1 := CreditPeer(t, io, ri, ps[0]);
      ReadyPeerAt(t, ri1, ps[0]) + ReadyPeers(t, io, ri1, ps[1..])
  }

  /** The loop over the pushing node's output ports `ps`, in order. */
  function ScanOutputs(t: Topology, d: Dyn, v: nat, ps: seq<nat>, q: seq<nat>): (r: Scan)
    requires t.Valid() && Fits(t, d) && v < t.NodeCount()
    requires forall i :: 0 <= i < |ps| ==> t.OutputPort(ps[i], v)
    requires Downstream(t, q, v)
    ensures Fits(t, r.after)
    ensures d.corrupt ==> r.after.corrupt
    ensures Downstream(t, r.ready, v)
    decreases |ps|
  {
    if ps == [] then Scan(d, q)
    else
      var s := OutputStep(t, d, v, ps[0], q);
      ScanOutputs(t, s.after, v, ps[1..], s.ready)
  }

  /** spa_graph_scheduler_push on node v. */
  function Push(t: Topology, d: Dyn, v: nat): (r: Dyn)
    requires t.Valid() && Fits(t, d) && v < t.NodeCount()
    ensures Fits(t, r)
    ensures d.corrupt ==> r.corrupt
    decreases t.NodeCount() - t.rank[v], 2, 0
  {
    assert t.OutputsOk(v);
    var s := ScanOutputs(t, d, v, t.outputs[v], []);
    PushFinish(t, DrainPush(t, s.after, v, s.ready), v)
  }

  /** Drains the pushing node v's ready list in FIFO order. */
  function DrainPush(t: Topology, d: Dyn, v: nat, q: seq<nat>): (r: Dyn)
    requires t.Valid() && Fits(t, d) && v < t.NodeCount()
    requires Downstream(t, q, v)
    ensures Fits(t, r)
    ensures d.corrupt ==> r.corrupt
    decreases t.NodeCount() - t.rank[v], 1, |q|
  {
    if q == [] then d
    else DrainPush(t, PushEntry(t, d, v, q[0]), v, q[1..])
  }

  /** One entry n of v's ready list: n's process_input runs, its result is
      answered (PushReply), and n's link is then taken out of the list. */
  function PushEntry(t: Topology, d: Dyn, v: nat, n: nat): (r: Dyn)
    requires t.Valid() && Fits(t, d) && v < t.NodeCount()
    requires n < t.NodeCount() && t.rank[n] > t.rank[v]
    ensures Fits(t, r)
    ensures d.corrupt ==> r.corrupt
    decreases t.NodeCount() - t.rank[v], 0, 1
  {
    var d2 := PushReply(t, Activate(t, d, n, ProcessInput), v, n);
    d2.(linked := d2.linked[n := false])
  }

  /** What the result of n's process_input leads to: a node that has a
      buffer is pushed in turn; otherwise n's `ready_in` is reset and its OK
      input ports, unless n is ASYNC, are then counted on v's `ready_in` (as
      the code is written). */
  function PushReply(t: Topology, d: Dyn, v: nat, n: nat): (r: Dyn)
    requires t.Valid() && Fits(t, d) && v < t.NodeCount()
    requires n < t.NodeCount() && t.rank[n] > t.rank[v]
    ensures Fits(t, r)
    ensures d.corrupt ==> r.corrupt
    decreases t.NodeCount() - t.rank[v], 0, 0
  {
    if d.state[n] == HaveBuffer then Push(t, d, n)
    else
      var e := d.(readyIn := d.readyIn[n := 0]);
      e.(readyIn := e.readyIn[v := e.readyIn[v] + SyncOkInputs(t, e.io, n)])
  }

  /** The OK input ports of node n, counted only when n is not ASYNC: none
      for an ASYNC node, at most one per input port, and all of them when
      every input holds OK on a synchronous node. */
  function SyncOkInputs(t: Topology, io: seq<Status>, n: nat): (r: nat)
    requires t.Valid() && |io| == t.ioCount && n < t.NodeCount()
    ensures t.async[n] ==> r == 0
    ensures r <= |t.inputs[n]|
    ensures !t.async[n] && (forall i :: 0 <= i < |t.inputs[n]| ==> io[t.portIo[t.inputs[n][i]]] == Ok) ==>
      r == |t.inputs[n]|
  {
    NodePorts(t, n);
    CountStatusBounds(t, io, t.inputs[n], Ok);
    if t.async[n] then 0 else CountStatus(t, io, t.inputs[n], Ok)
  }

  /** The end of push as the code is written: v's process_output runs last;
      on NEED_BUFFER v's `ready_in` is reset and each OK linked input port
      adds one to its upstream peer node, unless `cursorAsync`, the ASYNC flag
      read through the list cursor after the drain loop, is set. */
  function PushFinishAsWritten(t: Topology, d: Dyn, v: nat, cursorAsync: bool): (r: Dyn)
    requires t.Valid() && Fits(t, d) && v < t.NodeCount()
    ensures Fits(t, r)
    ensures r.linked == d.linked && r.corrupt == d.corrupt
  {
    var d1 := Activate(t, d, v, ProcessOutput);
    NodePorts(t, v);
    if d1.state[v] == NeedBuffer then
      Feed(t, d1.(readyIn := d1.readyIn[v := 0]), t.inputs[v], Ok, cursorAsync)
    else d1
  }

  /** The end of push with the ASYNC test made on v itself. */
  function PushFinish(t: Topology, d: Dyn, v: nat): (r: Dyn)
    requires t.Valid() && Fits(t, d) && v < t.NodeCount()
    ensures Fits(t, r)
    ensures r.linked == d.linked && r.corrupt == d.corrupt
  {
    PushFinishAsWritten(t, d, v, t.async[v])
  }
}
