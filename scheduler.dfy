/** The graph scheduler of spa/include/spa/graph-scheduler3.h, written as the
    C code runs it: loops over port lists, a local ready list drained in FIFO
    order, recursion mid-loop, and in-place updates of the nodes' `ready_in`,
    `state` and `ready_link` and of the ports' io statuses. Each method is
    proved to end in the state given by the reference definitions of module
    SchedulerModel. */
module GraphScheduler {
  import opened SchedulerModel

  /** One graph: its fixed structure and the fields the scheduler and the
      node callbacks update. `trace` records the callbacks made on the
      nodes, in order. */
  class Graph {
    const topo: Topology
    var readyIn: seq<nat>
    var state: seq<Status>
    var io: seq<Status>
    var linked: seq<bool>
    var trace: seq<Call>
    var corrupt: bool

    function Snapshot(): Dyn
      reads this
    {
      Dyn(readyIn, state, io, linked, trace, corrupt)
    }

    ghost predicate Valid()
      reads this
    {
      topo.Valid() && Fits(topo, Snapshot())
    }

    /** An idle graph over topology t whose io cells hold `cells`. */
    constructor (t: Topology, cells: seq<Status>)
      requires t.Valid() && |cells| == t.ioCount
      ensures Valid() && topo == t && io == cells && trace == [] && !corrupt
      ensures forall n :: 0 <= n < t.NodeCount() ==> readyIn[n] == 0 && state[n] == Ok && !linked[n]
    {
      topo := t;
      readyIn := seq(|t.requiredIn|, _ => 0);
      state := seq(|t.requiredIn|, _ => Ok);
      io := cells;
      linked := seq(|t.requiredIn|, _ => false);
      trace := [];
      corrupt := false;
    }

    /** Node n's callback k (process_input or process_output): the node
        implementation returns a result code and may rewrite the io statuses
        of its own ports. */
    method Invoke(n: nat, k: Kind) returns (res: Status)
      requires Valid() && n < topo.NodeCount()
      modifies this
      ensures Valid()
      ensures state == old(state)
      ensures Snapshot().(state := state[n := res]) == Activate(topo, old(Snapshot()), n, k)
    {
      var reply := topo.respond(Call(k, n), |trace|);
      NodePorts(topo, n);
      io := ApplyWrites(topo, io, topo.inputs[n] + topo.outputs[n], reply.writes);
      trace := trace + [Call(k, n)];
      res := reply.result;
    }

    /** For each port of ps whose io is st, one more ready input of node v
        (none when skip). */
    method CountInto(v: nat, ps: seq<nat>, st: Status, skip: bool)
      requires Valid() && v < topo.NodeCount() && Ports(topo, ps)
      modifies this
      ensures Valid()
      ensures Snapshot() == old(Snapshot()).(readyIn := old(readyIn)[v := old(readyIn)[v] +
                (if skip then 0 else CountStatus(topo, old(io), ps, st))])
    {
      ghost var d0 := Snapshot();
      var k := 0;
      while k < |ps|
        invariant 0 <= k <= |ps|
        invariant Valid()
        invariant Snapshot() == d0.(readyIn := d0.readyIn[v := readyIn[v]])
        invariant readyIn[v] + (if skip then 0 else CountStatus(topo, io, ps[k..], st))
                  == d0.readyIn[v] + (if skip then 0 else CountStatus(topo, d0.io, ps, st))
      {
        assert ps[k..][1..] == ps[k + 1..];
        if io[topo.portIo[ps[k]]] == st && !skip {
          readyIn := readyIn[v := readyIn[v] + 1];
        }
        k := k + 1;
      }
    }

    /** An upstream peer n of v that did not ask for a buffer: n's
        HAVE_BUFFER output ports are counted on v's `ready_in`. */
    method Satisfied(v: nat, n: nat)
      requires Valid() && v < topo.NodeCount() && n < topo.NodeCount()
      modifies this
      ensures Valid()
      ensures Ports(topo, topo.outputs[n])
      ensures Snapshot() == old(Snapshot()).(readyIn := old(readyIn)[v := old(readyIn)[v] + CountStatus(topo, old(io), topo.outputs[n], HaveBuffer)])
    {
      NodePorts(topo, n);
      CountInto(v, topo.outputs[n], HaveBuffer, false);
    }

    /** A downstream peer n of v that did not produce: n's `ready_in` is
        reset, then n's OK input ports are counted on v's `ready_in`. */
    method Refused(v: nat, n: nat)
      requires Valid() && v < topo.NodeCount() && n < topo.NodeCount()
      modifies this
      ensures Valid()
      ensures var e := old(Snapshot()).(readyIn := old(readyIn)[n := 0]);
        Snapshot() == e.(readyIn := e.readyIn[v := e.readyIn[v] + SyncOkInputs(topo, e.io, n)])
    {
      readyIn := readyIn[n := 0];
      NodePorts(topo, n);
      CountInto(v, topo.inputs[n], Ok, topo.async[n]);
    }

    /** One input port p of the node v being pulled: a peer whose output io
        is NEED_BUFFER is appended to the ready list q, an OK output of a
        synchronous peer counts as a ready input of v. */
    method ScanInput(v: nat, p: nat, q: seq<nat>) returns (ready: seq<nat>)
      requires Valid() && v < topo.NodeCount() && topo.InputPort(p, v) && Upstream(topo, q, v)
      modifies this
      ensures Valid()
      ensures Scan(Snapshot(), ready) == InputStep(topo, old(Snapshot()), v, p, q)
    {
      ready := q;
      match topo.peer[p] {
        case None =>
        case Some(pp) =>
          var pn := topo.portNode[pp];
          var st := io[topo.portIo[pp]];
          if st == NeedBuffer {
            if linked[pn] {
              corrupt := true;
            } else {
              linked := linked[pn := true];
              ready := ready + [pn];
            }
          } else if st == Ok && !topo.async[pn] {
            readyIn := readyIn[v := readyIn[v] + 1];
          }
      }
    }

    /** One output port p of the node v being pushed: a HAVE_BUFFER peer
        input counts as one more ready input of the peer node, and a peer
        whose required inputs are then all ready is appended to q. */
    method ScanOutput(v: nat, p: nat, q: seq<nat>) returns (ready: seq<nat>)
      requires Valid() && v < topo.NodeCount() && topo.OutputPort(p, v) && Downstream(topo, q, v)
      modifies this
      ensures Valid()
      ensures Scan(Snapshot(), ready) == OutputStep(topo, old(Snapshot()), v, p, q)
    {
      ready := q;
      match topo.peer[p] {
        case None =>
        case Some(pp) =>
          var pn := topo.portNode[pp];
          if io[topo.portIo[pp]] == HaveBuffer {
            readyIn := readyIn[pn := readyIn[pn] + 1];
          }
          if topo.requiredIn[pn] > 0 && readyIn[pn] == topo.requiredIn[pn] {
            if linked[pn] {
              corrupt := true;
            } else {
              linked := linked[pn := true];
              ready := ready + [pn];
            }
          }
      }
    }

    /** For each port of ps whose io is st and that has a peer, one more
        ready input of the peer's node (none when skip). */
    method Feed(ps: seq<nat>, st: Status, skip: bool)
      requires Valid() && Ports(topo, ps)
      modifies this
      ensures Valid()
      ensures Snapshot() == SchedulerModel.Feed(topo, old(Snapshot()), ps, st, skip)
    {
      ghost var d0 := Snapshot();
      var k := 0;
      while k < |ps|
        invariant 0 <= k <= |ps|
        invariant Valid()
        invariant SchedulerModel.Feed(topo, Snapshot(), ps[k..], st, skip) == SchedulerModel.Feed(topo, d0, ps, st, skip)
      {
        var p := ps[k];
        if io[topo.portIo[p]] == st && !skip {
          match topo.peer[p] {
            case None =>
            case Some(pp) =>
              var m := topo.portNode[pp];
              readyIn := readyIn[m := readyIn[m] + 1];
          }
        }
        k := k + 1;
      }
    }
  }

  /** struct spa_graph_scheduler. */
  class Scheduler {
    var graph: Graph?
    var node: Option<nat>

    /** spa_graph_scheduler_init: attaches the graph, no current node. */
    constructor Init(g: Graph?)
      ensures graph == g && node == None
    {
      graph := g;
      node := None;
    }

    /** spa_graph_scheduler_iterate: this scheduler has no iterative mode. */
    method Iterate() returns (more: bool)
      ensures !more
    {
      more := false;
    }

    /** spa_graph_scheduler_pull on node v. */
    method Pull(v: nat)
      requires graph != null && graph.Valid() && v < graph.topo.NodeCount()
      modifies graph
      ensures graph.Valid()
      ensures graph.Snapshot() == SchedulerModel.Pull(graph.topo, old(graph.Snapshot()), v)
      decreases graph.topo.rank[v], 2, 0
    {
      var g := graph;
      var t := g.topo;
      g.readyIn := g.readyIn[v := 0];
      var ready := CollectDemand(v);
      DrainDemand(v, ready);
      if t.requiredIn[v] > 0 && g.readyIn[v] == t.requiredIn[v] {
        var res := g.Invoke(v, ProcessInput);
        g.state := g.state[v := res];
        if res == HaveBuffer {
          NodePorts(t, v);
          g.Feed(t.outputs[v], HaveBuffer, false);
        }
      }
    }

    /** The loop of pull over v's input ports: a peer whose output io is
        NEED_BUFFER is appended to the ready list, an OK output of a
        synchronous peer counts as a ready input of v. */
    method CollectDemand(v: nat) returns (ready: seq<nat>)
      requires graph != null && graph.Valid() && v < graph.topo.NodeCount()
      modifies graph
      ensures graph.Valid()
      ensures graph.topo.InputsOk(v)
      ensures Scan(graph.Snapshot(), ready) == ScanInputs(graph.topo, old(graph.Snapshot()), v, graph.topo.inputs[v], [])
    {
      var g := graph;
      var t := g.topo;
      ghost var d0 := g.Snapshot();
      var ports := t.inputs[v];
      assert t.InputsOk(v);
      ready := [];
      var i := 0;
      while i < |ports|
        invariant 0 <= i <= |ports|
        invariant g.Valid()
        invariant Upstream(t, ready, v)
        invariant ScanInputs(t, g.Snapshot(), v, ports[i..], ready) == ScanInputs(t, d0, v, ports, [])
      {
        var p := ports[i];
        assert t.InputPort(p, v);
        ready := g.ScanInput(v, p, ready);
        assert ports[i..][1..] == ports[i + 1..];
        i := i + 1;
      }
    }

    /** One entry n of pull's ready list. */
    method PullOne(v: nat, n: nat)
      requires graph != null && graph.Valid() && v < graph.topo.NodeCount()
      requires n < graph.topo.NodeCount() && graph.topo.rank[n] < graph.topo.rank[v]
      modifies graph
      ensures graph.Valid()
      ensures graph.Snapshot() == PullEntry(graph.topo, old(graph.Snapshot()), v, n)
      decreases graph.topo.rank[v], 0, 1
    {
      var g := graph;
      ghost var d0 := g.Snapshot();
      var res := g.Invoke(n, ProcessOutput);
      g.state := g.state[n := res];
      Serve(v, n);
      g.linked := g.linked[n := false];
    }

    /** What the result of n's process_output leads to: a peer that needs a
        buffer is pulled in turn, any other adds its HAVE_BUFFER output ports
        to v's `ready_in`. */
    method Serve(v: nat, n: nat)
      requires graph != null && graph.Valid() && v < graph.topo.NodeCount()
      requires n < graph.topo.NodeCount() && graph.topo.rank[n] < graph.topo.rank[v]
      modifies graph
      ensures graph.Valid()
      ensures graph.Snapshot() == PullReply(graph.topo, old(graph.Snapshot()), v, n)
      decreases graph.topo.rank[v], 0, 0
    {
      NodePorts(graph.topo, n);
      if graph.state[n] == NeedBuffer {
        Pull(n);
      } else {
        graph.Satisfied(v, n);
      }
    }

    /** The drain loop of pull: each ready peer's process_output runs; a peer
        that needs a buffer is pulled, any other adds its HAVE_BUFFER output
        ports to v's `ready_in`; the peer's link is then taken out. */
    method DrainDemand(v: nat, ready: seq<nat>)
      requires graph != null && graph.Valid() && v < graph.topo.NodeCount()
      requires Upstream(graph.topo, ready, v)
      modifies graph
      ensures graph.Valid()
      ensures graph.Snapshot() == DrainPull(graph.topo, old(graph.Snapshot()), v, ready)
      decreases graph.topo.rank[v], 1, 0
    {
      var g := graph;
      var t := g.topo;
      ghost var d0 := g.Snapshot();
      var j := 0;
      while j < |ready|
        invariant 0 <= j <= |ready|
        invariant g.Valid()
        invariant DrainPull(t, g.Snapshot(), v, ready[j..]) == DrainPull(t, d0, v, ready)
      {
        var n := ready[j];
        assert ready[j..] == [n] + ready[j + 1..];
        PullOne(v, n);
        j := j + 1;
      }
    }

    /** spa_graph_scheduler_push on node v. */
    method Push(v: nat)
      requires graph != null && graph.Valid() && v < graph.topo.NodeCount()
      modifies graph
      ensures graph.Valid()
      ensures graph.Snapshot() == SchedulerModel.Push(graph.topo, old(graph.Snapshot()), v)
      decreases graph.topo.NodeCount() - graph.topo.rank[v], 2, 0
    {
      var g := graph;
      var t := g.topo;
      var ready := CollectSupply(v);
      DrainSupply(v, ready);
      var res := g.Invoke(v, ProcessOutput);
      g.state := g.state[v := res];
      if res == NeedBuffer {
        g.readyIn := g.readyIn[v := 0];
        NodePorts(t, v);
        g.Feed(t.inputs[v], Ok, t.async[v]);
      }
    }

    /** The loop of push over v's output ports: a HAVE_BUFFER peer input is
        one more ready input of the peer node, and a peer whose required
        inputs are all ready is appended to the ready list. */
    method CollectSupply(v: nat) returns (ready: seq<nat>)
      requires graph != null && graph.Valid() && v < graph.topo.NodeCount()
      modifies graph
      ensures graph.Valid()
      ensures graph.topo.OutputsOk(v)
      ensures Scan(graph.Snapshot(), ready) == ScanOutputs(graph.topo, old(graph.Snapshot()), v, graph.topo.outputs[v], [])
    {
      var g := graph;
      var t := g.topo;
      ghost var d0 := g.Snapshot();
      var ports := t.outputs[v];
      assert t.OutputsOk(v);
      ready := [];
      var i := 0;
      while i < |ports|
        invariant 0 <= i <= |ports|
        invariant g.Valid()
        invariant Downstream(t, ready, v)
        invariant ScanOutputs(t, g.Snapshot(), v, ports[i..], ready) == ScanOutputs(t, d0, v, ports, [])
      {
        var p := ports[i];
        assert t.OutputPort(p, v);
        ready := g.ScanOutput(v, p, ready);
        assert ports[i..][1..] == ports[i + 1..];
        i := i + 1;
      }
    }

    /** The drain loop of push. */
    method DrainSupply(v: nat, ready: seq<nat>)
      requires graph != null && graph.Valid() && v < graph.topo.NodeCount()
      requires Downstream(graph.topo, ready, v)
      modifies graph
      ensures graph.Valid()
      ensures graph.Snapshot() == DrainPush(graph.topo, old(graph.Snapshot()), v, ready)
      decreases graph.topo.NodeCount() - graph.topo.rank[v], 1, 0
    {
      var g := graph;
      var t := g.topo;
      ghost var d0 := g.Snapshot();
      var j := 0;
      while j < |ready|
        invariant 0 <= j <= |ready|
        invariant g.Valid()
        invariant DrainPush(t, g.Snapshot(), v, ready[j..]) == DrainPush(t, d0, v, ready)
      {
        var n := ready[j];
        assert ready[j..] == [n] + ready[j + 1..];
        PushOne(v, n);
        j := j + 1;
      }
    }

    /** One entry n of push's ready list: n's process_input runs; a peer that
        has a buffer is pushed; any other has its `ready_in` reset and its OK
        input ports counted on v's `ready_in`, as the code is written; the
        peer's link is then taken out. */
    method PushOne(v: nat, n: nat)
      requires graph != null && graph.Valid() && v < graph.topo.NodeCount()
      requires n < graph.topo.NodeCount() && graph.topo.rank[n] > graph.topo.rank[v]
      modifies graph
      ensures graph.Valid()
      ensures graph.Snapshot() == PushEntry(graph.topo, old(graph.Snapshot()), v, n)
      decreases graph.topo.NodeCount() - graph.topo.rank[v], 0, 1
    {
      var g := graph;
      var res := g.Invoke(n, ProcessInput);
      g.state := g.state[n := res];
      Supply(v, n);
      g.linked := g.linked[n := false];
    }

    /** What the result of n's process_input leads to: a node that has a
        buffer is pushed in turn; otherwise n's `ready_in` is reset and its
        OK input ports are counted on v's `ready_in`. */
    method Supply(v: nat, n: nat)
      requires graph != null && graph.Valid() && v < graph.topo.NodeCount()
      requires n < graph.topo.NodeCount() && graph.topo.rank[n] > graph.topo.rank[v]
      modifies graph
      ensures graph.Valid()
      ensures graph.Snapshot() == PushReply(graph.topo, old(graph.Snapshot()), v, n)
      decreases graph.topo.NodeCount() - graph.topo.rank[v], 0, 0
    {
      if graph.state[n] == HaveBuffer {
        Push(n);
      } else {
        graph.Refused(v, n);
      }
    }
  }
}
