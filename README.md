# SPA graph scheduler and raw-audio format, in Dafny

This project models two pieces of the Simple Plugin API (SPA).

**The pull/push graph scheduler** (`spa/include/spa/graph-scheduler3.h`). Every node of a graph has:
- a `ready_in` counter, compared against its `required_in`;
- a `state`, the result of its last callback;
- a `ready_link`, which threads the node onto a local FIFO ready list.

Every port has an `io` whose `status` is one of OK, NEED_BUFFER, HAVE_BUFFER and others.

`pull(v)` sends demand upstream. It counts ready inputs, runs `process_output` on every upstream peer that asks for a buffer, recurses when such a peer needs a buffer itself, and finally calls `process_input` on v when all its required inputs are ready. `push(v)` sends supply downstream in the mirror-image way and ends with v's own `process_output`.

The model has three modules:
- `SchedulerModel` (scheduler_model.dfy) gives reference definitions on values. The graph's structure is a constant `Topology`; what changes is a `Dyn` value.
- `GraphScheduler` (scheduler.dfy) writes the scheduler as the C code runs. A `Graph` object holds the fields updated in place. The `Scheduler` methods loop over port lists, drain the ready list in FIFO order and recurse mid-loop. Each method is proved to end in exactly the state the reference definition gives.
- `SchedulerProps` (scheduler_props.dfy) proves what pull and push promise about those definitions, and so about the methods.

Node callbacks are an oracle, `respond(call, k)`, for the k-th callback of a run. A callback returns a result code and rewrites only the io statuses of the called node's own ports. An io cell may be shared by two linked ports, as an `io` field shared between the ends of a link is in SPA.

Pull and push recurse along links, so they terminate only on an acyclic graph. The `rank` of a node is the order that acyclicity gives: upstream peers have lower rank.

In C, inserting a `ready_link` that is already in a list corrupts the list. The model does not perform such an insert. It sets a sticky `corrupt` flag instead. Every property below holds on runs whose final state has `corrupt` false.

**The raw-audio format** (`spa/lib/audio-raw.c`). Module `AudioRaw` (audio_raw.dfy) contains:
- the constant tables: default info, format values, and the format, layout, flag and min/max ranges;
- the seven-entry property table, with each entry's unset-mask bit;
- `spa_audio_raw_format_init`;
- the branch structure of `spa_audio_raw_format_parse`.

The raw format record is a class that the two methods update in place. The property library that parse calls (`get_prop` and `spa_props_copy`) is not part of this model. Its answers are parameters of `Parse`.

## Model

| member | source | states |
|---|---|---|
| GraphScheduler.Scheduler.Init | spa/include/spa/graph-scheduler3.h:34-39 | the scheduler refers to the given graph and has no current node |
| GraphScheduler.Scheduler.Iterate | spa/include/spa/graph-scheduler3.h:128-131 | iterate always answers that there is nothing more to do |
| GraphScheduler.Scheduler.Pull | spa/include/spa/graph-scheduler3.h:73-126 | the graph ends in the state of `SchedulerModel.Pull`, so every pull property below holds of the in-place run |
| GraphScheduler.Scheduler.CollectDemand | spa/include/spa/graph-scheduler3.h:83-96 | the loop over v's input ports returns the ready list and leaves the counters that `ScanInputs` defines, starting from `ready_in` reset to 0 |
| GraphScheduler.Scheduler.DrainDemand | spa/include/spa/graph-scheduler3.h:98-111 | draining the ready list in FIFO order ends in the state of `DrainPull` |
| GraphScheduler.Scheduler.PullOne | spa/include/spa/graph-scheduler3.h:99-110 | one ready peer: process_output, then a recursive pull on NEED_BUFFER or a count of its HAVE_BUFFER outputs, then its link cleared, as `PullEntry` |
| GraphScheduler.Scheduler.Serve | spa/include/spa/graph-scheduler3.h:101-108 | the answer to a peer's process_output: a recursive pull when it needs a buffer, otherwise v gains one ready input per HAVE_BUFFER output port of the peer, as `PullReply` |
| GraphScheduler.Scheduler.Push | spa/include/spa/graph-scheduler3.h:134-186 | the graph ends in the state of `SchedulerModel.Push`, so every push property below holds of the in-place run |
| GraphScheduler.Scheduler.CollectSupply | spa/include/spa/graph-scheduler3.h:144-158 | the loop over v's output ports returns the ready list and leaves the counters that `ScanOutputs` defines |
| GraphScheduler.Scheduler.DrainSupply | spa/include/spa/graph-scheduler3.h:160-174 | draining the ready list in FIFO order ends in the state of `DrainPush` |
| GraphScheduler.Scheduler.PushOne | spa/include/spa/graph-scheduler3.h:161-173 | one ready peer: process_input, then a recursive push on HAVE_BUFFER or the refusal bookkeeping, then its link cleared, as `PushEntry` |
| GraphScheduler.Scheduler.Supply | spa/include/spa/graph-scheduler3.h:163-171 | the answer to a peer's process_input: a recursive push when it has a buffer, otherwise the refusal bookkeeping, as `PushReply` |
| GraphScheduler.Graph.Invoke | spa/include/spa/graph-scheduler3.h:99-99 | returns the callback's result and makes exactly `Activate`'s io writes and trace entry, leaving every `state` as it was; the caller (`PullOne`, `PushOne`, `Pull`, `Push`) stores the result in the node's `state` |
| GraphScheduler.Graph.CountInto | spa/include/spa/graph-scheduler3.h:104-107 | v's `ready_in` grows by the number of ports in the list whose own io holds the given status (by nothing when skipped), and nothing else changes |
| GraphScheduler.Graph.Satisfied | spa/include/spa/graph-scheduler3.h:104-107 | a peer that did not ask for a buffer adds to v's `ready_in` the number of its output ports whose io is HAVE_BUFFER, and nothing else changes |
| GraphScheduler.Graph.ScanInput | spa/include/spa/graph-scheduler3.h:85-95 | one input port of the pulled node leaves the ready list and state of `InputStep` |
| GraphScheduler.Graph.ScanOutput | spa/include/spa/graph-scheduler3.h:145-157 | one output port of the pushed node leaves the ready list and state of `OutputStep` |
| GraphScheduler.Graph.Refused | spa/include/spa/graph-scheduler3.h:165-171 | the refusing peer n's `ready_in` becomes 0, and the pushing node v (not n, as written) gains one per OK input port of n unless n is ASYNC |
| GraphScheduler.Graph.Feed | spa/include/spa/graph-scheduler3.h:117-123 | the loop that credits peers of ports holding a status leaves the state of `SchedulerModel.Feed` |
| SchedulerModel.ScanInputs | spa/include/spa/graph-scheduler3.h:84-96 | the pull scan queues only nodes strictly upstream of v, keeps the state's shape, and never clears a recorded corruption |
| SchedulerModel.ScanOutputs | spa/include/spa/graph-scheduler3.h:144-158 | the push scan queues only nodes strictly downstream of v, keeps the state's shape, and never clears a recorded corruption |
| SchedulerModel.InputStep | spa/include/spa/graph-scheduler3.h:85-95 | one port of the pull scan queues only a node strictly upstream of v, keeps the state's shape and never clears a recorded corruption |
| SchedulerModel.OutputStep | spa/include/spa/graph-scheduler3.h:145-157 | one port of the push scan queues only a node strictly downstream of v, keeps the state's shape and never clears a recorded corruption |
| SchedulerModel.Pull | spa/include/spa/graph-scheduler3.h:73-126 | reference definition of pull (reset, scan, drain, finish); its result keeps the state's shape and never clears a recorded corruption |
| SchedulerModel.DrainPull | spa/include/spa/graph-scheduler3.h:98-111 | reference definition of pull's FIFO drain; keeps the shape and any recorded corruption |
| SchedulerModel.PullEntry | spa/include/spa/graph-scheduler3.h:99-110 | reference definition of one drained peer of pull; keeps the shape and any recorded corruption |
| SchedulerModel.PullReply | spa/include/spa/graph-scheduler3.h:101-108 | reference definition of the answer to a drained peer's process_output; keeps the shape and any recorded corruption |
| SchedulerModel.PullFinish | spa/include/spa/graph-scheduler3.h:115-125 | reference definition of pull's gate and feed; never touches the links or the corruption flag |
| SchedulerModel.Push | spa/include/spa/graph-scheduler3.h:134-186 | reference definition of push (scan, drain, finish); keeps the state's shape and never clears a recorded corruption |
| SchedulerModel.DrainPush | spa/include/spa/graph-scheduler3.h:160-174 | reference definition of push's FIFO drain; keeps the shape and any recorded corruption |
| SchedulerModel.PushEntry | spa/include/spa/graph-scheduler3.h:161-173 | reference definition of one drained peer of push; keeps the shape and any recorded corruption |
| SchedulerModel.PushReply | spa/include/spa/graph-scheduler3.h:163-171 | reference definition of the answer to a drained peer's process_input; keeps the shape and any recorded corruption |
| SchedulerModel.PushFinishAsWritten | spa/include/spa/graph-scheduler3.h:176-185 | the end of push with the ASYNC test made on the flag read through the drain loop's cursor, a parameter; never touches the links or the corruption flag |
| SchedulerModel.PushFinish | spa/include/spa/graph-scheduler3.h:176-185 | the end of push with the ASYNC test made on the pushed node itself |
| SchedulerModel.Feed | spa/include/spa/graph-scheduler3.h:117-123 | crediting peers changes only `ready_in` |
| SchedulerModel.Activate | spa/include/spa/graph-scheduler3.h:99-99 | one callback on node n (as at lines 99, 116, 161 and 176): the call is appended to the trace, n's `state` becomes the callback's result and every other node's `state` is kept, counters, links and the corruption flag are untouched, and no io cell outside n's own ports changes |
| SchedulerModel.Enqueue | spa/include/spa/graph-scheduler3.h:92-92 | appending a node through its `ready_link` (as at lines 92 and 157): an unlinked node is appended and becomes linked; an already-linked node is not appended again and the corruption is recorded; no other node's link and nothing else changes |
| SchedulerModel.SyncOkInputs | spa/include/spa/graph-scheduler3.h:167-170 | the count credited when a peer refuses: none for an ASYNC peer, at most one per input port of the peer, and one for each when all its inputs hold OK |
| SchedulerModel.CountStatusBounds | spa/include/spa/graph-scheduler3.h:104-107 | a status count is at most one per port, is one per port when every port holds the status, and zero when none does |
| SchedulerModel.ApplyWrites | spa/include/spa/graph-scheduler3.h:99-99 | a callback's writes change only io cells of the called node's own ports |
| SchedulerProps.ScanInputsCounts | spa/include/spa/graph-scheduler3.h:84-96 | v's `ready_in` grows by exactly the number of linked inputs whose peer io is OK on a non-ASYNC peer; unlinked ports count nothing; io, states and callbacks are untouched |
| SchedulerProps.ScanInputsQueue | spa/include/spa/graph-scheduler3.h:91-92 | the ready list gets exactly the peers whose output io is NEED_BUFFER, in input-port order (unless a double insert was recorded) |
| SchedulerProps.InputStepEffect | spa/include/spa/graph-scheduler3.h:85-95 | one input port: io, states and callbacks untouched; v gains one ready input exactly for an OK peer output of a non-ASYNC peer; the list grows by the peer exactly for a NEED_BUFFER peer output (unless a double insert was recorded); the links stay exact |
| SchedulerProps.DrainPullCalls | spa/include/spa/graph-scheduler3.h:98-111 | draining calls process_output on every queued peer; every new callback is on a node strictly upstream of v; the trace only grows (the order of the calls is `DrainPullOrder`) |
| SchedulerProps.DrainPullOrder | spa/include/spa/graph-scheduler3.h:98-111 | the drain runs the queued peers' process_output in FIFO order, one entry after the other: there are increasing trace positions k_0 < k_1 < … with the call on q[j] at k_j, and no process_output of q[j] before k_j (on a run without double insert) |
| SchedulerProps.PullFresh | spa/include/spa/graph-scheduler3.h:73-126 | pull (with all the pulls it nests) calls process_output only on nodes whose `ready_link` was not in a list when it started, so it never reaches an entry still waiting in an enclosing ready list |
| SchedulerProps.DrainPullFresh | spa/include/spa/graph-scheduler3.h:98-111 | the drain's process_output calls avoid every node that was linked before the scan |
| SchedulerProps.PullEntryFresh | spa/include/spa/graph-scheduler3.h:99-110 | after its own process_output, a drained peer's entry calls process_output only on nodes not linked when the entry began |
| SchedulerProps.PullReplyFresh | spa/include/spa/graph-scheduler3.h:101-102 | the nested pull started by a NEED_BUFFER answer calls process_output only on nodes not linked when it began |
| SchedulerProps.PullServesInOrder | spa/include/spa/graph-scheduler3.h:84-111 | the peers of v's inputs whose output io is NEED_BUFFER get their process_output in input-port order, each first call before the next (on a run without double insert) |
| SchedulerProps.PullEntryCalls | spa/include/spa/graph-scheduler3.h:99-103 | a drained peer's first callback is its process_output; all callbacks it causes are on nodes upstream of v |
| SchedulerProps.PullReplyCalls | spa/include/spa/graph-scheduler3.h:101-102 | answering a peer's process_output only adds callbacks on nodes strictly upstream of v |
| SchedulerProps.PullCalls | spa/include/spa/graph-scheduler3.h:73-126 | every callback pull makes is on a node strictly upstream of v, except that v's process_input may be the very last |
| SchedulerProps.PullFinishGate | spa/include/spa/graph-scheduler3.h:115-125 | v's process_input is the one added call exactly when `required_in > 0 && ready_in == required_in`; otherwise nothing changes; on HAVE_BUFFER each HAVE_BUFFER output with a peer adds one to that peer node's `ready_in` |
| SchedulerProps.PullInputIff | spa/include/spa/graph-scheduler3.h:115-116 | pull calls v's process_input if and only if `required_in > 0` and the final `ready_in` equals `required_in`; so a node requiring no inputs never gets it |
| SchedulerProps.PullDemandFirst | spa/include/spa/graph-scheduler3.h:91-116 | for each input whose peer io is NEED_BUFFER, the peer's process_output is called before any process_input of v |
| SchedulerProps.PullServesPeer | spa/include/spa/graph-scheduler3.h:91-99 | the peer of every input whose peer io is NEED_BUFFER when pull starts gets a process_output call during that pull |
| SchedulerProps.PullWithoutDemand | spa/include/spa/graph-scheduler3.h:83-117 | with no NEED_BUFFER peer, pull only counts: `ready_in` ends as the number of OK inputs of non-ASYNC peers, and the only possible call is v's process_input |
| SchedulerProps.PullUnlinksAll | spa/include/spa/graph-scheduler3.h:109-110 | every node pull (or a nested pull) puts on a ready list is removed and unlinked before pull returns: the links end as they began |
| SchedulerProps.FeedCounts | spa/include/spa/graph-scheduler3.h:117-123 | crediting adds to each node exactly the number of listed ports holding the status whose peer port is on that node |
| SchedulerProps.ScanOutputsCounts | spa/include/spa/graph-scheduler3.h:144-152 | each node gains one ready input per linked output of v whose peer io is HAVE_BUFFER; io, states and callbacks are untouched |
| SchedulerProps.ScanOutputsQueue | spa/include/spa/graph-scheduler3.h:154-157 | the push scan only appends to the ready list, and only nodes with `required_in > 0` |
| SchedulerProps.ScanOutputsReady | spa/include/spa/graph-scheduler3.h:144-158 | the push scan appends exactly `ReadyPeers` in output-port order: for each linked output, its peer node, when that node's `ready_in`, after this port's possible increment, equals its non-zero `required_in`, whether or not this port incremented it (on a run without double insert) |
| SchedulerProps.OutputStepEffect | spa/include/spa/graph-scheduler3.h:145-157 | one output port: io, states and callbacks untouched; the counters become `CreditPeer`'s: each node gains one ready input exactly when it owns the port's peer and the peer io is HAVE_BUFFER; the links stay exact |
| SchedulerProps.OutputStepQueue | spa/include/spa/graph-scheduler3.h:154-157 | one output port: the list only grows, by nodes with `required_in > 0`, and (without double insert) by exactly the peer node when, after the credit, its `ready_in` equals its non-zero `required_in`, tested whether or not the credit happened |
| SchedulerProps.CreditPeerCounts | spa/include/spa/graph-scheduler3.h:150-151 | crediting one output port adds one to exactly the node owning its peer, when the peer io is HAVE_BUFFER |
| SchedulerProps.DrainPushCalls | spa/include/spa/graph-scheduler3.h:160-174 | draining calls process_input on every queued peer; every new callback is on a node strictly downstream of v; the trace only grows (the order of the calls is `DrainPushOrder`) |
| SchedulerProps.DrainPushOrder | spa/include/spa/graph-scheduler3.h:160-174 | the drain runs the queued peers' process_input in FIFO order, one entry after the other: increasing positions k_j with the call on q[j] at k_j and none on q[j] before it (on a run without double insert) |
| SchedulerProps.PushFresh | spa/include/spa/graph-scheduler3.h:134-186 | push (with all the pushes it nests) calls process_input only on nodes whose `ready_link` was not in a list when it started |
| SchedulerProps.DrainPushFresh | spa/include/spa/graph-scheduler3.h:160-174 | the drain's process_input calls avoid every node that was linked before the scan |
| SchedulerProps.PushEntryFresh | spa/include/spa/graph-scheduler3.h:161-173 | after its own process_input, a drained peer's entry calls process_input only on nodes not linked when the entry began |
| SchedulerProps.PushReplyFresh | spa/include/spa/graph-scheduler3.h:163-164 | the nested push started by a HAVE_BUFFER answer calls process_input only on nodes not linked when it began |
| SchedulerProps.PushServesInOrder | spa/include/spa/graph-scheduler3.h:144-174 | the peers that v's outputs make ready (`ReadyPeers`) get their process_input in output-port order, each first call before the next (on a run without double insert) |
| SchedulerProps.PushEntryCalls | spa/include/spa/graph-scheduler3.h:161-164 | a drained peer's first callback is its process_input; all callbacks it causes are on nodes downstream of v |
| SchedulerProps.PushReplyCalls | spa/include/spa/graph-scheduler3.h:163-164 | answering a peer's process_input only adds callbacks on nodes strictly downstream of v |
| SchedulerProps.PushCalls | spa/include/spa/graph-scheduler3.h:134-186 | push calls v's own process_output last; every earlier new callback is on a node strictly downstream of v, so push never calls v's process_input |
| SchedulerProps.PushFinishEffect | spa/include/spa/graph-scheduler3.h:176-185 | v's process_output is the one call added; on NEED_BUFFER v's `ready_in` becomes 0 and, unless v is ASYNC, each OK linked input of v adds one to its upstream peer node; otherwise the counters are untouched |
| SchedulerProps.PushUnlinksAll | spa/include/spa/graph-scheduler3.h:172-173 | every node push (or a nested push) puts on a ready list is removed and unlinked before push returns: the links end as they began |
| SchedulerProps.PushSourceToSink | spa/include/spa/graph-scheduler3.h:134-186 | pushing a source whose output holds a buffer, linked to a one-input sink: the sink becomes ready and gets process_input exactly once, then the source's process_output runs |
| SchedulerProps.PullSinkFromSource | spa/include/spa/graph-scheduler3.h:73-126 | pulling that sink while the source's output asks for a buffer: the source's process_output runs before the sink's process_input |
| SchedulerProps.PushFinishStaleCursor | spa/include/spa/graph-scheduler3.h:181-181 | with the flag read through the stale cursor set, the upstream peer of a synchronous node misses its ready input; the corrected end of push gives it |
| AudioRaw.DefaultInfo | spa/lib/audio-raw.c:28-35 | the defaults are native S16, no flags, interleaved, 44100 Hz, 2 channels, channel mask 0 |
| AudioRaw.FormatValues | spa/lib/audio-raw.c:37-75 | the format values table has 30 entries |
| AudioRaw.FormatValuesComplete | spa/lib/audio-raw.c:37-75 | the format values are every format of the enumeration except UNKNOWN and ENCODED, each exactly once |
| AudioRaw.FormatFormatRange | spa/lib/audio-raw.c:77-108 | the format range has one entry per format value |
| AudioRaw.FormatRangeMatchesValues | spa/lib/audio-raw.c:77-108 | range entry i refers to format value i, and its name and description are that format's name |
| AudioRaw.LayoutsRange | spa/lib/audio-raw.c:110-118 | the layout range has two entries |
| AudioRaw.FlagsRangeTable | spa/lib/audio-raw.c:120-128 | the flags range has two entries |
| AudioRaw.Uint32Range | spa/lib/audio-raw.c:130-136 | the min/max range has two entries |
| AudioRaw.RateAndChannelsRange | spa/lib/audio-raw.c:167-184 | rate and channels both use the min/max range from 1 to the largest 32-bit value |
| AudioRaw.RawFormatPropInfo | spa/lib/audio-raw.c:138-203 | the property table has seven entries |
| AudioRaw.UnsetBitsDistinct | spa/lib/audio-raw.c:138-203 | field property i owns unset bit `1 << i`, the six bits are pairwise disjoint, and the RAW_INFO entry's mask is all ones |
| AudioRaw.DefaultsInRange | spa/lib/audio-raw.c:138-193 | each field property defaults to its own field of the default info, and that default lies in its range: an entry of an enumeration or flags range, between min and max of a min/max range |
| AudioRaw.InitUnsetMask | spa/lib/audio-raw.c:214-214 | the init unset mask has bits 0, 2, 3 and 4 set (format, layout, rate, channels) and bits 1 and 5 (flags, channel mask) and every bit above 5 clear |
| AudioRaw.InitUnsetFields | spa/lib/audio-raw.c:214-214 | init's unset mask is the union of the format, layout, rate and channels bits, and excludes the flags and channel-mask bits |
| AudioRaw.RawFormat.Init | spa/lib/audio-raw.c:205-218 | init returns OK and sets audio/raw, the seven-entry property table with the generic accessors, the init unset mask and the default info |
| AudioRaw.RawFormat.Parse | spa/lib/audio-raw.c:220-252 | parsing a raw format's own format returns OK and changes nothing; a format that is not audio/raw gives INVALID_MEDIA_TYPE and changes nothing; otherwise the record is initialised, then a RAW_INFO value with a non-negative result, PTR type and the info's size is copied whole with OK, and anything else returns what the property copy does, starting from the defaults; the source format is never changed |

## Left out

- The scheduler's thin forwards (`spa_graph_node_scheduler_input`/`_output`, `spa_graph_port_scheduler_reuse_buffer`, spa/include/spa/graph-scheduler3.h:41-71) only call node implementations this model does not contain. The callbacks are the `respond` oracle instead.
- `debug` output, real-time and threading concerns, and the deferred completion of ASYNC nodes are not modelled. Only the ASYNC flag tests are.
- Intrusive-list link manipulation is not modelled. The ready list is a sequence, and `ready_link.next = NULL` is the `linked` flag being cleared.
- A second insert of an already-linked node corrupts the C list. The model records the corruption in the sticky `corrupt` flag and skips that insert. Properties are stated for runs that end without corruption.
- Line 169 of the scheduler increments the pushing node's `ready_in`, not the refusing peer's. Some descriptions of the scheduler say the peer is credited. The model follows the code.
- The end of push tests ASYNC through the stale loop cursor at line 181. The as-written definition takes the flag read there as a parameter. The scheduler itself uses the pushed node's own flag; see Findings.
- Termination relies on `rank`: the model assumes the graph is acyclic.
- spa/include/spa/graph.h, the node callbacks and `spa_node_*` are not part of this model.
- The property library (`spa_props_generic_get_prop`, `spa_props_generic_set_prop`, `spa_props_copy`) is not part of this model. Parse takes get_prop's reply and spa_props_copy's effect as parameters.
- Byte-level layout is modelled at record level:
  - `memcpy` is a record assignment;
  - `offsetof` is the `Field` a property is stored in;
  - `sizeof (SpaAudioRawInfo)` is the constant 24 (six 32-bit words).
- spa/audio/raw.h is not part of this model. Format, layout and flag values are datatype constructors, not their numeric codes. A flags word is a set of flags. Any flag bits beyond UNPOSITIONED are not represented.
- The native-endian alias S16 is taken for a little-endian host (`HostByteOrder`).
- The float formats' sample semantics are not modelled. They are enumeration values only.
- src/client/buffer.h and src/pipewire/module.h contain only declarations and are not part of this model.

## Findings

| source | as written | input that shows it | evidently intended | confidence | as-written member | corrected member |
|---|---|---|---|---|---|---|
| spa/include/spa/graph-scheduler3.h:181 | after the drain loop, the ASYNC test reads `n->flags`, where `n` is the loop cursor; once the loop has ended, `n` no longer names a node | a source linked to a synchronous sink whose input io is OK; push the sink, whose process_output returns NEED_BUFFER: the source should gain one ready input but gains none when the flag read through the cursor has the ASYNC bit set | test the pushed node's own ASYNC flag | not executed | SchedulerProps.PushFinishStaleCursor | SchedulerProps.PushFinishEffect |
