# Verified model of the video pipeline's algorithms and protocols

The repository receives video over RTSP, runs inference on its frames, encodes them and
sends them on, under a supervisor with a web front end. This project models the parts of
it that carry invariants: the jitter buffer of the receive stage, the process event
broker, the sender (Annex-B scan, mux and reconnect loop, supervision of the worker), the
NV12 timestamp painter, the frame loop with hot reload and packet extraction, the
asynchronous inference-result queue, the log hand-off of a stream process, and the
connection callbacks and statuses of the supervisor.

Code that changes state step by step is a class or a method with loops, proved against a
function; the laws are lemmas about that function. Code shared by threads or processes is
a step system in which every shared access or critical section is one step; the laws hold
in every state of every run (`IsRun`), that is, in every interleaving.

| files | component |
|---|---|
| `JitterOrder`, `JitterHeap`, `JitterTheorems`, `Receive` | receive stage |
| `EventBroker`, `EventBrokerProtocol`, `EventOrder` | process event broker |
| `AnnexB`, `SendWorker`, `SendTheorems`, `Sender`, `SenderProtocol` | sender |
| `Timestamp` | timestamp painter |
| `FrameLoop`, `LiveModel`, `EncodedBytes` | frame loop, hot reload, packet extraction |
| `InferQueue` | inference-result queue |
| `LogHandoff` (two modules) | log hand-off |
| `StreamConnection`, `Supervisor`, `ConnectionProtocol`, `StatusEvents` | connections and statuses |
| `Options`, `BoundedQueue`, `Counting` | shared helpers |

What is an input of the model: packets, clock readings, the outcomes of opening and muxing
a connection, the order in which threads take their steps, the moments at which copies
complete, the contents of a file over time, and the outcomes of the model's callback.

## What the code does not promise

Each of these is proved, with a concrete run or input or with the exact condition; the
last item is part of the contracts of `Receiver.Run` and `DrawTimestamp`.

- Output order of the jitter buffer: the releases form a prefix of the stable sort if and
  only if each packet arrives after at most k packets with a larger timestamp
  (`ReleasesSortIffFewLarger`); `TooFarOutOfOrder` is an input on which they do not.
  Disorder bounded by the buffer size is enough.
- Two publishers of one process id: the broker may deliver their events in the other
  order than it recorded them (`TwoPublishersCanSwap`); nothing is lost or doubled. For
  events that are all different the order is kept if and only if, for each queue, the
  oldest publish call is scheduled first (`OrderIffOldestFirst`).
- The Annex-B scan looks at every second start code of a chain in which each begins at the
  header byte of the one before. It overlooks the IDR headers of an access unit exactly
  when each is behind a start code that ends a chain of even length (`IsIdrKeyframe`,
  `AdjacentStartCodesHideIdr`); on framed streams of well-formed NAL units it is exact.
- A `start` that enters its critical section after `stop` has left its own leaves a worker
  running; `LaunchAfterStopIffLateStart` shows that this is the only way a worker is
  launched after a `stop` that returned. A `stop` raises, and leaves the worker alone, if
  and only if it joins the monitor thread at a moment at which `start` has created it and
  not yet started it (`StopRaisesIffJoinedUnstarted`, `StopCanRaise`); called after `start`
  has returned it never raises (`StopAfterStartStops`).
- The monitor reads the heartbeat and kills in separate steps, and a worker muxes and
  writes the heartbeat in separate steps: a worker can be killed right after a mux, whether
  or not it has written the heartbeat (`MonitorCanKillAfterMux`,
  `MonitorCanKillBeforeWrite`). `MonitorKillsStalledOnly` says exactly when this happens; a
  kill is never sooner than the timeout after the start.
- Hot reload adopts content that was not observed if the file at the load is another one
  than at both stats (`VanishingFileIsAdopted`, `ReplacedDuringLoadIsAdopted`). A content
  that is replaced during the refresh that first observes it, and then comes back with its
  revision, is never loaded (`ReturningContentIsMissed`); `ConvergesIffNotMissed` is the
  exact condition for one schedule of refreshes, and `AlwaysConvergesIffNotBack` says for
  which file histories every schedule converges.
- An inference result that the result queue rejects is counted as a success and as a
  failure (`OutcomesAddUp`).
- A list under a preferred key that does not convert hides byte strings beside it
  (`PreferredListHidesBytes`); `SucceedsIffReachable` is the condition without that
  restriction.
- Results whose copies complete in submission order, but during a pass of the worker, can
  be published out of order (`LateReadinessSwaps`); `OrderKeptIffNoOvertaking` is the
  exact condition.
- A connection whose closed callback looks for it in the children map before it is
  registered stays there when it is dead (`DeadChildStays`, `ChildIsLatest`).
- Status events are published outside the lock and can come in the other order than the
  changes they report (`EventsCanSwap`); `StatusOrderIffNoOvertaking` is the exact
  condition.
- After a connection that ends without an error the input status stays "connected" until
  the next attempt fails (`StatusAfter`). A text with a character that has no glyph is
  drawn up to that character before the error. A font size that is infinite raises an
  error that the parameter validation does not catch.

## Model

| member | source | states |
|---|---|---|
| JitterTheorems.BoundedDisorderSorts | src/nvidia_pipe/receive.py:137-150 | for every buffer size k and every input in which packets are overtaken only by packets arriving at most k places later, the released packets are at every moment exactly the first n-k of the stable sort, and the held ones its rest |
| JitterTheorems.ReleasesSortIffFewLarger | src/nvidia_pipe/receive.py:144-150 | on arbitrary input, told from the arriving timestamps alone: the releases are a prefix of the stable sort if and only if each packet arrives after at most k packets with a larger timestamp |
| JitterTheorems.TooFarOutOfOrder | src/nvidia_pipe/receive.py:144-150 | three packets that a buffer of size 1 releases out of order |
| JitterTheorems.BoundedDisorderNeverLate | src/nvidia_pipe/receive.py:144-150 | under bounded disorder no packet arrives behind a released one (pigeonhole over the packets still held) |
| JitterTheorems.BoundedDelay | src/nvidia_pipe/receive.py:144-150 | under bounded disorder the packet that arrives at position i is out once 2k more have arrived |
| JitterTheorems.ReleaseOnArrival | src/nvidia_pipe/receive.py:149-150 | the m-th release happens exactly on arrival m+k and is never changed later |
| JitterTheorems.Conservation | src/nvidia_pipe/receive.py:89-150 | released plus held packets are the accepted ones as a multiset, at every moment |
| JitterTheorems.KeysDistinct | src/nvidia_pipe/receive.py:144-148 | no two entries of a run share an arrival number, so heap keys are never equal and packets are never compared |
| JitterTheorems.ZeroSizeIsPassThrough | src/nvidia_pipe/receive.py:140-142 | the shortcut for size 0 agrees with the general path at k = 0 |
| JitterOrder.StableSortIsStable | src/nvidia_pipe/receive.py:144-148 | along the sort timestamps do not decrease, equal timestamps leave in arrival order, and every entry is an arrival |
| JitterOrder.SortedUnique | src/nvidia_pipe/receive.py:144-150 | key order determines the sequence: two ordered sequences with the same entries are equal |
| JitterHeap.Heap.Push | src/nvidia_pipe/receive.py:144-147 | the array-ordered heap keeps its order and holds the inserted entry in addition |
| JitterHeap.Heap.Pop | src/nvidia_pipe/receive.py:149-150 | removes exactly the entry with the least (pts, arrival) key and restores the heap order |
| JitterHeap.RootIsMinimum | src/nvidia_pipe/receive.py:150 | the first slot of a heap is the first entry in key order |
| JitterHeap.SiftDown | src/nvidia_pipe/receive.py:144-147 | sifting an appended entry towards the root restores the heap order and keeps the entries |
| JitterHeap.SiftUp | src/nvidia_pipe/receive.py:150 | sifting a replaced root down along the smaller children and back restores the heap order and keeps the entries |
| Receive.Receiver.Demux | src/nvidia_pipe/receive.py:89-150 | the demux loop with its heap emits what the buffer model releases for the accepted packets, adds their anomalies to the counter and moves the window as specified; AcceptedAreTheTimestamped says which packets those are |
| Receive.Receiver.Run | src/nvidia_pipe/receive.py:60-162 | over any sequence of connection outcomes: emissions, counter, window and status, ending early only at an unsupported codec, with every opened connection closed |
| Receive.AcceptedAreTheTimestamped | src/nvidia_pipe/receive.py:93-120 | the accepted packets correspond one to one and in order to exactly the items with a pts and a dts; each carries that item's timestamps, key flag and data, the codec, and the item's duration if it is the first, else the clamped difference of the timestamps |
| Receive.UnbufferedHandsOnTheTimestamped | src/nvidia_pipe/receive.py:93-142 | without a buffer a connection hands on exactly those, in order |
| Receive.HandsOnAccepted | src/nvidia_pipe/receive.py:144-150 | with a buffer of any size it hands on accepted packets, none twice |
| Receive.ConnectionsFollowEachOther | src/nvidia_pipe/receive.py:60-162 | over a run what each connection handed on stands as a whole behind all that earlier ones did |
| Receive.Receiver.Observe | src/nvidia_pipe/receive.py:111-135 | the clamped duration, the counter, and the anomaly window: once the interval is over a nonzero count is logged and reset, and the next interval ends 5 seconds later |
| Receive.AnomaliesAreLoggedOrPending | src/nvidia_pipe/receive.py:115-135 | over any run the anomalies are the sum of all logged counts plus the current window |
| Receive.WarningsAreSpaced | src/nvidia_pipe/receive.py:124-135 | every warning counts at least one anomaly and warnings are at least one interval apart |
| Receive.DurationsTelescope | src/nvidia_pipe/receive.py:111-118 | durations after the first packet sum to last pts - first pts plus the total backward movement |
| Receive.BoundedLoss | src/nvidia_pipe/receive.py:89-91 | a connection hands on all but at most k of its accepted packets |
| Receive.ReleasedIsSortedPrefix | src/nvidia_pipe/receive.py:89-150 | per connection, under bounded disorder: what is handed on is the first n-k of the stable sort |
| EventBroker.ProcessEventBroker.Subscribe | src/conductor/web/process_event_broker.py:39-54 | under the lock: binds the loop, registers the queue and takes the history; refuses without any change if and only if it is bound to another loop |
| EventBroker.ProcessEventBroker.Unsubscribe | src/conductor/web/process_event_broker.py:56-67 | removes one membership and keeps no empty subscriber set |
| EventBroker.ProcessEventBroker.Publish | src/conductor/web/process_event_broker.py:69-79 | appends to the bounded history of that process id only and returns its subscribers; ignores events without a process id |
| EventBroker.SubscribersAfter | src/conductor/web/process_event_broker.py:49-67 | subscribing and unsubscribing change exactly one membership of one process id |
| EventBroker.PutLatestCallback | src/conductor/web/process_event_broker.py:94-104 | the callback's put never finds the queue full; the queue drops only its head |
| EventBrokerProtocol.SubscribeAcceptedIffSameLoop | src/conductor/web/process_event_broker.py:43-50 | in every run a subscribe call adds its queue to the subscriptions and to the live subscribers of its process id if and only if it runs on the loop of the run's first subscribe call |
| EventBrokerProtocol.EveryPublishCounts | src/conductor/web/process_event_broker.py:69-77 | the published events that subscribers are due are those of all publish calls with a process id, in order |
| EventBrokerProtocol.ReplayThenLive | src/conductor/web/process_event_broker.py:49-54 | a run in which an event published during a replay reaches the subscriber behind the replayed one |
| EventBrokerProtocol.RunLosesNothing | src/conductor/web/process_event_broker.py:39-104 | with any number of publishers, at every moment and for every subscriber: put, to be replayed, pending and unscheduled events are as a multiset the last min(s, N) events before the subscription and every later one of that process id until it ends |
| EventBrokerProtocol.OnePublisherHandOver | src/conductor/web/process_event_broker.py:39-104 | with one publisher per process id the same holds as a sequence: no gap, no duplicate, in order |
| EventBrokerProtocol.OldestFirstRunIsOrdered | src/conductor/web/process_event_broker.py:81-82 | order holds in every run in which each queue's oldest unscheduled event is scheduled first |
| EventBrokerProtocol.QuietMeansDelivered | src/conductor/web/process_event_broker.py:81-104 | with any number of publishers: when nothing is under way, the subscriber has been put exactly the events it is due, each as often as due and in publication order if order is kept, and its queue is a suffix of what was put |
| EventBrokerProtocol.InvStep | src/conductor/web/process_event_broker.py:39-104 | every step keeps: the history is the last N events per process id, queues are bounded suffixes of what was put, the replay never overflows, events go only to queues of their process id |
| EventBrokerProtocol.TwoPublishersCanSwap | src/conductor/web/process_event_broker.py:74-82 | a run in which a subscriber is sent the later of two publishers' events first |
| EventOrder.OrderIffOldestFirst | src/conductor/web/process_event_broker.py:69-82 | for events that are all different, at every moment of every run: everything due to the subscribers is in publication order if and only if every step so far scheduled, for its queue, the oldest publish call first |
| EventOrder.RunStaysOutOfTurn | src/conductor/web/process_event_broker.py:81-104 | an event scheduled out of turn stays in the wrong place for good |
| AnnexB.IsIdrKeyframe | src/nvidia_pipe/send.py:19-48 | the scan terminates on arbitrary bytes; true implies a start code with an IDR header, and it is false although there is one exactly when each of them ends a chain of an even number of start codes |
| AnnexB.ChainLengthIs | src/nvidia_pipe/send.py:28-46 | the chain ending at p has n start codes if and only if there are start codes at p, p-3, ..., p-3(n-1) and none at p-3n |
| AnnexB.NoChainsComplete | src/nvidia_pipe/send.py:25-48 | the answer is exact on all bytes in which no start code begins at the header byte of another |
| AnnexB.StartCodesAreFraming | src/nvidia_pipe/send.py:28-31 | the start codes of a framed list of well-formed NAL units are exactly those put before the units |
| AnnexB.FramedDetection | src/nvidia_pipe/send.py:19-48 | on every framed list of well-formed NAL units the answer is true if and only if some unit has type 5 (H.264) or 19 or 20 (HEVC) |
| AnnexB.FramedDetectionByType | src/nvidia_pipe/send.py:19-48 | the same in numbers: some unit's first byte modulo 32 is 5 (H.264), or half of it modulo 64 is 19 or 20 (HEVC); never for another codec |
| AnnexB.IdrHeaderIsType | src/nvidia_pipe/send.py:37-45 | for every header byte and codec, which numbers are an IDR type |
| AnnexB.CodecNames | src/nvidia_pipe/send.py:21-23 | which codec names count, in upper or lower case |
| AnnexB.AdjacentStartCodesHideIdr | src/nvidia_pipe/send.py:28-46 | bytes with an IDR header that the scan does not find |
| SendWorker.Send | src/nvidia_pipe/send.py:174-280 | the two nested loops over the packets taken from the queue compute the specified run: slices, fates, closes, announcements and packets taken; no container is left open; if a packet was muxed, success is set, awaiting is cleared and the heartbeat is the time of the last attempt that muxed, and otherwise the shared values are unchanged |
| SendTheorems.SlicesStartAtKeyframes | src/nvidia_pipe/send.py:223-280 | for every packet sequence and failure pattern: each connection carries a contiguous slice that starts at a keyframe, slices are disjoint and in order, at most one container is open |
| SendTheorems.NoKeyframeLost | src/nvidia_pipe/send.py:174-277 | of the packets taken, at most the last has no fate, the one in hand when shutdown is set; every other was muxed on exactly one connection or is a discarded non-keyframe |
| SendTheorems.MuxedOnce | src/nvidia_pipe/send.py:249-267 | no packet is muxed twice on one connection |
| SendTheorems.DiscardedOnlyWhileDown | src/nvidia_pipe/send.py:226-228 | a packet is discarded only while every opened container has been closed |
| SendTheorems.AttemptMuxesIff | src/nvidia_pipe/send.py:225-277 | an attempt muxes the packet in hand if and only if it can mux and a connection is up, or the packet is a keyframe and the attempt can open one; it discards it if and only if no connection is up and it is no keyframe; otherwise it stays in hand |
| SendTheorems.ConnectionsStartWithIdr | src/nvidia_pipe/cli.py:469-477 | with flags set by the scan, the first access unit of every connection contains an IDR NAL unit |
| SendTheorems.AnnouncedOncePerConnection | src/nvidia_pipe/send.py:259-261 | success is logged once for each connection that carried a packet and for no other |
| SendTheorems.HealthyRun | src/nvidia_pipe/send.py:223-267 | if every attempt succeeds, everything from the first keyframe on goes out in order on one connection |
| Sender.Sender.MonitorRound | src/nvidia_pipe/send.py:116-130 | a dead or stalled worker is stopped and, unless stop was requested, replaced by exactly one new one; otherwise nothing changes |
| Sender.RoundReplaces | src/nvidia_pipe/send.py:116-130 | told from the fields alone: a round replaces the worker if and only if it is dead or its heartbeat is as old as the timeout, and no stop was requested |
| Sender.DeadWorkerIsReplaced | src/nvidia_pipe/send.py:116-130 | a run in which the monitor replaces a worker that died |
| Sender.Sender.StartProcess | src/nvidia_pipe/send.py:132-149 | the heartbeat is now, the awaiting flag is set, and the new process is the only live worker |
| Sender.Sender.StopProcess | src/nvidia_pipe/send.py:151-171 | no worker is alive and the handle is dropped |
| Sender.Sender.ConnectionStatus | src/nvidia_pipe/send.py:103-114 | the four conditions of "connected" on one snapshot |
| Sender.MonitorSectionIsRound | src/nvidia_pipe/send.py:118-130 | the monitor's operations of the step system, uninterrupted, have the effect of the method |
| Sender.StopSectionIsStop | src/nvidia_pipe/send.py:97-98 | the same for the critical section of stop |
| SenderProtocol.AtMostOneWorker | src/nvidia_pipe/send.py:71-171 | in every interleaving of start, monitor and stop at most one worker process is alive, and it is the one in the process field |
| SenderProtocol.StopIsFinal | src/nvidia_pipe/send.py:92-101 | once stop has returned, no worker is alive and none is created or launched again, also when the monitor's join timed out in the middle of a restart; start must have entered its section before |
| SenderProtocol.StopRaisesIffJoinedUnstarted | src/nvidia_pipe/send.py:75-95 | in every run stop raises if and only if it joins the monitor thread while start has created and not yet started it |
| SenderProtocol.StopLeavesWorkerIffJoinedUnstarted | src/nvidia_pipe/send.py:71-101 | after stop has ended, with start before it, the process field still holds the worker if and only if that happened |
| SenderProtocol.StopAfterStartStops | src/nvidia_pipe/send.py:71-101 | a stop that is called after start has returned never raises, and when it returns no worker is alive |
| SenderProtocol.StopCanRaise | src/nvidia_pipe/send.py:75-95 | a run in which stop joins a monitor thread that is not started, raises, and the worker stays alive |
| SenderProtocol.LaunchAfterStopIffLateStart | src/nvidia_pipe/send.py:71-98 | a worker is launched after stop exactly when start entered its section after stop had left its own |
| SenderProtocol.LateStartLeavesWorker | src/nvidia_pipe/send.py:71-98 | a run in which that happens |
| SenderProtocol.MonitorKillsStalledOnly | src/nvidia_pipe/send.py:116-130 | the monitor kills a live worker no sooner than the timeout after its start; it kills one that muxed less than the timeout ago if and only if, at the kill, the heartbeat is fresh again or the worker has yet to write the heartbeat of a mux that recent |
| SenderProtocol.MonitorGivesEachWorkerItsTime | src/nvidia_pipe/send.py:116-149 | by the clock alone: every worker that the monitor kills was begun by a step of the run, and is killed no sooner than the timeout after that step |
| SenderProtocol.MonitorCanKillAfterMux | src/nvidia_pipe/send.py:122-128 | a run with such an early kill after the heartbeat of the mux was written |
| SenderProtocol.MonitorCanKillBeforeWrite | src/nvidia_pipe/send.py:257-263 | a run with such an early kill between the mux and the write of its heartbeat |
| SenderProtocol.HeartbeatIsCurrentMux | src/nvidia_pipe/send.py:132-149 | write by write: process set and not awaiting imply that success is set and the heartbeat is the time of the current worker's last recorded mux, which is its last mux unless it has yet to write a later one |
| SenderProtocol.MuxAndWrites | src/nvidia_pipe/send.py:257-265 | a mux and its three shared writes: heartbeat, then success, then awaiting, and what each leaves |
| SenderProtocol.ConnectedMeansRecentMux | src/nvidia_pipe/send.py:103-114 | a snapshot "connected" means that the current worker is alive and muxed less than the timeout ago; for a live worker that is not between a mux and its shared writes the converse holds too; and in every state the last recorded mux decides |
| Timestamp.DrawTimestamp | examples/timestamp.py:45-94 | the refused formats and shapes; otherwise every byte of the buffer after drawing, pixel by pixel, or the partial picture before a character without a glyph |
| Timestamp.DrawText | examples/timestamp.py:76-92 | the nested loops paint exactly the picture of the known prefix; all other bytes, padding included, are unchanged |
| Timestamp.DrawCell | examples/timestamp.py:79-91 | one set bit: its luma rectangle and the chroma pairs of the blocks it meets, nothing else |
| Timestamp.PaintedIsPicture | examples/timestamp.py:76-92 | the rectangles painted one after another are the picture defined per pixel |
| Timestamp.ConfiguredColours | examples/timestamp.py:35-42 | valid configured values: Y on set pixels, U on even and V on odd columns of the chroma rows |
| Timestamp.GlyphsDiffer | examples/timestamp.py:5-19 | different characters have different glyphs |
| Timestamp.CoveredIsOnPixel | examples/timestamp.py:79-84 | the luma rectangles cover a pixel if and only if it lies in an on cell |
| Timestamp.ChromaIsOnBlock | examples/timestamp.py:86-91 | a chroma pair is written if and only if its 2x2 block contains an on pixel |
| Timestamp.BoxWithinMarginsIffFits | examples/timestamp.py:62-73 | the text box keeps the 8-pixel margins if and only if width-16 >= 4*len and height-16 >= 5 |
| Timestamp.LayoutIsLargestAndRightAligned | examples/timestamp.py:62-73 | the scale is the largest requested one that fits, or 1 if none does, and the text ends 8 pixels before the right edge, or starts at 8 if it is too wide |
| Timestamp.FittingTextStaysInside | examples/timestamp.py:62-84 | for fitting text every written luma pixel lies within the margins |
| FrameLoop.Counters.ProcessedFrames | src/nvidia_pipe/cli.py:420-464 | the loop's outputs, frame index and counters for every pattern of callback outcomes |
| FrameLoop.SuccessesAreCeil | src/nvidia_pipe/cli.py:431-450 | successes = ceil(frame_index / N) at every step, where frame_index = received - callback exceptions |
| FrameLoop.FailedAttemptIsRetried | src/nvidia_pipe/cli.py:431-464 | a failed attempt is retried on every following frame until a call does not raise |
| FrameLoop.OutcomesAddUp | src/nvidia_pipe/cli.py:446-464 | successes plus failures exceed the attempts by the rejected results |
| FrameLoop.OneOutputPerFrame | src/nvidia_pipe/cli.py:426-464 | every frame but those answered with None is handed on exactly once and in order |
| FrameLoop.ProcessedIffReturned | src/nvidia_pipe/cli.py:451-464 | what is handed on is the model's frame if and only if the call returned one whose result was not rejected, else the received frame |
| LiveModel.LiveModel.Refresh | src/nvidia_pipe/cli.py:193-214 | an unchanged first stat keeps everything; otherwise that revision becomes the observed one, and module and flag are replaced exactly if the loaded content has a callable on_frame and the second stat agrees with the first |
| LiveModel.AlwaysValid | src/nvidia_pipe/cli.py:193-214 | the active module is always fully checked content and the signature flag is its own |
| LiveModel.SwapMatchesIffSameAtLoad | src/nvidia_pipe/cli.py:194-206 | swapped-in content has the observed revision if and only if the load saw the file that both stats saw, whatever the file did before |
| LiveModel.NothingReturnsSwapsObserved | src/nvidia_pipe/cli.py:194-206 | if no replaced content comes back and the first stat found a file, what is swapped in is the content it observed |
| LiveModel.VanishingFileIsAdopted | src/nvidia_pipe/cli.py:194-206 | a file away at both stats: unobserved content is adopted |
| LiveModel.ReplacedDuringLoadIsAdopted | src/nvidia_pipe/cli.py:194-206 | a file replaced only during the load: the other content is adopted under the observed revision |
| LiveModel.ConvergesIffNotMissed | src/nvidia_pipe/cli.py:193-214 | each content having its own revision, after the file stops changing one full refresh leaves the final content active if it is valid and otherwise the last adopted one, if and only if no refresh that newly observed that valid content left another one loaded and was followed only by stats of the same revision |
| LiveModel.AlwaysConvergesIffNotBack | src/nvidia_pipe/cli.py:193-214 | told from the file history alone: every schedule of refreshes converges so, if and only if the final content is not a valid one that came, went and came back, with a valid other content in place before it came or when it went |
| LiveModel.ReturningContentIsMissed | src/nvidia_pipe/cli.py:194-204 | a file history in which valid final content never becomes active |
| LiveModel.NothingReturnsConverges | src/nvidia_pipe/cli.py:193-214 | every schedule converges whenever no replaced content comes back |
| EncodedBytes.FirstCandidateDecides | src/nvidia_pipe/cli.py:345-372 | on every value tree the first candidate in preferred-key-then-left-to-right order decides the result; without one it is a type error |
| EncodedBytes.DictGivesItsPreferred | src/nvidia_pipe/cli.py:348-355 | a dictionary gives what its first entry among bitstream, data, packet, encoded_data, payload that holds bytes or a list converts to |
| EncodedBytes.DictGivesItsFirst | src/nvidia_pipe/cli.py:356-363 | without such an entry it gives what the first of its values gives that is not a type error |
| EncodedBytes.ListGivesItsFirst | src/nvidia_pipe/cli.py:364-371 | a list that is not all integers gives what the first of its elements gives that is not a type error |
| EncodedBytes.ToBytesIs | src/nvidia_pipe/cli.py:354-366 | a list converts if and only if all its elements are bytes, to those, and it is a type error if and only if the first other element is no integer |
| EncodedBytes.ResultIsInside | src/nvidia_pipe/cli.py:345-372 | what is returned is a byte string or all-integer list of the tree |
| EncodedBytes.SucceedsIffConvertible | src/nvidia_pipe/cli.py:345-372 | with byte-sized integers and no list under a preferred key it succeeds if and only if the tree contains a byte string or an all-integer list |
| EncodedBytes.SucceedsIffReachable | src/nvidia_pipe/cli.py:345-372 | without the restriction on preferred keys: it succeeds if and only if such a value can be reached past the preferred lists |
| EncodedBytes.PreferredListHidesBytes | src/nvidia_pipe/cli.py:349-355 | a tree with bytes on which it fails |
| InferQueue.ResultsAreConserved | src/nvidia_pipe/infer_queue.py:82-135 | at every step the submitted results are the disjoint union of incoming, pending, being put, queued, in the consumer's hand, consumed and dropped ones |
| InferQueue.ConsumedOnce | src/nvidia_pipe/infer_queue.py:125-135 | no result is consumed twice, or both consumed and dropped, or made up |
| InferQueue.OnlyReadyWithinCapacity | src/nvidia_pipe/infer_queue.py:97-123 | only ready results are queued or consumed, the queue stays within capacity, and the put after an eviction never fails |
| InferQueue.PutsLoseTheOldest | src/nvidia_pipe/infer_queue.py:97-106 | results leave the queue in publication order; a put loses at most one: the queue's oldest, or its own result when the consumer emptied the queue in between |
| InferQueue.DropsOnlyWhenFull | src/nvidia_pipe/infer_queue.py:97-106 | a result is dropped only by a put whose first attempt found the queue holding as many results as its capacity |
| InferQueue.RoomMeansNoDrop | src/nvidia_pipe/infer_queue.py:97-106 | a put that finds room keeps every result |
| InferQueue.OldestCanBeEvicted | src/nvidia_pipe/infer_queue.py:97-135 | a run in which the oldest result is dropped and the new one consumed |
| InferQueue.NewestCanBeDropped | src/nvidia_pipe/infer_queue.py:97-135 | a run in which the consumer empties the queue in between and the new result is dropped |
| InferQueue.PublicationIsSubmissionOrder | src/nvidia_pipe/infer_queue.py:108-123 | if readiness is prefix-closed and fixed during each pass, publication order is submission order and results are consumed in ascending order |
| InferQueue.OrderKeptIffNoOvertaking | src/nvidia_pipe/infer_queue.py:117-123 | publication order is submission order if and only if no result is published while an earlier one is held back in the same pass |
| InferQueue.LateReadinessSwaps | src/nvidia_pipe/infer_queue.py:117-123 | a run with completions in submission order that publishes out of order |
| InferQueue.InferenceResultQueue.PutLatest | src/nvidia_pipe/infer_queue.py:97-106 | alone, a put always keeps the new result and drops at most the head |
| InferQueue.InferenceResultQueue.PublishPass | src/nvidia_pipe/infer_queue.py:108-123 | one uninterrupted round drains the incoming queue, keeps the unready results and puts the ready ones in list order |
| InferQueue.AllPutKeepsNewest | src/nvidia_pipe/infer_queue.py:97-106 | puts in a row leave exactly the newest results that fit |
| InferQueue.ReadyOrUnready | src/nvidia_pipe/infer_queue.py:117-123 | a pass splits the pending results into ready and unready ones without losing any |
| InferQueue.PassKeepsOrder | src/nvidia_pipe/infer_queue.py:117-123 | both keep the order of the pending results |
| LogHandoff.LatestLogQueue.Put | src/stream/cli.py:26-33 | alone, the put never finds the queue full and drops at most the oldest record |
| LogHandoff.StreamProcess.ClearConnection | src/stream/cli.py:140-144 | clears that connection and no other; the event stays set exactly if a connection is attached |
| LogHandoff.StreamProcess.SetConnection | src/stream/cli.py:135-138 | attaches the connection and sets the event |
| LogHandoffProtocol.PutNeverFindsFull | src/stream/cli.py:26-33 | with any interleaving of emitters and the sender's unlocked get, the last put of the section never finds the queue full |
| LogHandoffProtocol.PutsDiscardTheOldest | src/stream/cli.py:26-33 | records leave the queue in the order they entered it; a put discards at most one, the oldest |
| LogHandoffProtocol.DiscardsOnlyWhenFull | src/stream/cli.py:26-33 | a put discards only if it has found the queue holding as many records as its limit |
| LogHandoffProtocol.EveryRecordIsInOnePlace | src/stream/cli.py:150-169 | every emitted record is in exactly one place: waiting to be put, being put, queued, in the sender's hand, sent or discarded |
| LogHandoffProtocol.RecordCanBeSent | src/stream/cli.py:150-169 | a run that sends a record over a connection |
| LogHandoffProtocol.FailedRecordReturns | src/stream/cli.py:164-169 | a run in which the send fails, the record is back in the queue and the connection is detached |
| LogHandoffProtocol.LatestStaysAttached | src/stream/cli.py:135-148 | whenever the lock is free the event is set if and only if a connection is attached, and that is the latest one unless a clear of that very one has returned |
| LogHandoffProtocol.OldClearChangesNothing | src/stream/cli.py:140-144 | clearing an older connection changes neither the connection nor the event |
| LogHandoffProtocol.SetReplacesNothing | src/stream/cli.py:97-112 | a connection is only set once the one before has been detached |
| StreamConnection.StreamConnection.Attach | src/conductor/process/stream_connection.py:53-57 | a closed connection refuses the pipe, any other is open afterwards |
| StreamConnection.StreamConnection.Close | src/conductor/process/stream_connection.py:67-74 | detaches the pipe and hands it back for closing |
| StreamConnection.StreamConnection.NotifyClosed | src/conductor/process/stream_connection.py:111-118 | exactly the first caller may call the closed callback, and the connection is not open afterwards |
| StreamConnection.StreamConnection.Target | src/conductor/process/stream_connection.py:76-82 | a message has a pipe to go to exactly when the connection is open, and it is that of the connection |
| Supervisor.Supervisor.SetProcessStatus | src/conductor/process/supervisor.py:84-89 | sets the status and reports a change exactly when there is one |
| Supervisor.Supervisor.OnClose | src/conductor/process/supervisor.py:142-145 | removes the entry only if it is the closing connection; every other entry stays |
| ConnectionProtocol.ClosedOnceAfterConnected | src/conductor/process/stream_connection.py:42-118 | in every interleaving of open, close and receiver the closed callback is called at most once and only after the connected one; an open connection has not been notified closed |
| ConnectionProtocol.NeverReopens | src/conductor/process/stream_connection.py:53-74 | a connection that was closed or notified is never open again |
| ConnectionProtocol.ChildIsLatest | src/conductor/process/supervisor.py:128-145 | the map holds exactly the connection registered last until its own closed callback; one whose callback came before its registration stays |
| ConnectionProtocol.ClosingEvictsNoOther | src/conductor/process/supervisor.py:142-145 | an entry changes only by its own connection's callback or a later registration of its process |
| ConnectionProtocol.DeadChildStays | src/conductor/process/supervisor.py:128-145 | a run that leaves a dead connection in the map |
| ConnectionProtocol.StatusAlternates | src/conductor/process/supervisor.py:84-98 | the changes of each process alternate running and stopped, starting with running, and the status is the last one |
| ConnectionProtocol.StatusFollowsCalls | src/conductor/process/supervisor.py:142-168 | a heartbeat leaves its time and the status running; the end of a connection and the monitor leave it stopped |
| ConnectionProtocol.OneEventPerChange | src/conductor/process/supervisor.py:89-98 | every change, and nothing else, has exactly one event: published, about to be, or skipped for want of a publisher |
| ConnectionProtocol.NothingSkippedAfterPublisher | src/conductor/process/supervisor.py:65-69 | once a publisher is set no further event is skipped |
| ConnectionProtocol.MonitorStopsExpired | src/conductor/process/supervisor.py:71-82 | a process is stopped by the monitor only if its heartbeat is older than the timeout or came after the monitor's look |
| ConnectionProtocol.RoundEndsWithAllStopped | src/conductor/process/supervisor.py:71-82 | by the end of a round every process whose heartbeat was older than the timeout at the look has been stopped |
| ConnectionProtocol.EventsCanSwap | src/conductor/process/supervisor.py:84-98 | a run in which the published order is not the order of the changes |
| StatusEvents.StatusOrderIffNoOvertaking | src/conductor/process/supervisor.py:84-98 | at every moment of every run: the published events of a process, and then those still to be published, are in the order of its changes if and only if none was published before an earlier one that was still pending; events skipped for want of a publisher do not count |
| StatusEvents.LastEventIsStatus | src/conductor/process/supervisor.py:84-98 | without overtaking, once no event of a process is pending: every change after the one published last was skipped for want of a publisher, and if there is none that event tells the status |

## Left out

- RTSP, PyAV, NVDEC, NVENC, CUDA streams and tensors: outcomes are inputs of the model.
- Text: log messages, configuration parsing and validation, dashboards, routing and SQL are not modelled; codec names are lower-cased over ASCII only.
- SenderProtocol: `start` and `stop` are each called at most once, a process that is told to end is gone after the last join, the status is read as one snapshot, and the mux time is the clock read right after the mux.
- Sender.submit: only the worker's side of the queue is modelled; dropping the oldest packet breaks continuity with the encoder by design, so slices are stated on the dequeued packets.
- Status subscribers of the event broker (`subscribeStatus`, `publishStatus`): the same queue discipline without a history.
- LivePostprocess and LiveParameters: the same reload pattern as LiveModel without the second stat.
- LiveModel: the parts of loading a module are one look at the file, and a revision stands for modification time and size.
- EncodedBytes: elements of byte conversions are integers or not; objects that only convert to integers are not modelled.
- Timestamp.DrawTimestamp: a font size is an integer, invalid, or infinite; pixel values are integers, not tensor elements.
- Receive: the delay before reconnecting, the parsing of the buffer size and errors other than the caught ones inside the demux loop.
- InferQueue: ending the threads (`close`), the wake-up event and errors of the consumer, which count as consumption.
- LogHandoff: ending the threads and the contents of messages; a failed send counts as not sent, and no order of sent records is claimed, because a record whose send failed goes back to the tail of the queue.
- ConnectionProtocol: a connection object is opened once, as the supervisor does; pending events may be published in any order, also those of one thread.
