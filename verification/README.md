# Verification models of the relay client and server

These files model three connected protocols of the repository, and two smaller components, and prove what they
are for.

**The supervised overlay tunnel.** A client carries local TCP streams or UDP datagrams over several workers, each with
an unreliable datagram link to a server session that opens the upstream connections. `text.dfy`, `frames.dfy` (the
codec) and `workers.dfy` (the round-robin set) are the parts; `streams.dfy` says what the two ends of a stream share;
`tcp_ingress.dfy` and `tcp_egress.dfy` are the two adapters with one step for every action of every goroutine;
`tunnel.dfy` puts them together with links that drop, reorder and duplicate at will, and proves the way up and the
closing protocol; `tunnel_notices.dfy` follows a close from the side that gives notice to the other side's map, and a
full queue to the closing of its stream; `tunnel_endings.dfy` says what each failure ends for good; `tunnel_closing.dfy`
counts the close frames of whole runs; `tunnel_reopen.dfy` says when an id gets a second upstream connection, and
`tunnel_down.dfy` proves the way back where that does not happen; `tunnel_replay.dfy` has a run in which it does, and
goes wrong; `tunnel_delivery.dfy` shows that what safety allows can be reached; `stream_loops.dfy` has the adapters and
their loops as objects and loops. `handshake.dfy` is the hello exchange and `udp_tunnel.dfy` the datagram adapters and
reply routing. `supervisor.dfy` is the event loop over the workers and `supervised_run.dfy` a whole session with its
channels, runner goroutines, timers and ingress, in any order of events.

**The Linux TUN helper.** Several processes share the route table, a lock and a state file, and may die between any two
commands. `tun_commands.dfy` says what the `ip` commands do, `tun_helper.dfy` is the transition system with its
invariant, `tun_runs.dfy` has the theorems over runs and the recovery theorem, `tun_serving.dfy` what a serving helper
has installed and what one that gives up leaves, `tun_reuse.dfy` the run in which two helpers are started for one
attempt, and `tun_host.dfy` the host, the state file and one attempt as objects.

**The platform tunnel's life cycle.** `platform_tunnel.dfy` has the host's sessions, `linux_desktop.dfy` and
`android_embedded.dfy` the host together with each native controller under any sequence of calls, and
`platform_host.dfy` the host and the controllers as objects.

**Two smaller components.** `catalog.dfy` is the issuing of artifacts, once per operation; `provider_settings.dfy` the
acceptance and redaction of provider settings.

Transition systems have a function `Step` that gives the next state if the step is possible, and `Execute` for lists of
steps, so a theorem about every list of steps is one about every run. Fields named as history only remember what
happened. Classes have the source's fields and are tied, method by method, to the functions the theorems speak about.

## What was found

- A helper that waits for another one to leave asks whether the process it signalled is still alive, not the one the
  state file names at that time. If a second helper is started for the same attempt id and nonce in between, the wait
  takes away the file of a live helper. `TunRuns.KeptUnlessPolledAway` says exactly when this happens, and
  `TunReuse.ReusedAttemptLosesRoutes` gives a run that ends with a tunnel route that no cleanup knows of. The Linux
  controller numbers its attempts and adds a nonce, so the theorems over runs assume that attempts are not reused.
- The way back through the tunnel mixes bytes of two upstream connections if an open frame is replayed after its stream
  was closed (`TunnelReplay.ReplayedOpenMixesStreams`). A session gets a second upstream connection for an id exactly when
  it takes an open frame for an id opened before and no longer open (`TunnelReopen.ReopeningIsExact`); in every run without
  such a step `TunnelDown.LocalGetsPrefix` holds. The links in use suppress duplicates (section 4.1.2.6 of RFC 6347),
  which is enough (`TunnelReopen.OpenedOnceNeverReopens`). The way up needs no such condition.
- When a worker that stands before the one whose turn it is leaves the round-robin set, the one whose turn it is is passed
  over once (`Workers.ServedAfterRemoval`).
- A second start on the Linux desktop that cannot get its lease for a reason other than the transport profile stops the
  tunnel that is already running (`LinuxDesktop.SecondStart`, with the exact condition).
- The validation of a settings schema trims a required key, the acceptance of settings does not, so a key written with
  surrounding space is never enforced (`ProviderSettings.PaddedKeyIsNotRequired`; `ProviderSettings.RequiredIsEnforced` has
  the exact condition).
- Only a `float64` setting is checked for being finite. A `float32` NaN or infinity, which an in-process caller can pass,
  is accepted for immediate use and survives redaction, but what is left can then be neither stored nor accepted again
  (`ProviderSettings.NonFiniteNumberCannotBeStored`; `ProviderSettings.RedactedCanBeStored` has the exact condition).

## Model

| member | source | states |
|---|---|---|
| Frames.EncodingFailsExactly | internal/overlay/types.go:96-123 | a frame cannot be encoded exactly if its kind is unknown or it is a hello with an unknown adapter |
| Frames.DecodeEncode | internal/overlay/types.go:96-168 | decoding an encoded frame gives its canonical form: unused fields cleared, an empty adapter read as udp |
| Frames.EncodeDecode | internal/overlay/types.go:125-168 | every byte string the decoder accepts is the encoding of what it decodes to |
| Frames.EncodingsAreUnique | internal/overlay/types.go:96-168 | two frames have the same encoding if and only if they have the same canonical form |
| Frames.WireLayout | internal/overlay/types.go:96-123 | where each kind has its fields: the kind first, eight bytes for each number, most significant first, then the payload or the reason |
| Frames.DatagramsReadExactly | internal/overlay/types.go:193-203 | a datagram is read exactly if it is shorter than the buffer and the encoding of some frame |
| Frames.PairsExactly | internal/overlay/types.go:26-60 | two adapters go together exactly if both names, trimmed, are tcp, or both are udp or empty |
| Frames.LoopFramesArrive | internal/overlay/types.go:193-203 | every frame the forwarding loops build is encodable, stays below the read limit and is read back unchanged |
| Frames.Endpoint.ReadFrame | internal/overlay/types.go:193-203 | what is read depends only on the datagram, not on the reused buffer; one that fills the buffer is an error |
| Frames.BigEndianRoundTrip | internal/overlay/types.go:96-123 | fixed-width numbers survive encoding |
| Frames.BigEndianUnique | internal/overlay/types.go:125-168 | and every byte string of that width encodes what it decodes to |
| Text.TrimSpaceIsIdempotent | pkg/clientcontrol/provider_settings_validation.go:547-572 | a trimmed key stays as it is |
| Text.TrimSpaceExactly | pkg/clientcontrol/provider_settings_validation.go:547-572 | trimming takes only white space away, at both ends, until there is none |
| Text.TrimSpaceIsUnique | pkg/clientcontrol/provider_settings_validation.go:547-572 | and there is only one way to do that |
| Workers.HistoryIsCoherent | internal/overlay/workers.go:16-62 | after any history of ready, remove and next calls, indices are distinct, the cursor is in range, and the set holds exactly the workers in force, each with its latest channel |
| Workers.OrderIsReadiness | internal/overlay/workers.go:16-28 | after any history the workers stand in the order in which they last became ready |
| Workers.ServedAfterRemoval | internal/overlay/workers.go:50-62 | who is served next after a removal: the one whose turn it was, its successor, or, when an earlier one left, the successor of the one whose turn it was |
| Workers.RotationAt | internal/overlay/workers.go:37-48 | which worker each of n successive calls serves |
| Workers.RotationServesEachOnce | internal/overlay/workers.go:37-48 | n calls on an unchanged set of n workers serve each of them exactly once |
| Workers.WorkerSet.SetReady | internal/overlay/workers.go:16-28 | replaces the worker's channel at the end of the order, for the ring the history theorem is about |
| Workers.WorkerSet.Remove | internal/overlay/workers.go:30-35 | takes the worker out and brings the cursor back into range |
| Workers.WorkerSet.Next | internal/overlay/workers.go:37-48 | serves the worker under the cursor and moves on, wrapping around |
| Workers.WorkerSet.RemoveLocked | internal/overlay/workers.go:50-62 | the shifting loop removes the first worker with the index, and only that |
| Streams.TakeFollows | internal/overlay/tcp_ingress.go:205-237 | one turn of a writer loop, a partial failed write included, leaves what was written a prefix of the chunks, and exactly the numbered chunks while the loop runs |
| Streams.StepFollows | internal/tunnelserver/overlay_session.go:516-546 | the same for whatever a receiver does in its loop |
| Streams.ChunkedOk | internal/overlay/tcp_ingress.go:167-203 | a chunk just read gets the next number, and its frame carries exactly that chunk |
| TcpIngress.StepKeeps | internal/overlay/tcp_ingress.go:70-330 | every action of the ingress keeps its invariant: streams in the map are exactly those not closed, frames on a channel carry their own stream's chunks, at most one close notice each; and streams only progress |
| TcpIngress.QueueKeeps | internal/overlay/tcp_ingress.go:300-312 | queueing a frame that came in keeps the invariant |
| TcpIngress.NotifyExactly | internal/overlay/tcp_ingress.go:314-330 | the first notice that can be sent puts exactly one close frame at the end of the stream's own channel, a later one does nothing, and nothing else changes |
| TcpIngress.CloseWhereKeeps | internal/overlay/tcp_ingress.go:285-298 | what the loops that close a worker's streams, or all streams, come to when nothing comes in between keeps the invariant as well |
| TcpIngress.CollectedStays | internal/overlay/tcp_ingress.go:285-298 | with other goroutines in between, every stream collected for closing is closed or still waits for it |
| TcpEgress.StepKeeps | internal/tunnelserver/overlay_session.go:344-570 | every action of the server's stream goroutines keeps its invariant: what was sent carries chunks of a stream opened here, a close notice at most once and none for a stream closed quietly |
| TcpEgress.ReceiveKeeps | internal/tunnelserver/overlay_session.go:149-176 | so does handling any datagram at all |
| TcpEgress.CloseExactly | internal/tunnelserver/overlay_session.go:440-464 | closing an id in the map takes it out and writes its one close frame exactly if notice is to be given and the write succeeds |
| TcpEgress.CloseAllKeeps | internal/tunnelserver/overlay_session.go:344-356 | so does closing all streams at the end of a session in one go |
| TcpEgress.OpenedOnceIsSingle | internal/tunnelserver/overlay_session.go:358-432 | with no open frame handled twice there is at most one upstream stream per id |
| TcpEgress.SecondExactly | internal/tunnelserver/overlay_session.go:358-373 | handling a frame adds a second upstream stream for an id if and only if it is an open frame for an id opened before and no longer open |
| Tunnel.StepKeeps | internal/tunnelserver/overlay_session.go:149-176 | every step of the whole tunnel keeps the joint invariant and only extends what was there |
| Tunnel.UpstreamGetsPrefix | internal/tunnelserver/overlay_session.go:466-546 | in every run, with links that drop, reorder and duplicate, the bytes written upstream are a prefix of the bytes read from the local connection with that stream id |
| Tunnel.FramesAreAlwaysHandled | internal/tunnelserver/overlay_session.go:330-342 | no run makes either side fail on a frame it cannot decode or handle; the only frame error is a second open of an open id, and it needs a repeated open frame |
| Tunnel.ClosesAreBounded | internal/overlay/tcp_ingress.go:314-330 | each side writes at most one close frame per stream, the server none for a stream closed by the client or with the session |
| Tunnel.ClosedForGood | internal/overlay/tcp_ingress.go:265-283 | however a run goes on, a closed client stream never re-enters the map and a closed upstream stream stays closed with its close count final |
| TunnelClosing.ClosingQuiesces | internal/tunnelserver/overlay_session.go:440-464 | all close frames of a run, of both sides together, are at most as many as the streams that were opened |
| TunnelClosing.OneServerClosePerId | internal/tunnelserver/overlay_session.go:440-464 | a session writes at most one close frame per upstream it opened for an id, so one per id unless it re-opened one |
| TunnelClosing.PeerCloseIsNotAnswered | internal/tunnelserver/overlay_session.go:330-342 | a stream closed because the client's close frame arrived never has one written for it, however the run goes on |
| TunnelClosing.RemovalClosesWhatItCollected | internal/overlay/tcp_ingress.go:285-298 | when a worker is removed, each of its open streams, and no other worker's, is closed or its close is still outstanding, in every run from then on |
| TunnelClosing.ClosingAllClosesAll | internal/overlay/tcp_ingress.go:353-364 | the same for all streams when the client closes them |
| TunnelClosing.SessionEndClosesAll | internal/tunnelserver/overlay_session.go:344-356 | and for all streams of a server session at its end |
| TunnelNotices.ServerCloseReachesClient | internal/tunnelserver/overlay_session.go:548-570 | a server close with notice puts the stream's one close frame on the link at once; however the run goes on, the client can take it off whenever its forwarder is free, and then the stream is out of its map |
| TunnelNotices.ClientCloseReachesServer | internal/overlay/tcp_ingress.go:314-330 | a client's notice goes to the end of the stream's channel; once the forwarder has written what the channel holds, the server can take it, unless it failed or is busy, and then the stream is out of its map |
| TunnelNotices.ForwardsInOrder | internal/transport/forwarders.go:73-95 | the forwarder puts the frames of a channel on the link in their order, none left out |
| TunnelNotices.ClientOverflowCloses | internal/overlay/tcp_ingress.go:300-312 | a frame for a stream whose queue is full is followed by notice and close before the client takes another datagram from that worker |
| TunnelNotices.ServerOverflowCloses | internal/tunnelserver/overlay_session.go:466-477 | on the server the stream is then closed, or a goroutine that closes it has yet to run, in every run from then on |
| TunnelNotices.ClientQueuesExactly | internal/overlay/tcp_ingress.go:300-312 | a data frame for an open stream is queued exactly while the queue holds fewer than eight |
| TunnelNotices.ServerQueuesExactly | internal/tunnelserver/overlay_session.go:466-477 | the same on the server |
| TunnelEndings.LoopsEndInCloses | internal/overlay/tcp_ingress.go:167-237 | in every run: an ended reader loop or server goroutine leaves its stream closed, an ended writer loop too unless the client was cancelled; a client loop gives notice before it closes an open stream, a server goroutine closes only after both its loops; no open stream is without loops |
| TunnelEndings.ClosingLetsLoopsEnd | internal/overlay/tcp_ingress.go:205-237 | in every run: once a stream is closed or its side cancelled, each loop that has not ended can take a step nearer to its end |
| TunnelEndings.ArrivalsExactly | internal/tunnelserver/overlay_session.go:330-342 | what each side takes up and what it drops |
| TunnelEndings.ClientFailuresAreFinal | internal/overlay/tcp_ingress.go:167-237 | in every run: after a failed read or send nothing more is framed for the stream, after a failed write or a frame out of order nothing more is written |
| TunnelEndings.ServerFailuresAreFinal | internal/tunnelserver/overlay_session.go:479-546 | the same between the server and its upstream connections |
| TunnelEndings.FaultsExactly | internal/tunnelserver/overlay_session.go:330-342 | which datagrams each side fails on |
| TunnelReopen.ReopeningIsExact | internal/tunnelserver/overlay_session.go:358-373 | a step gives a session a second upstream for an id if and only if the session takes an open frame for an id opened before and no longer open |
| TunnelReopen.SingleExactly | internal/tunnelserver/overlay_session.go:358-432 | in every run, the ids of a session's upstreams are distinct if and only if it never took such an open frame |
| TunnelReopen.OpenedOnceNeverReopens | internal/tunnelserver/overlay_session.go:358-432 | handing over each open frame at most once rules such a step out |
| TunnelDown.LocalGetsPrefix | internal/overlay/tcp_ingress.go:205-237 | in every run in which the session never takes an open frame for an id opened before and closed since, the bytes written locally are a prefix of the bytes read from the one upstream connection of that id, and none without one |
| TunnelDown.DownStepKeeps | internal/tunnelserver/overlay_session.go:479-514 | every step keeps the invariant of the way back |
| TunnelReplay.ReplayedOpenMixesStreams | internal/tunnelserver/overlay_session.go:358-373 | a run with a replayed open frame in which the local bytes are a prefix of no upstream's bytes |
| TunnelDelivery.EverythingCanArrive | internal/overlay/tcp_ingress.go:167-203 | for any chunks there is a run in which all of their bytes reach the upstream, so the prefix may be everything |
| StreamLoops.RunStreamReader | internal/overlay/tcp_ingress.go:167-203 | the loop frames everything read up to the first failed read, numbered from zero without gaps |
| StreamLoops.RunStreamWriter | internal/overlay/tcp_ingress.go:205-237 | the loop writes what turn-by-turn taking of the frames writes |
| StreamLoops.WriterWritesPrefix | internal/overlay/tcp_ingress.go:205-237 | for arrivals with gaps, repetitions and failing writes, that is a prefix of the chunks |
| StreamLoops.WriterUndoesReader | internal/tunnelserver/overlay_session.go:516-546 | for arrivals in order and writes that succeed, it is all of them |
| StreamLoops.TCPIngress.AcceptConnection | internal/overlay/tcp_ingress.go:78-118 | one turn of the accept loop: the next worker, a new id, and either a queued open frame and running loops or a stream closed again |
| StreamLoops.TCPIngress.CloseStream | internal/overlay/tcp_ingress.go:265-283 | closing by id, once |
| StreamLoops.TCPIngress.NotifyRemoteClose | internal/overlay/tcp_ingress.go:314-330 | the close frame is queued and counted exactly if this is the first notice and the channel takes it |
| StreamLoops.TCPIngress.QueueInboundFrame | internal/overlay/tcp_ingress.go:300-312 | a full queue drops the frame, gives notice and closes the stream |
| StreamLoops.TCPIngress.Deliver | internal/overlay/tcp_ingress.go:121-139 | what becomes of every frame from a worker, with the invariant kept; other kinds are the only error |
| StreamLoops.TCPIngress.CloseWorkerStreams | internal/overlay/tcp_ingress.go:285-298 | exactly the open streams of that worker index leave the map |
| StreamLoops.TCPIngress.CloseAllStreams | internal/overlay/tcp_ingress.go:353-364 | closes exactly the open streams |
| StreamLoops.TCPIngress.Remove | internal/overlay/tcp_ingress.go:145-148 | the worker leaves the set and its stored streams are closed |
| StreamLoops.TCPEgress.HandleFrame | internal/tunnelserver/overlay_session.go:330-342 | what becomes of every frame from the client |
| StreamLoops.TCPEgress.OpenStream | internal/tunnelserver/overlay_session.go:358-373 | an id in the map is refused, any other gets a new stream |
| StreamLoops.TCPEgress.CloseStream | internal/tunnelserver/overlay_session.go:440-464 | closing by id; the close frame is written and counted exactly if the id was open, notice is asked for and the write succeeds |
| StreamLoops.TCPEgress.QueueInboundFrame | internal/tunnelserver/overlay_session.go:466-477 | a full queue drops the frame and leaves the close to a goroutine |
| StreamLoops.TCPEgress.Close | internal/tunnelserver/overlay_session.go:344-356 | the loop closes exactly the open streams, without notice |
| Handshake.ExchangeAgrees | internal/transport/client.go:182-216 | both ends agree, and a session stands exactly for a supported pair whose adapter could be opened, with the same adapter on both sides |
| Handshake.AnswerExactly | internal/tunnelserver/overlay_session.go:75-102 | what the server answers: nothing to anything but a hello, an acknowledgement if the names go together and the adapter opens, else a reject |
| Handshake.ClientOnlyAcceptsSupportedPairs | internal/tunnelserver/overlay_session.go:75-102 | whatever arrives as the answer, the client only takes up a supported pair |
| UdpTunnel.RepliesReachTheLastSender | internal/overlay/udp_ingress.go:54-92 | in every run each reply over a worker goes to the local sender last dispatched to it since its route was removed, and no side meets a frame kind it cannot handle |
| UdpTunnel.ReplyIsDroppedExactly | internal/overlay/udp_ingress.go:76-92 | a reply is dropped if and only if there is no such sender; else that sender gets its payload |
| UdpTunnel.DispatchExactly | internal/overlay/udp_ingress.go:54-74 | a local datagram goes to the end of the worker's queue, or is dropped exactly if that is full, and its sender is the one to reply to |
| UdpTunnel.PayloadsAreKept | internal/tunnelserver/overlay_session.go:215-283 | in every run each datagram written upstream carries what a local datagram dispatched to that worker carried, and each reply what was read from that upstream |
| UdpTunnel.DatagramsGetThrough | internal/overlay/udp_ingress.go:54-92 | from any state, a datagram to an idle worker can get there and its answer back to its sender, unchanged |
| UdpTunnel.StepKeeps | internal/tunnelserver/overlay_session.go:215-283 | every step of the datagram tunnel keeps routes and replies right |
| UdpTunnel.UDPIngress.Dispatch | internal/overlay/udp_ingress.go:54-74 | the served worker becomes the sender's way back, and gets the datagram under its route id |
| UdpTunnel.UDPIngress.Deliver | internal/overlay/udp_ingress.go:76-92 | the receiver is the last sender of the worker the route id names |
| UdpTunnel.UDPIngress.Remove | internal/overlay/udp_ingress.go:98-101 | the worker and its route are forgotten |
| UdpTunnel.ReplyRoute.Load | internal/transport/forwarders.go:194-223 | no route before the first store |
| Supervisor.HandleKeepsLoopOk | internal/session/supervisor.go:115-291 | whatever event is taken: the ready count is the number of ready workers, the ingress holds exactly those with the channel of their current generation, at most one failure is recorded, and one start by the first event that leaves all ready |
| Supervisor.CountUpdate | internal/session/supervisor.go:124-165 | changing one worker changes the ready count by as much as its own flag |
| Supervisor.SupervisorLoop.HandleEvent | internal/session/supervisor.go:115-291 | one turn of the select, field by field |
| Supervisor.SupervisorLoop.HandleReady | internal/session/supervisor.go:118-151 | the ready case; a start is recorded exactly if all workers are ready then and it was not before |
| Supervisor.SupervisorLoop.HandleResult | internal/session/supervisor.go:153-262 | the result case with its four outcomes |
| SupervisedRun.StepKeeps | internal/session/supervisor.go:56-291 | every step of runners, timers, ingress, parent and loop keeps the session invariant |
| SupervisedRun.WorkersAreAccountedFor | internal/session/supervisor.go:56-105 | in every reachable state: ready count, ingress set and channels agree with the worker states; before cancellation a generation is restarts plus one, or restarts while a restart is pending; at most one runner per index has not ended |
| SupervisedRun.ConsumedResultIsFinal | internal/session/supervisor.go:153-206 | before cancellation, a worker whose result was consumed is not ready for that generation and no event can make it so |
| SupervisedRun.ChannelsNeverFill | internal/session/supervisor.go:44-46 | each channel holds at most one event per worker, so no goroutine ever waits to send |
| SupervisedRun.SessionsAreBounded | internal/session/supervisor.go:208-239 | C workers with restart budget R launch at most C(1+R) runners and the loop takes at most 2C(1+R)+CR+1 events |
| SupervisedRun.ErrorsAreRecordedFailures | internal/session/supervisor.go:293-314 | the call returns an error if and only if a failure was recorded, at most one is, and none when the parent was cancelled first |
| SupervisedRun.StartsWhenAllAreReady | internal/session/supervisor.go:140-150 | a start is recorded only by a step that leaves all workers ready |
| SupervisedRun.StartedExactly | internal/session/supervisor.go:140-150 | in every run one start is recorded if and only if all workers, of which there are some, were ready together at some point |
| SupervisedRun.ResultsDecide | internal/session/supervisor.go:153-262 | in every run a result the loop takes is current, takes its worker out of service, and ends the session with the failure it stands for, or else starts the timer of the worker's next generation |
| SupervisedRun.OtherEventsDecide | internal/session/supervisor.go:118-291 | a report puts its worker into service, a restart launches the next generation, and the loop ends otherwise only with the ingress or the parent, with a failure exactly if the ingress failed |
| TunCommands.AppliedDeletions | internal/linuxtunhelper/native_linux.go:544-592 | a list without replacements removes exactly the routes one of its deletions hits, and changes no other |
| TunCommands.SweepRemoves | internal/linuxtunhelper/native_linux.go:544-592 | a cleanup removes exactly the routes its snapshot covers |
| TunCommands.BringupIsCovered | internal/linuxtunhelper/native_linux.go:403-444 | every route a bring-up installs is one the cleanup for the same snapshot removes |
| TunHost.BringupIsComplete | internal/linuxtunhelper/native_linux.go:403-444 | a bring-up that runs to its end leaves both halves through the device, every exclusion through the gateway, and every other destination as before |
| TunHelper.OneEngaged | internal/linuxtunhelper/native_linux.go:827-951 | at most one process owns the tunnel or sweeps under the lock |
| TunHelper.StepKeeps | internal/linuxtunhelper/native_linux.go:133-190 | every step of every process keeps the invariant, unless it is a poll that takes a live helper's file away |
| TunHelper.InstallOneKeeps | internal/linuxtunhelper/native_linux.go:427-441 | each route, when it is installed, is already covered by the file on disk |
| TunRuns.NoRouteIsLost | internal/linuxtunhelper/native_linux.go:391-444 | at every point of every run, crashes included: foreign routes are untouched, every other route is covered by the state file, and the cleanup for it leaves only foreign routes |
| TunRuns.BeginsExactly | internal/linuxtunhelper/native_linux.go:827-935 | what a start or a cleanup request comes to, beside a live helper, after a dead one, and without a record |
| TunRuns.SweepEndsExactly | internal/linuxtunhelper/native_linux.go:827-935 | a sweep that failed keeps the record, one that did not takes it away |
| TunRuns.OwnersAreLeftAlone | internal/linuxtunhelper/native_linux.go:827-951 | at most one live helper owns the tunnel, the file names it, and no step of another process changes the file, the routes or that helper |
| TunRuns.SweptMeansRecovered | internal/linuxtunhelper/native_linux.go:827-866 | in every run, whatever interleaves and crashes: whenever there is no state file, a sweep or teardown has ended, or a helper owns its record and has not begun its bring-up, only foreign routes are left |
| TunRuns.NextStartRecovers | internal/linuxtunhelper/native_linux.go:827-866 | and that point can be reached: from every reachable state with a dead recorded helper and a free lock, a start or cleanup request left to run removes every tunnel route |
| TunRuns.KeptUnlessPolledAway | internal/linuxtunhelper/native_linux.go:1002-1024 | a step breaks the invariant if and only if it is a poll whose signalled process is dead while the matching file names a live one |
| TunRuns.UniqueIsNeverPolledAway | internal/linuxtunhelper/native_linux.go:1002-1024 | with attempts that are not reused, that never happens |
| TunServing.ServingHasItsRoutes | internal/linuxtunhelper/native_linux.go:403-444 | in every run: while a helper serves, both halves go through its device, every exclusion around it, and all other routes are the foreign ones |
| TunServing.StartReachesServing | internal/linuxtunhelper/native_linux.go:133-178 | a helper that owns its record and is left to run, and finds all it needs, ends up serving |
| TunServing.GivingUpLeavesNothing | internal/linuxtunhelper/native_linux.go:133-190 | in every run: when a step of an owner fails or it is told to leave, and it is left to run, its routes and its record are gone in the end |
| TunReuse.ReusedAttemptLosesRoutes | internal/linuxtunhelper/native_linux.go:1002-1024 | with a reused attempt it does: a run that ends with a live owner without a file and a route no cleanup knows of |
| TunHost.BringupIsUndone | internal/linuxtunhelper/native_linux.go:403-444 | wherever a bring-up stops, the cleanup for its snapshot restores the routes there were before |
| TunHost.Host.CleanupNativeHostState | internal/linuxtunhelper/native_linux.go:544-592 | the loops delete the halves and then every exclusion, whatever became of the others |
| TunHost.Host.BringupHost | internal/linuxtunhelper/native_linux.go:403-444 | the commands up to the first that fails, in the source's order; it succeeds exactly if none does and there is an interface and an address, and then both halves and every exclusion are installed and nothing else is touched |
| TunHost.StateManager.PrepareStart | internal/linuxtunhelper/native_linux.go:827-867 | refuses beside a live helper, sweeps after a dead one, then claims the file; a failed sweep keeps the record |
| TunHost.StateManager.Update | internal/linuxtunhelper/native_linux.go:869-885 | only the record of its own attempt changes, and only its snapshot |
| TunHost.StateManager.RemoveIfAttempt | internal/linuxtunhelper/native_linux.go:937-951 | only its own attempt's record is removed |
| TunHost.StateManager.Cleanup | internal/linuxtunhelper/native_linux.go:887-935 | a live helper's file and routes are left alone; otherwise everything the record covers is swept |
| TunHost.NativeLifecycle.AcquirePermission | internal/linuxtunhelper/native_linux.go:305-334 | the device's name is published under the attempt's own record |
| TunHost.NativeLifecycle.ValidateRoutePolicy | internal/linuxtunhelper/native_linux.go:336-401 | the exclusions are in the file before any is installed |
| TunHost.NativeLifecycle.Start | internal/linuxtunhelper/native_linux.go:133-190 | succeeds exactly if everything it needs is there and no command fails, and then both halves and the exclusions are installed, covered by the file; otherwise routes are as they were and there is no record |
| TunHost.NativeLifecycle.Shutdown | internal/linuxtunhelper/native_linux.go:179-190 | leaving sweeps the snapshot and removes the record |
| PlatformTunnel.SessionsStayOk | pkg/clientcontrol/host.go:1062-1150 | under every interleaving of locked sections, at most one session per mode goes on, and done is closed once, exactly when its session has ended |
| PlatformTunnel.MarkedEnds | pkg/clientcontrol/host.go:1121-1150 | marking ends every session of one mode and no other |
| PlatformTunnel.PublishedLives | pkg/clientcontrol/host.go:1062-1110 | a published session goes on, alone in its mode |
| LinuxDesktop.HostAndControllerAgree | internal/linuxdesktophost/platform_tunnel.go:349-447 | after every sequence of calls: a session in progress has its active attempt; an active attempt without one was stranded by a failed cleanup, so with stops that succeed the two agree; no attempt number is used twice |
| LinuxDesktop.SecondStart | internal/linuxdesktophost/platform_tunnel.go:337-359 | a start beside a running tunnel changes nothing, except that a lease failure other than the profile's stops the running one |
| LinuxDesktop.StartKeeps | pkg/clientcontrol/host.go:788-819 | every start, however it ends, keeps host and controller in agreement |
| LinuxDesktop.AttemptOutcomes | internal/linuxdesktophost/platform_tunnel.go:349-414 | what becomes of a native attempt, condition by condition: it ends at once, is cleaned up by a stop, or becomes a session |
| LinuxDesktop.RefusedStarts | internal/linuxdesktophost/platform_tunnel.go:268-348 | what becomes of a start that begins no attempt |
| LinuxDesktop.StopOutcome | internal/linuxdesktophost/platform_tunnel.go:416-447 | a stop that succeeds takes attempt, requests and session away, any other changes nothing |
| LinuxDesktop.SessionsNeedEvidence | internal/linuxdesktophost/platform_tunnel.go:349-414 | after any calls, a start ends in a running tunnel if and only if it gets through with a lease, nothing is stranded, the native start succeeds, the evidence is present with all three flags set, and there is a session |
| LinuxDesktop.HostChecksEvidence | pkg/clientcontrol/host.go:788-819 | whatever a desktop controller answers, the host publishes its session exactly if it is ready and proven in all three respects |
| AndroidEmbedded.HostAndControllerAgree | internal/androidembeddedhost/platform_tunnel.go:182-260 | after every sequence of calls the controller's pending attempts are the host's startup requests, and an id led to a published session at most as often as it was stored |
| AndroidEmbedded.OneSessionPerAttempt | internal/androidembeddedhost/platform_tunnel.go:348-384 | with ids the controller makes up, every attempt id leads to at most one published session |
| AndroidEmbedded.PendingKeeps | internal/androidembeddedhost/platform_tunnel.go:348-366 | a startup that waits for permission is noted on both sides under the same id |
| AndroidEmbedded.ResumeKeeps | pkg/clientcontrol/host.go:821-867 | a resume keeps the two in agreement, whatever fails |
| AndroidEmbedded.ResumeFindsItsRequest | pkg/clientcontrol/host.go:529-565 | a resume takes its id from both sides or finds it on neither, so it never loses its request |
| AndroidEmbedded.StartOutcomes | internal/androidembeddedhost/platform_tunnel.go:121-208 | what becomes of a startup that does not wait for permission, condition by condition |
| AndroidEmbedded.ResumePublishes | internal/androidembeddedhost/platform_tunnel.go:210-232 | a resume of a pending id takes it up, and it leads to a running session exactly if permission is granted, the runtime comes up and there is a session; any other id changes nothing |
| AndroidEmbedded.PendingThenResumed | pkg/clientcontrol/host.go:529-565 | after any calls, a startup that waits for permission and is resumed with it ends in a running session |
| PlatformHost.ClientHost.MarkPlatformTunnelSessionsStopped | pkg/clientcontrol/host.go:1121-1150 | the loop over the sessions in any order marks exactly those of the mode |
| PlatformHost.ClientHost.StartPlatformTunnelSession | pkg/clientcontrol/host.go:1062-1110 | ends the session it replaces and publishes the new one |
| PlatformHost.ClientHost.TakeStartupRequest | pkg/clientcontrol/host.go:1162-1174 | hands out a pending request once |
| PlatformHost.ClientHost.ClearStartupRequestsForMode | pkg/clientcontrol/host.go:1176-1184 | the loop forgets exactly the requests of the mode |
| PlatformHost.LinuxTunController.BeginNativeAttempt | internal/linuxdesktophost/platform_tunnel.go:483-499 | at most one active attempt, with a new number each |
| PlatformHost.LinuxTunController.Start | internal/linuxdesktophost/platform_tunnel.go:268-414 | every way a start can end in the controller; it is ready exactly with a plan, a lease, no other attempt, a native start that succeeds and full evidence |
| PlatformHost.LinuxHost.StartPlatformTunnel | pkg/clientcontrol/host.go:472-527 | the whole call, with the agreement kept; with no tunnel running it ends in one exactly if everything succeeds and is proven |
| PlatformHost.LinuxHost.StopPlatformTunnel | pkg/clientcontrol/host.go:567-599 | a stop that succeeds takes attempt, requests and sessions with it, one that fails changes nothing |
| PlatformHost.AndroidVPNServiceController.StoreStartupAttempt | internal/androidembeddedhost/platform_tunnel.go:348-366 | the attempt is stored under the id asked for, or a made-up one |
| PlatformHost.AndroidVPNServiceController.Resume | internal/androidembeddedhost/platform_tunnel.go:210-232 | the attempt is taken before anything can fail |
| PlatformHost.AndroidHost.ResumePlatformTunnel | pkg/clientcontrol/host.go:529-565 | the whole call, with the agreement kept |
| Catalog.ReadyExactly | internal/vpscatalog/validation.go:175-236 | an offer is ready if and only if it and its source are healthy and have evidence, all of it fresh, nothing having expired |
| Catalog.FirstProblemIsFirst | internal/vpscatalog/validation.go:213-236 | the status reported is that of the first piece of evidence that is not valid |
| Catalog.TtlIsBounded | internal/vpscatalog/service.go:262-275 | even when the 64-bit multiplication overflows, a lifetime is positive and at most a positive maximum |
| Catalog.TtlExactly | internal/vpscatalog/service.go:262-275 | short of an overflow, a request within the maximum is granted as asked, any other gets the maximum, or a minute |
| Catalog.OneResponsePerOperation | internal/vpscatalog/service.go:151-193 | over any request history, the catalog changing included, all successful replies for one operation are equal |
| Catalog.RepliesAreStored | internal/vpscatalog/service.go:189-196 | every successful reply is what is stored for its operation from then on |
| Catalog.CountersAgree | internal/vpscatalog/service.go:164-193 | over any history, stored issues equal the ok counter, evidence and issue counters agree status by status, and the audit trail counts the same |
| Catalog.NewIssuesAreReady | internal/vpscatalog/service.go:161-189 | a new request is unknown if and only if no source of its source id has an offer of its offer id; else the first such offer decides, and what is issued, exactly if all is ready, carries the ids asked for and the names of the catalog in force |
| Catalog.NewIssuesLive | internal/vpscatalog/service.go:262-275 | and lives as long as it asked to, or as long as it may |
| Catalog.RepliesExactly | internal/vpscatalog/service.go:127-197 | how each request is let through, what it is answered, and what is stored, counted and noted about it |
| Catalog.FoundIsFirst | internal/vpscatalog/service.go:364-376 | the search fails exactly if there is no such pair and otherwise finds the first one |
| Catalog.FirstProblemIsReported | internal/vpscatalog/validation.go:175-236 | an offer that is not ready is reported with the first problem in the order in which things are looked at |
| Catalog.StatusesExactly | internal/vpscatalog/validation.go:196-237 | which status each item of health or evidence stands for |
| Catalog.Service.HandleArtifactIssue | internal/vpscatalog/service.go:127-197 | the whole request, with the counters kept in agreement |
| Catalog.Service.LookUpOffer | internal/vpscatalog/service.go:364-376 | the nested search, on through further sources with the same id: the first pair with both ids, or none exactly if there is none |
| ProviderSettings.SettingsAreAccepted | pkg/clientcontrol/provider_settings_validation.go:173-253 | settings are accepted exactly if their trimmed keys are distinct and not empty, each is declared and may be held in this mode, each value is what its property asks for, and every key required as written is given |
| ProviderSettings.ValuesAreAccepted | pkg/clientcontrol/provider_settings_validation.go:296-427 | what a value must be, type by type: the text or number it stands for, among the choices, within length and bounds |
| ProviderSettings.RedactedCanBeStored | pkg/clientcontrol/provider_settings_validation.go:173-294 | for every schema, what redaction leaves of settings accepted for immediate use can be stored, unchanged, if and only if no float32 under a persistable number key is NaN or infinite; nothing under any other key can be stored |
| ProviderSettings.NonFiniteNumberCannotBeStored | pkg/clientcontrol/provider_settings_validation.go:472-504 | a float32 NaN or infinity is accepted for immediate use, survives redaction, and is then refused in every mode |
| ProviderSettings.StoredSettingsHideNothing | pkg/clientcontrol/provider_settings_validation.go:208-221 | nothing prompt-only is ever stored, and redaction leaves stored settings alone |
| ProviderSettings.AcceptedStaysAccepted | pkg/clientcontrol/provider_settings_validation.go:173-253 | accepting what was accepted changes nothing if and only if no float32 under a number key is NaN or infinite, and fails otherwise |
| ProviderSettings.AcceptedShape | pkg/clientcontrol/provider_settings_validation.go:173-253 | accepted settings have trimmed, declared keys, all that are required as written, and the normal form of each value given |
| ProviderSettings.NormalValuesStay | pkg/clientcontrol/provider_settings_validation.go:296-427 | a value accepted once is accepted again as it is, except that a number that was a non-finite float32 is refused |
| ProviderSettings.RequiredKeys | pkg/clientcontrol/provider_settings_validation.go:229-247 | for every valid schema and mode: every set of keys that passes has all the keys meant if and only if each of them is listed without surrounding space |
| ProviderSettings.RequiredIsEnforced | pkg/clientcontrol/provider_settings_validation.go:229-247 | the same for settings: all accepted settings have all the keys meant if and only if these are listed so, or nothing is accepted |
| ProviderSettings.DroppedKey | pkg/clientcontrol/provider_settings_validation.go:229-247 | taking a key that is meant out of accepted settings is refused exactly if it is listed so, and otherwise changes nothing else |
| ProviderSettings.PaddedKeyIsNotRequired | pkg/clientcontrol/provider_settings_validation.go:229-247 | a schema that requires its one key with space around it is valid, and empty settings are accepted |
| ProviderSettings.NormalizeForDescriptor | pkg/clientcontrol/provider_settings_validation.go:173-253 | the loops compute the accepted map or an error, for every schema and mode, floats of either width included |
| ProviderSettings.NormalizeProviderSettingsKeys | pkg/clientcontrol/provider_settings_validation.go:547-572 | fails exactly for an empty or repeated trimmed key |
| ProviderSettings.RedactForOrdinaryRead | pkg/clientcontrol/provider_settings_validation.go:266-294 | keeps exactly the declared settings that may be stored |

## Left out

- Sockets, DTLS, TURN, WireGuard and TUN devices: a link is a set of datagrams to receive from, a connection a source of chunks and a place to write, possibly in part.
- Timers and deadlines: every timeout is a choice of the step to fail or to give up.
- Delivery and liveness: a close may discard queued data, so the stream theorems are about prefixes; lemmas show that everything can arrive, that a notice can reach the other side, and that the loops of a closed stream can end, not that they do.
- Wrap-around of stream ids and sequence numbers: a step that would pass the 64-bit limit is not taken.
- The order of the supervisor's channels: they are bags, so the loop may take events in more orders than a channel allows.
- The choice of a worker in the accept loop: a new stream may take any channel; that its worker is still ready when the stream is stored is not claimed, and the source does not ensure it.
- The write of a close frame and the closing on the server: one step, since the order of datagrams on a link is free anyway.
- The methods that close several streams: each runs without other goroutines in between; the transition systems collect first and then close one stream a step.
- Handshakes that lose a datagram: the exchange is modelled for datagrams that arrive; otherwise its deadline ends it.
- Process ids used again, state files half written, and `ip route del` failing for another reason than a missing route: assumed not to happen. When a deletion fails, the source still removes the record of the attempt.
- The end of the wait for a helper to leave: its cleanup and the removal of the file, which the source does outside the lock, are one step together with the read before them.
- Foreign routes to the tunnel's own destinations: assumed absent.
- The verification of the data plane, DNS and interface names other than trimmed ones: the environment gives their results.
- Concurrent calls into the host: agreement with the controllers is for calls one after the other; the properties of the sessions hold for every interleaving of locked sections.
- The status report of platform tunnels: it depends on ties of clocks and on map order.
- Execution plans, capabilities and requests beyond mode and attempt id: each is one outcome of the environment.
- The Windows host: a near copy of the Linux one.
- Android ids: taken as trimmed; an id that the device asks for may be asked for again, and then leads to at most as many sessions as it was stored.
- TunRuns.NoRouteIsLost: assumes that no two helpers are started for the same attempt, because it fails otherwise.
- TunServing.ServingHasItsRoutes: assumes the same, for the same reason.
- TunnelDown.LocalGetsPrefix: assumes that the session takes no open frame for an id it closed before, because it fails otherwise.
- Catalog.CountersAgree: the audit trail is written after the lock is released, so its agreement is for requests one after the other; counters do not wrap around.
- SupervisedRun.StepKeeps: a runner reports ready at most once, as its one call of the ready hook does (internal/transport/client.go:123-125).
- Hashes, export payloads, provenance and redaction policies of issued artifacts: an artifact id is given with the request.
- Which of several errors is reported for settings: acceptance is a result or an error, since key order decides only the message.
- Floats: a float is a real, NaN or an infinity; rounding of integers and the conversion of the one float just out of range are whatever the machine does.
- JSON, HTTP handlers, logging, metrics output, command-line flags and localisation.
