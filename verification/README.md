# A verified model of the bondybird Bluetooth host

This project models the protocol core of the bondybird host and proves what its
parts promise each other: the L2CAP signalling processor with its CID allocator
and pending requests, the ACL reassembly and the three wire codecs beneath it,
the SDP record database and attribute parser, the A2DP stream bookkeeping, and
the path from controller events to the host's two connection indexes.

`dafny verify dfyconfig.toml` checks everything.

## How it is organised

Every object the source mutates is a class whose methods are proved against
functions on plain values (`Value()` gives the value of an object). What is
promised is then proved about those functions, over all inputs and all runs.

| files | subject |
|---|---|
| `Wrappers`, `Words`, `IndexMap` | results, machine words, the bounded index map with its swap-remove |
| `Channel`, `Packet`, `Signaling`, `Processor` | the L2CAP layer, method by method |
| `ProcessorRuns`, `PendingRuns`, `Reuse` | one processor against arbitrary incoming commands |
| `Agreement`, `Duplex`, `Counting`, `Untimely`, `Crossing` | two processors joined by FIFO links |
| `Acl`, `Reassembly`, `Wire`, `Layout` | fragments, links, commands over the wire, and the wire forms in numbers |
| `SdpRecord`, `SdpAttribute`, `SdpEncoding`, `SdpServer`, `SdpRuns` | records, the cursor parser, the encoding it inverts, the database and its queries (`SdpRuns.dfy` also holds the module `SdpQueries`) |
| `A2dp`, `A2dpRuns`, `A2dpEndpoints` | streams, connections and endpoints |
| `Host`, `HostRuns` | events, the command queue and the indexes |

Machine integers are ranges of `int`, and every wrap-around, saturation and
truncation is written out. A bounded vector takes all of an extension or none. A
read outside a buffer, which stops the program, is an outcome of its own.

## Main results

- **Two-party agreement** (`Duplex.TwoPartyAgreement`, `Counting.CountedAgreement`):
  in every reachable state the channels of the two sides refer to each other, or
  the message that explains why not is in flight; what untimely actions lead to
  (`Untimely`), and a reachable run that does (`Crossing`).
- **Awaiting channels** (`PendingRuns.RunsAwait`, `OnlyItsAnswerTouches`): only
  the answer to its own request touches a channel that waits for one.
- **Wire transparency** (`Wire.WireIsTransparent`), the **wire forms by number**
  (`Layout.ParsedExactly`, `PrintedLayout`) and **reassembly**
  (`Reassembly.IntactExactlyWhen`, `LinksAreIsolated`).
- **Budgeted SDP queries are prefixes** (`SdpQueries.BudgetedQueryIsPrefix`),
  **searches are exact**, and the **attribute parser inverts its encoding**
  (`SdpEncoding.ListRoundTrip`), ends on all data (`SdpAttribute.IterationEnds`), and
  panics under an exact condition (`IterationPanicsExactly`).
- **Inverse indexes** in A2DP (`A2dpRuns.StepSoundExactly`, `RunsStaySound`) and
  in the host under any queue lag (`HostRuns.IndexesStayInverse`); and when the
  `in_use` flags follow the live streams (`A2dpEndpoints.RunsStayTiedExactly`).

## Assumptions and departures from intent

The code is modelled as it is. Where it departs from its evident intent:

- The ACL layer takes the expected length from bytes 2 and 3 of a first fragment
  (`src/acl.rs:380`), where the basic frame has the channel identifier
  (`src/l2cap/packet.rs:105-106`). The reader is a parameter: reassembly is right
  exactly when it agrees with the frame, and `SignallingFramesAreCut` shows what
  happens with the bytes the code reads. The sum is 16-bit.
- The processor never advances the remote side of a channel's configuration, so
  no channel is ever Open (`ProcessorRuns.RunsStayCoherent`). The reply to a
  configuration request carries the request identifier where a CID belongs.
- A connect that finds the pending list full leaves its channel behind, waiting.
  A peer's disconnect leaves the pending requests of the channel it removes. The
  result Pending closes a channel. A request refused for want of room is not
  answered, and the requester keeps waiting.
- The two-party invariant is kept by an action exactly when the action is timely
  (`Duplex.StepKeepsJoinedExactly`): a connect or disconnect that sends draws no
  identifier that an outstanding request of the same kind carries, and a channel
  is opened under no CID that an outstanding connection or disconnection request
  names. Configuring is always timely. Each kind of untimely action leads to
  disagreement in the states `Untimely` describes: a reused CID, drawn by a connect
  or given to an accepted request, and a reused identifier of a connection or a
  disconnection request. It does not in all states: a peer without room answers no
  request, and two disconnections under one identifier can be answered in order.
- Bounding what is drawn while a request is outstanding does not make a run
  timely, because a request may concern a channel much older than itself: in the
  run of `Crossing.CountsWhileOutstandingDoNotSuffice` crossed disconnects free a
  CID right at the cursor, a connect takes it, and the late answer removes the new
  channel. `Counting` gives bounds that do suffice, with the cursor steps counted
  from the draw of the CID that a request names; `Reuse` shows the effect on one
  processor.
- Besides a matched channel and a disconnection in flight, agreement has a third
  case: the side that accepts knows the requester's CID before its acceptance
  arrives.
- Replies of the processor are assumed to be sent on the link; `src/acl.rs`
  computes and drops them at present.
- The sequence arm of the SDP parser does not check the declared end, may stop
  short of it, and reads every sequence as raw 16-byte items. So a sequence can
  make the parser read outside its buffer, under the condition that
  `SdpAttribute.SequencePanicsExactly` states.
- The stored record-state attribute is one behind the record state.
- `in_use` of an A2DP endpoint follows the live streams only under exact guards
  (`A2dpEndpoints.StepTiedExactly`). Removing a connection resets no endpoint;
  closing a stream clears `in_use` also when another live stream has the endpoint;
  a creation that is refused for want of room has already set it. `InUseWithoutStream`
  and `StreamWithoutInUse` are runs from start-up that break it.
- Fresh traces of controller events never report a live address or handle as
  newly connected, and handles have 12 bits.

## Model

| member | source | states |
|---|---|---|
| Channel.ChannelManager.AllocateCid | src/l2cap/channel.rs:267-284 | the allocation loop returns and leaves behind what the probe specification says, cursor included, also on failure |
| Channel.ProbesBounded | src/l2cap/channel.rs:267-284 | pigeonhole: no more consecutive probes can hit live CIDs than there are channels |
| Channel.ProbeFindsFirstFree | src/l2cap/channel.rs:267-284 | with more probes allowed than channels live, the loop stops at the first free CID in cyclic order, one probe past the live ones |
| Channel.AllocateFirstFree | src/l2cap/channel.rs:267-284 | with the 8-channel map allocation never fails, returns the first free CID in cyclic order within one probe more than there are live channels, and keeps the cursor in 0x40..0xFFFF |
| Channel.CidsRepeatByCycle | src/l2cap/channel.rs:274-280 | cursor positions coincide exactly when a multiple of 0xFFC0 steps apart |
| Channel.AllocationsAreDistinct | src/l2cap/channel.rs:267-284 | over any run of allocations, against arbitrary channel maps in between, that moves the cursor by at most 0xFFC0 steps in all, every allocation succeeds and the CIDs handed out are dynamic and pairwise distinct |
| Channel.FindByRemoteCidFirst | src/l2cap/channel.rs:358-366 | the lookup finds a channel exactly when the link has one with that remote CID, and then the first in map order |
| Channel.AddChannelEffect | src/l2cap/channel.rs:290-326 | storing a new channel fills its CID and nothing else, and fails, changing nothing, exactly on a full map |
| Channel.ChannelManager.CreateOutgoingChannel | src/l2cap/channel.rs:290-304 | the whole new manager state and the result, both failure exits included |
| Channel.ChannelManager.CreateIncomingChannel | src/l2cap/channel.rs:310-326 | the whole new manager state and the result, both failure exits included |
| Channel.ChannelManager.RemoveChannelByCid | src/l2cap/channel.rs:340-342 | the whole new manager state: the swap-remove of that CID, or nothing |
| Packet.PacketRoundTrip | src/l2cap/packet.rs:100-118 | parsing a printed frame, whatever follows it, returns that frame |
| Packet.PacketReprints | src/l2cap/packet.rs:155-193 | printing a parsed frame returns exactly the bytes it was parsed from |
| Packet.PacketToBytes | src/l2cap/packet.rs:179-193 | the buffer is filled with header then payload, or refused when they do not fit |
| Layout.FramePrinted | src/l2cap/packet.rs:179-193 | length in bytes 0 and 1, channel in bytes 2 and 3, low byte first, then the payload |
| Layout.FrameParsedExactly | src/l2cap/packet.rs:155-176 | bytes are parsed to a frame if and only if they begin with it in that layout, with at most 1024 bytes of payload |
| Layout.FrameErrors | src/l2cap/packet.rs:155-193 | a frame that is cut off is refused as incomplete, a longer one than the buffer as too large; printing fails exactly beyond 1024 bytes |
| Signaling.CommandRoundTrip | src/l2cap/signaling.rs:630-726 | parsing a printed command, whatever follows it, returns that command, for every well-formed command that fits its buffer |
| Signaling.CommandReprints | src/l2cap/signaling.rs:630-726 | printing a parsed command returns the bytes the parser used; these are all it was given if and only if the length field equals the payload size, which is always so for configuration and unknown commands; printing fails exactly beyond 64 bytes |
| Signaling.CommandToBytes | src/l2cap/signaling.rs:678-726 | the buffer is filled with header and payload of each kind, or refused when they do not fit |
| Layout.PrintedLayout | src/l2cap/signaling.rs:616-726 | the printed bytes of every command kind in numbers: code, identifier, length, each field at its offset low byte first, and the result words |
| Layout.ParsedExactly | src/l2cap/signaling.rs:630-676 | bytes are parsed to a command if and only if the part its length field announces is laid out as that command in those numbers, with at most 64 bytes of options or data |
| Layout.CommandErrors | src/l2cap/signaling.rs:630-676 | bytes that are no command are refused as too large exactly when their options or data exceed 64 bytes, and as incomplete in every other case |
| Signaling.ConfigurationRequestToBytes | src/l2cap/signaling.rs:352-366 | destination CID, flags and options in order, or refused when they do not fit |
| Signaling.ConfigurationResponseToBytes | src/l2cap/signaling.rs:438-455 | source CID, flags, result and options in order, or refused when they do not fit |
| Processor.SignalingProcessor.NextIdentifier | src/l2cap/processor.rs:35-42 | hands out the identifier due and moves on, skipping 0 on wrap-around |
| Processor.SignalingProcessor.ConnectTo | src/l2cap/processor.rs:102-140 | the whole new state and the request sent; a full pending list leaves the new channel behind |
| Processor.SignalingProcessor.Configure | src/l2cap/processor.rs:330-368 | the whole new state and the request sent, on every error exit too |
| Processor.SignalingProcessor.DisconnectChannel | src/l2cap/processor.rs:450-483 | the whole new state and the request sent, on every error exit too |
| Processor.SignalingProcessor.OnCommand | src/l2cap/processor.rs:146-179 | the whole new state and the reply for every command, also when handling fails |
| Processor.SignalingProcessor.OnConnectionRequest | src/l2cap/processor.rs:182-226 | the whole new state and the acceptance, the refusal of another PSM, or the error on a full map |
| Processor.SignalingProcessor.OnConnectionResponse | src/l2cap/processor.rs:229-261 | the whole new state: the pending entry found by identifier goes, its channel is re-stated |
| Processor.SignalingProcessor.OnConfigurationResponse | src/l2cap/processor.rs:287-324 | the whole new state: the pending entry goes, its channel's local side completes or it closes |
| Processor.SignalingProcessor.OnDisconnectionRequest | src/l2cap/processor.rs:372-418 | the whole new state and the reply, sent whether or not a channel is found |
| Processor.SignalingProcessor.OnDisconnectionResponse | src/l2cap/processor.rs:421-444 | the whole new state: the pending entry and its channel go |
| Processor.FindPendingFirst | src/l2cap/processor.rs:235-243 | the pending entry picked is the first with the identifier and code |
| ProcessorRuns.ConnectEffect | src/l2cap/processor.rs:102-140 | a connect opens exactly one waiting channel under the allocated CID, draws an identifier, and tracks its request, except on a full map or a full pending list, with exactly what then remains |
| ProcessorRuns.ConfigureEffect | src/l2cap/processor.rs:330-368 | configuring changes that channel only and is possible exactly when it has a remote CID |
| ProcessorRuns.DisconnectEffect | src/l2cap/processor.rs:450-483 | disconnecting changes that channel only and is possible exactly when it has a remote CID |
| ProcessorRuns.ConnectionRequestEffect | src/l2cap/processor.rs:182-226 | an accepted request adds one channel with the peer's CID and announces the local one; every other request changes no channel |
| ProcessorRuns.ResponseEffect | src/l2cap/processor.rs:229-444 | a matched response removes exactly its entry from the multiset of pending requests and touches at most that entry's channel; an unmatched response changes nothing and is an error |
| ProcessorRuns.ConnectionAnswerSettles | src/l2cap/processor.rs:229-261 | a matched connection response for a present channel gives it the announced remote CID and state Config on success, and state Closed for every other result, Pending included; no other channel changes |
| ProcessorRuns.ConfigurationAnswerSettles | src/l2cap/processor.rs:287-324 | a matched configuration response completes the local side on success, opening the channel exactly when the remote side is complete, and closes the channel for every other result; no other channel changes |
| ProcessorRuns.ConfigurationIsGranted | src/l2cap/processor.rs:265-284 | a configuration request changes nothing and is granted with no flags and no options, the answer naming the request's identifier as source CID; unknown commands change nothing and get no answer |
| ProcessorRuns.DisconnectionRequestEffect | src/l2cap/processor.rs:372-418 | a peer's disconnect removes at most one channel, of that link and with that remote CID, and leaves the pending requests |
| ProcessorRuns.CoherentStep | src/l2cap/processor.rs:102-483 | every operation keeps: keys are local CIDs in the dynamic range, waiting channels have no remote CID and connected ones have one, pending entries name a local CID and a request code, and Open needs both sides complete |
| ProcessorRuns.RunsStayCoherent | src/l2cap/processor.rs:102-483 | that invariant over every run from the new processor or any coherent one, and in it no channel is ever Open |
| PendingRuns.ConnectAwaits | src/l2cap/processor.rs:102-139 | a connect keeps the pending connection requests mapped one to one onto waiting channels if and only if the CID it allocates is not named by a pending request, when the request is tracked |
| PendingRuns.AwaitingStep | src/l2cap/processor.rs:102-483 | every other operation keeps that mapping |
| PendingRuns.OnlyItsAnswerTouches | src/l2cap/processor.rs:229-443 | no operation but the answer to its own request re-states or removes a channel that awaits its connection answer |
| PendingRuns.RunsAwait | src/l2cap/processor.rs:102-483 | in every run that draws at most 0xFFC0 CIDs, against arbitrary incoming commands, the pending connection requests map injectively onto channels present, waiting, and without remote CID |
| PendingRuns.NewProcessorAwaits | src/l2cap/processor.rs:79-85 | a new processor starts such runs |
| PendingRuns.IdentifiersRepeatEvery255 | src/l2cap/processor.rs:35-42 | identifiers are never 0 and two draws coincide exactly when a multiple of 255 apart |
| PendingRuns.RunsAreAged | src/l2cap/processor.rs:35-139 | over every run the number of draws since a pending request determines its identifier, through swap-removal |
| PendingRuns.YoungIdentifiersDistinct | src/l2cap/processor.rs:35-42 | while no pending request is older than 254 draws the pending identifiers are distinct and the next one is new |
| PendingRuns.AnswerIsUnique | src/l2cap/processor.rs:235-243 | with distinct identifiers a response matches no pending entry but the one picked |
| Reuse.AnswerReachesNewRequest | src/l2cap/processor.rs:235-243 | the answer to a new connection request finds it if and only if no older one carries its identifier |
| Reuse.ReusedCidIsLost | src/l2cap/processor.rs:421-444 | if the CID a connect allocates is still named by a pending disconnection, that disconnection's answer removes the new channel while its own request stays pending |
| Reuse.AcceptedCidIsLost | src/l2cap/processor.rs:182-226 | if the CID given to an accepted connection request is still named by a pending disconnection, that disconnection's answer removes the channel that the acceptance announced |
| Reuse.ReuseHappens | src/l2cap/processor.rs:102-139 | a concrete state that meets the invariants in which a connect reuses such a CID and the mapping is lost |
| Duplex.JoinedStep | src/l2cap/processor.rs:102-483 | the two-party invariant is kept by every call and every delivery on either side that is timely, crossed and repeated disconnects included: a connect or disconnect that sends draws no identifier that an outstanding request of the same kind carries, and a channel is opened under no CID that an outstanding connection or disconnection request names |
| Duplex.StepKeepsJoinedExactly | src/l2cap/processor.rs:102-483 | a call or a delivery keeps the two-party invariant if and only if it is timely; configuring and every delivery but an accepted connection request always are |
| Duplex.RunsStayJoined | src/l2cap/processor.rs:102-483 | the invariant holds in every state of every timely run |
| Duplex.TwoPartyAgreement | src/l2cap/processor.rs:102-483 | in every state a timely run of two new processors reaches, a channel a with remote CID b is matched by the peer's channel b with remote CID a, or the acceptance that announces a, or the answer to a's disconnection, is in flight |
| Duplex.QuietMeansMatched | src/l2cap/processor.rs:102-483 | with nothing in flight the connected channels of the two sides refer to each other, both ways |
| Duplex.ResponseUpdatesItsSource | src/l2cap/processor.rs:229-261 | a delivered connection response updates exactly the channel its source CID names, a field the handler never reads, and no other |
| Counting.CountedRunsAreTimely | src/l2cap/processor.rs:35-42 | runs are timely in which no connect or disconnect is sent while a request of its kind is 255 identifier draws old, and no channel is opened once the cursor went round since the draw of a CID that an outstanding connection or disconnection request names; the runs may draw any number of CIDs in all |
| Counting.CountedAgreement | src/l2cap/processor.rs:102-483 | two-party agreement in every run within those counts |
| Untimely.ConnectReuseUnmatches | src/l2cap/processor.rs:102-139 | in every state of the two-party invariant where a connect takes the CID of an outstanding disconnection, with only that disconnection in flight and room at the peer, deliveries lead to a quiet state with an unmatched channel |
| Untimely.AcceptReuseUnmatches | src/l2cap/processor.rs:182-226 | the same for every delivery of a connection request that is untimely, with one message besides it in flight |
| Untimely.QuietConnectExactly | src/l2cap/processor.rs:229-261 | after a connect in a quiet state of the invariant, and its exchange with a peer that has room, the two sides agree if and only if no connection request left unanswered carries the identifier drawn |
| Untimely.DisconnectReuseDisagrees | src/l2cap/processor.rs:421-483 | a disconnect that draws the identifier of an outstanding disconnection, in a state of the invariant where an older entry is answered first: swap-removal puts the new request ahead, the answer to the old one ends the wrong channel, and the right one is left unmatched with no explanation in flight |
| Crossing.CountsWhileOutstandingDoNotSuffice | src/l2cap/processor.rs:102-483 | for any addresses there is a run from two new processors in which no side draws 255 identifiers or 0xFFC0 CIDs while one of its requests is outstanding, and which ends quiet with the channels unmatched |
| Acl.AclPacketRoundTrip | src/acl.rs:109-199 | parsing a printed ACL packet, whatever follows it, returns the packet; the flags share the handle's word without loss |
| Acl.AclPacketToBytes | src/acl.rs:188-199 | the buffer is filled with header and data, or refused when they do not fit |
| Layout.AclPrinted | src/acl.rs:109-199 | the handle in the low 12 bits of the first word, the boundary and broadcast flags above it by number, then length and data |
| Layout.AclParsedExactly | src/acl.rs:109-186 | bytes are parsed to an ACL packet if and only if they begin with it in that layout, with at most 1024 bytes of data |
| Layout.AclErrors | src/acl.rs:109-199 | a short header, short data and oversized data are refused in this order, each with its error; printing fails exactly beyond the capacity |
| Acl.AclManager.AddConnection | src/acl.rs:315-325 | a known handle starts over, a new one is added, a fifth link is refused and changes nothing |
| Acl.AclManager.RemoveConnection | src/acl.rs:328-330 | that link and no other is removed |
| Acl.AclManager.ProcessAclPacket | src/acl.rs:361-409 | the whole new state of links and processor, and the result, for each boundary flag and every error |
| Acl.AclManager.ProcessL2capData | src/acl.rs:412-489 | a frame reaches the processor exactly when it is a well-formed command on the signalling channel; every other channel gets its own result |
| Layout.RouteByChannel | src/acl.rs:412-489 | by number: channels 2 to 7 are unsupported, 0 and 8 to 0x3F reserved, frames from 0x40 on are taken without effect, and bytes that are no whole frame are refused; none of these changes the processor |
| Layout.RouteSignaling | src/acl.rs:412-489 | on channel 1 the payload is parsed and handled for the address of the link, or refused, and a handling error is reported as such |
| Reassembly.ReassembledAtFirstBoundary | src/acl.rs:374-405 | for every split into a first fragment of at least 4 bytes and continuing ones, exactly the bytes up to the first boundary with the expected length are handed on, once |
| Reassembly.NothingBeforeBoundary | src/acl.rs:374-405 | before such a boundary nothing is handed on and every byte is kept |
| Reassembly.IntactExactlyWhen | src/acl.rs:374-405 | the original frame comes out whole and once if and only if it reaches the expected length and no shorter boundary does |
| Reassembly.AgreeingReaderReassembles | src/l2cap/packet.rs:100-109 | whenever the length reader agrees with the basic header, every fragmentation of a frame yields that frame |
| Reassembly.FramesAreCutByChannel | src/acl.rs:378-383 | with the bytes the code does read, every fragmented frame is handed on up to the first fragment boundary with four bytes more than its channel number, in 16-bit arithmetic |
| Reassembly.SignallingFramesAreCut | src/acl.rs:378-383 | with the bytes the code does read, every fragmented signalling frame with a payload, first fragment of at least 4 bytes, comes out cut at the first fragment boundary with 5 bytes: after the first fragment, unless that is the bare header |
| Reassembly.ShortStartNeverCompletes | src/acl.rs:374-396 | after a first fragment of fewer than 4 bytes nothing is handed on and every byte is kept |
| Reassembly.InterruptionsPassBy | src/acl.rs:361-409 | a complete packet in the middle of a fragmented frame comes out at once and leaves that frame as it would have been; so does a fragment beyond 1024 bytes, which is dropped |
| Reassembly.HugeLengthWraps | src/acl.rs:380-381 | a length of 0xFFFC or more wraps round, so the first fragment is handed on alone |
| Reassembly.CompletedFrameIsRouted | src/acl.rs:390-405 | the fragment that completes a frame sends the whole of it to the L2CAP layer, on the handle it came in on, and clears the buffer |
| Reassembly.IncompleteIsKept | src/acl.rs:361-400 | an unknown handle and an oversized fragment are refused with their error and change nothing; a fragment that completes nothing is accepted and does not reach the processor |
| Reassembly.FeedLeavesPending | src/acl.rs:361-409 | no packet, including a refused one, leaves a complete buffer behind |
| Reassembly.LinksStayPending | src/acl.rs:315-409 | over every run of link additions, link removals and packets no link ever holds a complete buffer between calls |
| Reassembly.LinksAreIsolated | src/acl.rs:315-409 | for every interleaving of additions, removals and packets on all links, the frames and the final state of a link are those of its own operations alone, a refused addition counting as none |
| Reassembly.ProcessingFollowsLinks | src/acl.rs:315-409 | over every run of the manager its links evolve in this way, whatever the upper layer does with the frames |
| Wire.RequestsAreEmittable | src/l2cap/processor.rs:118-139 | every request built has a header code and length that match its payload and fits 64 bytes |
| Wire.RepliesAreEmittable | src/l2cap/processor.rs:182-283 | only requests are answered; the reply is of the matching kind, names the right CIDs, carries the request's identifier and fits 64 bytes |
| Wire.ConfigurationReplyNamesRequester | src/l2cap/processor.rs:265-284 | the reply's source CID names the requester's channel if and only if the request's identifier equals that CID |
| Wire.WireIsTransparent | src/acl.rs:369-489 | an emittable command on CID 1 in a complete ACL packet survives printing and parsing of three layers and is handled as the identical command |
| Wire.RunsEmittable | src/l2cap/processor.rs:102-483 | over every two-party run everything in flight is emittable |
| SdpAttribute.AttributeListParser.ParseNext | src/sdp/attribute.rs:204-222 | outcome and cursor of one step, on every error exit too |
| SdpAttribute.AttributeListParser.ParseDataElement | src/sdp/attribute.rs:225-348 | outcome and cursor for every descriptor byte, a read past the buffer included |
| SdpAttribute.AttributeListParser.ParseItemsLoop | src/sdp/attribute.rs:326-344 | the loop collects the raw 16-byte items up to the declared end, or stops where the code does |
| SdpEncoding.EncodingHasEncodedSize | src/sdp/record.rs:248-272 | an element of any kind, those the parser refuses included, takes exactly its encoded size with an 8-bit length, and 1 or 3 bytes more with a 16-bit or 32-bit one |
| SdpEncoding.ElementRoundTrip | src/sdp/attribute.rs:225-384 | an encoded element, with an 8-, 16- or 32-bit length, wherever it stands and whatever follows, is parsed back and consumed exactly |
| SdpEncoding.UnsupportedFails | src/sdp/attribute.rs:225-348 | Boolean, signed and URL elements are refused at their descriptor |
| SdpEncoding.OtherDescriptors | src/sdp/attribute.rs:225-348 | every descriptor of type 0 is Nil, and every one of a type or size index that begins no element is refused |
| SdpEncoding.CutFieldFails | src/sdp/attribute.rs:225-384 | a number or a length field that the buffer cuts off is refused |
| SdpEncoding.TextOutcome | src/sdp/attribute.rs:225-384 | a text past the end of the buffer or beyond 64 bytes is refused, each with its error and cursor; every other one is returned |
| SdpEncoding.SequenceOutcome | src/sdp/attribute.rs:324-345 | a sequence that does not overrun yields the whole items the buffer holds of those declared, in order, or is refused beyond eight, each with its cursor |
| SdpEncoding.ListRoundTrip | src/sdp/attribute.rs:204-384 | iterating the parser over the encoding of any list of supported attributes, with any choice of length forms, returns that list and ends complete at the final byte |
| SdpAttribute.StepsAdvance | src/sdp/attribute.rs:204-384 | on any data a step keeps the cursor in the buffer, takes at least 3 bytes for an entry, and reads outside the buffer if and only if its element overruns |
| SdpAttribute.IterationEnds | src/sdp/attribute.rs:204-222 | on any data and from any position iteration ends by itself within a third of the remaining bytes, with the cursor in the buffer |
| SdpAttribute.IterationPanicsExactly | src/sdp/attribute.rs:204-345 | an iteration reads outside the buffer if and only if one of the elements it comes to overruns |
| SdpAttribute.IterationIsSafe | src/sdp/attribute.rs:204-345 | it never does when every element it comes to has its declared whole items in the buffer |
| SdpAttribute.SuccessIsStableExactly | src/sdp/attribute.rs:225-384 | a successful parse of an element depends on the bytes it consumed and on no others if and only if every whole item it declares as a sequence lies in the buffer |
| SdpAttribute.EntryIsStableExactly | src/sdp/attribute.rs:204-384 | the same for a step that returned an attribute entry |
| SdpAttribute.SequencePanicsExactly | src/sdp/attribute.rs:324-345 | a parse reads outside the buffer if and only if a sequence declares more items than the buffer holds whole, part of one is left over, and the whole ones fit the list |
| SdpRecord.AddAttributeEffect | src/sdp/record.rs:322-330 | stores exactly that attribute and bumps the state; fails exactly for a new identifier in a full record |
| SdpRecord.GetAttributeIsIn | src/sdp/record.rs:334-336 | the lookup agrees with the stored attributes |
| SdpServer.SdpServer.constructor | src/sdp/server.rs:60-70 | the new server's whole state, with its own record tried |
| SdpServer.SdpServer.AddServiceRecord | src/sdp/server.rs:76-103 | the whole new state and result; a handle is drawn on every error exit too |
| SdpServer.SdpServer.RemoveServiceRecord | src/sdp/server.rs:106-108 | the whole new state and the record removed, if any |
| SdpServer.SdpServer.SearchServices | src/sdp/server.rs:126-155 | the two loops, with their different exits, return what the search specification says |
| SdpServer.SdpServer.GetServiceAttributes | src/sdp/server.rs:161-198 | the loop builds what the answer specification says |
| SdpServer.SdpServer.NextTransactionId | src/sdp/server.rs:216-220 | hands out the identifier due and moves on, wrapping |
| SdpServer.SdpRequestHandler.HandleServiceSearch | src/sdp/server.rs:275-288 | the handles are cut to the requested number, the total is not |
| SdpServer.SdpRequestHandler.HandleServiceAttribute | src/sdp/server.rs:294-312 | the answer is cut to the byte budget |
| SdpServer.SdpRequestHandler.HandleServiceSearchAttribute | src/sdp/server.rs:318-352 | the loop returns what the combined-query specification says; the budget subtraction never underflows |
| SdpRuns.StampedExactly | src/sdp/server.rs:83-96 | a record can be stamped exactly when the missing identifying attributes still fit; then handle and handle attribute equal the key and all other attributes stay |
| SdpRuns.StateAttributeLags | src/sdp/server.rs:93-96 | the stored state attribute is one behind the record's state after every addition |
| SdpRuns.AddRecordEffect | src/sdp/server.rs:76-103 | an addition always draws a handle, succeeds exactly when the record fits and there is room or the handle is present, and stores the stamped record under the handle it returns |
| SdpRuns.RemoveRecordEffect | src/sdp/server.rs:106-108 | a removal takes exactly that record and returns it |
| SdpRuns.NewDatabaseConsistent | src/sdp/server.rs:60-70 | the new server holds its own record under handle 0x10000 and nothing else, with its class, name, PSM, version, handle and lagging state by value |
| SdpRuns.EveryServerIsConsistent | src/sdp/server.rs:76-108 | over every run of additions and removals each record sits under a key equal to its handle and its handle attribute, also after the handle wraps |
| SdpRuns.AdditionsNeverReplace | src/sdp/server.rs:76-103 | while fewer than 2^32 handles were drawn an addition finds its handle free and keeps every record there was |
| SdpQueries.SearchIsExact | src/sdp/server.rs:126-155 | a handle is returned if and only if it is stored and no UUID was asked for, or attribute 0x0001 of its record is a list that holds one of the UUIDs; each once and in storage order, and the total is the number returned |
| SdpQueries.LimitedSearchKeepsPrefix | src/sdp/server.rs:275-288 | a limited search keeps a prefix and the full total |
| SdpQueries.EntryReadable | src/sdp/server.rs:176-186 | an entry reads back: identifier, size of the value, and that many zero bytes |
| SdpQueries.AnswerIsLongestFit | src/sdp/server.rs:161-198 | an answer is all the entries of the longest prefix of the request that fits 1024 bytes, and its size is its byte count |
| SdpQueries.CutIsPrefix | src/sdp/server.rs:304-309 | a limited single answer is the prefix of the unlimited one that fits the budget, sized right |
| SdpQueries.BudgetedQueryIsPrefix | src/sdp/server.rs:318-352 | the byte lists of a budgeted combined query are together exactly the first min(budget, total) bytes of the unlimited answers, and each size is its byte count |
| A2dp.AvdtpProtocol.CreateStream | src/a2dp/avdtp.rs:267-289 | the whole new state and result; a handle is drawn before the insertion that may fail |
| A2dp.AvdtpProtocol.RemoveStream | src/a2dp/avdtp.rs:303-305 | that stream and no other is removed and returned |
| A2dp.A2dpProfile.AddEndpoint | src/a2dp/profile.rs:123-135 | the whole new state and result; an identifier is drawn even when the list is full |
| A2dp.A2dpProfile.Connect | src/a2dp/profile.rs:141-157 | the whole new state and result; a known address is refused |
| A2dp.A2dpProfile.Disconnect | src/a2dp/profile.rs:160-170 | the loop removes the connection and every stream its list names |
| A2dp.A2dpProfile.OpenStream | src/a2dp/profile.rs:176-213 | the whole new state and result, with the endpoint configured before any step that may fail |
| A2dp.A2dpProfile.Start | src/a2dp/profile.rs:219-225 | the whole new state and result |
| A2dp.A2dpProfile.Suspend | src/a2dp/profile.rs:231-237 | the whole new state and result |
| A2dp.A2dpProfile.Close | src/a2dp/profile.rs:243-259 | the whole new state and result, endpoint reset included |
| A2dpRuns.LiveExactlyWhenListed | src/a2dp/profile.rs:141-259 | in a sound profile a handle is live exactly when it stands, once, in the list of its stream's connection, and in no other list |
| A2dpRuns.ListsAreShort | src/a2dp/profile.rs:87-91 | no list is longer than the stream map, so adding a stream to its connection never fails |
| A2dpRuns.CreateEffect | src/a2dp/profile.rs:176-213 | a creation past its checks draws a handle and either is refused as the third stream, or lists the configured stream it stores; the list addition never fails |
| A2dpRuns.CodecIsChecked | src/a2dp/profile.rs:176-213 | a creation for a known address and endpoint is refused as unsupported, changing nothing, if and only if no capability of the endpoint has the type of the codec; otherwise that endpoint ends in use with the codec, its other fields and every other endpoint unchanged |
| A2dpRuns.UnknownsAreRefused | src/a2dp/profile.rs:176-190 | an unknown address, and then an unknown endpoint, is refused with its error and changes nothing |
| A2dpRuns.CreateSoundExactly | src/a2dp/profile.rs:176-213 | creating a stream keeps map and lists inverse if and only if it does not draw a live handle |
| A2dpRuns.DisconnectSound | src/a2dp/profile.rs:160-170 | removing a connection removes exactly its streams |
| A2dpRuns.CloseSound | src/a2dp/profile.rs:243-259 | closing removes the stream from the map and its connection's list and from nowhere else, exactly when it is live |
| A2dpRuns.StartSound | src/a2dp/avdtp.rs:201-208 | starting changes only the state of a live stream not yet streaming; a streaming stream and an unknown handle are refused, each with its error |
| A2dpRuns.SuspendSound | src/a2dp/avdtp.rs:214-221 | suspending changes only the state of a live streaming stream; every other stream and an unknown handle are refused, each with its error |
| A2dpRuns.StepSoundExactly | src/a2dp/profile.rs:141-259 | every operation keeps map and lists inverse and live streams configured, streaming or suspended with a codec, exactly unless it draws a live handle |
| A2dpRuns.RunsStaySound | src/a2dp/profile.rs:141-259 | that over every run in which handles do not wrap onto live ones |
| A2dpRuns.SoundThroughOneCycle | src/a2dp/avdtp.rs:279-286 | in particular over every run of up to 65536 stream creations after start-up |
| A2dpEndpoints.EndpointsStayNumbered | src/a2dp/profile.rs:123-135 | endpoints are numbered from 1 in order, so an identifier names one endpoint |
| A2dpEndpoints.EndpointAdded | src/a2dp/profile.rs:123-135 | a new endpoint is appended unused, for SBC only and without codec, or refused when there are four; the next identifier wraps at 255 |
| A2dpEndpoints.CloseResets | src/a2dp/profile.rs:243-259 | closing a live stream takes the first endpoint with its identifier out of use and clears its codec, and changes nothing else of any endpoint |
| A2dpEndpoints.DisconnectTiedExactly | src/a2dp/profile.rs:160-170 | removing a connection keeps every endpoint in use exactly when a live stream has it, if and only if each stream towards that address shares its endpoint with a live stream towards another |
| A2dpEndpoints.CloseTiedExactly | src/a2dp/profile.rs:243-259 | closing a live stream keeps that, if and only if no other live stream has its endpoint |
| A2dpEndpoints.OpenTiedExactly | src/a2dp/profile.rs:176-213 | creating a stream keeps that, unless it is refused for want of room while its endpoint was not in use, or replaces a live stream that alone had another endpoint, and only then not |
| A2dpEndpoints.StepTiedExactly | src/a2dp/profile.rs:123-259 | every operation keeps that if and only if its guard holds; only these three have one |
| A2dpEndpoints.RunsStayTiedExactly | src/a2dp/profile.rs:123-259 | over every run in which handles do not wrap onto live ones, it holds in all states if and only if every operation met its guard |
| A2dpEndpoints.InUseWithoutStream | src/a2dp/profile.rs:160-170 | a run from start-up that ends with an endpoint in use and no live stream |
| A2dpEndpoints.StreamWithoutInUse | src/a2dp/profile.rs:243-259 | a run from start-up that ends with a live stream whose endpoint is not in use |
| Host.ProcessHciEvent | src/processor.rs:171-314 | the commands every event and every ACL packet becomes, pushed in order; of the devices of one inquiry result the first eight |
| Host.BluetoothHost.ProcessInternalCommand | src/host/internal_command_processor.rs:122-193 | the whole new host state for every command that touches an index, the mode or the discovery flag |
| Host.BluetoothHost.RemoveConnectionsByHandle | src/host/mod.rs:346-362 | collects the addresses under a handle and removes them, and nothing else |
| HostRuns.InsertConnectionEffect | src/host/internal_command_processor.rs:131-134 | a connection replaces one to the same address; a ninth address is ignored |
| HostRuns.RemoveByHandleAsMap | src/host/mod.rs:346-362 | removal by handle removes every address under that handle and no other |
| HostRuns.PacketKeepsAddresses | src/acl.rs:361-409 | an ACL packet changes no handle and no address, and is refused as unknown exactly when its handle is not indexed |
| HostRuns.EventIndexed | src/processor.rs:189-225 | executing all commands of an event with fresh address and handle brings both indexes to the controller's links |
| HostRuns.ModeAfterEvent | src/processor.rs:171-314 | the mode and the discovery flag after the commands of each event, by value |
| HostRuns.ControllerHears | src/processor.rs:171-314 | what each event has sent to the controller: one authentication per new link, PIN 0000, no link key, consent to pairing, and nothing else |
| HostRuns.DevicesTaken | src/processor.rs:174-180 | of one inquiry result at most the first eight devices, each with its address, strength and class |
| HostRuns.NamesAndKeys | src/processor.rs:226-300 | a name is cut or padded with zeros to 32 bytes, a key is stored as it is, a failed name request asks for nothing |
| HostRuns.LagDoesNotMatter | src/processor.rs:124-168 | however event and command tasks interleave, draining the queue ends where executing every command at once would |
| HostRuns.IndexesStayInverse | src/processor.rs:189-225 | for every trace of fresh events with at most four links and every lag, draining leaves the two indexes inverse and equal to the controller's links; a packet is refused for an unknown handle exactly when its link was not live on arrival |
| HostRuns.DataFindsItsLink | src/processor.rs:93-122 | data that arrives only on live links never meets an unknown handle, at any lag |

## Left out

- Async tasks, mutexes, controller commands and logging: input and output through other libraries. The command queue is a sequence, and the log of ACL results stands for the error messages.
- The device list, link keys, and what the controller is sent: other maps and output, which the connection indexes never depend on. The commands for them are modelled, and leave the modelled fields alone.
- The capacity of the command queue: sending blocks when it is full, which delays commands but keeps their order.
- Accessors that hand out mutable channels, records or streams, and public fields: the invariants hold over the named operations only.
- Clean-up of L2CAP channels when a link goes down: the code does none, so nothing says that a channel's link is live.
- Several peers sharing one processor, beyond arbitrary incoming commands: response matching ignores the link.
- SDP protocol messages, the SDP client, attribute filters and ranges, class-of-device and address formatting: tables, placeholders or small members.
- `AttributeEntry::size`: it counts the type byte twice, so it is not the number of bytes consumed.
- SBC capability encoding, and the contents of codec parameters: only the codec type decides anything here.
- `effective_mtu`, lookup by PSM and the list of open channels: pure lookups.
- Service class names and the UUID conversion: the class of a new record is a parameter; the default record's UUID is the constant the conversion yields.
- Attribute values in SDP answers: the code sends placeholder zero bytes of the right size, and so does the model.
