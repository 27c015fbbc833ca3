# A verified model of a SOCKS5 proxy

This project models a single-threaded SOCKS5 proxy (RFC 1928, RFC 1929) with a management
protocol, and proves how its pieces fit together: I/O buffers, the selector, the two-way
relay, the byte parsers, the POP3 credential dissector, the connection state machine with its
resolver threads, the user registry and the management wire format.

Code that updates state in place is a class or an array method proved against a function on
values; what the program promises is then proved about those functions, over whole runs where
it is about runs. What must not happen is an invariant of every run; what must happen is an
outcome: for each state and event, the state it leads to, what is said to the client and what is
armed, stated on the octets the client has sent.

| file | module | what it models |
|---|---|---|
| `bytes.dfy`, `machines.dfy` | Bytes, Machines | octets, C strings, octet-fed machines and their chunk independence |
| `buffer.dfy` | Buffers | the I/O buffer as a FIFO in a fixed array |
| `selector.dfy` | Selectors | the descriptor table, its derived sets, one sweep, the notification list |
| `relay.dfy`, `copy.dfy`, `metrics.dfy`, `settings.dfy` | Relays, CopyHandlers, MetricsCounters, ProxySettings | the relay on values, its handlers on real buffers and a real selector, the counters and running averages, the settings of the whole process |
| `hello.dfy`, `field_parser.dfy`, `request_parser.dfy` | Hellos, FieldParsers, RequestParsers | the three incremental parsers against their grammars |
| `dissector.dfy`, `strcmpi.dfy` | Dissectors, StringMatchers | the two recognisers |
| `connection.dfy`, `session.dfy` | Connections, Sessions | one connection as functions of values; and as the object its handlers update, on its own buffers, parsers and relay and on the process's selector, users and counters |
| `connection_table.dfy`, `dialing.dfy`, `connection_log.dfy`, `connection_replies.dfy`, `connection_inv.dfy` | ConnectionTables, Dialing, ConnectionLogs, ConnectionReplies, ConnectionInvariants | its invariants: registrations and references, and what a `connect` that succeeds at once does to them; streams and authentication; what the client has been told; all of it over one event |
| `outcomes.dfy` | Outcomes | what comes of each event, from the octets received and the answers of the calls |
| `proxy.dfy`, `proxy_auth.dfy`, `reuse.dfy`, `served.dfy`, `proxy_served.dfy` | Proxies, ProxyAuthentication, ReusedNumbers, ServedClients, ServedRuns | many connections, resolvers and an adversarial environment; who is listened to; numbers handed out again while still registered; clients that follow the protocol, alone and among the others |
| `registry.dfy`, `management_reply.dfy`, `client.dfy`, `management.dfy`, `management_outcomes.dfy` | Registries, ManagementReplies, ClientWire, Managements, ManagementOutcomes | users, replies, the client's messages and the server's schemas, a management connection; what comes of each of its events |
| `pool.dfy`, `stm.dfy` | Pools, StateTables | the free lists; the state table check |

Results that are false of the code are stated as such, each with an input and the exact
condition under which the code is right:

- the capacity test of `selector_register` (`Selectors.RegisterSlotInTable`);
- the size test of the user listing, which loses the process at one event and no other
  (`ManagementReplies.SizeTestMisses`, `Managements.DispatchIff`, `Managements.FullRegistryLost`);
- the client's reading of a listing longer than its buffer
  (`ManagementReplies.ListRoundTripIff`, `ManagementReplies.LongListingUnread`);
- domain names of length 0 and 255 (`RequestParsers.RoundTripIff`);
- a `connect` that succeeds at once, on arrival or on a retry (`Dialing.SoundIffNotAtOnce`,
  `Dialing.RetryOvercounts`, `Dialing.OvercountedLost`);
- delivery of what is still buffered at an end of file (`Relays.FullDeliveryIff`,
  `Relays.TailLost`);
- the default table of character classes (`StringMatchers.DefaultTableMisses`);
- reuse of pooled structures (`Pools.PooledIff`).

What the environment is assumed to do: `connect`, where it is called, is in progress or fails
(`Dialing.SoundIffNotAtOnce` says exactly what is lost otherwise); a descriptor handed out by
`accept` or `socket` is not open, though its number may still be registered (`ReusedNumbers`
says what happens then); allocation and thread creation succeed; `recv` and `send` answer within
the length they are given; the selector is the one `main` builds, for 1024 elements.

## Model

| member | source | states |
|---|---|---|
| Machines.ConsumeSplit | src/new_parser.c:116-130 | consuming two chunks in turn is consuming their concatenation; a message that ends in the first chunk leaves the second untouched |
| Machines.ConsumeMore | src/hello.c:77-91 | a machine fed piecemeal is in the state its whole input leads to, having taken exactly that much |
| Buffers.RunConserves | src/buffer.c:42-91 | over any run of writes, reads and compactions: octets taken out, then contents, equal the first contents then octets written, in order |
| Buffers.NeverWedged | src/buffer.c:49-59 | a buffer of positive capacity is readable or writable, and when empty has all its room |
| Buffers.Buffer.WriteAdv | src/buffer.c:42-47 | the octets stored at the write pointer join the end of the contents; a negative count is ignored |
| Buffers.Buffer.ReadAdv | src/buffer.c:49-59 | the first octets leave the contents, and a drained buffer is rewound |
| Buffers.Buffer.ReadByte | src/buffer.c:61-70 | the first octet is returned and removed; an empty buffer gives 0 and does not change |
| Buffers.Buffer.WriteByte | src/buffer.c:72-77 | the octet is appended when there is room and dropped when there is none |
| Buffers.Buffer.Compact | src/buffer.c:79-91 | the in-place move keeps the contents and puts them at the front |
| Buffers.Buffer.CanWrite | src/buffer.c:22-24 | true exactly when there is room |
| Buffers.Buffer.ReadPtr | src/buffer.c:36-40 | the region it hands out holds exactly the contents |
| Selectors.NextCapacity | src/selector.c:164-179 | min(2^bitlength(n), 1024) + 1, above n exactly when n is at most 1024 |
| Selectors.BitLengthBounds | src/selector.c:164-173 | the shift count computed by the loop gives the least power of two above n |
| Selectors.Selector.EnsureCapacity | src/selector.c:226-267 | success means n is inside the table, old items are kept and new slots are unused; above the maximum nothing changes |
| Selectors.RegisterSlotInTable | src/selector.c:321-331 | the slot written lies inside the table if and only if the descriptor is not the current table size |
| Selectors.RegisterSlotExamples | src/selector.c:321-331 | a table first sized for two descriptors misses the slot; the one for 1024 never does |
| Selectors.DerivedAfterUpdate | src/selector.c:208-221 | how the read set, the write set and the maximum follow one changed slot |
| Selectors.Selector.ItemsMaxFd | src/selector.c:195-206 | the greatest descriptor in use, or 0 |
| Selectors.Selector.RegisterFd | src/selector.c:314-350 | on the array and its derived sets: the table becomes what registering means, error cases included |
| Selectors.RegistrationKept | src/selector.c:330-346 | an item registered with a handler, an interest and an attachment keeps all three whatever is done to the table, but for unregistering it or setting its interest |
| Selectors.LastInterest | src/selector.c:386-402 | of the interests set for an item the last one holds, and its handler and attachment are those it was registered with |
| Selectors.RegisteredServed | src/selector.c:418-449 | a sweep that finds a registered descriptor ready for what it asked for runs the very handler it was registered with, with its attachment, unless a handler run before touched it |
| Selectors.RegisteredDelivered | src/selector.c:451-472 | the same of a finished job whose descriptor nobody unregistered |
| Selectors.Selector.UnregisterFd | src/selector.c:352-384 | the item goes, its close handler sees it, and the derived data agrees with what is left |
| Selectors.Selector.SetInterestFd | src/selector.c:386-402 | only the interest of that item changes, and the derived data follows |
| Selectors.Selector.New | src/selector.c:269-285 | an empty table of the computed capacity, or none when more is asked than the platform has |
| Selectors.SweepJustified | src/selector.c:418-449 | whatever the handlers do to the table, a sweep calls only handlers flagged ready and of interest at that moment, in descriptor order, none twice |
| Selectors.SweepServes | src/selector.c:418-449 | a ready, interested descriptor is served with its own item, handler and attachment, if no handler run before its turn touches it |
| Selectors.Selector.HandleIteration | src/selector.c:418-449 | the loop over the array makes exactly the calls of the sweep |
| Selectors.DeliveredIff | src/selector.c:451-472 | each job is delivered, in its turn, exactly when its descriptor is registered at that moment, whatever the handlers before it registered or unregistered; otherwise nothing is called for it |
| Selectors.RegisteredStill | src/selector.c:451-472 | a registered job is still registered at its turn, with its handler and attachment, unless a handler run before it unregistered it |
| Selectors.Selector.HandleBlockNotifications | src/selector.c:451-472 | the loop delivers what draining means and empties the list |
| Selectors.NewestFirst | src/selector.c:451-496 | of the jobs that finish before a drain the last is delivered first, and all of them before the older ones; each exactly when its descriptor is registered at its turn |
| Relays.SettleGood | src/copy.c:29-50 | recomputing both ends re-establishes the invariant; DONE exactly when both directions are closed; no abort |
| Relays.InterestsAgree | src/copy.c:29-50 | READ is registered iff the direction is open and its buffer has room, WRITE iff open and something is buffered |
| Relays.OpenIsArmed | src/copy.c:29-50 | while a direction is open its reader or its writer is armed |
| Relays.StepGood | src/copy.c:89-187 | one event keeps the invariant, calls recv or send with a positive length and conserves octets |
| Relays.RunConserves | src/copy.c:89-187 | over any interleaving, lengths, ends of file and errors: delivered then buffered equals first buffered then received, in order |
| Relays.InitGood | src/copy.c:7-27 | the relay starts in its invariant with both directions open, whatever is left in the buffers |
| Relays.ClosedDeliversNothing | src/copy.c:103-113 | a closed direction delivers nothing more |
| Relays.FullDeliveryIff | src/copy.c:103-113 | what was buffered from a side when the run began and what it sent before its end of file is delivered in full, whatever follows, exactly when its buffer was empty at that moment |
| Relays.TailLost | src/copy.c:103-113 | the failing case: a client that pipelined octets behind its request and closes its side before the origin takes them loses them all, in every continuation |
| Relays.OpenIff | src/copy.c:103-157 | over every run a direction is open exactly when it was at first and no end of file or error on that direction has come; what closes the other direction does not close it |
| Relays.OpenDelivers | src/copy.c:89-187 | while a direction is open, whatever has become of the other, its side is read whenever there is room, and what is buffered can be sent at once, after which all that came has been delivered |
| Relays.AnswerReachesHalfClosed | src/copy.c:103-113 | after one side's end of file every continuation takes to it all that the other side sends |
| CopyHandlers.Copier.ComputeInterests | src/copy.c:30-50 | on real buffers and selector, the registered interest becomes the computed one, or the call aborts |
| CopyHandlers.Copier.Init | src/copy.c:7-27 | both records are wired crosswise and the table settled |
| CopyHandlers.Copier.HandleRead | src/copy.c:89-138 | on the real buffers, ends, selector, dissector and counters: the relay's read step, the dissector fed with the same octets when the setting is 0, and the read logged |
| CopyHandlers.Copier.HandleWrite | src/copy.c:143-187 | the relay's write step, and the write logged in the metrics |
| MetricsCounters.AverageDrift | src/copy.c:119-125 | after k transfers the truncating average never exceeds the mean, and sum - k*avg is at most k*(k-1)/2 |
| MetricsCounters.AverageBetween | src/copy.c:169-175 | the average lies between the least and the greatest transfer |
| MetricsCounters.AverageFitsSizeT | src/copy.c:119-125 | over every sequence of fewer than 2^53 transfers of at most 2048 octets, the average the 64-bit size_t code computes is the ideal one |
| MetricsCounters.Metrics.AddRead | src/copy.c:119-126 | the counters stay the average and the total of the logged transfers |
| MetricsCounters.Metrics.BeginConnection | src/connecting.c:95-99 | one more connection ever and now, and the maximum stays the greatest number there has been at a time |
| Hellos.MethodsTaken | src/hello.c:31-41 | the methods octets are all taken, and the server's method is noted iff it is among them |
| Hellos.TakeExact | src/hello.c:9-53 | a complete greeting is taken to its last octet; the answer is the server's method iff offered, else 0xFF; a wrong version stops at once |
| Hellos.Marshal | src/hello.c:93-105 | the two octets, version then method, go into the real buffer whole or not at all |
| Hellos.HelloParser.FeedByte | src/hello.c:9-53 | each octet moves the parser object as the value machine moves, with no field left behind |
| Hellos.HelloParser.ConsumeFrom | src/hello.c:77-91 | the loop takes from the buffer exactly what the message is, and reports the version error |
| FieldParsers.TakeExact | src/new_parser.c:43-130 | for every well-formed schema and input the engine is done exactly when the recursive grammar finds a message, with the same fields, having taken that message only |
| FieldParsers.PartTaken | src/new_parser.c:76-101 | part of a field is stored and the parser still reads |
| FieldParsers.FieldAgrees | src/new_parser.c:76-101 | the last octet of a field checks it and moves on |
| FieldParsers.TakeMore | src/new_parser.c:116-130 | a message that arrives over several buffer fills is parsed as one |
| FieldParsers.FieldParser.constructor | src/new_parser.c:4-9 | parser_init on fresh substates stands at the first slot |
| FieldParsers.FieldParser.SkipField | src/new_parser.c:57-70 | a zero length gives an empty NUL-terminated field and skips its read |
| FieldParsers.FieldParser.AnnounceField | src/new_parser.c:46-73 | a length allocates size+1 and starts the field |
| FieldParsers.FieldParser.FieldByte | src/new_parser.c:76-101 | each octet lands inside the allocation; the last one NUL-terminates, checks and advances |
| FieldParsers.FieldParser.FeedByte | src/new_parser.c:11-114 | each octet moves the parser object as the value machine moves, with no field left behind |
| FieldParsers.FieldParser.ConsumeFrom | src/new_parser.c:116-130 | the loop takes the message and leaves what follows in the buffer |
| RequestParsers.RoundTrip | src/request_parser.c:45-238 | an encoded CONNECT to an IPv4, IPv6 or domain address (1 to 254 octets) is taken exactly and yields the same address and network-order port, whatever follows |
| RequestParsers.RoundTripIff | src/request_parser.c:168-177 | for domain names the round trip holds if and only if the length is 1 to 254 |
| RequestParsers.LongestDomainRejected | src/request_parser.c:168-170 | 255 octets, which RFC 1928 allows, are rejected at the length octet |
| RequestParsers.EmptyDomainOverreads | src/request_parser.c:168-206 | an empty name takes one octet too many |
| RequestParsers.RejectedForever | src/request_parser.c:77-95 | an error state takes everything and is never done |
| RequestParsers.AcceptedIsRequest | src/request_parser.c:45-238 | whatever is accepted is an encoding of the result |
| RequestParsers.RequestParser.FeedByte | src/request_parser.c:45-100 | the parser object steps as its function, each octet inside its array |
| RequestParsers.RequestParser.ConsumeFrom | src/request.c:115-131 | the loop takes the request and leaves what follows in the buffer |
| Dissectors.SearchExact | src/password_parser.c:182-196 | despite its naive restart the search ends at the first occurrence of the word, from any partial match |
| Dissectors.ReportExact | src/password_parser.c:33-196 | a pair is reported at an octet iff it is ASCII of at most 254 octets and a segment that spells it, whose start the search noticed, ends there |
| Dissectors.SegmentReported | src/password_parser.c:33-196 | a segment that begins while searching is always reported |
| Dissectors.NoBorder | src/password_parser.c:12 | no proper prefix of the searched word is also its suffix |
| Dissectors.CheckSize | src/password_parser.c:64-72 | growing five at a time there is always room for the next octet, and the text is kept |
| Dissectors.PasswordParser.FeedByte | src/password_parser.c:33-54 | the dissector object steps as its function, every index inside its word or its allocation |
| Dissectors.PasswordParser.ConsumeChunk | src/password_parser.c:56-60 | a chunk gives the state and the reports of the octet machine |
| StringMatchers.Compile | src/parser_utils.c:92-131 | every window lies inside the 3*(n+2) table and every transition leads to a state and acts |
| StringMatchers.Search | src/parser.c:55-76 | the first transition whose condition holds |
| StringMatchers.TableCompares | src/parser_utils.c:72-132 | the event at step k is NEQ iff the prefix differs case-insensitively or outruns the pattern, EQ exactly when the whole pattern has just matched, else MAYEQ |
| StringMatchers.LostForever | src/parser_utils.c:111-122 | after EQ or NEQ every event is NEQ |
| StringMatchers.FeedJudges | src/parser.c:46-78 | one octet takes the state a prefix deserves to the state and event its extension deserves |
| StringMatchers.LookedUpIff | src/parser.c:78-84 | a class table serves an input exactly when it has an entry for each of its octets; it then gives the events of the ideal machine |
| StringMatchers.DefaultTableMisses | src/parser.c:44-84 | with the default table of 0xFF entries an input is read past its end exactly when it holds an octet 255 |
| StringMatchers.BuildTables | src/parser_utils.c:72-132 | the three arrays are filled with the compiled table |
| StringMatchers.Parser.FindTransition | src/parser.c:55-76 | the scanning loop finds the first transition that holds |
| StringMatchers.Parser.FeedByte | src/parser.c:46-78 | the interpreter object steps as its function |
| ConnectionTables.HelloReadReady | src/hello.c:149-182 | hello_read leaves the client armed for the state it returns |
| ConnectionTables.HelloWriteReady | src/hello.c:208-241 | hello_write leaves the interest its next state needs, for the three answers there are |
| ConnectionTables.UserpassReadReady | src/authentication.c:118-148 | auth_read leaves the client armed for writing its answer, or waiting, or on its way out |
| ConnectionTables.RequestWriteReady | src/request.c:203-240 | a reply sent leads to COPY with both descriptors registered, or to DONE |
| ConnectionTables.ResolvedReady | src/resolv.c:54-80 | a resolver's answer leads to a connection attempt or to a reply |
| ConnectionTables.ConnectTried | src/connecting.c:201-255 | an attempt leaves an armed origin and a silent client, or an armed client and a silent origin; a refused second registration is leaked with NOOP |
| ConnectionTables.AfterFailureReady | src/connecting.c:52-74 | a failed attempt tries the next address or drops the origin and replies |
| ConnectionTables.ConnectingReady | src/connecting.c:50-160 | connecting_write leaves the interests its next state needs |
| ConnectionTables.ConnectingInitSound | src/connecting.c:17-43 | arriving in CONNECTING, every outcome of socket, non-blocking mode and connect is sound but a connect that succeeds at once; a socket number still registered for another connection included |
| ConnectionTables.CopyReadReady | src/copy.c:89-138 | in COPY the read handler never aborts and keeps the relay's invariant in the shared table |
| ConnectionTables.CopyWriteReady | src/copy.c:143-187 | in COPY the write handler never aborts and keeps the relay's invariant in the shared table |
| ConnectionTables.DueHandled | src/stm.c:50-81 | a dispatched event is one its state has a handler for, on the descriptor that handler expects |
| ConnectionTables.JumpSound | src/stm.c:34-48 | departure and arrival re-establish the invariant of the new state |
| ConnectionTables.FinishEnds | src/socks5nio.c:254-267 | on DONE and ERROR every descriptor touched is registered; afterwards only leaked registrations remain, and without them the structure is given back |
| Dialing.DispatchSound | src/socks5nio.c:223-248 | one event, dispatched to its end, keeps registrations, interests and references in step and leaves other connections alone, unless it has connect called and connect succeeds at once |
| Dialing.SoundIffNotAtOnce | src/connecting.c:201-255 | for every due event of a sound connection: it stays sound exactly when the event is not one that has connect called, on arrival or for the next address, and answered with immediate success |
| Dialing.AtOnceUnsound | src/connecting.c:235-250 | the failing branch: the client is armed for a READ that CONNECTING has no handler for, or a reference is taken that no registration matches |
| Dialing.RetryOvercounts | src/connecting.c:65-135 | the failing retry: from the registered origin, success at once is reported to the client as a failure and leaves one reference more than there are registrations |
| Dialing.OvercountedLost | src/socks5nio.c:157-267 | its cost: taken down, such a connection leaves no registration and no descriptor, and is never given back |
| ReusedNumbers.OnlyAfterFailure | src/connecting.c:201-234 | a sound connection holds a number registered for somebody else only after a failed attempt, its client armed for writing and that registration silent |
| ReusedNumbers.AttemptRefused | src/connecting.c:201-250 | whatever connect answers on such a number, the attempt fails and the registration stays as it was; a connect in progress also closes and forgets the descriptor |
| ReusedNumbers.LastFailureReleases | src/connecting.c:67-74 | with no address left the number is unregistered, in the name of the connection it is registered for, closed and forgotten, and the client told |
| ConnectionLogs.HandleStreams | src/socks5nio.c:27-89 | every handler conserves both streams |
| ConnectionLogs.DispatchStreams | src/socks5nio.c:223-248 | over a whole event: eaten, forwarded and buffered octets are what the client sent; sent and buffered octets are replies then the origin's |
| ConnectionLogs.DispatchProgress | src/stm.c:50-81 | each parser is where the octets eaten lead it, and only clients that may make requests get that far |
| ConnectionLogs.ChosenMethod | src/hello.c:109-139 | the parser of a finished greeting holds the required method iff it was offered, else 0xFF |
| ConnectionLogs.RequestIsConnect | src/request.c:139-201 | a finished request is a CONNECT to one of three address types, so the failure branches of request_process are dead |
| ConnectionLogs.ResolvedLeaves | src/resolv.c:54-80 | a delivered resolution takes the connection out of RESOLV |
| ConnectionLogs.AdmittedOnlyAuthenticated | src/authentication.c:207-235 | a client whose requests were listened to offered and was allowed no authentication, or sent credentials that matched a registered user |
| ConnectionLogs.RelayedOnlyRequested | src/request.c:203-240 | octets are relayed only after a whole, well-formed request |
| ConnectionReplies.DispatchSpoken | src/socks5nio.c:223-248 | one event keeps what the client has been told: 05 and the method, then 01 00 or 01 01 as often as it took, then failures only or one success only; in COPY exactly one success |
| ConnectionInvariants.EventKept | src/socks5nio.c:223-248 | an expected event is survived and keeps, all at once, the streams, the parsers, what was said, the registrations and the references of its connection |
| Outcomes.GreetingOutcome | src/hello.c:149-193 | however the octets came, the event that completes a greeting of version 5 is answered 05 m, m being the required method iff it was offered and FF otherwise, and arms the answer; before that nothing is said, and another version ends the connection |
| Outcomes.GreetingAnswered | src/hello.c:208-241 | once the answer is out whole, a refused client is done with, one held to passwords is asked for them and any other for its request; what was pipelined stays |
| Outcomes.CredentialsOutcome | src/authentication.c:118-148 | the event that completes a credentials message has its pair looked up among the users of that moment and arms the answer; another version ends the connection; anything less is waited for |
| Outcomes.CredentialsAnswered | src/authentication.c:207-235 | once what is buffered is out whole, the next state is the request, armed for reading, iff the pair in the octets eaten was registered, and the end otherwise |
| Outcomes.RequestOutcome | src/request.c:79-201 | the event that completes a request for a name enters RESOLV with one resolver and a silent client, one for an address has an attempt made, and RESOLV is entered in no other case; until then nothing is said |
| Outcomes.NameResolved | src/request.c:174-193 | on the octets: a CONNECT to any name of 1 to 254 octets, however it is cut and whatever follows |
| Outcomes.AddressDialled | src/request.c:152-173 | on the octets: a CONNECT to any IPv4 or IPv6 address leads to the attempt that the answers of socket and connect call for |
| Outcomes.ResolvedOutcome | src/resolv.c:54-80 | nothing found is told as a general failure; of the addresses found the first is attempted and the others kept for later |
| Outcomes.ConnectHandled | src/connecting.c:201-234 | connect failing at once is told with the status octet of its error number, as section 6 of RFC 1928 gives them; in progress, the origin is registered for writing and the caller silenced, or the refusal told |
| Outcomes.ArrivalHandled | src/connecting.c:17-43 | arriving in CONNECTING: a failed socket or non-blocking call is told as a general failure, otherwise connect decides |
| Outcomes.AtOnceOutcome | src/connecting.c:235-250 | the branch of a connect that succeeds at once: one reference, READ on both descriptors, or a refusal told and the descriptor kept |
| Outcomes.ConnectingOutcome | src/connecting.c:50-160 | a connected origin is told as success; a failed getsockopt as general failure; an error number with its own status, unless another address is left, which is tried, one fewer remaining; after the last the origin is closed and the client told |
| Outcomes.ReplyOutcome | src/request.c:203-240 | the reply goes out whole first; then a success starts the relay, both directions open, on what was pipelined, and a failure is the end |
| Outcomes.CopyOutcome | src/copy.c:89-187 | an event in COPY is the relay's own event on the two descriptors, its octets noted of the right sides; the connection stays exactly while some direction is open that the event does not close |
| ConnectionLogs.DispatchSources | src/hello.c:117-139 | the method required is the one in force at the first event; the users looked up are those of the very event that goes from credentials to their answer, and of no other |
| Sessions.Session.ConsumeHello | src/hello.c:77-91 | on the connection's own buffer array and parser object the loop takes exactly the greeting, and no other array or object of the process changes |
| Sessions.Session.ReadHello | src/hello.c:149-182 | on the real objects, recv to answer: the octets received land behind those buffered, the loop eats the greeting in place, the reply is stored in the other buffer, and the selector's array and derived sets follow |
| Sessions.Session.ConsumeAuth | src/new_parser.c:116-130 | the schema engine's loop, its blocks allocated as it goes, takes exactly the credentials out of the connection's buffer |
| Sessions.NulBehind | src/authentication.c:253-263 | a NUL behind the octets of a block ends the string that starts it no later |
| Sessions.FieldsHeld | src/authentication.c:289-302 | the two blocks a finished credentials parser points to hold, as C strings, the user and the password of the message |
| Sessions.Session.LookUp | src/authentication.c:253-302 | the lookup over the real user table, on those blocks, gives 0 exactly when some registered pair matches the message |
| Sessions.Session.ReadUserpass | src/authentication.c:118-148 | recv, parse, arm and look up on the real objects, the users being those of the table at that moment |
| Sessions.Session.ConsumeRequest | src/request.c:115-131 | the request parser's loop fills its four address arrays and leaves in the connection's buffer what follows the request |
| Sessions.Session.ReadRequest | src/request.c:79-113 | recv, parse and process on the real objects: what is dialled or resolved is read off the parser's arrays |
| Sessions.Session.UnregisterFd | src/socks5nio.c:157-252 | unregistering calls the close handler of the item found: the reference dropped is its owner's, this connection or another |
| Sessions.Session.TryConnect | src/connecting.c:201-255 | registrations, references, descriptors and interests on the real selector, for every answer of connect and every refusal of the table; one attempt more is counted |
| Sessions.Session.WriteConnecting | src/connecting.c:50-160 | retry, report or success on the real selector, write buffer and counters: a connection is counted iff it is reported connected, an attempt iff the next address is tried |
| Sessions.Session.MakeRelay | src/copy.c:7-27 | the relay made on arrival works on the connection's own two buffers and the process's selector, crosswise, not on copies of them |
| Sessions.Session.RelayHeld | src/copy.c:7-27 | that relay's value is the one read off the connection, so every result about the relay is about it |
| Sessions.Session.ReadCopy | src/copy.c:89-138 | the relay's read on that relay: buffers, table, dissector and counters move together, or the call aborts |
| Sessions.Session.WriteCopy | src/copy.c:143-187 | the relay's write on that relay |
| Sessions.Session.OnEvent | src/socks5nio.c:223-248 | one event on the real objects, from the first arrival to the release of the descriptors: none of them is aliased or left half updated, their value becomes what the dispatch function says, and an expected event of a connection in its invariant is survived and leaves it there |
| Proxies.StepInv | src/socks5nio.c:184-267 | every step, of any connection, resolver or configuration change, keeps the whole proxy's invariant |
| Proxies.RunSurvives | src/stm.c:50-81 | over every run no handler is missing, nothing aborts, and no event or resolver meets a structure that was given back |
| Proxies.AcceptInv | src/socks5nio.c:184-216 | accepting keeps the invariant, every refused registration included: the number out of range, or still registered |
| ReusedNumbers.AcceptRefused | src/socks5nio.c:206-215 | accepting a number that is still registered changes nothing of the process |
| ReusedNumbers.LeakEnds | src/socks5nio.c:157-173 | the last failure of a connection on a leaked number ends the leak: the registration is gone, and the connection that leaked it has one reference less, or is given back if it was over and that was its last |
| Proxies.InterestsHaveHandlers | src/socks5nio.c:27-89 | in every reachable configuration the interests are events the state has handlers for |
| Proxies.NeverStranded | src/selector.c:418-472 | every live connection is armed for something or has its one resolver or job pending |
| Proxies.ReferencesCount | src/socks5nio.c:157-173 | references equal the registrations of the connection; it is given back exactly once, when there are none |
| Proxies.ResolversExact | src/resolv.c:5-52 | one resolver or job for a connection iff it is in RESOLV |
| Proxies.ResolversAfterNotify | src/selector.c:451-472 | delivering a job keeps that count for everybody else |
| Proxies.ResolversAfterResolve | src/selector.c:474-496 | a resolver that finishes leaves its job in its place, none lost |
| Proxies.StreamsArePrefixes | src/copy.c:89-187 | parser octets then forwarded ones are a prefix of what the client sent; the client got a prefix of replies then the origin's octets |
| ProxyAuthentication.RunTraced | src/hello.c:117-139 | over every run the method a connection is held to is the one required at the step of its first event, and the users its credentials were looked up among those registered at that very step |
| ProxyAuthentication.OnlyAuthenticatedServed | src/authentication.c:253-302 | over every run, requests are heard only from clients that completed the greeting and offered the method required at their first event, and, where that is passwords, whose whole message names a pair registered at the very step it was looked up |
| ServedClients.Greeted | src/hello.c:149-182 | any whole greeting, on the first event of a connection, is answered at once with the required method or FF |
| ServedClients.RequestMade | src/request.c:139-201 | a pipelined request starts a connection attempt and its tail stays buffered |
| ServedClients.PasswordClientServed | src/authentication.c:118-302 | a client that offers passwords and sends a registered pair has been sent 05 02 01 00 and is heard for its request; with any other pair it has been sent 05 02 01 01 and is over |
| ServedClients.AdmittedClientServed | src/request.c:79-240 | however it was admitted, a client's request for an address, with whatever follows it, reaches the relay in three cooperative events: one success sent, the pipelined octets next in line for the origin, both directions open |
| ServedClients.ConformingClientServed | src/socks5nio.c:27-89 | a client that need not authenticate reaches the relay in five cooperative events from accept, having been sent 05 00 and a success |
| ServedRuns.AcceptedIff | src/socks5nio.c:184-216 | a descriptor gets a connection of its own, at its beginning and armed for reading, iff it can be watched; otherwise nothing changes, and never anything else |
| ServedRuns.ExpectedHere | src/selector.c:418-472 | in every reachable process, whatever the environment may do next is an expected event of the connection it is for, so the outcomes above are those of every run |
| ServedRuns.NameServed | src/resolv.c:5-80 | among any other connections, a client's request for a name starts one resolver; what it finds is delivered next, and an attempt made or a general failure told; no resolver and no job is left |
| ServedRuns.MethodSwitched | src/management_request.c:405-411 | after 0C 00 the next client to have its first event is held to passwords, after 0C and any other octet to nothing, and its greeting answered accordingly |
| Registries.RunIsBag | src/management_request.c:375-403 | over any run of adds and deletes the names are a bag of at most 255 from which a delete takes one |
| Registries.RunKeepsOrder | src/management_request.c:375-403 | the users left are in the order they came |
| Registries.FirstNamed | src/management_request.c:388-400 | the entry struck out is the first of that name |
| Registries.Check | src/authentication.c:253-263 | a lookup succeeds iff some pair matches, and picks the least index |
| Registries.CheckAfterDelete | src/management_request.c:386-403 | a pair checks out after a delete iff an entry other than the deleted one has it |
| Registries.Registry.AddUser | src/management_request.c:375-384 | appended, or ignored when the table is full |
| Registries.Registry.DeleteUser | src/management_request.c:386-403 | the shifting loop removes exactly the first match |
| Registries.Registry.CheckCredentials | src/authentication.c:253-263 | 0x00 and the least matching index, or 0x01 |
| ManagementReplies.SizeTestMisses | src/management_request.c:501-516 | the size test passes a listing that does not fit exactly in the stated window of sizes, and always below two octets of room |
| ManagementReplies.FullRegistryMissed | src/management_request.c:501-532 | a full registry of names of eight letters passes the test for the empty buffer of 2048 and takes 2297 octets |
| ManagementReplies.AffordableIsSum | src/management_request.c:509-516 | the loop accepts iff the names' octets fit the budget |
| ManagementReplies.MarshalList | src/management_request.c:501-532 | on the real buffer and registry: an accepted listing is written as status, count and each name behind its length, a refused one leaves the buffer alone, and the method says exactly when an accepted one does not fit |
| ManagementReplies.ListUsers | src/client_utils.c:169-181 | the client's loop prints the names the reading function finds, or says that it reads past the end of its buffer |
| ManagementReplies.ListRoundTripIff | src/client_utils.c:169-193 | through one recv of 500 octets, whatever was in the buffer: the client lists exactly the registered names, in order, if and only if the reply fits those 500; of a longer one it reads past the end |
| ManagementReplies.PrefixReadIff | src/client_utils.c:169-181 | of a reply cut short at any length the octets received are read as the names exactly when they are all of it |
| ManagementReplies.LongListingUnread | src/client_utils.c:169-193 | the input: two hundred users called "ab", a listing of 602 octets the server sends and the client cannot read |
| ManagementReplies.MarshalUint | src/management_request.c:461-473 | status and four little-endian octets, or nothing below five octets of room |
| ManagementReplies.UintRoundTrip | src/client_utils.c:183-188 | the client reads a counter back modulo 2^32 |
| ManagementReplies.AnnouncedAreAccepted | src/management_request.c:475-499 | the announced indexes are exactly those the index parser accepts, each once |
| ManagementReplies.MarshalSupported | src/management_request.c:475-499 | the list goes in whole when 18 octets of room are left, else not at all |
| ManagementReplies.MarshalStatus | src/management_request.c:534-542 | one octet when there is room |
| ClientWire.StrCpy | src/client_utils.c:23-26 | the octets and their NUL, nothing else changed |
| ClientWire.ComposeCredentials | src/client_utils.c:16-28 | the octets sent are the credentials message |
| ClientWire.ComposeAddUser | src/client_utils.c:41-55 | the octets to send are the add request |
| ClientWire.ComposeDeleteUser | src/client_utils.c:57-67 | the octets to send are the delete request |
| ClientWire.SchemasWellFormed | src/authentication.c:58-109 | every schema in use is one the engine is exact on |
| ClientWire.CredentialsRoundTrip | src/authentication.c:58-109 | the server's parser takes exactly the message and holds the same user and password |
| ClientWire.CredentialsSound | src/authentication.c:58-109 | a finished credentials parser has read such a message |
| ClientWire.CredentialsDecided | src/authentication.c:58-109 | on the octets alone: another version is rejected at once, a whole message taken to its last octet with its two fields, anything less waited for |
| ClientWire.ParamsNeverRejected | src/management_request.c:544-648 | parameters are never turned down, only waited for |
| ClientWire.RequestSplits | src/management_request.c:93-150 | the index parser takes one octet and leaves the parameters |
| ClientWire.UnsupportedRejected | src/management_request.c:28-50 | an unknown index is turned down on its octet |
| ClientWire.AddUserRoundTrip | src/management_request.c:544-604 | across the index and the parameter parsers, the same index, name and password |
| ClientWire.DeleteUserRoundTrip | src/management_request.c:606-648 | across the two parsers, the same index and name |
| Managements.DispatchIff | src/management.c:17-69 | for every due event of a sound connection: its handler is there, interests fit the state afterwards, and the process is lost exactly when the event has the users listed and the listing does not fit the empty buffer that its size test lets it into |
| Managements.FullRegistryLost | src/management_request.c:93-150 | the input: index 0x01 received from an administrator over a full registry of names of eight letters |
| Managements.RunSound | src/management.c:196-240 | over every run, under any changes of the globals, the process survives; a listing is asked to fit only at the events that have the users listed |
| Managements.OnlyAdministrators | src/authentication.c:271-302 | over every run, index processing is reached only after a greeting that offered passwords and credentials of an administrator |
| Managements.GlobalsGuarded | src/management_request.c:200-238 | globals change only at the hands of an admitted connection, when its parameters are whole |
| Managements.RequestApplied | src/management_request.c:375-459 | for all four indexes and however cut into chunks, a whole request changes the globals as its octets say, and nothing else: users added or deleted, method 02 iff the option is 0, dissectors set to the option; and leaves the matching status |
| ManagementOutcomes.GreetingOutcome | src/hello.c:149-193 | a management greeting is answered 01 02 iff passwords were offered, else 01 FF; no other version is |
| ManagementOutcomes.GreetingAnswered | src/hello.c:208-241 | once that is out, the client is asked for credentials or done with |
| ManagementOutcomes.CredentialsOutcome | src/authentication.c:118-148 | whole credentials are looked up among the administrators at the event that completes them |
| ManagementOutcomes.CredentialsAnswered | src/authentication.c:207-235 | once the answer is out, an administrator is heard for an index and anybody else done with |
| ManagementOutcomes.IndexOutcome | src/management_request.c:93-150 | each of the ten indexes without parameters is answered with what it asks for, each counter by name; the four others wait for parameters; any other octet is turned down with 02, and a full buffer with 01 |
| ManagementOutcomes.ParamsOutcome | src/management_request.c:200-238 | the event that completes the parameters has them applied and their status armed; until then nothing changes |
| ManagementOutcomes.ReplyOutcome | src/management_request.c:264-286 | the answer is sent whole, and then the connection is over |
| ManagementOutcomes.AdministratorHeard | src/management.c:17-69 | from accept: a client that offers passwords and sends an administrator's pair has been sent 01 02 01 00 and is heard for its request; with any other pair 01 02 01 01, and it is over |
| ManagementOutcomes.RequestServed | src/management_request.c:93-286 | an administrator's whole request changes the proxy as it says, and its status is all that is sent before the end |
| ManagementOutcomes.QueryServed | src/management_request.c:319-371 | an administrator's question is answered with what its index asks for, whole, before the end |
| Managements.ReadIndexReady | src/management_request.c:93-150 | an index is answered or leads to the parameters it has |
| Managements.ProcessIndex | src/management_request.c:319-371 | on the real buffer, users and counters, the answer of each index, unsupported ones included; and exactly when the listing is written past the buffer |
| Managements.ProcessParams | src/management_request.c:417-459 | on the real users, settings and buffer, the change and the status of each request, which `Managements.RequestApplied` spells out |
| Pools.RunPartitions | src/socks5nio.c:96-173 | a structure is in use, in the list once, or freed; never two of these |
| Pools.SizeCountsGivebacks | src/socks5nio.c:160-166 | pool_size counts every structure given back, up to fifty, and not the list |
| Pools.PooledIff | src/socks5nio.c:106-166 | a structure is pooled iff fewer than fifty were ever given back |
| Pools.FreeList.New | src/socks5nio.c:103-112 | the first structure of the list, or a new one |
| Pools.FreeList.Destroy | src/management.c:170-186 | pooled or freed as the counter says |
| StateTables.SharedNumbersAgree | include/management.h:27-66 | the states that handlers shared by both machines return by number mean corresponding states in each; the final ones do not and are taken from the connection |
| StateTables.Init | src/stm.c:10-23 | accepts exactly the tables whose entries are in order and which do not start at their end |

## Left out

- System calls, `pselect`, signals, DNS, clocks and logging: their answers are inputs of a step; `src/metrics.c`, `src/server.c`, `src/main.c`, `src/util.c`, `src/netutils.c`, `src/logger.c`, `src/args.c` and `src/tcpClientUtil.c` are plumbing around them.
- A `connect` that succeeds at once where it is called: runs of the proxy exclude it by assumption, since the connection is not sound after it; the branch itself is modelled, on values and on the object, and `Dialing` says exactly what it costs.
- Success of a retry on a second resolved address: the second registration of the descriptor is refused (`src/connecting.c:225-231`); the refusal and the leaked registration are steps of the model, no retry success is claimed.
- The `single_read` state of `src/new_parser.c` and the `error` octet of its checks: no schema uses the first, nothing reads the second.
- `auth_process` on a parser that ended in error (`src/authentication.c:137-147`): its outcome is overridden, and the model goes straight to the error state.
- The NUL that a domain of length 0 stores before the host array (`src/request_parser.c:173`): the value model has no such place.
- The address family, the socket address and the port as `struct sockaddr` fields: the request keeps the octets, and which address is dialled is not followed into the system call.
- Sessions.Session: one connection's objects with the process's; that two connections share no buffer or parser is by construction and not stated, and the structure's return to its pool is in `Pools.FreeList.Destroy`.
- Managements.Mng: the handlers of a management connection are functions of values except `ProcessIndex` and `ProcessParams`, which run on the real registry, settings, counters and buffer; the connection has one descriptor, whose registration lasts as long as it does.
- MetricsCounters.Metrics: which events count is said by the contracts of `Sessions.Session.TryConnect`, `Sessions.Session.WriteConnecting` and `CopyHandlers.Copier.HandleRead`; no total over runs is claimed.
- Proxies.Proxy: the table holds the connections' own descriptors; passive sockets, management connections and the items of other handlers are not in it, and a sweep is a sequence of single handler calls on the table of the moment.
- The order in which resolver threads finish is arbitrary; the mutex is the atomicity of one step, and the thread's reads of the connection are one step with its end.
- Duplicate authentication replies under partial sends, and duplicate request replies over several failed addresses: accounted for in order, not excluded.
- Octets pipelined during the handshake are kept, but the next parser sees them only when more arrive; no liveness is claimed for a client that waits.
- ManagementReplies.MarshalList: says when the source writes past its buffer, and writes nothing itself; a management connection is not followed past it.
- ManagementReplies.UintRoundTrip: for a server and a client of the same little-endian byte order.
- ClientWire.ComposeCredentials: names and passwords of more than 255 octets, whose lengths the source truncates, are outside its precondition, as are messages longer than its 510-octet buffer; what the client prints beyond the listed names is not modelled.
- MetricsCounters.AverageDrift: ideal integers; `MetricsCounters.AverageFitsSizeT` says how far the 64-bit code agrees.
- Selectors.NextCapacity: shifts of 64 bits and more, for arguments no descriptor reaches.
- StringMatchers.TableCompares: patterns are ASCII, as `tolower` and `toupper` require, and every octet has a class; `StringMatchers.LookedUpIff` says which tables give it one.
- Memory leaks and the layout of unions; allocation failure.
