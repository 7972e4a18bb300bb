# LTTng session daemon control plane, modelled in Dafny

This project models the sequential core of the LTTng tracing control plane.

- **Channel defaults.** The default channel attributes of `include/lttng-share.h`, with proofs that the sizes and counts the header says must be powers of two are powers of two.
- **Control-protocol error text.** The readable-text lookup for `lttcomm_return_code`.
- **Unix-socket transport.** The close-on-failure path of `lttcomm_connect_unix_sock`. The message `lttcomm_send_fds_unix_sock` builds to pass file descriptors. The validation chain of `lttcomm_recv_fds_unix_sock` on one received message, ending in the copy into the caller's array.
- **Session registry.** The global tracing-session list of `ltt-sessiond/session.c`: prepend, unlink, lookup by name, create with a duplicate check, and destroy. It is a class over a `seq` of session objects and a count. Its invariant is that the count tracks the list and no two names match on their first NAME_MAX characters.
- **Channel procedures.** Those of `ltt-sessiond/channel.c`:
  - the per-domain default-attribute factory;
  - the deep copy of a list-based user-space channel;
  - the kernel and user-space enable, disable and create decisions over backend results.
- **User-space trace objects.** The hash-table based objects of `lttng-sessiond/trace-ust.c`:
  - the factories for sessions, channels, events and metadata;
  - the lookups by name;
  - the teardown, which empties every table.

  A hash table is a class holding a `map`. Objects handed to grace-period reclamation are returned as sequences.
- **`lttng enable-event` command.**
  - `parse_probe_opts`, the probe-location parser.
  - The models of libc's `sscanf` conversions `%[^'+']+%s` and `%s`, and of `strtoul` in base 0.
  - The per-tracer event-type table.
  - The loop that submits one event per comma-separated name.

Backend calls, system calls and allocations are parameters:
- the kernel ioctl layer, the user-space control socket and the notification pipe;
- `lttng_create_handle` and `lttng_enable_event`;
- `socket`, `connect`, `sendmsg` and `recvmsg`;
- each allocation, which is a success flag.

A procedure reports what it handed to the backend, so its contracts can say when the backend was called.

Files:
- `wrappers.dfy`: Option and Result.
- `cstrings.dfy`: C string contents, bounded copies, `strncmp`, `isalpha` and `isspace`, path joins.
- `lttng.dfy`: the public API types.
- `lttng_share.dfy`
- `sessiond_comm.dfy`
- `session.dfy`
- `channel.dfy`
- `trace_ust.dfy`
- `strtoul.dfy`
- `scan.dfy`
- `probe_opts.dfy`
- `enable_events.dfy`

## Model

| member | source | states |
|---|---|---|
| LttngShare.DefaultSubbufSizeIsPowerOfTwo | include/lttng-share.h:25-26 | the generic sub-buffer size is 4096, a power of two |
| LttngShare.DefaultSubbufNumIsPowerOfTwo | include/lttng-share.h:27-28 | the generic sub-buffer count is 8, a power of two |
| LttngShare.KernelSubbufSizeIsPowerOfTwo | include/lttng-share.h:38-39 | the kernel sub-buffer size is 262144, a power of two |
| LttngShare.KernelSubbufNumIsPowerOfTwo | include/lttng-share.h:40-41 | the kernel sub-buffer count is 4, a power of two |
| LttngShare.MetadataDefaultsArePowersOfTwo | include/lttng-share.h:33-34 | metadata uses 2 sub-buffers of 4096 bytes, both powers of two |
| LttngShare.UstDefaultsArePowersOfTwo | ltt-sessiond/channel.c:60-61 | the per-process user-space size and count are powers of two |
| LttngShare.DefaultOutputs | include/lttng-share.h:31-43 | kernel channels default to splice output, every other default to mmap |
| CStrings.Truncate | src/bin/lttng/commands/enable_events.c:293-294 | a strncpy into a buffer of `size` bytes, terminated at `size - 1`: keeps the whole string when it fits, else its first `size - 1` characters |
| CStrings.PathJoin | lttng-sessiond/trace-ust.c:111 | `"%s/leaf"` is the directory, a slash, then the leaf, at known positions |
| SessiondComm.ErrIndex | liblttng-sessiond-comm/lttng-sessiond-comm.c:37-109 | every code has a position in the readable-text table, and the table holds that code there |
| SessiondComm.LookupOfEnumerator | liblttng-sessiond-comm/lttng-sessiond-comm.c:117-123 | every code, passed negated, selects its own table entry |
| SessiondComm.ReadableCodeOfEnumerator | liblttng-sessiond-comm/lttng-sessiond-comm.c:117-123 | every code, passed negated, reads as its own table text |
| SessiondComm.ExistSessText | liblttng-sessiond-comm/lttng-sessiond-comm.c:54 | the duplicate-session code reads "Session name already exist" |
| SessiondComm.UnknownExactlyOutsideRange | liblttng-sessiond-comm/lttng-sessiond-comm.c:117-126 | the lookup is total: inside [LTTCOMM_OK, LTTCOMM_NR) it gives the entry at `-code - LTTCOMM_OK`; it falls back to "Unknown error code" exactly outside that range |
| SessiondComm.InRangeLookup | liblttng-sessiond-comm/lttng-sessiond-comm.c:121-122 | inside [LTTCOMM_OK, LTTCOMM_NR) the table has an entry at `-code - LTTCOMM_OK`, and the lookup picks it |
| SessiondComm.CodeTableIsDense | liblttng-sessiond-comm/lttng-sessiond-comm.c:37-109 | the table has an entry at every index below LTTCOMM_NR - LTTCOMM_OK and none beyond |
| SessiondComm.ConnectUnixSock | liblttng-sessiond-comm/lttng-sessiond-comm.c:131-164 | socket failure: returns that result and prints a diagnostic; otherwise connects to the path truncated to 107 characters; connect failure: closes the socket, returns the failure and prints nothing; success: returns the socket |
| SessiondComm.ConnectOwnsItsSocket | liblttng-sessiond-comm/lttng-sessiond-comm.c:149-163 | the result is negative exactly when a system call failed; a created socket is either returned or closed, never both |
| SessiondComm.FdsMessage | liblttng-sessiond-comm/lttng-sessiond-comm.c:322-336 | one zero payload byte and one SOL_SOCKET/SCM_RIGHTS control message; its length is CMSG_LEN(nb_fd * sizeof(int)) and it carries exactly the given descriptors |
| SessiondComm.SendFdsUnixSock | liblttng-sessiond-comm/lttng-sessiond-comm.c:309-343 | more than the maximum: -EINVAL and nothing sent; otherwise sends FdsMessage of the first nb_fd descriptors and returns sendmsg's result |
| SessiondComm.RecvFdsUnixSock | liblttng-sessiond-comm/lttng-sessiond-comm.c:353-407 | a byte count other than 1 is returned as is; a truncated, missing, wrongly typed or wrongly sized header gives -1; both leave the array untouched; success copies the nb_fd descriptors in front of the untouched rest and returns nb_fd * sizeof(int) |
| SessiondComm.FdPassingRoundTrip | liblttng-sessiond-comm/lttng-sessiond-comm.c:309-407 | a sent message, delivered whole, passes the receiver's checks exactly when it expects that many descriptors, and carries the sent descriptors |
| SessionRegistry.Session.constructor | ltt-sessiond/session.c:188-215 | a new session holds the given name and path, no kernel session and an empty user-space list |
| SessionRegistry.First | ltt-sessiond/session.c:127-139 | null exactly when no name matches on NAME_MAX characters; otherwise a matching session with no match before it |
| SessionRegistry.IndexOf | ltt-sessiond/session.c:68 | the position of the first occurrence of a linked session |
| SessionRegistry.UnlinkKeepsDistinct | ltt-sessiond/session.c:66-73 | unlinking keeps names distinct, shortens the list by one and keeps exactly the others |
| SessionRegistry.UnlinkRemovesOnlyThat | ltt-sessiond/session.c:66-73 | after unlinking, the name is no longer found and every other session is still listed |
| SessionRegistry.SessionList.constructor | ltt-sessiond/session.c:44-48 | the static list is empty with count 0 and valid |
| SessionRegistry.SessionList.AddSessionList | ltt-sessiond/session.c:55-59 | the session is prepended and the count increases by one |
| SessionRegistry.SessionList.DelSessionList | ltt-sessiond/session.c:66-73 | the session is unlinked; the count drops only while positive, so it never goes below zero |
| SessionRegistry.SessionList.FindByName | ltt-sessiond/session.c:119-140 | returns the first session whose name matches on NAME_MAX characters, or null exactly when none does; the list is not changed |
| SessionRegistry.SessionList.Create | ltt-sessiond/session.c:168-238 | preserves validity (distinct names, count equals length); a duplicate gives EXIST_SESS; a failed allocation or copy, or a missing name or path, gives FATAL; both leave the list and count unchanged; success prepends one fresh session with the given name and path, no kernel session and no UST sessions, bumps the count and returns OK |
| SessionRegistry.SessionList.Destroy | ltt-sessiond/session.c:147-163 | always OK; null changes nothing; otherwise exactly that session is unlinked, the count drops by one, the name is no longer found and every other session stays |
| SessionRegistry.FirstOfTail | ltt-sessiond/session.c:127-139 | the first match in the tail of a list whose head does not match is the first match of the list, and there is none in the list exactly when there is none in the tail |
| SessionRegistry.FirstIsEarliest | ltt-sessiond/session.c:127-132 | the loop's stopping point is the first match, as First defines it |
| SessionRegistry.NewHeadKeepsDistinct | ltt-sessiond/session.c:173-223 | a new head whose name was not found keeps names distinct and is what a lookup of its name finds |
| SessionRegistry.CreateThenDestroyRestores | ltt-sessiond/session.c:55-73 | unlinking a just-prepended session restores the list |
| SessiondChannel.NewDefaultAttr | ltt-sessiond/channel.c:33-74 | non-null exactly for a successful allocation in the kernel or per-process user-space domain; name "channel0", default overwrite and timers, and that domain's size, count and output |
| SessiondChannel.DefaultAttrValues | ltt-sessiond/channel.c:43-66 | the kernel defaults are 4 spliced sub-buffers of 262144 bytes, the user-space ones 8 mapped sub-buffers of 4096 bytes; other domains and a failed allocation give null |
| SessiondChannel.DefaultAttrIsPowerOfTwoGeometry | ltt-sessiond/channel.c:53-63 | any default attribute set has a power-of-two size and count |
| SessiondChannel.UstEvent.constructor | ltt-sessiond/channel.c:94 | an event copy holds the given fields |
| SessiondChannel.UstChannel.constructor | ltt-sessiond/channel.c:84-85 | a channel with the given fields and an empty event list counted 0 |
| SessiondChannel.ChannelUstCopy | ltt-sessiond/channel.c:79-103 | code as written: copies the fields; dst gets one fresh field-wise copy per copied event, in reverse order, as distinct objects; dst's count is src's count plus the number copied; 0 after a full copy, -1 at the first failed allocation; src is not modified |
| SessiondChannel.ChannelUstCopyCounted | ltt-sessiond/channel.c:84-97 | the copy with the count restarted with the list: same list contents and return value, and the count equals the list's length |
| SessiondChannel.CopyCountExample | ltt-sessiond/channel.c:84-96 | copying one event from a channel counted 1 gives a copy counted 2 that lists 1 event |
| SessiondChannel.KernelDisable | ltt-sessiond/channel.c:108-132 | unknown channel: KERN_CHAN_NOT_FOUND; the backend is called exactly for an enabled channel; OK exactly when the channel is found and already disabled or the backend succeeds; a failure other than EEXIST gives KERN_CHAN_DISABLE_FAIL |
| SessiondChannel.KernelDisableAlwaysACode | ltt-sessiond/channel.c:118-125 | a negative backend result never equals EEXIST, so every backend failure gives KERN_CHAN_DISABLE_FAIL |
| SessiondChannel.KernelEnable | ltt-sessiond/channel.c:137-154 | the backend is called exactly for a disabled channel; OK unless that call fails, which gives KERN_CHAN_ENABLE_FAIL |
| SessiondChannel.KernelCreate | ltt-sessiond/channel.c:159-192 | null attributes mean the kernel defaults (FATAL when they cannot be allocated); a failed create gives KERN_CHAN_FAIL without notifying; the thread is notified exactly after a successful create; a failed notification gives FATAL |
| SessiondChannel.KernelCreateDefaults | ltt-sessiond/channel.c:165-172 | a channel created without attributes is submitted with 4 spliced sub-buffers of 262144 bytes |
| SessiondChannel.UstCreate | ltt-sessiond/channel.c:197-224 | null attributes mean the per-process defaults (FATAL when they cannot be allocated); OK exactly when the backend succeeds, else UST_CHAN_FAIL |
| SessiondChannel.UstToggle | ltt-sessiond/channel.c:229-266 | enable and disable return OK exactly when the backend succeeds, else UST_CHAN_FAIL |
| SessiondChannel.UstBackendFailureIsChanFail | ltt-sessiond/channel.c:197-266 | create, enable and disable all map a backend failure to UST_CHAN_FAIL |
| TraceUst.HashTable.constructor | lttng-sessiond/trace-ust.c:104-108 | a new table is empty |
| TraceUst.HashTable.DeleteAll | lttng-sessiond/trace-ust.c:291-298 | the deleting walk leaves the table empty and hands over every entry, one per key, and only entries of the table |
| TraceUst.UstEvent.constructor | lttng-sessiond/trace-ust.c:220-223 | a new event has a fresh, empty context table |
| TraceUst.UstChannel.constructor | lttng-sessiond/trace-ust.c:161-165 | a new channel has fresh, empty event and context tables |
| TraceUst.UstDomain.constructor | lttng-sessiond/trace-ust.c:107-108 | a new domain has a fresh, empty channel table |
| TraceUst.UstSession.constructor | lttng-sessiond/trace-ust.c:103-108 | a new session has fresh, empty pid, exec and global-channel tables |
| TraceUst.PathBuffer | lttng-sessiond/trace-ust.c:111-115 | a path that fits PATH_MAX is kept; the result always fits |
| TraceUst.CreateSession | lttng-sessiond/trace-ust.c:86-123 | null exactly when allocation fails; otherwise the uid, consumer_fds_sent 0, empty tables and the path `path/ust` |
| TraceUst.SessionPathIsUstSubdirectory | lttng-sessiond/trace-ust.c:111 | for a path that fits, the session path is `path` followed by "/ust" |
| TraceUst.ChannelNameAsWritten | lttng-sessiond/trace-ust.c:158-159 | code as written: only the first sizeof(pointer) = 8 characters are copied; a longer name keeps them and runs on into the buffer's stale contents |
| TraceUst.DefaultChannelNameGetsStaleBytes | lttng-sessiond/trace-ust.c:158-159 | "channel0" is 8 characters, so as written it continues into the stale bytes |
| TraceUst.ChannelName | lttng-sessiond/trace-ust.c:158-159 | the intended copy: a name shorter than the buffer is kept whole; the result is always a prefix that fits |
| TraceUst.ChannelNamesAgreeWhenShort | lttng-sessiond/trace-ust.c:158-159 | both copies agree on names shorter than a pointer |
| TraceUst.CreateChannel | lttng-sessiond/trace-ust.c:130-180 | null exactly when allocation fails; otherwise the request's overwrite, geometry and timers, output forced to mmap whatever was asked, the name as the intended whole-buffer copy (ChannelName, not the 8-byte copy of line 158), empty tables and the path |
| TraceUst.Instrumentation | lttng-sessiond/trace-ust.c:197-213 | exactly probe, function, function-entry and tracepoint have a user-space instrumentation |
| TraceUst.InstrumentationTable | lttng-sessiond/trace-ust.c:197-213 | PROBE → probe; FUNCTION and FUNCTION_ENTRY → function; TRACEPOINT → tracepoint; LOGLEVEL, ALL and SYSCALL have none |
| TraceUst.EventName | lttng-sessiond/trace-ust.c:216-217 | the stored name is a prefix of the request's of at most LTTNG_UST_SYM_NAME_LEN - 1 characters, the whole name when it fits |
| TraceUst.CreateEvent | lttng-sessiond/trace-ust.c:187-229 | null exactly when allocation fails or the type has no instrumentation; otherwise the translated instrumentation, the truncated name and an empty context table |
| TraceUst.CreateMetadata | lttng-sessiond/trace-ust.c:236-267 | null exactly when allocation fails; otherwise the metadata attributes, handle -1 and the path `path/metadata` |
| TraceUst.MetadataAttrGeometry | lttng-sessiond/trace-ust.c:248-253 | metadata uses 2 sub-buffers of 4096 bytes (powers of two), overwrite 0 and read timer 200 |
| TraceUst.FindChannelByName | lttng-sessiond/trace-ust.c:33-54 | the entry under the name, or null exactly when the key is absent; the table is only read |
| TraceUst.FindEventByName | lttng-sessiond/trace-ust.c:59-79 | the entry under the name, or null exactly when the key is absent; the table is only read |
| TraceUst.KeyedByNameAfterInsert | lttng-sessiond/trace-ust.c:161-162 | a channel or event table that gains an object under the object's own name, the key its node is initialised with (also lines 219-221), stays filed by name |
| TraceUst.FreshTablesKeyedByName | lttng-sessiond/trace-ust.c:164 | a channel's freshly created event table is filed by name |
| TraceUst.FindByNameIsExact | lttng-sessiond/trace-ust.c:33-79 | in a table filed by name, a result has the name searched for, and null means no entry has it |
| TraceUst.DestroyContext | lttng-sessiond/trace-ust.c:285-299 | the context table is left empty and every context is handed to reclamation |
| TraceUst.DestroyEvent | lttng-sessiond/trace-ust.c:304-309 | the event's context table is left empty |
| TraceUst.DestroyChannel | lttng-sessiond/trace-ust.c:327-351 | the channel's event and context tables are left empty, all their entries handed to reclamation |
| TraceUst.DestroyChannels | lttng-sessiond/trace-ust.c:379-393 | the channel table is left empty and every channel is handed to reclamation |
| TraceUst.DestroyDomainTable | lttng-sessiond/trace-ust.c:398-435 | the domain table is left empty, and so is the channel table of every domain it held; every channel of every such domain is handed to reclamation, also when domains share a channel table |
| TraceUst.DestroyDomainEntry | lttng-sessiond/trace-ust.c:407-411 | one domain is deleted from the table and its channels destroyed, keeping the teardown invariant: removed domains have empty channel tables, and every domain is either still listed with its channels untouched or has all of them handed over |
| TraceUst.DestroySession | lttng-sessiond/trace-ust.c:448-471 | null is a no-op; otherwise the global channel table, the pid and exec tables, and every channel table of their domains are left empty, and every channel of each of those tables is handed to reclamation, also when domains share a channel table |
| LibcStrtoul.DetectBase | src/bin/lttng/commands/enable_events.c:163 | base 0 picks 8, 10 or 16 |
| LibcStrtoul.Strtoul | src/bin/lttng/commands/enable_events.c:163 | the result is at most ULONG_MAX |
| LibcStrtoul.DigitsRoundTrip | src/bin/lttng/commands/enable_events.c:163 | printed digits are one complete run of digits, denote the number, and have no leading zero |
| LibcStrtoul.StrtoulUnsigned | src/bin/lttng/commands/enable_events.c:163 | unsigned text within range reads as its magnitude |
| LibcStrtoul.StrtoulMinus | src/bin/lttng/commands/enable_events.c:191 | a minus sign gives the magnitude's negation modulo 2^64 |
| LibcStrtoul.MagnitudeDecimal | src/bin/lttng/commands/enable_events.c:124-125 | decimal digits read as decimal |
| LibcStrtoul.MagnitudeOctal | src/bin/lttng/commands/enable_events.c:124-125 | a leading 0 selects octal |
| LibcStrtoul.MagnitudeHex | src/bin/lttng/commands/enable_events.c:124-125 | "0x" selects hexadecimal |
| LibcStrtoul.StrtoulRoundTrip | src/bin/lttng/commands/enable_events.c:163 | every 64-bit value written in decimal, in octal with a leading 0, or in hex with a 0x prefix reads back as itself |
| LibcStrtoul.StrtoulNegates | src/bin/lttng/commands/enable_events.c:191 | "-n" reads as 2^64 - n |
| LibcScan.Span | src/bin/lttng/commands/enable_events.c:153 | the longest prefix of accepted characters |
| LibcScan.SkipSpaces | src/bin/lttng/commands/enable_events.c:153 | a suffix that starts with no blank |
| LibcScan.ScanSymbolOffset | src/bin/lttng/commands/enable_events.c:153 | returns -1..2; the name is the non-empty leading run without quote or plus; with 2 conversions the token is a non-empty word |
| LibcScan.ScanWord | src/bin/lttng/commands/enable_events.c:171 | returns 1 with a non-empty word, or -1 |
| LibcScan.HexToken | src/bin/lttng/commands/enable_events.c:153 | "0x" and hex digits are word characters and scan-set characters |
| LibcScan.ScanWordOfWord | src/bin/lttng/commands/enable_events.c:171 | a whole word is what `%s` stores |
| LibcScan.ScanOfRun | src/bin/lttng/commands/enable_events.c:153 | input without a quote or plus matches only the first conversion, whole |
| LibcScan.ScanOfSymbolOffset | src/bin/lttng/commands/enable_events.c:153 | `sym+tok` matches both conversions with sym and tok |
| LibcScan.ScanOfSymbolOffsetThenText | src/bin/lttng/commands/enable_events.c:153 | `sym+tok`, a blank and any text match both conversions with sym and tok: `%s` stops at the blank |
| ProbeOpts.ParseProbeOpts | src/bin/lttng/commands/enable_events.c:141-203 | returns -1, 1 or 2; -1 leaves the probe unchanged and NULL gives -1; a stored symbol is terminated within LTTNG_SYMBOL_NAME_LEN; 2 exactly when both conversions match, and then the symbol is the leading run, the offset strtoul of the token and the address 0; 1 exactly when the symbol+offset scan does not match both conversions but `%s` finds a word, and then either (symbol form: the first character is a letter) the word truncated to LTTNG_SYMBOL_NAME_LEN as symbol with offset and address 0, or (address form) strtoul of the word as address with offset 0 and an empty symbol |
| ProbeOpts.ParseOverwritesProbe | src/bin/lttng/commands/enable_events.c:153-199 | a successful parse sets every probe field, whatever they held before |
| ProbeOpts.ParseSymbolOffset | src/bin/lttng/commands/enable_events.c:153-166 | "sym+0xOFF" gives 2, symbol sym, offset OFF and address 0 |
| ProbeOpts.ParseSymbolOffsetThenText | src/bin/lttng/commands/enable_events.c:153-166 | "sym+0xOFF", a blank and any text, however long, fit the buffers and give 2, symbol sym, offset OFF and address 0 |
| ProbeOpts.ParseOutcomeIgnoresStale | src/bin/lttng/commands/enable_events.c:153-199 | the return value depends neither on the old probe fields nor on the stale first byte of `name` |
| ProbeOpts.HexNumberToken | src/bin/lttng/commands/enable_events.c:144-163 | a 64-bit value in 0x form fits s_hex, is one word not starting with a letter and reads back through strtoul |
| ProbeOpts.ParseSymbol | src/bin/lttng/commands/enable_events.c:170-180 | a plus-free symbol starting with a letter gives 1, that symbol, offset 0 and address 0 |
| ProbeOpts.ParseNumberToken | src/bin/lttng/commands/enable_events.c:184-195 | a token that fits `s_hex`, starts with no letter and has no blank, quote or plus gives 1, address strtoul of the token, offset 0 and an empty symbol |
| ProbeOpts.DigitToken | src/bin/lttng/commands/enable_events.c:184-195 | a run of digits is a token the address branch accepts |
| ProbeOpts.ParseAddress | src/bin/lttng/commands/enable_events.c:184-195 | "0xADDR" gives 1, address ADDR, offset 0 and an empty symbol |
| ProbeOpts.ParseDecimalAddress | src/bin/lttng/commands/enable_events.c:124-125 | a decimal address shorter than `s_hex` gives 1, that address, offset 0 and an empty symbol |
| ProbeOpts.ParseOctalAddress | src/bin/lttng/commands/enable_events.c:124-125 | "0" and octal digits, shorter than `s_hex`, give 1, that address, offset 0 and an empty symbol |
| EnableEvents.UntilComma | src/bin/lttng/commands/enable_events.c:290 | the comma-free prefix up to the first comma |
| EnableEvents.Tokens | src/bin/lttng/commands/enable_events.c:290-384 | strtok's tokens on ",": non-empty and comma-free |
| EnableEvents.UntilCommaOfWord | src/bin/lttng/commands/enable_events.c:290 | a word followed by a comma or nothing is cut there |
| EnableEvents.TokensOfJoin | src/bin/lttng/commands/enable_events.c:290-384 | splitting a comma-joined list of non-empty comma-free names gives the names back |
| EnableEvents.ResolveIgnoresProbe | src/bin/lttng/commands/enable_events.c:302-335 | the type table's answer does not depend on the probe fields left by earlier names |
| EnableEvents.KernelTypeResolution | src/bin/lttng/commands/enable_events.c:302-335 | kernel: ALL → TRACEPOINT; TRACEPOINT and FUNCTION_ENTRY kept, the latter with the truncated symbol; PROBE and FUNCTION submitted exactly when the location parses, with the parsed fields, else 0; SYSCALL, LOGLEVEL and unknown kinds → CMD_UNDEFINED |
| EnableEvents.UstTypeResolution | src/bin/lttng/commands/enable_events.c:348-370 | user space: ALL and TRACEPOINT → TRACEPOINT; LOGLEVEL kept; anything else → CMD_UNDEFINED; probe and function-entry fields untouched |
| EnableEvents.PrepareTruncatesName | src/bin/lttng/commands/enable_events.c:293-294 | a submitted event carries the name truncated below LTTNG_SYMBOL_NAME_LEN |
| EnableEvents.AbortIgnoresName | src/bin/lttng/commands/enable_events.c:302-370 | whether a name stops the command, and with what result, does not depend on the name, the event state or the stale first byte of that call's `name` buffer |
| EnableEvents.PrepareChains | src/bin/lttng/commands/enable_events.c:292-335 | preparing a name from the event a previous name left equals preparing it afresh |
| EnableEvents.FirstAbort | src/bin/lttng/commands/enable_events.c:290-384 | every name before it is submitted, and the name at it stops the command |
| EnableEvents.Submissions | src/bin/lttng/commands/enable_events.c:290-384 | the first n names' submissions, n no later than the first stopping name: one per name, in order, each the name prepared from the initial event, to the channel |
| EnableEvents.PrepareNext | src/bin/lttng/commands/enable_events.c:292-378 | one pass of the loop: preparing the i-th name from the event the previous name left gives the fresh preparation; it stops the command exactly when i is FirstAbort, and otherwise extends the submissions by one |
| EnableEvents.SubmitNames | src/bin/lttng/commands/enable_events.c:290-384 | the names are submitted in order up to the first stopping one, each with its fresh preparation, to the given channel; the result is the stopping name's code, CMD_SUCCESS for no names, or the last reply |
| EnableEvents.StopIgnoresStale | src/bin/lttng/commands/enable_events.c:302-335 | whether the type table stops the command, and with what result, is the same for either stale first byte of the `name` buffer |
| EnableEvents.FirstAbortAllOrNothing | src/bin/lttng/commands/enable_events.c:290-384 | either the first name stops the command or none does |
| EnableEvents.EnableEvents | src/bin/lttng/commands/enable_events.c:208-394 | channel name copy failure and -k with -u: CMD_FATAL; neither tracer: CMD_ERROR; handle failure: -1; none of these submits anything; enable-all: submits the one all-events event and returns its reply; otherwise submits the names in order up to the first stopping one, to the chosen channel, and returns its code, CMD_SUCCESS for an empty list, or the last reply (failed enables do not stop the loop) |

## Left out

- Locking and reclamation are not modelled.
  - The session list mutex and per-session mutexes are no-ops, since they only serialise callers.
  - `rcu_read_lock` is dropped, and `call_rcu` is modelled by returning the handed-over objects.
  - The lock-free hash-table internals are not part of this model. `hashtable_del` is taken always to succeed.
- System calls and foreign code are parameters, not models: `socket`, `connect`, `sendmsg`, `recvmsg`, the kernel and user-space backends, `notify_thread_pipe`, `lttng_create_handle` and `lttng_enable_event`.
- `lttcomm_accept_unix_sock`, `lttcomm_create_unix_sock`, `lttcomm_listen_unix_sock`, `lttcomm_recv_unix_sock`, `lttcomm_send_unix_sock` and `lttcomm_close_unix_sock` are thin wrappers around one system call each; they are I/O.
- Diagnostics (`perror`, `ERR`, `DBG`, `MSG`), `free`, `lttng_destroy_handle`, `trace_ust_destroy_metadata` (a bare `free`) and the leaked attributes of the create procedures release or print only.
- The `snprintf` failure branches of `channel_new_default_attr`, `trace_ust_create_session`, `trace_ust_create_channel` and `trace_ust_create_metadata` cannot be taken, because formatting `%s` never fails. Truncation to PATH_MAX is modelled.
- The numeric values of `lttcomm_return_code` are not modelled, because the header is not part of this model.
  - The codes are a datatype in table order.
  - LTTCOMM_OK's value is a parameter, and the codes are taken to be consecutive.
- Platform values are those of Linux on x86-64: sizeof(int) 4, a 16-byte control header, SOL_SOCKET = SCM_RIGHTS = 1, EINVAL 22, EEXIST 17, a 108-byte `sun_path`, NAME_MAX 255, a 64-bit `unsigned long` and 8-byte pointers.
- Values whose headers are not part of this model:
  - the `cmd_error_code` values CMD_SUCCESS..CMD_FATAL are taken as 0..4;
  - the DEFAULT_UST_CHANNEL_* values: their defining header is not modelled, and the model takes 4096, 8 and mmap, equal to the generic DEFAULT_CHANNEL_* values.
- SessiondComm.UnknownExactlyOutsideRange: the "exactly outside" direction is stated on which entry the lookup picks, not on the text. That no table text equals "Unknown error code" is not proved.
- SessionRegistry.SessionList.Create: a NULL name is modelled only on an empty list, because comparing against a NULL name is undefined in C.
- SessionRegistry.SessionList.Destroy requires the session to be in the list, because unlinking a session that is not is undefined in C.
- ProbeOpts.ParseProbeOpts requires what each `sscanf` stores to fit its buffer (ProbeOpts.ProbeBuffersFit): the scan-set run and the symbol-branch word in `name`, the offset token and the address-branch word in `s_hex`. A longer stored string overflows the buffer, which is undefined behaviour; text the scans never store is not limited.
  - When the first scan stores nothing, `name[0]` is indeterminate; its `isalpha` is the parameter `staleAlpha`. In EnableEvents.EnableEvents each name's call has its own fresh `name` buffer, so the value is `staleAlpha(j)` for the j-th name.
  - `strtoul`'s leading white space is not modelled, because every token the scans produce is free of it.
- EnableEvents.EnableEvents requires the kernel tracer's probe or function option to fit the parser's buffers, and a function-entry event to name a symbol, only on the path that reaches the per-name loop, and for each name with its own stale `name[0]` (EnableEvents.NamesWellDefined, EnableEvents.OptionsWellDefined). A longer stored string there overflows `name` or `s_hex`, and a missing symbol is passed to `strncpy`; both are undefined behaviour.
- EnableEvents.EnableEvents:
  - In the enable-all path, only the submitted event and the result are modelled; the messages printed after it are not. Every branch of that switch returns the reply.
  - `cmd_enable_events`, `usage`, `list_cmd_options` and popt parsing are command-line plumbing.
  - The path that names no tracer inside the loop cannot be reached after the earlier check.
- `add_session_list` prepends a new session, because `cds_list_add` inserts at the head of the list.
- `lttcomm_recv_fds_unix_sock` returns the byte count nb_fd * sizeof(int), as line 348 says. The comment at lines 350-351 says the number of descriptors received is returned in `nb_fd`, but `nb_fd` is passed by value, so the caller is told no count.
- TraceUst.CreateChannel stores the intended whole-buffer copy of the name (TraceUst.ChannelName). Line 158 of `lttng-sessiond/trace-ust.c` copies only 8 bytes; what it produces is TraceUst.ChannelNameAsWritten, and the two agree only on names shorter than 8 characters (TraceUst.ChannelNamesAgreeWhenShort).
- `lttng-sessiond/ust-app.h`, `src/bin/lttng/conf.h` and `ltt-sessiond/utils.h` hold declarations only and are not part of this model.

## Findings

| source | as written | input that shows it | evidently intended | confidence | as-written member | corrected member |
|---|---|---|---|---|---|---|
| ltt-sessiond/channel.c:84-96 | the whole source channel is copied, count included, before the loop counts each copied event again | a source listing one event with count 1: the copy lists one event but counts 2 | the copy's count equals the number of events in its list | high, not executed | SessiondChannel.ChannelUstCopy, SessiondChannel.CopyCountExample | SessiondChannel.ChannelUstCopyCounted |
| lttng-sessiond/trace-ust.c:158 | the copy is bounded by `sizeof(&luc->name)`, the size of a pointer (8), not by the name buffer's size | the default name "channel0" (8 characters): no terminator is copied, so the name runs on into uninitialised bytes | bound the copy by `sizeof(luc->name)`, so any name shorter than the buffer is copied whole | high, not executed | TraceUst.ChannelNameAsWritten, TraceUst.DefaultChannelNameGetsStaleBytes | TraceUst.ChannelName |
