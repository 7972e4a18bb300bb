/**
 * The session daemon's user-space tracing objects (the hash-table based
 * snapshot): sessions with their per-process, per-executable and global
 * domains, channels, events, contexts and metadata; their factories, the
 * lookups by name, and the teardown that empties every table.
 *
 * A hash table is a map from its key to the object it holds.  Objects that
 * a teardown hands to grace-period reclamation (call_rcu) are returned to
 * the caller in a `deferred` sequence instead of being destroyed on the
 * spot; the reclamation callbacks run DestroyEvent and DestroyChannel.
 */
module TraceUst {
  import opened Wrappers
  import opened CStrings
  import opened Lttng
  import opened LttngShare

  /** Size of the user-space tracer's name buffers. */
  const LTTNG_UST_SYM_NAME_LEN: nat := 256
  /** Size of the path buffers (Linux). */
  const PATH_MAX: nat := 4096
  /** `sizeof` a pointer (x86-64). */
  const SIZEOF_POINTER: nat := 8

  /** Some key of a non-empty map. */
  method PickKey<K, V>(m: map<K, V>) returns (k: K)
    requires m.Keys != {}
    ensures k in m
  {
    k :| k in m;
  }

  /** A hash table: a map from key to entry. */
  class HashTable<K(==), V(==)> {
    var entries: map<K, V>

    /** `hashtable_new`: an empty table. */
    constructor ()
      ensures entries == map[]
    {
      entries := map[];
    }

    /**
     * Walks the table, deleting each node and handing its entry to
     * reclamation, until no node is left.  `removed` lists the entries
     * handed over, one per deleted key.
     */
    method DeleteAll() returns (removed: seq<V>)
      modifies this
      ensures entries == map[]
      ensures |removed| == |old(entries)|
      ensures forall k :: k in old(entries) ==> old(entries)[k] in removed
      ensures forall i :: 0 <= i < |removed| ==> removed[i] in old(entries).Values
    {
      removed := [];
      while entries.Keys != {}
        invariant |removed| + |entries.Keys| == |old(entries).Keys|
        invariant forall k :: k in entries ==> k in old(entries) && entries[k] == old(entries)[k]
        invariant forall k :: k in old(entries) ==> k in entries || old(entries)[k] in removed
        invariant forall i :: 0 <= i < |removed| ==> removed[i] in old(entries).Values
        decreases |entries.Keys|
      {
        var k := PickKey(entries);
        ghost var keys := entries.Keys;
        removed := removed + [entries[k]];
        entries := entries - {k};
        assert entries.Keys == keys - {k};
      }
      assert |entries| == |entries.Keys|;
    }
  }

  /** A context attached to a channel or an event; its attributes are not part of this model. */
  class UstContext {
  }

  /** `enum lttng_ust_instrumentation`. */
  datatype UstInstrumentation = UstTracepoint | UstProbe | UstFunction

  /**
   * The output field of a user-space channel attribute: the tracer's own
   * mmap mode, or an `lttng_event_output` value stored there untranslated.
   */
  datatype UstOutput = UstMmap | UstLttngOutput(output: EventOutput)

  /** `struct lttng_ust_channel_attr`. */
  datatype UstChannelAttr = UstChannelAttr(
    overwrite: int,
    subbufSize: nat,
    numSubbuf: nat,
    switchTimerInterval: nat,
    readTimerInterval: nat,
    output: UstOutput)

  /** A user-space event: its name (also its hash key), instrumentation and contexts. */
  class UstEvent {
    var name: string
    var instrumentation: UstInstrumentation
    const ctx: HashTable<string, UstContext>

    constructor ()
      ensures fresh(ctx) && ctx.entries == map[]
    {
      ctx := new HashTable();
    }
  }

  /** A user-space channel: its name (also its hash key), attributes, events, contexts and path. */
  class UstChannel {
    var name: string
    var attr: UstChannelAttr
    const events: HashTable<string, UstEvent>
    const ctx: HashTable<string, UstContext>
    var pathname: string

    constructor ()
      ensures fresh(events) && fresh(ctx) && events.entries == map[] && ctx.entries == map[]
    {
      events := new HashTable();
      ctx := new HashTable();
    }
  }

  /** The metadata channel of a user-space session. */
  class UstMetadata {
    var attr: UstChannelAttr
    var handle: int
    var pathname: string

    constructor ()
    {
    }
  }

  /** A domain (per process, per executable, or global): its channels by name. */
  class UstDomain {
    const channels: HashTable<string, UstChannel>

    constructor ()
      ensures fresh(channels) && channels.entries == map[]
    {
      channels := new HashTable();
    }
  }

  /** A user-space tracing session. */
  class UstSession {
    var uid: nat
    var consumerFdsSent: int
    const domainPid: HashTable<int, UstDomain>
    const domainExec: HashTable<string, UstDomain>
    const domainGlobal: UstDomain
    var pathname: string

    constructor ()
      ensures fresh(domainPid) && fresh(domainExec) && fresh(domainGlobal) && fresh(domainGlobal.channels)
      ensures domainPid.entries == map[] && domainExec.entries == map[] && domainGlobal.channels.entries == map[]
    {
      domainPid := new HashTable();
      domainExec := new HashTable();
      domainGlobal := new UstDomain();
    }
  }

  /** What `snprintf(buf, PATH_MAX, ...)` leaves in a path buffer. */
  function PathBuffer(s: string): (r: string)
    ensures |s| < PATH_MAX ==> r == s
    ensures |r| < PATH_MAX
  {
    Truncate(s, PATH_MAX)
  }

  /**
   * `trace_ust_create_session(path, uid, domain)`; `allocOk` is whether
   * the allocation succeeded.
   */
  method CreateSession(path: string, uid: nat, allocOk: bool) returns (lus: UstSession?)
    ensures lus != null <==> allocOk
    ensures lus != null ==>
      fresh(lus) && fresh(lus.domainPid) && fresh(lus.domainExec) && fresh(lus.domainGlobal) &&
      lus.uid == uid && lus.consumerFdsSent == 0 &&
      lus.domainPid.entries == map[] && lus.domainExec.entries == map[] &&
      lus.domainGlobal.channels.entries == map[] &&
      lus.pathname == PathBuffer(PathJoin(path, "ust"))
  {
    if !allocOk {
      return null;
    }
    lus := new UstSession();
    lus.consumerFdsSent := 0;
    lus.uid := uid;
    lus.pathname := PathBuffer(path + "/ust");
  }

  /** The session path names the "ust" directory below `path` whenever it fits the buffer. */
  lemma SessionPathIsUstSubdirectory(path: string)
    requires |path| + 4 < PATH_MAX
    ensures PathBuffer(PathJoin(path, "ust")) == path + "/ust"
    ensures PathBuffer(PathJoin(path, "ust"))[..|path|] == path
  {
  }

  /**
   * The name trace_ust_create_channel stores, as written: the copy is
   * bounded by the size of a pointer, so a name of 8 characters or more
   * is copied without its terminator and continues with whatever C string
   * `stale` the fresh buffer held from position 8 on, up to the forced
   * terminator at LTTNG_UST_SYM_NAME_LEN - 1.
   */
  function ChannelNameAsWritten(name: string, stale: string): (r: string)
    ensures |name| < SIZEOF_POINTER ==> r == name
    ensures |name| >= SIZEOF_POINTER ==> |r| >= SIZEOF_POINTER && r[..SIZEOF_POINTER] == name[..SIZEOF_POINTER]
  {
    if |name| < SIZEOF_POINTER then name
    else Truncate(name[..SIZEOF_POINTER] + stale, LTTNG_UST_SYM_NAME_LEN)
  }

  /** The default channel name is exactly 8 characters long, so as written it picks up stale bytes. */
  lemma DefaultChannelNameGetsStaleBytes()
    ensures ChannelNameAsWritten(DEFAULT_CHANNEL_NAME, "x") == "channel0x"
    ensures ChannelNameAsWritten(DEFAULT_CHANNEL_NAME, "x") != DEFAULT_CHANNEL_NAME
  {
    assert DEFAULT_CHANNEL_NAME[..SIZEOF_POINTER] == "channel0";
  }

  /** The channel name copied through the whole name buffer. */
  function ChannelName(name: string): (r: string)
    ensures |name| < LTTNG_UST_SYM_NAME_LEN ==> r == name
    ensures |r| < LTTNG_UST_SYM_NAME_LEN && |r| <= |name| && r == name[..|r|]
  {
    Truncate(name, LTTNG_UST_SYM_NAME_LEN)
  }

  /** Both copies agree on names shorter than a pointer, and only there can the written one be trusted. */
  lemma ChannelNamesAgreeWhenShort(name: string, stale: string)
    requires |name| < SIZEOF_POINTER
    ensures ChannelNameAsWritten(name, stale) == ChannelName(name)
  {
  }

  /**
   * `trace_ust_create_channel(chan, path)` with the name copied through the
   * whole buffer: attributes are copied from the request except the output
   * mode, which is always the tracer's mmap mode.
   */
  method CreateChannel(chan: LttngChannel, path: string, allocOk: bool) returns (luc: UstChannel?)
    ensures luc != null <==> allocOk
    ensures luc != null ==>
      fresh(luc) && fresh(luc.events) && fresh(luc.ctx) &&
      luc.attr == UstChannelAttr(chan.attr.overwrite, chan.attr.subbufSize, chan.attr.numSubbuf,
        chan.attr.switchTimerInterval, chan.attr.readTimerInterval, UstMmap) &&
      luc.name == ChannelName(chan.name) &&
      luc.events.entries == map[] && luc.ctx.entries == map[] &&
      luc.pathname == PathBuffer(path)
  {
    if !allocOk {
      return null;
    }
    luc := new UstChannel();
    var a := chan.attr;
    luc.attr := UstChannelAttr(a.overwrite, a.subbufSize, a.numSubbuf,
      a.switchTimerInterval, a.readTimerInterval, UstLttngOutput(a.output));
    // Every output mode is translated to the tracer's mmap mode.
    luc.attr := luc.attr.(output := UstMmap);
    luc.name := ChannelName(chan.name);
    luc.pathname := PathBuffer(path);
  }

  /**
   * The instrumentation a request's event type translates to, or None for
   * the types the user-space tracer does not take.
   */
  function Instrumentation(t: EventType): (r: Option<UstInstrumentation>)
    ensures r.None? <==> !(t == EventProbe || t == EventFunction || t == EventFunctionEntry || t == EventTracepoint)
  {
    match t
    case EventProbe => Some(UstProbe)
    case EventFunction => Some(UstFunction)
    case EventFunctionEntry => Some(UstFunction)
    case EventTracepoint => Some(UstTracepoint)
    case _ => None
  }

  /** Both function kinds become function instrumentation; a loglevel tracepoint has none. */
  lemma InstrumentationTable()
    ensures Instrumentation(EventProbe) == Some(UstProbe)
    ensures Instrumentation(EventFunction) == Instrumentation(EventFunctionEntry) == Some(UstFunction)
    ensures Instrumentation(EventTracepoint) == Some(UstTracepoint)
    ensures Instrumentation(EventTracepointLoglevel) == None
    ensures Instrumentation(EventAll) == None && Instrumentation(EventSyscall) == None
  {
  }

  /** The name a user-space event stores: the request's, truncated to the buffer and terminated. */
  function EventName(name: string): (r: string)
    ensures |r| <= LTTNG_UST_SYM_NAME_LEN - 1 && |r| <= |name| && r == name[..|r|]
    ensures |name| < LTTNG_UST_SYM_NAME_LEN ==> r == name
  {
    Truncate(name, LTTNG_UST_SYM_NAME_LEN)
  }

  /**
   * `trace_ust_create_event(ev)`: NULL when the allocation fails or the
   * event type has no user-space instrumentation.
   */
  method CreateEvent(ev: LttngEvent, allocOk: bool) returns (lue: UstEvent?)
    ensures lue != null <==> allocOk && Instrumentation(ev.eventType).Some?
    ensures lue != null ==>
      fresh(lue) && fresh(lue.ctx) && lue.ctx.entries == map[] &&
      Some(lue.instrumentation) == Instrumentation(ev.eventType) &&
      lue.name == EventName(ev.name)
  {
    if !allocOk {
      return null;
    }
    var instrumentation: UstInstrumentation;
    match ev.eventType {
      case EventProbe => instrumentation := UstProbe;
      case EventFunction => instrumentation := UstFunction;
      case EventFunctionEntry => instrumentation := UstFunction;
      case EventTracepoint => instrumentation := UstTracepoint;
      case _ => return null;
    }
    lue := new UstEvent();
    lue.instrumentation := instrumentation;
    lue.name := EventName(ev.name);
  }

  /** The metadata channel's attributes: metadata buffer geometry and the generic defaults. */
  const METADATA_ATTR: UstChannelAttr := UstChannelAttr(
    DEFAULT_CHANNEL_OVERWRITE, DEFAULT_METADATA_SUBBUF_SIZE, DEFAULT_METADATA_SUBBUF_NUM,
    DEFAULT_CHANNEL_SWITCH_TIMER, DEFAULT_CHANNEL_READ_TIMER, UstLttngOutput(DEFAULT_UST_CHANNEL_OUTPUT))

  /** `trace_ust_create_metadata(path)`. */
  method CreateMetadata(path: string, allocOk: bool) returns (lum: UstMetadata?)
    ensures lum != null <==> allocOk
    ensures lum != null ==>
      fresh(lum) && lum.attr == METADATA_ATTR && lum.handle == -1 &&
      lum.pathname == PathBuffer(PathJoin(path, "metadata"))
  {
    if !allocOk {
      return null;
    }
    lum := new UstMetadata();
    lum.attr := UstChannelAttr(DEFAULT_CHANNEL_OVERWRITE, DEFAULT_METADATA_SUBBUF_SIZE,
      DEFAULT_METADATA_SUBBUF_NUM, DEFAULT_CHANNEL_SWITCH_TIMER, DEFAULT_CHANNEL_READ_TIMER,
      UstLttngOutput(DEFAULT_UST_CHANNEL_OUTPUT));
    lum.handle := -1;
    lum.pathname := PathBuffer(path + "/metadata");
  }

  /** The metadata buffers are two sub-buffers of 4096 bytes, both powers of two. */
  lemma MetadataAttrGeometry()
    ensures METADATA_ATTR.subbufSize == 4096 && METADATA_ATTR.numSubbuf == 2
    ensures IsPowerOfTwo(METADATA_ATTR.subbufSize) && IsPowerOfTwo(METADATA_ATTR.numSubbuf)
    ensures METADATA_ATTR.overwrite == 0 && METADATA_ATTR.readTimerInterval == 200
  {
    MetadataDefaultsArePowersOfTwo();
  }

  /** `trace_ust_find_channel_by_name(ht, name)`: the entry under `name`, or null. */
  function FindChannelByName(ht: HashTable<string, UstChannel>, name: string): (r: UstChannel?)
    reads ht
    ensures r != null <==> name in ht.entries
    ensures r != null ==> r == ht.entries[name]
  {
    if name in ht.entries then ht.entries[name] else null
  }

  /** `trace_ust_find_event_by_name(ht, name)`: the entry under `name`, or null. */
  function FindEventByName(ht: HashTable<string, UstEvent>, name: string): (r: UstEvent?)
    reads ht
    ensures r != null <==> name in ht.entries
    ensures r != null ==> r == ht.entries[name]
  {
    if name in ht.entries then ht.entries[name] else null
  }

  /** Every channel of the map is filed under its own name. */
  ghost predicate ChannelMapKeyedByName(m: map<string, UstChannel>)
    reads m.Values
  {
    forall k :: k in m ==> m[k].name == k
  }

  /** Every event of the map is filed under its own name. */
  ghost predicate EventMapKeyedByName(m: map<string, UstEvent>)
    reads m.Values
  {
    forall k :: k in m ==> m[k].name == k
  }

  /** Every channel of the table is filed under its own name. */
  ghost predicate ChannelsKeyedByName(ht: HashTable<string, UstChannel>)
    reads ht, ht.entries.Values
  {
    ChannelMapKeyedByName(ht.entries)
  }

  /** Every event of the table is filed under its own name. */
  ghost predicate EventsKeyedByName(ht: HashTable<string, UstEvent>)
    reads ht, ht.entries.Values
  {
    EventMapKeyedByName(ht.entries)
  }

  /**
   * Each channel and event node is keyed by the object's own name, so a
   * table that gains an object under that key stays filed by name.
   */
  lemma KeyedByNameAfterInsert(channels: HashTable<string, UstChannel>, c: UstChannel,
                               events: HashTable<string, UstEvent>, e: UstEvent)
    requires ChannelsKeyedByName(channels) && EventsKeyedByName(events)
    ensures ChannelMapKeyedByName(channels.entries[c.name := c])
    ensures EventMapKeyedByName(events.entries[e.name := e])
  {
  }

  /** The tables a factory creates are empty, and so filed by name. */
  lemma FreshTablesKeyedByName(luc: UstChannel)
    requires luc.events.entries == map[]
    ensures EventsKeyedByName(luc.events)
  {
  }

  /**
   * In a table filed by name, the lookups return exactly the object of
   * that name: found iff some entry has the name, and then that entry.
   */
  lemma FindByNameIsExact(channels: HashTable<string, UstChannel>, events: HashTable<string, UstEvent>, name: string)
    requires ChannelsKeyedByName(channels) && EventsKeyedByName(events)
    ensures FindChannelByName(channels, name) != null ==> FindChannelByName(channels, name).name == name
    ensures FindChannelByName(channels, name) == null <==> forall c :: c in channels.entries.Values ==> c.name != name
    ensures FindEventByName(events, name) != null ==> FindEventByName(events, name).name == name
    ensures FindEventByName(events, name) == null <==> forall e :: e in events.entries.Values ==> e.name != name
  {
    if FindChannelByName(channels, name) == null {
      forall c | c in channels.entries.Values ensures c.name != name {
        var k :| k in channels.entries && channels.entries[k] == c;
      }
    } else {
      assert channels.entries[name] in channels.entries.Values;
    }
    if FindEventByName(events, name) == null {
      forall e | e in events.entries.Values ensures e.name != name {
        var k :| k in events.entries && events.entries[k] == e;
      }
    } else {
      assert events.entries[name] in events.entries.Values;
    }
  }

  /** `destroy_context(ht)`: every context is deleted and handed to reclamation. */
  method DestroyContext(ht: HashTable<string, UstContext>) returns (deferred: seq<UstContext>)
    modifies ht
    ensures ht.entries == map[]
    ensures forall k :: k in old(ht.entries) ==> old(ht.entries)[k] in deferred
  {
    deferred := ht.DeleteAll();
  }

  /** `trace_ust_destroy_event(event)`: empties the event's context table. */
  method DestroyEvent(event: UstEvent) returns (deferred: seq<UstContext>)
    modifies event.ctx
    ensures event.ctx.entries == map[]
    ensures forall k :: k in old(event.ctx.entries) ==> old(event.ctx.entries)[k] in deferred
  {
    deferred := DestroyContext(event.ctx);
  }

  /**
   * `trace_ust_destroy_channel(channel)`: every event is deleted and handed
   * to reclamation (which runs DestroyEvent on it), then the channel's
   * contexts are destroyed.
   */
  method DestroyChannel(channel: UstChannel) returns (deferredEvents: seq<UstEvent>, deferredCtx: seq<UstContext>)
    modifies channel.events, channel.ctx
    ensures channel.events.entries == map[] && channel.ctx.entries == map[]
    ensures forall k :: k in old(channel.events.entries) ==> old(channel.events.entries)[k] in deferredEvents
    ensures forall k :: k in old(channel.ctx.entries) ==> old(channel.ctx.entries)[k] in deferredCtx
  {
    deferredEvents := channel.events.DeleteAll();
    deferredCtx := DestroyContext(channel.ctx);
  }

  /**
   * `destroy_channels(channels)`, also the whole of `destroy_domain_global`:
   * every channel is deleted and handed to reclamation (which runs
   * DestroyChannel on it).
   */
  method DestroyChannels(channels: HashTable<string, UstChannel>) returns (deferred: seq<UstChannel>)
    modifies channels
    ensures channels.entries == map[]
    ensures |deferred| == |old(channels.entries)|
    ensures forall k :: k in old(channels.entries) ==> old(channels.entries)[k] in deferred
  {
    deferred := channels.DeleteAll();
  }

  /**
   * `destroy_domain_pid(ht)` and `destroy_domain_exec(ht)`: every domain is
   * deleted and its channels destroyed at once, each channel handed to
   * reclamation.
   */
  method DestroyDomainTable<K(==)>(ht: HashTable<K, UstDomain>) returns (deferred: seq<UstChannel>)
    modifies ht, set d | d in ht.entries.Values :: d.channels
    ensures ht.entries == map[]
    ensures forall k :: k in old(ht.entries) ==> old(ht.entries[k]).channels.entries == map[]
    ensures forall k, c :: k in old(ht.entries) && c in old(ht.entries[k].channels.entries.Values) ==> c in deferred
  {
    deferred := [];
    ghost var initial := ht.entries;
    ghost var chans := map k | k in initial :: initial[k].channels.entries;
    while ht.entries.Keys != {}
      invariant DomainsPending(ht, initial, chans, deferred)
      decreases |ht.entries.Keys|
    {
      var k := PickKey(ht.entries);
      ghost var keys := ht.entries.Keys;
      ghost var d := ht.entries[k];
      assert d in initial.Values;
      deferred := DestroyDomainEntry(ht, k, initial, chans, deferred);
      assert ht.entries.Keys == keys - {k};
    }
    PendingDone(ht, initial, chans, deferred);
  }

  /** Once the table is empty, every domain's channels are gone and handed over. */
  lemma PendingDone<K>(ht: HashTable<K, UstDomain>, initial: map<K, UstDomain>,
                       chans: map<K, map<string, UstChannel>>, deferred: seq<UstChannel>)
    requires DomainsPending(ht, initial, chans, deferred) && ht.entries == map[]
    ensures forall k :: k in initial ==> initial[k].channels.entries == map[]
    ensures forall k, c :: k in initial && c in chans[k].Values ==> c in deferred
  {
    forall k, c | k in initial && c in chans[k].Values ensures c in deferred {
      assert AllIn(chans[k], deferred);
    }
  }

  /**
   * Part-way through destroying the domain table that held `initial`: what
   * is left is part of it, every removed domain's channel table is empty,
   * and every domain either is still listed with its channels untouched or
   * has all its original channels (`chans`) handed over in `deferred`.
   */
  ghost predicate DomainsPending<K>(ht: HashTable<K, UstDomain>, initial: map<K, UstDomain>,
                                        chans: map<K, map<string, UstChannel>>, deferred: seq<UstChannel>)
    reads ht, set d | d in initial.Values :: d.channels
  {
    && initial.Keys <= chans.Keys
    && (forall k :: k in ht.entries ==> k in initial && ht.entries[k] == initial[k])
    && (forall k :: k in initial ==> k in ht.entries || initial[k].channels.entries == map[])
    && (forall k :: k in initial ==>
          (k in ht.entries && initial[k].channels.entries == chans[k]) || AllIn(chans[k], deferred))
  }

  /** One step of the domain-table teardown: remove domain `k` and destroy its channels. */
  method DestroyDomainEntry<K(==)>(ht: HashTable<K, UstDomain>, k: K, ghost initial: map<K, UstDomain>,
                                   ghost chans: map<K, map<string, UstChannel>>, done: seq<UstChannel>)
    returns (deferred: seq<UstChannel>)
    requires k in ht.entries && DomainsPending(ht, initial, chans, done)
    modifies ht, ht.entries[k].channels
    ensures ht.entries == old(ht.entries) - {k}
    ensures DomainsPending(ht, initial, chans, deferred)
  {
    var d := ht.entries[k];
    ghost var before := d.channels.entries;
    label Step:
    var gone := DestroyChannels(d.channels);
    deferred := done + gone;
    HandedOver(before, done, gone);
    ht.entries := ht.entries - {k};
    forall k' | k' in initial
      ensures k' in ht.entries || initial[k'].channels.entries == map[]
      ensures (k' in ht.entries && initial[k'].channels.entries == chans[k']) || AllIn(chans[k'], deferred)
    {
      if initial[k'].channels == d.channels {
        assert initial[k'].channels.entries == map[];
        assert old@Step(initial[k'].channels.entries) == before;
      } else {
        assert initial[k'].channels.entries == old@Step(initial[k'].channels.entries);
        assert k' != k;
      }
      if AllIn(chans[k'], done) {
        StillIn(chans[k'], done, gone);
      }
    }
  }

  /** Every entry of `m` is listed in `s`. */
  ghost predicate AllIn(m: map<string, UstChannel>, s: seq<UstChannel>) {
    forall c :: c in m.Values ==> c in s
  }

  /** Listing more keeps what was listed. */
  lemma StillIn(m: map<string, UstChannel>, s: seq<UstChannel>, t: seq<UstChannel>)
    requires AllIn(m, s)
    ensures AllIn(m, s + t)
  {
  }

  /** A table whose every entry was handed over in `t` is listed after `s + t`. */
  lemma HandedOver(m: map<string, UstChannel>, s: seq<UstChannel>, t: seq<UstChannel>)
    requires forall k :: k in m ==> m[k] in t
    ensures AllIn(m, s + t)
  {
    forall c | c in m.Values ensures c in s + t {
      var k :| k in m && m[k] == c;
    }
  }

  /**
   * `trace_ust_destroy_session(session)`: nothing for null; otherwise the
   * global domain's channels, then the per-process domains, then the
   * per-executable domains are destroyed, and every one of those tables is
   * left empty.
   */
  method DestroySession(session: UstSession?) returns (deferred: seq<UstChannel>)
    modifies if session == null then {} else {session.domainGlobal.channels}
    modifies if session == null then {} else {session.domainPid}
    modifies if session == null then {} else {session.domainExec}
    modifies if session == null then {} else set d | d in session.domainPid.entries.Values :: d.channels
    modifies if session == null then {} else set d | d in session.domainExec.entries.Values :: d.channels
    ensures session == null ==> deferred == []
    ensures session != null ==>
      && session.domainGlobal.channels.entries == map[]
      && session.domainPid.entries == map[]
      && session.domainExec.entries == map[]
      && (forall k :: k in old(session.domainPid.entries) ==> old(session.domainPid.entries[k]).channels.entries == map[])
      && (forall k :: k in old(session.domainExec.entries) ==> old(session.domainExec.entries[k]).channels.entries == map[])
    ensures session != null ==>
      && AllIn(old(session.domainGlobal.channels.entries), deferred)
      && (forall k :: k in old(session.domainPid.entries) ==>
            AllIn(old(session.domainPid.entries[k].channels.entries), deferred))
      && (forall k :: k in old(session.domainExec.entries) ==>
            AllIn(old(session.domainExec.entries[k].channels.entries), deferred))
  {
    if session == null {
      return [];
    }
    var g, pids, execs := session.domainGlobal.channels, session.domainPid, session.domainExec;
    ghost var g0 := g.entries;
    label Start:
    var global := DestroyChannels(g);
    HandedOver(g0, [], global);
    assert [] + global == global;
    label AfterGlobal:
    var fromPid := DestroyDomainTable(pids);
    label AfterPid:
    var fromExec := DestroyDomainTable(execs);
    deferred := global + fromPid + fromExec;
    AllInEither(g0, global, fromPid, fromExec);
    forall k | k in old(pids.entries)
      ensures AllIn(old(pids.entries[k].channels.entries), deferred)
    {
      var t := old(pids.entries[k].channels);
      if t == g {
        AllInEither(g0, global, fromPid, fromExec);
      } else {
        assert old@AfterGlobal(t.entries) == old(t.entries);
        AllInFrom(old(t.entries), fromPid);
        AllInEither(old(t.entries), global, fromPid, fromExec);
      }
    }
    forall k | k in old(execs.entries)
      ensures AllIn(old(execs.entries[k].channels.entries), deferred)
    {
      var t := old(execs.entries[k].channels);
      if t == g {
        AllInEither(g0, global, fromPid, fromExec);
      } else if exists kp :: kp in old(pids.entries) && old(pids.entries[kp].channels) == t {
        var kp :| kp in old(pids.entries) && old(pids.entries[kp].channels) == t;
        assert old@AfterGlobal(t.entries) == old(t.entries);
        AllInFrom(old(t.entries), fromPid);
        AllInEither(old(t.entries), global, fromPid, fromExec);
      } else {
        assert old@AfterPid(t.entries) == old(t.entries);
        AllInFrom(old(t.entries), fromExec);
        AllInEither(old(t.entries), global, fromPid, fromExec);
      }
    }
  }

  /** A channel listed in any one of three hand-over lists is listed in their concatenation. */
  lemma AllInEither(m: map<string, UstChannel>, a: seq<UstChannel>, b: seq<UstChannel>, c: seq<UstChannel>)
    requires AllIn(m, a) || AllIn(m, b) || AllIn(m, c)
    ensures AllIn(m, a + b + c)
  {
  }

  /** The quantified form of AllIn. */
  lemma AllInFrom(m: map<string, UstChannel>, s: seq<UstChannel>)
    requires forall c :: c in m.Values ==> c in s
    ensures AllIn(m, s)
  {
  }
}
