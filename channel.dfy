/**
 * Channel operations of the session daemon (the list-based snapshot of the
 * user-space structures): the per-domain default attribute factory, the
 * deep copy of a user-space channel, and the enable / disable / create
 * procedures that turn tracer backend results into control-protocol codes.
 *
 * Every backend call (kernel ioctl layer, user-space control socket, the
 * kernel thread's notification pipe) is an oracle: its return value is a
 * parameter, and each procedure reports whether it made the call.
 */
module SessiondChannel {
  import opened Wrappers
  import opened Lttng
  import opened LttngShare
  import opened SessiondComm

  /** The errno value the kernel disable path compares against. */
  const EEXIST: int := 17

  /**
   * `channel_new_default_attr(dom)`.  `allocOk` is whether the allocation
   * of the attribute structure succeeded.  Only the kernel and the
   * per-process user-space domain have defaults; any other domain yields
   * NULL.
   */
  function NewDefaultAttr(dom: DomainType, allocOk: bool): (r: Option<LttngChannel>)
    ensures r.Some? <==> allocOk && (dom == DomainKernel || dom == DomainUstPid)
    ensures r.Some? ==>
      r.value.name == DEFAULT_CHANNEL_NAME &&
      r.value.attr.overwrite == DEFAULT_CHANNEL_OVERWRITE &&
      r.value.attr.switchTimerInterval == DEFAULT_CHANNEL_SWITCH_TIMER &&
      r.value.attr.readTimerInterval == DEFAULT_CHANNEL_READ_TIMER
    ensures r.Some? && dom == DomainKernel ==>
      r.value.attr.subbufSize == DEFAULT_KERNEL_CHANNEL_SUBBUF_SIZE &&
      r.value.attr.numSubbuf == DEFAULT_KERNEL_CHANNEL_SUBBUF_NUM &&
      r.value.attr.output == DEFAULT_KERNEL_CHANNEL_OUTPUT
    ensures r.Some? && dom == DomainUstPid ==>
      r.value.attr.subbufSize == DEFAULT_UST_CHANNEL_SUBBUF_SIZE &&
      r.value.attr.numSubbuf == DEFAULT_UST_CHANNEL_SUBBUF_NUM &&
      r.value.attr.output == DEFAULT_UST_CHANNEL_OUTPUT
  {
    if !allocOk then None
    else
      match dom
      case DomainKernel =>
        Some(LttngChannel(DEFAULT_CHANNEL_NAME,
          ChannelAttr(DEFAULT_CHANNEL_OVERWRITE, DEFAULT_KERNEL_CHANNEL_SUBBUF_SIZE,
            DEFAULT_KERNEL_CHANNEL_SUBBUF_NUM, DEFAULT_CHANNEL_SWITCH_TIMER,
            DEFAULT_CHANNEL_READ_TIMER, DEFAULT_KERNEL_CHANNEL_OUTPUT)))
      case DomainUstPid =>
        Some(LttngChannel(DEFAULT_CHANNEL_NAME,
          ChannelAttr(DEFAULT_CHANNEL_OVERWRITE, DEFAULT_UST_CHANNEL_SUBBUF_SIZE,
            DEFAULT_UST_CHANNEL_SUBBUF_NUM, DEFAULT_CHANNEL_SWITCH_TIMER,
            DEFAULT_CHANNEL_READ_TIMER, DEFAULT_UST_CHANNEL_OUTPUT)))
      case _ => None
  }

  /** Default attributes always describe ring buffers of power-of-two geometry. */
  lemma DefaultAttrIsPowerOfTwoGeometry(dom: DomainType, allocOk: bool)
    requires NewDefaultAttr(dom, allocOk).Some?
    ensures IsPowerOfTwo(NewDefaultAttr(dom, allocOk).value.attr.subbufSize)
    ensures IsPowerOfTwo(NewDefaultAttr(dom, allocOk).value.attr.numSubbuf)
  {
    if dom == DomainKernel {
      KernelSubbufSizeIsPowerOfTwo();
      KernelSubbufNumIsPowerOfTwo();
    } else {
      UstDefaultsArePowersOfTwo();
    }
  }

  /**
   * The concrete default channels: "channel0", no overwrite, timers 0 and
   * 200, with 4 spliced sub-buffers of 262144 bytes for the kernel and 8
   * mapped sub-buffers of 4096 bytes for a user-space process.
   */
  lemma DefaultAttrValues()
    ensures NewDefaultAttr(DomainKernel, true) ==
      Some(LttngChannel("channel0", ChannelAttr(0, 262144, 4, 0, 200, EventSplice)))
    ensures NewDefaultAttr(DomainUstPid, true) ==
      Some(LttngChannel("channel0", ChannelAttr(0, 4096, 8, 0, 200, EventMmap)))
    ensures NewDefaultAttr(DomainUst, true) == None && NewDefaultAttr(DomainKernel, false) == None
  {
  }

  /** One event of a user-space channel. */
  class UstEvent {
    var name: string
    var enabled: bool
    var attr: LttngEvent

    constructor (name: string, enabled: bool, attr: LttngEvent)
      ensures this.name == name && this.enabled == enabled && this.attr == attr
    {
      this.name := name;
      this.enabled := enabled;
      this.attr := attr;
    }
  }

  /**
   * A user-space channel: its own fields and its event list (head first)
   * with the list's element count.
   */
  class UstChannel {
    var name: string
    var enabled: bool
    var attr: ChannelAttr
    var events: seq<UstEvent>
    var eventCount: int

    constructor (name: string, enabled: bool, attr: ChannelAttr)
      ensures this.name == name && this.enabled == enabled && this.attr == attr
      ensures events == [] && eventCount == 0
    {
      this.name := name;
      this.enabled := enabled;
      this.attr := attr;
      events := [];
      eventCount := 0;
    }
  }

  /** `e` holds the same field values as `orig`. */
  ghost predicate SameEvent(e: UstEvent, orig: UstEvent)
    reads e, orig
  {
    e.name == orig.name && e.enabled == orig.enabled && e.attr == orig.attr
  }

  /** The elements of `s` are pairwise different objects. */
  ghost predicate DistinctObjects(s: seq<UstEvent>) {
    forall i, j :: 0 <= i < j < |s| ==> s[i] != s[j]
  }

  /**
   * `channel_ust_copy(dst, src)`, as written: the whole structure is copied
   * (so the event count starts at the source's count), the list head is
   * reset, and each source event is copied into a new event inserted at
   * the head of dst's list while the count is bumped.  `allocLimit` is the
   * number of event allocations that succeed; the first failure stops the
   * copy with -1.
   */
  method ChannelUstCopy(dst: UstChannel, src: UstChannel, allocLimit: nat) returns (ret: int)
    requires dst != src
    modifies dst
    ensures var k := if allocLimit < |src.events| then allocLimit else |src.events|;
      && dst.name == src.name && dst.enabled == src.enabled && dst.attr == src.attr
      && |dst.events| == k
      && (forall i :: 0 <= i < k ==> fresh(dst.events[i]) && SameEvent(dst.events[i], src.events[k - 1 - i]))
      && DistinctObjects(dst.events)
      && dst.eventCount == src.eventCount + k
      && (ret == 0 <==> k == |src.events|)
      && (ret == 0 || ret == -1)
    ensures ret == 0 && src.eventCount == |src.events| ==> dst.eventCount == 2 * |src.events|
  {
    dst.name, dst.enabled, dst.attr := src.name, src.enabled, src.attr;
    dst.events, dst.eventCount := src.events, src.eventCount;
    dst.events := [];
    var i := 0;
    while i < |src.events|
      invariant 0 <= i <= |src.events| && i <= allocLimit
      invariant dst.name == src.name && dst.enabled == src.enabled && dst.attr == src.attr
      invariant |dst.events| == i && dst.eventCount == src.eventCount + i
      invariant forall j :: 0 <= j < i ==> fresh(dst.events[j]) && SameEvent(dst.events[j], src.events[i - 1 - j])
      invariant DistinctObjects(dst.events)
    {
      if i == allocLimit {
        return -1;
      }
      var uevent := src.events[i];
      var newUevent := new UstEvent(uevent.name, uevent.enabled, uevent.attr);
      dst.events := [newUevent] + dst.events;
      dst.eventCount := dst.eventCount + 1;
      i := i + 1;
    }
    ret := 0;
  }

  /**
   * The copy with the count the list actually has: dst's count restarts at
   * zero with its list, so it equals the number of events copied.
   */
  method ChannelUstCopyCounted(dst: UstChannel, src: UstChannel, allocLimit: nat) returns (ret: int)
    requires dst != src
    modifies dst
    ensures var k := if allocLimit < |src.events| then allocLimit else |src.events|;
      && dst.name == src.name && dst.enabled == src.enabled && dst.attr == src.attr
      && |dst.events| == k
      && (forall i :: 0 <= i < k ==> fresh(dst.events[i]) && SameEvent(dst.events[i], src.events[k - 1 - i]))
      && DistinctObjects(dst.events)
      && (ret == 0 <==> k == |src.events|)
      && (ret == 0 || ret == -1)
    ensures dst.eventCount == |dst.events|
  {
    dst.name, dst.enabled, dst.attr := src.name, src.enabled, src.attr;
    dst.events, dst.eventCount := [], 0;
    var i := 0;
    while i < |src.events|
      invariant 0 <= i <= |src.events| && i <= allocLimit
      invariant dst.name == src.name && dst.enabled == src.enabled && dst.attr == src.attr
      invariant |dst.events| == i && dst.eventCount == i
      invariant forall j :: 0 <= j < i ==> fresh(dst.events[j]) && SameEvent(dst.events[j], src.events[i - 1 - j])
      invariant DistinctObjects(dst.events)
    {
      if i == allocLimit {
        return -1;
      }
      var uevent := src.events[i];
      var newUevent := new UstEvent(uevent.name, uevent.enabled, uevent.attr);
      dst.events := [newUevent] + dst.events;
      dst.eventCount := dst.eventCount + 1;
      i := i + 1;
    }
    ret := 0;
  }

  /** Copying a channel whose list holds one event, counted 1, leaves a copy counted 2. */
  method CopyCountExample() returns (count: int, listed: nat)
    ensures count == 2 && listed == 1
  {
    var attr := ChannelAttr(0, 4096, 8, 0, 200, EventMmap);
    var src := new UstChannel("chan", true, attr);
    var ev := new UstEvent("ev", true, LttngEvent("ev", EventTracepoint, ProbeAttr(0, 0, ""), ""));
    src.events, src.eventCount := [ev], 1;
    var dst := new UstChannel("", false, attr);
    var ret := ChannelUstCopy(dst, src, 1);
    count, listed := dst.eventCount, |dst.events|;
  }

  /** What `trace_kernel_get_channel_by_name` found: the channel's name and enabled flag. */
  datatype KernelChannel = KernelChannel(name: string, enabled: int)

  /**
   * A procedure's result: a control-protocol code, or a backend value
   * passed through unchanged.
   */
  datatype ChannelRet = Code(code: ReturnCode) | Passthrough(value: int)

  /** A result and whether the backend was called. */
  datatype Decision = Decision(ret: ChannelRet, backendCalled: bool)

  /**
   * `channel_kernel_disable`: `found` is the lookup's result, `backendRet`
   * that of `kernel_disable_channel`.  A failure equal to EEXIST would be
   * passed through; any other failure becomes KERN_CHAN_DISABLE_FAIL.
   */
  function KernelDisable(found: Option<KernelChannel>, backendRet: int): (d: Decision)
    ensures d.backendCalled <==> found.Some? && found.value.enabled == 1
    ensures found.None? ==> d.ret == Code(KernChanNotFound)
    ensures d.ret == Code(Ok) <==> found.Some? && (found.value.enabled != 1 || backendRet >= 0)
    ensures d.backendCalled && backendRet < 0 && backendRet != EEXIST ==> d.ret == Code(KernChanDisableFail)
  {
    match found
    case None => Decision(Code(KernChanNotFound), false)
    case Some(kchan) =>
      if kchan.enabled == 1 then
        if backendRet < 0 then
          if backendRet != EEXIST then Decision(Code(KernChanDisableFail), true)
          else Decision(Passthrough(backendRet), true)
        else Decision(Code(Ok), true)
      else Decision(Code(Ok), false)
  }

  /**
   * EEXIST is positive, so a failed disable never takes the pass-through
   * branch: the result is always a control-protocol code.
   */
  lemma KernelDisableAlwaysACode(found: Option<KernelChannel>, backendRet: int)
    ensures KernelDisable(found, backendRet).ret.Code?
    ensures found.Some? && found.value.enabled == 1 && backendRet < 0 ==>
      KernelDisable(found, backendRet).ret == Code(KernChanDisableFail)
  {
  }

  /** `channel_kernel_enable`: `backendRet` is the result of `kernel_enable_channel`. */
  function KernelEnable(kchan: KernelChannel, backendRet: int): (d: Decision)
    ensures d.backendCalled <==> kchan.enabled == 0
    ensures d.ret == Code(Ok) <==> kchan.enabled != 0 || backendRet >= 0
    ensures d.ret != Code(Ok) ==> d.ret == Code(KernChanEnableFail)
  {
    if kchan.enabled == 0 then
      if backendRet < 0 then Decision(Code(KernChanEnableFail), true)
      else Decision(Code(Ok), true)
    else Decision(Code(Ok), false)
  }

  /**
   * What a create did: its code, the attributes handed to the backend (None
   * when it was never called), and whether the kernel thread was notified.
   */
  datatype CreateOutcome = CreateOutcome(ret: ReturnCode, submitted: Option<LttngChannel>, notified: bool)

  /**
   * `channel_kernel_create`: NULL attributes (None) mean the kernel
   * defaults, whose allocation may fail (`defaultAllocOk`); `createRet` is
   * the result of `kernel_create_channel` and `notifyRet` that of
   * `notify_thread_pipe`.
   */
  function KernelCreate(chan: Option<LttngChannel>, defaultAllocOk: bool, createRet: int, notifyRet: int)
    : (r: CreateOutcome)
    ensures chan.Some? ==> r.submitted == chan
    ensures chan.None? ==>
      r.submitted == (if defaultAllocOk then NewDefaultAttr(DomainKernel, true) else None)
    ensures r.notified <==> r.submitted.Some? && createRet >= 0
    ensures r.ret == Ok <==> r.notified && notifyRet >= 0
    ensures r.submitted.None? ==> r.ret == Fatal
    ensures r.submitted.Some? && createRet < 0 ==> r.ret == KernChanFail
    ensures r.notified && notifyRet < 0 ==> r.ret == Fatal
  {
    var attr := if chan.Some? then chan else NewDefaultAttr(DomainKernel, defaultAllocOk);
    if attr.None? then CreateOutcome(Fatal, None, false)
    else if createRet < 0 then CreateOutcome(KernChanFail, attr, false)
    else if notifyRet < 0 then CreateOutcome(Fatal, attr, true)
    else CreateOutcome(Ok, attr, true)
  }

  /**
   * A kernel channel created without attributes gets the kernel defaults:
   * 262144-byte sub-buffers, four of them, spliced output.
   */
  lemma KernelCreateDefaults(defaultAllocOk: bool, createRet: int, notifyRet: int)
    requires defaultAllocOk
    ensures var r := KernelCreate(None, defaultAllocOk, createRet, notifyRet);
      r.submitted.Some? &&
      r.submitted.value.attr.subbufSize == 262144 &&
      r.submitted.value.attr.numSubbuf == 4 &&
      r.submitted.value.attr.output == EventSplice
  {
  }

  /**
   * `channel_ust_create`: NULL attributes mean the per-process user-space
   * defaults; `createRet` is the result of `ustctl_create_channel`.
   */
  function UstCreate(chan: Option<LttngChannel>, defaultAllocOk: bool, createRet: int): (r: CreateOutcome)
    ensures chan.Some? ==> r.submitted == chan
    ensures chan.None? ==>
      r.submitted == (if defaultAllocOk then NewDefaultAttr(DomainUstPid, true) else None)
    ensures !r.notified
    ensures r.ret == Ok <==> r.submitted.Some? && createRet >= 0
    ensures r.submitted.None? ==> r.ret == Fatal
    ensures r.submitted.Some? && createRet < 0 ==> r.ret == UstChanFail
  {
    var attr := if chan.Some? then chan else NewDefaultAttr(DomainUstPid, defaultAllocOk);
    if attr.None? then CreateOutcome(Fatal, None, false)
    else if createRet < 0 then CreateOutcome(UstChanFail, attr, false)
    else CreateOutcome(Ok, attr, false)
  }

  /**
   * `channel_ust_enable` and `channel_ust_disable`: the backend is always
   * called, and any failure becomes UST_CHAN_FAIL.
   */
  function UstToggle(backendRet: int): (c: ReturnCode)
    ensures c == Ok <==> backendRet >= 0
    ensures c == Ok || c == UstChanFail
  {
    if backendRet < 0 then UstChanFail else Ok
  }

  /** Every user-space channel procedure reports a backend failure as UST_CHAN_FAIL. */
  lemma UstBackendFailureIsChanFail(chan: Option<LttngChannel>, backendRet: int)
    requires backendRet < 0
    ensures UstCreate(chan, true, backendRet).ret == UstChanFail
    ensures UstToggle(backendRet) == UstChanFail
  {
    if chan.None? {
      assert NewDefaultAttr(DomainUstPid, true).Some?;
    }
  }
}
