/**
 * The public tracing API types shared by the session daemon and the command
 * line client (the `lttng_*` structures of lttng/lttng.h, which is not part
 * of this model; only the fields the modelled code touches are kept).
 */
module Lttng {

  /** Size of `lttng_event.name` and of the probe symbol buffers. */
  const LTTNG_SYMBOL_NAME_LEN: nat := 256

  /** `enum lttng_domain_type`. */
  datatype DomainType =
    | DomainKernel
    | DomainUst
    | DomainUstExecName
    | DomainUstPid
    | DomainUstPidFollowChildren

  /** `enum lttng_event_output`. */
  datatype EventOutput = EventSplice | EventMmap

  /**
   * `enum lttng_event_type`.  `EventOther` stands for any other value an
   * `int` holding an event type may take.
   */
  datatype EventType =
    | EventAll
    | EventTracepoint
    | EventProbe
    | EventFunction
    | EventFunctionEntry
    | EventSyscall
    | EventTracepointLoglevel
    | EventOther(code: int)

  /** `struct lttng_channel_attr`. */
  datatype ChannelAttr = ChannelAttr(
    overwrite: int,
    subbufSize: nat,
    numSubbuf: nat,
    switchTimerInterval: nat,
    readTimerInterval: nat,
    output: EventOutput)

  /** `struct lttng_channel`: a name and its attributes. */
  datatype LttngChannel = LttngChannel(name: string, attr: ChannelAttr)

  /**
   * `struct lttng_event_probe_attr`.  `symbolName` is the contents of the
   * zero-padded `symbol_name` buffer; "" is the all-zero buffer.
   */
  datatype ProbeAttr = ProbeAttr(addr: nat, offset: nat, symbolName: string)

  /** `struct lttng_event`: name, type and the probe / ftrace attributes. */
  datatype LttngEvent = LttngEvent(
    name: string,
    eventType: EventType,
    probe: ProbeAttr,
    ftraceSymbol: string)
}
