/**
 * The `lttng enable-event` command's core: the splitting of the event
 * list on commas, the per-domain resolution of the requested event kind,
 * and the loop that submits one event per name.
 *
 * The session daemon's replies to each submission are an oracle `reply`,
 * indexed by the submission's position; creating the API handle may fail
 * (`handleOk`).
 */
module EnableEvents {
  import opened Wrappers
  import opened CStrings
  import opened Lttng
  import opened LttngShare
  import opened ProbeOpts

  /** The command's result codes (`enum cmd_error_code`). */
  const CMD_SUCCESS: int := 0
  const CMD_ERROR: int := 1
  const CMD_UNDEFINED: int := 2
  const CMD_NOT_IMPLEMENTED: int := 3
  const CMD_FATAL: int := 4


  /** The characters up to the first comma. */
  function UntilComma(s: string): (w: string)
    ensures |w| <= |s| && w == s[..|w|]
    ensures forall i :: 0 <= i < |w| ==> w[i] != ','
    ensures |w| < |s| ==> s[|w|] == ','
  {
    if s == [] || s[0] == ',' then "" else [s[0]] + UntilComma(s[1..])
  }

  /** The tokens `strtok` returns for `s` and the delimiter ",": empty tokens are skipped. */
  function Tokens(s: string): (ts: seq<string>)
    ensures forall i :: 0 <= i < |ts| ==> ts[i] != [] && forall j :: 0 <= j < |ts[i]| ==> ts[i][j] != ','
    decreases |s|
  {
    if s == [] then []
    else if s[0] == ',' then Tokens(s[1..])
    else
      var w := UntilComma(s);
      [w] + Tokens(s[|w|..])
  }

  /** Names joined by commas. */
  function JoinCommas(names: seq<string>): string {
    if names == [] then "" else if |names| == 1 then names[0] else names[0] + "," + JoinCommas(names[1..])
  }

  /** A comma-free word followed by a comma or nothing is cut there. */
  lemma {:induction false} UntilCommaOfWord(w: string, rest: string)
    requires forall i :: 0 <= i < |w| ==> w[i] != ','
    requires rest == [] || rest[0] == ','
    ensures UntilComma(w + rest) == w
    decreases |w|
  {
    if w == [] {
      assert w + rest == rest;
    } else {
      assert (w + rest)[1..] == w[1..] + rest;
      UntilCommaOfWord(w[1..], rest);
    }
  }

  /** Splitting a comma-joined list of non-empty, comma-free names gives the names back. */
  lemma {:induction false} TokensOfJoin(names: seq<string>)
    requires forall i :: 0 <= i < |names| ==> names[i] != [] && forall j :: 0 <= j < |names[i]| ==> names[i][j] != ','
    ensures Tokens(JoinCommas(names)) == names
    decreases |names|
  {
    if names == [] {
    } else if |names| == 1 {
      var w := names[0];
      UntilCommaOfWord(w, "");
      assert w + "" == w;
      assert w[|w|..] == "";
    } else {
      var w := names[0];
      var tail := JoinCommas(names[1..]);
      var s := w + "," + tail;
      UntilCommaOfWord(w, "," + tail);
      assert s == w + ("," + tail);
      assert s[|w|..] == "," + tail;
      assert ("," + tail)[1..] == tail;
      TokensOfJoin(names[1..]);
    }
  }


  /** The command line options `enable_events` reads. */
  datatype Options = Options(
    kernel: bool,
    userspace: bool,
    enableAll: bool,
    eventType: EventType,
    eventList: string,
    channelName: Option<string>,
    probe: Option<string>,
    functionName: Option<string>,
    functionEntrySymbol: Option<string>)

  /** The channel the events go to: the one named, or the default channel. */
  function ChannelOf(opts: Options): string {
    if opts.channelName.Some? then opts.channelName.value else DEFAULT_CHANNEL_NAME
  }

  /**
   * What the kernel tracer's per-name code reads is defined: the probe
   * or function option it parses fits the parser's buffers, and a
   * function-entry event has a symbol.
   */
  predicate OptionsWellDefined(opts: Options, staleAlpha: bool) {
    && (opts.kernel && opts.eventType == EventProbe && opts.probe.Some? ==>
          ProbeBuffersFit(opts.probe.value, staleAlpha))
    && (opts.kernel && opts.eventType == EventFunction && opts.functionName.Some? ==>
          ProbeBuffersFit(opts.functionName.value, staleAlpha))
    && (opts.kernel && opts.eventType == EventFunctionEntry ==> opts.functionEntrySymbol.Some?)
  }

  /** One name's outcome: the event to submit, or the command's result when it stops. */
  datatype Step = Submit(ev: LttngEvent) | Abort(ret: int)

  /** What a tracer's table makes of the requested type: the fields to set, or the command's result. */
  datatype Resolution =
    | SetType(eventType: EventType)
    | SetProbe(eventType: EventType, probe: ProbeAttr)
    | SetFtrace(eventType: EventType, symbol: string)
    | Stop(ret: int)

  /**
   * The switch on the requested type for the chosen tracer, given the
   * probe attributes the event holds when it runs.
   */
  function Resolve(opts: Options, probe: ProbeAttr, staleAlpha: bool): Resolution
    requires OptionsWellDefined(opts, staleAlpha)
  {
    if opts.kernel then
      match opts.eventType
      case EventAll => SetType(EventTracepoint)
      case EventTracepoint => SetType(EventTracepoint)
      case EventProbe =>
        var parsed := ParseProbeOpts(probe, opts.probe, staleAlpha);
        if parsed.0 < 0 then Stop(0) else SetProbe(EventProbe, parsed.1)
      case EventFunction =>
        var parsed := ParseProbeOpts(probe, opts.functionName, staleAlpha);
        if parsed.0 < 0 then Stop(0) else SetProbe(EventFunction, parsed.1)
      case EventFunctionEntry =>
        SetFtrace(EventFunctionEntry, Truncate(opts.functionEntrySymbol.value, LTTNG_SYMBOL_NAME_LEN))
      case _ => Stop(CMD_UNDEFINED)
    else
      match opts.eventType
      case EventAll => SetType(EventTracepoint)
      case EventTracepoint => SetType(EventTracepoint)
      case EventTracepointLoglevel => SetType(EventTracepointLoglevel)
      case _ => Stop(CMD_UNDEFINED)
  }

  /**
   * The body of the name loop for one `token`, from the event left by the
   * previous name: copy the name, then apply the tracer's table.
   */
  function Prepare(opts: Options, ev: LttngEvent, token: string, staleAlpha: bool): Step
    requires OptionsWellDefined(opts, staleAlpha)
  {
    var named := ev.(name := Truncate(token, LTTNG_SYMBOL_NAME_LEN));
    match Resolve(opts, ev.probe, staleAlpha)
    case SetType(t) => Submit(named.(eventType := t))
    case SetProbe(t, p) => Submit(named.(eventType := t, probe := p))
    case SetFtrace(t, sym) => Submit(named.(eventType := t, ftraceSymbol := sym))
    case Stop(r) => Abort(r)
  }

  /** The table's answer does not depend on the probe attributes the event held. */
  lemma ResolveIgnoresProbe(opts: Options, p: ProbeAttr, p': ProbeAttr, staleAlpha: bool)
    requires OptionsWellDefined(opts, staleAlpha)
    ensures Resolve(opts, p, staleAlpha) == Resolve(opts, p', staleAlpha)
  {
    if opts.kernel && opts.eventType == EventProbe {
      ParseOverwritesProbe(p, p', opts.probe, staleAlpha);
    } else if opts.kernel && opts.eventType == EventFunction {
      ParseOverwritesProbe(p, p', opts.functionName, staleAlpha);
    }
  }

  /**
   * The kernel tracer's table: ALL becomes TRACEPOINT; TRACEPOINT, PROBE,
   * FUNCTION and FUNCTION_ENTRY are kept (a probe or function location
   * that does not parse ends the command with 0); anything else, SYSCALL
   * included, is CMD_UNDEFINED.
   */
  lemma KernelTypeResolution(opts: Options, ev: LttngEvent, token: string, staleAlpha: bool)
    requires opts.kernel && OptionsWellDefined(opts, staleAlpha)
    ensures var st := Prepare(opts, ev, token, staleAlpha);
      && (opts.eventType == EventAll ==> st.Submit? && st.ev.eventType == EventTracepoint)
      && (opts.eventType == EventTracepoint || opts.eventType == EventFunctionEntry ==>
            st.Submit? && st.ev.eventType == opts.eventType)
      && (opts.eventType == EventFunctionEntry ==>
            st.ev.ftraceSymbol == Truncate(opts.functionEntrySymbol.value, LTTNG_SYMBOL_NAME_LEN))
      && (opts.eventType == EventProbe ==>
            (st.Submit? <==> ParseProbeOpts(ev.probe, opts.probe, staleAlpha).0 >= 1) &&
            (st.Submit? ==>
              (st.ev.eventType == EventProbe && st.ev.probe == ParseProbeOpts(ev.probe, opts.probe, staleAlpha).1)) &&
            (st.Abort? ==> st.ret == 0))
      && (opts.eventType == EventFunction ==>
            (st.Submit? <==> ParseProbeOpts(ev.probe, opts.functionName, staleAlpha).0 >= 1) &&
            (st.Submit? ==>
              (st.ev.eventType == EventFunction && st.ev.probe == ParseProbeOpts(ev.probe, opts.functionName, staleAlpha).1)) &&
            (st.Abort? ==> st.ret == 0))
      && (opts.eventType == EventSyscall || opts.eventType == EventTracepointLoglevel || opts.eventType.EventOther? ==>
            st == Abort(CMD_UNDEFINED))
  {
  }

  /**
   * The user-space tracer's table: ALL and TRACEPOINT become TRACEPOINT,
   * LOGLEVEL is kept, anything else is CMD_UNDEFINED; the probe and
   * function-entry fields are left alone.
   */
  lemma UstTypeResolution(opts: Options, ev: LttngEvent, token: string, staleAlpha: bool)
    requires !opts.kernel && OptionsWellDefined(opts, staleAlpha)
    ensures var st := Prepare(opts, ev, token, staleAlpha);
      && (opts.eventType == EventAll || opts.eventType == EventTracepoint ==>
            st.Submit? && st.ev.eventType == EventTracepoint)
      && (opts.eventType == EventTracepointLoglevel ==> st.Submit? && st.ev.eventType == EventTracepointLoglevel)
      && (!(opts.eventType == EventAll || opts.eventType == EventTracepoint || opts.eventType == EventTracepointLoglevel) ==>
            st == Abort(CMD_UNDEFINED))
      && (st.Submit? ==> st.ev.probe == ev.probe && st.ev.ftraceSymbol == ev.ftraceSymbol)
  {
  }

  /** A submitted event carries the name truncated to LTTNG_SYMBOL_NAME_LEN - 1 characters. */
  lemma PrepareTruncatesName(opts: Options, ev: LttngEvent, token: string, staleAlpha: bool)
    requires OptionsWellDefined(opts, staleAlpha)
    ensures Prepare(opts, ev, token, staleAlpha).Submit? ==>
      Prepare(opts, ev, token, staleAlpha).ev.name == Truncate(token, LTTNG_SYMBOL_NAME_LEN) &&
      |Prepare(opts, ev, token, staleAlpha).ev.name| < LTTNG_SYMBOL_NAME_LEN
  {
  }

  /**
   * Whether a name stops the command, and with what result, depends
   * neither on the name, nor on the event, nor on what each call's
   * uninitialised `name[0]` held.
   */
  lemma AbortIgnoresName(opts: Options, ev: LttngEvent, ev': LttngEvent, a: string, b: string,
                         staleA: bool, staleB: bool)
    requires OptionsWellDefined(opts, staleA) && OptionsWellDefined(opts, staleB)
    ensures Prepare(opts, ev, a, staleA).Abort? == Prepare(opts, ev', b, staleB).Abort?
    ensures Prepare(opts, ev, a, staleA).Abort? ==> Prepare(opts, ev, a, staleA) == Prepare(opts, ev', b, staleB)
  {
    StopIgnoresStale(opts, ev.probe, ev'.probe, staleA, staleB);
  }

  /** The table stops, and with what result, whatever the probe fields and the stale `name[0]`. */
  lemma StopIgnoresStale(opts: Options, p: ProbeAttr, p': ProbeAttr, staleA: bool, staleB: bool)
    requires OptionsWellDefined(opts, staleA) && OptionsWellDefined(opts, staleB)
    ensures Resolve(opts, p, staleA).Stop? == Resolve(opts, p', staleB).Stop?
    ensures Resolve(opts, p, staleA).Stop? ==> Resolve(opts, p, staleA) == Resolve(opts, p', staleB)
  {
    if opts.kernel && opts.eventType == EventProbe {
      ParseOutcomeIgnoresStale(p, p', opts.probe, staleA, staleB);
    } else if opts.kernel && opts.eventType == EventFunction {
      ParseOutcomeIgnoresStale(p, p', opts.functionName, staleA, staleB);
    }
  }

  /**
   * Preparing a second name from the event a first one left is preparing
   * it afresh: every field the loop writes is overwritten.
   */
  lemma PrepareChains(opts: Options, ev0: LttngEvent, first: string, next: string, staleFirst: bool, staleNext: bool)
    requires OptionsWellDefined(opts, staleFirst) && OptionsWellDefined(opts, staleNext)
    requires Prepare(opts, ev0, first, staleFirst).Submit?
    ensures Prepare(opts, Prepare(opts, ev0, first, staleFirst).ev, next, staleNext) == Prepare(opts, ev0, next, staleNext)
  {
    var ev1 := Prepare(opts, ev0, first, staleFirst).ev;
    ResolveIgnoresProbe(opts, ev1.probe, ev0.probe, staleNext);
  }

  /**
   * The per-name calls are defined from position `from` on: the j-th name
   * is parsed with `staleAlpha(j)` standing for its own `name[0]`.
   */
  predicate NamesWellDefined(opts: Options, n: nat, staleAlpha: nat -> bool, from: nat) {
    forall j :: from <= j < n ==> OptionsWellDefined(opts, staleAlpha(j))
  }

  /** The position of the first name from `from` on that stops the command, or the number of names. */
  function FirstAbort(opts: Options, ev0: LttngEvent, toks: seq<string>, staleAlpha: nat -> bool, from: nat): (k: nat)
    requires from <= |toks| && NamesWellDefined(opts, |toks|, staleAlpha, from)
    ensures from <= k <= |toks|
    ensures forall j :: from <= j < k ==> Prepare(opts, ev0, toks[j], staleAlpha(j)).Submit?
    ensures k < |toks| ==> Prepare(opts, ev0, toks[k], staleAlpha(k)).Abort?
    decreases |toks| - from
  {
    if from == |toks| then from
    else if Prepare(opts, ev0, toks[from], staleAlpha(from)).Abort? then from
    else FirstAbort(opts, ev0, toks, staleAlpha, from + 1)
  }

  /** Either the first name stops the command or none does. */
  lemma FirstAbortAllOrNothing(opts: Options, ev0: LttngEvent, toks: seq<string>, staleAlpha: nat -> bool)
    requires NamesWellDefined(opts, |toks|, staleAlpha, 0)
    ensures FirstAbort(opts, ev0, toks, staleAlpha, 0) == 0 || FirstAbort(opts, ev0, toks, staleAlpha, 0) == |toks|
  {
    var k := FirstAbort(opts, ev0, toks, staleAlpha, 0);
    if 0 < k < |toks| {
      AbortIgnoresName(opts, ev0, ev0, toks[0], toks[k], staleAlpha(0), staleAlpha(k));
    }
  }

  /** The event the enable-all path submits: every kernel event of the type, or every user-space tracepoint. */
  function AllEvent(opts: Options, ev0: LttngEvent): LttngEvent {
    if opts.kernel then ev0.(eventType := opts.eventType, name := "")
    else ev0.(eventType := EventTracepoint, name := "*")
  }

  /** One call of `lttng_enable_event`: the event and the channel name. */
  datatype Submission = Submission(event: LttngEvent, channel: string)

  /**
   * `enable_events(session_name)`.  `channelAllocOk` is whether the copy of
   * the default channel name succeeded, `handleOk` whether the handle was
   * created, `reply(i)` the daemon's answer to the i-th submission, `ev0`
   * the event structure's initial contents, and `staleAlpha(j)` whether
   * the fresh `name` buffer of the j-th name's `parse_probe_opts` call
   * starts with a letter.  The names are submitted in order up to the
   * first one that stops the command; a failed submission does not stop
   * the loop, and the result is the last reply.
   */
  method EnableEvents(opts: Options, ev0: LttngEvent, channelAllocOk: bool, handleOk: bool,
                      reply: nat -> int, staleAlpha: nat -> bool)
    returns (ret: int, submitted: seq<Submission>)
    requires !opts.userspace && (opts.channelName.Some? || channelAllocOk) && handleOk && !opts.enableAll ==>
      NamesWellDefined(opts, |Tokens(opts.eventList)|, staleAlpha, 0)
    ensures opts.channelName.None? && !channelAllocOk ==> ret == CMD_FATAL && submitted == []
    ensures opts.kernel && opts.userspace ==> ret == CMD_FATAL && submitted == []
    ensures !opts.kernel && !opts.userspace && (opts.channelName.Some? || channelAllocOk) ==>
      ret == CMD_ERROR && submitted == []
    ensures opts.kernel != opts.userspace && (opts.channelName.Some? || channelAllocOk) && !handleOk ==>
      ret == -1 && submitted == []
    ensures opts.kernel != opts.userspace && (opts.channelName.Some? || channelAllocOk) && handleOk && opts.enableAll ==>
      submitted == [Submission(AllEvent(opts, ev0), ChannelOf(opts))] && ret == reply(0)
    ensures opts.kernel != opts.userspace && (opts.channelName.Some? || channelAllocOk) && handleOk && !opts.enableAll ==>
      var toks := Tokens(opts.eventList);
      var k := FirstAbort(opts, ev0, toks, staleAlpha, 0);
      && |submitted| == k
      && (forall j :: 0 <= j < k ==>
            submitted[j] == Submission(Prepare(opts, ev0, toks[j], staleAlpha(j)).ev, ChannelOf(opts)))
      && ret == (if k < |toks| then Prepare(opts, ev0, toks[k], staleAlpha(k)).ret
                 else if k == 0 then CMD_SUCCESS
                 else reply(k - 1))
  {
    if opts.channelName.None? && !channelAllocOk {
      return CMD_FATAL, [];
    }
    var channel := ChannelOf(opts);
    if opts.kernel && opts.userspace {
      return CMD_FATAL, [];
    }
    if !opts.kernel && !opts.userspace {
      return CMD_ERROR, [];
    }
    if !handleOk {
      return -1, [];
    }
    if opts.enableAll {
      submitted := [Submission(AllEvent(opts, ev0), channel)];
      ret := reply(0);
      return;
    }
    ret, submitted := SubmitNames(opts, ev0, Tokens(opts.eventList), channel, reply, staleAlpha);
  }

  /** The submissions of the first `n` names, all of which come before the first that stops the command. */
  ghost function Submissions(opts: Options, ev0: LttngEvent, toks: seq<string>, channel: string,
                             staleAlpha: nat -> bool, n: nat): (w: seq<Submission>)
    requires NamesWellDefined(opts, |toks|, staleAlpha, 0)
    requires n <= FirstAbort(opts, ev0, toks, staleAlpha, 0)
    ensures |w| == n
    ensures forall j :: 0 <= j < n ==>
      w[j] == Submission(Prepare(opts, ev0, toks[j], staleAlpha(j)).ev, channel)
    decreases n
  {
    if n == 0 then []
    else Submissions(opts, ev0, toks, channel, staleAlpha, n - 1)
         + [Submission(Prepare(opts, ev0, toks[n - 1], staleAlpha(n - 1)).ev, channel)]
  }

  /**
   * The loop over the comma-separated names of `enable_events`: each name
   * is prepared from the previous one's event structure and submitted to
   * `channel`, until a name stops the command; the result is the stopping
   * name's code, the last reply, or success when there are no names.
   */
  method SubmitNames(opts: Options, ev0: LttngEvent, toks: seq<string>, channel: string,
                     reply: nat -> int, staleAlpha: nat -> bool)
    returns (ret: int, submitted: seq<Submission>)
    requires NamesWellDefined(opts, |toks|, staleAlpha, 0)
    ensures var k := FirstAbort(opts, ev0, toks, staleAlpha, 0);
      && |submitted| == k
      && (forall j :: 0 <= j < k ==>
            submitted[j] == Submission(Prepare(opts, ev0, toks[j], staleAlpha(j)).ev, channel))
      && ret == (if k < |toks| then Prepare(opts, ev0, toks[k], staleAlpha(k)).ret
                 else if k == 0 then CMD_SUCCESS
                 else reply(k - 1))
  {
    var ev := ev0;
    var i := 0;
    ret := CMD_SUCCESS;
    submitted := [];
    while i < |toks|
      invariant i <= FirstAbort(opts, ev0, toks, staleAlpha, 0)
      invariant submitted == Submissions(opts, ev0, toks, channel, staleAlpha, i)
      invariant i == 0 ==> ev == ev0 && ret == CMD_SUCCESS
      invariant i > 0 ==>
        Prepare(opts, ev0, toks[i - 1], staleAlpha(i - 1)).Submit? &&
        ev == Prepare(opts, ev0, toks[i - 1], staleAlpha(i - 1)).ev && ret == reply(i - 1)
    {
      var step := PrepareNext(opts, ev0, toks, channel, staleAlpha, i, ev, submitted);
      if step.Abort? {
        return step.ret, submitted;
      }
      ev := step.ev;
      submitted := submitted + [Submission(ev, channel)];
      ret := reply(i);
      i := i + 1;
    }
  }

  /**
   * One pass of the name loop: the i-th name prepared from the event the
   * previous name left is the i-th name prepared from the initial event;
   * it stops the command exactly when i is the first stopping position.
   */
  method PrepareNext(opts: Options, ev0: LttngEvent, toks: seq<string>, channel: string,
                     staleAlpha: nat -> bool, i: nat, ev: LttngEvent, submitted: seq<Submission>)
    returns (step: Step)
    requires NamesWellDefined(opts, |toks|, staleAlpha, 0) && i < |toks|
    requires i <= FirstAbort(opts, ev0, toks, staleAlpha, 0)
    requires i == 0 ==> ev == ev0
    requires i > 0 ==>
      Prepare(opts, ev0, toks[i - 1], staleAlpha(i - 1)).Submit? &&
      ev == Prepare(opts, ev0, toks[i - 1], staleAlpha(i - 1)).ev
    requires submitted == Submissions(opts, ev0, toks, channel, staleAlpha, i)
    ensures step == Prepare(opts, ev0, toks[i], staleAlpha(i))
    ensures step.Abort? <==> FirstAbort(opts, ev0, toks, staleAlpha, 0) == i
    ensures step.Submit? ==>
      submitted + [Submission(step.ev, channel)] == Submissions(opts, ev0, toks, channel, staleAlpha, i + 1)
  {
    if i > 0 {
      PrepareChains(opts, ev0, toks[i - 1], toks[i], staleAlpha(i - 1), staleAlpha(i));
    }
    step := Prepare(opts, ev, toks[i], staleAlpha(i));
  }
}
