/**
 * The control protocol's error codes and the Unix-socket transport of
 * liblttng-sessiond-comm/lttng-sessiond-comm.c.  The socket system calls are
 * not modelled: their results are parameters, and what is modelled is the
 * code around them (argument checks, the layout of the message that is sent
 * and the validation of the message that was received).
 */
module SessiondComm {
  import opened Wrappers
  import opened CStrings

  /**
   * `enum lttcomm_return_code`, one constructor per entry of the readable
   * text table, in the table's order.
   */
  datatype ReturnCode =
    | Ok
    | Err
    | Und
    | NotImplemented
    | UnknownDomain
    | NoSession
    | ListFail
    | NoApps
    | SessNotFound
    | NoTrace
    | Fatal
    | CreateFail
    | StartFail
    | StopFail
    | NoTraceable
    | SelectSess
    | ExistSess
    | ConnectFail
    | AppNotFound
    | KernNa
    | KernEventExist
    | KernSessFail
    | KernChanFail
    | KernChanNotFound
    | KernChanDisableFail
    | KernChanEnableFail
    | KernContextFail
    | KernEnableFail
    | KernDisableFail
    | KernMetaFail
    | KernStartFail
    | KernStopFail
    | KernConsumerFail
    | KernStreamFail
    | KernDirFail
    | KernDirExist
    | KernNoSession
    | KernListFail
    | UstSessFail
    | UstChanFail
    | UstChanExist
    | UstChanNotFound
    | UstChanDisableFail
    | UstChanEnableFail
    | UstContextFail
    | UstEnableFail
    | UstDisableFail
    | UstMetaFail
    | UstStartFail
    | UstStopFail
    | UstConsumerFail
    | UstStreamFail
    | UstDirFail
    | UstDirExist
    | UstNoSession
    | UstListFail
    | ConsumerdCommandSockReady
    | ConsumerdSuccessRecvFd
    | ConsumerdErrorRecvFd
    | ConsumerdErrorRecvCmd
    | ConsumerdPollError
    | ConsumerdPollNval
    | ConsumerdPollHup
    | ConsumerdExitSuccess
    | ConsumerdExitFailure
    | ConsumerdOutfdError
    | ConsumerdSpliceEbadf
    | ConsumerdSpliceEinval
    | ConsumerdSpliceEnomem
    | ConsumerdSpliceEspipe
    | NoEvent

  /** The number of enumerators: LTTCOMM_NR - LTTCOMM_OK. */
  const CODE_COUNT: nat := 71

  /**
   * The enumerator at position `i` after LTTCOMM_OK.  The header declaring
   * the enumeration is not part of this model: the model numbers the codes
   * consecutively from LTTCOMM_OK in the order of the text table.
   */
  function CodeAt(i: int): Option<ReturnCode> {
    match i
    case 0 => Some(Ok)
    case 1 => Some(Err)
    case 2 => Some(Und)
    case 3 => Some(NotImplemented)
    case 4 => Some(UnknownDomain)
    case 5 => Some(NoSession)
    case 6 => Some(ListFail)
    case 7 => Some(NoApps)
    case 8 => Some(SessNotFound)
    case 9 => Some(NoTrace)
    case 10 => Some(Fatal)
    case 11 => Some(CreateFail)
    case 12 => Some(StartFail)
    case 13 => Some(StopFail)
    case 14 => Some(NoTraceable)
    case 15 => Some(SelectSess)
    case 16 => Some(ExistSess)
    case 17 => Some(ConnectFail)
    case 18 => Some(AppNotFound)
    case 19 => Some(KernNa)
    case 20 => Some(KernEventExist)
    case 21 => Some(KernSessFail)
    case 22 => Some(KernChanFail)
    case 23 => Some(KernChanNotFound)
    case 24 => Some(KernChanDisableFail)
    case 25 => Some(KernChanEnableFail)
    case 26 => Some(KernContextFail)
    case 27 => Some(KernEnableFail)
    case 28 => Some(KernDisableFail)
    case 29 => Some(KernMetaFail)
    case 30 => Some(KernStartFail)
    case 31 => Some(KernStopFail)
    case 32 => Some(KernConsumerFail)
    case 33 => Some(KernStreamFail)
    case 34 => Some(KernDirFail)
    case 35 => Some(KernDirExist)
    case 36 => Some(KernNoSession)
    case 37 => Some(KernListFail)
    case 38 => Some(UstSessFail)
    case 39 => Some(UstChanFail)
    case 40 => Some(UstChanExist)
    case 41 => Some(UstChanNotFound)
    case 42 => Some(UstChanDisableFail)
    case 43 => Some(UstChanEnableFail)
    case 44 => Some(UstContextFail)
    case 45 => Some(UstEnableFail)
    case 46 => Some(UstDisableFail)
    case 47 => Some(UstMetaFail)
    case 48 => Some(UstStartFail)
    case 49 => Some(UstStopFail)
    case 50 => Some(UstConsumerFail)
    case 51 => Some(UstStreamFail)
    case 52 => Some(UstDirFail)
    case 53 => Some(UstDirExist)
    case 54 => Some(UstNoSession)
    case 55 => Some(UstListFail)
    case 56 => Some(ConsumerdCommandSockReady)
    case 57 => Some(ConsumerdSuccessRecvFd)
    case 58 => Some(ConsumerdErrorRecvFd)
    case 59 => Some(ConsumerdErrorRecvCmd)
    case 60 => Some(ConsumerdPollError)
    case 61 => Some(ConsumerdPollNval)
    case 62 => Some(ConsumerdPollHup)
    case 63 => Some(ConsumerdExitSuccess)
    case 64 => Some(ConsumerdExitFailure)
    case 65 => Some(ConsumerdOutfdError)
    case 66 => Some(ConsumerdSpliceEbadf)
    case 67 => Some(ConsumerdSpliceEinval)
    case 68 => Some(ConsumerdSpliceEnomem)
    case 69 => Some(ConsumerdSpliceEspipe)
    case 70 => Some(NoEvent)
    case _ => None
  }

  /** `LTTCOMM_ERR_INDEX(code)`: the code's position after LTTCOMM_OK. */
  function ErrIndex(c: ReturnCode): (i: nat)
    ensures i < CODE_COUNT && CodeAt(i) == Some(c)
  {
    match c
    case Ok => 0
    case Err => 1
    case Und => 2
    case NotImplemented => 3
    case UnknownDomain => 4
    case NoSession => 5
    case ListFail => 6
    case NoApps => 7
    case SessNotFound => 8
    case NoTrace => 9
    case Fatal => 10
    case CreateFail => 11
    case StartFail => 12
    case StopFail => 13
    case NoTraceable => 14
    case SelectSess => 15
    case ExistSess => 16
    case ConnectFail => 17
    case AppNotFound => 18
    case KernNa => 19
    case KernEventExist => 20
    case KernSessFail => 21
    case KernChanFail => 22
    case KernChanNotFound => 23
    case KernChanDisableFail => 24
    case KernChanEnableFail => 25
    case KernContextFail => 26
    case KernEnableFail => 27
    case KernDisableFail => 28
    case KernMetaFail => 29
    case KernStartFail => 30
    case KernStopFail => 31
    case KernConsumerFail => 32
    case KernStreamFail => 33
    case KernDirFail => 34
    case KernDirExist => 35
    case KernNoSession => 36
    case KernListFail => 37
    case UstSessFail => 38
    case UstChanFail => 39
    case UstChanExist => 40
    case UstChanNotFound => 41
    case UstChanDisableFail => 42
    case UstChanEnableFail => 43
    case UstContextFail => 44
    case UstEnableFail => 45
    case UstDisableFail => 46
    case UstMetaFail => 47
    case UstStartFail => 48
    case UstStopFail => 49
    case UstConsumerFail => 50
    case UstStreamFail => 51
    case UstDirFail => 52
    case UstDirExist => 53
    case UstNoSession => 54
    case UstListFail => 55
    case ConsumerdCommandSockReady => 56
    case ConsumerdSuccessRecvFd => 57
    case ConsumerdErrorRecvFd => 58
    case ConsumerdErrorRecvCmd => 59
    case ConsumerdPollError => 60
    case ConsumerdPollNval => 61
    case ConsumerdPollHup => 62
    case ConsumerdExitSuccess => 63
    case ConsumerdExitFailure => 64
    case ConsumerdOutfdError => 65
    case ConsumerdSpliceEbadf => 66
    case ConsumerdSpliceEinval => 67
    case ConsumerdSpliceEnomem => 68
    case ConsumerdSpliceEspipe => 69
    case NoEvent => 70
  }

  /** The numeric value of an enumerator, given the value `ok` of LTTCOMM_OK. */
  function CodeValue(c: ReturnCode, ok: int): int {
    ok + ErrIndex(c)
  }

  /** `lttcomm_readable_code[LTTCOMM_ERR_INDEX(c)]`. */
  function Readable(c: ReturnCode): string {
    match c
    case Ok => "Success"
    case Err => "Unknown error"
    case Und => "Undefined command"
    case NotImplemented => "Not implemented"
    case UnknownDomain => "Unknown tracing domain"
    case NoSession => "No session found"
    case ListFail => "Unable to list traceable apps"
    case NoApps => "No traceable apps found"
    case SessNotFound => "Session name not found"
    case NoTrace => "No trace found"
    case Fatal => "Fatal error of the session daemon"
    case CreateFail => "Create trace failed"
    case StartFail => "Start trace failed"
    case StopFail => "Stop trace failed"
    case NoTraceable => "App is not traceable"
    case SelectSess => "A session MUST be selected"
    case ExistSess => "Session name already exist"
    case ConnectFail => "Unable to connect to Unix socket"
    case AppNotFound => "Application not found"
    case KernNa => "Kernel tracer not available"
    case KernEventExist => "Kernel event already exists"
    case KernSessFail => "Kernel create session failed"
    case KernChanFail => "Kernel create channel failed"
    case KernChanNotFound => "Kernel channel not found"
    case KernChanDisableFail => "Disable kernel channel failed"
    case KernChanEnableFail => "Enable kernel channel failed"
    case KernContextFail => "Add kernel context failed"
    case KernEnableFail => "Enable kernel event failed"
    case KernDisableFail => "Disable kernel event failed"
    case KernMetaFail => "Opening metadata failed"
    case KernStartFail => "Starting kernel trace failed"
    case KernStopFail => "Stoping kernel trace failed"
    case KernConsumerFail => "Kernel consumer start failed"
    case KernStreamFail => "Kernel create stream failed"
    case KernDirFail => "Kernel trace directory creation failed"
    case KernDirExist => "Kernel trace directory already exist"
    case KernNoSession => "No kernel session found"
    case KernListFail => "Listing kernel events failed"
    case UstSessFail => "UST create session failed"
    case UstChanFail => "UST create channel failed"
    case UstChanExist => "UST channel already exist"
    case UstChanNotFound => "UST channel not found"
    case UstChanDisableFail => "Disable UST channel failed"
    case UstChanEnableFail => "Enable UST channel failed"
    case UstContextFail => "Add UST context failed"
    case UstEnableFail => "Enable UST event failed"
    case UstDisableFail => "Disable UST event failed"
    case UstMetaFail => "Opening metadata failed"
    case UstStartFail => "Starting UST trace failed"
    case UstStopFail => "Stoping UST trace failed"
    case UstConsumerFail => "UST consumer start failed"
    case UstStreamFail => "UST create stream failed"
    case UstDirFail => "UST trace directory creation failed"
    case UstDirExist => "UST trace directory already exist"
    case UstNoSession => "No UST session found"
    case UstListFail => "Listing UST events failed"
    case ConsumerdCommandSockReady => "consumerd command socket ready"
    case ConsumerdSuccessRecvFd => "consumerd success on receiving fds"
    case ConsumerdErrorRecvFd => "consumerd error on receiving fds"
    case ConsumerdErrorRecvCmd => "consumerd error on receiving command"
    case ConsumerdPollError => "consumerd error in polling thread"
    case ConsumerdPollNval => "consumerd polling on closed fd"
    case ConsumerdPollHup => "consumerd all fd hung up"
    case ConsumerdExitSuccess => "consumerd exiting normally"
    case ConsumerdExitFailure => "consumerd exiting on error"
    case ConsumerdOutfdError => "consumerd error opening the tracefile"
    case ConsumerdSpliceEbadf => "consumerd splice EBADF"
    case ConsumerdSpliceEinval => "consumerd splice EINVAL"
    case ConsumerdSpliceEnomem => "consumerd splice ENOMEM"
    case ConsumerdSpliceEspipe => "consumerd splice ESPIPE"
    case NoEvent => "Event not found"
  }

  const UNKNOWN_CODE_TEXT: string := "Unknown error code"

  /** What `lttcomm_get_readable_code` picks: a table entry, or the unknown-code text. */
  datatype CodeText = Entry(code: ReturnCode) | UnknownCode

  /**
   * The choice `lttcomm_get_readable_code(code)` makes where LTTCOMM_OK has
   * the value `ok`: the codes are passed negated, and anything outside
   * [LTTCOMM_OK, LTTCOMM_NR) gets the unknown-code text.
   */
  function LookupCode(code: int, ok: int): CodeText {
    var tmp := -code;
    if ok <= tmp < ok + CODE_COUNT && CodeAt(tmp - ok).Some? then Entry(CodeAt(tmp - ok).value)
    else UnknownCode
  }

  /** The text of a choice. */
  function Text(t: CodeText): string {
    match t
    case Entry(c) => Readable(c)
    case UnknownCode => UNKNOWN_CODE_TEXT
  }

  /** `lttcomm_get_readable_code(code)` where LTTCOMM_OK has the value `ok`. */
  function GetReadableCode(code: int, ok: int): string {
    Text(LookupCode(code, ok))
  }

  /** Every enumerator, passed negated, picks its own table entry. */
  lemma LookupOfEnumerator(c: ReturnCode, ok: int)
    ensures LookupCode(-CodeValue(c, ok), ok) == Entry(c)
  {
    assert -(-CodeValue(c, ok)) - ok == ErrIndex(c);
  }

  /** Every enumerator, passed negated, reads as its own table entry. */
  lemma ReadableCodeOfEnumerator(c: ReturnCode, ok: int)
    ensures GetReadableCode(-CodeValue(c, ok), ok) == Readable(c)
  {
    LookupOfEnumerator(c, ok);
  }

  /** The duplicate-session code, for one. */
  lemma ExistSessText(ok: int)
    ensures GetReadableCode(-CodeValue(ExistSess, ok), ok) == "Session name already exist"
  {
    LookupOfEnumerator(ExistSess, ok);
  }

  /**
   * The lookup is total, and it falls back to the unknown-code text
   * exactly for the values that lie outside the enumeration.
   */
  lemma UnknownExactlyOutsideRange(code: int, ok: int)
    ensures LookupCode(code, ok) == UnknownCode <==> !(ok <= -code < ok + CODE_COUNT)
    ensures ok <= -code < ok + CODE_COUNT ==>
      CodeAt(-code - ok).Some? && GetReadableCode(code, ok) == Readable(CodeAt(-code - ok).value)
    ensures !(ok <= -code < ok + CODE_COUNT) ==> GetReadableCode(code, ok) == UNKNOWN_CODE_TEXT
  {
    if ok <= -code < ok + CODE_COUNT {
      InRangeLookup(code, ok);
    }
  }

  /** Inside the range the lookup picks the table entry at `-code - LTTCOMM_OK`. */
  lemma InRangeLookup(code: int, ok: int)
    requires ok <= -code < ok + CODE_COUNT
    ensures CodeAt(-code - ok).Some? && LookupCode(code, ok) == Entry(CodeAt(-code - ok).value)
  {
    CodeTableIsDense(-code - ok);
  }

  /** Every position in [0, LTTCOMM_NR - LTTCOMM_OK) names an enumerator. */
  lemma CodeTableIsDense(i: int)
    ensures CodeAt(i).Some? <==> 0 <= i < CODE_COUNT
  {
  }

  /* ---------------- Unix socket transport ---------------- */

  /** `sizeof(sun.sun_path)` for AF_UNIX addresses. */
  const UNIX_PATH_MAX: nat := 108

  /**
   * What `lttcomm_connect_unix_sock` did: its return value, the address it
   * passed to connect(2) (when it got that far), the descriptor it closed,
   * and whether it printed a diagnostic.
   */
  datatype ConnectOutcome = ConnectOutcome(
    ret: int,
    address: Option<string>,
    closed: Option<int>,
    diagnostic: bool)

  /**
   * `lttcomm_connect_unix_sock(pathname)` with `socketRet` the result of
   * socket(2) and `connectRet` that of connect(2).
   */
  function ConnectUnixSock(pathname: string, socketRet: int, connectRet: int): (r: ConnectOutcome)
    ensures socketRet < 0 ==> r == ConnectOutcome(socketRet, None, None, true)
    ensures socketRet >= 0 ==> r.address == Some(Truncate(pathname, UNIX_PATH_MAX)) && !r.diagnostic
    ensures socketRet >= 0 && connectRet < 0 ==> r.ret == connectRet && r.closed == Some(socketRet)
    ensures socketRet >= 0 && connectRet >= 0 ==> r.ret == socketRet && r.closed == None
  {
    if socketRet < 0 then
      ConnectOutcome(socketRet, None, None, true)
    else
      var sunPath := Truncate(pathname, UNIX_PATH_MAX);
      if connectRet < 0 then
        // A failed connect is the normal answer of a daemon that is not
        // running: the socket is closed, and nothing is printed.
        ConnectOutcome(connectRet, Some(sunPath), Some(socketRet), false)
      else
        ConnectOutcome(socketRet, Some(sunPath), None, false)
  }

  /**
   * The connect call fails exactly when one of the two system calls does,
   * and the socket it creates is never leaked: it is either returned to
   * the caller or closed, never both.
   */
  lemma ConnectOwnsItsSocket(pathname: string, socketRet: int, connectRet: int)
    ensures var r := ConnectUnixSock(pathname, socketRet, connectRet);
      (r.ret < 0 <==> socketRet < 0 || connectRet < 0)
      && (socketRet >= 0 ==> (r.ret == socketRet) != (r.closed == Some(socketRet)))
      && (r.diagnostic <==> socketRet < 0)
  {
  }

  /** Platform values (Linux, x86-64). */
  const SIZEOF_INT: nat := 4
  const CMSG_HDR_LEN: nat := 16   // CMSG_ALIGN(sizeof(struct cmsghdr))
  const SOL_SOCKET: int := 1
  const SCM_RIGHTS: int := 1
  const EINVAL: int := 22

  /** `CMSG_LEN(n)`. */
  function CmsgLen(n: nat): nat {
    CMSG_HDR_LEN + n
  }

  newtype byte = x: int | 0 <= x < 256

  /** One control message header and the descriptors it carries. */
  datatype ControlMsg = ControlMsg(level: int, cmsgType: int, len: nat, fds: seq<int>)

  /** The message handed to sendmsg(2): its ordinary payload and its control data. */
  datatype FdMessage = FdMessage(payload: seq<byte>, control: ControlMsg, controlLen: nat)

  /** The message `lttcomm_send_fds_unix_sock` builds for the descriptors `fds`. */
  function FdsMessage(fds: seq<int>): (m: FdMessage)
    ensures m.payload == [0]
    ensures m.control.level == SOL_SOCKET && m.control.cmsgType == SCM_RIGHTS
    ensures m.control.len == CmsgLen(|fds| * SIZEOF_INT) == m.controlLen
    ensures m.control.fds == fds
  {
    var len := CmsgLen(|fds| * SIZEOF_INT);
    FdMessage([0], ControlMsg(SOL_SOCKET, SCM_RIGHTS, len, fds), len)
  }

  /**
   * `lttcomm_send_fds_unix_sock(sock, fds, nb_fd)`, with `sendResult` the
   * result of sendmsg(2).  `sent` is the message passed to sendmsg, None
   * when it was never called.
   */
  method SendFdsUnixSock(fds: array<int>, nbFd: nat, maxSendFds: nat, sendResult: int)
    returns (ret: int, sent: Option<FdMessage>)
    requires nbFd <= maxSendFds ==> nbFd <= fds.Length
    ensures nbFd > maxSendFds ==> ret == -EINVAL && sent == None
    ensures nbFd <= maxSendFds ==> ret == sendResult && sent == Some(FdsMessage(fds[..nbFd]))
  {
    if nbFd > maxSendFds {
      return -EINVAL, None;
    }
    var sizeofFds := nbFd * SIZEOF_INT;
    var control := ControlMsg(SOL_SOCKET, SCM_RIGHTS, CmsgLen(sizeofFds), []);
    control := control.(fds := fds[..nbFd]);
    var msg := FdMessage([], control, control.len);
    var dummy: byte := 0;
    msg := msg.(payload := [dummy]);
    sent := Some(msg);
    ret := sendResult;
  }

  /**
   * What recvmsg(2) reported: its return value, whether MSG_CTRUNC was set,
   * and the first control message header, if any.
   */
  datatype ReceivedMsg = ReceivedMsg(bytes: int, ctrunc: bool, header: Option<ControlMsg>)

  /** A header's length field agrees with the descriptors delivered with it. */
  predicate WellFormed(m: ReceivedMsg) {
    m.header.Some? ==> m.header.value.len == CmsgLen(|m.header.value.fds| * SIZEOF_INT)
  }

  /**
   * The checks a one-byte message must pass before its descriptors are
   * accepted: no truncation, a header, rights at socket level, and a
   * length that is exactly that of `nbFd` descriptors.
   */
  predicate FdsAcceptable(m: ReceivedMsg, nbFd: nat) {
    && !m.ctrunc
    && m.header.Some?
    && m.header.value.level == SOL_SOCKET
    && m.header.value.cmsgType == SCM_RIGHTS
    && m.header.value.len == CmsgLen(nbFd * SIZEOF_INT)
  }

  /**
   * `lttcomm_recv_fds_unix_sock(sock, fds, nb_fd)` on the message `msg`.
   * It returns a byte count, not a descriptor count, and writes `fds` only
   * when every check has passed.
   */
  method RecvFdsUnixSock(fds: array<int>, nbFd: nat, msg: ReceivedMsg) returns (ret: int)
    requires nbFd <= fds.Length
    requires WellFormed(msg)
    modifies fds
    ensures msg.bytes != 1 ==> ret == msg.bytes && fds[..] == old(fds[..])
    ensures msg.bytes == 1 && !FdsAcceptable(msg, nbFd) ==> ret == -1 && fds[..] == old(fds[..])
    ensures msg.bytes == 1 && FdsAcceptable(msg, nbFd) ==>
      ret == nbFd * SIZEOF_INT && fds[..] == msg.header.value.fds + old(fds[nbFd..])
  {
    var sizeofFds := nbFd * SIZEOF_INT;
    ret := msg.bytes;
    if ret < 0 {
      return;
    }
    if ret != 1 {
      return;
    }
    if msg.ctrunc {
      return -1;
    }
    if msg.header.None? {
      return -1;
    }
    var cmsg := msg.header.value;
    if cmsg.level != SOL_SOCKET || cmsg.cmsgType != SCM_RIGHTS {
      return -1;
    }
    if cmsg.len != CmsgLen(sizeofFds) {
      return -1;
    }
    assert |cmsg.fds| == nbFd;
    forall i | 0 <= i < nbFd {
      fds[i] := cmsg.fds[i];
    }
    assert fds[..] == cmsg.fds + old(fds[nbFd..]);
    ret := sizeofFds;
  }

  /** The kernel delivering a sent message whole. */
  function Deliver(m: FdMessage): ReceivedMsg {
    ReceivedMsg(|m.payload|, false, Some(m.control))
  }

  /**
   * Descriptor passing round trip: what the sender builds for `fds` is,
   * once delivered, accepted by a receiver expecting `|fds|` descriptors,
   * which gets exactly `fds`; a receiver expecting any other count
   * rejects it.
   */
  lemma FdPassingRoundTrip(fds: seq<int>, nbFd: nat)
    ensures var m := Deliver(FdsMessage(fds));
      && m.bytes == 1
      && WellFormed(m)
      && (FdsAcceptable(m, nbFd) <==> nbFd == |fds|)
      && m.header.value.fds == fds
  {
  }
}
