// The life of one service: its own thread, any number of senders and stoppers,
// the joiners and the starter, one step per region between lock boundaries.
module Service {

  const DISPATCH_BATCH_SIZE := 256
  const EBUSY := 16
  const ECANCELED := 125
  const EALREADY := 114
  const EINVAL := 22

  datatype State = NEW | STARTING | RUNNING | STOPPING | STOPPED | JOINED | FREED

  function Rank(s: State): nat {
    match s
    case NEW => 0
    case STARTING => 1
    case RUNNING => 2
    case STOPPING => 3
    case STOPPED => 4
    case JOINED => 5
    case FREED => 6
  }

  // Under pool->lock
  datatype Pool = Pool(routable: bool, pins: int)

  // Under state_lock
  datatype Life = Life(
    state: State, stopRequested: bool, startDone: bool, startError: int, threadCreated: bool,
    joining: bool, threadJoined: bool, joinError: int, inboxReady: bool, controlReady: bool)

  // The mailbox as its users see it; a message is its send's number.
  datatype Inbox = Inbox(queue: seq<nat>, closed: bool, scheduled: bool, deleted: bool)

  // An async handle is a pending bit; closing is uv_close of both handles.
  datatype Uv = Uv(inboxPending: bool, controlPending: bool, closing: bool)

  // The service thread. Shut* is service_prepare_shutdown, run by the control
  // callback (last = false) and once more by service_finish_thread.
  datatype MainPc =
    | Absent
    | InitInbox | InitControl | CheckStop(failed: bool) | InitLua | Decide(failed: bool) | Wake
    | Loop | CbCheck | Round(k: nat) | Popping(k: nat) | Handling(k: nat) | Quitting(sid: nat)
    | EndRound(full: bool) | Resend
    | ControlCb
    | ShutRetire(last: bool) | ShutClose(last: bool) | ShutWait(last: bool) | ShutDrain(last: bool)
    | CloseHandles
    | Finish | LuaStop | FinalClose | Final | Exited

  // A sender holds a pin from service_pool_pin to service_unpin.
  datatype SendPc =
    | Pinned(m: nat) | MustCheck(m: nat) | MustAsync(m: nat) | MustUnpin(m: nat, stop: bool)

  datatype StopPc = Retiring | Deciding | Closing(signal: bool) | Signalling

  datatype JoinPc =
    | NoJoiner | JoinThread(hasThread: bool) | JoinRecord
    | FreeRetire | FreeWait | FreeTake | FreeDelete | JoinClear(error: int)

  datatype StartPc = NoStarter | StartWait | FailRetire | FailClose

  datatype Fate = Dispatched | Drained | Deleted

  // What happened: sends numbered from 0, those answered OK in mailbox order,
  // what became of the ones taken out, those answered with an error; whether
  // RUNNING was ever entered; results of start and join.
  datatype History = History(
    next: nat, accepted: seq<nat>, fates: seq<Fate>, rejected: set<nat>,
    everRunning: bool, drained: bool, startResults: seq<int>, joins: nat, frees: nat, joinResults: seq<int>)

  datatype Svc = Svc(
    pool: Pool, life: Life, box: Inbox, uv: Uv, main: MainPc,
    senders: map<nat, SendPc>, stoppers: map<nat, StopPc>, joiner: JoinPc, starter: StartPc, hist: History)

  // service_new
  const CREATED := Svc(
    Pool(true, 0),
    Life(NEW, false, false, 0, false, false, false, 0, false, false),
    Inbox([], false, false, false),
    Uv(false, false, false),
    Absent, map[], map[], NoJoiner, NoStarter,
    History(0, [], [], {}, false, false, [], 0, 0, []))

  // service_start
  datatype StartStep = StartBegin(created: bool, error: int) | StartRefused | StartReturns | FailsRetire | FailsClose

  // service_thread_main up to the loop
  datatype BootStep = InboxInit(ok: bool) | ControlInit(ok: bool) | StopCheck | LuaInit(ok: bool) | Decides | Wakes

  // service_async_cb and the dispatcher's batch
  datatype RoundStep =
    | AsyncFires | CbChecks | RecvChecks | Pops | HandlerReturns | HandlerStops(sid: nat) | QuitDone
    | RoundEnds | Resends(ok: bool, sid: nat)

  // service_control_cb and service_finish_thread
  datatype ShutStep =
    | ControlFires | ControlChecks | MainRetires | MainCloses | MainPinsGone | MainDrains
    | HandlesClose | LoopReturns | FinishBegins | LuaStops | FinalCloses | Finishes

  // service_send
  datatype SendStep =
    | Pin(tid: nat) | Push(tid: nat, full: bool) | ReadReady(tid: nat) | Async(tid: nat, ok: bool)
    | Unpin(tid: nat, sid: nat)

  // service_stop
  datatype StopStep =
    | StopBegin(sid: nat) | StopRetires(sid: nat) | StopDecides(sid: nat) | StopCloses(sid: nat) | StopSignals(sid: nat)

  // service_join and service_free
  datatype JoinStep =
    | JoinBegin | PthreadJoin | JoinRecords | FreeRetires | FreePinsGone | FreeTakes | FreeDeletes | JoinClears

  datatype Step =
    | Starting(start: StartStep) | Booting(boot: BootStep) | Dispatching(round: RoundStep)
    | Shutting(shut: ShutStep) | Sending(send: SendStep) | Stopping(stop: StopStep) | Joining(join: JoinStep)

  predicate StartEnabled(s: Svc, step: StartStep) {
    match step
    case StartBegin(created, error) => s.life.state == NEW && (!created ==> error > 0)
    case StartRefused => s.life.state != NEW
    case StartReturns => s.starter == StartWait && s.life.startDone
    case FailsRetire => s.starter == FailRetire
    case FailsClose => s.starter == FailClose
  }

  predicate BootEnabled(s: Svc, step: BootStep) {
    match step
    case InboxInit(_) => s.main == InitInbox
    case ControlInit(_) => s.main == InitControl
    case StopCheck => s.main.CheckStop?
    case LuaInit(_) => s.main == InitLua
    case Decides => s.main.Decide?
    case Wakes => s.main == Wake
  }

  predicate RoundEnabled(s: Svc, step: RoundStep) {
    match step
    case AsyncFires => s.main == Loop && s.uv.inboxPending && !s.uv.closing
    case CbChecks => s.main == CbCheck
    case RecvChecks => s.main.Round?
    case Pops => s.main.Popping?
    case HandlerReturns => s.main.Handling?
    case HandlerStops(sid) => (s.main.Handling? || s.main.EndRound?) && sid !in s.stoppers
    case QuitDone => s.main.Quitting? && s.main.sid !in s.stoppers
    case RoundEnds => s.main.EndRound?
    case Resends(_, sid) => s.main == Resend && sid !in s.stoppers
  }

  predicate ShutEnabled(s: Svc, step: ShutStep) {
    match step
    case ControlFires => s.main == Loop && s.uv.controlPending && !s.uv.closing
    case ControlChecks => s.main == ControlCb
    case MainRetires => s.main.ShutRetire?
    case MainCloses => s.main.ShutClose?
    case MainPinsGone => s.main.ShutWait? && s.pool.pins == 0
    case MainDrains => s.main.ShutDrain?
    case HandlesClose => s.main == CloseHandles
    case LoopReturns => s.main == Loop && s.uv.closing
    case FinishBegins => s.main == Finish
    case LuaStops => s.main == LuaStop
    case FinalCloses => s.main == FinalClose
    case Finishes => s.main == Final
  }

  predicate SendEnabled(s: Svc, step: SendStep) {
    match step
    case Pin(tid) => tid !in s.senders
    case Push(tid, _) => tid in s.senders && s.senders[tid].Pinned?
    case ReadReady(tid) => tid in s.senders && s.senders[tid].MustCheck?
    case Async(tid, _) => tid in s.senders && s.senders[tid].MustAsync?
    case Unpin(tid, sid) => tid in s.senders && s.senders[tid].MustUnpin? && sid !in s.stoppers
  }

  predicate StopEnabled(s: Svc, step: StopStep) {
    match step
    case StopBegin(sid) => sid !in s.stoppers
    case StopRetires(sid) => sid in s.stoppers && s.stoppers[sid] == Retiring
    case StopDecides(sid) => sid in s.stoppers && s.stoppers[sid] == Deciding
    case StopCloses(sid) => sid in s.stoppers && s.stoppers[sid].Closing?
    case StopSignals(sid) => sid in s.stoppers && s.stoppers[sid] == Signalling
  }

  predicate JoinEnabled(s: Svc, step: JoinStep) {
    match step
    case JoinBegin => !s.life.joining
    case PthreadJoin => s.joiner.JoinThread? && (s.joiner.hasThread ==> s.main == Exited)
    case JoinRecords => s.joiner == JoinRecord
    case FreeRetires => s.joiner == FreeRetire
    case FreePinsGone => s.joiner == FreeWait && s.pool.pins == 0
    // A stop, or a failed start, still on its way is over before the join
    // frees what it uses.
    case FreeTakes => s.joiner == FreeTake && s.stoppers == map[] && (s.starter == NoStarter || s.starter == StartWait)
    case FreeDeletes => s.joiner == FreeDelete
    case JoinClears => s.joiner.JoinClear?
  }

  predicate Enabled(s: Svc, step: Step) {
    match step
    case Starting(x) => StartEnabled(s, x)
    case Booting(x) => BootEnabled(s, x)
    case Dispatching(x) => RoundEnabled(s, x)
    case Shutting(x) => ShutEnabled(s, x)
    case Sending(x) => SendEnabled(s, x)
    case Stopping(x) => StopEnabled(s, x)
    case Joining(x) => JoinEnabled(s, x)
  }

  function Retire(s: Svc): Svc {
    s.(pool := s.pool.(routable := false))
  }

  function Close(s: Svc): Svc {
    s.(box := s.box.(closed := true))
  }

  function Without<V>(m: map<nat, V>, k: nat): map<nat, V> {
    m - {k}
  }

  // service_start's locked region, pthread_create included
  function ApplyStart(s: Svc, created: bool, error: int): Svc {
    if created then
      s.(life := s.life.(state := STARTING, threadCreated := true), main := InitInbox, starter := StartWait)
    else
      s.(life := s.life.(state := STOPPED, startDone := true, startError := error), starter := FailRetire)
  }

  function StartResult(s: Svc, error: int): Svc {
    s.(starter := NoStarter, hist := s.hist.(startResults := s.hist.startResults + [error]))
  }

  // The region of service_thread_main that decides between running and not
  function ApplyDecide(s: Svc, failed: bool): Svc {
    if !failed && !s.life.stopRequested then
      s.(life := s.life.(state := RUNNING, startError := 0, startDone := true), main := Wake,
         hist := s.hist.(everRunning := true))
    else
      s.(life := s.life.(state := STOPPING, startError := if failed then 1 else ECANCELED, startDone := true),
         main := Finish)
  }

  // mailbox_try_pop by the dispatcher
  function ApplyPop(s: Svc, k: nat): Svc {
    if s.box.queue == [] then s.(box := s.box.(scheduled := false), main := EndRound(false))
    else s.(box := s.box.(queue := s.box.queue[1..]), main := Handling(k),
            hist := s.hist.(fates := s.hist.fates + [Dispatched]))
  }

  // The end of service_async_cb: mailbox_finish_batch when the batch was full
  function ApplyRoundEnd(s: Svc, full: bool): Svc {
    if !full then s.(main := Loop)
    else if !s.box.closed && s.box.queue != [] then s.(main := Resend)
    else s.(box := s.box.(scheduled := false), main := Loop)
  }

  // One mailbox_try_pop of service_drain_mailbox
  function ApplyDrain(s: Svc, last: bool): Svc {
    if s.box.queue == [] then
      s.(box := s.box.(scheduled := false), main := if last then LuaStop else CloseHandles,
         hist := s.hist.(drained := true))
    else s.(box := s.box.(queue := s.box.queue[1..]), hist := s.hist.(fates := s.hist.fates + [Drained]))
  }

  function ApplyPin(s: Svc, tid: nat): Svc {
    var m := s.hist.next;
    var t := s.(hist := s.hist.(next := m + 1));
    if s.pool.routable then
      t.(pool := s.pool.(pins := s.pool.pins + 1), senders := s.senders[tid := Pinned(m)])
    else t.(hist := t.hist.(rejected := t.hist.rejected + {m}))
  }

  // mailbox_try_push: full means it could not grow.
  function ApplyPush(s: Svc, tid: nat, full: bool): Svc
    requires tid in s.senders
  {
    var m := s.senders[tid].m;
    if s.box.closed || full then
      s.(senders := s.senders[tid := MustUnpin(m, false)], hist := s.hist.(rejected := s.hist.rejected + {m}))
    else
      s.(box := s.box.(queue := s.box.queue + [m], scheduled := true),
         senders := s.senders[tid := if s.box.scheduled then MustUnpin(m, false) else MustCheck(m)],
         hist := s.hist.(accepted := s.hist.accepted + [m]))
  }

  function ApplyUnpin(s: Svc, tid: nat, sid: nat): Svc
    requires tid in s.senders && s.senders[tid].MustUnpin?
  {
    s.(pool := s.pool.(pins := s.pool.pins - 1), senders := Without(s.senders, tid),
       stoppers := if s.senders[tid].stop then s.stoppers[sid := Retiring] else s.stoppers)
  }

  // service_stop's switch
  function ApplyStopDecide(s: Svc, sid: nat): Svc {
    match s.life.state
    case NEW =>
      s.(life := s.life.(stopRequested := true, startDone := true, startError := ECANCELED, state := STOPPED),
         stoppers := s.stoppers[sid := Closing(false)])
    case STARTING =>
      s.(life := s.life.(stopRequested := true, state := STOPPING),
         stoppers := s.stoppers[sid := Closing(!s.life.stopRequested && s.life.controlReady)])
    case RUNNING =>
      s.(life := s.life.(stopRequested := true, state := STOPPING),
         stoppers := s.stoppers[sid := Closing(!s.life.stopRequested && s.life.controlReady)])
    case _ => s.(stoppers := Without(s.stoppers, sid))
  }

  function ApplyStopClose(s: Svc, sid: nat): Svc
    requires sid in s.stoppers && s.stoppers[sid].Closing?
  {
    Close(s).(stoppers := if s.stoppers[sid].signal then s.stoppers[sid := Signalling] else Without(s.stoppers, sid))
  }

  function JoinResult(s: Svc, error: int): Svc {
    s.(hist := s.hist.(joinResults := s.hist.joinResults + [error]))
  }

  function ApplyJoinBegin(s: Svc): Svc {
    if s.life.threadJoined || s.life.state == FREED then JoinResult(s, s.life.joinError)
    else if !s.life.threadCreated && s.life.state != STOPPED then JoinResult(s, EINVAL)
    else s.(life := s.life.(joining := true), joiner := JoinThread(s.life.threadCreated))
  }

  function ApplyFreeTake(s: Svc): Svc {
    if s.life.state != JOINED then s.(joiner := JoinClear(EBUSY))
    else s.(life := s.life.(state := FREED), joiner := FreeDelete)
  }

  // mailbox_delete on the way out of service_free
  function ApplyDelete(s: Svc): Svc {
    s.(box := Inbox([], true, false, true), joiner := JoinClear(0),
       hist := s.hist.(frees := s.hist.frees + 1, fates := s.hist.fates + seq(|s.box.queue|, _ => Deleted)))
  }

  function StartApply(s: Svc, step: StartStep): Svc
    requires StartEnabled(s, step)
  {
    match step
    case StartBegin(created, error) => ApplyStart(s, created, error)
    case StartRefused => s.(hist := s.hist.(startResults := s.hist.startResults + [EALREADY]))
    case StartReturns => StartResult(s, s.life.startError)
    case FailsRetire => Retire(s).(starter := FailClose)
    case FailsClose => StartResult(Close(s), s.life.startError)
  }

  function BootApply(s: Svc, step: BootStep): Svc
    requires BootEnabled(s, step)
  {
    match step
    case InboxInit(ok) =>
      if ok then s.(life := s.life.(inboxReady := true), main := InitControl) else s.(main := CheckStop(true))
    case ControlInit(ok) =>
      if ok then s.(life := s.life.(controlReady := true), main := CheckStop(false)) else s.(main := CheckStop(true))
    case StopCheck =>
      s.(main := if !s.main.failed && !s.life.stopRequested then InitLua else Decide(s.main.failed))
    case LuaInit(ok) => s.(main := Decide(!ok))
    case Decides => ApplyDecide(s, s.main.failed)
    case Wakes => s.(uv := s.uv.(inboxPending := true), main := Loop)
  }

  function RoundApply(s: Svc, step: RoundStep): Svc
    requires RoundEnabled(s, step)
  {
    match step
    case AsyncFires => s.(uv := s.uv.(inboxPending := false), main := CbCheck)
    case CbChecks => s.(main := if s.life.state == RUNNING then Round(0) else Loop)
    case RecvChecks => s.(main := if s.life.state == RUNNING then Popping(s.main.k) else EndRound(false))
    case Pops => ApplyPop(s, s.main.k)
    case HandlerReturns =>
      s.(main := if s.main.k + 1 < DISPATCH_BATCH_SIZE then Round(s.main.k + 1) else EndRound(true))
    case HandlerStops(sid) => s.(stoppers := s.stoppers[sid := Retiring], main := Quitting(sid))
    case QuitDone => s.(main := Loop)
    case RoundEnds => ApplyRoundEnd(s, s.main.full)
    case Resends(ok, sid) =>
      if ok then s.(uv := s.uv.(inboxPending := true), main := Loop)
      else s.(stoppers := s.stoppers[sid := Retiring], main := Quitting(sid))
  }

  function ShutApply(s: Svc, step: ShutStep): Svc
    requires ShutEnabled(s, step)
  {
    match step
    case ControlFires => s.(uv := s.uv.(controlPending := false), main := ControlCb)
    case ControlChecks => s.(main := if s.life.stopRequested then ShutRetire(false) else Loop)
    case MainRetires => Retire(s).(main := ShutClose(s.main.last))
    case MainCloses => Close(s).(main := ShutWait(s.main.last))
    case MainPinsGone => s.(main := ShutDrain(s.main.last))
    case MainDrains => ApplyDrain(s, s.main.last)
    case HandlesClose => s.(uv := s.uv.(closing := true), main := Loop)
    case LoopReturns => s.(main := Finish)
    case FinishBegins =>
      s.(life := if Rank(s.life.state) < Rank(STOPPING) then s.life.(state := STOPPING) else s.life,
         main := ShutRetire(true))
    case LuaStops => s.(main := FinalClose)
    case FinalCloses => s.(uv := s.uv.(closing := true), main := Final)
    case Finishes =>
      s.(life := s.life.(inboxReady := false, controlReady := false, state := STOPPED), main := Exited)
  }

  function SendApply(s: Svc, step: SendStep): Svc
    requires SendEnabled(s, step)
  {
    match step
    case Pin(tid) => ApplyPin(s, tid)
    case Push(tid, full) => ApplyPush(s, tid, full)
    case ReadReady(tid) =>
      var m := s.senders[tid].m;
      s.(senders := s.senders[tid := if s.life.inboxReady then MustAsync(m) else MustUnpin(m, false)])
    case Async(tid, ok) =>
      s.(uv := if ok then s.uv.(inboxPending := true) else s.uv,
         senders := s.senders[tid := MustUnpin(s.senders[tid].m, !ok)])
    case Unpin(tid, sid) => ApplyUnpin(s, tid, sid)
  }

  function StopApply(s: Svc, step: StopStep): Svc
    requires StopEnabled(s, step)
  {
    match step
    case StopBegin(sid) => s.(stoppers := s.stoppers[sid := Retiring])
    case StopRetires(sid) => Retire(s).(stoppers := s.stoppers[sid := Deciding])
    case StopDecides(sid) => ApplyStopDecide(s, sid)
    case StopCloses(sid) => ApplyStopClose(s, sid)
    case StopSignals(sid) => s.(uv := s.uv.(controlPending := true), stoppers := Without(s.stoppers, sid))
  }

  function JoinApply(s: Svc, step: JoinStep): Svc
    requires JoinEnabled(s, step)
  {
    match step
    case JoinBegin => ApplyJoinBegin(s)
    case PthreadJoin =>
      s.(joiner := JoinRecord, hist := if s.joiner.hasThread then s.hist.(joins := s.hist.joins + 1) else s.hist)
    case JoinRecords =>
      s.(life := s.life.(joinError := 0, threadJoined := true, state := JOINED), joiner := FreeRetire)
    case FreeRetires => Retire(s).(joiner := FreeWait)
    case FreePinsGone => s.(joiner := FreeTake)
    case FreeTakes => ApplyFreeTake(s)
    case FreeDeletes => ApplyDelete(s)
    case JoinClears => JoinResult(s.(life := s.life.(joining := false), joiner := NoJoiner), s.joiner.error)
  }

  function Apply(s: Svc, step: Step): Svc
    requires Enabled(s, step)
  {
    match step
    case Starting(x) => StartApply(s, x)
    case Booting(x) => BootApply(s, x)
    case Dispatching(x) => RoundApply(s, x)
    case Shutting(x) => ShutApply(s, x)
    case Sending(x) => SendApply(s, x)
    case Stopping(x) => StopApply(s, x)
    case Joining(x) => JoinApply(s, x)
  }
}
