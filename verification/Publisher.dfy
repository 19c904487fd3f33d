/**
 `ConfirmablePublisher` as a step system. Every region under `mu` is one step, `publishMu` is held by
 whoever `holder` names, and the broker, dying channels, close monitors, recoveries, callers of
 `Reconnect` and of `Close` interleave freely.

 The environment: a channel handed to the publisher is fresh and dedicated to it; the broker reports a
 `basic.return` before the confirmation of the same message; a failed `PublishWithContext` leaves
 nothing to confirm; a closed channel reports nothing more.
 */
module Publisher {
  import opened Text

  type Msg = nat
  type Ch = nat
  type Signal = nat

  datatype Confirmation = Confirmation(msg: Msg, ack: bool)

  /** An AMQP channel with the Go channels registered on it; `pending` awaits the broker's answer. A capable channel
      reports returns and accepts confirm mode. */
  datatype Channel = Channel(open: bool, capable: bool, pending: set<Msg>, confirms: seq<Confirmation>, bounces: seq<Msg>)

  /** What `PublishAndWaitConfirm` returned; `Delivered` is a nil error. */
  datatype Outcome = Delivered | Nacked | Returned | PublisherClosed | RecoveryExhausted | NotReady | SendFailed | StreamCorrupted

  datatype ReconnectOutcome = WhileOpen | AfterClose | Unusable | Installed

  /** Where the goroutine that holds `publishMu` stands. */
  datatype Holder =
    | Free
    | Draining(msg: Msg, ch: Ch, sig: Signal)
    | Sending(msg: Msg, ch: Ch, sig: Signal)
    | Waiting(msg: Msg, ch: Ch, sig: Signal)
    | Acked(msg: Msg, ch: Ch)
    | Corrupted(msg: Msg, ch: Ch)
    | Invalidated(msg: Msg, ch: Ch)
    | Discarding(msg: Msg, ch: Ch)
    | Preparing(monitor: Ch, left: Option<Ch>)
    | Closing(left: Option<Ch>)
  {
    /** The close signal a publish read when it began. */
    function Signal(): Signal { if Draining? || Sending? || Waiting? then sig else 0 }
  }

  /** A close monitor and the recovery it runs; `calls` counts provider calls, `obtained` their channels. */
  datatype Monitor =
    | Watching(done: Signal)
    | Fired(sig: Signal)
    | Recovering
    | Prepared
    | Attempting(stop: Signal, calls: nat, obtained: set<Ch>)
    | Reconnecting(stop: Signal, calls: nat, obtained: set<Ch>, given: Ch)
    | Rejected(stop: Signal, calls: nat, obtained: set<Ch>, given: Ch)
    | Finished(calls: nat, obtained: set<Ch>)
  {
    /** It holds a channel that is not installed. */
    predicate Offers() { Reconnecting? || Rejected? }
  }

  datatype Config = Config(hasProvider: bool, maxAttempts: nat)

  datatype State = State(
    ch: Option<Ch>, current: Ch, closed: bool, shutdown: bool, recoveryExhausted: bool,
    closedCh: Signal, done: Signal, signals: set<Signal>, nextSignal: Signal,
    channels: map<Ch, Channel>, installed: set<Ch>, monitors: map<Ch, Monitor>, holder: Holder,
    started: set<Msg>, acked: set<Msg>, nacked: set<Msg>, returned: set<Msg>, gaveUp: set<Msg>, results: map<Msg, Outcome>)
  {
    function With(c: Ch, channel: Channel): State { this.(channels := channels[c := channel]) }

    function Monitored(c: Ch, m: Monitor): State { this.(monitors := monitors[c := m]) }

    function Finish(m: Msg, outcome: Outcome): State { this.(results := results[m := outcome], holder := Free) }

    function Hold(h: Holder): State { this.(holder := h) }
  }

  const FRESH := Channel(true, true, {}, [], [])

  /** `NewConfirmablePublisherFromChannel` on channel `c`. */
  function Init(c: Ch): State {
    State(Some(c), c, false, false, false, 0, 1, {}, 2,
          map[c := FRESH], {c}, map[c := Watching(1)], Free, {}, {}, {}, {}, {}, map[])
  }

  /** The broker and the network. */
  datatype BrokerStep = Return(c: Ch, m: Msg) | Confirm(c: Ch, m: Msg, ack: bool) | Die(c: Ch)

  /** `PublishAndWaitConfirm`, `waitForConfirm` and `invalidateChannel`. */
  datatype PublishStep =
    | Begin(m: Msg)
    | DrainReturn
    | DrainEnd
    | SendOk
    | SendFail
    | TakeConfirm
    | SeeConfirmsClosed
    | SeeClosedSignal
    | TimeoutOrCancel
    | MarkInvalid
    | SignalInvalid
    | Discard
    | TakeReturn

  /** A close monitor's goroutine: `handleMonitoredClose` and `attemptAutoRecovery`. */
  datatype MonitorStep =
    | Fire
    | Stop
    | CloseSignal
    | PrepareBegin
    | ReadStop
    | Abort
    | ProviderFails
    | ProviderGives(given: Ch, capable: bool)
    | TryReconnect(usable: bool)
    | CloseRejected
    | Exhaust

  /** `Reconnect` and `Close` called from outside, and the rest of what `Close` and `prepareForRecovery` do. */
  datatype CallerStep =
    | Reconnect(given: Ch, usable: bool)
    | CloseBegin
    | CloseLeft
    | DrainConfirm
    | PrepareEnd
    | CloseEnd

  datatype Step = Broker(b: BrokerStep) | Publishing(p: PublishStep) | Monitoring(c: Ch, w: MonitorStep) | Calling(u: CallerStep)

  /** `Reconnect`'s decision; `usable` says the channel is capable. */
  function ReconnectDecision(s: State, usable: bool): ReconnectOutcome {
    if !s.closed then WhileOpen
    else if s.shutdown then AfterClose
    else if !usable then Unusable
    else Installed
  }

  function Install(s: State, c: Ch): State {
    s.(ch := Some(c), current := c, closed := false, recoveryExhausted := false,
       closedCh := s.nextSignal, nextSignal := s.nextSignal + 1,
       installed := s.installed + {c}, monitors := s.monitors[c := Watching(s.done)])
  }

  predicate InFlight(s: State) {
    s.holder.Draining? || s.holder.Sending? || s.holder.Waiting? || s.holder.Acked?
    || s.holder.Corrupted? || s.holder.Invalidated? || s.holder.Discarding?
  }

  predicate BrokerCan(s: State, b: BrokerStep) {
    b.c in s.channels &&
    match b
    case Return(c, m) => s.channels[c].open && m in s.channels[c].pending && m !in s.returned
    case Confirm(c, m, _) => s.channels[c].open && m in s.channels[c].pending
    case Die(_) => true
  }

  function ApplyBroker(s: State, b: BrokerStep): State
    requires BrokerCan(s, b)
  {
    var k := s.channels[b.c];
    match b
    case Return(c, m) => s.With(c, k.(bounces := k.bounces + [m])).(returned := s.returned + {m})
    case Confirm(c, m, ack) =>
      s.With(c, k.(pending := k.pending - {m}, confirms := k.confirms + [Confirmation(m, ack)]))
       .(acked := if ack then s.acked + {m} else s.acked, nacked := if ack then s.nacked else s.nacked + {m})
    case Die(c) => s.With(c, k.(open := false))
  }

  predicate PublishCan(s: State, p: PublishStep) {
    if p.Begin? then s.holder.Free? && p.m !in s.started
    else
      && InFlight(s) && s.holder.ch in s.channels
      && var k := s.channels[s.holder.ch];
         match p
         case Begin(_) => false
         case DrainReturn => s.holder.Draining? && k.bounces != []
         case DrainEnd => s.holder.Draining? && k.bounces == []
         case SendOk => s.holder.Sending? && k.open
         case SendFail => s.holder.Sending?
         case TakeConfirm => s.holder.Waiting? && k.confirms != []
         case SeeConfirmsClosed => s.holder.Waiting? && !k.open && k.confirms == []
         case SeeClosedSignal => s.holder.Waiting? && s.holder.sig in s.signals
         case TimeoutOrCancel => s.holder.Waiting?
         case MarkInvalid => s.holder.Corrupted?
         case SignalInvalid => s.holder.Invalidated?
         case Discard => s.holder.Discarding?
         case TakeReturn => s.holder.Acked?
  }

  function ApplyBegin(s: State, m: Msg): State {
    var t := s.(started := s.started + {m});
    if s.closed then t.Finish(m, if s.recoveryExhausted then RecoveryExhausted else PublisherClosed)
    else if s.ch.None? then t.Finish(m, NotReady)
    else t.Hold(Draining(m, s.ch.value, s.closedCh))
  }

  /** A step of a publish of `m` on channel `c`, as it stands in `k`. */
  function Advance(s: State, p: PublishStep, m: Msg, c: Ch, k: Channel): State
    requires (p.DrainReturn? ==> k.bounces != []) && (p.TakeConfirm? ==> k.confirms != [])
  {
    match p
    case Begin(_) => s
    case DrainReturn => s.With(c, k.(bounces := k.bounces[1..]))
    case DrainEnd => s.Hold(Sending(m, c, s.holder.Signal()))
    case SendOk => s.With(c, k.(pending := k.pending + {m})).Hold(Waiting(m, c, s.holder.Signal()))
    case SendFail => s.Finish(m, SendFailed)
    case TakeConfirm =>
      if k.confirms[0].ack then s.With(c, k.(confirms := k.confirms[1..])).Hold(Acked(m, c))
      else s.With(c, k.(confirms := k.confirms[1..])).Finish(m, Nacked)
    case SeeConfirmsClosed => s.Finish(m, PublisherClosed)
    case SeeClosedSignal => s.Finish(m, PublisherClosed)
    case TimeoutOrCancel => s.(gaveUp := s.gaveUp + {m}).Hold(Corrupted(m, c))
    case MarkInvalid => s.(closed := true, ch := None).Hold(Invalidated(m, c))
    case SignalInvalid => s.(signals := s.signals + {s.closedCh}).Hold(Discarding(m, c))
    case Discard => s.With(c, k.(open := false)).Finish(m, StreamCorrupted)
    case TakeReturn =>
      if k.bounces == [] then s.Finish(m, Delivered)
      else s.With(c, k.(bounces := k.bounces[1..])).Finish(m, Returned)
  }

  function ApplyPublish(s: State, p: PublishStep): State
    requires PublishCan(s, p)
  {
    if p.Begin? then ApplyBegin(s, p.m) else Advance(s, p, s.holder.msg, s.holder.ch, s.channels[s.holder.ch])
  }

  predicate MonitorCan(cfg: Config, s: State, c: Ch, w: MonitorStep) {
    && c in s.monitors && c in s.channels
    && var m := s.monitors[c];
       match w
       case Fire => m.Watching? && !s.channels[c].open
       case Stop => m.Watching? && m.done in s.signals
       case CloseSignal => m.Fired?
       case PrepareBegin => m.Recovering? && s.holder.Free?
       case ReadStop => m.Prepared?
       case Abort => m.Attempting? && m.stop in s.signals
       case ProviderFails => m.Attempting? && m.calls < cfg.maxAttempts
       case ProviderGives(given, _) => m.Attempting? && m.calls < cfg.maxAttempts && given !in s.channels
       case TryReconnect(usable) =>
         m.Reconnecting? && s.holder.Free? && m.given in s.channels && usable == s.channels[m.given].capable
       case CloseRejected => m.Rejected? && m.given in s.channels
       case Exhaust => m.Attempting? && m.calls == cfg.maxAttempts
  }

  function ApplyMonitor(cfg: Config, s: State, c: Ch, w: MonitorStep): State
    requires MonitorCan(cfg, s, c, w)
  {
    var m := s.monitors[c];
    match w
    case Fire => s.(closed := true).Monitored(c, Fired(s.closedCh))
    case Stop => s.Monitored(c, Finished(0, {}))
    case CloseSignal =>
      s.(signals := s.signals + {m.sig}).Monitored(c, if cfg.hasProvider then Recovering else Finished(0, {}))
    case PrepareBegin =>
      if s.shutdown then s.Monitored(c, Finished(0, {}))
      else s.(closed := true, recoveryExhausted := false, ch := None, signals := s.signals + {s.done, s.closedCh})
            .Hold(Preparing(c, s.ch))
    case ReadStop => s.Monitored(c, Attempting(s.done, 0, {}))
    case Abort => s.Monitored(c, Finished(m.calls, m.obtained))
    case ProviderFails => s.Monitored(c, Attempting(m.stop, m.calls + 1, m.obtained))
    case ProviderGives(given, capable) =>
      s.With(given, FRESH.(capable := capable)).Monitored(c, Reconnecting(m.stop, m.calls + 1, m.obtained + {given}, given))
    case TryReconnect(usable) =>
      if ReconnectDecision(s, usable).Installed?
      then Install(s, m.given).Monitored(c, Finished(m.calls, m.obtained))
      else s.Monitored(c, Rejected(m.stop, m.calls, m.obtained, m.given))
    case CloseRejected =>
      s.With(m.given, s.channels[m.given].(open := false)).Monitored(c, Attempting(m.stop, m.calls, m.obtained))
    case Exhaust => s.(recoveryExhausted := true).Monitored(c, Finished(m.calls, m.obtained))
  }

  predicate CallerCan(s: State, u: CallerStep) {
    match u
    case Reconnect(given, _) => s.holder.Free? && given !in s.channels
    case CloseBegin => s.holder.Free?
    case CloseLeft => (s.holder.Preparing? || s.holder.Closing?) && s.holder.left.Some? && s.holder.left.value in s.channels
    case DrainConfirm =>
      && (s.holder.Preparing? || s.holder.Closing?) && s.holder.left.None?
      && s.current in s.channels && s.channels[s.current].confirms != []
    case PrepareEnd => s.holder.Preparing? && s.holder.left.None?
    case CloseEnd => s.holder.Closing? && s.holder.left.None?
  }

  function ApplyCaller(s: State, u: CallerStep): State
    requires CallerCan(s, u)
  {
    match u
    case Reconnect(given, usable) =>
      if ReconnectDecision(s, usable).Installed? then Install(s.With(given, FRESH.(capable := usable)), given) else s
    case CloseBegin =>
      if s.shutdown then s
      else s.(shutdown := true, closed := true, recoveryExhausted := false, signals := s.signals + {s.done, s.closedCh})
            .Hold(Closing(s.ch))
    case CloseLeft =>
      s.With(s.holder.left.value, s.channels[s.holder.left.value].(open := false)).Hold(s.holder.(left := None))
    case DrainConfirm =>
      var k := s.channels[s.current];
      s.With(s.current, k.(confirms := k.confirms[1..]))
    case PrepareEnd =>
      s.(done := s.nextSignal, nextSignal := s.nextSignal + 1).Monitored(s.holder.monitor, Prepared).Hold(Free)
    case CloseEnd => s.Hold(Free)
  }

  predicate Enabled(cfg: Config, s: State, step: Step) {
    match step
    case Broker(b) => BrokerCan(s, b)
    case Publishing(p) => PublishCan(s, p)
    case Monitoring(c, w) => MonitorCan(cfg, s, c, w)
    case Calling(u) => CallerCan(s, u)
  }

  function Apply(cfg: Config, s: State, step: Step): State
    requires Enabled(cfg, s, step)
  {
    match step
    case Broker(b) => ApplyBroker(s, b)
    case Publishing(p) => ApplyPublish(s, p)
    case Monitoring(c, w) => ApplyMonitor(cfg, s, c, w)
    case Calling(u) => ApplyCaller(s, u)
  }

  /** The state after a run of steps, each enabled where it is taken. */
  ghost predicate Run(cfg: Config, s: State, steps: seq<Step>, t: State)
    decreases |steps|
  {
    if steps == [] then t == s
    else Enabled(cfg, s, steps[0]) && Run(cfg, Apply(cfg, s, steps[0]), steps[1..], t)
  }

  ghost predicate Reachable(cfg: Config, s: State) {
    exists c, steps :: Run(cfg, Init(c), steps, s)
  }
}
