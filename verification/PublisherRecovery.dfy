/** Signals and recovery: who is told of a close, and that a dead channel can be replaced, given up on or closed for good. */
module PublisherRecovery {
  import opened Text
  import opened Publisher
  import opened PublisherSafety
  import opened PublisherChannels
  import opened PublisherProgress

  // ---------- signals ----------

  /** The signal that stops a monitor or a recovery. */
  predicate Heeds(m: Monitor, d: Signal) {
    match m
    case Watching(done) => done == d
    case Attempting(stop, _, _) => stop == d
    case Reconnecting(stop, _, _, _) => stop == d
    case Rejected(stop, _, _, _) => stop == d
    case _ => false
  }

  /** What the monitor of the current channel has brought about. */
  predicate CurrentTold(s: State)
    requires s.current in s.monitors
  {
    match s.monitors[s.current]
    case Watching(d) => d in s.signals ==> s.closedCh in s.signals
    case Fired(sig) => sig == s.closedCh
    case _ => s.closedCh in s.signals
  }

  predicate DoneOk(s: State) {
    && s.closedCh != s.done
    && (s.done in s.signals ==> s.shutdown || s.holder.Preparing?)
    && (s.shutdown || s.holder.Preparing? ==> s.done in s.signals && s.closedCh in s.signals)
    && !(s.shutdown && s.holder.Preparing?)
    && (s.ch.None? ==> s.closedCh in s.signals || s.holder.Invalidated?)
  }

  ghost predicate MonitorTold(s: State, c: Ch)
    requires c in s.monitors
  {
    && (forall d: Signal | Heeds(s.monitors[c], d) :: d == s.done || d in s.signals)
    && (s.monitors[c].Fired? ==> s.monitors[c].sig != s.done)
  }

  ghost predicate Told(s: State) {
    DoneOk(s) && (forall c | c in s.monitors :: MonitorTold(s, c)) && s.current in s.monitors && CurrentTold(s)
  }

  lemma PublishKeepsTold(s: State, p: PublishStep)
    requires FieldsOk(s) && Told(s) && PublishCan(s, p)
    ensures Told(ApplyPublish(s, p))
  {
    hide MonitorTold, CurrentTold;
    var t := ApplyPublish(s, p);
    PublishSignals(s, p);
    forall c | c in s.monitors ensures MonitorTold(t, c) {
      MoreIsTold(s, t, c);
    }
    CurrentStaysTold(s, t);
  }

  /** A publish touches no signal but the closing of the one in place. */
  lemma PublishSignals(s: State, p: PublishStep)
    requires PublishCan(s, p)
    ensures var t := ApplyPublish(s, p);
            && t.monitors == s.monitors && t.done == s.done && t.closedCh == s.closedCh && t.current == s.current
            && (t.signals == s.signals || t.signals == s.signals + {s.closedCh})
  {
    hide Advance;
    if !p.Begin? {
      PublishTouches(s, p);
    }
  }

  lemma MoreIsTold(s: State, t: State, c: Ch)
    requires c in s.monitors && MonitorTold(s, c) && t.monitors == s.monitors && t.done == s.done && s.signals <= t.signals
    ensures MonitorTold(t, c)
  {
  }

  lemma CurrentStaysTold(s: State, t: State)
    requires s.current in s.monitors && CurrentTold(s) && t.monitors == s.monitors && t.current == s.current && t.closedCh == s.closedCh
    requires t.signals == s.signals || t.signals == s.signals + {s.closedCh}
    ensures CurrentTold(t)
  {
  }

  lemma BrokerKeepsTold(s: State, b: BrokerStep)
    requires Told(s) && BrokerCan(s, b)
    ensures Told(ApplyBroker(s, b))
  {
    forall c | c in s.monitors ensures MonitorTold(ApplyBroker(s, b), c) {
      assert MonitorTold(s, c);
    }
  }

  lemma InstallTold(cfg: Config, s: State, c: Ch, w: MonitorStep)
    requires FieldsOk(s) && Told(s) && MonitorCan(cfg, s, c, w) && w.TryReconnect? && ReconnectDecision(s, w.usable).Installed?
    requires s.monitors[c].given !in s.monitors
    ensures var t := ApplyMonitor(cfg, s, c, w);
            DoneOk(t) && c in t.monitors && MonitorTold(t, c) && t.current in t.monitors && CurrentTold(t)
  {
  }

  lemma MonitorStepDone(cfg: Config, s: State, c: Ch, w: MonitorStep)
    requires FieldsOk(s) && DoneOk(s) && MonitorCan(cfg, s, c, w) && !(w.TryReconnect? && ReconnectDecision(s, w.usable).Installed?)
    requires s.monitors[c].Fired? ==> s.monitors[c].sig != s.done
    ensures DoneOk(ApplyMonitor(cfg, s, c, w))
  {
    hide Install;
  }

  lemma MonitorStepTold(cfg: Config, s: State, c: Ch, w: MonitorStep)
    requires FieldsOk(s) && Told(s) && MonitorCan(cfg, s, c, w) && !(w.TryReconnect? && ReconnectDecision(s, w.usable).Installed?)
    ensures var t := ApplyMonitor(cfg, s, c, w);
            DoneOk(t) && c in t.monitors && MonitorTold(t, c) && t.current in t.monitors && CurrentTold(t)
  {
    hide ApplyMonitor, FieldsOk, DoneOk, CurrentTold;
    assert MonitorTold(s, c);
    MonitorStepDone(cfg, s, c, w);
    MonitorStepTellsIt(cfg, s, c, w);
    MonitorStepTellsCurrent(cfg, s, c, w);
  }

  lemma MonitorStepTellsIt(cfg: Config, s: State, c: Ch, w: MonitorStep)
    requires Told(s) && MonitorCan(cfg, s, c, w) && !(w.TryReconnect? && ReconnectDecision(s, w.usable).Installed?)
    ensures var t := ApplyMonitor(cfg, s, c, w); c in t.monitors && MonitorTold(t, c)
  {
    hide Install, CurrentTold;
    assert MonitorTold(s, c);
  }

  lemma MonitorStepTellsCurrent(cfg: Config, s: State, c: Ch, w: MonitorStep)
    requires FieldsOk(s) && Told(s) && MonitorCan(cfg, s, c, w) && !(w.TryReconnect? && ReconnectDecision(s, w.usable).Installed?)
    ensures var t := ApplyMonitor(cfg, s, c, w); t.current in t.monitors && CurrentTold(t)
  {
    hide Install;
    assert MonitorTold(s, c) && MonitorTold(s, s.current);
  }

  /** The others' signals are as they were, or more are closed. */
  lemma OthersStayTold(s: State, t: State, c: Ch)
    requires c in s.monitors && MonitorTold(s, c) && c in t.monitors && t.monitors[c] == s.monitors[c]
    requires s.signals <= t.signals && (t.done == s.done || s.done in t.signals) && (t.done != s.done ==> t.done >= s.nextSignal)
    requires s.monitors[c].Fired? ==> s.monitors[c].sig < s.nextSignal
    ensures MonitorTold(t, c)
  {
  }

  lemma FiredIsKnown(cfg: Config, s: State, c: Ch)
    requires MonitorsOk(cfg, s) && c in s.monitors
    ensures s.monitors[c].Fired? ==> s.monitors[c].sig < s.nextSignal
  {
    assert MonitorOk(cfg, s, c);
  }

  lemma MonitorKeepsTold(cfg: Config, s: State, c: Ch, w: MonitorStep)
    requires FieldsOk(s) && MonitorsOk(cfg, s) && Told(s) && MonitorCan(cfg, s, c, w)
    ensures Told(ApplyMonitor(cfg, s, c, w))
  {
    hide FieldsOk, MonitorsOk, MonitorTold, CurrentTold, DoneOk;
    var t := ApplyMonitor(cfg, s, c, w);
    if w.TryReconnect? && ReconnectDecision(s, w.usable).Installed? {
      GivenUnwatched(cfg, s, c);
      InstallTold(cfg, s, c, w);
    } else {
      MonitorStepTold(cfg, s, c, w);
    }
    forall d | d in t.monitors ensures MonitorTold(t, d) {
      if d in s.monitors && d != c && t.monitors[d] == s.monitors[d] {
        FiredIsKnown(cfg, s, d);
        OthersStayTold(s, t, d);
      } else if d != c {
        NewWatcherTold(t, d);
      }
    }
  }

  lemma GivenUnwatched(cfg: Config, s: State, c: Ch)
    requires MonitorsOk(cfg, s) && c in s.monitors && s.monitors[c].Offers()
    ensures s.monitors[c].given !in s.monitors
  {
    GivenIsUnwatched(cfg, s, c);
  }

  lemma NewWatcherTold(s: State, c: Ch)
    requires c in s.monitors && s.monitors[c] == Watching(s.done)
    ensures MonitorTold(s, c)
  {
  }

  lemma CallerStepTold(s: State, u: CallerStep)
    requires FieldsOk(s) && HolderOk(s) && Told(s) && CallerCan(s, u)
    ensures var t := ApplyCaller(s, u); DoneOk(t) && t.current in t.monitors && CurrentTold(t)
  {
    hide Quiet, OnWire, Unsent;
    assert MonitorTold(s, s.current);
  }

  lemma CallerKeepsTold(cfg: Config, s: State, u: CallerStep)
    requires FieldsOk(s) && HolderOk(s) && MonitorsOk(cfg, s) && Told(s) && CallerCan(s, u)
    ensures Told(ApplyCaller(s, u))
  {
    hide MonitorsOk, MonitorTold, CurrentTold, Quiet, OnWire, Unsent;
    var t := ApplyCaller(s, u);
    CallerStepTold(s, u);
    forall d | d in t.monitors ensures MonitorTold(t, d) {
      if d in s.monitors && t.monitors[d] == s.monitors[d] {
        FiredIsKnown(cfg, s, d);
        OthersStayTold(s, t, d);
      } else if u.PrepareEnd? {
        PreparedTold(t, d);
      } else {
        NewWatcherTold(t, d);
      }
    }
  }

  lemma PreparedTold(s: State, c: Ch)
    requires c in s.monitors && s.monitors[c].Prepared?
    ensures MonitorTold(s, c)
  {
  }

  lemma StepKeepsTold(cfg: Config, s: State, step: Step)
    requires Inv(cfg, s) && Told(s) && Enabled(cfg, s, step)
    ensures Told(Apply(cfg, s, step))
  {
    hide FieldsOk, HolderOk, UsableIsQuiet, Ledger, MonitorsOk, Told, ApplyBroker, ApplyPublish, ApplyMonitor, ApplyCaller;
    match step
    case Broker(b) => BrokerKeepsTold(s, b);
    case Publishing(p) => PublishKeepsTold(s, p);
    case Monitoring(c, w) => MonitorKeepsTold(cfg, s, c, w);
    case Calling(u) => CallerKeepsTold(cfg, s, u);
  }

  lemma {:induction false} RunKeepsTold(cfg: Config, s: State, steps: seq<Step>, t: State)
    requires Inv(cfg, s) && Told(s) && Run(cfg, s, steps, t)
    ensures Told(t)
    decreases |steps|
  {
    hide Inv, Told, Enabled, Apply;
    if steps != [] {
      StepKeepsTold(cfg, s, steps[0]);
      StepKeeps(cfg, s, steps[0]);
      RunKeepsTold(cfg, Apply(cfg, s, steps[0]), steps[1..], t);
    }
  }

  lemma ReachableTold(cfg: Config, s: State)
    requires Reachable(cfg, s)
    ensures Told(s)
  {
    hide Inv, Told;
    var c, steps :| Run(cfg, Init(c), steps, s);
    assert Run(cfg, Init(c), [], Init(c));
    ReachableKeeps(cfg, Init(c));
    StartTold(c);
    RunKeepsTold(cfg, Init(c), steps, s);
  }

  lemma StartTold(c: Ch)
    ensures Told(Init(c))
  {
  }

  /** A publish waiting on a channel whose monitor has done its work can always see that the publisher was closed. */
  lemma WaitersAreWoken(cfg: Config, s: State)
    requires Reachable(cfg, s) && s.holder.Waiting? && s.holder.ch in s.monitors
    requires !s.monitors[s.holder.ch].Watching? && !s.monitors[s.holder.ch].Fired?
    ensures PublishCan(s, SeeClosedSignal)
  {
    hide Reachable, UsableIsQuiet, Ledger, MonitorsOk, Unsent, OnWire;
    ReachableKeeps(cfg, s);
    ReachableTold(cfg, s);
  }

  /** A publisher that gave its channel up has told everybody, once the publish that gave it up has returned. */
  lemma GivenUpIsSignalled(cfg: Config, s: State)
    requires Reachable(cfg, s) && s.ch.None? && s.holder.Free?
    ensures s.closed && s.closedCh in s.signals
  {
    hide Reachable, UsableIsQuiet, Ledger, MonitorsOk, HolderOk;
    ReachableKeeps(cfg, s);
    ReachableTold(cfg, s);
  }

  /** `Close` stops every monitor and every recovery that has not ended. */
  lemma CloseTellsEverybody(cfg: Config, s: State, c: Ch)
    requires Reachable(cfg, s) && s.shutdown && c in s.monitors && c in s.channels
    ensures s.monitors[c].Watching? ==> MonitorCan(cfg, s, c, Stop)
    ensures s.monitors[c].Attempting? ==> MonitorCan(cfg, s, c, Abort)
  {
    hide Reachable;
    ReachableTold(cfg, s);
    assert MonitorTold(s, c);
    assert forall d: Signal | Heeds(s.monitors[c], d) :: d in s.signals;
  }

  /** A recovery is told to stop only by `Close` or by a later recovery taking over. */
  lemma RecoveryIsNotStoppedIdly(cfg: Config, s: State, c: Ch)
    requires Reachable(cfg, s) && MonitorCan(cfg, s, c, Abort) && s.monitors[c].stop == s.done
    ensures s.shutdown || s.holder.Preparing?
  {
    hide Reachable;
    ReachableTold(cfg, s);
  }

  // ---------- a dead channel is replaced, given up on, or closed for good ----------

  /** The channel dies, its close is noticed, and `prepareForRecovery` gives up the channel and renews the stop signal. */
  lemma Prepares(cfg: Config, s: State) returns (t: State)
    requires Inv(cfg, s) && cfg.hasProvider && s.holder.Free? && !s.shutdown && s.monitors[s.current].Watching?
    ensures Leads(cfg, s, t) && t.holder.Free? && t.closed && t.ch.None? && !t.shutdown && !t.recoveryExhausted
    ensures t.channels.Keys == s.channels.Keys && t.current == s.current
    ensures t.monitors == s.monitors[s.current := Prepared] && t.installed == s.installed && t.started == s.started
  {
    hide Leads, HolderOk, UsableIsQuiet, Ledger, MonitorsOk;
    var c := s.current;
    LeadsNowhere(cfg, s);
    LeadsOn(cfg, s, s, Broker(Die(c)));
    t := ApplyBroker(s, Die(c));
    LeadsOn(cfg, s, t, Monitoring(c, Fire));
    t := ApplyMonitor(cfg, t, c, Fire);
    LeadsOn(cfg, s, t, Monitoring(c, CloseSignal));
    t := ApplyMonitor(cfg, t, c, CloseSignal);
    LeadsOn(cfg, s, t, Monitoring(c, PrepareBegin));
    t := ApplyMonitor(cfg, t, c, PrepareBegin);
    t := EndsPreparing(cfg, s, t);
  }

  lemma EndsPreparing(cfg: Config, s: State, now: State) returns (t: State)
    requires Leads(cfg, s, now) && now.holder.Preparing? && LeftKnown(now, now.holder.left)
    ensures Leads(cfg, s, t) && t.holder.Free? && t.closed == now.closed && t.ch == now.ch && t.shutdown == now.shutdown
    ensures t.recoveryExhausted == now.recoveryExhausted && t.channels.Keys == now.channels.Keys && t.current == now.current
    ensures t.monitors == now.monitors[now.holder.monitor := Prepared] && t.installed == now.installed && t.started == now.started
  {
    hide Leads;
    t := now;
    if t.holder.left.Some? {
      LeadsOn(cfg, s, t, Calling(CloseLeft));
      t := ApplyCaller(t, CloseLeft);
    }
    LeadsOn(cfg, s, t, Calling(PrepareEnd));
    t := ApplyCaller(t, PrepareEnd);
  }

  /** When the provider has a usable channel, a dead one is replaced by it and publishing can go on. */
  lemma DeathIsRecovered(cfg: Config, s: State, d: Ch) returns (t: State)
    requires Reachable(cfg, s) && cfg.hasProvider && cfg.maxAttempts > 0 && s.holder.Free? && !s.shutdown
    requires s.current in s.channels && s.current in s.monitors && s.monitors[s.current].Watching? && d !in s.channels
    ensures Leads(cfg, s, t) && t.holder.Free? && !t.closed && !t.shutdown && !t.recoveryExhausted && t.ch == Some(d) && t.current == d
    ensures d in t.channels && t.channels[d].open && d in t.installed && d in t.monitors && t.monitors[d].Watching?
  {
    hide Reachable, Leads, Inv;
    ReachableKeeps(cfg, s);
    t := Prepares(cfg, s);
    var c := s.current;
    LeadsOn(cfg, s, t, Monitoring(c, ReadStop));
    t := ApplyMonitor(cfg, t, c, ReadStop);
    LeadsOn(cfg, s, t, Monitoring(c, ProviderGives(d, true)));
    t := ApplyMonitor(cfg, t, c, ProviderGives(d, true));
    LeadsOn(cfg, s, t, Monitoring(c, TryReconnect(true)));
    t := ApplyMonitor(cfg, t, c, TryReconnect(true));
  }

  lemma {:induction false} ProviderKeepsFailing(cfg: Config, s: State, now: State, c: Ch) returns (t: State)
    requires Leads(cfg, s, now) && c in now.monitors && c in now.channels && now.monitors[c].Attempting? && now.monitors[c].calls <= cfg.maxAttempts
    ensures Leads(cfg, s, t) && t.monitors.Keys == now.monitors.Keys && t == now.(monitors := t.monitors, recoveryExhausted := true)
    ensures t.monitors[c].Finished? && t.monitors[c].calls == cfg.maxAttempts
    decreases cfg.maxAttempts - now.monitors[c].calls
  {
    hide Leads;
    if now.monitors[c].calls == cfg.maxAttempts {
      LeadsOn(cfg, s, now, Monitoring(c, Exhaust));
      t := ApplyMonitor(cfg, now, c, Exhaust);
    } else {
      LeadsOn(cfg, s, now, Monitoring(c, ProviderFails));
      t := ProviderKeepsFailing(cfg, s, ApplyMonitor(cfg, now, c, ProviderFails), c);
    }
  }

  /** When the provider never has one, the recovery gives up after all its attempts, and publishes are told so. */
  lemma DeathIsGivenUpOn(cfg: Config, s: State, m: Msg) returns (t: State)
    requires Reachable(cfg, s) && cfg.hasProvider && s.holder.Free? && !s.shutdown && m !in s.started
    requires s.current in s.channels && s.current in s.monitors && s.monitors[s.current].Watching?
    ensures Leads(cfg, s, t) && t.holder.Free? && t.closed && m in t.results && t.results[m] == RecoveryExhausted
    ensures s.current in t.monitors && t.monitors[s.current].Finished? && t.monitors[s.current].calls == cfg.maxAttempts
  {
    hide Reachable, Leads, Inv;
    ReachableKeeps(cfg, s);
    t := Prepares(cfg, s);
    var c := s.current;
    LeadsOn(cfg, s, t, Monitoring(c, ReadStop));
    t := ApplyMonitor(cfg, t, c, ReadStop);
    t := ProviderKeepsFailing(cfg, s, t, c);
    LeadsOn(cfg, s, t, Publishing(Begin(m)));
    t := ApplyPublish(t, Begin(m));
  }

  /** A caller's own channel restores a closed publisher, and nothing is left of an exhausted recovery. */
  lemma ReconnectRestores(cfg: Config, s: State, d: Ch)
    requires Reachable(cfg, s) && s.holder.Free? && s.closed && !s.shutdown && d !in s.channels
    ensures CallerCan(s, Reconnect(d, true))
    ensures var t := ApplyCaller(s, Reconnect(d, true));
            && t.holder.Free? && !t.closed && !t.recoveryExhausted && t.ch == Some(d) && t.current == d
            && d in t.channels && t.channels[d].open && d in t.monitors && t.monitors[d].Watching?
    ensures ApplyCaller(s, Reconnect(d, false)) == s
  {
  }

  /** `Close` can always complete: it waits only for the lock, which is always given back. */
  lemma CloseCompletes(cfg: Config, s: State) returns (t: State)
    requires Reachable(cfg, s)
    ensures Leads(cfg, s, t) && t.shutdown && t.closed && t.holder.Free? && (!s.shutdown ==> !t.recoveryExhausted)
  {
    hide Reachable, Leads, Inv;
    ReachableKeeps(cfg, s);
    var free := LockIsReleased(cfg, s);
    t := free;
    InvParts(cfg, free);
    if !free.shutdown {
      LeadsOn(cfg, s, free, Calling(CloseBegin));
      t := EndsClosing(cfg, s, ApplyCaller(free, CloseBegin));
    }
  }

  lemma EndsClosing(cfg: Config, s: State, now: State) returns (t: State)
    requires Leads(cfg, s, now) && now.holder.Closing? && LeftKnown(now, now.holder.left)
    ensures Leads(cfg, s, t) && t.holder.Free? && t.shutdown == now.shutdown && t.closed == now.closed && t.recoveryExhausted == now.recoveryExhausted
  {
    hide Leads;
    t := now;
    if t.holder.left.Some? {
      LeadsOn(cfg, s, t, Calling(CloseLeft));
      t := ApplyCaller(t, CloseLeft);
    }
    LeadsOn(cfg, s, t, Calling(CloseEnd));
    t := ApplyCaller(t, CloseEnd);
  }

  /** Once `Close` has returned, no publish, `Reconnect` or second `Close` touches anything but its own answer. */
  lemma NothingMovesAfterClose(cfg: Config, s: State, step: Step)
    requires Reachable(cfg, s) && s.shutdown && s.holder.Free? && Enabled(cfg, s, step) && (step.Publishing? || step.Calling?)
    ensures var t := Apply(cfg, s, step); t == s.(started := t.started, results := t.results)
    ensures step.Calling? ==> Apply(cfg, s, step) == s
  {
    hide Reachable, HolderOk, UsableIsQuiet, Ledger, MonitorsOk;
    ReachableKeeps(cfg, s);
  }

  // ---------- what the provider was asked for and gave ----------

  /** How often a monitor asked the provider, and what it was given. */
  datatype Asked = Asked(calls: nat, given: set<Ch>)

  function AskedBy(m: Monitor): Asked {
    match m
    case Attempting(_, calls, obtained) => Asked(calls, obtained)
    case Reconnecting(_, calls, obtained, _) => Asked(calls, obtained)
    case Rejected(_, calls, obtained, _) => Asked(calls, obtained)
    case Finished(calls, obtained) => Asked(calls, obtained)
    case _ => Asked(0, {})
  }

  function Record(s: State, c: Ch): Asked { if c in s.monitors then AskedBy(s.monitors[c]) else Asked(0, {}) }

  function Asks(step: Step, c: Ch, before: Asked): Asked {
    if !step.Monitoring? || step.c != c then before
    else if step.w.ProviderFails? then Asked(before.calls + 1, before.given)
    else if step.w.ProviderGives? then Asked(before.calls + 1, before.given + {step.w.given})
    else before
  }

  /** What a run's own steps say of monitor `c`. */
  function AsksIn(steps: seq<Step>, c: Ch, before: Asked): Asked {
    if steps == [] then before else AsksIn(steps[1..], c, Asks(steps[0], c, before))
  }

  lemma MonitorRecords(cfg: Config, s: State, c: Ch, w: MonitorStep, d: Ch)
    requires MonitorCan(cfg, s, c, w) && (s.monitors[c].Offers() ==> s.monitors[c].given !in s.monitors)
    ensures Record(ApplyMonitor(cfg, s, c, w), d) == Asks(Monitoring(c, w), d, Record(s, d))
  {
  }

  lemma SameMonitorsRecord(s: State, t: State, d: Ch)
    requires t.monitors == s.monitors
    ensures Record(t, d) == Record(s, d)
  {
  }

  lemma CurrentIsWatched(cfg: Config, s: State)
    requires Inv(cfg, s)
    ensures s.monitors.Keys <= s.channels.Keys && HolderOk(s)
  {
  }

  lemma CallerRecords(s: State, u: CallerStep, d: Ch)
    requires CallerCan(s, u) && s.monitors.Keys <= s.channels.Keys && HolderOk(s)
    ensures Record(ApplyCaller(s, u), d) == Record(s, d)
  {
    hide Quiet, OnWire, Unsent;
  }

  lemma StepRecords(cfg: Config, s: State, step: Step, d: Ch)
    requires Inv(cfg, s) && Enabled(cfg, s, step)
    ensures Record(Apply(cfg, s, step), d) == Asks(step, d, Record(s, d))
  {
    hide UsableIsQuiet, Ledger, FieldsOk, HolderOk, MonitorsOk, Record, ApplyMonitor, ApplyPublish, ApplyCaller;
    match step
    case Broker(b) => SameMonitorsRecord(s, ApplyBroker(s, b), d);
    case Publishing(p) =>
      PublishKeepsMonitors(s, p);
      SameMonitorsRecord(s, ApplyPublish(s, p), d);
    case Monitoring(c, w) =>
      if s.monitors[c].Offers() {
        GivenUnwatched(cfg, s, c);
      }
      MonitorRecords(cfg, s, c, w, d);
    case Calling(u) =>
      CurrentIsWatched(cfg, s);
      CallerRecords(s, u, d);
  }

  lemma PublishKeepsMonitors(s: State, p: PublishStep)
    requires PublishCan(s, p)
    ensures ApplyPublish(s, p).monitors == s.monitors
  {
    if !p.Begin? {
      hide ApplyPublish;
      PublishTouches(s, p);
    }
  }

  lemma {:induction false} RunRecords(cfg: Config, s: State, steps: seq<Step>, t: State, c: Ch)
    requires Inv(cfg, s) && Run(cfg, s, steps, t)
    ensures Record(t, c) == AsksIn(steps, c, Record(s, c))
    decreases |steps|
  {
    hide Inv, Enabled, Apply, Record, Asks;
    if steps != [] {
      StepRecords(cfg, s, steps[0], c);
      StepKeeps(cfg, s, steps[0]);
      RunRecords(cfg, Apply(cfg, s, steps[0]), steps[1..], t, c);
    }
  }

  /** Over a whole run no monitor asks the provider more often than allowed, and between attempts or when it is done every
      channel it was given is in use or closed. */
  lemma ProviderIsUsedSparingly(cfg: Config, start: Ch, steps: seq<Step>, s: State, c: Ch)
    requires Run(cfg, Init(start), steps, s)
    ensures var asked := AsksIn(steps, c, Asked(0, {}));
            && asked.calls <= cfg.maxAttempts
            && (c in s.monitors && (s.monitors[c].Attempting? || s.monitors[c].Finished?) ==>
                  forall d | d in asked.given :: d in s.installed || (d in s.channels && !s.channels[d].open))
  {
    hide Run, Inv;
    assert Run(cfg, Init(start), [], Init(start)) by { EmptyRun(cfg, Init(start)); }
    ReachableKeeps(cfg, Init(start));
    RunRecords(cfg, Init(start), steps, s, c);
    assert Reachable(cfg, s);
    if c in s.monitors {
      RecoveryIsBounded(cfg, s, c);
    }
  }

  lemma EmptyRun(cfg: Config, s: State)
    ensures Run(cfg, s, [], s)
  {
  }

  // ---------- when a recovery runs ----------

  /** A recovery runs only for a channel that is closed, and only with a provider. */
  predicate RecoversOk(cfg: Config, s: State, c: Ch)
    requires c in s.monitors
  {
    match s.monitors[c]
    case Watching(_) => true
    case Finished(_, _) => true
    case Fired(_) => c in s.channels && !s.channels[c].open
    case _ => c in s.channels && !s.channels[c].open && cfg.hasProvider
  }

  predicate Exhausted(cfg: Config, s: State) {
    exists c | c in s.monitors :: s.monitors[c].Finished? && s.monitors[c].calls == cfg.maxAttempts
  }

  predicate RecoveriesOk(cfg: Config, s: State) {
    && (forall c | c in s.monitors :: RecoversOk(cfg, s, c))
    && (s.recoveryExhausted ==> Exhausted(cfg, s))
  }

  /** Channels only close and the other monitors stay. */
  lemma RecoversStays(cfg: Config, s: State, t: State, c: Ch)
    requires c in s.monitors && RecoversOk(cfg, s, c) && c in t.monitors && t.monitors[c] == s.monitors[c] && Frames(s, t)
    ensures RecoversOk(cfg, t, c)
  {
  }

  lemma ExhaustedStays(cfg: Config, s: State, t: State)
    requires Exhausted(cfg, s)
    requires forall c | c in s.monitors && s.monitors[c].Finished? :: c in t.monitors && t.monitors[c] == s.monitors[c]
    ensures Exhausted(cfg, t)
  {
    var c :| c in s.monitors && s.monitors[c].Finished? && s.monitors[c].calls == cfg.maxAttempts;
    assert t.monitors[c] == s.monitors[c];
  }

  lemma MonitorRecovers(cfg: Config, s: State, c: Ch, w: MonitorStep)
    requires MonitorCan(cfg, s, c, w) && RecoversOk(cfg, s, c) && Frames(s, ApplyMonitor(cfg, s, c, w))
    requires s.monitors[c].Offers() ==> s.monitors[c].given !in s.monitors
    ensures var t := ApplyMonitor(cfg, s, c, w);
            && RecoversOk(cfg, t, c)
            && (forall d | d in t.monitors && d != c :: if d in s.monitors then t.monitors[d] == s.monitors[d] else t.monitors[d].Watching?)
            && (t.recoveryExhausted && !s.recoveryExhausted ==> Exhausted(cfg, t))
            && (forall d | d in s.monitors && s.monitors[d].Finished? :: d in t.monitors && t.monitors[d] == s.monitors[d])
  {
    var t := ApplyMonitor(cfg, s, c, w);
    if w.Exhaust? {
      assert t.monitors[c].Finished? && t.monitors[c].calls == cfg.maxAttempts;
    }
  }

  lemma CallerRecovers(cfg: Config, s: State, u: CallerStep)
    requires CallerCan(s, u) && HolderOk(s) && s.monitors.Keys <= s.channels.Keys
    requires forall c | c in s.monitors :: RecoversOk(cfg, s, c)
    requires Frames(s, ApplyCaller(s, u))
    ensures var t := ApplyCaller(s, u);
            && (forall c | c in t.monitors :: RecoversOk(cfg, t, c)) && (t.recoveryExhausted ==> s.recoveryExhausted)
            && (forall d | d in s.monitors && s.monitors[d].Finished? :: d in t.monitors && t.monitors[d] == s.monitors[d])
  {
    hide Quiet, OnWire, Unsent;
    var t := ApplyCaller(s, u);
    forall c | c in t.monitors ensures RecoversOk(cfg, t, c) {
      if c in s.monitors {
        assert RecoversOk(cfg, s, c);
      }
    }
  }

  lemma StepKeepsRecoveries(cfg: Config, s: State, step: Step)
    requires Inv(cfg, s) && RecoveriesOk(cfg, s) && Enabled(cfg, s, step)
    ensures RecoveriesOk(cfg, Apply(cfg, s, step))
  {
    hide FieldsOk, HolderOk, UsableIsQuiet, Ledger, MonitorsOk, Frames, RecoversOk, Exhausted, ApplyPublish, ApplyMonitor, ApplyCaller;
    var t := Apply(cfg, s, step);
    StepFrames(cfg, s, step);
    match step {
      case Broker(_) =>
      case Publishing(p) => PublishKeepsMonitors(s, p); PublishKeepsExhausted(s, p);
      case Monitoring(c, w) =>
        if s.monitors[c].Offers() {
          GivenUnwatched(cfg, s, c);
        }
        MonitorRecovers(cfg, s, c, w);
      case Calling(u) =>
        CurrentIsWatched(cfg, s);
        CallerRecovers(cfg, s, u);
    }
    if !step.Calling? {
      forall d | d in t.monitors ensures RecoversOk(cfg, t, d) {
        if d in s.monitors && t.monitors[d] == s.monitors[d] {
          RecoversStays(cfg, s, t, d);
        } else if t.monitors[d].Watching? {
          WatcherRecovers(cfg, t, d);
        }
      }
    }
    if t.recoveryExhausted && s.recoveryExhausted {
      ExhaustedStays(cfg, s, t);
    }
  }

  lemma WatcherRecovers(cfg: Config, s: State, c: Ch)
    requires c in s.monitors && s.monitors[c].Watching?
    ensures RecoversOk(cfg, s, c)
  {
  }

  lemma PublishKeepsExhausted(s: State, p: PublishStep)
    requires PublishCan(s, p)
    ensures ApplyPublish(s, p).recoveryExhausted == s.recoveryExhausted
  {
    if !p.Begin? {
      hide ApplyPublish;
      PublishTouches(s, p);
    }
  }

  lemma {:induction false} RunKeepsRecoveries(cfg: Config, s: State, steps: seq<Step>, t: State)
    requires Inv(cfg, s) && RecoveriesOk(cfg, s) && Run(cfg, s, steps, t)
    ensures RecoveriesOk(cfg, t)
    decreases |steps|
  {
    hide Inv, RecoveriesOk, Enabled, Apply;
    if steps != [] {
      StepKeepsRecoveries(cfg, s, steps[0]);
      StepKeeps(cfg, s, steps[0]);
      RunKeepsRecoveries(cfg, Apply(cfg, s, steps[0]), steps[1..], t);
    }
  }

  /** A recovery runs only for a closed channel and with a provider, and only one that used up its attempts is reported. */
  lemma RecoveriesAreWarranted(cfg: Config, s: State, c: Ch)
    requires Reachable(cfg, s) && c in s.monitors
    ensures RecoversOk(cfg, s, c) && (s.recoveryExhausted ==> Exhausted(cfg, s))
  {
    hide Inv, RecoversOk, Exhausted;
    var start, steps :| Run(cfg, Init(start), steps, s);
    assert Run(cfg, Init(start), [], Init(start));
    ReachableKeeps(cfg, Init(start));
    WatcherRecovers(cfg, Init(start), start);
    RunKeepsRecoveries(cfg, Init(start), steps, s);
  }
}
