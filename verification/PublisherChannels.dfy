/** Which channels the publisher leaves open: what `Close` closes, and when a replaced channel is forgotten open. */
module PublisherChannels {
  import opened Text
  import opened Publisher
  import opened PublisherSafety

  predicate IsOpen(s: State, c: Ch) { c in s.channels && s.channels[c].open }

  /** The holder of `publishMu` is on its way to close the current channel. */
  predicate AboutToClose(s: State) {
    match s.holder
    case Invalidated(_, c) => c == s.current
    case Discarding(_, c) => c == s.current
    case Preparing(_, left) => left == Some(s.current)
    case Closing(left) => left == Some(s.current)
    case _ => false
  }

  predicate Doomed(s: State) { !IsOpen(s, s.current) || AboutToClose(s) }

  /** A step that puts a new channel in place. */
  predicate Installs(s: State, step: Step) {
    match step
    case Calling(u) => u.Reconnect? && ReconnectDecision(s, u.usable).Installed?
    case Monitoring(_, w) => w.TryReconnect? && ReconnectDecision(s, w.usable).Installed?
    case _ => false
  }

  /** A close monitor that marks the publisher closed although its channel has been replaced. */
  predicate LateFire(s: State, step: Step) {
    step.Monitoring? && step.w.Fire? && step.c != s.current
  }

  lemma StepFrames(cfg: Config, s: State, step: Step)
    requires Inv(cfg, s) && Enabled(cfg, s, step)
    ensures Frames(s, Apply(cfg, s, step))
  {
    hide Frames, HolderOk, FieldsOk, UsableIsQuiet, Ledger, MonitorOk, OffersDiffer;
    match step
    case Broker(b) => BrokerFrames(s, b);
    case Publishing(p) => PublishFrames(s, p);
    case Monitoring(c, w) => MonitorFrames(cfg, s, c, w);
    case Calling(u) => CallerFrames(s, u);
  }

  lemma OpenOnlyCloses(s: State, t: State)
    requires Frames(s, t)
    ensures forall c | c in s.channels && IsOpen(t, c) :: IsOpen(s, c)
  {
  }

  // ---------- the current channel ----------

  lemma MonitorKeepsDoom(cfg: Config, s: State, c: Ch, w: MonitorStep)
    requires FieldsOk(s) && MonitorCan(cfg, s, c, w) && Doomed(s) && !Installs(s, Monitoring(c, w))
    requires var t := ApplyMonitor(cfg, s, c, w); IsOpen(t, s.current) ==> IsOpen(s, s.current)
    ensures Doomed(ApplyMonitor(cfg, s, c, w))
  {
  }

  lemma PublishKeepsDoom(s: State, p: PublishStep)
    requires FieldsOk(s) && HolderOk(s) && PublishCan(s, p) && Doomed(s)
    requires var t := ApplyPublish(s, p); IsOpen(t, s.current) ==> IsOpen(s, s.current)
    ensures Doomed(ApplyPublish(s, p))
  {
    hide Quiet, OnWire, Unsent;
  }

  lemma CallerKeepsDoom(s: State, u: CallerStep)
    requires FieldsOk(s) && CallerCan(s, u) && Doomed(s) && !Installs(s, Calling(u))
    requires var t := ApplyCaller(s, u); IsOpen(t, s.current) ==> IsOpen(s, s.current)
    ensures Doomed(ApplyCaller(s, u))
  {
  }

  /** A current channel that is closed, or about to be, stays so until it is replaced. */
  lemma DoomStays(cfg: Config, s: State, step: Step)
    requires Inv(cfg, s) && Enabled(cfg, s, step) && Doomed(s) && !Installs(s, step)
    ensures Doomed(Apply(cfg, s, step))
  {
    hide Frames, HolderOk, UsableIsQuiet, Ledger, MonitorsOk, Installs, ApplyPublish, ApplyMonitor, ApplyCaller;
    StepFrames(cfg, s, step);
    OpenOnlyCloses(s, Apply(cfg, s, step));
    match step
    case Broker(_) =>
    case Publishing(p) => PublishKeepsDoom(s, p);
    case Monitoring(c, w) => MonitorKeepsDoom(cfg, s, c, w);
    case Calling(u) => CallerKeepsDoom(s, u);
  }

  /** Without a channel, or shut down, the publisher has closed its channel or is about to. */
  predicate NothingLeftOpen(s: State) { s.ch.None? || s.shutdown ==> Doomed(s) }

  /** The channel is given up, the publisher shut down, or it learns of a close in time. */
  predicate Ends(s: State, t: State, late: bool) {
    (t.ch.None? && s.ch.Some?) || (t.shutdown && !s.shutdown) || (t.closed && !s.closed && !late)
  }

  lemma PublishEnds(s: State, p: PublishStep)
    requires FieldsOk(s) && HolderOk(s) && PublishCan(s, p) && Ends(s, ApplyPublish(s, p), false)
    ensures Doomed(ApplyPublish(s, p))
  {
    hide Quiet, OnWire, Unsent;
  }

  lemma MonitorEnds(cfg: Config, s: State, c: Ch, w: MonitorStep)
    requires FieldsOk(s) && MonitorCan(cfg, s, c, w) && NothingLeftOpen(s)
    requires Ends(s, ApplyMonitor(cfg, s, c, w), LateFire(s, Monitoring(c, w)))
    ensures Doomed(ApplyMonitor(cfg, s, c, w))
  {
  }

  lemma CallerEnds(s: State, u: CallerStep)
    requires FieldsOk(s) && CallerCan(s, u) && NothingLeftOpen(s) && Ends(s, ApplyCaller(s, u), false)
    ensures Doomed(ApplyCaller(s, u))
  {
  }

  lemma BecomesDoomed(cfg: Config, s: State, step: Step)
    requires Inv(cfg, s) && Enabled(cfg, s, step) && NothingLeftOpen(s)
    ensures Ends(s, Apply(cfg, s, step), LateFire(s, step)) ==> Doomed(Apply(cfg, s, step))
  {
    hide FieldsOk, HolderOk, UsableIsQuiet, Ledger, MonitorsOk, NothingLeftOpen, Doomed, ApplyPublish, ApplyMonitor, ApplyCaller;
    if Ends(s, Apply(cfg, s, step), LateFire(s, step)) {
      match step
      case Broker(_) =>
      case Publishing(p) => PublishEnds(s, p);
      case Monitoring(c, w) => MonitorEnds(cfg, s, c, w);
      case Calling(u) => CallerEnds(s, u);
    }
  }

  lemma InstalledIsFresh(cfg: Config, s: State, step: Step)
    requires Enabled(cfg, s, step) && Installs(s, step)
    ensures var t := Apply(cfg, s, step); t.ch.Some? && !t.shutdown && !t.closed
  {
  }

  lemma StepLeavesNothing(cfg: Config, s: State, step: Step)
    requires Inv(cfg, s) && Enabled(cfg, s, step) && NothingLeftOpen(s)
    ensures NothingLeftOpen(Apply(cfg, s, step))
  {
    hide Inv, Apply, Enabled, Doomed, Installs, LateFire;
    BecomesDoomed(cfg, s, step);
    if Installs(s, step) {
      InstalledIsFresh(cfg, s, step);
    } else if Doomed(s) {
      DoomStays(cfg, s, step);
    }
  }

  lemma {:induction false} RunLeavesNothing(cfg: Config, s: State, steps: seq<Step>, t: State)
    requires Inv(cfg, s) && NothingLeftOpen(s) && Run(cfg, s, steps, t)
    ensures NothingLeftOpen(t)
    decreases |steps|
  {
    hide Inv, Apply, Enabled, NothingLeftOpen;
    if steps != [] {
      StepLeavesNothing(cfg, s, steps[0]);
      StepKeeps(cfg, s, steps[0]);
      RunLeavesNothing(cfg, Apply(cfg, s, steps[0]), steps[1..], t);
    }
  }

  lemma ReachableLeavesNothing(cfg: Config, s: State)
    requires Reachable(cfg, s)
    ensures NothingLeftOpen(s)
  {
    hide Inv, NothingLeftOpen;
    var c, steps :| Run(cfg, Init(c), steps, s);
    StartLeavesNothing(cfg, c);
    RunLeavesNothing(cfg, Init(c), steps, s);
  }

  lemma StartLeavesNothing(cfg: Config, c: Ch)
    ensures Inv(cfg, Init(c)) && NothingLeftOpen(Init(c))
  {
    assert Run(cfg, Init(c), [], Init(c));
    ReachableKeeps(cfg, Init(c));
  }

  /** Once `Close` has returned, the publisher's channel is closed. */
  lemma CloseClosesChannel(cfg: Config, s: State)
    requires Reachable(cfg, s) && s.shutdown && s.holder.Free?
    ensures s.current in s.channels && !s.channels[s.current].open
  {
    hide Reachable, HolderOk, UsableIsQuiet, Ledger, MonitorsOk;
    ReachableLeavesNothing(cfg, s);
    ReachableKeeps(cfg, s);
  }

  // ---------- every open channel ----------

  predicate Offered(s: State, d: Ch) {
    exists c | c in s.monitors :: s.monitors[c].Offers() && s.monitors[c].given == d
  }

  /** Every open channel is the current one or in the hands of a recovery. */
  predicate Accounted(s: State) {
    forall d | d in s.channels && s.channels[d].open :: d == s.current || Offered(s, d)
  }

  lemma CurrentIsNotOffered(cfg: Config, s: State)
    requires FieldsOk(s) && MonitorsOk(cfg, s)
    ensures !Offered(s, s.current)
  {
    forall c | c in s.monitors && s.monitors[c].Offers() ensures s.monitors[c].given != s.current {
      GivenIsUnwatched(cfg, s, c);
    }
  }

  /** Installing a channel over one that is still open forgets the open one, and nothing else does. */
  lemma InstallAccounts(cfg: Config, s: State, step: Step)
    requires FieldsOk(s) && MonitorsOk(cfg, s) && Enabled(cfg, s, step) && Accounted(s) && Installs(s, step)
    ensures Accounted(Apply(cfg, s, step)) <==> !IsOpen(s, s.current)
  {
    hide MonitorOk, OffersDiffer;
    CurrentIsNotOffered(cfg, s);
    var t := Apply(cfg, s, step);
    var given := t.current;
    if step.Monitoring? {
      GivenIsUnwatched(cfg, s, step.c);
    }
    assert given !in s.monitors && given != s.current;
    forall d | d in t.monitors && t.monitors[d].Offers() ensures d in s.monitors && t.monitors[d] == s.monitors[d] {
    }
    forall d | IsOpen(s, d) && d != s.current && d != given ensures Offered(t, d) {
      assert Offered(s, d);
      var c :| c in s.monitors && s.monitors[c].Offers() && s.monitors[c].given == d;
      assert t.monitors[c] == s.monitors[c];
    }
    if IsOpen(s, s.current) {
      assert IsOpen(t, s.current) && !Offered(t, s.current);
    }
  }

  /** Channels only close, the current one stays, and every open channel that a recovery held is still held. */
  lemma AccountedStays(s: State, t: State)
    requires Accounted(s) && t.current == s.current
    requires forall d | d in s.channels && IsOpen(t, d) :: IsOpen(s, d)
    requires forall d | d in t.channels && d !in s.channels && IsOpen(t, d) :: Offered(t, d)
    requires forall c | c in s.monitors && s.monitors[c].Offers() :: Offered(t, s.monitors[c].given) || !IsOpen(t, s.monitors[c].given)
    ensures Accounted(t)
  {
    forall d | d in t.channels && t.channels[d].open ensures d == t.current || Offered(t, d) {
      if d in s.channels && d != s.current {
        assert IsOpen(s, d) && Offered(s, d);
      }
    }
  }

  lemma SameMonitorsAccount(s: State, t: State)
    requires Accounted(s) && t.current == s.current && t.monitors == s.monitors && t.channels.Keys == s.channels.Keys
    requires forall d | d in s.channels && IsOpen(t, d) :: IsOpen(s, d)
    ensures Accounted(t)
  {
    forall c | c in s.monitors && s.monitors[c].Offers() ensures Offered(t, s.monitors[c].given) {
      assert t.monitors[c] == s.monitors[c];
    }
    AccountedStays(s, t);
  }

  lemma OffersSurvive(s: State, t: State, c: Ch)
    requires c in s.monitors && c in t.monitors
    requires forall d | d in s.monitors && d != c :: d in t.monitors && t.monitors[d] == s.monitors[d]
    ensures forall d | d in s.monitors && d != c && s.monitors[d].Offers() :: Offered(t, s.monitors[d].given)
    ensures t.monitors[c].Offers() ==> Offered(t, t.monitors[c].given)
  {
    forall d | d in s.monitors && d != c && s.monitors[d].Offers() ensures Offered(t, s.monitors[d].given) {
      assert t.monitors[d] == s.monitors[d];
    }
  }

  lemma MonitorAccounts(cfg: Config, s: State, c: Ch, w: MonitorStep)
    requires FieldsOk(s) && MonitorCan(cfg, s, c, w) && Accounted(s) && !Installs(s, Monitoring(c, w))
    requires var t := ApplyMonitor(cfg, s, c, w); forall d | d in s.channels && IsOpen(t, d) :: IsOpen(s, d)
    ensures Accounted(ApplyMonitor(cfg, s, c, w))
  {
    hide FieldsOk, Accounted, Offered;
    var t := ApplyMonitor(cfg, s, c, w);
    OffersSurvive(s, t, c);
    AccountedStays(s, t);
  }

  lemma CallerAccounts(cfg: Config, s: State, u: CallerStep)
    requires FieldsOk(s) && HolderOk(s) && CallerCan(s, u) && Accounted(s) && !Installs(s, Calling(u))
    requires var t := ApplyCaller(s, u); forall d | d in s.channels && IsOpen(t, d) :: IsOpen(s, d)
    ensures Accounted(ApplyCaller(s, u))
  {
    hide FieldsOk, Accounted, Offered, Quiet, OnWire, Unsent;
    var t := ApplyCaller(s, u);
    if u.PrepareEnd? {
      OffersSurvive(s, t, s.holder.monitor);
      AccountedStays(s, t);
    } else {
      SameMonitorsAccount(s, t);
    }
  }

  lemma BeginTouches(s: State, m: Msg)
    requires PublishCan(s, Begin(m))
    ensures var t := ApplyPublish(s, Begin(m));
            t.channels == s.channels && t.monitors == s.monitors && t.current == s.current
  {
  }

  lemma PublishAccounts(s: State, p: PublishStep)
    requires PublishCan(s, p) && Accounted(s)
    requires var t := ApplyPublish(s, p); forall d | d in s.channels && IsOpen(t, d) :: IsOpen(s, d)
    ensures Accounted(ApplyPublish(s, p))
  {
    hide Accounted, ApplyPublish;
    if !p.Begin? {
      PublishTouches(s, p);
    } else {
      BeginTouches(s, p.m);
    }
    SameMonitorsAccount(s, ApplyPublish(s, p));
  }

  lemma BrokerAccounts(s: State, b: BrokerStep)
    requires BrokerCan(s, b) && Accounted(s)
    requires var t := ApplyBroker(s, b); forall d | d in s.channels && IsOpen(t, d) :: IsOpen(s, d)
    ensures Accounted(ApplyBroker(s, b))
  {
    hide Accounted;
    SameMonitorsAccount(s, ApplyBroker(s, b));
  }

  /** A step forgets an open channel exactly when it installs another over it. */
  lemma StepAccounts(cfg: Config, s: State, step: Step)
    requires Inv(cfg, s) && Enabled(cfg, s, step) && Accounted(s)
    ensures Accounted(Apply(cfg, s, step)) <==> !(Installs(s, step) && IsOpen(s, s.current))
  {
    hide FieldsOk, HolderOk, UsableIsQuiet, Ledger, MonitorsOk, Frames, Accounted, Installs, IsOpen, ApplyBroker, ApplyPublish, ApplyMonitor, ApplyCaller;
    if Installs(s, step) {
      InstallAccounts(cfg, s, step);
    } else {
      StepFrames(cfg, s, step);
      OpenOnlyCloses(s, Apply(cfg, s, step));
      match step
      case Broker(b) => BrokerAccounts(s, b);
      case Publishing(p) => PublishAccounts(s, p);
      case Monitoring(c, w) => MonitorAccounts(cfg, s, c, w);
      case Calling(u) => CallerAccounts(cfg, s, u);
    }
  }

  // ---------- without late monitors nothing is forgotten ----------

  /** A publisher marked closed has closed its channel or is about to. */
  predicate Prompt(s: State) { NothingLeftOpen(s) && (s.closed ==> Doomed(s)) }

  lemma InstallNeedsClosed(cfg: Config, s: State, step: Step)
    requires Enabled(cfg, s, step) && Installs(s, step)
    ensures s.closed && s.holder.Free?
  {
  }

  lemma StepStaysPrompt(cfg: Config, s: State, step: Step)
    requires Inv(cfg, s) && Enabled(cfg, s, step) && Prompt(s) && !LateFire(s, step)
    ensures Prompt(Apply(cfg, s, step))
  {
    hide Inv, Apply, Enabled, Doomed, Installs, LateFire;
    StepLeavesNothing(cfg, s, step);
    BecomesDoomed(cfg, s, step);
    if Installs(s, step) {
      InstalledIsFresh(cfg, s, step);
    } else if Doomed(s) {
      DoomStays(cfg, s, step);
    }
  }

  lemma PromptInstallForgetsNothing(cfg: Config, s: State, step: Step)
    requires Enabled(cfg, s, step) && Prompt(s) && Installs(s, step)
    ensures !IsOpen(s, s.current)
  {
    hide Enabled, Installs;
    InstallNeedsClosed(cfg, s, step);
  }

  ghost predicate NoLateFire(cfg: Config, s: State, steps: seq<Step>)
    decreases |steps|
  {
    steps != [] && Enabled(cfg, s, steps[0]) ==> !LateFire(s, steps[0]) && NoLateFire(cfg, Apply(cfg, s, steps[0]), steps[1..])
  }

  lemma {:induction false} RunAccounts(cfg: Config, s: State, steps: seq<Step>, t: State)
    requires Inv(cfg, s) && Prompt(s) && Accounted(s) && Run(cfg, s, steps, t) && NoLateFire(cfg, s, steps)
    ensures Accounted(t)
    decreases |steps|
  {
    hide Inv, Apply, Enabled, Prompt, Accounted, LateFire, Installs;
    if steps != [] {
      var step := steps[0];
      if Installs(s, step) {
        PromptInstallForgetsNothing(cfg, s, step);
      }
      StepAccounts(cfg, s, step);
      StepStaysPrompt(cfg, s, step);
      StepKeeps(cfg, s, step);
      RunAccounts(cfg, Apply(cfg, s, step), steps[1..], t);
    }
  }

  /** Unless a monitor fires late, no run leaves open a channel that is neither current nor held by a recovery. */
  lemma PromptMonitorsForgetNothing(cfg: Config, c: Ch, steps: seq<Step>, s: State)
    requires Run(cfg, Init(c), steps, s) && NoLateFire(cfg, Init(c), steps)
    ensures Accounted(s)
  {
    hide Inv, NoLateFire;
    StartLeavesNothing(cfg, c);
    RunAccounts(cfg, Init(c), steps, s);
  }

  // ---------- a late monitor can make the publisher forget an open channel ----------

  lemma ReachOn(cfg: Config, s: State, step: Step)
    requires Reachable(cfg, s) && Enabled(cfg, s, step)
    ensures Reachable(cfg, Apply(cfg, s, step))
  {
    hide Enabled, Apply, Run;
    var c, steps :| Run(cfg, Init(c), steps, s);
    RunOn(cfg, Init(c), steps, s, step);
  }

  /** Channel 0 is current, open and watched; a publish on it waits. */
  predicate WaitsOnFirst(s: State) {
    && s.holder.Waiting? && s.holder.ch == s.current == 0 && !s.shutdown
    && s.channels.Keys == s.monitors.Keys == {0} && s.monitors[0].Watching?
  }

  lemma Waits(cfg: Config) returns (s: State)
    ensures Reachable(cfg, s) && WaitsOnFirst(s)
  {
    hide Reachable;
    s := Init(0);
    StartIsReachable(cfg);
    ReachOn(cfg, s, Publishing(Begin(0)));
    s := ApplyPublish(s, Begin(0));
    ReachOn(cfg, s, Publishing(DrainEnd));
    s := ApplyPublish(s, DrainEnd);
    ReachOn(cfg, s, Publishing(SendOk));
    s := ApplyPublish(s, SendOk);
  }

  /** The publish times out: channel 0 is discarded, and its monitor has not noticed. */
  lemma Discarded(cfg: Config) returns (s: State)
    ensures Reachable(cfg, s) && s.holder.Free? && s.closed && !s.shutdown && s.current == 0
    ensures s.channels.Keys == s.monitors.Keys == {0} && !s.channels[0].open && s.monitors[0].Watching?
  {
    hide Reachable;
    s := Waits(cfg);
    ReachOn(cfg, s, Publishing(TimeoutOrCancel));
    s := ApplyPublish(s, TimeoutOrCancel);
    ReachOn(cfg, s, Publishing(MarkInvalid));
    s := ApplyPublish(s, MarkInvalid);
    ReachOn(cfg, s, Publishing(SignalInvalid));
    s := ApplyPublish(s, SignalInvalid);
    ReachOn(cfg, s, Publishing(Discard));
    s := ApplyPublish(s, Discard);
  }

  lemma StartIsReachable(cfg: Config)
    ensures Reachable(cfg, Init(0))
  {
    assert Run(cfg, Init(0), [], Init(0));
  }

  /** After a reconnect to channel 1, the late monitor of channel 0 and another reconnect leave channel 1 open for good. */
  lemma LateMonitorForgetsChannel(cfg: Config) returns (s: State)
    ensures Reachable(cfg, s) && s.current == 2 && IsOpen(s, 1) && !Offered(s, 1) && !Accounted(s)
  {
    hide Reachable;
    s := Discarded(cfg);
    ReachOn(cfg, s, Calling(Reconnect(1, true)));
    s := ApplyCaller(s, Reconnect(1, true));
    ReachOn(cfg, s, Monitoring(0, Fire));
    s := ApplyMonitor(cfg, s, 0, Fire);
    ReachOn(cfg, s, Calling(Reconnect(2, true)));
    s := ApplyCaller(s, Reconnect(2, true));
    assert IsOpen(s, 1);
  }
}
