/**
 What every run of the publisher keeps: a nil error means the broker acknowledged that very message
 and did not return it, `Close` is final, and recovery is bounded and leaks no channel.
 */
module PublisherSafety {
  import opened Text
  import opened Publisher

  /** Nothing is buffered, and nothing more can arrive for a message already given up on. */
  predicate Quiet(k: Channel) {
    k.confirms == [] && (k.pending == {} || !k.open)
  }

  predicate Unsent(s: State, m: Msg) {
    && m !in s.acked && m !in s.nacked && m !in s.returned
    && forall c | c in s.channels :: m !in s.channels[c].pending
  }

  function BouncesOf(s: State, m: Msg): seq<Msg> {
    if m in s.returned then [m] else []
  }

  /** The message on the wire is the only one its channel knows: pending, or answered and buffered. */
  predicate OnWire(s: State, m: Msg, k: Channel) {
    && k.bounces == BouncesOf(s, m)
    && if m in k.pending then k.pending == {m} && k.confirms == []
       else k.pending == {} && |k.confirms| == 1 && k.confirms[0].msg == m
            && (if k.confirms[0].ack then m in s.acked && m !in s.nacked else m in s.nacked)
  }

  /** What the holder of `publishMu` may rely on. */
  predicate HolderOk(s: State) {
    match s.holder
    case Draining(m, c, sig) => Published(s, m, c) && sig == s.closedCh && Unsent(s, m) && Quiet(s.channels[c])
    case Sending(m, c, sig) =>
      Published(s, m, c) && sig == s.closedCh && Unsent(s, m) && Quiet(s.channels[c]) && s.channels[c].bounces == []
    case Waiting(m, c, sig) => Published(s, m, c) && sig == s.closedCh && OnWire(s, m, s.channels[c])
    case Acked(m, c) =>
      && Published(s, m, c) && m in s.acked && m !in s.nacked
      && Quiet(s.channels[c]) && s.channels[c].pending == {} && s.channels[c].bounces == BouncesOf(s, m)
    case Corrupted(m, c) => Published(s, m, c) && m in s.gaveUp
    case Invalidated(m, c) => s.closed && s.ch.None? && m in s.started && m !in s.results && c in s.channels && m in s.gaveUp
    case Discarding(m, c) => s.closed && s.ch.None? && m in s.started && m !in s.results && c in s.channels && m in s.gaveUp
    case Preparing(c, left) => s.closed && s.ch.None? && c in s.monitors && s.monitors[c].Recovering? && LeftKnown(s, left)
    case Closing(left) => s.closed && s.shutdown && LeftKnown(s, left)
    case Free => true
  }

  /** The channel the holder is to close is a known one. */
  predicate LeftKnown(s: State, left: Option<Ch>) { left.Some? ==> left.value in s.channels }

  predicate Published(s: State, m: Msg, c: Ch) {
    m in s.started && m !in s.results && s.ch == Some(c) && c in s.channels
  }

  /** Between publishes, an open publisher's channel is quiet. */
  predicate UsableIsQuiet(s: State) {
    s.ch.Some? && s.ch.value in s.channels && !s.closed && !InFlight(s) ==> Quiet(s.channels[s.ch.value])
  }

  predicate FieldsOk(s: State) {
    && (s.shutdown ==> s.closed && !InFlight(s))
    && (s.ch.Some? ==> s.ch.value == s.current)
    && s.current in s.channels && s.channels[s.current].capable && s.current in s.monitors
    && (s.closedCh in s.signals ==> s.closed)
    && s.closedCh < s.nextSignal && s.done < s.nextSignal
    && (forall x | x in s.signals :: x < s.nextSignal)
  }

  predicate MessagesOk(s: State) {
    && (forall c, m | c in s.channels && m in s.channels[c].pending ::
          m in s.started && m !in s.acked && m !in s.nacked)
    && (forall c, d, m | c in s.channels && d in s.channels && m in s.channels[c].pending && m in s.channels[d].pending ::
          c == d)
    && s.acked + s.nacked + s.returned <= s.started
    && s.results.Keys <= s.started
  }

  /** The verdict behind each outcome, and that the broker has nothing left to say about it. */
  predicate VerdictOk(s: State, m: Msg)
    requires m in s.results
  {
    match s.results[m]
    case Delivered => m in s.acked && m !in s.nacked && m !in s.returned && Answered(s, m)
    case Returned => m in s.acked && m !in s.nacked && m in s.returned
    case Nacked => m in s.nacked
    case SendFailed => Unsent(s, m)
    case NotReady => Unsent(s, m)
    case StreamCorrupted => m in s.gaveUp
    case _ => true
  }

  predicate Answered(s: State, m: Msg) {
    forall c | c in s.channels :: m !in s.channels[c].pending
  }

  predicate ResultsOk(s: State) {
    forall m | m in s.results :: VerdictOk(s, m)
  }

  /** A recovery stays within its attempts, and every channel it has dealt with is in use or closed. */
  predicate MonitorOk(cfg: Config, s: State, c: Ch)
    requires c in s.monitors
  {
    match s.monitors[c]
    case Fired(sig) => sig < s.nextSignal && (sig == s.closedCh ==> s.closed)
    case Attempting(_, calls, obtained) => calls <= cfg.maxAttempts && (forall d | d in obtained :: Settled(s, d))
    case Reconnecting(_, calls, obtained, given) =>
      && calls <= cfg.maxAttempts && given in s.channels && given !in s.monitors
      && (forall d | d in obtained && d != given :: Settled(s, d))
      && s.channels[given].pending == {} && s.channels[given].confirms == []
    case Rejected(_, calls, obtained, given) =>
      && calls <= cfg.maxAttempts && given in s.channels && given !in s.monitors
      && (forall d | d in obtained && d != given :: Settled(s, d))
    case Finished(calls, obtained) => calls <= cfg.maxAttempts && (forall d | d in obtained :: Settled(s, d))
    case _ => true
  }

  predicate Settled(s: State, c: Ch) {
    c in s.channels && (c in s.installed || !s.channels[c].open)
  }

  predicate MonitorsOk(cfg: Config, s: State) {
    && (forall c | c in s.monitors :: c in s.channels && MonitorOk(cfg, s, c))
    && OffersDiffer(s)
  }

  /** No two recoveries hold the same channel. */
  predicate OffersDiffer(s: State) {
    forall c, d | c in s.monitors && d in s.monitors && s.monitors[c].Offers() && s.monitors[d].Offers()
                  && s.monitors[c].given == s.monitors[d].given :: c == d
  }

  /** The publisher's own fields, and what the holder of `publishMu` relies on. */
  predicate Local(s: State) {
    FieldsOk(s) && HolderOk(s) && UsableIsQuiet(s)
  }

  predicate Ledger(s: State) {
    MessagesOk(s) && ResultsOk(s)
  }

  predicate Core(s: State) {
    Local(s) && Ledger(s)
  }

  predicate Inv(cfg: Config, s: State) {
    Core(s) && MonitorsOk(cfg, s)
  }


  // ---------- monitors ----------

  /** A channel is left as it was, or only closes. */
  predicate OnlyCloses(k: Channel, l: Channel) {
    l == k || l == k.(open := false)
  }

  /** What a step may do under a monitor that does not take part in it. */
  predicate Frames(s: State, t: State) {
    && s.installed <= t.installed && s.nextSignal <= t.nextSignal
    && ((s.closedCh == t.closedCh && (s.closed ==> t.closed)) || t.closedCh == s.nextSignal)
    && (forall c | c in s.channels :: c in t.channels && (t.channels[c].open ==> s.channels[c].open))
    && (forall c | c in s.channels && c != s.current && s.channels[c].pending == {} :: OnlyCloses(s.channels[c], t.channels[c]))
  }

  lemma BystanderKeeps(cfg: Config, s: State, t: State, c: Ch)
    requires FieldsOk(s) && c in s.monitors && MonitorOk(cfg, s, c) && Frames(s, t)
    requires c in t.monitors && t.monitors[c] == s.monitors[c]
    requires s.monitors[c].Offers() ==> s.monitors[c].given !in t.monitors
    ensures MonitorOk(cfg, t, c)
  {
  }

  /** What a monitor holds is new, or what it held before. */
  predicate OfferIsOwn(s: State, t: State, c: Ch)
    requires c in s.monitors && c in t.monitors
  {
    t.monitors[c].Offers() ==>
      t.monitors[c].given !in s.channels || (s.monitors[c].Offers() && s.monitors[c].given == t.monitors[c].given)
  }

  lemma OffersStayApart(s: State, t: State, c: Ch, added: set<Ch>)
    requires OffersDiffer(s) && c in s.monitors && t.monitors.Keys == s.monitors.Keys + added
    requires forall d | d in s.monitors && s.monitors[d].Offers() :: s.monitors[d].given in s.channels
    requires forall d | d in s.monitors && d != c && d !in added :: t.monitors[d] == s.monitors[d]
    requires forall d | d in added :: t.monitors[d].Watching?
    requires c !in added && OfferIsOwn(s, t, c)
    ensures OffersDiffer(t)
  {
  }

  /** One monitor moves on, and at most one channel gains a monitor. */
  lemma MonitorMoves(cfg: Config, s: State, t: State, c: Ch, added: set<Ch>)
    requires FieldsOk(s) && MonitorsOk(cfg, s) && Frames(s, t)
    requires t.monitors.Keys == s.monitors.Keys + added && added <= t.channels.Keys && added !! s.monitors.Keys
    requires c in s.monitors && MonitorOk(cfg, t, c)
    requires forall d | d in s.monitors && d != c :: t.monitors[d] == s.monitors[d]
    requires forall d | d in added :: t.monitors[d].Watching?
    requires forall d | d in s.monitors && d != c && s.monitors[d].Offers() :: s.monitors[d].given !in added
    requires OfferIsOwn(s, t, c)
    ensures MonitorsOk(cfg, t)
  {
    hide FieldsOk, OffersDiffer, OfferIsOwn, Frames, MonitorOk;
    forall d | d in s.monitors && s.monitors[d].Offers()
      ensures s.monitors[d].given in s.channels && s.monitors[d].given !in s.monitors
    {
      GivenIsUnwatched(cfg, s, d);
    }
    OffersStayApart(s, t, c, added);
    FramesKeepChannels(s, t);
    forall d | d in t.monitors
      ensures d in t.channels && MonitorOk(cfg, t, d)
    {
      if d in added {
        WatchingIsOk(cfg, t, d);
      } else if d != c {
        BystanderKeeps(cfg, s, t, d);
      }
    }
  }

  lemma WatchingIsOk(cfg: Config, s: State, c: Ch)
    requires c in s.monitors && s.monitors[c].Watching?
    ensures MonitorOk(cfg, s, c)
  {
  }

  lemma FramesKeepChannels(s: State, t: State)
    requires Frames(s, t)
    ensures s.channels.Keys <= t.channels.Keys
  {
  }

  lemma MonitorsUntouched(cfg: Config, s: State, t: State)
    requires FieldsOk(s) && MonitorsOk(cfg, s) && Frames(s, t) && t.monitors == s.monitors
    ensures MonitorsOk(cfg, t)
  {
    forall c | c in t.monitors
      ensures MonitorOk(cfg, t, c)
    {
      BystanderKeeps(cfg, s, t, c);
    }
  }


  // ---------- the ledger of verdicts ----------

  function PendingOn(s: State, c: Ch): set<Msg> {
    if c in s.channels then s.channels[c].pending else {}
  }

  /** The broker says nothing and nothing is sent. */
  predicate Silent(s: State, t: State) {
    && t.acked == s.acked && t.nacked == s.nacked && t.returned == s.returned && s.started <= t.started && s.gaveUp <= t.gaveUp
    && forall c | c in t.channels :: t.channels[c].pending == PendingOn(s, c)
  }

  lemma VerdictStays(s: State, t: State, m: Msg)
    requires Silent(s, t) && m in s.results && VerdictOk(s, m)
    requires m in t.results && t.results[m] == s.results[m]
    ensures VerdictOk(t, m)
  {
  }

  lemma SilentKeepsLedger(s: State, t: State)
    requires Ledger(s) && Silent(s, t) && t.results == s.results
    ensures Ledger(t)
  {
    forall m | m in t.results
      ensures VerdictOk(t, m)
    {
      VerdictStays(s, t, m);
    }
  }

  lemma FinishKeepsLedger(s: State, t: State, m: Msg)
    requires Ledger(s) && Silent(s, t) && m in t.started
    requires t.results.Keys == s.results.Keys + {m} && VerdictOk(t, m)
    requires forall n | n in s.results && n != m :: t.results[n] == s.results[n]
    ensures Ledger(t)
  {
    forall n | n in t.results && n != m
      ensures VerdictOk(t, n)
    {
      VerdictStays(s, t, n);
    }
  }

  lemma BrokerReturnKeepsLedger(s: State, b: BrokerStep)
    requires Ledger(s) && BrokerCan(s, b) && b.Return?
    ensures Ledger(ApplyBroker(s, b))
  {
    var t := ApplyBroker(s, b);
    forall m | m in t.results
      ensures VerdictOk(t, m)
    {
      assert VerdictOk(s, m);
    }
  }

  /** The broker answers only what is pending, so it never speaks about a message already answered. */
  lemma BrokerConfirmKeepsLedger(s: State, b: BrokerStep)
    requires Ledger(s) && BrokerCan(s, b) && b.Confirm?
    ensures Ledger(ApplyBroker(s, b))
  {
    var t := ApplyBroker(s, b);
    assert forall c | c in t.channels :: t.channels[c].pending <= s.channels[c].pending;
    forall m | m in t.results
      ensures VerdictOk(t, m)
    {
      assert VerdictOk(s, m);
    }
  }

  lemma BrokerKeepsLedger(s: State, b: BrokerStep)
    requires Ledger(s) && BrokerCan(s, b)
    ensures Ledger(ApplyBroker(s, b))
  {
    match b
    case Return(_, _) => BrokerReturnKeepsLedger(s, b);
    case Confirm(_, _, _) => BrokerConfirmKeepsLedger(s, b);
    case Die(_) => SilentKeepsLedger(s, ApplyBroker(s, b));
  }

  lemma SendKeepsLedger(s: State)
    requires Local(s) && Ledger(s) && PublishCan(s, SendOk)
    ensures Ledger(ApplyPublish(s, SendOk))
  {
    var t := ApplyPublish(s, SendOk);
    forall m | m in t.results
      ensures VerdictOk(t, m)
    {
      assert VerdictOk(s, m) && m != s.holder.msg;
    }
  }

  lemma BeginKeepsLedger(s: State, m: Msg)
    requires Ledger(s) && m !in s.started
    ensures Ledger(ApplyBegin(s, m))
  {
    var t := ApplyBegin(s, m);
    if !s.closed && s.ch.Some? {
      SilentKeepsLedger(s, t);
    } else {
      FinishKeepsLedger(s, t, m);
    }
  }

  /** An acknowledged message is pending nowhere. */
  lemma AckedIsAnswered(s: State, m: Msg)
    requires Ledger(s) && m in s.acked
    ensures Answered(s, m)
  {
  }

  /** What a publish in flight knows when it is about to return. */
  lemma HolderKnows(s: State)
    requires HolderOk(s) && InFlight(s)
    ensures s.holder.msg in s.started && s.holder.ch in s.channels
    ensures s.holder.Sending? ==> Unsent(s, s.holder.msg)
    ensures s.holder.Discarding? ==> s.holder.msg in s.gaveUp
    ensures var k := s.channels[s.holder.ch];
            s.holder.Waiting? && k.confirms != [] && !k.confirms[0].ack ==> s.holder.msg in s.nacked
    ensures s.holder.Acked? ==> s.holder.msg in s.acked && s.holder.msg !in s.nacked
                                && s.channels[s.holder.ch].bounces == BouncesOf(s, s.holder.msg)
  {
    hide Quiet, Unsent, BouncesOf;
  }

  /** The fields a publish in flight may touch. */
  lemma AdvanceTouches(s: State, p: PublishStep, m: Msg, c: Ch, k: Channel)
    requires (p.DrainReturn? ==> k.bounces != []) && (p.TakeConfirm? ==> k.confirms != [])
    ensures var t := Advance(s, p, m, c, k);
            && t == s.(ch := t.ch, closed := t.closed, signals := t.signals, channels := t.channels, holder := t.holder,
                       gaveUp := t.gaveUp, results := t.results)
  {
  }

  lemma AdvanceSignals(s: State, p: PublishStep, m: Msg, c: Ch, k: Channel)
    requires (p.DrainReturn? ==> k.bounces != []) && (p.TakeConfirm? ==> k.confirms != [])
    ensures var t := Advance(s, p, m, c, k);
            s.gaveUp <= t.gaveUp && (t.signals == s.signals || t.signals == s.signals + {s.closedCh})
  {
  }

  /** Only its own channel changes, and only sending adds to what is pending there. */
  lemma AdvanceTouchesChannel(s: State, p: PublishStep, m: Msg, c: Ch, k: Channel)
    requires (p.DrainReturn? ==> k.bounces != []) && (p.TakeConfirm? ==> k.confirms != [])
    requires c in s.channels && k == s.channels[c]
    ensures var t := Advance(s, p, m, c, k);
            || (t.channels == s.channels && !p.SendOk?)
            || (c in t.channels && t.channels == s.channels[c := t.channels[c]] && (t.channels[c].open ==> k.open)
                && t.channels[c].pending == if p.SendOk? then k.pending + {m} else k.pending)
  {
  }

  lemma PublishTouches(s: State, p: PublishStep)
    requires PublishCan(s, p) && !p.Begin?
    ensures var t, c := ApplyPublish(s, p), s.holder.ch;
            && t == s.(ch := t.ch, closed := t.closed, signals := t.signals, channels := t.channels, holder := t.holder,
                       gaveUp := t.gaveUp, results := t.results)
            && s.gaveUp <= t.gaveUp && (t.signals == s.signals || t.signals == s.signals + {s.closedCh})
            && c in t.channels && t.channels == s.channels[c := t.channels[c]]
            && t.channels[c].pending == (if p.SendOk? then s.channels[c].pending + {s.holder.msg} else s.channels[c].pending)
            && (t.channels[c].open ==> s.channels[c].open)
  {
    hide Advance;
    AdvanceTouches(s, p, s.holder.msg, s.holder.ch, s.channels[s.holder.ch]);
    AdvanceSignals(s, p, s.holder.msg, s.holder.ch, s.channels[s.holder.ch]);
    AdvanceTouchesChannel(s, p, s.holder.msg, s.holder.ch, s.channels[s.holder.ch]);
    assert s.channels == s.channels[s.holder.ch := s.channels[s.holder.ch]];
  }

  lemma PublishIsSilent(s: State, p: PublishStep)
    requires PublishCan(s, p) && !p.Begin? && !p.SendOk?
    ensures Silent(s, ApplyPublish(s, p))
  {
    hide ApplyPublish;
    PublishTouches(s, p);
  }

  /** A publish that returns does so with the verdict it has seen. */
  lemma PublishKeepsLedger(s: State, p: PublishStep)
    requires Local(s) && Ledger(s) && PublishCan(s, p)
    ensures Ledger(ApplyPublish(s, p))
  {
    hide Ledger, HolderOk, FieldsOk, UsableIsQuiet, Silent, Answered;
    if p.Begin? {
      BeginKeepsLedger(s, p.m);
    } else if p.SendOk? {
      SendKeepsLedger(s);
    } else {
      var t := ApplyPublish(s, p);
      HolderKnows(s);
      PublishIsSilent(s, p);
      if p.SendFail? || p.SeeConfirmsClosed? || p.SeeClosedSignal? || p.Discard? || p.TakeReturn?
         || (p.TakeConfirm? && !s.channels[s.holder.ch].confirms[0].ack) {
        if p.TakeReturn? {
          AckedIsAnswered(s, s.holder.msg);
          AnsweredStays(s, t, s.holder.msg);
        }
        FinishKeepsLedger(s, t, s.holder.msg);
      } else {
        SilentKeepsLedger(s, t);
      }
    }
  }

  lemma AnsweredStays(s: State, t: State, m: Msg)
    requires Silent(s, t) && Answered(s, m)
    ensures Answered(t, m)
  {
  }

  lemma MonitorKeepsLedger(cfg: Config, s: State, c: Ch, w: MonitorStep)
    requires Ledger(s) && MonitorCan(cfg, s, c, w)
    ensures Ledger(ApplyMonitor(cfg, s, c, w))
  {
    SilentKeepsLedger(s, ApplyMonitor(cfg, s, c, w));
  }

  lemma CallerKeepsLedger(s: State, u: CallerStep)
    requires Ledger(s) && CallerCan(s, u)
    ensures Ledger(ApplyCaller(s, u))
  {
    SilentKeepsLedger(s, ApplyCaller(s, u));
  }

  // ---------- the publisher's own fields ----------

  lemma ConfirmKeepsLocal(s: State, b: BrokerStep)
    requires Local(s) && MessagesOk(s) && BrokerCan(s, b) && b.Confirm?
    ensures Local(ApplyBroker(s, b))
  {
    var t := ApplyBroker(s, b);
    assert forall c | c in t.channels :: t.channels[c].pending <= s.channels[c].pending;
    if s.holder.Waiting? && b.c == s.holder.ch {
      assert b.m == s.holder.msg;
      assert t.channels[b.c].pending == {} && t.channels[b.c].confirms == [Confirmation(b.m, b.ack)];
    }
  }

  /** A return or a confirmation lands on the message in flight, or on a channel nobody will read again. */
  lemma BrokerKeepsLocal(s: State, b: BrokerStep)
    requires Local(s) && MessagesOk(s) && BrokerCan(s, b)
    ensures Local(ApplyBroker(s, b))
  {
    if b.Confirm? {
      ConfirmKeepsLocal(s, b);
    }
  }

  lemma BeginKeepsLocal(s: State, m: Msg)
    requires Local(s) && MessagesOk(s) && s.holder.Free? && m !in s.started
    ensures Local(ApplyBegin(s, m))
  {
  }

  lemma PublishKeepsLocal(s: State, p: PublishStep)
    requires Local(s) && MessagesOk(s) && PublishCan(s, p)
    ensures Local(ApplyPublish(s, p))
  {
    if p.Begin? {
      BeginKeepsLocal(s, p.m);
    }
  }

  /** What the holder relies on outlives anything that only closes channels. */
  lemma HolderStays(s: State, t: State)
    requires HolderOk(s) && t.holder == s.holder && t.ch == s.ch && t.closedCh == s.closedCh && (s.closed ==> t.closed) && (s.shutdown ==> t.shutdown)
    requires t.started == s.started && t.results == s.results
    requires t.acked == s.acked && t.nacked == s.nacked && t.returned == s.returned && t.gaveUp == s.gaveUp
    requires forall c | c in s.channels :: c in t.channels && OnlyCloses(s.channels[c], t.channels[c])
    requires forall c | c in t.channels && c !in s.channels :: t.channels[c].pending == {}
    requires s.holder.Preparing? && s.holder.monitor in s.monitors && s.monitors[s.holder.monitor].Recovering?
             ==> s.holder.monitor in t.monitors && t.monitors[s.holder.monitor].Recovering?
    ensures HolderOk(t)
  {
  }

  lemma MonitorKeepsHolder(cfg: Config, s: State, c: Ch, w: MonitorStep)
    requires FieldsOk(s) && HolderOk(s) && MonitorCan(cfg, s, c, w)
    ensures HolderOk(ApplyMonitor(cfg, s, c, w))
  {
    hide HolderOk;
    var t := ApplyMonitor(cfg, s, c, w);
    if w.TryReconnect? && ReconnectDecision(s, w.usable).Installed? {
      FreeHolder(t);
    } else if w.PrepareBegin? && !s.shutdown {
      PreparingHolder(t);
    } else {
      HolderStays(s, t);
    }
  }

  /** A monitor vouches for the signal it closes and for the unused channel it installs. */
  lemma MonitorKeepsLocal(cfg: Config, s: State, c: Ch, w: MonitorStep)
    requires Local(s) && MonitorCan(cfg, s, c, w) && MonitorOk(cfg, s, c)
    ensures Local(ApplyMonitor(cfg, s, c, w))
  {
    hide HolderOk;
    MonitorKeepsHolder(cfg, s, c, w);
  }

  lemma FreeHolder(s: State)
    requires s.holder.Free?
    ensures HolderOk(s)
  {
  }

  lemma PreparingHolder(s: State)
    requires s.holder.Preparing? && s.closed && s.ch.None? && LeftKnown(s, s.holder.left)
    requires s.holder.monitor in s.monitors && s.monitors[s.holder.monitor].Recovering?
    ensures HolderOk(s)
  {
  }

  lemma CallerKeepsLocal(s: State, u: CallerStep)
    requires Local(s) && CallerCan(s, u)
    ensures Local(ApplyCaller(s, u))
  {
  }

  // ---------- the monitors ----------

  lemma BrokerFrames(s: State, b: BrokerStep)
    requires BrokerCan(s, b)
    ensures Frames(s, ApplyBroker(s, b)) && ApplyBroker(s, b).monitors == s.monitors
  {
  }

  /** Only the current channel is touched, or a channel closes. */
  lemma TouchFrames(s: State, t: State, c: Ch, k: Channel)
    requires t.installed == s.installed && t.nextSignal == s.nextSignal && t.closedCh == s.closedCh && (s.closed ==> t.closed)
    requires c in s.channels && t.channels == s.channels[c := k] && (k.open ==> s.channels[c].open)
    requires c == s.current || OnlyCloses(s.channels[c], k)
    ensures Frames(s, t)
  {
  }

  lemma PublishFrames(s: State, p: PublishStep)
    requires FieldsOk(s) && HolderOk(s) && PublishCan(s, p)
    ensures Frames(s, ApplyPublish(s, p)) && ApplyPublish(s, p).monitors == s.monitors
  {
    hide Quiet, OnWire, Unsent, Frames;
    var t := ApplyPublish(s, p);
    if p.Begin? {
      TouchFrames(s, t, s.current, s.channels[s.current]);
    } else {
      TouchFrames(s, t, s.holder.ch, t.channels[s.holder.ch]);
    }
  }

  lemma MonitorFrames(cfg: Config, s: State, c: Ch, w: MonitorStep)
    requires FieldsOk(s) && HolderOk(s) && MonitorCan(cfg, s, c, w) && MonitorOk(cfg, s, c)
    ensures Frames(s, ApplyMonitor(cfg, s, c, w))
  {
  }

  lemma MonitorStaysOk(cfg: Config, s: State, c: Ch, w: MonitorStep)
    requires FieldsOk(s) && MonitorCan(cfg, s, c, w) && MonitorOk(cfg, s, c) && s.monitors.Keys <= s.channels.Keys
    ensures MonitorOk(cfg, ApplyMonitor(cfg, s, c, w), c)
  {
  }

  lemma GivenIsUnwatched(cfg: Config, s: State, c: Ch)
    requires c in s.monitors && MonitorOk(cfg, s, c) && s.monitors[c].Offers()
    ensures s.monitors[c].given in s.channels && s.monitors[c].given !in s.monitors
  {
  }

  lemma InstallKeepsMonitors(cfg: Config, s: State, c: Ch, w: MonitorStep)
    requires FieldsOk(s) && HolderOk(s) && MonitorsOk(cfg, s) && MonitorCan(cfg, s, c, w)
    requires w.TryReconnect? && ReconnectDecision(s, w.usable).Installed?
    ensures MonitorsOk(cfg, ApplyMonitor(cfg, s, c, w))
  {
    hide Frames, MonitorOk, HolderOk, FieldsOk;
    var t := ApplyMonitor(cfg, s, c, w);
    MonitorFrames(cfg, s, c, w);
    MonitorStaysOk(cfg, s, c, w);
    GivenIsUnwatched(cfg, s, c);
    MonitorMoves(cfg, s, t, c, {s.monitors[c].given});
  }

  lemma MonitorKeepsMonitors(cfg: Config, s: State, c: Ch, w: MonitorStep)
    requires FieldsOk(s) && HolderOk(s) && MonitorsOk(cfg, s) && MonitorCan(cfg, s, c, w)
    ensures MonitorsOk(cfg, ApplyMonitor(cfg, s, c, w))
  {
    hide Frames, MonitorOk, HolderOk, FieldsOk, OffersDiffer;
    var t := ApplyMonitor(cfg, s, c, w);
    if w.TryReconnect? && ReconnectDecision(s, w.usable).Installed? {
      InstallKeepsMonitors(cfg, s, c, w);
    } else {
      MonitorFrames(cfg, s, c, w);
      MonitorStaysOk(cfg, s, c, w);
      if w.PrepareBegin? && !s.shutdown {
        MonitorsUntouched(cfg, s, t);
      } else {
        MonitorMoves(cfg, s, t, c, {});
      }
    }
  }

  lemma CallerFrames(s: State, u: CallerStep)
    requires FieldsOk(s) && HolderOk(s) && CallerCan(s, u)
    ensures Frames(s, ApplyCaller(s, u))
  {
    hide Quiet, OnWire, Unsent;
  }

  /** The channel a caller brings is unknown to every monitor. */
  lemma ReconnectKeepsMonitors(cfg: Config, s: State, u: CallerStep)
    requires FieldsOk(s) && HolderOk(s) && MonitorsOk(cfg, s) && CallerCan(s, u) && u.Reconnect?
    ensures MonitorsOk(cfg, ApplyCaller(s, u))
  {
    hide Frames, HolderOk, FieldsOk;
    CallerFrames(s, u);
    var t := ApplyCaller(s, u);
    forall c | c in t.monitors && c != u.given
      ensures MonitorOk(cfg, t, c)
    {
      BystanderKeeps(cfg, s, t, c);
    }
  }

  lemma CallerKeepsMonitors(cfg: Config, s: State, u: CallerStep)
    requires FieldsOk(s) && HolderOk(s) && MonitorsOk(cfg, s) && CallerCan(s, u)
    ensures MonitorsOk(cfg, ApplyCaller(s, u))
  {
    hide Frames, FieldsOk;
    var t := ApplyCaller(s, u);
    CallerFrames(s, u);
    match u
    case PrepareEnd => MonitorMoves(cfg, s, t, s.holder.monitor, {});
    case Reconnect(_, _) => ReconnectKeepsMonitors(cfg, s, u);
    case _ => MonitorsUntouched(cfg, s, t);
  }

  // ---------- every step, every run ----------

  lemma StepKeeps(cfg: Config, s: State, step: Step)
    requires Inv(cfg, s) && Enabled(cfg, s, step)
    ensures Inv(cfg, Apply(cfg, s, step))
  {
    match step
    case Broker(b) =>
      BrokerKeepsLocal(s, b);
      BrokerKeepsLedger(s, b);
      BrokerFrames(s, b);
      MonitorsUntouched(cfg, s, ApplyBroker(s, b));
    case Publishing(p) =>
      PublishKeepsLocal(s, p);
      PublishKeepsLedger(s, p);
      PublishFrames(s, p);
      MonitorsUntouched(cfg, s, ApplyPublish(s, p));
    case Monitoring(c, w) =>
      MonitorKeepsLocal(cfg, s, c, w);
      MonitorKeepsLedger(cfg, s, c, w);
      MonitorKeepsMonitors(cfg, s, c, w);
    case Calling(u) =>
      CallerKeepsLocal(s, u);
      CallerKeepsLedger(s, u);
      CallerKeepsMonitors(cfg, s, u);
  }

  /** The invariant holds along every run of the publisher and its environment. */
  lemma {:induction false} RunKeeps(cfg: Config, s: State, steps: seq<Step>, t: State)
    requires Inv(cfg, s) && Run(cfg, s, steps, t)
    ensures Inv(cfg, t)
    decreases |steps|
  {
    if steps != [] {
      StepKeeps(cfg, s, steps[0]);
      RunKeeps(cfg, Apply(cfg, s, steps[0]), steps[1..], t);
    }
  }

  lemma {:induction false} RunOn(cfg: Config, s: State, steps: seq<Step>, t: State, step: Step)
    requires Run(cfg, s, steps, t) && Enabled(cfg, t, step)
    ensures Run(cfg, s, steps + [step], Apply(cfg, t, step))
    decreases |steps|
  {
    hide Enabled, Apply;
    if steps == [] {
      assert [step][1..] == [] && Run(cfg, Apply(cfg, t, step), [], Apply(cfg, t, step));
    } else {
      assert (steps + [step])[1..] == steps[1..] + [step];
      RunOn(cfg, Apply(cfg, s, steps[0]), steps[1..], t, step);
    }
  }

  lemma ReachableKeeps(cfg: Config, s: State)
    requires Reachable(cfg, s)
    ensures Inv(cfg, s)
  {
    var c, steps :| Run(cfg, Init(c), steps, s);
    RunKeeps(cfg, Init(c), steps, s);
  }

  // ---------- the promises ----------

  /** Each outcome tells the truth about that very message, in every interleaving. */
  lemma OutcomesAreTruthful(cfg: Config, s: State, m: Msg)
    requires Reachable(cfg, s) && m in s.results
    ensures s.results[m].Delivered? ==> m in s.acked && m !in s.nacked && m !in s.returned
    ensures s.results[m].Returned? ==> m in s.acked && m in s.returned
    ensures s.results[m].Nacked? ==> m in s.nacked
    ensures s.results[m].SendFailed? || s.results[m].NotReady? ==> m !in s.acked && m !in s.nacked && m !in s.returned
    ensures s.results[m].StreamCorrupted? ==> m in s.gaveUp
  {
    ReachableKeeps(cfg, s);
  }

  /** Messages only ever go out on channels that report confirmations and returns. */
  lemma PublishesAreConfirmed(cfg: Config, s: State)
    requires Reachable(cfg, s) && (s.holder.Sending? || s.holder.Waiting? || s.holder.Acked?)
    ensures s.holder.ch in s.channels && s.channels[s.holder.ch].capable
  {
    hide Reachable, UsableIsQuiet, Ledger, MonitorsOk, Quiet, OnWire, Unsent;
    ReachableKeeps(cfg, s);
  }

  /** A publish that waits can only ever receive its own confirmation, and at most one. */
  lemma NoStaleConfirmation(cfg: Config, s: State)
    requires Reachable(cfg, s) && s.holder.Waiting?
    ensures s.holder.ch in s.channels
    ensures var k := s.channels[s.holder.ch];
            k.confirms == [] || (|k.confirms| == 1 && k.confirms[0].msg == s.holder.msg)
  {
    ReachableKeeps(cfg, s);
  }

  /** A publish that waits finds exactly its own return, if the broker made one. */
  lemma NoStaleReturn(cfg: Config, s: State)
    requires Reachable(cfg, s) && (s.holder.Waiting? || s.holder.Acked?)
    ensures s.holder.ch in s.channels
    ensures s.channels[s.holder.ch].bounces == BouncesOf(s, s.holder.msg)
  {
    ReachableKeeps(cfg, s);
  }

  function DeliveredIn(s: State): set<Msg> {
    set m | m in s.results && s.results[m].Delivered?
  }

  lemma StepAfterShutdown(cfg: Config, s: State, step: Step)
    requires Core(s) && s.shutdown && Enabled(cfg, s, step)
    ensures Apply(cfg, s, step).shutdown && DeliveredIn(Apply(cfg, s, step)) == DeliveredIn(s)
  {
    var t := Apply(cfg, s, step);
    if step.Publishing? {
      assert step.p.Begin? && step.p.m !in s.results;
      assert t.results == s.results[step.p.m := if s.recoveryExhausted then RecoveryExhausted else PublisherClosed];
    } else {
      assert t.results == s.results;
    }
  }

  lemma {:induction false} RunAfterShutdown(cfg: Config, s: State, steps: seq<Step>, t: State)
    requires Inv(cfg, s) && s.shutdown && Run(cfg, s, steps, t)
    ensures Inv(cfg, t) && t.shutdown && DeliveredIn(t) == DeliveredIn(s)
    decreases |steps|
  {
    if steps != [] {
      StepKeeps(cfg, s, steps[0]);
      StepAfterShutdown(cfg, s, steps[0]);
      RunAfterShutdown(cfg, Apply(cfg, s, steps[0]), steps[1..], t);
    }
  }

  /** Once `Close` has taken effect no publish succeeds and every `Reconnect` is refused, for good. */
  lemma CloseIsFinal(cfg: Config, s: State, steps: seq<Step>, t: State, usable: bool)
    requires Reachable(cfg, s) && s.shutdown && Run(cfg, s, steps, t)
    ensures t.shutdown && t.closed && DeliveredIn(t) == DeliveredIn(s)
    ensures ReconnectDecision(t, usable) == AfterClose
  {
    ReachableKeeps(cfg, s);
    RunAfterShutdown(cfg, s, steps, t);
  }

  /** A recovery between attempts, or done, made at most `maxAttempts` calls and left no channel open and unused. */
  lemma RecoveryIsBounded(cfg: Config, s: State, c: Ch)
    requires Reachable(cfg, s) && c in s.monitors
    ensures var m := s.monitors[c];
            && (m.Attempting? || m.Reconnecting? || m.Rejected? || m.Finished? ==> m.calls <= cfg.maxAttempts)
            && (m.Attempting? || m.Finished? ==>
                  forall d | d in m.obtained :: d in s.installed || (d in s.channels && !s.channels[d].open))
  {
    ReachableKeeps(cfg, s);
  }
}
