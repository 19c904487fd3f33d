/**
 The other half of the publisher's promise: each publish answers what the broker said, whatever the broker says can be
 answered, and every publish, recovery and `Close` gives the lock back.
 */
module PublisherProgress {
  import opened Text
  import opened Publisher
  import opened PublisherSafety

  // ---------- from the broker's word to the answer ----------

  lemma WaitingHears(s: State)
    requires HolderOk(s) && s.holder.Waiting? && s.holder.ch in s.channels && s.channels[s.holder.ch].confirms != []
    ensures s.channels[s.holder.ch].confirms[0].ack ==> s.holder.msg in s.acked && s.holder.msg !in s.nacked
    ensures !s.channels[s.holder.ch].confirms[0].ack ==> s.holder.msg in s.nacked
  {
  }

  /** An acknowledged publish succeeds exactly when the broker did not return the message. */
  lemma AckedAnswers(cfg: Config, s: State)
    requires Reachable(cfg, s) && PublishCan(s, TakeReturn)
    ensures var m, t := s.holder.msg, ApplyPublish(s, TakeReturn);
            && m in t.results && t.results[m] == (if m in s.returned then Returned else Delivered) && t.holder.Free?
            && s.holder.ch in t.channels && t.channels[s.holder.ch].bounces == []
  {
    hide Reachable, FieldsOk, UsableIsQuiet, Ledger, MonitorsOk;
    ReachableKeeps(cfg, s);
    HolderKnows(s);
  }

  /** A waiting publish takes its own confirmation: a nack ends it, an ack sends it to look for a return. */
  lemma ConfirmedAnswers(cfg: Config, s: State)
    requires Reachable(cfg, s) && PublishCan(s, TakeConfirm)
    ensures var m, t := s.holder.msg, ApplyPublish(s, TakeConfirm);
            if m in s.nacked then m in t.results && t.results[m] == Nacked && t.holder.Free?
            else m in s.acked && m !in t.results && t.holder == Acked(m, s.holder.ch)
  {
    hide Reachable, FieldsOk, UsableIsQuiet, Ledger, MonitorsOk;
    ReachableKeeps(cfg, s);
    WaitingHears(s);
    NotAnsweredYet(s);
  }

  lemma NotAnsweredYet(s: State)
    requires HolderOk(s) && InFlight(s)
    ensures s.holder.msg !in s.results
  {
  }

  /** Why a publish answered as it did, for every answer and from every reachable state. */
  lemma AnswersHaveReasons(cfg: Config, s: State, p: PublishStep, m: Msg)
    requires Reachable(cfg, s) && PublishCan(s, p) && m !in s.results && m in ApplyPublish(s, p).results
    ensures match ApplyPublish(s, p).results[m]
            case Delivered => s.holder.Acked? && m == s.holder.msg && m in s.acked && m !in s.returned
            case Returned => s.holder.Acked? && m == s.holder.msg && m in s.returned
            case Nacked => s.holder.Waiting? && m == s.holder.msg && m in s.nacked
            case SendFailed => s.holder.Sending? && m == s.holder.msg
            case NotReady => p == Begin(m) && !s.closed && s.ch.None?
            case RecoveryExhausted => p == Begin(m) && s.closed && s.recoveryExhausted
            case PublisherClosed =>
              if p == Begin(m) then s.closed && !s.recoveryExhausted
              else s.holder.Waiting? && m == s.holder.msg && (s.closed || !s.channels[s.holder.ch].open)
            case StreamCorrupted => s.holder.Discarding? && m == s.holder.msg && m in s.gaveUp
  {
    hide Reachable, UsableIsQuiet, Ledger, MonitorsOk, Unsent;
    ReachableKeeps(cfg, s);
    if InFlight(s) {
      HolderKnows(s);
    }
  }

  // ---------- every verdict can be answered ----------

  ghost predicate Leads(cfg: Config, s: State, t: State) { exists steps :: Run(cfg, s, steps, t) }

  lemma LeadsOn(cfg: Config, s: State, t: State, step: Step)
    requires Leads(cfg, s, t) && Enabled(cfg, t, step)
    ensures Leads(cfg, s, Apply(cfg, t, step))
  {
    hide Enabled, Apply, Run;
    var steps :| Run(cfg, s, steps, t);
    RunOn(cfg, s, steps, t, step);
  }

  lemma LeadsNowhere(cfg: Config, s: State)
    ensures Leads(cfg, s, s)
  {
    assert Run(cfg, s, [], s);
  }

  /** Stale returns are drained before the message is sent. */
  lemma {:induction false} DrainsStale(cfg: Config, s: State, now: State) returns (t: State)
    requires Leads(cfg, s, now) && now.holder.Draining? && now.holder.ch in now.channels
    ensures Leads(cfg, s, t) && t.holder == Sending(now.holder.msg, now.holder.ch, now.holder.sig)
    ensures var c := now.holder.ch;
            t == now.(holder := t.holder, channels := now.channels[c := now.channels[c].(bounces := [])])
    decreases |now.channels[now.holder.ch].bounces|
  {
    hide Leads;
    var c := now.holder.ch;
    if now.channels[c].bounces == [] {
      LeadsOn(cfg, s, now, Publishing(DrainEnd));
      t := ApplyPublish(now, DrainEnd);
    } else {
      LeadsOn(cfg, s, now, Publishing(DrainReturn));
      t := DrainsStale(cfg, s, ApplyPublish(now, DrainReturn));
    }
  }

  /** A new publish on an open, quiet channel gets as far as waiting with only its own message on the wire. */
  lemma Sends(cfg: Config, s: State, m: Msg) returns (t: State)
    requires s.holder.Free? && !s.closed && s.ch.Some? && m !in s.started
    requires s.ch.value in s.channels && s.channels[s.ch.value].open
    ensures Leads(cfg, s, t) && t.holder == Waiting(m, s.ch.value, s.closedCh)
    ensures var c := s.ch.value;
            t == s.(holder := t.holder, started := s.started + {m},
                    channels := s.channels[c := s.channels[c].(bounces := [], pending := s.channels[c].pending + {m})])
  {
    hide Leads;
    LeadsNowhere(cfg, s);
    LeadsOn(cfg, s, s, Publishing(Begin(m)));
    t := ApplyPublish(s, Begin(m));
    t := DrainsStale(cfg, s, t);
    LeadsOn(cfg, s, t, Publishing(SendOk));
    t := ApplyPublish(t, SendOk);
  }

  lemma QuietChannel(cfg: Config, s: State)
    requires Inv(cfg, s) && s.holder.Free? && !s.closed && s.ch.Some? && s.channels[s.current].open
    ensures s.ch.value == s.current && s.current in s.channels
    ensures s.channels[s.current].pending == {} && s.channels[s.current].confirms == []
    ensures s.returned <= s.started && s.results.Keys <= s.started
  {
    hide HolderOk, ResultsOk, MonitorsOk;
  }

  function Verdict(returned: bool, ack: bool): Outcome {
    if !ack then Nacked else if returned then Returned else Delivered
  }

  /** The broker returns the message or not, then confirms it. */
  lemma BrokerSpeaks(cfg: Config, s: State, now: State, returned: bool, ack: bool) returns (t: State)
    requires Leads(cfg, s, now) && now.holder.Waiting? && now.holder.ch in now.channels
    requires var k := now.channels[now.holder.ch];
             k.open && k.confirms == [] && k.bounces == [] && now.holder.msg in k.pending && now.holder.msg !in now.returned
    ensures Leads(cfg, s, t)
    ensures var m, c := now.holder.msg, now.holder.ch;
            t == now.(channels := t.channels, acked := if ack then now.acked + {m} else now.acked,
                      nacked := if ack then now.nacked else now.nacked + {m},
                      returned := if returned then now.returned + {m} else now.returned)
            && c in t.channels && t.channels == now.channels[c := t.channels[c]] && t.channels[c].open
            && t.channels[c].confirms == [Confirmation(m, ack)] && t.channels[c].bounces == if returned then [m] else []
  {
    hide Leads;
    var m, c := now.holder.msg, now.holder.ch;
    t := now;
    if returned {
      LeadsOn(cfg, s, t, Broker(Return(c, m)));
      t := ApplyBroker(t, Return(c, m));
    }
    LeadsOn(cfg, s, t, Broker(Confirm(c, m, ack)));
    t := ApplyBroker(t, Confirm(c, m, ack));
  }

  /** The waiting publish takes the answer. */
  lemma TakesAnswer(cfg: Config, s: State, now: State, returned: bool, ack: bool) returns (t: State)
    requires Leads(cfg, s, now) && now.holder.Waiting? && now.holder.ch in now.channels
    requires var k, m := now.channels[now.holder.ch], now.holder.msg;
             k.open && k.confirms == [Confirmation(m, ack)] && k.bounces == if returned then [m] else []
    ensures Leads(cfg, s, t) && t.holder.Free? && t.results == now.results[now.holder.msg := Verdict(returned, ack)]
    ensures t == now.(holder := Free, results := t.results, channels := t.channels)
    ensures t.channels.Keys == now.channels.Keys && t.channels[now.holder.ch].open
  {
    hide Leads;
    LeadsOn(cfg, s, now, Publishing(TakeConfirm));
    t := ApplyPublish(now, TakeConfirm);
    if ack {
      LeadsOn(cfg, s, t, Publishing(TakeReturn));
      t := ApplyPublish(t, TakeReturn);
    }
  }

  /** From every reachable state with a usable channel, whatever the broker says of a new message is what its publish answers. */
  lemma EveryVerdictIsAnswered(cfg: Config, s: State, m: Msg, returned: bool, ack: bool) returns (t: State)
    requires Reachable(cfg, s) && s.holder.Free? && !s.closed && s.ch.Some? && m !in s.started
    requires s.current in s.channels && s.channels[s.current].open
    ensures Leads(cfg, s, t) && t.holder.Free? && t.results == s.results[m := Verdict(returned, ack)]
    ensures t.acked == (if ack then s.acked + {m} else s.acked) && t.returned == if returned then s.returned + {m} else s.returned
    ensures !t.closed && t.ch == s.ch && s.current in t.channels && t.channels[s.current].open
  {
    hide Reachable, Leads, Inv;
    ReachableKeeps(cfg, s);
    QuietChannel(cfg, s);
    t := Sends(cfg, s, m);
    t := BrokerSpeaks(cfg, s, t, returned, ack);
    t := TakesAnswer(cfg, s, t, returned, ack);
  }

  // ---------- the lock is always given back ----------

  /** What the holder of `publishMu` does next when nothing else happens; it need not wait for anybody. */
  function NextOwn(s: State): Step {
    match s.holder
    case Draining(_, c, _) => if c in s.channels && s.channels[c].bounces != [] then Publishing(DrainReturn) else Publishing(DrainEnd)
    case Sending(_, _, _) => Publishing(SendFail)
    case Waiting(_, _, _) => Publishing(TimeoutOrCancel)
    case Acked(_, _) => Publishing(TakeReturn)
    case Corrupted(_, _) => Publishing(MarkInvalid)
    case Invalidated(_, _) => Publishing(SignalInvalid)
    case Discarding(_, _) => Publishing(Discard)
    case Preparing(_, left) => Calling(if left.Some? then CloseLeft else PrepareEnd)
    case Closing(left) => Calling(if left.Some? then CloseLeft else CloseEnd)
    case Free => Calling(CloseBegin)
  }

  /** Confirmations still buffered on the current channel. */
  function Leftover(s: State): nat { if s.current in s.channels then |s.channels[s.current].confirms| else 0 }

  /** How far the holder is from giving the lock back. */
  function Distance(s: State): nat {
    match s.holder
    case Free => 0
    case Draining(_, c, _) => 7 + if c in s.channels then |s.channels[c].bounces| else 0
    case Sending(_, _, _) => 6
    case Waiting(_, _, _) => 5
    case Corrupted(_, _) => 4
    case Invalidated(_, _) => 3
    case Preparing(_, left) => (if left.Some? then 2 else 1) + Leftover(s)
    case Closing(left) => (if left.Some? then 2 else 1) + Leftover(s)
    case Discarding(_, _) => 2
    case Acked(_, _) => 1
  }

  /** Each step of the holder's own, whichever it takes, brings it closer. */
  lemma PublishStepsCloser(s: State, p: PublishStep)
    requires PublishCan(s, p) && !p.Begin?
    ensures Distance(ApplyPublish(s, p)) < Distance(s)
  {
  }

  lemma CallerStepsCloser(s: State, u: CallerStep)
    requires CallerCan(s, u) && !u.Reconnect? && !u.CloseBegin?
    ensures Distance(ApplyCaller(s, u)) < Distance(s)
  {
  }

  lemma OwnStepIsEnabled(cfg: Config, s: State)
    requires FieldsOk(s) && HolderOk(s)
    ensures Enabled(cfg, s, NextOwn(s))
  {
    hide Quiet, OnWire, Unsent;
  }

  lemma OwnStepCloser(cfg: Config, s: State)
    requires FieldsOk(s) && HolderOk(s) && !s.holder.Free?
    ensures Enabled(cfg, s, NextOwn(s)) && Distance(Apply(cfg, s, NextOwn(s))) < Distance(s)
  {
    hide HolderOk, FieldsOk, ApplyPublish, ApplyCaller, Distance;
    OwnStepIsEnabled(cfg, s);
    match NextOwn(s)
    case Publishing(p) => PublishStepsCloser(s, p);
    case Calling(u) => CallerStepsCloser(s, u);
    case _ =>
  }

  /** Whoever holds the lock can give it back by itself, and a publish in flight has its answer by then. */
  lemma {:induction false} LockIsReleased(cfg: Config, s: State) returns (t: State)
    requires Inv(cfg, s)
    ensures Leads(cfg, s, t) && Inv(cfg, t) && t.holder.Free?
    ensures InFlight(s) ==> s.holder.msg in t.results
    ensures t.shutdown == s.shutdown
    decreases Distance(s)
  {
    hide Leads, Distance, NextOwn, Inv;
    if s.holder.Free? {
      LeadsNowhere(cfg, s);
      t := s;
    } else {
      InvParts(cfg, s);
      OwnStepCloser(cfg, s);
      OwnStepKeepsShutdown(cfg, s);
      StepKeeps(cfg, s, NextOwn(s));
      if InFlight(s) {
        InFlightOrAnswered(cfg, s);
      }
      t := LockIsReleased(cfg, Apply(cfg, s, NextOwn(s)));
      LeadsFrom(cfg, s, NextOwn(s), t);
      if InFlight(s) {
        AnswersStay(cfg, Apply(cfg, s, NextOwn(s)), t, s.holder.msg);
      }
    }
  }

  lemma OwnStepKeepsShutdown(cfg: Config, s: State)
    requires !s.holder.Free? && Enabled(cfg, s, NextOwn(s))
    ensures Apply(cfg, s, NextOwn(s)).shutdown == s.shutdown
  {
    if NextOwn(s).Publishing? {
      PublishKeepsShutdown(s, NextOwn(s).p);
    }
  }

  lemma PublishKeepsShutdown(s: State, p: PublishStep)
    requires PublishCan(s, p)
    ensures ApplyPublish(s, p).shutdown == s.shutdown
  {
    if !p.Begin? {
      hide ApplyPublish;
      PublishTouches(s, p);
    }
  }

  lemma InvParts(cfg: Config, s: State)
    requires Inv(cfg, s)
    ensures FieldsOk(s) && HolderOk(s)
  {
  }

  /** A publish's own step keeps its message in flight or answers it. */
  lemma PublishAdvances(s: State, p: PublishStep)
    requires PublishCan(s, p) && !p.Begin?
    ensures var t := ApplyPublish(s, p); s.holder.msg in t.results || (InFlight(t) && t.holder.msg == s.holder.msg)
  {
  }

  lemma InFlightOrAnswered(cfg: Config, s: State)
    requires InFlight(s) && Enabled(cfg, s, NextOwn(s))
    ensures var t := Apply(cfg, s, NextOwn(s)); s.holder.msg in t.results || (InFlight(t) && t.holder.msg == s.holder.msg)
  {
    hide ApplyPublish, PublishCan;
    match NextOwn(s)
    case Publishing(p) => PublishAdvances(s, p);
    case _ =>
  }

  lemma LeadsFrom(cfg: Config, s: State, step: Step, t: State)
    requires Enabled(cfg, s, step) && Leads(cfg, Apply(cfg, s, step), t)
    ensures Leads(cfg, s, t)
  {
    hide Enabled, Apply;
    var steps :| Run(cfg, Apply(cfg, s, step), steps, t);
    assert ([step] + steps)[1..] == steps;
    assert Run(cfg, s, [step] + steps, t);
  }

  /** Only the message's own answer is added. */
  lemma AdvanceAnswersOwn(s: State, p: PublishStep, m: Msg, c: Ch, k: Channel, other: Msg)
    requires (p.DrainReturn? ==> k.bounces != []) && (p.TakeConfirm? ==> k.confirms != []) && other in s.results && other != m
    ensures var t := Advance(s, p, m, c, k); other in t.results && t.results[other] == s.results[other]
  {
  }

  lemma PublishKeepsAnswers(s: State, p: PublishStep, m: Msg)
    requires PublishCan(s, p) && m in s.results && s.results.Keys <= s.started
    requires !p.Begin? ==> s.holder.msg !in s.results
    ensures var t := ApplyPublish(s, p); m in t.results && t.results[m] == s.results[m]
  {
    hide Advance;
    if !p.Begin? {
      AdvanceAnswersOwn(s, p, s.holder.msg, s.holder.ch, s.channels[s.holder.ch], m);
    }
  }

  lemma MonitorKeepsAnswers(cfg: Config, s: State, c: Ch, w: MonitorStep)
    requires MonitorCan(cfg, s, c, w)
    ensures ApplyMonitor(cfg, s, c, w).results == s.results
  {
  }

  lemma CallerKeepsAnswers(s: State, u: CallerStep)
    requires CallerCan(s, u)
    ensures ApplyCaller(s, u).results == s.results
  {
  }

  /** No answer is ever taken back or changed. */
  lemma StepKeepsAnswers(cfg: Config, s: State, step: Step, m: Msg)
    requires Inv(cfg, s) && Enabled(cfg, s, step) && m in s.results
    ensures m in Apply(cfg, s, step).results && Apply(cfg, s, step).results[m] == s.results[m]
  {
    hide HolderOk, UsableIsQuiet, FieldsOk, ResultsOk, MonitorsOk, ApplyPublish, ApplyMonitor, ApplyCaller;
    match step
    case Broker(_) =>
    case Publishing(p) =>
      if !p.Begin? {
        NotAnsweredYet(s);
      }
      PublishKeepsAnswers(s, p, m);
    case Monitoring(c, w) => MonitorKeepsAnswers(cfg, s, c, w);
    case Calling(u) => CallerKeepsAnswers(s, u);
  }

  lemma {:induction false} RunKeepsAnswers(cfg: Config, s: State, steps: seq<Step>, t: State, m: Msg)
    requires Inv(cfg, s) && Run(cfg, s, steps, t) && m in s.results
    ensures m in t.results && t.results[m] == s.results[m]
    decreases |steps|
  {
    hide Inv, Enabled, Apply;
    if steps != [] {
      StepKeepsAnswers(cfg, s, steps[0], m);
      StepKeeps(cfg, s, steps[0]);
      RunKeepsAnswers(cfg, Apply(cfg, s, steps[0]), steps[1..], t, m);
    }
  }

  lemma AnswersStay(cfg: Config, s: State, t: State, m: Msg)
    requires Inv(cfg, s) && Leads(cfg, s, t)
    ensures m in s.results ==> m in t.results && t.results[m] == s.results[m]
  {
    hide Inv, Run;
    var steps :| Run(cfg, s, steps, t);
    if m in s.results {
      RunKeepsAnswers(cfg, s, steps, t, m);
    }
  }
}
