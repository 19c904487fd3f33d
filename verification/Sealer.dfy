/**
 Key rotation of a `Sealer`: an atomic pointer to immutable keysets, swapped by compare-and-swap loops that
 run concurrently. A fingerprint identifies its key, and a payload opens under exactly the key and the
 additional data it was sealed with.
 */
module Sealer {
  import opened Text

  type Key = nat
  type Caller = nat

  datatype Error = CiphertextTooShort | OpenFailed

  datatype Keyset = Keyset(current: Key, previous: Option<Key>)

  datatype Payload = Truncated | Sealed(key: Key, plaintext: string, additionalData: string)

  function Seal(ks: Keyset, plaintext: string, additionalData: string): Payload {
    Sealed(ks.current, plaintext, additionalData)
  }

  /** Sealed under one of the two keys, with the same additional data. */
  predicate Opens(ks: Keyset, p: Payload, additionalData: string) {
    p.Sealed? && p.additionalData == additionalData && (p.key == ks.current || ks.previous == Some(p.key))
  }

  /** `Open` tries the current key and then the previous one. */
  method Open(ks: Keyset, payload: Payload, additionalData: string) returns (r: Result<string, Error>)
    ensures r.Success? <==> Opens(ks, payload, additionalData)
    ensures r.Success? ==> r.value == payload.plaintext
    ensures payload.Truncated? ==> r == Failure(CiphertextTooShort)
  {
    if payload.Truncated? {
      return Failure(CiphertextTooShort);
    }
    var keys := [Some(ks.current), ks.previous];
    for i := 0 to 2
      invariant forall j | 0 <= j < i :: !(keys[j] == Some(payload.key) && payload.additionalData == additionalData)
    {
      if keys[i].None? {
        continue;
      }
      if keys[i].value == payload.key && payload.additionalData == additionalData {
        return Success(payload.plaintext);
      }
    }
    assert keys[0] != Some(payload.key) || payload.additionalData != additionalData;
    assert keys[1] != Some(payload.key) || payload.additionalData != additionalData;
    r := Failure(OpenFailed);
  }

  // ---------- concurrent rotations ----------

  /** A call of `Rotate` for `key`; `since` is the keyset in place when it began. */
  datatype Call =
    | Running(key: Key, since: nat)
    | Loaded(key: Key, since: nat, seen: nat)
    | Returned(key: Key, since: nat, until: nat)

  /** Every keyset ever published, the last one in place, and the calls made so far. */
  datatype State = State(published: seq<Keyset>, calls: map<Caller, Call>)
  {
    function Last(): int { |published| - 1 }
  }

  function Init(key: Key): State { State([Keyset(key, None)], map[]) }

  datatype Step = Begin(c: Caller, key: Key) | Load(c: Caller) | CompareAndSwap(c: Caller)

  predicate Enabled(s: State, step: Step) {
    match step
    case Begin(c, _) => c !in s.calls && s.published != []
    case Load(c) => c in s.calls && s.calls[c].Running? && s.published != []
    case CompareAndSwap(c) => c in s.calls && s.calls[c].Loaded? && s.calls[c].seen < |s.published|
  }

  function Apply(s: State, step: Step): State
    requires Enabled(s, step)
  {
    match step
    case Begin(c, key) => s.(calls := s.calls[c := Running(key, s.Last())])
    case Load(c) =>
      var call := s.calls[c];
      if s.published[s.Last()].current == call.key then s.(calls := s.calls[c := Returned(call.key, call.since, s.Last())])
      else s.(calls := s.calls[c := Loaded(call.key, call.since, s.Last())])
    case CompareAndSwap(c) =>
      var call := s.calls[c];
      if call.seen == s.Last() then
        State(s.published + [Keyset(call.key, Some(s.published[call.seen].current))],
              s.calls[c := Returned(call.key, call.since, |s.published|)])
      else s.(calls := s.calls[c := Running(call.key, call.since)])
  }

  ghost predicate Run(s: State, steps: seq<Step>, t: State)
    decreases |steps|
  {
    if steps == [] then t == s else Enabled(s, steps[0]) && Run(Apply(s, steps[0]), steps[1..], t)
  }

  ghost predicate Reachable(s: State) {
    exists key, steps :: Run(Init(key), steps, s)
  }

  /** Each keyset keeps its predecessor's key as its previous one, and differs from it. */
  predicate Chained(s: State) {
    && s.published != []
    && forall i | 0 < i < |s.published| ::
         s.published[i].previous == Some(s.published[i - 1].current) && s.published[i].current != s.published[i - 1].current
  }

  /** A returned call's key was current at some keyset in place between its beginning and its end. */
  predicate CallOk(s: State, call: Call) {
    && call.since < |s.published|
    && match call
       case Running(_, _) => true
       case Loaded(key, since, seen) => since <= seen < |s.published| && s.published[seen].current != key
       case Returned(key, since, until) =>
         until < |s.published| && exists i | since <= i <= until :: s.published[i].current == key
  }

  /** Every keyset but the first was published by a call that has returned, for that call's key. */
  predicate Caused(s: State, i: nat)
    requires i < |s.published|
  {
    exists c | c in s.calls :: s.calls[c].Returned? && s.calls[c].until == i && s.calls[c].key == s.published[i].current
  }

  predicate Inv(s: State) {
    && Chained(s) && (forall c | c in s.calls :: CallOk(s, s.calls[c]))
    && forall i | 0 < i < |s.published| :: Caused(s, i)
  }

  lemma CallStays(s: State, t: State, call: Call)
    requires CallOk(s, call) && s.published <= t.published
    ensures CallOk(t, call)
  {
    if call.Returned? {
      var i :| call.since <= i <= call.until && s.published[i].current == call.key;
      assert t.published[i].current == call.key;
    }
  }

  lemma StepKeeps(s: State, step: Step)
    requires Inv(s) && Enabled(s, step)
    ensures Inv(Apply(s, step)) && s.published <= Apply(s, step).published
  {
    var t := Apply(s, step);
    forall c | c in t.calls
      ensures CallOk(t, t.calls[c])
    {
      if c in s.calls {
        CallStays(s, t, s.calls[c]);
      }
      if c == step.c && t.calls[c].Returned? {
        assert t.published[t.calls[c].until].current == t.calls[c].key;
      }
    }
    forall i | 0 < i < |t.published| ensures Caused(t, i) {
      if i < |s.published| {
        assert Caused(s, i);
        var c :| c in s.calls && s.calls[c].Returned? && s.calls[c].until == i && s.calls[c].key == s.published[i].current;
        assert t.calls[c] == s.calls[c];
      } else {
        assert t.calls[step.c].Returned?;
      }
    }
  }

  lemma {:induction false} RunKeeps(s: State, steps: seq<Step>, t: State)
    requires Inv(s) && Run(s, steps, t)
    ensures Inv(t) && s.published <= t.published
    decreases |steps|
  {
    hide Inv, Apply, Enabled;
    if steps != [] {
      StepKeeps(s, steps[0]);
      RunKeeps(Apply(s, steps[0]), steps[1..], t);
    }
  }

  lemma ReachableKeeps(s: State)
    requires Reachable(s)
    ensures Inv(s)
  {
    var key, steps :| Run(Init(key), steps, s);
    RunKeeps(Init(key), steps, s);
  }

  // ---------- the promises ----------

  /** In every interleaving, generations link up: no rotation skips, repeats or loses one. */
  lemma GenerationsLink(s: State, i: nat)
    requires Reachable(s) && 0 < i < |s.published|
    ensures s.published[i].previous == Some(s.published[i - 1].current)
    ensures s.published[i].current != s.published[i - 1].current
    ensures exists c | c in s.calls :: s.calls[c].Returned? && s.calls[c].until == i && s.calls[c].key == s.published[i].current
  {
    ReachableKeeps(s);
    assert Caused(s, i);
  }

  /** A completed `Rotate` made its key current at some instant during the call. */
  lemma RotateTakesEffect(s: State, c: Caller)
    requires Reachable(s) && c in s.calls && s.calls[c].Returned?
    ensures s.calls[c].until < |s.published|
    ensures exists i | s.calls[c].since <= i <= s.calls[c].until :: s.published[i].current == s.calls[c].key
  {
    ReachableKeeps(s);
    assert CallOk(s, s.calls[c]);
  }

  /** A call left alone completes in at most two steps; it publishes one keyset, or none when its key was current. */
  lemma RotateAloneCompletes(s: State, c: Caller)
    requires Reachable(s) && c in s.calls && s.calls[c].Running?
    ensures s.published != []
    ensures var key, already := s.calls[c].key, s.published[s.Last()].current == s.calls[c].key;
            exists t :: Run(s, if already then [Load(c)] else [Load(c), CompareAndSwap(c)], t)
                        && t.published == s.published + (if already then [] else [Keyset(key, Some(s.published[s.Last()].current))])
                        && t.calls == s.calls[c := Returned(key, s.calls[c].since, |t.published| - 1)]
  {
    ReachableKeeps(s);
    var key := s.calls[c].key;
    var loaded := Apply(s, Load(c));
    if s.published[s.Last()].current == key {
      assert s.published + [] == s.published;
      RunOne(s, Load(c));
      assert loaded.calls == s.calls[c := Returned(key, s.calls[c].since, loaded.Last())];
    } else {
      var t := Apply(loaded, CompareAndSwap(c));
      RunOne(loaded, CompareAndSwap(c));
      assert [Load(c), CompareAndSwap(c)][1..] == [CompareAndSwap(c)];
      assert Run(s, [Load(c), CompareAndSwap(c)], t);
      assert t.calls == s.calls[c := Returned(key, s.calls[c].since, t.Last())];
    }
  }

  lemma RunOne(s: State, step: Step)
    requires Enabled(s, step)
    ensures Run(s, [step], Apply(s, step))
  {
    assert Run(Apply(s, step), [step][1..], Apply(s, step));
  }

  /** A swap fails only because another call has published since the load. */
  lemma FailedSwapWasOvertaken(s: State, c: Caller)
    requires Reachable(s) && Enabled(s, CompareAndSwap(c)) && Apply(s, CompareAndSwap(c)).calls[c].Running?
    ensures s.calls[c].seen + 1 < |s.published|
    ensures exists other | other in s.calls && other != c :: s.calls[other].Returned? && s.calls[other].until == s.calls[c].seen + 1
  {
    ReachableKeeps(s);
    assert CallOk(s, s.calls[c]) && Caused(s, s.calls[c].seen + 1);
  }

  /** Published keysets never change, whatever runs next. */
  lemma PublishedIsForever(s: State, steps: seq<Step>, t: State)
    requires Reachable(s) && Run(s, steps, t)
    ensures s.published <= t.published
  {
    ReachableKeeps(s);
    RunKeeps(s, steps, t);
  }

  /** A payload opens after any number of no-op rotations and at most one effective one. */
  lemma SealedSurvivesOneRotation(s: State, steps: seq<Step>, t: State, plaintext: string, additionalData: string)
    requires Reachable(s) && Run(s, steps, t)
    requires |t.published| <= |s.published| + 1
    ensures s.published != [] && t.published != []
    ensures var sealed := Seal(s.published[s.Last()], plaintext, additionalData);
            Opens(t.published[t.Last()], sealed, additionalData) && sealed.plaintext == plaintext
  {
    ReachableKeeps(s);
    RunKeeps(s, steps, t);
  }

  /** After two effective rotations it opens only if its key has come back. */
  lemma SealedAfterMoreRotations(s: State, steps: seq<Step>, t: State, plaintext: string, additionalData: string)
    requires Reachable(s) && Run(s, steps, t) && |t.published| >= |s.published| + 2
    ensures s.published != []
    ensures Opens(t.published[t.Last()], Seal(s.published[s.Last()], plaintext, additionalData), additionalData)
      <==> exists i | t.Last() - 1 <= i <= t.Last() :: t.published[i].current == s.published[s.Last()].current
  {
    ReachableKeeps(s);
    RunKeeps(s, steps, t);
    var last := t.Last();
    assert t.published[last].previous == Some(t.published[last - 1].current);
  }
}
