/**
 `cron.Parse`: five fields of comma-separated parts, each `*`, `lo-hi` or a value, with an optional
 `/step`. A part denotes an arithmetic progression; the loop that expands it runs on 64-bit `int`.
 */
module CronParse {
  import opened Numbers
  import opened Text
  import opened Calendar
  import opened CronGrammar
  import opened CronNext

  /** Two's-complement addition on 64-bit `int`. */
  function WrapAdd(a: int, b: int): (r: int)
    requires MIN_INT <= a <= MAX_INT && MIN_INT <= b <= MAX_INT
    ensures MIN_INT <= r <= MAX_INT
  {
    if a + b > MAX_INT then a + b - TWO_TO_THE_64
    else if a + b < MIN_INT then a + b + TWO_TO_THE_64
    else a + b
  }

  // ---------- strconv.Atoi ----------

  function Digits(s: string): Option<nat> {
    if s == "" then Some(0)
    else
      var last := s[|s| - 1];
      var front := Digits(s[..|s| - 1]);
      if front.Some? && '0' <= last <= '9' then Some(10 * front.value + (last as int - '0' as int)) else None
  }

  function Atoi(s: string): (r: Option<int>)
    ensures r.Some? ==> MIN_INT <= r.value <= MAX_INT
  {
    var signed := s != "" && (s[0] == '+' || s[0] == '-');
    var body := if signed then s[1..] else s;
    var digits := Digits(body);
    if body == "" || digits.None? then None
    else
      var n: int := if signed && s[0] == '-' then -(digits.value as int) else digits.value;
      if MIN_INT <= n <= MAX_INT then Some(n) else None
  }

  // ---------- the reader of a part ----------

  function ParseRange(range: string, lo: int, hi: int): Option<(int, int)> {
    var i := IndexOf(range, '-');
    if i == |range| then None
    else
      var a, b := Atoi(range[..i]), Atoi(range[i + 1..]);
      if a.None? || b.None? || a.value < lo || b.value > hi || a.value > b.value then None
      else Some((a.value, b.value))
  }

  function ParseBase(base: string, lo: int, hi: int, hasStep: bool): Option<(int, int)> {
    if base == "*" then Some((lo, hi))
    else if '-' in base then ParseRange(base, lo, hi)
    else
      var v := Atoi(base);
      if v.None? || v.value < lo || v.value > hi then None
      else Some((v.value, if hasStep then hi else v.value))
  }

  function PartMeaning(part: string, lo: int, hi: int): (r: Option<Progression>)
    requires 0 <= lo <= hi <= 59
    ensures r.Some? ==> r.value.Valid(lo, hi)
  {
    var slash := IndexOf(part, '/');
    var hasStep := slash < |part|;
    var step := if hasStep then Atoi(part[slash + 1..]) else Some(1);
    var base := ParseBase(part[..slash], lo, hi, hasStep);
    if step.None? || step.value <= 0 || base.None? then None
    else Some(Progression(base.value.0, base.value.1, step.value))
  }

  // ---------- the reader accepts exactly the language ----------

  lemma {:induction false} DigitsAreDecimal(s: string)
    ensures Digits(s).Some? <==> forall c | c in s :: IsDigit(c)
    ensures Digits(s).Some? ==> Digits(s).value == Decimal(s)
  {
    if s != "" {
      var n := |s| - 1;
      DigitsAreDecimal(s[..n]);
      assert s == s[..n] + [s[n]] && s[n] in s;
      assert forall c | c in s[..n] :: c in s;
    }
  }

  /** `Atoi` reads exactly the numerals. */
  lemma NumeralReads(x: Numeral)
    requires x.Valid()
    ensures Atoi(x.Text()) == Some(x.Value())
  {
    DigitsAreDecimal(x.digits);
    assert x.digits[0] in x.digits;
    var s := x.Text();
    if x.sign == Unsigned {
      assert s == x.digits;
    } else {
      assert s[1..] == x.digits;
    }
  }

  lemma ReadNumeral(s: string) returns (x: Numeral)
    requires Atoi(s).Some?
    ensures x.Valid() && x.Text() == s && x.Value() == Atoi(s).value
    ensures x.sign == Minus ==> '-' in s
  {
    var signed := s[0] == '+' || s[0] == '-';
    var digits := if signed then s[1..] else s;
    DigitsAreDecimal(digits);
    x := Numeral(if !signed then Unsigned else if s[0] == '+' then Plus else Minus, digits);
    assert signed ==> s == [s[0]] + s[1..];
  }

  lemma NumeralHasNo(x: Numeral, c: char)
    requires x.Valid() && !IsDigit(c) && c != '+' && (c == '-' ==> x.sign != Minus)
    ensures c !in x.Text()
  {
  }

  lemma BaseReads(b: Base, lo: int, hi: int, hasStep: bool)
    requires 0 <= lo <= hi <= 59 && b.Valid(lo, hi)
    ensures '/' !in b.Text()
    ensures ParseBase(b.Text(), lo, hi, hasStep)
         == Some(match b
                 case Star => (lo, hi)
                 case Range(from, to) => (from.Value(), to.Value())
                 case Single(at) => (at.Value(), if hasStep then hi else at.Value()))
  {
    hide Atoi, Numeral.Valid, Numeral.Text, Numeral.Value, IndexOf;
    match b
    case Star =>
    case Range(from, to) =>
      NumeralReads(from);
      NumeralReads(to);
      NumeralHasNo(from, '-');
      NumeralHasNo(from, '/');
      NumeralHasNo(to, '/');
      NumeralHasNo(from, '*');
      var s := from.Text() + "-" + to.Text();
      assert s == from.Text() + ("-" + to.Text());
      IndexOfAppend(from.Text(), "-" + to.Text(), '-');
      FirstIsAt("-" + to.Text(), '-');
      assert s[..|from.Text()|] == from.Text() && s[|from.Text()| + 1..] == to.Text();
      assert s[|from.Text()|] == '-';
    case Single(at) =>
      NumeralReads(at);
      NumeralHasNo(at, '-');
      NumeralHasNo(at, '/');
      NumeralHasNo(at, '*');
  }

  lemma FirstIsAt(s: string, c: char)
    requires s != "" && s[0] == c
    ensures IndexOf(s, c) == 0
  {
  }

  lemma ReadBase(s: string, lo: int, hi: int, hasStep: bool) returns (b: Base)
    requires 0 <= lo <= hi <= 59 && ParseBase(s, lo, hi, hasStep).Some?
    ensures b.Valid(lo, hi) && b.Text() == s
  {
    hide Atoi, IndexOf, Numeral.Valid, Numeral.Text, Numeral.Value;
    if s == "*" {
      b := Star;
    } else if '-' in s {
      var i := IndexOf(s, '-');
      var from := ReadNumeral(s[..i]);
      var to := ReadNumeral(s[i + 1..]);
      b := Range(from, to);
      assert s == s[..i] + "-" + s[i + 1..];
    } else {
      var at := ReadNumeral(s);
      b := Single(at);
    }
  }

  /** A text has a meaning to the reader exactly when it spells a part of the language, and it is that part's. */
  lemma PartGrammar(text: string, lo: int, hi: int, p: Progression)
    requires 0 <= lo <= hi <= 59
    ensures PartMeaning(text, lo, hi) == Some(p) <==> Spells(text, lo, hi, p)
  {
    hide ParseBase, Base.Valid, Base.Text, Numeral.Valid, Numeral.Text, Numeral.Value, Part.Meaning;
    if PartMeaning(text, lo, hi) == Some(p) {
      var x := ReadPart(text, lo, hi);
      PartReads(x, lo, hi);
      assert IsText(x, text, lo, hi);
    }
    if Spells(text, lo, hi, p) {
      var x: Part :| IsText(x, text, lo, hi) && x.Meaning(lo, hi) == p;
      PartReads(x, lo, hi);
    }
  }

  lemma PartReads(x: Part, lo: int, hi: int)
    requires 0 <= lo <= hi <= 59 && x.Valid(lo, hi)
    ensures PartMeaning(x.Text(), lo, hi) == Some(x.Meaning(lo, hi))
  {
    hide ParseBase, Base.Valid, Base.Text, Atoi, Numeral.Valid, Numeral.Text, Numeral.Value, IndexOf;
    var base, text := x.base.Text(), x.Text();
    BaseReads(x.base, lo, hi, x.step.Some?);
    if x.step.Some? {
      NumeralReads(x.step.value);
      var rest := "/" + x.step.value.Text();
      IndexOfAppend(base, rest, '/');
      FirstIsAt(rest, '/');
      assert text[..|base|] == base && text[|base| + 1..] == x.step.value.Text();
    } else {
      assert text == base;
      assert text[..|text|] == base;
    }
  }

  lemma ReadPart(text: string, lo: int, hi: int) returns (x: Part)
    requires 0 <= lo <= hi <= 59 && PartMeaning(text, lo, hi).Some?
    ensures x.Valid(lo, hi) && x.Text() == text
  {
    hide ParseBase, Base.Valid, Base.Text, Atoi, Numeral.Valid, Numeral.Text, Numeral.Value, IndexOf;
    var slash := IndexOf(text, '/');
    var base := ReadBase(text[..slash], lo, hi, slash < |text|);
    if slash < |text| {
      var step := ReadNumeral(text[slash + 1..]);
      x := Part(base, Some(step));
      assert text == text[..slash] + ("/" + text[slash + 1..]);
    } else {
      x := Part(base, None);
      assert text[..slash] == text;
    }
  }

  /** What the language says of a field, in the reader's terms. */
  lemma FieldGrammar(field: string, lo: int, hi: int)
    requires 0 <= lo <= hi <= 59
    ensures FieldOk(field, lo, hi) <==> forall part | part in Split(field, ',') :: PartMeaning(part, lo, hi).Some?
    ensures forall v :: FieldDenotes(field, lo, hi, v) <==>
              exists part | part in Split(field, ',') :: PartMeaning(part, lo, hi).Some? && PartMeaning(part, lo, hi).value.Denotes(v)
    ensures StepsFit(field, lo, hi) <==>
              forall part | part in Split(field, ',') :: PartMeaning(part, lo, hi).Some? ==> PartMeaning(part, lo, hi).value.start + PartMeaning(part, lo, hi).value.step <= MAX_INT
    ensures StepsStayOut(field, lo, hi) <==>
              forall part | part in Split(field, ',') :: PartMeaning(part, lo, hi).Some? ==> PartMeaning(part, lo, hi).value.SecondWrapped() < lo
  {
    hide PartMeaning, Spells, Split, OnGrid;
    forall part, p
      ensures PartMeaning(part, lo, hi) == Some(p) <==> Spells(part, lo, hi, p)
    {
      PartGrammar(part, lo, hi, p);
    }
    forall part | part in Split(field, ',') && PartMeaning(part, lo, hi).Some?
      ensures Spells(part, lo, hi, PartMeaning(part, lo, hi).value)
    {
    }
  }

  // ---------- the expansion loop ----------

  /** The values the loop variable can take: in range, past the end, or wrapped around. */
  predicate LoopValue(v: int, end: int, step: int) {
    && 0 <= end <= 59 && 1 <= step <= MAX_INT && MIN_INT <= v <= MAX_INT
    && if step <= MAX_INT - 60 then v >= 0
       else v > end || -61 <= v <= end || (v <= MIN_INT + 59 && v + step >= -61)
  }

  /** Falls with every iteration: a wrapped value climbs back to less than the value that wrapped. */
  function LoopRank(v: int, end: int, step: int): nat
    requires LoopValue(v, end, step)
  {
    if v > end then 0
    else if step <= MAX_INT - 60 then end - v + 1
    else if v < -61 then 2 * (v + step) + 201
    else 2 * v + 200
  }

  /** `for v := start; v <= end; v += step`, with Go's wrap-around. */
  function Expand(v: int, end: int, step: int): seq<int>
    requires LoopValue(v, end, step)
    decreases LoopRank(v, end, step)
  {
    if v > end then [] else [v] + Expand(WrapAdd(v, step), end, step)
  }

  /** A distance short of one step is off the progression; from there on it repeats. */
  lemma GridStep(a: int, n: int)
    requires n > 0
    ensures OnGrid(0, n) && (0 < a < n ==> !OnGrid(a, n))
    ensures OnGrid(a, n) <==> OnGrid(a - n, n)
  {
    var q, r := a / n, a % n;
    assert a - n == n * (q - 1) + r;
    RemainderUnique(a - n, n, q - 1, r);
    RemainderUnique(0, n, 0, 0);
    if 0 < a < n {
      RemainderUnique(a, n, 0, a);
    }
  }

  /** A step that cannot overflow moves on within the loop's values. */
  lemma ExpandMoves(v: int, end: int, step: int)
    requires LoopValue(v, end, step) && step <= MAX_INT - 60
    ensures step >= 1 && (v > end ==> Expand(v, end, step) == [])
    ensures v <= end ==> LoopValue(v + step, end, step) && Expand(v, end, step) == [v] + Expand(v + step, end, step)
  {
  }

  lemma {:induction false} ExpandSmallStep(v: int, end: int, step: int, x: int)
    requires LoopValue(v, end, step) && step <= MAX_INT - 60
    ensures x in Expand(v, end, step) <==> v <= x <= end && OnGrid(x - v, step)
    decreases if v > end then 0 else end - v + 1
  {
    hide OnGrid, LoopValue, Expand;
    ExpandMoves(v, end, step);
    if v <= end {
      ExpandSmallStep(v + step, end, step, x);
      GridStep(x - v, step);
      assert x - (v + step) == x - v - step;
    }
  }

  lemma ExpandLargeStep(v: int, end: int, step: int, x: int)
    requires 0 <= v <= end <= 59 && MAX_INT - 60 < step && v + step <= MAX_INT
    ensures LoopValue(v, end, step)
    ensures x in Expand(v, end, step) <==> v <= x <= end && OnGrid(x - v, step)
  {
    hide OnGrid;
    assert Expand(v + step, end, step) == [];
    assert Expand(v, end, step) == [v];
    GridStep(x - v, step);
  }

  /** The loop yields exactly the progression when its first step fits. */
  lemma ExpandFits(p: Progression, v: int)
    requires p.Valid(0, 59) && p.start + p.step <= MAX_INT
    ensures LoopValue(p.start, p.end, p.step)
    ensures v in Expand(p.start, p.end, p.step) <==> p.Denotes(v)
  {
    if p.step <= MAX_INT - 60 {
      ExpandSmallStep(p.start, p.end, p.step, v);
    } else {
      ExpandLargeStep(p.start, p.end, p.step, v);
    }
  }

  /** Otherwise it also yields a value below the field's range. */
  lemma ExpandOverflows(p: Progression) returns (v: int)
    requires p.Valid(0, 59) && p.start + p.step > MAX_INT
    ensures LoopValue(p.start, p.end, p.step)
    ensures v in Expand(p.start, p.end, p.step) && v < 0
  {
    v := WrapAdd(p.start, p.step);
    assert v == [v][0] && Expand(v, p.end, p.step)[0] == v;
    assert v in Expand(v, p.end, p.step);
  }

  lemma LargeStepWraps(p: Progression)
    requires p.Valid(0, 59) && p.start + p.step > MAX_INT
    ensures LoopValue(p.start, p.end, p.step) && LoopValue(p.SecondWrapped(), p.end, p.step)
    ensures -59 <= p.SecondWrapped() < p.start
    ensures Expand(p.start, p.end, p.step)
         == [p.start, p.start + p.step - TWO_TO_THE_64] + Expand(p.SecondWrapped(), p.end, p.step)
  {
    var v := p.start + p.step - TWO_TO_THE_64;
    assert WrapAdd(p.start, p.step) == v && WrapAdd(v, p.step) == p.SecondWrapped();
    assert Expand(v, p.end, p.step) == [v] + Expand(p.SecondWrapped(), p.end, p.step);
  }

  /** Once wrapped, the loop never climbs above where it landed. */
  lemma {:induction false} ExpandDescends(v: int, end: int, step: int, x: int)
    requires LoopValue(v, end, step) && step > MAX_INT - 60 && -61 <= v <= 59 && x in Expand(v, end, step)
    ensures x <= v
    decreases LoopRank(v, end, step)
  {
    if v <= end {
      var w := WrapAdd(v, step);
      assert Expand(v, end, step) == [v] + Expand(w, end, step);
      if w <= end {
        var u := WrapAdd(w, step);
        assert Expand(w, end, step) == [w] + Expand(u, end, step);
        if x in Expand(u, end, step) && u <= end {
          ExpandDescends(u, end, step, x);
        }
      }
    }
  }

  /** Restricted to the field's range, the loop yields the progression exactly when it does not wrap back into it. */
  lemma ExpandInRangeExactly(p: Progression, lo: int)
    requires 0 <= lo && p.Valid(lo, 59)
    ensures LoopValue(p.start, p.end, p.step)
    ensures (forall v | lo <= v :: v in Expand(p.start, p.end, p.step) <==> p.Denotes(v)) <==> p.SecondWrapped() < lo
  {
    hide OnGrid, Expand;
    if p.start + p.step <= MAX_INT {
      forall v ensures v in Expand(p.start, p.end, p.step) <==> p.Denotes(v) {
        ExpandFits(p, v);
      }
    } else {
      LargeStepWraps(p);
      var w := p.SecondWrapped();
      SecondIsYielded(p);
      assert w in Expand(p.start, p.end, p.step) && !p.Denotes(w);
      forall v | lo <= v
        ensures p.Denotes(v) <==> v == p.start
        ensures w < lo ==> (v in Expand(p.start, p.end, p.step) <==> v == p.start)
      {
        GridStep(v - p.start, p.step);
        if v in Expand(w, p.end, p.step) {
          ExpandDescends(w, p.end, p.step, v);
        }
      }
    }
  }

  lemma SecondIsYielded(p: Progression)
    requires p.Valid(0, 59) && LoopValue(p.SecondWrapped(), p.end, p.step) && p.SecondWrapped() < p.start
    ensures p.SecondWrapped() in Expand(p.SecondWrapped(), p.end, p.step)
  {
  }

  /** A decimal numeral. */
  function Itoa(n: nat): (s: string)
    ensures Digits(s) == Some(n) && s != "" && '0' <= s[0] <= '9'
    ensures forall c | c in s :: '0' <= c <= '9'
  {
    var d := [('0' as int + n % 10) as char];
    if n < 10 then
      assert d[..0] == "";
      d
    else
      var front := Itoa(n / 10);
      assert (front + d)[..|front + d| - 1] == front;
      front + d
  }

  /** The minute field `59/9223372036854775807` also fires at minute 57, which it does not denote. */
  lemma OverflowingStepMatchesMore()
    ensures Spells(Itoa(59) + "/" + Itoa(MAX_INT), 0, 59, Progression(59, 59, MAX_INT))
    ensures LoopValue(59, 59, MAX_INT) && 57 in Expand(59, 59, MAX_INT)
    ensures !Progression(59, 59, MAX_INT).Denotes(57)
  {
    hide Itoa, Digits, Decimal, Expand, OnGrid;
    DigitsAreDecimal(Itoa(59));
    DigitsAreDecimal(Itoa(MAX_INT));
    var x := Part(Single(Numeral(Unsigned, Itoa(59))), Some(Numeral(Unsigned, Itoa(MAX_INT))));
    assert x.Text() == Itoa(59) + "/" + Itoa(MAX_INT);
    assert IsText(x, Itoa(59) + "/" + Itoa(MAX_INT), 0, 59);
    LargeStepWraps(Progression(59, 59, MAX_INT));
    SecondIsYielded(Progression(59, 59, MAX_INT));
  }

  // ---------- the parser ----------

  predicate Ascending(s: seq<int>) {
    forall i, j | 0 <= i < j < |s| :: s[i] < s[j]
  }

  function Insert(v: int, s: seq<int>): (r: seq<int>)
    requires Ascending(s) && v !in s
    ensures Ascending(r)
    ensures forall x :: x in r <==> x == v || x in s
  {
    if s == [] then [v]
    else if v < s[0] then [v] + s
    else
      var rest := Insert(v, s[1..]);
      assert s[0] in s && s[0] < v;
      assert forall k | 0 <= k < |s| - 1 :: s[0] < s[1..][k];
      assert forall x | x in rest :: s[0] < x;
      assert forall j | 0 <= j < |rest| :: rest[j] in rest;
      [s[0]] + rest
  }

  /** `slices.Sort` of distinct values. */
  function Sorted(s: seq<int>): (r: seq<int>)
    requires forall i, j | 0 <= i < j < |s| :: s[i] != s[j]
    ensures Ascending(r)
    ensures forall x :: x in r <==> x in s
  {
    if s == [] then [] else Insert(s[0], Sorted(s[1..]))
  }

  method Deduplicate(vals: seq<int>) returns (r: seq<int>)
    ensures Ascending(r)
    ensures forall v :: v in r <==> v in vals
  {
    var seen: set<int> := {};
    r := [];
    for i := 0 to |vals|
      invariant forall v :: v in seen <==> v in vals[..i]
      invariant forall v :: v in r <==> v in seen
      invariant forall j, k | 0 <= j < k < |r| :: r[j] != r[k]
    {
      if vals[i] !in seen {
        seen := seen + {vals[i]};
        r := r + [vals[i]];
      }
    }
    r := Sorted(r);
  }

  method ParsePart(part: string, lo: int, hi: int) returns (r: Result<seq<int>, ()>)
    requires 0 <= lo <= hi <= 59
    ensures r.Success? <==> exists p :: Spells(part, lo, hi, p)
    ensures forall p :: Spells(part, lo, hi, p) ==> LoopValue(p.start, p.end, p.step) && r.Success? && r.value == Expand(p.start, p.end, p.step)
    ensures r.Success? <==> PartMeaning(part, lo, hi).Some?
  {
    hide PartMeaning, Spells;
    forall p ensures PartMeaning(part, lo, hi) == Some(p) <==> Spells(part, lo, hi, p) {
      PartGrammar(part, lo, hi, p);
    }
    var meaning := PartMeaning(part, lo, hi);
    if meaning.None? {
      return Failure(());
    }
    var p := meaning.value;
    var vals, v := [], p.start;
    while v <= p.end
      invariant LoopValue(p.start, p.end, p.step) && LoopValue(v, p.end, p.step)
      invariant Expand(p.start, p.end, p.step) == vals + Expand(v, p.end, p.step)
      decreases LoopRank(v, p.end, p.step)
    {
      vals := vals + [v];
      v := WrapAdd(v, p.step);
    }
    r := Success(vals);
  }

  /** What a parsed field holds: its denoted values in order, unless a step overflows. */
  ghost predicate Holds(vals: seq<int>, field: string, lo: int, hi: int)
    requires 0 <= lo <= hi <= 59
  {
    && Ascending(vals) && HasValueIn(vals, lo, hi)
    && (StepsFit(field, lo, hi) ==> forall v :: v in vals <==> FieldDenotes(field, lo, hi, v))
    && (StepsFit(field, lo, hi) <==> forall v :: v in vals ==> lo <= v <= hi)
    && (StepsStayOut(field, lo, hi) ==> forall v | lo <= v <= hi :: v in vals <==> FieldDenotes(field, lo, hi, v))
  }

  /** `vals` is everything the first `n` parts of the field expand to. */
  ghost predicate Gathered(vals: seq<int>, parts: seq<string>, n: nat, lo: int, hi: int)
    requires 0 <= lo <= hi <= 59 && n <= |parts|
  {
    && (forall i | 0 <= i < n :: PartMeaning(parts[i], lo, hi).Some?)
    && (forall v :: v in vals <==> exists i | 0 <= i < n :: InPart(parts[i], lo, hi, v))
  }

  ghost predicate InPart(part: string, lo: int, hi: int, v: int)
    requires 0 <= lo <= hi <= 59
  {
    var m := PartMeaning(part, lo, hi);
    m.Some? && LoopValue(m.value.start, m.value.end, m.value.step)
    && v in Expand(m.value.start, m.value.end, m.value.step)
  }

  lemma GatheredStep(vals: seq<int>, parts: seq<string>, n: nat, lo: int, hi: int, more: seq<int>)
    requires 0 <= lo <= hi <= 59 && n < |parts| && Gathered(vals, parts, n, lo, hi)
    requires PartMeaning(parts[n], lo, hi).Some?
    requires forall v :: v in more <==> InPart(parts[n], lo, hi, v)
    ensures Gathered(vals + more, parts, n + 1, lo, hi)
  {
    forall v
      ensures v in vals + more <==> exists i | 0 <= i < n + 1 :: InPart(parts[i], lo, hi, v)
    {
      assert v in vals + more <==> v in vals || v in more;
    }
  }

  lemma PartExpands(part: string, lo: int, hi: int, vals: seq<int>)
    requires 0 <= lo <= hi <= 59 && PartMeaning(part, lo, hi).Some?
    requires forall p :: Spells(part, lo, hi, p) ==> LoopValue(p.start, p.end, p.step) && vals == Expand(p.start, p.end, p.step)
    ensures forall v :: v in vals <==> InPart(part, lo, hi, v)
  {
    hide PartMeaning, Spells, LoopValue, Expand;
    PartGrammar(part, lo, hi, PartMeaning(part, lo, hi).value);
  }

  lemma PartInRange(part: string, lo: int, hi: int)
    requires 0 <= lo <= hi <= 59 && PartMeaning(part, lo, hi).Some?
    ensures var p := PartMeaning(part, lo, hi).value;
            && InPart(part, lo, hi, p.start)
            && (p.start + p.step <= MAX_INT ==> forall v :: InPart(part, lo, hi, v) <==> p.Denotes(v))
            && (p.start + p.step > MAX_INT ==> exists v :: InPart(part, lo, hi, v) && v < lo)
            && (p.SecondWrapped() < lo ==> forall v | lo <= v :: InPart(part, lo, hi, v) <==> p.Denotes(v))
  {
    hide PartMeaning, OnGrid;
    var p := PartMeaning(part, lo, hi).value;
    ExpandInRangeExactly(p, lo);
    assert Expand(p.start, p.end, p.step)[0] == p.start;
    if p.start + p.step <= MAX_INT {
      forall v
        ensures InPart(part, lo, hi, v) <==> p.Denotes(v)
      {
        ExpandFits(p, v);
      }
    } else {
      var v := ExpandOverflows(p);
      assert InPart(part, lo, hi, v);
    }
  }

  lemma GatheredDenotes(vals: seq<int>, field: string, lo: int, hi: int, v: int)
    requires 0 <= lo <= hi <= 59 && (StepsFit(field, lo, hi) || (StepsStayOut(field, lo, hi) && lo <= v))
    requires Gathered(vals, Split(field, ','), |Split(field, ',')|, lo, hi)
    ensures v in vals <==> FieldDenotes(field, lo, hi, v)
  {
    hide PartMeaning, StepsFit, StepsStayOut, FieldDenotes, InPart, OnGrid;
    FieldGrammar(field, lo, hi);
    var parts := Split(field, ',');
    if v in vals {
      var i :| 0 <= i < |parts| && InPart(parts[i], lo, hi, v);
      PartInRange(parts[i], lo, hi);
      assert parts[i] in parts;
    }
    if FieldDenotes(field, lo, hi, v) {
      var part :| part in parts && PartMeaning(part, lo, hi).Some? && PartMeaning(part, lo, hi).value.Denotes(v);
      var i :| 0 <= i < |parts| && parts[i] == part;
      PartInRange(parts[i], lo, hi);
      assert InPart(parts[i], lo, hi, v);
    }
  }

  lemma GatheredOverflow(vals: seq<int>, field: string, lo: int, hi: int) returns (v: int)
    requires 0 <= lo <= hi <= 59 && !StepsFit(field, lo, hi)
    requires Gathered(vals, Split(field, ','), |Split(field, ',')|, lo, hi)
    ensures v in vals && v < lo
  {
    hide PartMeaning, StepsFit, InPart;
    FieldGrammar(field, lo, hi);
    var parts := Split(field, ',');
    var i :| 0 <= i < |parts| && PartMeaning(parts[i], lo, hi).Some? &&
             PartMeaning(parts[i], lo, hi).value.start + PartMeaning(parts[i], lo, hi).value.step > MAX_INT;
    PartInRange(parts[i], lo, hi);
    v :| InPart(parts[i], lo, hi, v) && v < lo;
  }

  lemma DenotedInRange(field: string, lo: int, hi: int, v: int)
    requires 0 <= lo <= hi <= 59 && FieldDenotes(field, lo, hi, v)
    ensures lo <= v <= hi
  {
    hide PartMeaning, FieldDenotes, OnGrid;
    FieldGrammar(field, lo, hi);
  }

  lemma GatheredHolds(vals: seq<int>, gathered: seq<int>, field: string, lo: int, hi: int)
    requires 0 <= lo <= hi <= 59 && Ascending(vals)
    requires forall v :: v in vals <==> v in gathered
    requires Gathered(gathered, Split(field, ','), |Split(field, ',')|, lo, hi)
    ensures Holds(vals, field, lo, hi)
  {
    hide PartMeaning, StepsFit, StepsStayOut, FieldDenotes, InPart;
    var parts := Split(field, ',');
    PartInRange(parts[0], lo, hi);
    var first := PartMeaning(parts[0], lo, hi).value.start;
    assert first in vals && lo <= first <= hi;
    forall v
      ensures StepsFit(field, lo, hi) ==> (v in vals <==> FieldDenotes(field, lo, hi, v))
      ensures StepsStayOut(field, lo, hi) && lo <= v ==> (v in vals <==> FieldDenotes(field, lo, hi, v))
      ensures FieldDenotes(field, lo, hi, v) ==> lo <= v <= hi
    {
      if StepsFit(field, lo, hi) || (StepsStayOut(field, lo, hi) && lo <= v) {
        GatheredDenotes(gathered, field, lo, hi, v);
      }
      if FieldDenotes(field, lo, hi, v) {
        DenotedInRange(field, lo, hi, v);
      }
    }
    if !StepsFit(field, lo, hi) {
      var v := GatheredOverflow(gathered, field, lo, hi);
      assert v in vals;
    }
  }

  method ParseField(field: string, lo: int, hi: int) returns (r: Result<seq<int>, ()>)
    requires 0 <= lo <= hi <= 59
    ensures r.Success? <==> FieldOk(field, lo, hi)
    ensures r.Success? ==> Holds(r.value, field, lo, hi)
  {
    hide PartMeaning, FieldOk, Holds, Spells;
    FieldGrammar(field, lo, hi);
    var parts := Split(field, ',');
    var gathered := [];
    for i := 0 to |parts|
      invariant Gathered(gathered, parts, i, lo, hi)
    {
      var vals := ParsePart(parts[i], lo, hi);
      if vals.Failure? {
        return Failure(());
      }
      PartExpands(parts[i], lo, hi, vals.value);
      GatheredStep(gathered, parts, i, lo, hi, vals.value);
      gathered := gathered + vals.value;
    }
    var distinct := Deduplicate(gathered);
    GatheredHolds(distinct, gathered, field, lo, hi);
    r := Success(distinct);
  }

  method NormalizeDow(dows: seq<int>) returns (r: seq<int>)
    ensures Ascending(r)
    ensures forall v :: v in r <==> (v != 7 && v in dows) || (v == 0 && 7 in dows)
  {
    var s := dows;
    for i := 0 to |s|
      invariant |s| == |dows|
      invariant forall j | 0 <= j < i :: s[j] == if dows[j] == 7 then 0 else dows[j]
      invariant forall j | i <= j < |s| :: s[j] == dows[j]
    {
      if s[i] == 7 {
        s := s[i := 0];
      }
    }
    r := Deduplicate(s);
    forall v
      ensures v in s <==> (v != 7 && v in dows) || (v == 0 && 7 in dows)
    {
      if v in dows {
        var j :| 0 <= j < |dows| && dows[j] == v;
        assert s[j] == if v == 7 then 0 else v;
      }
      if 7 in dows {
        var j :| 0 <= j < |dows| && dows[j] == 7;
        assert s[j] == 0;
      }
    }
  }

  /** `strings.Fields`: the maximal runs of non-space characters. */
  function Fields(s: string): (r: seq<string>)
    decreases |s|
  {
    var t := TrimLeft(s, IsSpace);
    if t == "" then [] else
      var n := WordLength(t);
      [t[..n]] + Fields(t[n..])
  }

  function WordLength(s: string): (n: nat)
    ensures n <= |s| && (s != "" && !IsSpace(s[0]) ==> n > 0)
    ensures forall i | 0 <= i < n :: !IsSpace(s[i])
    ensures n < |s| ==> IsSpace(s[n])
  {
    if s == "" || IsSpace(s[0]) then 0 else 1 + WordLength(s[1..])
  }

  lemma {:induction false} TrimLeftBlanks(pad: string, s: string)
    requires (forall c | c in pad :: IsSpace(c)) && (s == "" || !IsSpace(s[0]))
    ensures TrimLeft(pad + s, IsSpace) == s
  {
    if pad == "" {
      assert pad + s == s;
    } else {
      assert (pad + s)[0] == pad[0] && pad[0] in pad && (pad + s)[1..] == pad[1..] + s;
      TrimLeftBlanks(pad[1..], s);
    }
  }

  /** Words and the blanks between them, in any number, are read back as the words. */
  lemma FieldsOfText(pad: string, word: string, rest: string)
    requires forall c | c in pad :: IsSpace(c)
    requires word != "" && (forall c | c in word :: !IsSpace(c)) && (rest == "" || IsSpace(rest[0]))
    ensures Fields(pad) == [] && Fields(pad + (word + rest)) == [word] + Fields(rest)
  {
    hide TrimLeft, IsSpace;
    var t := word + rest;
    assert word[0] in word && t[0] == word[0];
    TrimLeftBlanks(pad, t);
    TrimLeftBlanks(pad, "");
    assert pad + "" == pad;
    var n := WordLength(t);
    assert n <= |word| by {
      assert rest != "" ==> t[|word|] == rest[0];
    }
    assert forall i | 0 <= i < |word| :: t[i] in word;
    assert t[..n] == word && t[n..] == rest;
  }

  /** The five fields and the bounds each is read against. */
  ghost predicate ExpressionOk(fields: seq<string>) {
    && |fields| == 5
    && FieldOk(fields[0], 0, 59) && FieldOk(fields[1], 0, 23) && FieldOk(fields[2], 1, 31)
    && FieldOk(fields[3], 1, 12) && FieldOk(fields[4], 0, 7)
  }

  /** The schedule carries each field's values, with day-of-week 7 read as Sunday. */
  ghost predicate Means(s: Schedule, fields: seq<string>)
    requires ExpressionOk(fields)
  {
    && Holds(s.minutes, fields[0], 0, 59) && Holds(s.hours, fields[1], 0, 23)
    && Holds(s.doms, fields[2], 1, 31) && Holds(s.months, fields[3], 1, 12)
    && (s.domIsWild <==> fields[2] == "*") && (s.dowIsWild <==> fields[4] == "*")
    && HoldsWeekdays(s.dows, fields[4])
  }

  ghost predicate HoldsWeekdays(dows: seq<int>, field: string) {
    && Ascending(dows) && HasValueIn(dows, 0, 6)
    && (StepsFit(field, 0, 7) ==>
          forall v :: v in dows <==>
                        0 <= v <= 6 && (FieldDenotes(field, 0, 7, v) || (v == 0 && FieldDenotes(field, 0, 7, 7))))
    && (StepsFit(field, 0, 7) <==> forall v :: v in dows ==> 0 <= v <= 6)
    && (StepsStayOut(field, 0, 7) ==>
          forall v | 0 <= v <= 6 :: v in dows <==> FieldDenotes(field, 0, 7, v) || (v == 0 && FieldDenotes(field, 0, 7, 7)))
  }

  /** Every schedule `Parse` returns meets what `Next` needs, overflowing steps included. */
  method Parse(expr: string) returns (r: Result<Schedule, ()>)
    ensures r.Success? <==> ExpressionOk(Fields(TrimSpace(expr)))
    ensures r.Success? ==> Parsed(r.value) && Means(r.value, Fields(TrimSpace(expr)))
  {
    hide Fields, TrimSpace, FieldOk, Holds, HoldsWeekdays, Parsed;
    var fields := Fields(TrimSpace(expr));
    if |fields| != 5 {
      return Failure(());
    }
    var minutes := ParseField(fields[0], 0, 59);
    if minutes.Failure? { return Failure(()); }
    var hours := ParseField(fields[1], 0, 23);
    if hours.Failure? { return Failure(()); }
    var doms := ParseField(fields[2], 1, 31);
    if doms.Failure? { return Failure(()); }
    var months := ParseField(fields[3], 1, 12);
    if months.Failure? { return Failure(()); }
    var dows := ParseField(fields[4], 0, 7);
    if dows.Failure? { return Failure(()); }
    var normalized := NormalizeDow(dows.value);
    NormalizedHolds(dows.value, normalized, fields[4]);
    r := Success(Schedule(minutes.value, hours.value, doms.value, months.value, normalized,
                          fields[2] == "*", fields[4] == "*"));
    MeaningIsParsed(r.value, fields);
  }

  lemma MeaningIsParsed(s: Schedule, fields: seq<string>)
    requires ExpressionOk(fields) && Means(s, fields)
    ensures Parsed(s)
  {
    hide FieldOk, FieldDenotes, StepsFit;
  }

  lemma NormalizedHolds(dows: seq<int>, r: seq<int>, field: string)
    requires Holds(dows, field, 0, 7) && Ascending(r)
    requires forall v :: v in r <==> (v != 7 && v in dows) || (v == 0 && 7 in dows)
    ensures HoldsWeekdays(r, field)
  {
    hide StepsFit, StepsStayOut, FieldDenotes;
    var v :| v in dows && 0 <= v <= 7;
    assert (if v == 7 then 0 else v) in r;
  }

  // ---------- what an expression fires on ----------

  /** No field wraps back into its range. */
  ghost predicate StepsOk(fields: seq<string>)
    requires |fields| == 5
  {
    && StepsStayOut(fields[0], 0, 59) && StepsStayOut(fields[1], 0, 23) && StepsStayOut(fields[2], 1, 31)
    && StepsStayOut(fields[3], 1, 12) && StepsStayOut(fields[4], 0, 7)
  }

  ghost predicate OnWeekday(field: string, t: Time)
    requires t.Valid()
  {
    FieldDenotes(field, 0, 7, t.Weekday()) || (t.Weekday() == 0 && FieldDenotes(field, 0, 7, 7))
  }

  /** The day is named by the day-of-month or by the day-of-week field; a bare `*` names none, unless both are bare. */
  ghost predicate NamesDay(fields: seq<string>, t: Time)
    requires |fields| == 5 && t.Valid()
  {
    || (fields[2] == "*" && fields[4] == "*")
    || (fields[2] != "*" && FieldDenotes(fields[2], 1, 31, t.day))
    || (fields[4] != "*" && OnWeekday(fields[4], t))
  }

  /** From text to firing: an expression whose steps stay out of range fires exactly on the minutes its fields name. */
  lemma ExpressionFires(fields: seq<string>, s: Schedule, t: Time)
    requires ExpressionOk(fields) && Means(s, fields) && StepsOk(fields) && t.Valid()
    ensures Matches(s, t) <==>
              && FieldDenotes(fields[0], 0, 59, t.minute) && FieldDenotes(fields[1], 0, 23, t.hour)
              && FieldDenotes(fields[3], 1, 12, t.month) && NamesDay(fields, t)
  {
    hide StepsFit, StepsStayOut, FieldDenotes, FieldOk, Time.DayNumber;
  }
}
