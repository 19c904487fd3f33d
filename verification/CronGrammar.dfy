/**
 The language of a cron field: comma-separated parts, each `*`, a range or a value, with an optional step. A part
 denotes an arithmetic progression. Numerals are those of `strconv.Atoi`: an optional sign and decimal digits.
 */
module CronGrammar {
  import opened Text

  const MAX_INT := 0x7FFF_FFFF_FFFF_FFFF
  const MIN_INT := -0x8000_0000_0000_0000
  const TWO_TO_THE_64 := 0x1_0000_0000_0000_0000

  /** The progression `start, start + step, ...` up to `end`. */
  datatype Progression = Progression(start: int, end: int, step: int) {
    predicate Valid(lo: int, hi: int) { lo <= start <= end <= hi && 1 <= step <= MAX_INT }

    predicate Denotes(v: int)
      requires step > 0
    {
      start <= v <= end && OnGrid(v - start, step)
    }

    /** The second value after `start` when the first addition wraps around; the largest of all that follow. */
    function SecondWrapped(): int { start + 2 * step - TWO_TO_THE_64 }
  }

  predicate OnGrid(distance: int, step: int)
    requires step > 0
  {
    distance % step == 0
  }

  predicate IsDigit(c: char) { '0' <= c <= '9' }

  /** The number a string of digits stands for. */
  function Decimal(digits: string): nat
    requires forall c | c in digits :: IsDigit(c)
  {
    if digits == "" then 0
    else
      assert IsDigit(digits[|digits| - 1]);
      10 * Decimal(digits[..|digits| - 1]) + (digits[|digits| - 1] as int - '0' as int)
  }

  datatype Sign = Unsigned | Plus | Minus

  datatype Numeral = Numeral(sign: Sign, digits: string) {
    predicate Valid() {
      digits != "" && (forall c | c in digits :: IsDigit(c)) && MIN_INT <= Value() <= MAX_INT
    }

    function Value(): int
      requires forall c | c in digits :: IsDigit(c)
    {
      if sign == Minus then -(Decimal(digits) as int) else Decimal(digits)
    }

    function Text(): string {
      (match sign case Unsigned => "" case Plus => "+" case Minus => "-") + digits
    }
  }

  datatype Base = Star | Range(from: Numeral, to: Numeral) | Single(at: Numeral) {
    /** Only the upper end of a range may carry a minus, as in `0--0`. */
    predicate Valid(lo: int, hi: int) {
      match this
      case Star => true
      case Range(from, to) => from.Valid() && to.Valid() && from.sign != Minus && lo <= from.Value() <= to.Value() <= hi
      case Single(at) => at.Valid() && at.sign != Minus && lo <= at.Value() <= hi
    }

    function Text(): string {
      match this
      case Star => "*"
      case Range(from, to) => from.Text() + "-" + to.Text()
      case Single(at) => at.Text()
    }
  }

  datatype Part = Part(base: Base, step: Option<Numeral>) {
    predicate Valid(lo: int, hi: int) {
      base.Valid(lo, hi) && (step.Some? ==> step.value.Valid() && step.value.Value() > 0)
    }

    function Text(): string {
      base.Text() + if step.Some? then "/" + step.value.Text() else ""
    }

    /** A single value with a step runs to the end of the field's range. */
    function Meaning(lo: int, hi: int): (p: Progression)
      requires lo <= hi && Valid(lo, hi)
      ensures p.Valid(lo, hi)
    {
      var increment := if step.Some? then step.value.Value() else 1;
      match base
      case Star => Progression(lo, hi, increment)
      case Range(from, to) => Progression(from.Value(), to.Value(), increment)
      case Single(at) => Progression(at.Value(), if step.Some? then hi else at.Value(), increment)
    }
  }

  /** The text is a part of the language and denotes `p`. */
  ghost predicate Spells(text: string, lo: int, hi: int, p: Progression)
    requires lo <= hi
  {
    exists x: Part :: IsText(x, text, lo, hi) && x.Meaning(lo, hi) == p
  }

  predicate IsText(x: Part, text: string, lo: int, hi: int)
    requires lo <= hi
  {
    x.Valid(lo, hi) && x.Text() == text
  }

  /** Every part of the field is in the language. */
  ghost predicate FieldOk(field: string, lo: int, hi: int)
    requires lo <= hi
  {
    forall part | part in Split(field, ',') :: exists p :: Spells(part, lo, hi, p)
  }

  ghost predicate FieldDenotes(field: string, lo: int, hi: int, v: int)
    requires lo <= hi
  {
    exists part, p | part in Split(field, ',') :: Spells(part, lo, hi, p) && p.step > 0 && p.Denotes(v)
  }

  /** No part's first addition of its step overflows `int`. */
  ghost predicate StepsFit(field: string, lo: int, hi: int)
    requires lo <= hi
  {
    forall part, p | part in Split(field, ',') :: Spells(part, lo, hi, p) ==> p.start + p.step <= MAX_INT
  }

  /** No part wraps around back into the field's range. */
  ghost predicate StepsStayOut(field: string, lo: int, hi: int)
    requires lo <= hi
  {
    forall part, p | part in Split(field, ',') :: Spells(part, lo, hi, p) ==> p.SecondWrapped() < lo
  }
}
