/**
 The bounded accumulation of dispatch failure causes in `last_error`. Lengths are in characters, as the
 column counts them.
 */
module LastError {
  import opened Text

  const MAX_LENGTH := 512
  const MARKER_TEXT := "... (later causes truncated)"
  const MARKER := "\n" + MARKER_TEXT
  const BUDGET: nat := MAX_LENGTH - |MARKER|

  /** `strings.Contains`. */
  predicate Contains(s: string, sub: string) {
    exists i | 0 <= i <= |s| :: OccursAt(s, sub, i)
  }

  predicate OccursAt(s: string, sub: string, i: nat) {
    i + |sub| <= |s| && s[i..i + |sub|] == sub
  }

  /** `strings.NewReplacer("\r\n", " ", "\n", " ", "\r", " ")`. */
  function FoldNewlines(s: string): (r: string)
    ensures forall c | c in r :: c != '\n' && c != '\r'
    ensures '\n' !in s && '\r' !in s ==> r == s
  {
    if s == "" then ""
    else if |s| >= 2 && s[0] == '\r' && s[1] == '\n' then " " + FoldNewlines(s[2..])
    else if s[0] == '\n' || s[0] == '\r' then " " + FoldNewlines(s[1..])
    else [s[0]] + FoldNewlines(s[1..])
  }

  function NormalizeCause(cause: string): (r: string)
    ensures forall c | c in r :: c != '\n' && c != '\r'
  {
    TrimSpace(FoldNewlines(cause))
  }

  lemma BreakFolds(lineBreak: string, rest: string)
    requires lineBreak in {"\n", "\r\n", "\r"} && (lineBreak == "\r" ==> !("\n" <= rest))
    ensures FoldNewlines(lineBreak + rest) == " " + FoldNewlines(rest)
  {
    var s := lineBreak + rest;
    assert s[|lineBreak|..] == rest;
    assert |s| >= 2 && |lineBreak| == 1 ==> s[1] == rest[0];
  }

  lemma PlainStays(c: char, rest: string)
    requires c != '\n' && c != '\r'
    ensures FoldNewlines([c] + rest) == [c] + FoldNewlines(rest)
  {
    assert ([c] + rest)[1..] == rest;
  }

  /** Each line break of a cause, a carriage return and line feed being one, becomes one space; the lines stay as they are. */
  lemma {:induction false} LineBreaksFold(line: string, lineBreak: string, rest: string)
    requires '\n' !in line && '\r' !in line
    requires lineBreak in {"\n", "\r\n", "\r"} && (lineBreak == "\r" ==> !("\n" <= rest))
    ensures FoldNewlines(line + (lineBreak + rest)) == line + " " + FoldNewlines(rest)
  {
    hide FoldNewlines;
    var tail := lineBreak + rest;
    if line == "" {
      BreakFolds(lineBreak, rest);
      assert line + tail == tail && line + " " == " ";
    } else {
      LineBreaksFold(line[1..], lineBreak, rest);
      PlainStays(line[0], line[1..] + tail);
      assert line + tail == [line[0]] + (line[1..] + tail);
      assert line + " " + FoldNewlines(rest) == [line[0]] + (line[1..] + " " + FoldNewlines(rest));
    }
  }

  method TruncateToRuneBudget(s: string, budget: nat) returns (r: string)
    ensures r == Truncated(s, budget)
  {
    if |s| <= budget {
      return s;
    }
    var count := 0;
    for i := 0 to |s|
      invariant count == i <= budget
    {
      if count == budget {
        return s[..i];
      }
      count := count + 1;
    }
    r := s;
  }

  function Truncated(s: string, budget: nat): string {
    if |s| <= budget then s else s[..budget]
  }

  function BoundErrorCause(cause: string): string {
    var c := NormalizeCause(cause);
    if |c| <= BUDGET then c else Truncated(c, BUDGET) + MARKER
  }

  predicate HasCause(existing: string, cause: string) {
    cause in Split(existing, '\n')
  }

  function AppendErrorCause(existing: string, cause: string): string {
    var c := NormalizeCause(cause);
    if c == "" then existing
    else if TrimSpace(existing) == "" then BoundErrorCause(c)
    else if HasCause(existing, c) then existing
    else if Contains(existing, MARKER) then existing
    else if |existing| + 1 + |c| <= BUDGET then existing + "\n" + c
    else Truncated(existing, BUDGET) + MARKER
  }

  /** The value after a sequence of failures, from an empty column. */
  function Accumulated(causes: seq<string>): string {
    if causes == [] then "" else AppendErrorCause(Accumulated(causes[..|causes| - 1]), causes[|causes| - 1])
  }

  // ---------- the reference value ----------

  /** The distinct non-empty normalized causes, in the order first seen. */
  function FirstSeen(causes: seq<string>): (r: seq<string>)
    ensures forall c | c in r :: c != "" && '\n' !in c && !IsSpace(c[0]) && NormalizeCause(c) == c
  {
    if causes == [] then []
    else
      var before, c := FirstSeen(causes[..|causes| - 1]), NormalizeCause(causes[|causes| - 1]);
      if c == "" || c in before then before
      else
        NormalizedTwice(causes[|causes| - 1]);
        before + [c]
  }

  lemma NormalizedTwice(cause: string)
    ensures NormalizeCause(NormalizeCause(cause)) == NormalizeCause(cause)
  {
    hide FoldNewlines, Trim, IsSpace;
    TrimFixed(NormalizeCause(cause), IsSpace);
  }

  /** How many causes are kept: up to the first that would take the joined text over the budget. */
  function Kept(causes: seq<string>): (k: nat)
    ensures k <= |causes|
  {
    if causes == [] then 0
    else
      var n := |causes| - 1;
      var k := Kept(causes[..n]);
      if k == n && |Join(causes, '\n')| <= BUDGET then n + 1 else k
  }

  /** Whole causes one per line, and the marker once if any text was dropped. */
  function Ideal(causes: seq<string>): string {
    if causes == [] then "" else Rendered(causes[0], causes[..Kept(causes)], Kept(causes) < |causes|)
  }

  function Rendered(first: string, kept: seq<string>, dropped: bool): string {
    if kept == [] then Truncated(first, BUDGET) + MARKER
    else Join(kept, '\n') + (if dropped then MARKER else "")
  }

  /** No kept cause but the first, and the last of all, reads like the marker. */
  predicate Clear(causes: seq<string>) {
    forall j | 1 <= j < Kept(causes) && j + 1 < |causes| :: !(MARKER_TEXT <= causes[j])
  }

  // ---------- where the marker can occur ----------

  lemma OccursInTail(a: string, b: string, sub: string, i: nat)
    requires i >= |a|
    ensures OccursAt(a + b, sub, i) <==> OccursAt(b, sub, i - |a|)
  {
    if i + |sub| <= |a + b| {
      assert (a + b)[i..i + |sub|] == b[i - |a|..i - |a| + |sub|];
    }
  }

  lemma PrefixOfJoin(t: string, causes: seq<string>)
    requires causes != [] && '\n' !in t
    ensures t <= Join(causes, '\n') <==> t <= causes[0]
  {
    var s := Join(causes, '\n');
    assert causes[0] <= s;
    assert |s| > |causes[0]| ==> s[|causes[0]|] == '\n';
    assert forall i | 0 <= i < |t| :: t[i] in t;
  }

  lemma NoMarkerWithoutNewline(s: string)
    requires '\n' !in s
    ensures !Contains(s, MARKER)
  {
    forall i | 0 <= i <= |s|
      ensures !OccursAt(s, MARKER, i)
    {
      if i + |MARKER| <= |s| {
        assert s[i..i + |MARKER|][0] == s[i] && s[i] in s && MARKER[0] == '\n';
      }
    }
  }

  /** Among joined causes the marker occurs exactly where a later cause starts with its text. */
  lemma {:induction false} MarkerInJoin(causes: seq<string>)
    requires forall c | c in causes :: '\n' !in c
    ensures Contains(Join(causes, '\n'), MARKER) <==> exists j | 1 <= j < |causes| :: MARKER_TEXT <= causes[j]
  {
    var s := Join(causes, '\n');
    if |causes| <= 1 {
      NoMarkerWithoutNewline(s);
    } else {
      var head, rest := causes[0], Join(causes[1..], '\n');
      MarkerInJoin(causes[1..]);
      PrefixOfJoin(MARKER_TEXT, causes[1..]);
      MarkerAfterHead(head, rest);
      assert s == head + "\n" + rest;
      assert causes[1..][0] == causes[1];
      if exists j | 1 <= j < |causes| :: MARKER_TEXT <= causes[j] {
        var j :| 1 <= j < |causes| && MARKER_TEXT <= causes[j];
        assert j > 1 ==> causes[1..][j - 1] == causes[j];
      }
      if exists j | 1 <= j < |causes| - 1 :: MARKER_TEXT <= causes[1..][j] {
        var j :| 1 <= j < |causes| - 1 && MARKER_TEXT <= causes[1..][j];
        assert causes[j + 1] == causes[1..][j];
      }
    }
  }

  lemma MarkerAfterHead(head: string, rest: string)
    requires '\n' !in head
    ensures Contains(head + "\n" + rest, MARKER) <==> MARKER_TEXT <= rest || Contains(rest, MARKER)
  {
    var s := head + "\n" + rest;
    assert s == head + ("\n" + rest) && |head + "\n"| == |head| + 1;
    if Contains(s, MARKER) {
      var i :| 0 <= i <= |s| && OccursAt(s, MARKER, i);
      assert s[i] == s[i..i + |MARKER|][0] == '\n';
      assert forall k | 0 <= k < |head| :: s[k] in head;
      if i == |head| {
        OccursInTail(head, "\n" + rest, MARKER, i);
        assert ("\n" + rest)[..|MARKER|][1..] == rest[..|MARKER_TEXT|];
      } else {
        OccursInTail(head + "\n", rest, MARKER, i);
        assert OccursAt(rest, MARKER, i - |head| - 1);
      }
    }
    if MARKER_TEXT <= rest {
      OccursInTail(head, "\n" + rest, MARKER, |head|);
      assert ("\n" + rest)[..|MARKER|] == "\n" + rest[..|MARKER_TEXT|];
      assert OccursAt(s, MARKER, |head|);
    }
    if Contains(rest, MARKER) {
      var i :| 0 <= i <= |rest| && OccursAt(rest, MARKER, i);
      OccursInTail(head + "\n", rest, MARKER, i + |head| + 1);
      assert OccursAt(s, MARKER, i + |head| + 1);
    }
  }

  lemma ContainsAtEnd(s: string)
    ensures Contains(s + MARKER, MARKER)
  {
    assert OccursAt(s + MARKER, MARKER, |s|);
  }

  // ---------- the accumulated value is the ideal one ----------

  lemma {:induction false} JoinAppend(causes: seq<string>, c: string)
    requires causes != []
    ensures Join(causes + [c], '\n') == Join(causes, '\n') + "\n" + c
  {
    if |causes| == 1 {
      assert causes + [c] == [causes[0], c];
    } else {
      assert (causes + [c])[1..] == causes[1..] + [c];
      JoinAppend(causes[1..], c);
    }
  }

  lemma KeptAppend(causes: seq<string>, c: string)
    ensures Kept(causes + [c]) == if Kept(causes) == |causes| && |Join(causes + [c], '\n')| <= BUDGET then |causes| + 1 else Kept(causes)
  {
    assert (causes + [c])[..|causes|] == causes;
  }

  /** Kept causes fit, and are all kept on their own. */
  lemma {:induction false} KeptFits(causes: seq<string>, k: nat)
    requires k <= Kept(causes)
    ensures Kept(causes[..k]) == k && |Join(causes[..k], '\n')| <= BUDGET
  {
    if causes != [] {
      var n := |causes| - 1;
      if k <= n {
        assert k <= Kept(causes[..n]);
        KeptFits(causes[..n], k);
        assert causes[..n][..k] == causes[..k];
      } else {
        assert causes[..k] == causes;
      }
    }
  }

  /** What the causes of a value are like: one line each, non-empty, trimmed. */
  predicate Lines(causes: seq<string>) {
    forall c | c in causes :: c != "" && '\n' !in c && !IsSpace(c[0]) && NormalizeCause(c) == c
  }

  lemma IdealStarts(causes: seq<string>)
    requires Lines(causes) && causes != []
    ensures Ideal(causes) != "" && !IsSpace(Ideal(causes)[0]) && TrimSpace(Ideal(causes)) != ""
  {
    hide NormalizeCause;
    var k := Kept(causes);
    assert causes[0] in causes;
    if k > 0 {
      assert causes[..k][0] == causes[0] && causes[0] <= Join(causes[..k], '\n');
    }
    assert Ideal(causes)[0] == causes[0][0];
    TrimEmpty(Ideal(causes), IsSpace);
    assert Ideal(causes)[0] in Ideal(causes);
  }

  lemma IdealSaturated(causes: seq<string>)
    requires Kept(causes) < |causes|
    ensures Contains(Ideal(causes), MARKER)
  {
    if Kept(causes) == 0 {
      ContainsAtEnd(Truncated(causes[0], BUDGET));
    } else {
      ContainsAtEnd(Join(causes[..Kept(causes)], '\n'));
    }
  }

  lemma IdealWhole(causes: seq<string>)
    requires Kept(causes) == |causes|
    ensures Ideal(causes) == Join(causes, '\n') && |Ideal(causes)| <= BUDGET
  {
    assert causes[..|causes|] == causes;
    KeptFits(causes, |causes|);
    assert Join(causes, '\n') + "" == Join(causes, '\n');
  }

  /** A cause already recorded changes nothing. */
  lemma AppendRecorded(causes: seq<string>, cause: string)
    requires Lines(causes) && (NormalizeCause(cause) == "" || NormalizeCause(cause) in causes)
    ensures AppendErrorCause(Ideal(causes), cause) == Ideal(causes)
  {
    hide NormalizeCause, Contains, Kept, Join, TrimSpace, Ideal, Split;
    var c := NormalizeCause(cause);
    if c != "" {
      IdealStarts(causes);
      if Kept(causes) < |causes| {
        IdealSaturated(causes);
      } else {
        IdealWhole(causes);
        SplitJoin(causes, '\n');
      }
    }
  }

  /** A new cause is appended, or dropped with the marker. */
  lemma AppendNew(causes: seq<string>, cause: string)
    requires Lines(causes) && Clear(causes + [NormalizeCause(cause)])
    requires NormalizeCause(cause) != "" && NormalizeCause(cause) !in causes
    ensures AppendErrorCause(Ideal(causes), cause) == Ideal(causes + [NormalizeCause(cause)])
  {
    hide NormalizeCause, Contains, Kept, Join, TrimSpace, Ideal, Split, BoundErrorCause;
    var c := NormalizeCause(cause);
    KeptAppend(causes, c);
    NormalizedTwice(cause);
    if causes == [] {
      FirstCause(c);
    } else {
      IdealStarts(causes);
      if Kept(causes) < |causes| {
        IdealSaturated(causes);
        IdealStays(causes, c);
      } else {
        IdealWhole(causes);
        SplitJoin(causes, '\n');
        MarkerInJoin(causes);
        assert forall j | 1 <= j < |causes| :: (causes + [c])[j] == causes[j];
        JoinAppend(causes, c);
        if |Join(causes + [c], '\n')| <= BUDGET {
          IdealWhole(causes + [c]);
        } else {
          IdealOverflows(causes, c);
        }
      }
    }
  }

  lemma IdealStays(causes: seq<string>, c: string)
    requires Kept(causes) < |causes|
    ensures Ideal(causes + [c]) == Ideal(causes)
  {
    hide Kept, Rendered, Join;
    KeptAppend(causes, c);
    var longer, k := causes + [c], Kept(causes);
    assert longer[0] == causes[0] && longer[..k] == causes[..k];
  }

  lemma IdealOverflows(causes: seq<string>, c: string)
    requires causes != [] && Kept(causes) == |causes| && |Join(causes + [c], '\n')| > BUDGET
    ensures Ideal(causes + [c]) == Join(causes, '\n') + MARKER
  {
    KeptAppend(causes, c);
    assert (causes + [c])[..|causes|] == causes;
  }

  lemma FirstCause(c: string)
    requires c != "" && NormalizeCause(c) == c
    ensures BoundErrorCause(c) == Ideal([c]) == Ideal([] + [c]) && Ideal([]) == "" && TrimSpace("") == ""
  {
    hide NormalizeCause;
    assert [c][..1] == [c] && [c][..0] == [];
    assert Kept([c]) == if |c| <= BUDGET then 1 else 0;
    assert TrimSpace("") == "";
  }

  lemma ClearPrefix(causes: seq<string>, c: string)
    requires Clear(causes + [c])
    ensures Clear(causes)
  {
    hide Kept;
    KeptAppend(causes, c);
    forall j | 1 <= j < Kept(causes) && j + 1 < |causes|
      ensures !(MARKER_TEXT <= causes[j])
    {
      assert (causes + [c])[j] == causes[j];
    }
  }

  lemma {:induction false} AccumulatedIsIdeal(causes: seq<string>)
    requires Clear(FirstSeen(causes))
    ensures Accumulated(causes) == Ideal(FirstSeen(causes))
  {
    hide AppendErrorCause, Ideal, Clear, NormalizeCause;
    if causes == [] {
      IdealOfNothing();
    } else {
      var front, last := causes[..|causes| - 1], causes[|causes| - 1];
      var before, c := FirstSeen(front), NormalizeCause(last);
      if c == "" || c in before {
        AccumulatedIsIdeal(front);
        AppendRecorded(before, last);
      } else {
        ClearPrefix(before, c);
        AccumulatedIsIdeal(front);
        AppendNew(before, last);
      }
    }
  }

  lemma IdealOfNothing()
    ensures Ideal([]) == ""
  {
  }

  /** A value that contains the marker never changes again. */
  lemma SaturatedStays(existing: string, cause: string)
    requires Contains(existing, MARKER) && TrimSpace(existing) != ""
    ensures AppendErrorCause(existing, cause) == existing
  {
  }

  lemma JoinStarts(causes: seq<string>)
    requires Lines(causes) && causes != []
    ensures TrimSpace(Join(causes, '\n')) != ""
  {
    hide NormalizeCause;
    var s := Join(causes, '\n');
    assert causes[0] in causes && causes[0] <= s;
    TrimEmpty(s, IsSpace);
    assert s[0] == causes[0][0] && s[0] in s;
  }

  /** A kept cause that reads like the marker freezes the value at that cause. */
  lemma {:induction false} AccumulatedFreezes(causes: seq<string>, j: nat)
    requires var ds := FirstSeen(causes); 1 <= j < Kept(ds) && MARKER_TEXT <= ds[j]
    requires forall i | 1 <= i < j :: !(MARKER_TEXT <= FirstSeen(causes)[i])
    ensures Accumulated(causes) == Join(FirstSeen(causes)[..j + 1], '\n')
  {
    hide AppendErrorCause, Ideal, NormalizeCause, Kept, Join, Contains;
    KeptNothing();
    if causes != [] {
      var front, last, ds := causes[..|causes| - 1], causes[|causes| - 1], FirstSeen(causes);
      var before, c := FirstSeen(front), NormalizeCause(last);
      var frozen := ds[..j + 1];
      assert Lines(ds) && Lines(frozen);
      if before != ds {
        KeptAppend(before, c);
      }
      if j < |before| {
        assert before[..j + 1] == frozen && forall i | 1 <= i <= j :: before[i] == ds[i];
        AccumulatedFreezes(front, j);
        MarkerInJoin(frozen);
        assert frozen[j] == ds[j];
        JoinStarts(frozen);
        SaturatedStays(Join(frozen, '\n'), last);
      } else {
        AccumulatedIsIdeal(causes);
        IdealWhole(ds);
        assert frozen == ds;
      }
    }
  }

  lemma KeptNothing()
    ensures Kept([]) == 0
  {
  }

  lemma {:induction false} JoinLonger(causes: seq<string>, k: nat)
    requires 1 <= k < |causes|
    ensures |Join(causes[..k], '\n')| < |Join(causes, '\n')|
  {
    var n := |causes| - 1;
    assert causes == causes[..n] + [causes[n]];
    JoinAppend(causes[..n], causes[n]);
    if k < n {
      JoinLonger(causes[..n], k);
      assert causes[..n][..k] == causes[..k];
    }
  }

  lemma RenderedLength(first: string, kept: seq<string>, dropped: bool)
    requires kept != []
    ensures |Rendered(first, kept, dropped)| >= |Join(kept, '\n')| + if dropped then 1 else 0
  {
    hide Join;
  }

  lemma FrozenIsNotIdeal(causes: seq<string>, j: nat)
    requires 1 <= j < Kept(causes) && j + 1 < |causes|
    ensures Join(causes[..j + 1], '\n') != Ideal(causes)
  {
    hide Kept, Join, Rendered;
    var kept := causes[..Kept(causes)];
    RenderedLength(causes[0], kept, Kept(causes) < |causes|);
    if |kept| > j + 1 {
      JoinLonger(kept, j + 1);
      assert kept[..j + 1] == causes[..j + 1];
    }
  }

  /**
   The accumulated value is the newline join of the first-seen distinct causes up to the first that does not
   fit, marked once if text was dropped, exactly when no kept cause in between reads like the marker.
   */
  lemma AccumulatedExactly(causes: seq<string>)
    ensures Accumulated(causes) == Ideal(FirstSeen(causes)) <==> Clear(FirstSeen(causes))
  {
    hide Accumulated, Ideal, FirstSeen, Kept;
    var ds := FirstSeen(causes);
    if Clear(ds) {
      AccumulatedIsIdeal(causes);
    } else {
      var j := FirstLookalike(ds);
      AccumulatedFreezes(causes, j);
      FrozenIsNotIdeal(ds, j);
    }
  }

  lemma FirstLookalike(causes: seq<string>) returns (j: nat)
    requires !Clear(causes)
    ensures 1 <= j < Kept(causes) && j + 1 < |causes| && MARKER_TEXT <= causes[j]
    ensures forall i | 1 <= i < j :: !(MARKER_TEXT <= causes[i])
  {
    hide Kept;
    j :| 1 <= j < Kept(causes) && j + 1 < |causes| && MARKER_TEXT <= causes[j];
    while exists i | 1 <= i < j :: MARKER_TEXT <= causes[i]
      invariant 1 <= j < Kept(causes) && j + 1 < |causes| && MARKER_TEXT <= causes[j]
      decreases j
    {
      var i :| 1 <= i < j && MARKER_TEXT <= causes[i];
      j := i;
    }
  }

  lemma ThreeDistinct(a: string, b: string, c: string)
    requires Lines([a, b, c]) && a != b && a != c && b != c
    ensures FirstSeen([a, b, c]) == [a, b, c]
    ensures Join([a, b], '\n') == a + "\n" + b && Join([a, b, c], '\n') == a + "\n" + b + "\n" + c
    ensures |a| + |b| + |c| + 2 <= BUDGET ==> Kept([a, b, c]) == 3
  {
    hide NormalizeCause, FirstSeen, Kept;
    var all := [a, b, c];
    assert [a, b] == [a] + [b] && all == [a, b] + [c] && [a] == [] + [a];
    assert a in all && b in all && c in all;
    NothingSeen();
    FirstSeenNew([], a);
    FirstSeenNew([a], b);
    FirstSeenNew([a, b], c);
    JoinAppend([a], b);
    JoinAppend([a, b], c);
    KeptNothing();
    KeptAppend([], a);
    KeptAppend([a], b);
    KeptAppend([a, b], c);
  }

  /** A cause that reads like the marker, between two others that would all fit, loses the last one. */
  lemma LookalikeLosesCause(a: string, b: string)
    requires Lines([a, MARKER_TEXT, b]) && a != MARKER_TEXT && b != a && b != MARKER_TEXT && |a| + |b| < 400
    ensures Accumulated([a, MARKER_TEXT, b]) == a + "\n" + MARKER_TEXT
    ensures Ideal([a, MARKER_TEXT, b]) == a + "\n" + MARKER_TEXT + "\n" + b
  {
    hide NormalizeCause, FirstSeen, Kept, Ideal, Accumulated, Join;
    var all := [a, MARKER_TEXT, b];
    ThreeDistinct(a, MARKER_TEXT, b);
    assert all[..2] == [a, MARKER_TEXT];
    AccumulatedFreezes(all, 1);
    IdealWhole(all);
  }

  lemma NothingSeen()
    ensures FirstSeen([]) == []
  {
  }

  lemma FirstSeenNew(causes: seq<string>, c: string)
    requires NormalizeCause(c) == c && c != "" && c !in FirstSeen(causes)
    ensures FirstSeen(causes + [c]) == FirstSeen(causes) + [c]
  {
    hide NormalizeCause;
    assert (causes + [c])[..|causes|] == causes;
  }

  // ---------- what every value keeps ----------

  /** A blank value is replaced, as an empty column is; a blank cause changes nothing. */
  lemma BlanksAreReplaced(existing: string, cause: string)
    requires forall c | c in existing :: IsSpace(c)
    ensures AppendErrorCause(existing, cause)
         == if forall c | c in FoldNewlines(cause) :: IsSpace(c) then existing else AppendErrorCause("", cause)
  {
    hide FoldNewlines, Trim, IsSpace, BoundErrorCause;
    TrimEmpty(existing, IsSpace);
    TrimEmpty("", IsSpace);
    TrimEmpty(FoldNewlines(cause), IsSpace);
  }

  /** No append takes a value that fits the column over its width. */
  lemma NeverTooLong(existing: string, cause: string)
    requires |existing| <= 512
    ensures |AppendErrorCause(existing, cause)| <= 512
  {
    hide Contains, Split, TrimSpace, FoldNewlines;
  }

  /** What the rule itself produces: empty, or visible text that either leaves room for the marker or holds it. */
  predicate Made(value: string) {
    value == "" || (TrimSpace(value) != "" && (|value| <= BUDGET || Contains(value, MARKER)))
  }

  lemma VisiblePrefix(s: string, t: string)
    requires s <= t && TrimSpace(s) != ""
    ensures TrimSpace(t) != ""
  {
    TrimEmpty(s, IsSpace);
    TrimEmpty(t, IsSpace);
    var c :| c in s && !IsSpace(c);
    assert c in t;
  }

  /** Appending keeps a made value made and only ever extends it. */
  lemma AppendExtends(value: string, cause: string)
    requires Made(value)
    ensures Made(AppendErrorCause(value, cause)) && value <= AppendErrorCause(value, cause)
  {
    hide Contains, Split, TrimSpace, FoldNewlines, NormalizeCause;
    var r, c := AppendErrorCause(value, cause), NormalizeCause(cause);
    NormalizedTwice(cause);
    BlankIsEmpty();
    if c != "" && value == "" {
      NormalizedVisible(cause);
      if |c| > BUDGET {
        ContainsAtEnd(Truncated(c, BUDGET));
        TruncatedVisible(c);
        VisiblePrefix(Truncated(c, BUDGET), r);
      }
    } else if r != value {
      VisiblePrefix(value, r);
      ContainsAtEnd(Truncated(value, BUDGET));
    }
  }

  lemma BlankIsEmpty()
    ensures TrimSpace("") == ""
  {
  }

  lemma NormalizedVisible(cause: string)
    requires NormalizeCause(cause) != ""
    ensures TrimSpace(NormalizeCause(cause)) != ""
  {
    TrimFixed(NormalizeCause(cause), IsSpace);
  }

  lemma TruncatedVisible(c: string)
    requires NormalizeCause(c) == c && c != ""
    ensures TrimSpace(Truncated(c, BUDGET)) != ""
  {
    var t := Truncated(c, BUDGET);
    assert !IsSpace(c[0]);
    TrimEmpty(t, IsSpace);
    assert t[0] == c[0] && t[0] in t;
  }

  /** The cause is on record, or the value is saturated: appending it again changes nothing. */
  predicate Recorded(value: string, cause: string) {
    var c := NormalizeCause(cause);
    c == "" || (TrimSpace(value) != "" && (HasCause(value, c) || Contains(value, MARKER)))
  }

  lemma RecordedIsStable(value: string, cause: string)
    requires Recorded(value, cause)
    ensures AppendErrorCause(value, cause) == value
  {
    hide Contains, Split, TrimSpace, NormalizeCause;
  }

  /** Lines already there stay when a line is added. */
  lemma LinesPersist(s: string, line: string)
    requires '\n' !in line
    ensures Split(s + "\n" + line, '\n') == Split(s, '\n') + [line]
  {
    var parts := Split(s, '\n');
    JoinAppend(parts, line);
    SplitJoin(parts + [line], '\n');
  }

  lemma AppendRecords(value: string, cause: string)
    requires Made(value)
    ensures Recorded(AppendErrorCause(value, cause), cause)
  {
    hide Contains, Split, TrimSpace, FoldNewlines, NormalizeCause;
    var r, c := AppendErrorCause(value, cause), NormalizeCause(cause);
    AppendExtends(value, cause);
    NormalizedTwice(cause);
    BlankIsEmpty();
    if c != "" {
      if value == "" {
        ContainsAtEnd(Truncated(c, BUDGET));
        SplitJoin([c], '\n');
      } else if r != value {
        LinesPersist(value, c);
        ContainsAtEnd(Truncated(value, BUDGET));
      }
    }
  }

  lemma AppendKeepsRecord(value: string, cause: string, earlier: string)
    requires Made(value) && Recorded(value, earlier)
    ensures Recorded(AppendErrorCause(value, cause), earlier)
  {
    hide Contains, Split, TrimSpace, FoldNewlines, NormalizeCause;
    var r, c := AppendErrorCause(value, cause), NormalizeCause(cause);
    AppendExtends(value, cause);
    BlankIsEmpty();
    if r != value && NormalizeCause(earlier) != "" {
      VisiblePrefix(value, r);
      LinesPersist(value, c);
      ContainsAtEnd(Truncated(value, BUDGET));
    }
  }

  lemma {:induction false} AccumulatedRecords(causes: seq<string>)
    ensures Made(Accumulated(causes)) && |Accumulated(causes)| <= MAX_LENGTH
    ensures forall c | c in causes :: Recorded(Accumulated(causes), c)
  {
    hide AppendErrorCause, Made, Recorded;
    if causes == [] {
      EmptyIsMade();
    } else {
      var front, last := causes[..|causes| - 1], causes[|causes| - 1];
      AccumulatedRecords(front);
      NeverTooLong(Accumulated(front), last);
      AppendExtends(Accumulated(front), last);
      AppendRecords(Accumulated(front), last);
      forall c | c in front
        ensures Recorded(Accumulated(causes), c)
      {
        AppendKeepsRecord(Accumulated(front), last, c);
      }
    }
  }

  lemma EmptyIsMade()
    ensures Made("")
  {
  }

  /** Every value is a prefix of all later ones, within the column, and a repeated cause changes nothing. */
  lemma {:induction false} AccumulatedPromises(earlier: seq<string>, later: seq<string>, repeated: string)
    ensures |Accumulated(earlier + later)| <= 512
    ensures Accumulated(earlier) <= Accumulated(earlier + later)
    ensures repeated in earlier ==> Accumulated(earlier + [repeated]) == Accumulated(earlier)
    decreases |later|
  {
    hide AppendErrorCause, Made, Recorded;
    AccumulatedRecords(earlier + later);
    AccumulatedRecords(earlier);
    assert (earlier + [repeated])[..|earlier|] == earlier;
    if repeated in earlier {
      RecordedIsStable(Accumulated(earlier), repeated);
    }
    if later == [] {
      assert earlier + later == earlier;
    } else {
      var n := |later| - 1;
      AccumulatedPromises(earlier, later[..n], repeated);
      AccumulatedRecords(earlier + later[..n]);
      assert (earlier + later)[..|earlier| + n] == earlier + later[..n];
      AppendExtends(Accumulated(earlier + later[..n]), later[n]);
    }
  }
}
