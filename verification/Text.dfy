/** Strings as sequences of code points: the parts of Go's `strings` package the models rest on. */
module Text {

  datatype Option<+T> = None | Some(value: T)

  datatype Result<+T, +E> = Success(value: T) | Failure(error: E)

  /** `unicode.IsSpace`, the class that `strings.TrimSpace` and `strings.Fields` use. */
  predicate IsSpace(c: char) {
    || '\t' <= c <= '\r' || c == ' ' || c == '\U{85}' || c == '\U{A0}' || c == '\U{1680}' || '\U{2000}' <= c <= '\U{200A}'
    || c == '\U{2028}' || c == '\U{2029}' || c == '\U{202F}' || c == '\U{205F}' || c == '\U{3000}'
  }

  /** The first position of `c`, or `|s|` when there is none. */
  function IndexOf(s: string, c: char): (i: nat)
    ensures i <= |s| && c !in s[..i]
    ensures i < |s| <==> c in s
    ensures i < |s| ==> s[i] == c
  {
    if s == [] then 0
    else if s[0] == c then 0
    else
      var i := 1 + IndexOf(s[1..], c);
      assert s[..i] == [s[0]] + s[1..][..i - 1];
      i
  }

  function Join(parts: seq<string>, c: char): string {
    if parts == [] then ""
    else if |parts| == 1 then parts[0]
    else parts[0] + [c] + Join(parts[1..], c)
  }

  lemma JoinCons(head: string, rest: seq<string>, c: char)
    requires rest != []
    ensures Join([head] + rest, c) == head + [c] + Join(rest, c)
  {
    assert ([head] + rest)[1..] == rest;
  }

  lemma SplitStep(s: string, i: nat, rest: seq<string>, c: char)
    requires i < |s| && s[i] == c && c !in s[..i]
    requires rest != [] && Join(rest, c) == s[i + 1..] && forall p | p in rest :: c !in p
    ensures Join([s[..i]] + rest, c) == s && forall p | p in [s[..i]] + rest :: c !in p
  {
    hide Join;
    JoinCons(s[..i], rest, c);
    assert s == s[..i] + [c] + s[i + 1..];
  }

  /** `strings.Split` on one character: the only way to undo a `Join` of parts that lack it. */
  function Split(s: string, c: char): (parts: seq<string>)
    ensures |parts| >= 1 && Join(parts, c) == s
    ensures forall p | p in parts :: c !in p
    decreases |s|
  {
    var i := IndexOf(s, c);
    if i == |s| then
      assert s[..i] == s;
      [s]
    else
      var rest := Split(s[i + 1..], c);
      SplitStep(s, i, rest, c);
      [s[..i]] + rest
  }

  lemma {:induction false} IndexOfAppend(p: string, rest: string, c: char)
    requires c !in p
    ensures IndexOf(p + rest, c) == |p| + IndexOf(rest, c)
  {
    if p == [] {
      assert p + rest == rest;
    } else {
      assert (p + rest)[1..] == p[1..] + rest;
      IndexOfAppend(p[1..], rest, c);
    }
  }

  lemma SplitHead(head: string, tail: string, c: char)
    requires c !in head
    ensures Split(head, c) == [head] && Split(head + [c] + tail, c) == [head] + Split(tail, c)
  {
    hide Join;
    var s := head + [c] + tail;
    assert s == head + ([c] + tail) && head == head + "";
    IndexOfAppend(head, [c] + tail, c);
    IndexOfAppend(head, "", c);
    assert s[..|head|] == head && s[|head| + 1..] == tail;
  }

  lemma {:induction false} SplitJoin(parts: seq<string>, c: char)
    requires |parts| >= 1
    requires forall p | p in parts :: c !in p
    ensures Split(Join(parts, c), c) == parts
  {
    hide Split;
    if |parts| == 1 {
      SplitHead(parts[0], "", c);
    } else {
      SplitHead(parts[0], Join(parts[1..], c), c);
      SplitJoin(parts[1..], c);
      assert parts == [parts[0]] + parts[1..];
    }
  }

  function TrimLeft(s: string, cut: char -> bool): (r: string)
    ensures |r| <= |s| && r == s[|s| - |r|..]
    ensures forall i | 0 <= i < |s| - |r| :: cut(s[i])
    ensures r != "" ==> !cut(r[0])
  {
    if s != "" && cut(s[0]) then TrimLeft(s[1..], cut) else s
  }

  function TrimRight(s: string, cut: char -> bool): (r: string)
    ensures |r| <= |s| && r == s[..|r|]
    ensures forall i | |r| <= i < |s| :: cut(s[i])
    ensures r != "" ==> !cut(r[|r| - 1])
  {
    if s != "" && cut(s[|s| - 1]) then TrimRight(s[..|s| - 1], cut) else s
  }

  function Trim(s: string, cut: char -> bool): (r: string)
    ensures r != "" ==> !cut(r[0]) && !cut(r[|r| - 1])
    ensures forall c | c in r :: c in s
  {
    var left := TrimLeft(s, cut);
    var r := TrimRight(left, cut);
    assert r != "" ==> r[0] == left[0];
    r
  }

  /** Nothing is left exactly when every character is cut. */
  lemma TrimEmpty(s: string, cut: char -> bool)
    ensures Trim(s, cut) == "" <==> forall c | c in s :: cut(c)
  {
    var left := TrimLeft(s, cut);
    assert s == s[..|s| - |left|] + left;
    if left != "" {
      assert left[0] in s && !cut(left[0]);
    }
  }

  function TrimSpace(s: string): (r: string)
    ensures r != "" ==> !IsSpace(r[0]) && !IsSpace(r[|r| - 1])
    ensures forall c | c in r :: c in s
  {
    Trim(s, IsSpace)
  }

  /** A string whose ends are not cut is its own trimming. */
  lemma TrimFixed(s: string, cut: char -> bool)
    requires s != "" ==> !cut(s[0]) && !cut(s[|s| - 1])
    ensures Trim(s, cut) == s
  {
    assert TrimLeft(s, cut) == s;
    assert TrimRight(s, cut) == s;
  }
}
