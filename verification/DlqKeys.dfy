/** The Redis keys of the dead-letter queue: `prefix + tenant + ":" + source`, or `prefix + source` without a tenant. */
module DlqKeys {
  import opened Text

  predicate Disallowed(c: char) {
    c == ':' || c == '*' || c == '?' || c == '[' || c == ']' || c == '\\'
  }

  /** `validateKeySegment`: no character that would corrupt a key or a SCAN pattern. */
  method ValidateKeySegment(value: string) returns (ok: bool)
    ensures ok <==> SegmentOk(value)
  {
    for i := 0 to |value|
      invariant forall c | c in value[..i] :: !Disallowed(c)
    {
      if Disallowed(value[i]) {
        assert value[i] in value;
        return false;
      }
    }
    assert value[..|value|] == value;
    ok := true;
  }

  predicate SegmentOk(value: string) {
    forall c | c in value :: !Disallowed(c)
  }

  predicate SourceOk(source: string) { source != "" && SegmentOk(source) }

  function Key(prefix: string, tenant: string, source: string): string {
    if tenant != "" then prefix + tenant + ":" + source else prefix + source
  }

  function ExtractTenant(prefix: string, key: string, source: string): string {
    var suffix := ":" + source;
    if |key| <= |prefix| + |suffix| then ""
    else if key[..|prefix|] != prefix then ""
    else if key[|key| - |suffix|..] != suffix then ""
    else key[|prefix|..|key| - |suffix|]
  }

  /** Distinct tenants or sources never share a queue. */
  lemma KeyInjective(prefix: string, t: string, s: string, t': string, s': string)
    requires SegmentOk(t) && SegmentOk(s) && SegmentOk(t') && SegmentOk(s')
    requires Key(prefix, t, s) == Key(prefix, t', s')
    ensures t == t' && s == s'
  {
    hide SegmentOk, IndexOf;
    var k, k' := Tail(t, s), Tail(t', s');
    TailColon(t, s);
    TailColon(t', s');
    assert Key(prefix, t, s) == prefix + k && Key(prefix, t', s') == prefix + k';
    assert k == (prefix + k)[|prefix|..] == (prefix + k')[|prefix|..] == k';
  }

  /** A key without its prefix. */
  function Tail(tenant: string, source: string): string {
    if tenant != "" then tenant + ":" + source else source
  }

  /** The first colon, if any, ends the tenant. */
  lemma TailColon(t: string, s: string)
    requires SegmentOk(t) && SegmentOk(s)
    ensures var k := Tail(t, s); var i := IndexOf(k, ':');
            if t == "" then i == |k| && s == k else i == |t| < |k| && t == k[..i] && s == k[i + 1..]
  {
    assert ':' !in t && ':' !in s;
    if t != "" {
      assert Tail(t, s) == t + (":" + s);
      IndexOfAppend(t, ":" + s, ':');
    }
  }

  /** Extraction accepts exactly the keys a non-empty tenant would write, and gives that tenant back. */
  lemma ExtractInverts(prefix: string, key: string, source: string, tenant: string)
    requires tenant != ""
    ensures ExtractTenant(prefix, key, source) == tenant <==> key == Key(prefix, tenant, source)
  {
    var suffix := ":" + source;
    if key == Key(prefix, tenant, source) {
      assert key == prefix + tenant + suffix;
      assert key[..|prefix|] == prefix && key[|key| - |suffix|..] == suffix;
    }
    if ExtractTenant(prefix, key, source) == tenant {
      var n := |key| - |suffix|;
      assert key == key[..|prefix|] + key[|prefix|..n] + key[n..];
      assert prefix + tenant + suffix == prefix + tenant + ":" + source;
    }
  }

  /** The key of a queue without a tenant is never taken for a tenant's. */
  lemma GlobalKeyHasNoTenant(prefix: string, source: string)
    requires SourceOk(source)
    ensures ExtractTenant(prefix, Key(prefix, "", source), source) == ""
  {
  }
}
