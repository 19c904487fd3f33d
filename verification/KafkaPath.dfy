/** Per-module Kafka credential paths: `tenants/{env}/{tenantId}/{module}/kafka`, the env segment optional. */
module KafkaPath {
  import opened Text

  /**
   `unicode.ToLower`, as far as the sanitizer can tell: besides the ASCII capitals only U+0130 and the Kelvin
   sign have a lower case among the letters it keeps.
   */
  function Lower(c: char): char {
    if 'A' <= c <= 'Z' then (c as int + 32) as char
    else if c == '\U{130}' then 'i'
    else if c == '\U{212A}' then 'k'
    else c
  }

  predicate Plain(c: char) { 'a' <= c <= 'z' || '0' <= c <= '9' }

  function Sanitized(s: string): (r: string)
    ensures forall c | c in r :: Plain(c)
  {
    if s == "" then ""
    else
      var front, c := Sanitized(s[..|s| - 1]), Lower(s[|s| - 1]);
      if Plain(c) then front + [c] else front
  }

  /** `SanitizeKafkaSegment`: a builder filled rune by rune. */
  method SanitizeKafkaSegment(s: string) returns (r: string)
    ensures r == Sanitized(s)
  {
    r := "";
    for i := 0 to |s|
      invariant r == Sanitized(s[..i])
    {
      assert s[..i + 1][..i] == s[..i];
      if Plain(Lower(s[i])) {
        r := r + [Lower(s[i])];
      }
    }
    assert s[..|s|] == s;
  }

  lemma {:induction false} SanitizedFixed(s: string)
    requires forall c | c in s :: Plain(c)
    ensures Sanitized(s) == s
  {
    if s != "" {
      var n := |s| - 1;
      assert s[n] in s && s == s[..n] + [s[n]];
      SanitizedFixed(s[..n]);
    }
  }

  /** Sanitizing twice is sanitizing once. */
  lemma SanitizeIdempotent(s: string)
    ensures Sanitized(Sanitized(s)) == Sanitized(s)
  {
    SanitizedFixed(Sanitized(s));
  }

  /** Segments are sanitized character by character, so no character affects another. */
  lemma {:induction false} SanitizedAppends(a: string, b: string)
    ensures Sanitized(a + b) == Sanitized(a) + Sanitized(b)
  {
    if b == "" {
      assert a + b == a;
    } else {
      assert (a + b)[..|a + b| - 1] == a + b[..|b| - 1];
      SanitizedAppends(a, b[..|b| - 1]);
    }
  }

  /** A letter or digit is kept, a capital becomes the small letter at its place in the alphabet, and apart from the two
      capitals outside ASCII everything else is dropped. */
  lemma SanitizedCharacter(c: char)
    ensures Plain(c) ==> Sanitized([c]) == [c]
    ensures 'A' <= c <= 'Z' ==> Sanitized([c]) == ['a' + (c - 'A')]
    ensures Sanitized("\U{130}") == "i" && Sanitized("\U{212A}") == "k"
    ensures !Plain(c) && !('A' <= c <= 'Z') && c != '\U{130}' && c != '\U{212A}' ==> Sanitized([c]) == ""
  {
    assert [c][..0] == "" && "\U{130}"[..0] == "" && "\U{212A}"[..0] == "";
  }

  function WithoutDashes(s: string): (r: string)
    ensures '-' !in r
    ensures r == s <==> '-' !in s
    ensures |r| <= |s| && forall c | c in r :: c in s
  {
    if s == "" then ""
    else
      var rest := WithoutDashes(s[1..]);
      if s[0] == '-' then rest else [s[0]] + rest
  }

  /** Only the dashes go, each on its own. */
  lemma {:induction false} DashesGo(a: string, b: string)
    ensures WithoutDashes(a + b) == WithoutDashes(a) + WithoutDashes(b)
    ensures WithoutDashes("-") == "" && forall c | c != '-' :: WithoutDashes([c]) == [c]
  {
    assert "-"[1..] == "";
    if a == "" {
      assert a + b == b;
    } else {
      assert (a + b)[1..] == a[1..] + b;
      DashesGo(a[1..], b);
    }
  }

  function Build(env: string, tenant: string, mod: string): string {
    "tenants/" + (if env != "" then env + "/" else "") + WithoutDashes(tenant) + "/" + Sanitized(mod) + "/" + "kafka"
  }

  datatype Ref = Ref(tenant: string, mod: string, path: string)

  function Parse(env: string, path: string): Option<Ref> {
    var cleanEnv := TrimSpace(env);
    var segments := Split(path, '/');
    var n := |segments|;
    if n != (if cleanEnv != "" then 5 else 4) then None
    else if segments[0] != "tenants" || segments[n - 1] != "kafka" then None
    else if cleanEnv != "" && segments[1] != cleanEnv then None
    else
      var tenant, mod := segments[n - 3], segments[n - 2];
      if tenant == "" || mod == "" || WithoutDashes(tenant) != tenant || Sanitized(mod) != mod then None
      else Some(Ref(tenant, mod, path))
  }

  /** The segments the builder writes. */
  function Segments(env: string, tenant: string, mod: string): seq<string> {
    if env != "" then ["tenants", env, tenant, mod, "kafka"] else ["tenants", tenant, mod, "kafka"]
  }

  lemma JoinThree(a: string, b: string, c: string)
    ensures Join([a, b, c], '/') == a + "/" + (b + "/" + c)
  {
    assert [a, b, c][1..] == [b, c] && [b, c][1..] == [c];
    assert Join([c], '/') == c && Join([b, c], '/') == b + "/" + c;
  }

  lemma JoinMore(a: string, rest: seq<string>)
    requires rest != []
    ensures Join([a] + rest, '/') == a + "/" + Join(rest, '/')
  {
    assert ([a] + rest)[1..] == rest;
  }

  lemma BuildIsJoin(env: string, tenant: string, mod: string)
    ensures Build(env, tenant, mod) == Join(Segments(env, WithoutDashes(tenant), Sanitized(mod)), '/')
  {
    hide Join, WithoutDashes, Sanitized;
    var t, m := WithoutDashes(tenant), Sanitized(mod);
    var tail := [t, m, "kafka"];
    JoinThree(t, m, "kafka");
    if env != "" {
      assert Segments(env, t, m) == ["tenants"] + ([env] + tail);
      JoinMore(env, tail);
      JoinMore("tenants", [env] + tail);
    } else {
      assert Segments(env, t, m) == ["tenants"] + tail;
      JoinMore("tenants", tail);
    }
  }

  lemma PlainHasNoSlash(m: string)
    requires Sanitized(m) == m
    ensures '/' !in m
  {
    assert forall c | c in Sanitized(m) :: Plain(c);
  }

  /** The parser accepts exactly the paths the builder writes, for the trimmed environment and canonical segments. */
  lemma ParseInvertsBuild(env: string, path: string, t: string, m: string)
    ensures Parse(env, path) == Some(Ref(t, m, path))
      <==> '/' !in TrimSpace(env) && t != "" && '-' !in t && '/' !in t && m != "" && Sanitized(m) == m
           && path == Build(TrimSpace(env), t, m)
  {
    hide Sanitized, WithoutDashes, TrimSpace, Build, Split;
    var clean := TrimSpace(env);
    if '/' !in clean && t != "" && '-' !in t && '/' !in t && m != "" && Sanitized(m) == m && path == Build(clean, t, m) {
      BuildIsJoin(clean, t, m);
      PlainHasNoSlash(m);
      SplitJoin(Segments(clean, t, m), '/');
    }
    if Parse(env, path) == Some(Ref(t, m, path)) {
      var segments := Split(path, '/');
      assert t in segments && m in segments && (clean != "" ==> clean in segments);
      assert segments == Segments(clean, t, m);
      BuildIsJoin(clean, t, m);
    }
  }

  // ---------- what the builder's own paths parse to ----------

  function Slashes(s: string): nat {
    if s == "" then 0 else Slashes(s[..|s| - 1]) + if s[|s| - 1] == '/' then 1 else 0
  }

  lemma {:induction false} SlashesAppend(a: string, b: string)
    ensures Slashes(a + b) == Slashes(a) + Slashes(b)
  {
    if b == "" {
      assert a + b == a;
    } else {
      assert (a + b)[..|a + b| - 1] == a + b[..|b| - 1];
      SlashesAppend(a, b[..|b| - 1]);
    }
  }

  lemma {:induction false} NoSlashes(s: string)
    ensures Slashes(s) == 0 <==> '/' !in s
  {
    if s != "" {
      NoSlashes(s[..|s| - 1]);
      assert s == s[..|s| - 1] + [s[|s| - 1]];
    }
  }

  lemma LiteralSlashes()
    ensures Slashes("tenants/") == Slashes("/") == 1 && Slashes("kafka") == 0 && Slashes("") == 0
  {
    NoSlashes("tenants");
    NoSlashes("kafka");
    assert "tenants/" == "tenants" + "/" && "/" == "" + "/";
    assert "tenants/"[..7] == "tenants" && "/"[..0] == "";
  }

  lemma BuildSlashes(env: string, tenant: string, mod: string)
    ensures Slashes(Build(env, tenant, mod))
         == 3 + (if env != "" then Slashes(env) + 1 else 0) + Slashes(WithoutDashes(tenant)) + Slashes(Sanitized(mod))
  {
    hide Slashes, WithoutDashes, Sanitized;
    LiteralSlashes();
    var head := if env != "" then env + "/" else "";
    var t, m := WithoutDashes(tenant), Sanitized(mod);
    SlashesAppend(env, "/");
    SlashesAppend("tenants/", head);
    SlashesAppend("tenants/" + head, t);
    SlashesAppend("tenants/" + head + t, "/");
    SlashesAppend("tenants/" + head + t + "/", m);
    SlashesAppend("tenants/" + head + t + "/" + m, "/");
    SlashesAppend("tenants/" + head + t + "/" + m + "/", "kafka");
  }

  lemma {:induction false} KeepsSlashes(s: string)
    ensures '/' in WithoutDashes(s) <==> '/' in s
  {
    if s != "" {
      KeepsSlashes(s[1..]);
      assert s == [s[0]] + s[1..];
    }
  }

  /** Equal paths have equal numbers of segments, so only slash-free inputs can give a path that parses. */
  lemma ParsedInputsHaveNoSlash(env: string, tenant: string, mod: string, clean: string, t: string, m: string)
    requires Build(env, tenant, mod) == Build(clean, t, m) && (env == "" ==> clean == "")
    requires '/' !in clean && '-' !in t && '/' !in t && Sanitized(m) == m
    ensures '/' !in env && '/' !in tenant && (clean == "" ==> env == "")
  {
    hide Slashes, Build, Sanitized, WithoutDashes;
    BuildSlashes(env, tenant, mod);
    BuildSlashes(clean, t, m);
    SanitizedHasNoSlash(mod);
    SanitizedHasNoSlash(m);
    NoSlashes(Sanitized(mod));
    NoSlashes(m);
    NoSlashes(clean);
    NoSlashes(t);
    NoSlashes(env);
    NoSlashes(WithoutDashes(tenant));
    KeepsSlashes(tenant);
  }

  lemma SanitizedHasNoSlash(s: string)
    ensures '/' !in Sanitized(s)
  {
    assert forall c | c in Sanitized(s) :: Plain(c);
  }

  lemma TrimOfEmpty()
    ensures TrimSpace("") == ""
  {
  }

  /**
   A built path parses back, to the canonical tenant and module, exactly when the environment is trimmed, it and the
   tenant have no slash, and neither canonical segment is empty.
   */
  lemma BuildParsesExactly(env: string, tenant: string, mod: string)
    ensures var t, m, path := WithoutDashes(tenant), Sanitized(mod), Build(env, tenant, mod);
            Parse(env, path) == if TrimSpace(env) == env && '/' !in env && '/' !in tenant && t != "" && m != ""
                                then Some(Ref(t, m, path)) else None
  {
    hide Sanitized, WithoutDashes, TrimSpace, Build, Split;
    var t, m, path := WithoutDashes(tenant), Sanitized(mod), Build(env, tenant, mod);
    SanitizeIdempotent(mod);
    BuildIsJoin(env, tenant, mod);
    BuildIsJoin(env, t, m);
    KeepsSlashes(tenant);
    ParseInvertsBuild(env, path, t, m);
    var r := Parse(env, path);
    if r.Some? {
      var clean := TrimSpace(env);
      ParseInvertsBuild(env, path, r.value.tenant, r.value.mod);
      TrimOfEmpty();
      ParsedInputsHaveNoSlash(env, tenant, mod, clean, r.value.tenant, r.value.mod);
      BuildIsJoin(clean, r.value.tenant, r.value.mod);
      SanitizedHasNoSlash(mod);
      SanitizedHasNoSlash(r.value.mod);
      SplitJoin(Segments(env, t, m), '/');
      SplitJoin(Segments(clean, r.value.tenant, r.value.mod), '/');
      SameSegments(env, t, m, clean, r.value.tenant, r.value.mod);
    }
  }

  lemma SameSegments(env: string, t: string, m: string, env': string, t': string, m': string)
    requires Segments(env, t, m) == Segments(env', t', m')
    ensures env == env' && t == t' && m == m'
  {
    var s, s' := Segments(env, t, m), Segments(env', t', m');
    assert |s| == |s'| && s[|s| - 3] == s'[|s| - 3] && s[|s| - 2] == s'[|s| - 2] && s[1] == s'[1];
  }
}
