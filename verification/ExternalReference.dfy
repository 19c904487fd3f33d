/** Version-addressed references to external credentials, bound to a trusted scope. */
module ExternalReference {
  import opened Text

  const MAX_SECRET_ID := 512

  datatype Scope = Scope(environment: string, tenant: string, application: string, target: string)

  datatype Error = InvalidInput | InvalidPathSegment

  predicate NameCharacter(c: char) {
    'a' <= c <= 'z' || 'A' <= c <= 'Z' || '0' <= c <= '9' || c == '_' || c == '+' || c == '=' || c == '.' || c == '@' || c == '-'
  }

  predicate HasDots(s: string) { exists i | 0 <= i < |s| - 1 :: s[i] == '.' && s[i + 1] == '.' }

  /** `validateCanonicalExternalSegment`. */
  function SegmentError(value: string): Option<Error> {
    if TrimSpace(value) == "" then Some(InvalidInput)
    else if value != TrimSpace(value) || HasDots(value) then Some(InvalidPathSegment)
    else if forall c | c in value :: NameCharacter(c) then None
    else Some(InvalidPathSegment)
  }

  /** A name: some of the permitted characters, no two dots in a row. */
  predicate Name(value: string) {
    value != "" && (forall c | c in value :: NameCharacter(c)) && !HasDots(value)
  }

  /** A segment is accepted exactly when it is a name; a blank one is an invalid input, any other an invalid segment. */
  lemma SegmentErrorExactly(value: string)
    ensures SegmentError(value).None? <==> Name(value)
    ensures SegmentError(value) == Some(InvalidInput) <==> forall c | c in value :: IsSpace(c)
  {
    hide Trim, HasDots;
    TrimEmpty(value, IsSpace);
    if Name(value) {
      assert forall c | NameCharacter(c) :: !IsSpace(c);
      assert value[0] in value && value[|value| - 1] in value;
      TrimFixed(value, IsSpace);
    }
  }

  /** Every segment of the scope is a name; the environment may be missing. */
  predicate ScopeNamed(scope: Scope) {
    Name(scope.tenant) && Name(scope.application) && Name(scope.target) && (scope.environment == "" || Name(scope.environment))
  }

  function ScopeError(scope: Scope): (r: Option<Error>)
    ensures r.None? <==> ScopeNamed(scope)
  {
    SegmentErrorExactly(scope.tenant);
    SegmentErrorExactly(scope.application);
    SegmentErrorExactly(scope.target);
    SegmentErrorExactly(scope.environment);
    var tenant, application, target := SegmentError(scope.tenant), SegmentError(scope.application), SegmentError(scope.target);
    if tenant.Some? then tenant
    else if application.Some? then application
    else if target.Some? then target
    else if scope.environment != "" then SegmentError(scope.environment)
    else None
  }

  predicate HexDigit(c: char) { '0' <= c <= '9' || 'a' <= c <= 'f' }

  /** The form `uuid.UUID.String` gives, the only one that parses and prints back as itself. */
  predicate CanonicalVersion(v: string) {
    |v| == 36 && forall i | 0 <= i < 36 :: if i in {8, 13, 18, 23} then v[i] == '-' else HexDigit(v[i])
  }

  predicate HexDigits(s: string) { forall c | c in s :: HexDigit(c) }

  /** Five groups of hexadecimal digits, 8, 4, 4, 4 and 12 of them, with dashes between. */
  predicate Groups(v: string, a: string, b: string, c: string, d: string, e: string) {
    && |a| == 8 && |b| == 4 && |c| == 4 && |d| == 4 && |e| == 12
    && HexDigits(a) && HexDigits(b) && HexDigits(c) && HexDigits(d) && HexDigits(e)
    && v == a + "-" + b + "-" + c + "-" + d + "-" + e
  }

  lemma CanonicalExactly(v: string)
    ensures CanonicalVersion(v) <==> exists a, b, c, d, e :: Groups(v, a, b, c, d, e)
  {
    if CanonicalVersion(v) {
      var a, b, c, d, e := v[..8], v[9..13], v[14..18], v[19..23], v[24..];
      assert v == a + "-" + b + "-" + c + "-" + d + "-" + e;
      assert Groups(v, a, b, c, d, e);
    }
    if a, b, c, d, e :| Groups(v, a, b, c, d, e) {
      GroupsAreCanonical(v, a, b, c, d, e);
    }
  }

  lemma GroupsAreCanonical(v: string, a: string, b: string, c: string, d: string, e: string)
    requires Groups(v, a, b, c, d, e)
    ensures CanonicalVersion(v)
  {
    forall i | 0 <= i < 36 ensures if i in {8, 13, 18, 23} then v[i] == '-' else HexDigit(v[i]) {
      if i < 8 {
        assert v[i] == a[i] && a[i] in a;
      } else if 8 < i < 13 {
        assert v[i] == b[i - 9] && b[i - 9] in b;
      } else if 13 < i < 18 {
        assert v[i] == c[i - 14] && c[i - 14] in c;
      } else if 18 < i < 23 {
        assert v[i] == d[i - 19] && d[i - 19] in d;
      } else if 23 < i {
        assert v[i] == e[i - 24] && e[i - 24] in e;
      }
    }
  }

  function VersionError(v: string): Option<Error> {
    if TrimSpace(v) == "" then Some(InvalidInput) else if CanonicalVersion(v) then None else Some(InvalidPathSegment)
  }

  /** The segments of a reference; the environment only when there is one. */
  function Parts(scope: Scope, version: string): seq<string> {
    ["tenants"] + (if scope.environment != "" then [scope.environment] else [])
    + [scope.tenant, scope.application, "external", scope.target, "credentials", "versions", version]
  }

  function TotalLength(parts: seq<string>): int {
    if parts == [] then 0 else TotalLength(parts[..|parts| - 1]) + |parts[|parts| - 1]|
  }

  /** `externalReferenceLengthAllowed`: the incremental check agrees with the length of the joined reference. */
  method LengthAllowed(parts: seq<string>) returns (ok: bool)
    ensures ok <==> |Join(parts, '/')| <= MAX_SECRET_ID
  {
    if parts != [] {
      JoinLength(parts);
    }
    var length := |parts| - 1;
    for i := 0 to |parts|
      invariant length == |parts| - 1 + TotalLength(parts[..i]) && (i > 0 ==> length <= MAX_SECRET_ID)
    {
      assert parts[..i + 1][..i] == parts[..i];
      if length > MAX_SECRET_ID || |parts[i]| > MAX_SECRET_ID - length {
        TotalGrows(parts, i + 1);
        return false;
      }
      length := length + |parts[i]|;
    }
    assert parts[..|parts|] == parts;
    ok := true;
  }

  lemma {:induction false} TotalGrows(parts: seq<string>, k: nat)
    requires k <= |parts|
    ensures TotalLength(parts[..k]) <= TotalLength(parts)
    decreases |parts|
  {
    if k < |parts| {
      var n := |parts| - 1;
      TotalGrows(parts[..n], k);
      assert parts[..n][..k] == parts[..k];
    } else {
      assert parts[..k] == parts;
    }
  }

  lemma {:induction false} TotalFront(parts: seq<string>)
    requires parts != []
    ensures TotalLength(parts) == |parts[0]| + TotalLength(parts[1..])
  {
    var n := |parts| - 1;
    if n > 0 {
      TotalFront(parts[..n]);
      assert parts[..n][1..] == parts[1..][..n - 1] && parts[1..][n - 1] == parts[n];
    } else {
      assert parts[..0] == [] && parts[1..] == [];
    }
  }

  lemma {:induction false} JoinLength(parts: seq<string>)
    requires parts != []
    ensures |Join(parts, '/')| == |parts| - 1 + TotalLength(parts)
  {
    TotalFront(parts);
    if |parts| > 1 {
      JoinLength(parts[1..]);
    }
  }

  /** The scope and version a reference's segments spell out. */
  function Segments(parts: seq<string>): Option<(Scope, string)> {
    if |parts| == 9 then
      if parts[0] != "tenants" || parts[1] == "" || parts[4] != "external" || parts[6] != "credentials" || parts[7] != "versions" then None
      else Some((Scope(parts[1], parts[2], parts[3], parts[5]), parts[8]))
    else if |parts| == 8 then
      if parts[0] != "tenants" || parts[3] != "external" || parts[5] != "credentials" || parts[6] != "versions" then None
      else Some((Scope("", parts[1], parts[2], parts[4]), parts[7]))
    else None
  }

  function Parse(reference: string, scope: Scope): Result<string, Error> {
    if TrimSpace(reference) == "" then Failure(InvalidInput)
    else if |reference| > MAX_SECRET_ID then Failure(InvalidPathSegment)
    else if ScopeError(scope).Some? then Failure(ScopeError(scope).value)
    else
      var parsed := Segments(Split(reference, '/'));
      if parsed.None? || parsed.value.0 != scope then Failure(InvalidPathSegment)
      else if VersionError(parsed.value.1).Some? then Failure(InvalidPathSegment)
      else Success(reference)
  }

  method Build(env: string, tenant: string, application: string, target: string, version: string)
    returns (r: Result<string, Error>)
    ensures var scope := Scope(env, tenant, application, target);
            && (r.Success? <==> ScopeError(scope).None? && CanonicalVersion(version) && |Join(Parts(scope, version), '/')| <= 512)
            && (r.Success? ==> r.value == Join(Parts(scope, version), '/') && Parse(r.value, scope) == r)
  {
    hide ScopeError, CanonicalVersion, Split, TrimSpace, Join;
    var scope := Scope(env, tenant, application, target);
    CanonicalIsVersion(version);
    if ScopeError(scope).Some? {
      return Failure(ScopeError(scope).value);
    }
    if VersionError(version).Some? {
      return Failure(VersionError(version).value);
    }
    var parts := Parts(scope, version);
    var fits := LengthAllowed(parts);
    if !fits {
      return Failure(InvalidPathSegment);
    }
    ReferenceVisible(scope, version);
    PartsSplit(scope, version);
    PartsSpell(scope, version);
    r := Parse(Join(parts, '/'), scope);
  }

  lemma CanonicalIsVersion(version: string)
    ensures VersionError(version).None? <==> CanonicalVersion(version)
  {
    if CanonicalVersion(version) {
      TrimEmpty(version, IsSpace);
      assert version[0] in version && HexDigit(version[0]);
    }
  }

  lemma ReferenceVisible(scope: Scope, version: string)
    ensures TrimSpace(Join(Parts(scope, version), '/')) != ""
  {
    var s := Join(Parts(scope, version), '/');
    assert Parts(scope, version)[0] == "tenants";
    assert s[0] == 't' && s[0] in s;
    TrimEmpty(s, IsSpace);
  }

  lemma NamesHaveNoSlash(value: string)
    requires SegmentError(value).None?
    ensures '/' !in value
  {
    hide TrimSpace;
  }

  lemma PartsSplit(scope: Scope, version: string)
    requires ScopeError(scope).None? && CanonicalVersion(version)
    ensures Split(Join(Parts(scope, version), '/'), '/') == Parts(scope, version)
  {
    hide SegmentError, Join, Split;
    NamesHaveNoSlash(scope.tenant);
    NamesHaveNoSlash(scope.application);
    NamesHaveNoSlash(scope.target);
    if scope.environment != "" {
      NamesHaveNoSlash(scope.environment);
    }
    VersionHasNoSlash(version);
    forall p | p in Parts(scope, version)
      ensures '/' !in p
    {
      LiteralsHaveNoSlash();
    }
    SplitJoin(Parts(scope, version), '/');
  }

  lemma LiteralsHaveNoSlash()
    ensures '/' !in "tenants" && '/' !in "external" && '/' !in "credentials" && '/' !in "versions"
  {
  }

  lemma VersionHasNoSlash(version: string)
    requires CanonicalVersion(version)
    ensures '/' !in version
  {
    forall i | 0 <= i < |version|
      ensures version[i] != '/'
    {
    }
  }

  /** Segments and parts are inverse: a reference spells out one scope and version. */
  lemma PartsSpell(scope: Scope, version: string)
    ensures Segments(Parts(scope, version)) == Some((scope, version))
  {
  }

  lemma SpellParts(parts: seq<string>)
    requires Segments(parts).Some?
    ensures parts == Parts(Segments(parts).value.0, Segments(parts).value.1)
  {
  }

  /** A reference parses under a scope exactly when it is that scope's reference to some canonical version. */
  lemma ParseMeans(reference: string, scope: Scope)
    ensures Parse(reference, scope).Success? <==>
              ScopeError(scope).None? && |reference| <= 512
              && exists version :: CanonicalVersion(version) && reference == Join(Parts(scope, version), '/')
    ensures Parse(reference, scope).Success? ==> Parse(reference, scope).value == reference
  {
    hide ScopeError, CanonicalVersion, Split, TrimSpace, Join, Parts, Segments;
    if Parse(reference, scope).Success? {
      var parts := Split(reference, '/');
      SpellParts(parts);
      CanonicalIsVersion(Segments(parts).value.1);
      assert reference == Join(Parts(scope, Segments(parts).value.1), '/');
    }
    if ScopeError(scope).None? && |reference| <= MAX_SECRET_ID
       && exists version :: CanonicalVersion(version) && reference == Join(Parts(scope, version), '/') {
      var version :| CanonicalVersion(version) && reference == Join(Parts(scope, version), '/');
      CanonicalIsVersion(version);
      ReferenceVisible(scope, version);
      PartsSplit(scope, version);
      PartsSpell(scope, version);
    }
  }

  /** No reference resolves under two scopes. */
  lemma ParsesUnderOneScope(reference: string, a: Scope, b: Scope)
    requires Parse(reference, a).Success? && Parse(reference, b).Success?
    ensures a == b
  {
    hide ScopeError, Split, TrimSpace, Segments;
  }
}
