// The strings under which results are found again (gcp_adapter/idempotency_firestore.py).

module DedupeKeys {
  import opened Optionals

  datatype Scope = Scope(org: Option<string>, site: Option<string>, stream: Option<string>)

  const PLACEHOLDER := "-"

  // What `x or default` yields: an absent part and an empty one read the same.
  function PartOr(part: Option<string>, default: string): string {
    if part.None? || part.value == "" then default else part.value
  }

  function ScopeKey(s: Scope): string {
    PartOr(s.org, PLACEHOLDER) + ":" + PartOr(s.site, PLACEHOLDER) + ":" + PartOr(s.stream, PLACEHOLDER)
  }

  // The key of a checksum or of a content hash within a scope.
  function Scoped(value: Option<string>, scopeKey: Option<string>): Option<string> {
    if PartOr(value, "") == "" then None
    else if PartOr(scopeKey, "") == "" then value
    else Some(scopeKey.value + ":" + value.value)
  }

  // Absent and empty parts are the same part.
  function Normal(s: Scope): Scope {
    Scope(NormalPart(s.org), NormalPart(s.site), NormalPart(s.stream))
  }

  function NormalPart(part: Option<string>): Option<string> {
    if PartOr(part, "") == "" then None else part
  }

  predicate CleanPart(part: Option<string>) {
    part.Some? ==> ':' !in part.value && part.value != PLACEHOLDER
  }

  predicate Clean(s: Scope) {
    CleanPart(s.org) && CleanPart(s.site) && CleanPart(s.stream)
  }

  // A text is cut at its first colon in one way only.
  lemma {:induction false} FirstColon(a: string, x: string, b: string, y: string)
    requires ':' !in a && ':' !in b
    requires a + ":" + x == b + ":" + y
    ensures a == b && x == y
  {
    var s := a + ":" + x;
    assert s[|a|] == ':' && s[|b|] == ':';
    assert forall i | 0 <= i < |a| :: s[i] == a[i];
    assert forall i | 0 <= i < |b| :: s[i] == b[i];
    assert a == s[..|a|] && b == s[..|b|];
    assert x == s[|a| + 1..] && y == s[|b| + 1..];
  }

  lemma SamePart(p: Option<string>, q: Option<string>)
    requires CleanPart(p) && CleanPart(q)
    ensures PartOr(p, PLACEHOLDER) == PartOr(q, PLACEHOLDER) <==> NormalPart(p) == NormalPart(q)
    ensures ':' !in PartOr(p, PLACEHOLDER)
  {
  }

  // Scopes whose parts hold no colon and are not the placeholder have the same key exactly when they
  // are the same scope.
  lemma ScopeKeyIdentifies(s: Scope, t: Scope)
    requires Clean(s) && Clean(t)
    ensures ScopeKey(s) == ScopeKey(t) <==> Normal(s) == Normal(t)
  {
    var a, b, c := PartOr(s.org, PLACEHOLDER), PartOr(s.site, PLACEHOLDER), PartOr(s.stream, PLACEHOLDER);
    var x, y, z := PartOr(t.org, PLACEHOLDER), PartOr(t.site, PLACEHOLDER), PartOr(t.stream, PLACEHOLDER);
    SamePart(s.org, t.org);
    SamePart(s.site, t.site);
    SamePart(s.stream, t.stream);
    SamePart(t.org, s.org);
    SamePart(t.site, s.site);
    hide PartOr, NormalPart;
    if ScopeKey(s) == ScopeKey(t) {
      assert a + ":" + (b + ":" + c) == ScopeKey(s) == x + ":" + (y + ":" + z);
      FirstColon(a, b + ":" + c, x, y + ":" + z);
      FirstColon(b, c, y, z);
    }
  }

  predicate SomePart(s: Scope, part: Option<string>) {
    s.org == part || s.site == part || s.stream == part
  }

  // For every other part there is a scope that shares its key with a different scope. All its other parts
  // are clean, unless the part is a colon alone.
  lemma ScopeKeysCanClash(p: string) returns (s: Scope, t: Scope)
    requires !CleanPart(Some(p))
    ensures SomePart(s, Some(p)) && ScopeKey(s) == ScopeKey(t) && Normal(s) != Normal(t)
    ensures p != ":" ==> forall part | SomePart(s, part) && part != Some(p) :: CleanPart(part)
  {
    if p == PLACEHOLDER {
      s, t := Scope(Some(p), None, None), Scope(None, None, None);
    } else {
      var i :| 0 <= i < |p| && p[i] == ':';
      var a, b := p[..i], p[i + 1..];
      assert p == a + ":" + b;
      if a != [] {
        s, t := Scope(Some(p), Some("x"), Some("y")), Scope(Some(a), Some(b + ":x"), Some("y"));
        assert p + ":" + "x" + ":" + "y" == a + ":" + (b + ":x") + ":" + "y";
        assert |a| < |p|;
      } else if b != [] {
        s, t := Scope(Some("x"), Some(p), Some("y")), Scope(Some("x:"), Some(b), Some("y"));
        assert "x" + ":" + p + ":" + "y" == "x:" + ":" + b + ":" + "y";
        assert |b| < |p|;
      } else {
        assert p == ":";
        s, t := Scope(Some("x"), Some(":"), Some(":y")), Scope(Some("x"), Some("::"), Some("y"));
        assert "x" + ":" + ":" + ":" + ":y" == "x" + ":" + "::" + ":" + "y";
        assert |":"| < |"::"|;
      }
    }
  }

  // Within one scope the scoped key tells checksums apart.
  lemma ScopedIdentifies(x: string, y: string, scopeKey: string)
    requires x != "" && y != ""
    ensures Scoped(Some(x), Some(scopeKey)) == Scoped(Some(y), Some(scopeKey)) <==> x == y
  {
    var s := if scopeKey == "" then "" else scopeKey + ":";
    assert s + x == s + y ==> (s + x)[|s|..] == x && (s + y)[|s|..] == y;
  }
}
