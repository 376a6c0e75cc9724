/** Deciding whether a stored grant allows a user the use of a capability. */
module Grants {
  import opened Common

  const TOOL_GRANT := "tool"

  datatype Grant = Grant(
    id: string, user: string, capability: string, kind: string, scope: Option<string>, expiresAt: Option<Time>)

  datatype Decision = Allowed(grant: Grant) | Expired | NoMatch

  predicate Concerns(g: Grant, user: string, capability: string, kind: string) {
    g.user == user && g.capability == capability && g.kind == kind
  }

  predicate Current(g: Grant, now: Time) {
    g.expiresAt.Some? ==> now < g.expiresAt.value
  }

  // Some grant for just this use has not expired.
  predicate IsAllowed(now: Time, grants: seq<Grant>, user: string, capability: string, kind: string) {
    exists g :: g in grants && Concerns(g, user, capability, kind) && Current(g, now)
  }

  predicate IsKnown(grants: seq<Grant>, user: string, capability: string, kind: string) {
    exists g :: g in grants && Concerns(g, user, capability, kind)
  }

  ghost predicate IsFirst(now: Time, grants: seq<Grant>, user: string, capability: string, kind: string, g: Grant) {
    exists i :: 0 <= i < |grants| && grants[i] == g && Concerns(g, user, capability, kind) && Current(g, now)
      && !IsAllowed(now, grants[..i], user, capability, kind)
  }

  // The first grant that is current decides; a refusal says whether one had expired.
  method DecideGrant(now: Time, grants: seq<Grant>, user: string, capability: string, kind: string)
    returns (d: Decision)
    ensures d.Allowed? <==> IsAllowed(now, grants, user, capability, kind)
    ensures d.Allowed? ==> IsFirst(now, grants, user, capability, kind, d.grant)
    ensures d.Expired? <==> !IsAllowed(now, grants, user, capability, kind) && IsKnown(grants, user, capability, kind)
  {
    var sawExpired := false;
    for i := 0 to |grants|
      invariant !IsAllowed(now, grants[..i], user, capability, kind)
      invariant sawExpired <==> IsKnown(grants[..i], user, capability, kind)
    {
      var g := grants[i];
      assert grants[..i + 1] == grants[..i] + [g];
      if g.user != user || g.capability != capability || g.kind != kind {
        continue;
      }
      assert Concerns(g, user, capability, kind);
      if g.expiresAt.Some? && now >= g.expiresAt.value {
        sawExpired := true;
        continue;
      }
      assert Current(g, now);
      return Allowed(g);
    }
    assert grants[..|grants|] == grants;
    d := if sawExpired then Expired else NoMatch;
  }
}
