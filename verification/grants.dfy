/** The grant table of one secret: relation id -> the consumer scopes (remote unit or
    application names) allowed to read it. An absent relation means "no grant"; a
    relation is never kept with an empty set. */
module GrantTable {

  type RelationId = int

  type Grants = map<RelationId, set<string>>

  /** Empty sets and absent keys mean the same, and the table keeps only the latter. */
  predicate Normalized(g: Grants)
  {
    forall rel :: rel in g ==> g[rel] != {}
  }

  predicate IsGranted(g: Grants, rel: RelationId, scope: string)
  {
    rel in g && scope in g[rel]
  }

  /** The scopes granted on `rel`, empty when the relation has no entry. */
  function ScopesOf(g: Grants, rel: RelationId): set<string>
  {
    if rel in g then g[rel] else {}
  }

  /** Adds `scope` to the grants on `rel`, creating the entry when missing. */
  function AddGrant(g: Grants, rel: RelationId, scope: string): (r: Grants)
    ensures Normalized(g) ==> Normalized(r)
    ensures r.Keys == g.Keys + {rel}
  {
    g[rel := ScopesOf(g, rel) + {scope}]
  }

  /** Removes `scope` from the grants on `rel` and drops the entry once it is empty. */
  function RemoveGrant(g: Grants, rel: RelationId, scope: string): (r: Grants)
    ensures Normalized(g) ==> Normalized(r)
    ensures r.Keys <= g.Keys
  {
    var left := ScopesOf(g, rel) - {scope};
    if left == {} then g - {rel} else g[rel := left]
  }

  /** Granting adds exactly one (relation, scope) pair and nothing else. */
  lemma AddGrantExactly(g: Grants, rel: RelationId, scope: string, rel': RelationId, scope': string)
    ensures IsGranted(AddGrant(g, rel, scope), rel', scope')
        <==> IsGranted(g, rel', scope') || (rel' == rel && scope' == scope)
  {
  }

  /** Revoking removes exactly one (relation, scope) pair and nothing else. */
  lemma RemoveGrantExactly(g: Grants, rel: RelationId, scope: string, rel': RelationId, scope': string)
    ensures IsGranted(RemoveGrant(g, rel, scope), rel', scope')
        <==> IsGranted(g, rel', scope') && !(rel' == rel && scope' == scope)
  {
    var left := ScopesOf(g, rel) - {scope};
    if rel' == rel && left == {} {
      assert rel' !in RemoveGrant(g, rel, scope);
      assert scope' in ScopesOf(g, rel) ==> scope' in left || scope' == scope;
    }
  }

  /** Granting the same scope twice is the same as granting it once. */
  lemma AddGrantIdempotent(g: Grants, rel: RelationId, scope: string)
    ensures AddGrant(AddGrant(g, rel, scope), rel, scope) == AddGrant(g, rel, scope)
  {
    var once := AddGrant(g, rel, scope);
    assert ScopesOf(once, rel) + {scope} == ScopesOf(once, rel);
  }

  /** Revoking a scope that was never granted changes nothing. */
  lemma RemoveUngrantedIsNoOp(g: Grants, rel: RelationId, scope: string)
    requires Normalized(g)
    requires !IsGranted(g, rel, scope)
    ensures RemoveGrant(g, rel, scope) == g
  {
    var left := ScopesOf(g, rel) - {scope};
    assert left == ScopesOf(g, rel);
    if rel in g {
      assert g[rel := left] == g;
    } else {
      assert g - {rel} == g;
    }
  }

  /** Revoke undoes a grant of a fresh scope: the table is restored exactly, so
      revoking the only grant leaves no entry for that relation. */
  lemma RemoveUndoesAdd(g: Grants, rel: RelationId, scope: string)
    requires Normalized(g)
    requires !IsGranted(g, rel, scope)
    ensures RemoveGrant(AddGrant(g, rel, scope), rel, scope) == g
  {
    var added := AddGrant(g, rel, scope);
    var left := ScopesOf(added, rel) - {scope};
    assert left == ScopesOf(g, rel);
    if rel in g {
      assert added[rel := left] == g;
    } else {
      assert added - {rel} == g;
    }
  }
}
