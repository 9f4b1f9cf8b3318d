/** What the store promises across calls: revision numbering, the tracking cursor, the
    permission model, grants, metadata, lookup and removal, stated over the specification
    functions of module Secrets. */
module SecretProperties {
  import opened Outcomes
  import opened GrantTable
  import opened Secrets

  // ---------------------------------------------------------------------------
  // Revisions

  /** The revision numbers are exactly 0, 1, ..., n - 1. */
  ghost predicate RevisionsExactly(contents: map<nat, Content>, n: nat)
  {
    forall k: nat :: k in contents <==> k < n
  }

  /** With revisions 0 .. n - 1 the latest revision is n - 1. */
  lemma LatestOfDense(contents: map<nat, Content>, n: nat)
    requires RevisionsExactly(contents, n)
    requires n > 0
    ensures contents != map[]
    ensures Latest(contents) == n - 1
  {
    assert n - 1 in contents;
    LatestUnique(contents, n - 1);
  }

  /** `add_secret` stores its content as revision 0, the only revision, and tracks it. */
  lemma AddStoresRevisionZero(id: string, secretLabel: Option<string>, scope: Scope, content: Content, legacy: bool)
    ensures var s := Created(id, secretLabel, scope, content);
      && RevisionsExactly(s.contents, 1)
      && s.owner != NoOwner
      && s.secretLabel == secretLabel
      && GetResult(s, false, legacy) == Ok(content)
      && GetResult(s, true, legacy) == Ok(content)
      && PeekResult(s) == Ok(content)
  {
    var s := Created(id, secretLabel, scope, content);
    LatestOfDense(s.contents, 1);
  }

  /** `set_content` appends one revision numbered one past the latest and alters no
      earlier revision, the cursor, the owner or the grants. */
  lemma SetContentAppends(s: Secret, content: Content, leader: bool)
    requires CanManage(s.owner, leader)
    requires !Removed(s)
    ensures SetContent(s, content, leader).Ok?
    ensures var t := SetContent(s, content, leader).value;
      && t.contents.Keys == s.contents.Keys + {Latest(s.contents) + 1}
      && !Removed(t)
      && Latest(t.contents) == Latest(s.contents) + 1
      && t.contents[Latest(t.contents)] == content
      && (forall k :: k in s.contents ==> t.contents[k] == s.contents[k])
      && t.tracked == s.tracked && t.owner == s.owner && t.remoteGrants == s.remoteGrants
  {
    var t := SetContent(s, content, leader).value;
    var next := Latest(s.contents) + 1;
    assert next in t.contents;
    forall k | k in t.contents
      ensures k <= next
    {
      if k != next {
        assert k in s.contents;
      }
    }
    LatestUnique(t.contents, next);
  }

  /** A run of `set_content` calls, stopping at the first failure. */
  ghost function WriteAll(s: Secret, leader: bool, writes: seq<Content>): Result<Secret>
    decreases |writes|
  {
    if writes == [] then Ok(s)
    else match SetContent(s, writes[0], leader)
      case Err(e) => Err(e)
      case Ok(t) => WriteAll(t, leader, writes[1..])
  }

  /** Revision monotonicity: starting from revisions 0 .. n - 1, every write succeeds and
      the result holds exactly revisions 0 .. n + |writes| - 1, the old ones unaltered
      and write j stored as revision n + j; the cursor does not move. */
  lemma {:induction false} WritesNumberRevisions(s: Secret, leader: bool, writes: seq<Content>, n: nat)
    requires CanManage(s.owner, leader)
    requires RevisionsExactly(s.contents, n)
    requires n > 0
    ensures WriteAll(s, leader, writes).Ok?
    ensures var t := WriteAll(s, leader, writes).value;
      && RevisionsExactly(t.contents, n + |writes|)
      && (forall k :: 0 <= k < n ==> t.contents[k] == s.contents[k])
      && (forall j :: 0 <= j < |writes| ==> t.contents[n + j] == writes[j])
      && t.tracked == s.tracked && t.owner == s.owner
    decreases |writes|
  {
    if writes != [] {
      LatestOfDense(s.contents, n);
      SetContentAppends(s, writes[0], leader);
      var t1 := SetContent(s, writes[0], leader).value;
      assert RevisionsExactly(t1.contents, n + 1);
      WritesNumberRevisions(t1, leader, writes[1..], n + 1);
      var t := WriteAll(t1, leader, writes[1..]).value;
      assert WriteAll(s, leader, writes) == Ok(t);
      forall j | 0 <= j < |writes|
        ensures t.contents[n + j] == writes[j]
      {
        if j > 0 {
          assert writes[j] == writes[1..][j - 1];
          assert n + j == (n + 1) + (j - 1);
        }
      }
    }
  }

  /** `add_secret` followed by k writes gives exactly revisions 0 .. k: revision 0 is the
      added content and revision j + 1 is write j. */
  lemma AddThenWrite(id: string, secretLabel: Option<string>, scope: Scope, content: Content,
                     leader: bool, writes: seq<Content>)
    requires CanManage(OwnerOf(scope), leader)
    ensures WriteAll(Created(id, secretLabel, scope, content), leader, writes).Ok?
    ensures var t := WriteAll(Created(id, secretLabel, scope, content), leader, writes).value;
      && RevisionsExactly(t.contents, |writes| + 1)
      && t.contents[0] == content
      && forall j :: 0 <= j < |writes| ==> t.contents[j + 1] == writes[j]
  {
    var s := Created(id, secretLabel, scope, content);
    WritesNumberRevisions(s, leader, writes, 1);
    var t := WriteAll(s, leader, writes).value;
    forall j | 0 <= j < |writes|
      ensures t.contents[j + 1] == writes[j]
    {
      assert j + 1 == 1 + j;
    }
  }

  // ---------------------------------------------------------------------------
  // The tracking cursor

  /** A live secret's cursor names one of its revisions. */
  predicate CursorValid(s: Secret)
  {
    !Removed(s) ==> s.tracked in s.contents
  }

  /** Content reads never consult ownership or leadership: on a live secret with a valid
      cursor `get_content`, `get_content(refresh=True)` and `peek_content` succeed for
      every owner, and on a removed secret they all fail with not-found. */
  lemma ReadsNeedNoPermission(s: Secret, refresh: bool, legacy: bool)
    requires CursorValid(s)
    ensures !Removed(s) ==> GetResult(s, refresh, legacy).Ok? && PeekResult(s).Ok?
    ensures Removed(s) ==> GetResult(s, refresh, legacy) == Err(SecretNotFound)
                           && PeekResult(s) == Err(SecretNotFound)
                           && AfterGet(s, refresh, legacy) == s
  {
  }

  /** A refreshing read, or a legacy owner's read, moves the cursor only forwards and
      keeps it valid; a plain read by anyone else does not move it. */
  lemma GetKeepsCursorValid(s: Secret, refresh: bool, legacy: bool)
    requires CursorValid(s)
    ensures CursorValid(AfterGet(s, refresh, legacy))
    ensures AfterGet(s, refresh, legacy).tracked >= s.tracked
    ensures !Refreshes(s, refresh, legacy) ==> AfterGet(s, refresh, legacy) == s
  {
  }

  /** For a consumer (no owner): a plain get returns the tracked revision and leaves the
      cursor; peek returns the latest; a refreshing get returns the latest and moves the
      cursor there, so later plain gets return the latest too. */
  lemma ConsumerTracking(s: Secret, legacy: bool)
    requires s.owner == NoOwner
    requires !Removed(s) && CursorValid(s)
    ensures GetResult(s, false, legacy) == Ok(s.contents[s.tracked])
    ensures AfterGet(s, false, legacy) == s
    ensures PeekResult(s) == Ok(s.contents[Latest(s.contents)])
    ensures var t := AfterGet(s, true, legacy);
      && t.tracked == Latest(s.contents)
      && GetResult(s, true, legacy) == PeekResult(s)
      && GetResult(t, false, legacy) == PeekResult(s)
      && AfterGet(t, false, legacy) == t
  {
  }

  /** An owner outside legacy mode: `set_content` does not move the cursor, so a plain
      get keeps returning the previously tracked content, while peek and a refreshing
      get return the new content. */
  lemma OwnerSetKeepsCursor(s: Secret, content: Content, leader: bool)
    requires CanManage(s.owner, leader)
    requires !Removed(s) && CursorValid(s)
    ensures SetContent(s, content, leader).Ok?
    ensures var t := SetContent(s, content, leader).value;
      && GetResult(t, false, false) == GetResult(s, false, false) == Ok(s.contents[s.tracked])
      && AfterGet(t, false, false) == t
      && PeekResult(t) == Ok(content)
      && GetResult(t, true, false) == Ok(content)
      && AfterGet(t, true, false).tracked == Latest(t.contents)
  {
    SetContentAppends(s, content, leader);
    var t := SetContent(s, content, leader).value;
    assert s.tracked <= Latest(s.contents);
  }

  /** In legacy mode an owner's plain get behaves as a refreshing get: it equals peek,
      and it moves the cursor the same way. */
  lemma LegacyOwnerTracksLatest(s: Secret)
    requires s.owner != NoOwner
    ensures GetResult(s, false, true) == PeekResult(s) == GetResult(s, true, true)
    ensures AfterGet(s, false, true) == AfterGet(s, true, true)
  {
  }

  /** In legacy mode an owner's plain get returns what the last `set_content` wrote. */
  lemma LegacyOwnerSeesEveryWrite(s: Secret, content: Content, leader: bool)
    requires CanManage(s.owner, leader)
    requires !Removed(s)
    ensures SetContent(s, content, leader).Ok?
    ensures GetResult(SetContent(s, content, leader).value, false, true) == Ok(content)
  {
    SetContentAppends(s, content, leader);
  }

  // ---------------------------------------------------------------------------
  // Permissions

  /** Management is gated exactly by (owner = app and leader) or owner = unit: on a live
      secret `get_info`, `set_content`, `set_info` and `remove_all_revisions` succeed iff
      that holds, and otherwise every management call, grant and revoke included, fails
      with a permission error and leaves the secret as it was. */
  lemma ManagementGated(s: Secret, leader: bool, content: Content, relations: seq<Relation>,
                        relationId: RelationId, unit: Option<string>, secretLabel: Option<string>,
                        description: Option<string>, expire: Option<Timestamp>, rotate: Option<Rotation>)
    requires !Removed(s)
    ensures var manage := (s.owner == App && leader) || s.owner == Unit;
      && (GetInfo(s, leader).Ok? <==> manage)
      && (SetContent(s, content, leader).Ok? <==> manage)
      && (SetInfo(s, leader, secretLabel, description, expire, rotate).Ok? <==> manage)
      && (RemoveAllRevisions(s, leader).Ok? <==> manage)
      && (Grant(s, leader, relations, relationId, unit).Ok? <==> (manage && FindRelation(relations, relationId).Some?))
      && (Revoke(s, leader, relations, relationId, unit).Ok? <==> (manage && FindRelation(relations, relationId).Some?))
    ensures !CanManage(s.owner, leader) ==>
      && GetInfo(s, leader) == Err(PermissionDenied)
      && SetContent(s, content, leader) == Err(PermissionDenied)
      && SetInfo(s, leader, secretLabel, description, expire, rotate) == Err(PermissionDenied)
      && RemoveAllRevisions(s, leader) == Err(PermissionDenied)
      && Grant(s, leader, relations, relationId, unit) == Err(PermissionDenied)
      && Revoke(s, leader, relations, relationId, unit) == Err(PermissionDenied)
  {
  }

  // ---------------------------------------------------------------------------
  // Grants

  /** Granting on a relation without naming a unit records the relation's remote
      application under the relation id; naming a unit records that unit instead. */
  lemma GrantRecordsGrantee(s: Secret, leader: bool, relations: seq<Relation>,
                            rel: Relation, unit: Option<string>)
    requires CanManage(s.owner, leader) && !Removed(s)
    requires FindRelation(relations, rel.id) == Some(rel)
    ensures Grant(s, leader, relations, rel.id, unit).Ok?
    ensures var g := Grant(s, leader, relations, rel.id, unit).value.remoteGrants;
      var who := if unit.Some? then unit.value else rel.remoteAppName;
      && IsGranted(g, rel.id, who)
      && (forall r, w :: IsGranted(g, r, w) <==> IsGranted(s.remoteGrants, r, w) || (r == rel.id && w == who))
      && (s.remoteGrants == map[] ==> g == map[rel.id := {who}])
  {
    var who := if unit.Some? then unit.value else rel.remoteAppName;
    var g := Grant(s, leader, relations, rel.id, unit).value.remoteGrants;
    forall r, w
      ensures IsGranted(g, r, w) <==> IsGranted(s.remoteGrants, r, w) || (r == rel.id && w == who)
    {
      AddGrantExactly(s.remoteGrants, rel.id, who, r, w);
    }
    if s.remoteGrants == map[] {
      assert ScopesOf(s.remoteGrants, rel.id) + {who} == {who};
    }
  }

  /** Revoking a grant just made on a fresh scope restores the grant table; in particular
      revoking the only grant leaves no grants at all. */
  lemma RevokeUndoesGrant(s: Secret, leader: bool, relations: seq<Relation>,
                          relationId: RelationId, unit: Option<string>)
    requires Normalized(s.remoteGrants)
    requires Grant(s, leader, relations, relationId, unit).Ok?
    requires !IsGranted(s.remoteGrants, relationId,
                        Grantee(FindRelation(relations, relationId).value, unit))
    ensures var t := Grant(s, leader, relations, relationId, unit).value;
      && Revoke(t, leader, relations, relationId, unit).Ok?
      && Revoke(t, leader, relations, relationId, unit).value == s
  {
    var who := Grantee(FindRelation(relations, relationId).value, unit);
    RemoveUndoesAdd(s.remoteGrants, relationId, who);
  }

  /** Revoking on a relation with or without a unit removes exactly that grantee's grant
      on that relation; every other (relation, grantee) pair keeps its grant. */
  lemma RevokeRemovesGrantee(s: Secret, leader: bool, relations: seq<Relation>,
                             rel: Relation, unit: Option<string>)
    requires CanManage(s.owner, leader) && !Removed(s)
    requires FindRelation(relations, rel.id) == Some(rel)
    ensures Revoke(s, leader, relations, rel.id, unit).Ok?
    ensures var g := Revoke(s, leader, relations, rel.id, unit).value.remoteGrants;
      var who := if unit.Some? then unit.value else rel.remoteAppName;
      && !IsGranted(g, rel.id, who)
      && (forall r, w :: IsGranted(g, r, w) <==> IsGranted(s.remoteGrants, r, w) && !(r == rel.id && w == who))
  {
    var who := if unit.Some? then unit.value else rel.remoteAppName;
    var g := Revoke(s, leader, relations, rel.id, unit).value.remoteGrants;
    forall r, w
      ensures IsGranted(g, r, w) <==> IsGranted(s.remoteGrants, r, w) && !(r == rel.id && w == who)
    {
      RemoveGrantExactly(s.remoteGrants, rel.id, who, r, w);
    }
  }

  /** Grant and revoke keep the table normalized: no relation is kept with an empty set. */
  lemma GrantsStayNormalized(s: Secret, leader: bool, relations: seq<Relation>,
                             relationId: RelationId, unit: Option<string>)
    requires Normalized(s.remoteGrants)
    ensures Grant(s, leader, relations, relationId, unit).Ok? ==>
              Normalized(Grant(s, leader, relations, relationId, unit).value.remoteGrants)
    ensures Revoke(s, leader, relations, relationId, unit).Ok? ==>
              Normalized(Revoke(s, leader, relations, relationId, unit).value.remoteGrants)
  {
  }

  // ---------------------------------------------------------------------------
  // Metadata

  /** `get_info` after `set_info` reports every supplied field, keeps every field not
      supplied, and `set_info` touches neither contents, cursor, owner nor grants. */
  lemma SetInfoThenGetInfo(s: Secret, leader: bool, secretLabel: Option<string>,
                           description: Option<string>, expire: Option<Timestamp>,
                           rotate: Option<Rotation>)
    requires CanManage(s.owner, leader) && !Removed(s)
    ensures SetInfo(s, leader, secretLabel, description, expire, rotate).Ok?
    ensures var t := SetInfo(s, leader, secretLabel, description, expire, rotate).value;
      && GetInfo(t, leader).Ok?
      && GetInfo(t, leader).value.secretLabel == (if secretLabel.Some? then secretLabel else s.secretLabel)
      && GetInfo(t, leader).value.description == (if description.Some? then description else s.description)
      && GetInfo(t, leader).value.expire == (if expire.Some? then expire else s.expire)
      && GetInfo(t, leader).value.rotate == (if rotate.Some? then rotate else s.rotate)
      && GetInfo(t, leader).value.id == s.id && GetInfo(t, leader).value.owner == s.owner
      && t.contents == s.contents && t.tracked == s.tracked && t.remoteGrants == s.remoteGrants
  {
  }

  // ---------------------------------------------------------------------------
  // Removal

  /** After `remove_all_revisions` the secret has no contents, and every read and every
      later management call on it fails with not-found; removing again is harmless. */
  lemma RemoveAllIsFinal(s: Secret, leader: bool, refresh: bool, legacy: bool, content: Content,
                         relations: seq<Relation>, relationId: RelationId, unit: Option<string>)
    requires CanManage(s.owner, leader)
    ensures RemoveAllRevisions(s, leader).Ok?
    ensures var t := RemoveAllRevisions(s, leader).value;
      && Removed(t)
      && t.remoteGrants == map[]
      && GetResult(t, refresh, legacy) == Err(SecretNotFound)
      && PeekResult(t) == Err(SecretNotFound)
      && GetInfo(t, leader) == Err(SecretNotFound)
      && SetContent(t, content, leader) == Err(SecretNotFound)
      && Grant(t, leader, relations, relationId, unit) == Err(SecretNotFound)
      && Revoke(t, leader, relations, relationId, unit) == Err(SecretNotFound)
      && RemoveAllRevisions(t, leader) == Ok(t)
  {
  }

  // ---------------------------------------------------------------------------
  // Well-formedness across every operation

  /** A secret whose cursor is valid and whose grant table is normalized. */
  predicate WellFormed(s: Secret)
  {
    CursorValid(s) && Normalized(s.remoteGrants)
  }

  /** Reads, content writes and metadata updates map a well-formed secret to a
      well-formed one. */
  lemma ReadsAndWritesPreserveWellFormed(s: Secret, leader: bool, refresh: bool, legacy: bool,
                                         content: Content, secretLabel: Option<string>,
                                         description: Option<string>, expire: Option<Timestamp>,
                                         rotate: Option<Rotation>)
    requires WellFormed(s)
    ensures WellFormed(AfterGet(s, refresh, legacy))
    ensures SetContent(s, content, leader).Ok? ==> WellFormed(SetContent(s, content, leader).value)
    ensures SetInfo(s, leader, secretLabel, description, expire, rotate).Ok? ==>
              WellFormed(SetInfo(s, leader, secretLabel, description, expire, rotate).value)
  {
    GetKeepsCursorValid(s, refresh, legacy);
    if SetContent(s, content, leader).Ok? {
      SetContentAppends(s, content, leader);
    }
  }

  /** Grant, revoke and removal map a well-formed secret to a well-formed one. */
  lemma GrantsAndRemovalPreserveWellFormed(s: Secret, leader: bool, relations: seq<Relation>,
                                           relationId: RelationId, unit: Option<string>)
    requires WellFormed(s)
    ensures Grant(s, leader, relations, relationId, unit).Ok? ==>
              WellFormed(Grant(s, leader, relations, relationId, unit).value)
    ensures Revoke(s, leader, relations, relationId, unit).Ok? ==>
              WellFormed(Revoke(s, leader, relations, relationId, unit).value)
    ensures RemoveAllRevisions(s, leader).Ok? ==> WellFormed(RemoveAllRevisions(s, leader).value)
  {
    GrantsStayNormalized(s, leader, relations, relationId, unit);
  }

  /** Every secret `add_secret` creates is well-formed. */
  lemma CreatedIsWellFormed(id: string, secretLabel: Option<string>, scope: Scope, content: Content)
    ensures WellFormed(Created(id, secretLabel, scope, content))
  {
  }

  // ---------------------------------------------------------------------------
  // Lookup

  /** Appending a secret never changes what an earlier match resolves to, and the new
      secret is found when nothing before it matches. */
  lemma {:induction false} FindAfterAppend(secrets: seq<Secret>, s: Secret, key: Key)
    ensures Find(secrets + [s], key) ==
      if Find(secrets, key).Some? then Find(secrets, key)
      else if Matches(s, key) then Some(|secrets|)
      else None
  {
    var r := Find(secrets + [s], key);
    var all := secrets + [s];
    if Find(secrets, key).Some? {
      var i := Find(secrets, key).value;
      assert all[i] == secrets[i];
      assert forall j :: 0 <= j < i ==> all[j] == secrets[j];
    } else if Matches(s, key) {
      assert all[|secrets|] == s;
      assert forall j :: 0 <= j < |secrets| ==> all[j] == secrets[j];
    } else {
      assert forall j :: 0 <= j < |all| ==> all[j] == s || all[j] == secrets[j];
      assert forall j :: 0 <= j < |all| ==> !Matches(all[j], key);
    }
  }

  /** A secret added under a fresh id can be looked up by that id, and under a fresh label
      by that label, and the lookup lands on the new secret. */
  lemma AddThenResolve(secrets: seq<Secret>, id: string, secretLabel: Option<string>,
                       scope: Scope, content: Content)
    ensures (forall j :: 0 <= j < |secrets| ==> secrets[j].id != id) ==>
              Resolve(secrets + [Created(id, secretLabel, scope, content)], Some(id), None) == Ok(|secrets|)
    ensures secretLabel.Some? && (forall j :: 0 <= j < |secrets| ==> secrets[j].secretLabel != secretLabel) ==>
              Resolve(secrets + [Created(id, secretLabel, scope, content)], None, secretLabel) == Ok(|secrets|)
  {
    var s := Created(id, secretLabel, scope, content);
    FindAfterAppend(secrets, s, ById(id));
    if secretLabel.Some? {
      FindAfterAppend(secrets, s, ByLabel(secretLabel.value));
    }
  }
}
