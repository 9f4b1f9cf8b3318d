/** One unit-of-work session over the secret store. The session opens on a committed
    state, the charm's calls update its working copy in place, and `Output()` is what the
    session commits for the next one. A handle is the position of a secret in the state,
    as `get_secret` or `add_secret` returns it. */
module Session {
  import opened Outcomes
  import opened GrantTable
  import opened Secrets
  import opened PlatformVersion

  /** The committed state a session starts from and hands on. */
  datatype State = State(leader: bool, secrets: seq<Secret>, relations: seq<Relation>)

  /** The largest revision number of `contents`, or None when it holds no revision. */
  method LatestRevision(contents: map<nat, Content>) returns (r: Option<nat>)
    ensures r.None? <==> contents == map[]
    ensures r.Some? ==> r.value in contents && forall k :: k in contents ==> k <= r.value
    ensures r.Some? ==> r.value == Latest(contents)
  {
    var pending := contents.Keys;
    if pending == {} {
      return None;
    }
    var best :| best in pending;
    pending := pending - {best};
    while pending != {}
      invariant pending <= contents.Keys
      invariant best in contents
      invariant forall k :: k in contents && k !in pending ==> k <= best
      decreases pending
    {
      var k :| k in pending;
      if best < k {
        best := k;
      }
      pending := pending - {k};
    }
    LatestUnique(contents, best);
    r := Some(best);
  }

  /** The working copy after a management operation: committed on success, untouched on
      failure. */
  function Apply(secrets: seq<Secret>, handle: nat, res: Result<Secret>): seq<Secret>
    requires handle < |secrets|
  {
    if res.Ok? then secrets[handle := res.value] else secrets
  }

  function StatusOf(res: Result<Secret>): Outcome
  {
    if res.Ok? then Done else Failed(res.error)
  }

  class Session {
    var secrets: seq<Secret>
    const leader: bool
    const legacy: bool
    const relations: seq<Relation>

    /** Opens a session on `state`; the legacy mode is fixed here from the version. */
    constructor (state: State, version: Version)
      ensures Output() == state
      ensures legacy == LegacyTracking(version)
    {
      secrets := state.secrets;
      leader := state.leader;
      relations := state.relations;
      legacy := LegacyTracking(version);
    }

    /** The state this session commits. */
    function Output(): State
      reads this
    {
      State(leader, secrets, relations)
    }

    /** `get_secret(id=..., label=...)`: scans the state for the first secret the key names. */
    method GetSecret(id: Option<string>, secretLabel: Option<string>) returns (r: Result<nat>)
      ensures r == Resolve(secrets, id, secretLabel)
    {
      var key := KeyOf(id, secretLabel);
      if key.None? {
        return Err(SecretNotFound);
      }
      var i := 0;
      while i < |secrets|
        invariant 0 <= i <= |secrets|
        invariant forall j :: 0 <= j < i ==> !Matches(secrets[j], key.value)
      {
        if Matches(secrets[i], key.value) {
          return Ok(i);
        }
        i := i + 1;
      }
      r := Err(SecretNotFound);
    }

    /** `app.add_secret(content, label=...)` or `unit.add_secret(...)`; `newId` is the
        fresh identifier the platform assigns. */
    method AddSecret(scope: Scope, content: Content, secretLabel: Option<string>, newId: string)
      returns (handle: nat)
      modifies this
      ensures secrets == old(secrets) + [Created(newId, secretLabel, scope, content)]
      ensures handle == |old(secrets)| && handle < |secrets|
    {
      handle := |secrets|;
      secrets := secrets + [Created(newId, secretLabel, scope, content)];
    }

    /** `secret.get_content(refresh=...)`. */
    method GetContent(handle: nat, refresh: bool) returns (r: Result<Content>)
      requires handle < |secrets|
      modifies this
      ensures r == GetResult(old(secrets[handle]), refresh, legacy)
      ensures secrets == old(secrets)[handle := AfterGet(old(secrets[handle]), refresh, legacy)]
    {
      var s := secrets[handle];
      var latest := LatestRevision(s.contents);
      if latest.None? {
        return Err(SecretNotFound);
      }
      var revision := s.tracked;
      if refresh || (legacy && s.owner != NoOwner) {
        revision := latest.value;
        secrets := secrets[handle := s.(tracked := revision)];
      }
      if revision in s.contents {
        r := Ok(s.contents[revision]);
      } else {
        r := Err(SecretNotFound);
      }
    }

    /** `secret.peek_content()`. */
    method PeekContent(handle: nat) returns (r: Result<Content>)
      requires handle < |secrets|
      ensures r == PeekResult(secrets[handle])
    {
      var s := secrets[handle];
      var latest := LatestRevision(s.contents);
      if latest.None? {
        r := Err(SecretNotFound);
      } else {
        r := Ok(s.contents[latest.value]);
      }
    }

    /** `secret.set_content(content)`. */
    method SetContent(handle: nat, content: Content) returns (r: Outcome)
      requires handle < |secrets|
      modifies this
      ensures r == StatusOf(Secrets.SetContent(old(secrets[handle]), content, leader))
      ensures secrets == Apply(old(secrets), handle, Secrets.SetContent(old(secrets[handle]), content, leader))
    {
      var s := secrets[handle];
      if !CanManage(s.owner, leader) {
        return Failed(PermissionDenied);
      }
      var latest := LatestRevision(s.contents);
      if latest.None? {
        return Failed(SecretNotFound);
      }
      secrets := secrets[handle := s.(contents := s.contents[latest.value + 1 := content])];
      r := Done;
    }

    /** `secret.get_info()`. */
    method GetInfo(handle: nat) returns (r: Result<Info>)
      requires handle < |secrets|
      ensures r == Secrets.GetInfo(secrets[handle], leader)
    {
      var s := secrets[handle];
      if !CanManage(s.owner, leader) {
        r := Err(PermissionDenied);
      } else if s.contents == map[] {
        r := Err(SecretNotFound);
      } else {
        r := Ok(Info(s.id, s.secretLabel, s.description, s.expire, s.rotate, s.owner));
      }
    }

    /** `secret.set_info(label=..., description=..., expire=..., rotate=...)`. */
    method SetInfo(handle: nat, secretLabel: Option<string>, description: Option<string>,
                   expire: Option<Timestamp>, rotate: Option<Rotation>) returns (r: Outcome)
      requires handle < |secrets|
      modifies this
      ensures r == StatusOf(Secrets.SetInfo(old(secrets[handle]), leader, secretLabel, description, expire, rotate))
      ensures secrets == Apply(old(secrets), handle,
                               Secrets.SetInfo(old(secrets[handle]), leader, secretLabel, description, expire, rotate))
    {
      var s := secrets[handle];
      if !CanManage(s.owner, leader) {
        return Failed(PermissionDenied);
      }
      if s.contents == map[] {
        return Failed(SecretNotFound);
      }
      if secretLabel.Some? {
        s := s.(secretLabel := secretLabel);
      }
      if description.Some? {
        s := s.(description := description);
      }
      if expire.Some? {
        s := s.(expire := expire);
      }
      if rotate.Some? {
        s := s.(rotate := rotate);
      }
      secrets := secrets[handle := s];
      r := Done;
    }

    /** `secret.grant(relation, unit=...)`. */
    method Grant(handle: nat, relationId: RelationId, unit: Option<string>) returns (r: Outcome)
      requires handle < |secrets|
      modifies this
      ensures r == StatusOf(Secrets.Grant(old(secrets[handle]), leader, relations, relationId, unit))
      ensures secrets == Apply(old(secrets), handle,
                               Secrets.Grant(old(secrets[handle]), leader, relations, relationId, unit))
    {
      var s := secrets[handle];
      if !CanManage(s.owner, leader) {
        return Failed(PermissionDenied);
      }
      if s.contents == map[] {
        return Failed(SecretNotFound);
      }
      var rel := FindRelation(relations, relationId);
      if rel.None? {
        return Failed(RelationNotFound);
      }
      var grantee := if unit.Some? then unit.value else rel.value.remoteAppName;
      var scopes := if relationId in s.remoteGrants then s.remoteGrants[relationId] else {};
      secrets := secrets[handle := s.(remoteGrants := s.remoteGrants[relationId := scopes + {grantee}])];
      r := Done;
    }

    /** `secret.revoke(relation, unit=...)`. */
    method Revoke(handle: nat, relationId: RelationId, unit: Option<string>) returns (r: Outcome)
      requires handle < |secrets|
      modifies this
      ensures r == StatusOf(Secrets.Revoke(old(secrets[handle]), leader, relations, relationId, unit))
      ensures secrets == Apply(old(secrets), handle,
                               Secrets.Revoke(old(secrets[handle]), leader, relations, relationId, unit))
    {
      var s := secrets[handle];
      if !CanManage(s.owner, leader) {
        return Failed(PermissionDenied);
      }
      if s.contents == map[] {
        return Failed(SecretNotFound);
      }
      var rel := FindRelation(relations, relationId);
      if rel.None? {
        return Failed(RelationNotFound);
      }
      var grantee := if unit.Some? then unit.value else rel.value.remoteAppName;
      var grants := s.remoteGrants;
      if relationId in grants {
        var left := grants[relationId] - {grantee};
        if left == {} {
          grants := grants - {relationId};
        } else {
          grants := grants[relationId := left];
        }
      } else {
        assert grants - {relationId} == grants;
      }
      secrets := secrets[handle := s.(remoteGrants := grants)];
      r := Done;
    }

    /** `secret.remove_all_revisions()`. */
    method RemoveAllRevisions(handle: nat) returns (r: Outcome)
      requires handle < |secrets|
      modifies this
      ensures r == StatusOf(Secrets.RemoveAllRevisions(old(secrets[handle]), leader))
      ensures secrets == Apply(old(secrets), handle, Secrets.RemoveAllRevisions(old(secrets[handle]), leader))
    {
      var s := secrets[handle];
      if !CanManage(s.owner, leader) {
        return Failed(PermissionDenied);
      }
      secrets := secrets[handle := s.(contents := map[], remoteGrants := map[])];
      r := Done;
    }
  }
}
