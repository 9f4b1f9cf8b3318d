/** The secret record and the specification of every store operation on it, as pure
    functions of the record and the session's caller facts (leadership, legacy mode,
    relations). The session class in module Session implements them in place. */
module Secrets {
  import opened Outcomes
  import opened GrantTable

  /** Who owns a secret: nobody here (a pure consumer), the application, or this unit. */
  datatype Owner = NoOwner | App | Unit

  /** Scope at which this unit creates a secret: `app.add_secret` or `unit.add_secret`. */
  datatype Scope = AppScope | UnitScope

  /** The rotation policy, stored and reported but never interpreted here. */
  datatype Rotation = Never | Hourly | Daily | Weekly | Monthly | Quarterly | Yearly

  /** An expiry instant, stored and reported but never interpreted here. */
  type Timestamp = int

  /** One revision's content: a string-to-string mapping. */
  type Content = map<string, string>

  /** A secret as the session state holds it. `tracked` is the revision a plain
      `get_content()` returns. */
  datatype Secret = Secret(
    id: string,
    secretLabel: Option<string>,
    owner: Owner,
    description: Option<string>,
    expire: Option<Timestamp>,
    rotate: Option<Rotation>,
    contents: map<nat, Content>,
    tracked: nat,
    remoteGrants: Grants)

  /** A relation of the charm, reduced to what grants need. */
  datatype Relation = Relation(id: RelationId, remoteAppName: string)

  /** The metadata `get_info` reports; it carries no content. */
  datatype Info = Info(
    id: string,
    secretLabel: Option<string>,
    description: Option<string>,
    expire: Option<Timestamp>,
    rotate: Option<Rotation>,
    owner: Owner)

  function OwnerOf(scope: Scope): Owner
  {
    match scope
    case AppScope => App
    case UnitScope => Unit
  }

  /** A secret seeded by the test author: given contents, cursor at revision 0 unless
      stated otherwise, no metadata and no grants. */
  function Seeded(id: string, owner: Owner, contents: map<nat, Content>): (r: Secret)
    ensures r.id == id && r.owner == owner && r.contents == contents
    ensures Normalized(r.remoteGrants)
    ensures 0 in contents ==> r.tracked in r.contents
    ensures 0 in contents && owner == NoOwner ==> forall legacy :: GetResult(r, false, legacy) == Ok(contents[0])
    ensures 0 in contents ==> GetResult(r, false, false) == Ok(contents[0])
  {
    Secret(id, None, owner, None, None, None, contents, 0, map[])
  }

  /** The secret `add_secret` creates: the content is revision 0 and is tracked. */
  function Created(id: string, secretLabel: Option<string>, scope: Scope, content: Content): (r: Secret)
    ensures r.id == id && r.secretLabel == secretLabel && r.contents == map[0 := content]
    ensures r.owner != NoOwner && !Removed(r) && r.tracked in r.contents
    ensures scope == UnitScope ==> forall leader :: CanManage(r.owner, leader)
    ensures scope == AppScope ==> (forall leader :: CanManage(r.owner, leader) <==> leader)
    ensures r.remoteGrants == map[]
  {
    var r := Secret(id, secretLabel, OwnerOf(scope), None, None, None, map[0 := content], 0, map[]);
    assert 0 in r.contents;
    r
  }

  /** Whether this unit may manage (inspect metadata, set, grant, revoke, remove) a secret. */
  function CanManage(owner: Owner, leader: bool): (b: bool)
    ensures b ==> owner != NoOwner
    ensures owner == Unit ==> b
    ensures owner == App ==> (b <==> leader)
  {
    (owner == App && leader) || owner == Unit
  }

  /** A secret whose revisions were all removed; nothing can be read from it. */
  predicate Removed(s: Secret)
  {
    s.contents == map[]
  }

  /** The largest element of a non-empty set of revision numbers. */
  ghost function MaxOf(keys: set<nat>): (r: nat)
    requires keys != {}
    ensures r in keys
    ensures forall k :: k in keys ==> k <= r
    decreases keys
  {
    var k :| k in keys;
    if keys == {k} then k
    else
      var rest := MaxOf(keys - {k});
      assert forall j :: j in keys ==> j == k || j in keys - {k};
      if k < rest then rest else k
  }

  /** The latest revision number of a secret's contents. */
  ghost function Latest(contents: map<nat, Content>): nat
    requires contents != map[]
  {
    MaxOf(contents.Keys)
  }

  /** The largest key is determined by being a key above all others. */
  lemma LatestUnique(contents: map<nat, Content>, r: nat)
    requires r in contents
    requires forall k :: k in contents ==> k <= r
    ensures Latest(contents) == r
  {
  }

  /** Legacy owners behave as if every read refreshed. */
  predicate Refreshes(s: Secret, refresh: bool, legacy: bool)
  {
    refresh || (legacy && s.owner != NoOwner)
  }

  /** The revision `get_content(refresh)` returns, if any. */
  ghost function GetRevision(s: Secret, refresh: bool, legacy: bool): Option<nat>
  {
    if Removed(s) then None
    else if Refreshes(s, refresh, legacy) then Some(Latest(s.contents))
    else if s.tracked in s.contents then Some(s.tracked)
    else None
  }

  ghost function GetResult(s: Secret, refresh: bool, legacy: bool): (r: Result<Content>)
    ensures r.Ok? <==> !Removed(s) && (Refreshes(s, refresh, legacy) || s.tracked in s.contents)
    ensures r.Ok? ==> r.value in s.contents.Values
    ensures r.Err? ==> r.error == SecretNotFound
  {
    match GetRevision(s, refresh, legacy)
    case Some(rev) => assert rev in s.contents; Ok(s.contents[rev])
    case None => Err(SecretNotFound)
  }

  /** The secret after `get_content(refresh)`: a refreshing read moves the cursor to the
      latest revision; any other read leaves it alone. */
  ghost function AfterGet(s: Secret, refresh: bool, legacy: bool): (t: Secret)
    ensures t.(tracked := s.tracked) == s
    ensures !Refreshes(s, refresh, legacy) ==> t == s
    ensures s.tracked in s.contents ==> t.tracked in t.contents && s.tracked <= t.tracked
  {
    if !Removed(s) && Refreshes(s, refresh, legacy) then s.(tracked := Latest(s.contents))
    else s
  }

  /** `peek_content()`: the latest revision, without touching the cursor. */
  ghost function PeekResult(s: Secret): (r: Result<Content>)
    ensures r.Ok? <==> !Removed(s)
    ensures r.Err? ==> r.error == SecretNotFound
    ensures r.Ok? ==> r.value in s.contents.Values && r == GetResult(s, true, false)
  {
    if Removed(s) then Err(SecretNotFound) else Ok(s.contents[Latest(s.contents)])
  }

  /** `set_content(content)`: appends the content as the next revision. */
  ghost function SetContent(s: Secret, content: Content, leader: bool): (r: Result<Secret>)
    ensures r.Ok? <==> CanManage(s.owner, leader) && !Removed(s)
    ensures !CanManage(s.owner, leader) ==> r == Err(PermissionDenied)
    ensures r.Err? ==> s.contents == map[] || r.error == PermissionDenied
    ensures r.Ok? ==> r.value.(contents := s.contents) == s
    ensures r.Ok? ==> s.contents.Keys < r.value.contents.Keys
    ensures r.Ok? ==> forall k :: k in s.contents ==> r.value.contents[k] == s.contents[k]
  {
    if !CanManage(s.owner, leader) then Err(PermissionDenied)
    else if Removed(s) then Err(SecretNotFound)
    else
      var next := Latest(s.contents) + 1;
      assert next !in s.contents;
      Ok(s.(contents := s.contents[next := content]))
  }

  /** `get_info()`. */
  function GetInfo(s: Secret, leader: bool): (r: Result<Info>)
    ensures r.Ok? <==> CanManage(s.owner, leader) && !Removed(s)
    ensures !CanManage(s.owner, leader) ==> r == Err(PermissionDenied)
    ensures r.Err? ==> s.contents == map[] || r.error == PermissionDenied
    ensures r.Ok? ==> r.value.id == s.id && r.value.owner == s.owner && r.value.secretLabel == s.secretLabel
  {
    if !CanManage(s.owner, leader) then Err(PermissionDenied)
    else if Removed(s) then Err(SecretNotFound)
    else Ok(Info(s.id, s.secretLabel, s.description, s.expire, s.rotate, s.owner))
  }

  /** `set_info(...)`: each supplied field overwrites the stored one. */
  function SetInfo(s: Secret, leader: bool, secretLabel: Option<string>, description: Option<string>,
                   expire: Option<Timestamp>, rotate: Option<Rotation>): (r: Result<Secret>)
    ensures r.Ok? <==> CanManage(s.owner, leader) && !Removed(s)
    ensures !CanManage(s.owner, leader) ==> r == Err(PermissionDenied)
    ensures r.Ok? ==> r.value.(secretLabel := s.secretLabel, description := s.description,
                               expire := s.expire, rotate := s.rotate) == s
    ensures r.Ok? && secretLabel.Some? ==> r.value.secretLabel == secretLabel
    ensures r.Ok? && secretLabel.None? ==> r.value.secretLabel == s.secretLabel
  {
    if !CanManage(s.owner, leader) then Err(PermissionDenied)
    else if Removed(s) then Err(SecretNotFound)
    else Ok(s.(secretLabel := Override(s.secretLabel, secretLabel),
               description := Override(s.description, description),
               expire := Override(s.expire, expire),
               rotate := Override(s.rotate, rotate)))
  }

  /** The first relation with the given id. */
  function FindRelation(relations: seq<Relation>, id: RelationId): (r: Option<Relation>)
    ensures r.Some? ==> r.value in relations && r.value.id == id
    ensures r.None? <==> forall rel :: rel in relations ==> rel.id != id
  {
    if relations == [] then None
    else if relations[0].id == id then Some(relations[0])
    else FindRelation(relations[1..], id)
  }

  /** Who a grant names: the given unit, or else the relation's remote application. */
  function Grantee(rel: Relation, unit: Option<string>): string
  {
    if unit.Some? then unit.value else rel.remoteAppName
  }

  /** `grant(relation, unit)`. */
  function Grant(s: Secret, leader: bool, relations: seq<Relation>, relationId: RelationId,
                 unit: Option<string>): (r: Result<Secret>)
    ensures r.Ok? <==> CanManage(s.owner, leader) && !Removed(s) && FindRelation(relations, relationId).Some?
    ensures !CanManage(s.owner, leader) ==> r == Err(PermissionDenied)
    ensures r.Ok? ==> r.value.(remoteGrants := s.remoteGrants) == s
    ensures r.Ok? ==> IsGranted(r.value.remoteGrants, relationId, Grantee(FindRelation(relations, relationId).value, unit))
  {
    if !CanManage(s.owner, leader) then Err(PermissionDenied)
    else if Removed(s) then Err(SecretNotFound)
    else match FindRelation(relations, relationId)
      case None => Err(RelationNotFound)
      case Some(rel) => Ok(s.(remoteGrants := AddGrant(s.remoteGrants, relationId, Grantee(rel, unit))))
  }

  /** `revoke(relation, unit)`. */
  function Revoke(s: Secret, leader: bool, relations: seq<Relation>, relationId: RelationId,
                  unit: Option<string>): (r: Result<Secret>)
    ensures r.Ok? <==> CanManage(s.owner, leader) && !Removed(s) && FindRelation(relations, relationId).Some?
    ensures !CanManage(s.owner, leader) ==> r == Err(PermissionDenied)
    ensures r.Ok? ==> r.value.(remoteGrants := s.remoteGrants) == s
    ensures r.Ok? ==> !IsGranted(r.value.remoteGrants, relationId, Grantee(FindRelation(relations, relationId).value, unit))
  {
    if !CanManage(s.owner, leader) then Err(PermissionDenied)
    else if Removed(s) then Err(SecretNotFound)
    else match FindRelation(relations, relationId)
      case None => Err(RelationNotFound)
      case Some(rel) => Ok(s.(remoteGrants := RemoveGrant(s.remoteGrants, relationId, Grantee(rel, unit))))
  }

  /** `remove_all_revisions()`: wipes every revision and every grant; the secret stays in
      the state. */
  function RemoveAllRevisions(s: Secret, leader: bool): (r: Result<Secret>)
    ensures r.Ok? <==> CanManage(s.owner, leader)
    ensures r.Err? ==> r.error == PermissionDenied
    ensures r.Ok? ==> Removed(r.value) && r.value.remoteGrants == map[]
    ensures r.Ok? ==> r.value.id == s.id && r.value.secretLabel == s.secretLabel && r.value.owner == s.owner
  {
    if !CanManage(s.owner, leader) then Err(PermissionDenied)
    else Ok(s.(contents := map[], remoteGrants := map[]))
  }

  /** How `get_secret` names a secret. */
  datatype Key = ById(id: string) | ByLabel(secretLabel: string)

  predicate Matches(s: Secret, key: Key)
  {
    match key
    case ById(id) => s.id == id
    case ByLabel(l) => s.secretLabel == Some(l)
  }

  /** The position of the first secret the key names. */
  function Find(secrets: seq<Secret>, key: Key): (r: Option<nat>)
    ensures r.Some? ==> r.value < |secrets| && Matches(secrets[r.value], key)
    ensures r.Some? ==> forall j :: 0 <= j < r.value ==> !Matches(secrets[j], key)
    ensures r.None? <==> forall j :: 0 <= j < |secrets| ==> !Matches(secrets[j], key)
  {
    if secrets == [] then None
    else if Matches(secrets[0], key) then Some(0)
    else match Find(secrets[1..], key)
      case None => None
      case Some(i) => Some(i + 1)
  }

  /** The key `get_secret(id=..., label=...)` looks up: the id when given, else the label. */
  function KeyOf(id: Option<string>, secretLabel: Option<string>): Option<Key>
  {
    if id.Some? then Some(ById(id.value))
    else if secretLabel.Some? then Some(ByLabel(secretLabel.value))
    else None
  }

  /** `get_secret(id=..., label=...)`: the handle (position) of the secret, or not-found. */
  function Resolve(secrets: seq<Secret>, id: Option<string>, secretLabel: Option<string>): (r: Result<nat>)
    ensures r.Ok? ==> r.value < |secrets| && KeyOf(id, secretLabel).Some?
                      && Matches(secrets[r.value], KeyOf(id, secretLabel).value)
    ensures r.Err? ==> r.error == SecretNotFound
    ensures r.Err? <==> KeyOf(id, secretLabel).None?
                        || forall j :: 0 <= j < |secrets| ==> !Matches(secrets[j], KeyOf(id, secretLabel).value)
  {
    match KeyOf(id, secretLabel)
    case None => Err(SecretNotFound)
    case Some(key) =>
      match Find(secrets, key)
      case None => Err(SecretNotFound)
      case Some(i) => Ok(i)
  }
}
