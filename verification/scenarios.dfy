/** The suite's scenarios replayed as clients of the session class: each method opens
    sessions, issues the calls a test makes, and its postcondition states the values the
    test observes. Sessions chain through `Output()`, the committed state. */
module Scenarios {
  import opened Outcomes
  import opened GrantTable
  import opened Secrets
  import opened PlatformVersion
  import opened Session
  import SecretProperties

  const AB: Content := map["a" := "b"]
  const AC: Content := map["a" := "c"]
  const Boo: Content := map["foo" := "boo"]
  const Rev1: Content := map["foo" := "bar"]
  const Rev2: Content := map["foo" := "baz"]
  const Rev3: Content := map["foo" := "baz", "qux" := "roz"]

  /** Looking a secret up by id or by label in a state without secrets fails. */
  method LookupInEmptyState(version: Version) returns (byId: Result<nat>, byLabel: Result<nat>)
    ensures byId == Err(SecretNotFound) && byLabel == Err(SecretNotFound)
  {
    var session := new Session(State(false, [], []), version);
    byId := session.GetSecret(Some("foo"), None);
    byLabel := session.GetSecret(None, Some("foo"));
  }

  /** A consumer reads a seeded secret with revisions {0: a=b, 1: a=c} and no stated
      cursor: get, peek, get, get(refresh), get. */
  method ConsumerPeekThenRefresh(leader: bool, version: Version) returns (seen: seq<Result<Content>>)
    ensures seen == [Ok(AB), Ok(AC), Ok(AB), Ok(AC), Ok(AC)]
  {
    SecretProperties.LatestOfDense(map[0 := AB, 1 := AC], 2);
    var session := new Session(State(leader, [Seeded("foo", NoOwner, map[0 := AB, 1 := AC])], []), version);
    var h := session.GetSecret(Some("foo"), None);
    assert h == Ok(0);
    var r1 := session.GetContent(0, false);
    var r2 := session.PeekContent(0);
    var r3 := session.GetContent(0, false);
    var r4 := session.GetContent(0, true);
    var r5 := session.GetContent(0, false);
    seen := [r1, r2, r3, r4, r5];
  }

  /** An owner outside legacy mode reads a seeded secret with revisions {0: a=b, 1: a=c}:
      get, peek, get(refresh). */
  method OwnerPeekThenRefresh(scope: Scope, version: Version) returns (seen: seq<Result<Content>>)
    requires !LegacyTracking(version)
    ensures seen == [Ok(AB), Ok(AC), Ok(AC)]
  {
    SecretProperties.LatestOfDense(map[0 := AB, 1 := AC], 2);
    var session := new Session(State(false, [Seeded("foo", OwnerOf(scope), map[0 := AB, 1 := AC])], []), version);
    var r1 := session.GetContent(0, false);
    var r2 := session.PeekContent(0);
    var r3 := session.GetContent(0, true);
    seen := [r1, r2, r3];
  }

  /** The three reads each step of the owner scenarios makes on a session holding one
      owned secret: get, peek, get(refresh). A plain get returns the tracked revision,
      or the latest one in legacy mode; peek and the refreshing get return the latest;
      the cursor ends on the latest revision. */
  method OwnerReadThree(session: Session, ghost s: Secret) returns (seen: seq<Result<Content>>)
    requires session.secrets == [s]
    requires s.owner != NoOwner && !Removed(s) && s.tracked in s.contents
    modifies session
    ensures session.secrets == [s.(tracked := Latest(s.contents))]
    ensures seen == [Ok(s.contents[if session.legacy then Latest(s.contents) else s.tracked]),
                     Ok(s.contents[Latest(s.contents)]),
                     Ok(s.contents[Latest(s.contents)])]
  {
    var r1 := session.GetContent(0, false);
    var r2 := session.PeekContent(0);
    var r3 := session.GetContent(0, true);
    seen := [r1, r2, r3];
  }

  /** A unit adds a secret and writes two more revisions, reading get, peek,
      get(refresh) after each step. Outside legacy mode a plain get lags one write
      behind; the committed contents are {0: rev1, 1: rev2, 2: rev3}. */
  method OwnerWrites(version: Version) returns (seen: seq<Result<Content>>, out: State)
    requires !LegacyTracking(version)
    ensures seen == [Ok(Rev1), Ok(Rev1), Ok(Rev1),
                     Ok(Rev1), Ok(Rev2), Ok(Rev2),
                     Ok(Rev2), Ok(Rev3), Ok(Rev3)]
    ensures |out.secrets| == 1 && out.secrets[0].contents == map[0 := Rev1, 1 := Rev2, 2 := Rev3]
  {
    var session := new Session(State(false, [], []), version);
    seen, out := WriteTwice(session);
  }

  /** The same calls on platform 3.1.6: the owner's plain get always equals peek and the
      latest revision. */
  method LegacyOwnerWrites() returns (seen: seq<Result<Content>>, out: State)
    ensures seen == [Ok(Rev1), Ok(Rev1), Ok(Rev1),
                     Ok(Rev2), Ok(Rev2), Ok(Rev2),
                     Ok(Rev3), Ok(Rev3), Ok(Rev3)]
    ensures |out.secrets| == 1 && out.secrets[0].contents == map[0 := Rev1, 1 := Rev2, 2 := Rev3]
  {
    var session := new Session(State(false, [], []), Version(3, 1, 6));
    seen, out := WriteTwice(session);
  }

  /** Add rev1, read three times, write rev2, read, write rev3, commit, read: the commit
      is taken before the last three reads, as the suite runs the event before them. */
  method WriteTwice(session: Session) returns (seen: seq<Result<Content>>, out: State)
    requires session.secrets == []
    modifies session
    ensures var lag := !session.legacy;
      seen == [Ok(Rev1), Ok(Rev1), Ok(Rev1),
               Ok(if lag then Rev1 else Rev2), Ok(Rev2), Ok(Rev2),
               Ok(if lag then Rev2 else Rev3), Ok(Rev3), Ok(Rev3)]
    ensures |out.secrets| == 1 && out.secrets[0].contents == map[0 := Rev1, 1 := Rev2, 2 := Rev3]
    ensures out.secrets[0].tracked == 1
  {
    var h := session.AddSecret(UnitScope, Rev1, Some("mylabel"), "secret-1");
    ghost var s0 := session.secrets[0];
    SecretProperties.LatestOfDense(s0.contents, 1);
    var s1 := OwnerReadThree(session, s0);
    var s2 := WriteThenRead(session, s0, Rev2, 1);
    ghost var s2State := s0.(contents := s0.contents[1 := Rev2], tracked := 1);
    SecretProperties.LatestOfDense(s2State.contents, 2);
    var w := session.SetContent(0, Rev3);
    out := session.Output();
    ghost var s3State := s2State.(contents := s2State.contents[2 := Rev3]);
    SecretProperties.LatestOfDense(s3State.contents, 3);
    var s3 := OwnerReadThree(session, s3State);
    seen := s1 + s2 + s3;
  }

  /** `set_content` on a unit-owned secret holding revisions 0 .. n - 1, then get, peek,
      get(refresh): the new content is revision n and the cursor ends there. */
  method WriteThenRead(session: Session, ghost s: Secret, content: Content, ghost n: nat)
    returns (seen: seq<Result<Content>>)
    requires session.secrets == [s] && s.owner == Unit
    requires SecretProperties.RevisionsExactly(s.contents, n) && n > 0 && s.tracked < n
    modifies session
    ensures session.secrets == [s.(contents := s.contents[n := content], tracked := n)]
    ensures seen == [Ok(if session.legacy then content else s.contents[s.tracked]), Ok(content), Ok(content)]
  {
    SecretProperties.LatestOfDense(s.contents, n);
    var w := session.SetContent(0, content);
    ghost var t := s.(contents := s.contents[n := content]);
    SecretProperties.LatestOfDense(t.contents, n + 1);
    seen := OwnerReadThree(session, t);
  }

  /** `app.add_secret` as leader or `unit.add_secret` otherwise: the committed secret has
      the content as revision 0 and the label. */
  method AddCommits(leader: bool, version: Version) returns (out: State)
    ensures |out.secrets| == 1
    ensures out.secrets[0].contents == map[0 := Rev1]
    ensures out.secrets[0].secretLabel == Some("mylabel")
  {
    var session := new Session(State(leader, [], []), version);
    var scope := if leader then AppScope else UnitScope;
    var h := session.AddSecret(scope, Rev1, Some("mylabel"), "secret-1");
    out := session.Output();
  }

  /** Every (owner, leader) pair reads a seeded secret; management works exactly when
      (owner = app and leader) or owner = unit, and a manager sees its write only after a
      refresh and can then remove every revision. */
  method PermissionModel(owner: Owner, leader: bool, version: Version)
    returns (firstReads: seq<Result<Content>>, info: Result<Info>, write: Outcome,
             afterWrite: seq<Result<Content>>, out: State)
    requires !LegacyTracking(version)
    ensures firstReads == [Ok(AB), Ok(AB), Ok(AB)]
    ensures info.Ok? <==> (owner == App && leader) || owner == Unit
    ensures write == (if (owner == App && leader) || owner == Unit then Done else Failed(PermissionDenied))
    ensures info.Err? ==> info.error == PermissionDenied
    ensures write.Done? ==> afterWrite == [Ok(AB), Ok(Boo)]
    ensures |out.secrets| == 1
    ensures write.Done? ==> out.secrets[0].contents == map[]
    ensures write.Failed? ==> out.secrets[0].contents == map[0 := AB]
  {
    var seed := Seeded("foo", owner, map[0 := AB]).(secretLabel := Some("mylabel"),
                                                     description := Some("foobarbaz"),
                                                     rotate := Some(Hourly));
    SecretProperties.LatestOfDense(map[0 := AB], 1);
    var session := new Session(State(leader, [seed], []), version);
    var r1 := session.GetContent(0, false);
    var r2 := session.PeekContent(0);
    var r3 := session.GetContent(0, true);
    firstReads := [r1, r2, r3];
    info := session.GetInfo(0);
    write := session.SetContent(0, Boo);
    afterWrite := [];
    if write.Done? {
      afterWrite := ManagerReadsThenRemoves(session, seed.(contents := map[0 := AB, 1 := Boo]));
    }
    out := session.Output();
  }

  /** A manager that has just written revision 1 over a cursor on revision 0 reads it back
      with get and get(refresh), then removes every revision. */
  method ManagerReadsThenRemoves(session: Session, ghost s: Secret) returns (afterWrite: seq<Result<Content>>)
    requires session.secrets == [s] && s.contents == map[0 := AB, 1 := Boo] && s.tracked == 0
    requires !session.legacy && CanManage(s.owner, session.leader)
    modifies session
    ensures afterWrite == [Ok(AB), Ok(Boo)]
    ensures |session.secrets| == 1 && session.secrets[0].contents == map[]
  {
    SecretProperties.LatestOfDense(s.contents, 2);
    var r4 := session.GetContent(0, false);
    var r5 := session.GetContent(0, true);
    afterWrite := [r4, r5];
    var removed := session.RemoveAllRevisions(0);
  }

  /** A leader looks up an owned secret by label and by id and reads its metadata. */
  method ReadMetadata(scope: Scope, version: Version) returns (info: Result<Info>)
    ensures info.Ok?
    ensures info.value.secretLabel == Some("mylabel") && info.value.rotate == Some(Hourly)
  {
    var seed := Seeded("foo", OwnerOf(scope), map[0 := AB]).(secretLabel := Some("mylabel"),
                                                               description := Some("foobarbaz"),
                                                               rotate := Some(Hourly));
    SecretProperties.LatestOfDense(map[0 := AB], 1);
    var session := new Session(State(true, [seed], []), version);
    var byLabel := session.GetSecret(None, Some("mylabel"));
    assert byLabel == Ok(0);
    var byId := session.GetSecret(Some("foo"), None);
    assert byId == Ok(0);
    info := session.GetInfo(byId.value);
  }

  /** A unit-owned secret's metadata is overwritten by `set_info` and committed. */
  method UpdateMetadata(expiry: Timestamp, version: Version) returns (out: State)
    ensures |out.secrets| == 1
    ensures out.secrets[0].secretLabel == Some("babbuccia")
    ensures out.secrets[0].rotate == Some(Daily)
    ensures out.secrets[0].description == Some("blu")
    ensures out.secrets[0].expire == Some(expiry)
  {
    var seed := Seeded("foo", Unit, map[0 := AB]).(secretLabel := Some("mylabel"));
    SecretProperties.LatestOfDense(map[0 := AB], 1);
    var session := new Session(State(false, [seed], []), version);
    var h := session.GetSecret(None, Some("mylabel"));
    assert h == Ok(0);
    var r := session.SetInfo(0, Some("babbuccia"), Some("blu"), Some(expiry), Some(Daily));
    out := session.Output();
  }

  /** A unit-owned secret granted on a relation to the remote application "remote"
      (no unit named) or to the unit "remote/0". */
  method GrantOnRelation(app: bool, relationId: RelationId, version: Version) returns (out: State)
    ensures |out.secrets| == 1
    ensures out.secrets[0].remoteGrants == map[relationId := {if app then "remote" else "remote/0"}]
    ensures GrantCheckIntended(app, out.secrets[0].remoteGrants)
  {
    var seed := Seeded("foo", Unit, map[0 := AB]).(secretLabel := Some("mylabel"));
    SecretProperties.LatestOfDense(map[0 := AB], 1);
    var session := new Session(State(false, [seed], [Relation(relationId, "remote")]), version);
    var h := session.GetSecret(None, Some("mylabel"));
    assert h == Ok(0);
    var unit := if app then None else Some("remote/0");
    var r := session.Grant(0, relationId, unit);
    assert {if app then "remote" else "remote/0"} == {} + {Grantee(Relation(relationId, "remote"), unit)};
    out := session.Output();
  }

  /** `list(remote_grants.values()) == [scopes]`: one relation, granted exactly `scopes`. */
  ghost predicate OnlyGrant(grants: Grants, scopes: set<string>)
  {
    exists rel :: grants == map[rel := scopes]
  }

  /** The grant test's final check as Python parses it: `(vals == [{"remote"}]) if app
      else [{"remote/0"}]`. In the unit case it evaluates a non-empty list literal, which
      is always true, so nothing about the grants is checked. */
  ghost predicate GrantCheckAsWritten(app: bool, grants: Grants)
  {
    if app then OnlyGrant(grants, {"remote"}) else [{"remote/0"}] != []
  }

  /** The check the test evidently means: the expected value depends on `app`. */
  ghost predicate GrantCheckIntended(app: bool, grants: Grants)
  {
    OnlyGrant(grants, if app then {"remote"} else {"remote/0"})
  }

  /** As written, the unit case accepts a grant table in which nothing was granted. */
  lemma GrantCheckAsWrittenMissesUnitCase()
    ensures GrantCheckAsWritten(false, map[])
    ensures !GrantCheckIntended(false, map[])
  {
    forall rel: RelationId
      ensures map[] != map[rel := {"remote/0"}]
    {
      assert rel in map[rel := {"remote/0"}];
    }
  }

  /** A consumer cannot grant a secret it does not own. */
  method ConsumerCannotGrant(relationId: RelationId, version: Version) returns (r: Outcome, out: State)
    ensures r == Failed(PermissionDenied)
    ensures |out.secrets| == 1 && out.secrets[0].remoteGrants == map[]
  {
    var seed := Seeded("foo", NoOwner, map[0 := AB]).(secretLabel := Some("mylabel"));
    var session := new Session(State(false, [seed], [Relation(relationId, "remote")]), version);
    var byLabel := session.GetSecret(None, Some("mylabel"));
    assert byLabel == Ok(0);
    r := session.Grant(0, relationId, None);
    out := session.Output();
  }

  /** Adding a secret at the scope leadership allows and granting it on a relation works. */
  method GrantAfterAdd(leader: bool, relationId: RelationId, version: Version) returns (r: Outcome)
    ensures r == Done
  {
    SecretProperties.LatestOfDense(map[0 := Rev1], 1);
    var session := new Session(State(leader, [], [Relation(relationId, "remote")]), version);
    var scope := if leader then AppScope else UnitScope;
    var h := session.AddSecret(scope, Rev1, None, "secret-1");
    r := session.Grant(h, relationId, None);
  }

  /** Three sessions in a row, each starting from the previous one's committed state:
      add and grant, then revoke, then remove all revisions. */
  method AddGrantRevokeRemove(version: Version) returns (out1: State, out2: State, out3: State)
    ensures |out1.secrets| == 1 && 42 in out1.secrets[0].remoteGrants
    ensures "remote_secret_desirerer" in out1.secrets[0].remoteGrants[42]
    ensures |out2.secrets| == 1 && out2.secrets[0].remoteGrants == map[]
    ensures |out3.secrets| == 1 && out3.secrets[0].contents == map[]
  {
    var relations := [Relation(42, "remote_secret_desirerer")];
    SecretProperties.LatestOfDense(map[0 := Rev1], 1);
    var first := new Session(State(true, [], relations), version);
    var h := first.AddSecret(AppScope, Rev1, Some("mylabel"), "secret-1");
    var granted := first.Grant(h, 42, None);
    out1 := first.Output();

    var second := new Session(out1, version);
    var h2 := second.GetSecret(None, Some("mylabel"));
    assert h2 == Ok(0);
    var revoked := second.Revoke(0, 42, None);
    out2 := second.Output();

    var third := new Session(out2, version);
    var h3 := third.GetSecret(None, Some("mylabel"));
    assert h3 == Ok(0);
    var removed := third.RemoveAllRevisions(0);
    out3 := third.Output();
  }
}
