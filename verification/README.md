# Simulated secret store

A Dafny model of the secret store in the ops-scenario testing harness. The harness keeps this
in-memory, multi-revision, access-controlled store for charm secrets, and a secret's state
carries over from one event session to the next. The model follows the behaviour that
`tests/test_e2e/test_secrets.py` pins down.

- **Secret record** (`Secrets.Secret`): each secret has an id and an optional label. Its owner
  is none (a pure consumer), the application, or this unit. It carries an opaque description,
  expiry and rotation policy. Its revisions are a map from revision number to a
  string-to-string content. It has a tracked-revision cursor and a grant table mapping relation
  ids to sets of grantee names.
- **Specification functions** (module `Secrets`): every operation is a pure function of the
  record and the session's caller facts. These facts are leadership, the legacy-tracking flag
  and the relations. The operations are lookup by id or label, `add_secret` at app or unit
  scope, `get_content(refresh)`, `peek_content`, `set_content`, `get_info`, `set_info`,
  `grant`/`revoke` with an optional unit, and `remove_all_revisions`. The permission predicate
  `CanManage` is `(owner = app and leader) or owner = unit`.
- **`Session.Session` class**: one unit-of-work session. It holds the secrets as a `seq` field
  that its methods update in place, plus the leadership flag, the relations and the legacy flag.
  The legacy flag is fixed once when the session opens, from the platform version: releases
  before 3.1.7 are legacy. `Output()` is the state the session commits. The next session opens
  on that state, so every effect carries over unchanged. Each method is proved against the
  matching specification function. This covers both the returned value and the new state; on
  any failure the state is left unchanged.
- **Grant table** (module `GrantTable`): grant and revoke on the relation-id map. The table is
  normalized: a relation whose last grantee was revoked disappears from the map.
- **Secret events** (module `SecretEvents`): building a `secret_changed` event for an owned
  secret is rejected. So is building `secret_rotate`, `secret_expired` or `secret_remove` for a
  secret with no owner.
- **Scenarios** (module `Scenarios`): the suite's call sequences replayed as client methods of
  the session class. Each postcondition states the values the test asserts.

The model follows the tests on these points:

- A seeded secret without an explicit cursor tracks revision 0, not the latest revision. With
  revisions {0, 1}, a plain `get_content()` returns revision 0
  (`tests/test_e2e/test_secrets.py:89`, `:116`).
- `secret_rotate`, `secret_expired` and `secret_remove` are rejected for secrets with no owner
  (`:144-157`).
- After `remove_all_revisions` the secret stays in the committed state with empty contents
  (`:536`).

The tests never use a secret after removing its revisions, so the following are the model's
own choices:

- Removal also clears the secret's grants.
- Every later read of a removed secret fails with not-found.
- For a caller who may manage the secret, every later management call fails with not-found,
  and removing all revisions again succeeds. A caller who may not manage it still gets a
  permission error first.

## Model

| member | source | states |
|---|---|---|
| `Secrets.Resolve` | tests/test_e2e/test_secrets.py:30-36 | `get_secret` looks up by id when one is given, else by label. It returns a position whose secret matches. It fails with not-found exactly when no secret matches, so a state with no secrets resolves nothing. |
| `Secrets.Find` | tests/test_e2e/test_secrets.py:39-45 | Returns the first position whose secret matches the key: no earlier one matches. It returns none exactly when no secret matches. |
| `Session.Session.GetSecret` | tests/test_e2e/test_secrets.py:30-45 | Scanning the session's secrets yields the same handle or not-found as `Resolve`. |
| `Scenarios.LookupInEmptyState` | tests/test_e2e/test_secrets.py:30-36 | In a state without secrets, lookup by id `foo` and by label `foo` both fail with not-found. |
| `Secrets.FindRelation` | tests/test_e2e/test_secrets.py:398 | Returns a relation of the state with the requested id, and none exactly when no relation has it. |
| `Secrets.CanManage` | tests/test_e2e/test_secrets.py:316-322 | Only owners manage: a secret with no owner is never managed. A unit-owned secret always is. An app-owned secret is managed exactly when the unit is leader. |
| `PlatformVersion.LegacyTracking` | tests/test_e2e/test_secrets.py:180 | Every 2.x release is legacy and every 4.x release is not. Within 3.x, exactly 3.0.* and 3.1.0-3.1.6 are legacy. |
| `Secrets.Seeded` | tests/test_e2e/test_secrets.py:89 | A seeded secret keeps the given id, owner and contents and has no grants. When revision 0 exists, the cursor names it. A plain non-legacy get returns revision 0, and for an unowned secret a plain get returns revision 0 in either mode (:89, :116). |
| `Secrets.Created` | tests/test_e2e/test_secrets.py:168-176 | The secret `add_secret` creates has the id, the label and contents {0: content}. It is owned and live, its cursor is valid and it has no grants. A unit-scope secret is always manageable. An app-scope secret is manageable exactly by the leader. |
| `Secrets.GetResult` | tests/test_e2e/test_secrets.py:88-94 | `get_content` succeeds iff the secret is live and the read refreshes or the cursor names a revision. Its value is one of the stored revisions. Its only error is not-found, so reads need no permission. |
| `Secrets.AfterGet` | tests/test_e2e/test_secrets.py:93-94 | A read changes nothing but the cursor. A read that does not refresh changes nothing at all. A valid cursor stays valid and never moves backwards. |
| `Secrets.PeekResult` | tests/test_e2e/test_secrets.py:90 | `peek_content` succeeds iff the secret is live and fails only with not-found. Its value is a stored revision, the same one a refreshing get returns. |
| `Secrets.SetContent` | tests/test_e2e/test_secrets.py:357-370 | `set_content` succeeds iff the caller manages a live secret, and a non-manager gets a permission error. On success only the contents change: every old revision is kept as it was and the set of revision numbers strictly grows. |
| `Secrets.GetInfo` | tests/test_e2e/test_secrets.py:356-367 | `get_info` succeeds iff the caller manages a live secret, and a non-manager gets a permission error. Success reports the secret's id, owner and label. |
| `Secrets.SetInfo` | tests/test_e2e/test_secrets.py:427-432 | `set_info` succeeds iff the caller manages a live secret. Only the four metadata fields change. A supplied label replaces the stored one and an omitted label keeps it. |
| `Secrets.Grant` | tests/test_e2e/test_secrets.py:396-402 | A grant succeeds iff the caller manages a live secret and the relation exists. A non-manager gets a permission error. Only the grants change, and the grantee is then granted on the relation. |
| `Secrets.Revoke` | tests/test_e2e/test_secrets.py:526 | A revoke succeeds iff the caller manages a live secret and the relation exists. Only the grants change, and the grantee is then no longer granted on the relation. |
| `Secrets.RemoveAllRevisions` | tests/test_e2e/test_secrets.py:534-536 | Removal succeeds iff the caller manages the secret, and otherwise fails with a permission error. On success the contents and the grants are empty, while the id, label and owner stay, so the secret remains listed. |
| `Secrets.MaxOf` | tests/test_e2e/test_secrets.py:90 | The latest revision is a key of the revision map and no key is larger. |
| `Secrets.LatestUnique` | tests/test_e2e/test_secrets.py:90 | Any key that bounds all keys is the latest revision. |
| `Session.LatestRevision` | tests/test_e2e/test_secrets.py:90-93 | The loop over the revision numbers returns the largest one, equal to `Latest`. It returns none exactly when the secret has no revisions. |
| `Session.Session.constructor` | tests/test_e2e/test_secrets.py:523 | A session opened on a committed state holds exactly that state. Its legacy flag is `LegacyTracking(version)`. |
| `Session.Session.AddSecret` | tests/test_e2e/test_secrets.py:168-171 | Appends one new secret: the content as revision 0, cursor 0, owner app or unit by scope, the given label and no grants. Every earlier secret is unchanged. |
| `SecretProperties.AddStoresRevisionZero` | tests/test_e2e/test_secrets.py:173-176 | A created secret has exactly revision 0, which is the added content, and an owner. It keeps the label. Get, refreshing get and peek all return that content. |
| `Scenarios.AddCommits` | tests/test_e2e/test_secrets.py:160-176 | Adding at app scope as leader, or at unit scope otherwise, commits one secret with contents {0: content} and the label. |
| `SecretProperties.AddThenResolve` | tests/test_e2e/test_secrets.py:523-525 | A secret added under a fresh id resolves by that id to the new position. Under a fresh label it resolves by that label too. |
| `SecretProperties.FindAfterAppend` | tests/test_e2e/test_secrets.py:525 | Appending a secret keeps every earlier first match. The new secret is found only when nothing before it matches. |
| `Session.Session.GetContent` | tests/test_e2e/test_secrets.py:88-94 | Returns `GetResult` and leaves the secret as `AfterGet` says. A refresh, or any read by an owner in legacy mode, returns the latest revision and moves the cursor there. Any other read returns the tracked revision. Nothing else changes. |
| `Session.Session.PeekContent` | tests/test_e2e/test_secrets.py:90 | Returns the latest revision, or not-found for a removed secret. It changes nothing. |
| `Session.Session.SetContent` | tests/test_e2e/test_secrets.py:197-205 | A manager's write on a live secret stores the content as revision latest + 1. Otherwise it fails with a permission or not-found error, and the state is unchanged. |
| `SecretProperties.SetContentAppends` | tests/test_e2e/test_secrets.py:237-241 | `set_content` adds exactly one key, latest + 1, which holds the new content and becomes the latest. Every earlier revision, the cursor, the owner and the grants are unaltered. |
| `SecretProperties.WritesNumberRevisions` | tests/test_e2e/test_secrets.py:246-250 | From revisions 0..n-1, k writes all succeed and leave exactly revisions 0..n+k-1. Old revisions are unaltered, write j is revision n+j, and the cursor stays put. |
| `SecretProperties.AddThenWrite` | tests/test_e2e/test_secrets.py:214-218 | After an add and k writes, the revisions are exactly 0..k: revision 0 is the added content and revision j+1 is write j. |
| `SecretProperties.ConsumerTracking` | tests/test_e2e/test_secrets.py:70-94 | For a secret with no owner, a plain get returns the tracked revision and leaves the cursor. Peek returns the latest revision. A refreshing get returns the latest and moves the cursor there, so later plain gets return the latest. |
| `Scenarios.ConsumerPeekThenRefresh` | tests/test_e2e/test_secrets.py:70-94 | With seeded revisions {0: a=b, 1: a=c}, the calls get, peek, get, get(refresh), get observe b, c, b, c, c, whether or not the unit is leader. |
| `Scenarios.OwnerPeekThenRefresh` | tests/test_e2e/test_secrets.py:97-118 | An app or unit owner outside legacy mode observes b from get, then c from peek and c from get(refresh). |
| `SecretProperties.OwnerSetKeepsCursor` | tests/test_e2e/test_secrets.py:236-244 | Outside legacy mode, `set_content` does not move an owner's cursor. A plain get keeps returning the previously tracked content. Peek and a refreshing get return the new content. |
| `Scenarios.OwnerReadThree` | tests/test_e2e/test_secrets.py:230-235 | For an owned secret, get returns the tracked revision (the latest in legacy mode). Peek and get(refresh) return the latest, and the cursor ends on it. |
| `Scenarios.WriteThenRead` | tests/test_e2e/test_secrets.py:237-244 | Writing to a unit-owned secret with revisions 0..n-1 makes the content revision n. The reads that follow see the old tracked content from a plain get (the new one in legacy mode) and the new one from peek and refresh. |
| `Scenarios.WriteTwice` | tests/test_e2e/test_secrets.py:229-250 | Adds rev1 and writes rev2 and rev3, reading after each step. Only a plain get's result depends on the legacy flag. The commit is taken after the third write and before the last reads, as at :241-244. It holds contents {0: rev1, 1: rev2, 2: rev3} with the cursor still on revision 1. |
| `Scenarios.OwnerWrites` | tests/test_e2e/test_secrets.py:221-250 | Outside legacy mode, a plain get lags one write behind: rev1 x3, then rev1, rev2, rev2, then rev2, rev3, rev3. The commit holds all three revisions. |
| `SecretProperties.LegacyOwnerTracksLatest` | tests/test_e2e/test_secrets.py:179-195 | In legacy mode an owner's plain get equals peek and equals a refreshing get. It moves the cursor the same way. |
| `SecretProperties.LegacyOwnerSeesEveryWrite` | tests/test_e2e/test_secrets.py:197-203 | In legacy mode an owner's plain get after `set_content` returns the content just written. |
| `Scenarios.LegacyOwnerWrites` | tests/test_e2e/test_secrets.py:179-218 | On 3.1.6, every group of get, peek and get(refresh) observes the latest revision: rev1, then rev2, then rev3. The commit holds all three revisions. |
| `SecretProperties.ReadsNeedNoPermission` | tests/test_e2e/test_secrets.py:343-354 | With a valid cursor, get, refreshing get and peek succeed on a live secret whatever the owner and leadership. On a removed secret they fail with not-found and change nothing. |
| `SecretProperties.GetKeepsCursorValid` | tests/test_e2e/test_secrets.py:93-94 | Reads keep the cursor on an existing revision and never move it backwards. Only a refreshing read, or a legacy owner's read, moves it. |
| `SecretProperties.ManagementGated` | tests/test_e2e/test_secrets.py:316-370 | On a live secret, `get_info`, `set_content`, `set_info` and `remove_all_revisions` succeed iff (owner = app and leader) or owner = unit. Grant and revoke also need the relation. Otherwise each management call fails with a permission error. |
| `Scenarios.PermissionModel` | tests/test_e2e/test_secrets.py:314-370 | For every owner and leadership, the three reads see a=b, and `get_info` and `set_content` succeed exactly for managers. A manager then sees a=b from get and foo=boo from a refresh, and removal empties the contents. A non-manager gets permission errors and the contents stay as they were. |
| `Scenarios.ManagerReadsThenRemoves` | tests/test_e2e/test_secrets.py:357-361 | After a manager writes revision 1 while tracking revision 0, get returns a=b, get(refresh) returns foo=boo, and removing all revisions leaves the contents empty. |
| `Session.Session.GetInfo` | tests/test_e2e/test_secrets.py:306-311 | Returns the metadata of a live secret to a manager, and otherwise a permission or not-found error. It changes nothing. |
| `Scenarios.ReadMetadata` | tests/test_e2e/test_secrets.py:282-311 | A leader finds the owned secret by label and by id. Its info reports label `mylabel` and rotation hourly. |
| `Session.Session.SetInfo` | tests/test_e2e/test_secrets.py:427-432 | A manager's `set_info` on a live secret overwrites each supplied field. On failure the state is unchanged. |
| `SecretProperties.SetInfoThenGetInfo` | tests/test_e2e/test_secrets.py:407-438 | `get_info` after `set_info` reports every supplied label, description, expiry and rotation, and keeps the unsupplied fields. Contents, cursor and grants are untouched. |
| `Scenarios.UpdateMetadata` | tests/test_e2e/test_secrets.py:407-438 | The committed secret has label `babbuccia`, rotation daily, description `blu` and the given expiry. |
| `Session.Session.Grant` | tests/test_e2e/test_secrets.py:517 | A manager's grant on a live secret and an existing relation adds the named unit, or else the relation's remote application, under the relation id. Otherwise it fails with a permission, not-found or relation-not-found error, and the state is unchanged. |
| `Session.Session.Revoke` | tests/test_e2e/test_secrets.py:526 | Removes that grantee from the relation's set and drops the relation once its set is empty. Failures are as for grant. |
| `Session.Session.RemoveAllRevisions` | tests/test_e2e/test_secrets.py:534 | A manager's call empties the contents and the grants and leaves everything else, so the secret stays listed. A non-manager gets a permission error and the state is unchanged. |
| `GrantTable.AddGrant` | tests/test_e2e/test_secrets.py:517 | Keeps the table normalized and adds exactly the relation id to its keys. |
| `GrantTable.RemoveGrant` | tests/test_e2e/test_secrets.py:526-529 | Keeps the table normalized and never adds a relation. |
| `GrantTable.AddGrantExactly` | tests/test_e2e/test_secrets.py:517-521 | After a grant, a (relation, grantee) pair is granted iff it was before or is the one just granted. |
| `GrantTable.RemoveGrantExactly` | tests/test_e2e/test_secrets.py:526-529 | After a revoke, a pair is granted iff it was before and is not the one revoked. |
| `GrantTable.AddGrantIdempotent` | tests/test_e2e/test_secrets.py:517 | Granting the same grantee twice leaves the same table as granting once. |
| `GrantTable.RemoveUngrantedIsNoOp` | tests/test_e2e/test_secrets.py:526 | Revoking a grantee that holds no grant leaves a normalized table unchanged. |
| `GrantTable.RemoveUndoesAdd` | tests/test_e2e/test_secrets.py:526-529 | Revoking a freshly granted grantee restores the table exactly. Revoking the only grant leaves `{}`. |
| `SecretProperties.GrantRecordsGrantee` | tests/test_e2e/test_secrets.py:512-521 | Granting without a unit records the relation's remote application name under the relation id, and naming a unit records the unit. Nothing else is granted. From no grants the table becomes {relation: {grantee}}. |
| `SecretProperties.RevokeUndoesGrant` | tests/test_e2e/test_secrets.py:523-529 | A revoke right after a grant of a fresh grantee succeeds and gives back the original secret. With no prior grants, `remote_grants` is `{}`. |
| `SecretProperties.RevokeRemovesGrantee` | tests/test_e2e/test_secrets.py:523-529 | A manager's revoke on a live secret and an existing relation succeeds. Afterwards the named unit, or else the relation's remote application, is no longer granted on that relation, and every other (relation, grantee) pair is granted exactly as before. |
| `SecretProperties.GrantsStayNormalized` | tests/test_e2e/test_secrets.py:526-529 | Grant and revoke never leave a relation with an empty set. |
| `Scenarios.GrantOnRelation` | tests/test_e2e/test_secrets.py:373-404 | A unit-owned secret granted on a relation whose remote application is `remote` ends with grants {relation: {"remote"}}. With the unit `remote/0` named, the grants are {relation: {"remote/0"}}. |
| `Scenarios.ConsumerCannotGrant` | tests/test_e2e/test_secrets.py:462-491 | A grant on a secret with no owner fails with a permission error and records nothing. |
| `Scenarios.GrantAfterAdd` | tests/test_e2e/test_secrets.py:441-459 | A secret added at app scope by the leader, or at unit scope otherwise, can be granted on a relation. |
| `SecretProperties.RemoveAllIsFinal` | tests/test_e2e/test_secrets.py:531-536 | After `remove_all_revisions` the contents and the grants are empty. Get, peek, `get_info`, `set_content`, grant and revoke then fail with not-found, and removing again changes nothing. |
| `Scenarios.AddGrantRevokeRemove` | tests/test_e2e/test_secrets.py:494-536 | Three sessions, each opened on the previous commit. After the first, relation 42 grants `remote_secret_desirerer`. After the second the grants are `{}`. After the third the contents are empty. |
| `SecretProperties.ReadsAndWritesPreserveWellFormed` | tests/test_e2e/test_secrets.py:229-244 | Every read, every successful `set_content` and every successful `set_info` keeps a live secret's cursor on one of its revisions and its grant table normalized. |
| `SecretProperties.GrantsAndRemovalPreserveWellFormed` | tests/test_e2e/test_secrets.py:512-536 | Every successful grant, revoke and removal keeps the cursor valid and the grant table normalized. |
| `SecretProperties.CreatedIsWellFormed` | tests/test_e2e/test_secrets.py:168-171 | Every secret `add_secret` creates has a valid cursor and a normalized grant table. |
| `SecretEvents.BuildEvent` | tests/test_e2e/test_secrets.py:121-157 | Building an event succeeds iff the event is `secret_changed` and the secret has no owner, or it is rotate/expired/remove and the secret has an owner. A success names the secret. A failure is a validation error. |
| `SecretEvents.WrongSideEventsRejected` | tests/test_e2e/test_secrets.py:121-157 | `secret_changed` for an owned secret is rejected. `secret_rotate`, `secret_expired` and `secret_remove` for an unowned secret are rejected. |
| `PlatformVersion.LegacyCutoff` | tests/test_e2e/test_secrets.py:179-183 | 3.1.6 is legacy; 3.1.7 and 3.3.1 are not. |
| `PlatformVersion.BeforeIsStrictTotalOrder` | tests/test_e2e/test_secrets.py:180 | Version comparison is irreflexive, asymmetric, transitive and total. |
| `PlatformVersion.LegacyIsDownwardClosed` | tests/test_e2e/test_secrets.py:180 | Every version older than a legacy version is legacy, and every version newer than a normal version is normal. |
| `Scenarios.GrantCheckAsWrittenMissesUnitCase` | tests/test_e2e/test_secrets.py:404 | The grant test's final check, as Python parses it, accepts an empty grant table in the unit case. The intended check rejects that table. |

## Findings

| source | as written | input that shows it | evidently intended | confidence | as-written member | corrected member |
|---|---|---|---|---|---|---|
| tests/test_e2e/test_secrets.py:404 | `assert vals == [{"remote"}] if app else [{"remote/0"}]` parses as `(vals == [...]) if app else [{"remote/0"}]`, so the unit case asserts a non-empty list. | `app = False` with `vals == []` (no grant recorded) passes. | `assert vals == ([{"remote"}] if app else [{"remote/0"}])` | high (not executed) | `Scenarios.GrantCheckAsWrittenMissesUnitCase` | `Scenarios.GrantOnRelation` |

## Left out

- The event-dispatch framework is not part of this model: `Context`, `ctx.manager`, `mgr.run()`, charm classes, `framework.observe`, the `trigger` helper and pytest fixtures. A session boundary is modelled only as committing `Output()` and opening the next session on it.
- The ops `Secret` handle is not modelled. Its content cache and the fact that a handle fetched by id reports label None (`:309-310`) are not captured. Only the stored secret is modelled.
- Secret ids are not generated. `AddSecret` takes the fresh id as a parameter. The `secret:` prefix canonicalization of ids is not modelled.
- Content validation is not modelled: empty contents, non-string values and key formats. Duplicate-label errors are not modelled either. The tests assert none of them.
- The expiry is an opaque `Timestamp` (an integer), not a `datetime`. The rotation policy is a plain enumeration that is stored and reported, never interpreted.
- A relation is reduced to its id and remote application name. Its remote unit names are not modelled, and an app-scope grant records the remote application name rather than expanding to units.
- The platform version is a `(major, minor, patch)` triple. Parsing a version string is not part of this model.
- A removed secret is not made unresolvable. It stays in the state with empty contents (`:536`).
- Removing a single revision (`remove_revision`) is not modelled; the tests never call it.
- Grant checks on consumer reads are not modelled. Content reads succeed for every owner and leadership, as the tests require (`:343-346`).
- Revoking a grantee that holds no grant is modelled as a no-op. The tests do not exercise it.
- Dispatching secret events is not modelled. Only the validity check made when an event is built is.
