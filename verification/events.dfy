/** Building the secret events a test dispatches. `secret_changed` is sent to consumers;
    `secret_rotate`, `secret_expired` and `secret_remove` are sent to owners. Building one
    for the wrong kind of secret is rejected when the event is built, before any session. */
module SecretEvents {
  import opened Outcomes
  import opened Secrets

  datatype EventKind =
    | SecretChanged
    | SecretRotate
    | SecretExpired(revision: nat)
    | SecretRemove(revision: nat)

  datatype SecretEvent = SecretEvent(kind: EventKind, secretId: string)

  /** Only `secret_changed` is a consumer-side event. */
  predicate ForConsumers(kind: EventKind)
  {
    kind.SecretChanged?
  }

  /** `ctx.on.secret_<kind>(secret, ...)`. */
  function BuildEvent(kind: EventKind, s: Secret): (r: Result<SecretEvent>)
    ensures r.Ok? <==> (ForConsumers(kind) <==> s.owner == NoOwner)
    ensures r.Ok? ==> r.value.kind == kind && r.value.secretId == s.id
    ensures r.Err? ==> r.error == InvalidEvent
  {
    if ForConsumers(kind) && s.owner != NoOwner then Err(InvalidEvent)
    else if !ForConsumers(kind) && s.owner == NoOwner then Err(InvalidEvent)
    else Ok(SecretEvent(kind, s.id))
  }

  /** An owned secret never yields `secret_changed`; an unowned one never yields an
      owner-side event. */
  lemma WrongSideEventsRejected(s: Secret, revision: nat)
    ensures s.owner != NoOwner ==> BuildEvent(SecretChanged, s) == Err(InvalidEvent)
    ensures s.owner == NoOwner ==>
              && BuildEvent(SecretRotate, s) == Err(InvalidEvent)
              && BuildEvent(SecretExpired(revision), s) == Err(InvalidEvent)
              && BuildEvent(SecretRemove(revision), s) == Err(InvalidEvent)
  {
  }
}
