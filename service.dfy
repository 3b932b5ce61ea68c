/**
 * `NotificationService` (src/service/NotificationService.go): validation and
 * orchestration over an injected repository. Logging is left out.
 */
module Service {
  import opened Wrappers
  import opened Model
  import opened Dto
  import opened Mapper
  import opened Repository

  /**
   * The errors `AddNotification` hands back: the validator's, or the
   * repository's passed through unchanged.
   */
  datatype ServiceError = Validation(failed: seq<Field>) | Storage(cause: StorageError)

  /** Every stored row passed validation. */
  ghost predicate AllValid(rows: seq<Notification>)
  {
    forall x :: x in rows ==> Validate(x).Pass?
  }

  class NotificationService {
    const repo: NotificationRepository

    /**
     * What holds of a store written only through this service: every row is
     * valid, and every id lies below the sequence.
     */
    ghost predicate Sound()
      reads repo
    {
      repo.Valid() && AllValid(repo.rows) && IdsBelow(repo.rows, repo.nextId)
    }

    /** `NewNotificationService`: the service over the given repository. */
    constructor (repository: NotificationRepository)
      ensures repo == repository
    {
      repo := repository;
    }

    /**
     * `AddNotification`: map the payload, validate it, and only if it is valid
     * insert it once, returning the repository's error unchanged.
     */
    method AddNotification(d: NotificationDto, reachable: bool) returns (err: Outcome<ServiceError>)
      requires repo.Valid()
      modifies repo
      ensures repo.Valid()
      ensures Validate(ToEntity(d)).Fail? ==>
                err == Fail(Validation(Validate(ToEntity(d)).error)) &&
                repo.rows == old(repo.rows) && repo.nextId == old(repo.nextId)
      ensures Validate(ToEntity(d)).Pass? ==>
                var out := Insert(old(repo.rows), old(repo.nextId), ToEntity(d), reachable);
                repo.rows == out.rows && repo.nextId == out.nextId &&
                (out.result.Pass? ==> err == Pass) &&
                (out.result.Fail? ==> err == Fail(Storage(out.result.error)))
      ensures old(Sound()) ==> Sound()
      ensures old(Sound()) && reachable && Validate(ToEntity(d)).Pass? ==>
                (err == Pass <==> Storable(ToEntity(d)) && old(repo.nextId) <= MaxInt4)
      ensures err == Pass ==>
                repo.rows == old(repo.rows) + [ToEntity(d).(id := old(repo.nextId))]
    {
      var notification := ToEntity(d);
      var v := Validate(notification);
      if v.Fail? {
        return Fail(Validation(v.error));
      }
      ghost var wasSound := Sound();
      var e, _ := repo.AddNotification(notification, reachable);
      if wasSound && e.Pass? {
        IdIgnoredByValidate(notification, old(repo.nextId));
      }
      if e.Fail? {
        return Fail(Storage(e.error));
      }
      err := Pass;
    }

    /**
     * `GetNotifications`: the repository's rows for `owner`, each mapped to
     * its payload, in repository order. A failed query reads as no rows.
     */
    method GetNotifications(owner: string, reachable: bool) returns (res: seq<NotificationDto>)
      ensures var found := Filter(repo.rows, OwnedBy(owner));
              reachable && StorableText(owner) ==>
                |res| == |found| && forall i :: 0 <= i < |res| ==> res[i] == ToDto(found[i])
      ensures !reachable || !StorableText(owner) ==> res == []
    {
      var notifications := repo.GetNotificationsByUserAuth0ID(owner, reachable);
      var found: seq<Notification> := [];
      if notifications.Some? {
        found := notifications.value;
      }
      assert reachable && StorableText(owner) ==> found == Filter(repo.rows, OwnedBy(owner));
      assert !reachable || !StorableText(owner) ==> found == [];
      var a := new NotificationDto[|found|];
      for i := 0 to |found|
        invariant forall k :: 0 <= k < i ==> a[k] == ToDto(found[k])
      {
        a[i] := ToDto(found[i]);
      }
      res := a[..];
      assert |res| == |found|;
    }

    /** `DeleteNotifications`: one delete on the repository with the same identity; no result. */
    method DeleteNotifications(u: string, reachable: bool)
      requires '|' in u && PlainSegment(Segment(u))
      requires repo.Valid()
      modifies repo
      ensures repo.Valid()
      ensures repo.nextId == old(repo.nextId)
      ensures repo.rows == if reachable then Filter(old(repo.rows), NotDeletedBy(Segment(u))) else old(repo.rows)
      ensures old(Sound()) ==> Sound()
    {
      ghost var before := repo.rows;
      repo.DeleteNotificationsByUserAuth0ID(u, reachable);
      forall x | x in repo.rows ensures x in before {
        if reachable {
          FilterMember(before, NotDeletedBy(Segment(u)), x);
        }
      }
    }
  }

  // ---------------------------------------------------------------------------
  // Properties relating several service calls.
  // ---------------------------------------------------------------------------

  /** A read after a delete returns the rows the read would have returned, less those the delete removes. */
  lemma ReadAfterDelete(rows: seq<Notification>, owner: string, u: string)
    requires '|' in u
    ensures Filter(Filter(rows, NotDeletedBy(Segment(u))), OwnedBy(owner)) ==
            Filter(Filter(rows, OwnedBy(owner)), NotDeletedBy(Segment(u)))
  {
    FilterCommutes(rows, NotDeletedBy(Segment(u)), OwnedBy(owner));
  }

  /** For an identity with a single `|`, a read after its delete finds nothing. */
  lemma ReadAfterOwnDeleteIsEmpty(rows: seq<Notification>, u: string)
    requires SingleBar(u)
    ensures Filter(Filter(rows, NotDeletedBy(Segment(u))), OwnedBy(u)) == []
  {
    var left := Filter(rows, NotDeletedBy(Segment(u)));
    forall x | x in left ensures !Keeps(OwnedBy(u), x) {
      FilterMember(rows, NotDeletedBy(Segment(u)), x);
      if ExactMatch(u, x) {
        SingleBarDeleteCoversRead(u, x);
      }
    }
    FilterKeepsNone(left, OwnedBy(u));
  }

  /** Deleting twice with the same identity is deleting once. */
  lemma DeleteIdempotent(rows: seq<Notification>, u: string)
    requires '|' in u
    ensures Filter(Filter(rows, NotDeletedBy(Segment(u))), NotDeletedBy(Segment(u))) ==
            Filter(rows, NotDeletedBy(Segment(u)))
  {
    FilterIdempotent(rows, NotDeletedBy(Segment(u)));
  }

  /**
   * Validation bounds nothing but presence: a type beyond the 32-bit column
   * passes it, and the insert that follows is refused with the store left as
   * it was.
   */
  lemma WideTypePassesValidationButNotInsert(rows: seq<Notification>, nextId: GoInt, t: NotificationType)
    requires !Int4(t)
    ensures var n := ToEntity(NotificationDto("m", "auth0|1", Some(t)));
            Validate(n) == Pass &&
            Insert(rows, nextId, n, true) == InsertResult(rows, nextId, Fail(ValueRejected))
  {
  }

  /**
   * A queue message whose body is not well-formed JSON is forwarded as the
   * zero payload, which validation rejects on all three fields.
   */
  lemma RejectsZeroPayload()
    ensures Validate(ToEntity(NotificationDto("", "", None))) ==
            Fail([MessageField, UserAuth0IDField, NotificationTypeField])
  {
    assert [MessageField] + [UserAuth0IDField] + [NotificationTypeField] ==
           [MessageField, UserAuth0IDField, NotificationTypeField];
  }
}
