/**
 * The scenarios of the service's unit and integration tests
 * (src/service/NotificationService_test.go and
 * src/service/NotificationServiceIntegration_test.go), stated over the model.
 */
module ServiceTests {
  import opened Wrappers
  import opened Model
  import opened Dto
  import opened Mapper
  import opened Repository
  import opened Service

  /** A payload without a message is rejected for that field alone. */
  lemma RejectsPayloadWithoutMessage()
    ensures Validate(ToEntity(NotificationDto("", "auth0", Some(Comment)))) == Fail([MessageField])
  {
    assert [MessageField] + [] + [] == [MessageField];
  }

  /** A payload without an owner is rejected for that field alone. */
  lemma RejectsPayloadWithoutOwner()
    ensures Validate(ToEntity(NotificationDto("Test message", "", Some(Comment)))) == Fail([UserAuth0IDField])
  {
    assert [] + [UserAuth0IDField] + [] == [UserAuth0IDField];
  }

  /**
   * The value the primary-key sequence hands out when the suite starts. Its
   * setup empties the table but leaves the sequence where earlier runs left
   * it, so any start from 1 on is possible; the suite draws four values.
   */
  predicate SuiteStart(start: int)
  {
    1 <= start && start + 3 <= MaxInt4
  }

  /** The rows the integration suite seeds: two for `auth0Id1`, one for `auth0Id2`. */
  function SeededRows(start: int): seq<Notification>
    requires SuiteStart(start)
  {
    [Notification(start, "Test message", "auth0Id1", Some(Like)),
     Notification(start + 1, "Test message2", "auth0Id2", Some(Follow)),
     Notification(start + 2, "Test message3", "auth0Id1", Some(Follow))]
  }

  /** On the seeded rows a read for `auth0Id1` finds its two rows, in store order. */
  lemma SeededReadOwner(start: int)
    requires SuiteStart(start)
    ensures Filter(SeededRows(start), OwnedBy("auth0Id1")) == [SeededRows(start)[0], SeededRows(start)[2]]
  {
    var s := SeededRows(start);
    var k := OwnedBy("auth0Id1");
    assert Keeps(k, s[0]) && !Keeps(k, s[1]) && Keeps(k, s[2]);
    assert s[1..][1..] == [s[2]];
    assert [s[2]][1..] == [];
    assert Filter([s[2]], k) == [s[2]];
    assert Filter(s[1..], k) == [s[2]];
  }

  /** A read for an owner with no rows finds none. */
  lemma SeededReadUnknown(start: int)
    requires SuiteStart(start)
    ensures Filter(SeededRows(start), OwnedBy("authId3")) == []
  {
    var s := SeededRows(start);
    assert forall x :: x in s ==> x.userAuth0ID in {"auth0Id1", "auth0Id2"};
    FilterKeepsNone(s, OwnedBy("authId3"));
  }

  /**
   * The suite's delete for `auth0Id2|auth0` (segment `auth0`) removes nothing
   * from the seeded rows, the `auth0Id2` row included: no identity there ends
   * with `auth0`.
   */
  lemma SeededDeleteRemovesNothing(start: int)
    requires SuiteStart(start)
    ensures Filter(SeededRows(start), NotDeletedBy("auth0")) == SeededRows(start)
  {
    var s := SeededRows(start);
    forall x | x in s ensures Keeps(NotDeletedBy("auth0"), x) {
      assert x.userAuth0ID[|x.userAuth0ID| - 1] != '0';
    }
    FilterKeepsAll(s, NotDeletedBy("auth0"));
  }

  /** The row the suite's add test stores for owner `auth0`, with the id the sequence gives it. */
  function SuiteAddedRow(start: int): Notification
    requires SuiteStart(start)
  {
    Notification(start + 3, "Test message", "auth0", Some(Comment))
  }

  /**
   * The suite's delete for `auth0Id2|auth0` (segment `auth0`) removes exactly
   * the row added for `auth0`.
   */
  lemma SuiteDeleteRemovesAddedRow(start: int)
    requires SuiteStart(start)
    ensures Filter(SeededRows(start) + [SuiteAddedRow(start)], NotDeletedBy("auth0")) == SeededRows(start)
  {
    SeededDeleteRemovesNothing(start);
    FilterAppend(SeededRows(start), [SuiteAddedRow(start)], NotDeletedBy("auth0"));
    assert "auth0"[0..] == "auth0";
    assert DeleteMatch("auth0", SuiteAddedRow(start));
    FilterKeepsNone([SuiteAddedRow(start)], NotDeletedBy("auth0"));
  }

  /**
   * The integration suite, its tests run in name order over one store:
   * seed three rows, add a valid payload, add one without owner, delete for
   * `auth0Id2|auth0`, then read for an unknown owner and for `auth0Id1`.
   * Both adds report what the tests expect, the first read is empty and the
   * second returns the two `auth0Id1` payloads in store order.
   */
  method IntegrationSuite(start: int)
      returns (added: Outcome<ServiceError>, rejected: Outcome<ServiceError>,
               none: seq<NotificationDto>, some: seq<NotificationDto>)
    requires SuiteStart(start)
    ensures added == Pass
    ensures rejected == Fail(Validation([UserAuth0IDField]))
    ensures none == []
    ensures some == [NotificationDto("Test message", "auth0Id1", Some(Like)),
                     NotificationDto("Test message3", "auth0Id1", Some(Follow))]
  {
    var repository := SeedSuiteStore(start);
    var service := new NotificationService(repository);
    added := SuiteAddValid(service, start);
    rejected := SuiteAddWithoutOwner(service);
    SuiteDelete(service, start);
    none, some := SuiteReads(service, start);
  }

  /** The payload of the suite's valid add test. */
  function SuiteAddPayload(): NotificationDto
  {
    NotificationDto("Test message", "auth0", Some(Comment))
  }

  /** On the seeded store the valid payload passes validation and is inserted under key `start + 3`. */
  lemma SuiteAddInserts(start: int)
    requires SuiteStart(start)
    ensures Validate(ToEntity(SuiteAddPayload())) == Pass
    ensures Insert(SeededRows(start), start + 3, ToEntity(SuiteAddPayload()), true) ==
            InsertResult(SeededRows(start) + [SuiteAddedRow(start)], start + 4, Pass)
  {
    var n := ToEntity(SuiteAddPayload());
    assert Storable(n) && n.(id := start + 3) == SuiteAddedRow(start);
    assert IdsBelow(SeededRows(start), start + 3);
    BlankKeyInsertSucceeds(SeededRows(start), start + 3, n);
  }

  /** The suite's first add, on the seeded store: the valid payload is stored under the next key. */
  method SuiteAddValid(service: NotificationService, start: int) returns (added: Outcome<ServiceError>)
    requires SuiteStart(start)
    requires service.repo.Valid()
    requires service.repo.rows == SeededRows(start) && service.repo.nextId == start + 3
    modifies service.repo
    ensures added == Pass
    ensures service.repo.Valid() && service.repo.rows == SeededRows(start) + [SuiteAddedRow(start)]
    ensures service.repo.nextId == start + 4
  {
    SuiteAddInserts(start);
    added := service.AddNotification(SuiteAddPayload(), true);
  }

  /** The suite's second add: the payload without owner is rejected and the store left as it was. */
  method SuiteAddWithoutOwner(service: NotificationService) returns (rejected: Outcome<ServiceError>)
    requires service.repo.Valid()
    modifies service.repo
    ensures rejected == Fail(Validation([UserAuth0IDField]))
    ensures service.repo.Valid() && service.repo.rows == old(service.repo.rows)
    ensures service.repo.nextId == old(service.repo.nextId)
  {
    RejectsPayloadWithoutOwner();
    rejected := service.AddNotification(NotificationDto("Test message", "", Some(Comment)), true);
  }

  /** The suite's delete, from the store its two add tests leave behind. */
  method SuiteDelete(service: NotificationService, start: int)
    requires SuiteStart(start)
    requires service.repo.Valid()
    requires service.repo.rows == SeededRows(start) + [SuiteAddedRow(start)]
    modifies service.repo
    ensures service.repo.Valid() && service.repo.rows == SeededRows(start)
    ensures service.repo.nextId == old(service.repo.nextId)
  {
    SegmentOfPair("auth0Id2", "auth0");
    service.DeleteNotifications("auth0Id2" + "|" + "auth0", true);
    SuiteDeleteRemovesAddedRow(start);
  }

  /** The suite's two reads, on the store its delete leaves behind. */
  method SuiteReads(service: NotificationService, start: int) returns (none: seq<NotificationDto>, some: seq<NotificationDto>)
    requires SuiteStart(start)
    requires service.repo.rows == SeededRows(start)
    ensures none == []
    ensures some == [ToDto(SeededRows(start)[0]), ToDto(SeededRows(start)[2])]
  {
    none := service.GetNotifications("authId3", true);
    SeededReadUnknown(start);
    some := service.GetNotifications("auth0Id1", true);
    SeededReadOwner(start);
  }

  /** The seeded rows fit their columns. */
  lemma SeededRowsStorable(start: int)
    requires SuiteStart(start)
    ensures forall i :: 0 <= i < 3 ==> Storable(SeededRows(start)[i].(id := 0))
  {
  }

  /** The suite's setup: three rows created directly on the emptied table. */
  method SeedSuiteStore(start: int) returns (repository: NotificationRepository)
    requires SuiteStart(start)
    ensures fresh(repository)
    ensures repository.Valid() && repository.rows == SeededRows(start) && repository.nextId == start + 3
  {
    var s := SeededRows(start);
    SeededRowsStorable(start);
    repository := new NotificationRepository([], start);
    SeedRow(repository, s[0].(id := 0));
    SeedRow(repository, s[1].(id := 0));
    SeedRow(repository, s[2].(id := 0));
  }

  /** One `Create` of the setup: a blank key on a table whose ids lie below the sequence. */
  method SeedRow(repository: NotificationRepository, n: Notification)
    requires repository.Valid() && n.id == 0 && Storable(n) && repository.nextId <= MaxInt4
    requires IdsBelow(repository.rows, repository.nextId)
    modifies repository
    ensures repository.Valid()
    ensures repository.rows == old(repository.rows) + [n.(id := old(repository.nextId))]
    ensures repository.nextId == old(repository.nextId) + 1
  {
    BlankKeyInsertSucceeds(repository.rows, repository.nextId, n);
    var _, _ := repository.AddNotification(n, true);
  }
}
