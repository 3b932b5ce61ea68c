/**
 * The payload shape exchanged with the queue and the HTTP API. Only the three
 * fields the mapper copies are modelled.
 */
module Dto {
  import opened Wrappers
  import opened Model

  datatype NotificationDto = NotificationDto(
    message: string,
    userAuth0ID: string,
    notificationType: Option<NotificationType>)

  /** An entity and a payload agree on the three payload fields. */
  predicate SamePayload(n: Notification, d: NotificationDto)
  {
    n.message == d.message && n.userAuth0ID == d.userAuth0ID && n.notificationType == d.notificationType
  }
}

/** Conversions between payload and entity (src/mapper/NotificationMapper.go). */
module Mapper {
  import opened Wrappers
  import opened Model
  import opened Dto

  /**
   * `NotificationDTOToNotification`: a fresh, zero-valued entity with the
   * payload fields copied in, so its `id` is always 0.
   */
  function ToEntity(d: NotificationDto): (n: Notification)
    ensures SamePayload(n, d)
    ensures n.id == 0
  {
    Notification(0, d.message, d.userAuth0ID, d.notificationType)
  }

  /** `NotificationToNotificationDTO`: the payload fields of the entity; `id` is dropped. */
  function ToDto(n: Notification): (d: NotificationDto)
    ensures SamePayload(n, d)
  {
    NotificationDto(n.message, n.userAuth0ID, n.notificationType)
  }

  /** Payload to entity and back is the identity. */
  lemma PayloadRoundTrip(d: NotificationDto)
    ensures ToDto(ToEntity(d)) == d
  {
  }

  /** Entity to payload and back keeps the payload fields and resets `id` to 0. */
  lemma EntityRoundTrip(n: Notification)
    ensures ToEntity(ToDto(n)) == n.(id := 0)
  {
  }

  /** Two payloads map to the same entity only if they are the same payload. */
  lemma ToEntityInjective(d1: NotificationDto, d2: NotificationDto)
    requires ToEntity(d1) == ToEntity(d2)
    ensures d1 == d2
  {
    PayloadRoundTrip(d1);
    PayloadRoundTrip(d2);
  }
}
