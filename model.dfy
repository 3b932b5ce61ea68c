/**
 * The notification entity and its validation rule (src/model/Notification.go).
 */
module Model {
  import opened Wrappers

  /** Go's `int` on the 64-bit platforms the service is built for. */
  const MinGoInt: int := -0x8000_0000_0000_0000
  const MaxGoInt: int := 0x7FFF_FFFF_FFFF_FFFF
  type GoInt = x: int | MinGoInt <= x <= MaxGoInt

  /** Go declares `type NotificationType int`: every Go `int` is a value of the type. */
  type NotificationType = GoInt

  /** The four named values, numbered by `iota` in declaration order. */
  const Message: NotificationType := 0
  const Follow: NotificationType := 1
  const Like: NotificationType := 2
  const Comment: NotificationType := 3

  /** The enum is fixed: the four names are 0 to 3, distinct and in declaration order. */
  lemma EnumValues()
    ensures Message == 0 && Follow == 1 && Like == 2 && Comment == 3
    ensures Message < Follow < Like < Comment
  {
  }

  /**
   * A stored notification. `notificationType` is a Go pointer, so it may be
   * absent (`None`); `id` is assigned by the store.
   */
  datatype Notification = Notification(
    id: GoInt,
    message: string,
    userAuth0ID: string,
    notificationType: Option<NotificationType>)

  /** The fields carrying a `validate:"required"` tag, in declaration order. */
  datatype Field = MessageField | UserAuth0IDField | NotificationTypeField

  /**
   * What `required` demands of one field: a non-empty string, or a non-nil
   * pointer (whatever integer it points to).
   */
  predicate Present(n: Notification, f: Field)
  {
    match f
    case MessageField => n.message != ""
    case UserAuth0IDField => n.userAuth0ID != ""
    case NotificationTypeField => n.notificationType.Some?
  }

  /** Position of a field in the struct, used to state the order of reported failures. */
  function Ordinal(f: Field): nat
  {
    match f
    case MessageField => 0
    case UserAuth0IDField => 1
    case NotificationTypeField => 2
  }

  /**
   * `Notification.Validate`: passes exactly when every required field is
   * present; otherwise fails with the list of failing fields, each reported
   * once, in struct order. `id` carries no tag and plays no part.
   */
  function Validate(n: Notification): (r: Outcome<seq<Field>>)
    ensures r.Pass? <==> n.message != "" && n.userAuth0ID != "" && n.notificationType.Some?
    ensures r.Fail? ==> r.error != [] && forall f :: f in r.error <==> !Present(n, f)
    ensures r.Fail? ==> forall i, j :: 0 <= i < j < |r.error| ==> Ordinal(r.error[i]) < Ordinal(r.error[j])
  {
    var missing :=
      (if n.message == "" then [MessageField] else []) +
      (if n.userAuth0ID == "" then [UserAuth0IDField] else []) +
      (if n.notificationType.None? then [NotificationTypeField] else []);
    if missing == [] then Pass else Fail(missing)
  }

  /** The untagged `id` never changes the verdict. */
  lemma IdIgnoredByValidate(n: Notification, id: GoInt)
    ensures Validate(n.(id := id)) == Validate(n)
  {
  }

  /**
   * `required` checks presence only: a present type passes whatever Go `int`
   * it holds, `Message` (zero) and values outside the four names included.
   */
  lemma AnyPresentTypePasses(n: Notification, t: NotificationType)
    requires n.message != "" && n.userAuth0ID != ""
    ensures Validate(n.(notificationType := Some(t))) == Pass
  {
  }

  /** An absent type fails even when everything else is present. */
  lemma AbsentTypeFails(n: Notification)
    requires n.message != "" && n.userAuth0ID != ""
    ensures Validate(n.(notificationType := None)) == Fail([NotificationTypeField])
  {
    assert [] + [] + [NotificationTypeField] == [NotificationTypeField];
  }
}
