/**
 * Values shared by the Apple Notification Center Service (ANCS) client:
 * bytes and 32-bit unsigned integers, the numeric codes of the ANCS
 * enumerations, and the decoded attribute collections delivered over the
 * Data Source characteristic.
 *
 * The enumerations are kept as raw bytes where the C# code keeps them in an
 * enum field (an enum field can hold any byte, not only the named values),
 * and as datatypes where the code only ever names a member.
 */
module AncsTypes {

  newtype byte = x: int | 0 <= x < 0x100
  newtype u32 = x: int | 0 <= x < 0x1_0000_0000

  datatype Option<T> = None | Some(value: T)

  // EventID codes of a Notification Source record.
  const EventIdNotificationAdded: byte := 0
  const EventIdNotificationModified: byte := 1
  const EventIdNotificationRemoved: byte := 2

  // EventFlags bits of a Notification Source record.
  const EventFlagSilent: byte := 0x01
  const EventFlagImportant: byte := 0x02
  const EventFlagPreExisting: byte := 0x04
  const EventFlagPositiveAction: byte := 0x08
  const EventFlagNegativeAction: byte := 0x10

  // CommandID codes, the first byte of every Data Source response.
  const CommandIdGetNotificationAttributes: byte := 0
  const CommandIdGetAppAttributes: byte := 1
  const CommandIdPerformNotificationAction: byte := 2

  /** Enum.HasFlag: every bit of `flag` is set in `flags`. */
  predicate HasFlag(flags: byte, flag: byte) {
    (flags as bv8) & (flag as bv8) == flag as bv8
  }

  /** The notification attributes a GetNotificationAttributes command can ask for. */
  datatype NotificationAttributeId =
    | AppIdentifier
    | Title
    | Subtitle
    | Message
    | MessageSize
    | Date
    | PositiveActionLabel
    | NegativeActionLabel

  /** The app attributes a GetAppAttributes command can ask for. */
  datatype AppAttributeId = DisplayName

  /**
   * A decoded GetNotificationAttributes response: the notification's UID and
   * the attribute values it carried, keyed by attribute.
   */
  datatype NotificationAttributeCollection = NotificationAttributeCollection(
    notificationUid: u32,
    attributes: map<NotificationAttributeId, string>)

  /** A decoded GetAppAttributes response: the app identifier and its attribute values. */
  datatype ApplicationAttributeCollection = ApplicationAttributeCollection(
    appIdentifier: string,
    attributes: map<AppAttributeId, string>)

  /** The app identifier a notification-attribute response carries, if any. */
  function AppIdentifierOf(attrs: NotificationAttributeCollection): Option<string> {
    if AppIdentifier in attrs.attributes then Some(attrs.attributes[AppIdentifier]) else None
  }
}
