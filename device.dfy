/**
 * The boundary of the freemdu device library as the GUI sees it: the values a device reports,
 * its property descriptors and actions, and the identity it announces at connect time.
 * Only the shapes used by the GUI are given; how the library talks to the appliance is not modelled.
 */
module Device {
  import opened Basics

  /** The four property categories (freemdu::device::PropertyKind). */
  datatype PropertyKind = General | Failure | Operation | Io

  /** std::time::Duration: whole seconds plus nanoseconds. */
  datatype Span = Span(secs: U64, nanos: Nanos)

  /** A value reported by the device (freemdu::device::Value). */
  datatype Value =
    | Bool(b: bool)
    | Number(n: U32)
    | Sensor(current: U32, target: U32)
    | String(s: string)
    | Duration(d: Span)

  /** A queryable property: its name, its category and an optional unit. */
  datatype PropertyDescriptor = PropertyDescriptor(name: string, kind: PropertyKind, unit: Option<string>)

  /** The parameters an action takes: one value of a fixed set, or any combination of flags. */
  datatype ActionParameters = Enumeration(options: seq<string>) | Flags(flags: seq<string>)

  /** An action the device can perform. */
  datatype Action = Action(id: string, name: string, params: Option<ActionParameters>)

  /** The device kind; the GUI only ever displays it, by this title. */
  datatype DeviceKind = DeviceKind(title: string)

  /** A connected device: what the handshake reports about it. */
  datatype Device = Device(softwareId: U16, kind: DeviceKind, actions: seq<Action>, properties: seq<PropertyDescriptor>)
}
