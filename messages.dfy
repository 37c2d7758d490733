/**
 * The messages exchanged between the GUI and its worker thread, and the GUI's own copies of the
 * device's values and actions (gui/src/worker.rs, gui/src/app.rs).
 */
module Messages {
  import opened Basics
  import D = Device

  /** The GUI's copy of a device value. */
  datatype PropertyValue =
    | Bool(b: bool)
    | Number(n: U32)
    | Sensor(current: U32, target: U32)
    | String(s: string)
    | Duration(d: D.Span)

  /** One row of a category: a property's name, its value and its unit. */
  datatype PropertyData = PropertyData(name: string, value: PropertyValue, unit: Option<string>)

  /** The GUI's copy of an action's parameters. */
  datatype ActionParamsInfo = Enumeration(options: seq<string>) | Flags(flags: seq<string>)

  /** The GUI's copy of an action. */
  datatype ActionInfo = ActionInfo(id: string, name: string, params: Option<ActionParamsInfo>)

  /** What the GUI learns about a device when the worker has connected. */
  datatype DeviceInfo = DeviceInfo(softwareId: U16, kind: D.DeviceKind, actions: seq<ActionInfo>)

  /** Commands from the GUI to the worker. */
  datatype WorkerCommand =
    | QueryProperties(category: D.PropertyKind)
    | TriggerAction(actionId: string, param: Option<string>)
    | Disconnect

  /** Responses from the worker to the GUI. */
  datatype WorkerResponse =
    | Connected(info: DeviceInfo)
    | Properties(kind: D.PropertyKind, data: seq<PropertyData>)
    | ActionResult(action: string, success: bool, message: string)
    | Error(reason: string)
    | Disconnected

  /** The responses after which a worker sends nothing more. */
  predicate IsTerminal(r: WorkerResponse) {
    r.Error? || r.Disconnected?
  }

  /** From<&Value> for PropertyValue: the same variant with the same payload. */
  function FromValue(v: D.Value): (p: PropertyValue)
    ensures v.Bool? <==> p.Bool?
    ensures v.Number? <==> p.Number?
    ensures v.Sensor? <==> p.Sensor?
    ensures v.String? <==> p.String?
    ensures v.Duration? <==> p.Duration?
  {
    match v
    case Bool(b) => Bool(b)
    case Number(n) => Number(n)
    case Sensor(a, b) => Sensor(a, b)
    case String(s) => String(s)
    case Duration(d) => Duration(d)
  }

  /** The device value a GUI value was copied from. */
  function ToValue(p: PropertyValue): D.Value {
    match p
    case Bool(b) => D.Bool(b)
    case Number(n) => D.Number(n)
    case Sensor(a, b) => D.Sensor(a, b)
    case String(s) => D.String(s)
    case Duration(d) => D.Duration(d)
  }

  /** The conversion loses nothing: it is a bijection between the two value types. */
  lemma ValueConversionRoundTrip(v: D.Value, p: PropertyValue)
    ensures ToValue(FromValue(v)) == v
    ensures FromValue(ToValue(p)) == p
  {
  }

  /** The GUI's copy of an action's parameters. */
  function FromParameters(p: D.ActionParameters): (r: ActionParamsInfo)
    ensures p.Enumeration? <==> r.Enumeration?
    ensures p.Enumeration? ==> r.options == p.options
    ensures p.Flags? ==> r.flags == p.flags
  {
    match p
    case Enumeration(opts) => Enumeration(opts)
    case Flags(flags) => Flags(flags)
  }

  /** ActionInfo::from_action: id, name and parameter shape are carried over unchanged. */
  function FromAction(a: D.Action): (r: ActionInfo)
    ensures r.id == a.id && r.name == a.name
    ensures r.params.Some? <==> a.params.Some?
    ensures a.params.Some? ==> r.params.value == FromParameters(a.params.value)
  {
    ActionInfo(a.id, a.name, match a.params case None => None case Some(p) => Some(FromParameters(p)))
  }

  /** The copies of a list of actions, in order. */
  function FromActions(actions: seq<D.Action>): (r: seq<ActionInfo>)
    ensures |r| == |actions|
    ensures forall i :: 0 <= i < |actions| ==> r[i] == FromAction(actions[i])
  {
    if actions == [] then [] else [FromAction(actions[0])] + FromActions(actions[1..])
  }
}
