/** The values a room-participant transform reads: JavaScript primitives, property bags and media sources. */
module Sources {
  import opened Wrappers

  /** A JavaScript primitive that can sit in a property bag (objects compare by identity and are not modelled). */
  datatype Value = Str(s: string) | Bool(b: bool) | Num(n: real) | Null

  /** A flat JavaScript object; a key that is not present reads as `undefined`. */
  type Object = map<string, Value>

  /** The property read `o[key]`, `None` standing for `undefined`. */
  function Get(o: Object, key: string): (r: Option<Value>) {
    if key in o then Some(o[key]) else None
  }

  /** JavaScript truthiness of a property read: `undefined`, `null`, `false`, `""` and `0` are falsy. */
  predicate Truthy(v: Option<Value>) {
    match v
    case None => false
    case Some(Null) => false
    case Some(Bool(b)) => b
    case Some(Str(s)) => s != ""
    case Some(Num(n)) => n != 0.0
  }

  /** A live media stream handle; two handles are the same object exactly when their identities agree. */
  datatype Stream = Stream(identity: nat)

  /**
   * A room-participant source as the host delivers it: its id, its metadata bag (`participantId`,
   * `displayName`, `videoEnabled`, `type`, ...) and the live stream it carries, if any.
   */
  datatype Source = Source(id: string, props: Object, value: Option<Stream>)

  /**
   * The one typing fact the render depends on: a truthy `displayName` is a string, so that
   * `displayName.slice(0, 1)` does not throw.
   */
  predicate NameSliceable(props: Object) {
    "displayName" in props && Truthy(Some(props["displayName"])) ==> props["displayName"].Str?
  }

  /** `source?.value`: the live stream of the bound source, if there is a source and it has one. */
  function StreamOf(source: Option<Source>): (r: Option<Stream>) {
    match source
    case None => None
    case Some(s) => s.value
  }
}
