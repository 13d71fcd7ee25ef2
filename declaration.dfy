/**
 * The transform declaration the host registers: its name, the source type it binds, and its props
 * schema with the defaults the host fills in.
 */
module Declaration {
  import opened Wrappers
  import opened Sources
  import opened Participant

  const Name: string := "LS-Room-Participant"
  const SourceType: string := "RoomParticipant"

  /** The JavaScript constructor a prop's schema names as its type. */
  datatype PropType = BooleanType | NumberType

  /** One entry of the props schema. */
  datatype PropSpec = PropSpec(valueType: PropType, required: bool, default: Value)

  /** Neither prop is required; `isMuted` defaults to false and `volume` to 1. */
  const Schema: map<string, PropSpec> := map[
    "isMuted" := PropSpec(BooleanType, false, Bool(false)),
    "volume" := PropSpec(NumberType, false, Num(1.0))]

  /** A value of the JavaScript type that a schema entry names. */
  predicate Conforms(v: Value, t: PropType) {
    match t
    case BooleanType => v.Bool?
    case NumberType => v.Num?
  }

  /**
   * The declaration binds `RoomParticipant` sources under the name `LS-Room-Participant`. Its schema
   * declares exactly `isMuted` and `volume`, neither required, each with a default of its own type:
   * false and 1.
   */
  lemma SchemaWellFormed()
    ensures Name == "LS-Room-Participant" && SourceType == "RoomParticipant"
    ensures Schema.Keys == {"isMuted", "volume"}
    ensures forall k :: k in Schema ==> !Schema[k].required && Conforms(Schema[k].default, Schema[k].valueType)
    ensures Schema["isMuted"].default == Bool(false) && Schema["volume"].default == Num(1.0)
  {
  }

  /** Props with the schema's defaults filled in where a key is absent, as the host normalises them. */
  function WithDefaults(p: Props): (q: Props)
    ensures q.isMuted.Some? && q.volume.Some?
    ensures p.isMuted.Some? ==> q.isMuted == p.isMuted
    ensures p.volume.Some? ==> q.volume == p.volume
    ensures p.isMuted.None? ==> Bool(q.isMuted.value) == Schema["isMuted"].default
    ensures p.volume.None? ==> Num(q.volume.value) == Schema["volume"].default
    ensures q.isHidden == p.isHidden && q.noDisplay == p.noDisplay && q.sink == p.sink
  {
    p.(isMuted := Some(p.isMuted.GetOr(false)), volume := Some(p.volume.GetOr(1.0)))
  }

  /**
   * The schema's defaults agree with how the component reads an absent key: filling them in does
   * not change what is rendered.
   */
  lemma DefaultsAgree(p: Props, source: Option<Source>, localId: Option<string>)
    requires source.Some? ==> NameSliceable(source.value.props)
    ensures Derive(Some(WithDefaults(p)), source, localId) == Derive(Some(p), source, localId)
  {
  }
}
