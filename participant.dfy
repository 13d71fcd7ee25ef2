/**
 * The render-state derivation of the `Participant` component: from the host's props, the bound
 * source and the local participant's id, the flags that decide muting, video versus placeholder,
 * the name banner with its initial, and how the video is fitted.
 */
module Participant {
  import opened Wrappers
  import opened Sources

  /** The host's configuration of one placed transform; any key may be absent (`undefined`). */
  datatype Props = Props(
    volume: Option<real>,
    isMuted: Option<bool>,
    isHidden: Option<bool>,
    noDisplay: Option<bool>,
    sink: Option<string>)

  /** The CSS `object-fit` of the video element. */
  datatype Fit = Contain | Cover

  /** What one render shows (CSS opacities are written as the numbers 0 and 1). */
  datatype RenderState = RenderState(
    isSelf: bool,
    muteAudio: bool,
    hasVideo: bool,
    hasSeen: bool,
    volume: real,
    placeholderOpacity: nat,
    videoOpacity: nat,
    showName: bool,
    initial: string,
    objectFit: Fit)

  /** The `TypeError` thrown when the component body destructures `null` or `undefined` props. */
  datatype Fault = PropsNotObject

  /** `room?.participantId` as a JavaScript value. */
  function LocalValue(localId: Option<string>): (v: Option<Value>) {
    match localId
    case None => None
    case Some(me) => Some(Str(me))
  }

  /** `source?.id`. */
  function SourceId(source: Option<Source>): (v: Option<Value>) {
    match source
    case None => None
    case Some(s) => Some(Str(s.id))
  }

  /** `source?.props.key` (equivalently `source?.props?.key`: a source always carries its props). */
  function SourceProp(source: Option<Source>, key: string): (v: Option<Value>) {
    match source
    case None => None
    case Some(s) => Get(s.props, key)
  }

  /** `volume` after `const { volume = 1 } = props`. */
  function VolumeOf(props: Option<Props>): (v: real)
    ensures props.Some? && props.value.volume.Some? ==> v == props.value.volume.value
    ensures props.None? || props.value.volume.None? ==> v == 1.0
  {
    match props
    case None => 1.0
    case Some(p) => p.volume.GetOr(1.0)
  }

  /** The participant's display name when it is a string, and "" otherwise. */
  function NameOf(source: Option<Source>): (name: string) {
    match SourceProp(source, "displayName")
    case Some(Str(s)) => s
    case _ => ""
  }

  /**
   * Which participant is the local one, case by case: with no source, exactly when there is no
   * local id; with no local id, exactly when the source carries no `participantId`; otherwise when
   * the source's id or its `participantId` is the local id.
   */
  ghost predicate SelfByIds(source: Option<Source>, localId: Option<string>) {
    if source.None? then localId.None?
    else if localId.None? then "participantId" !in source.value.props
    else source.value.id == localId.value || Get(source.value.props, "participantId") == Some(Str(localId.value))
  }

  /** Video is shown for a present source whose `videoEnabled` is truthy, unless the host hides it. */
  ghost predicate VideoShown(props: Option<Props>, source: Option<Source>) {
    && !(props.Some? && props.value.isHidden == Some(true))
    && source.Some?
    && Truthy(Get(source.value.props, "videoEnabled"))
  }

  /**
   * `isSelf`: `source?.id === room?.participantId || source?.props?.participantId === room?.participantId`.
   * With neither a source nor a local id both sides are `undefined`, which compare equal.
   */
  function IsSelf(source: Option<Source>, localId: Option<string>): (self: bool)
    ensures self <==> SelfByIds(source, localId)
  {
    var room := LocalValue(localId);
    SourceId(source) == room || SourceProp(source, "participantId") == room
  }

  /** `hasVideo`: `!props?.isHidden && source?.props.videoEnabled`, as a truth value. */
  function HasVideo(props: Option<Props>, source: Option<Source>): (shown: bool)
    ensures shown <==> VideoShown(props, source)
  {
    var hidden := props.Some? && props.value.isHidden == Some(true);
    !hidden && Truthy(SourceProp(source, "videoEnabled"))
  }

  /** Whether `source?.props.displayName` is truthy: exactly when the participant has a non-empty name. */
  function HasName(source: Option<Source>): (named: bool)
    requires source.Some? ==> NameSliceable(source.value.props)
    ensures named <==> NameOf(source) != ""
  {
    Truthy(SourceProp(source, "displayName"))
  }

  /** `displayName.slice(0, 1) || ''` for a shown banner: the name's first character. */
  function Initial(source: Option<Source>, showName: bool): (initial: string)
    ensures showName && NameOf(source) != "" ==> |initial| == 1 && initial == NameOf(source)[..1]
    ensures !showName ==> initial == ""
  {
    var name := NameOf(source);
    if showName && name != "" then name[..1] else ""
  }

  /**
   * The render state of one `Participant` render. Props that are absent are read as if every key
   * were `undefined`, as the optional chains `props?.isMuted` and `props?.isHidden` already do.
   */
  function Derive(props: Option<Props>, source: Option<Source>, localId: Option<string>): (rs: RenderState)
    requires source.Some? ==> NameSliceable(source.value.props)
    // the local participant: the source's id or its participantId equals the room's, "undefined" equal to "undefined"
    ensures rs.isSelf <==> SelfByIds(source, localId)
    // our own participant is always muted; anyone else exactly when the host mutes them
    ensures rs.isSelf ==> rs.muteAudio
    ensures !rs.isSelf ==> (rs.muteAudio <==> props.Some? && props.value.isMuted == Some(true))
    // video only for a present source sending video, and never when the host hides it
    ensures rs.hasVideo <==> VideoShown(props, source)
    ensures rs.placeholderOpacity + rs.videoOpacity == 1
    ensures rs.videoOpacity == 1 <==> rs.hasVideo
    ensures rs.hasSeen <==> props.Some? && props.value.noDisplay == Some(true)
    // banner and initial only for a named participant when the host does not suppress them
    ensures rs.showName <==> !rs.hasSeen && NameOf(source) != ""
    ensures rs.showName ==> |rs.initial| == 1 && rs.initial == NameOf(source)[..1]
    ensures !rs.showName ==> rs.initial == ""
    ensures rs.objectFit == Contain <==> source.Some? && Get(source.value.props, "type") == Some(Str("screen"))
    ensures rs.volume == VolumeOf(props)
  {
    var isSelf := IsSelf(source, localId);
    var muteAudio := isSelf || (props.Some? && props.value.isMuted == Some(true));
    var hasVideo := HasVideo(props, source);
    var hasSeen := props.Some? && props.value.noDisplay == Some(true);
    var showName := !hasSeen && HasName(source);
    RenderState(
      isSelf := isSelf,
      muteAudio := muteAudio,
      hasVideo := hasVideo,
      hasSeen := hasSeen,
      volume := VolumeOf(props),
      placeholderOpacity := if hasVideo then 0 else 1,
      videoOpacity := if hasVideo then 1 else 0,
      showName := showName,
      initial := Initial(source, showName),
      objectFit := if SourceProp(source, "type") == Some(Str("screen")) then Contain else Cover)
  }

  /**
   * The component body as written: `const { volume = 1, ... } = props` throws before anything
   * else when `props` is null or undefined; with props present it computes `Derive`.
   */
  function DeriveAsWritten(props: Option<Props>, source: Option<Source>, localId: Option<string>): (r: Result<RenderState, Fault>)
    requires source.Some? ==> NameSliceable(source.value.props)
    ensures r.Failure? <==> props.None?
    ensures r.Success? ==> r.value == Derive(props, source, localId)
  {
    if props.None? then Failure(PropsNotObject) else Success(Derive(props, source, localId))
  }

  /**
   * As written, no render with null props completes, so an effect guarded by `!props` (the one
   * that clears the stream handle and drops the element reference) never runs.
   */
  lemma NullPropsAborts(source: Option<Source>, localId: Option<string>)
    requires source.Some? ==> NameSliceable(source.value.props)
    ensures DeriveAsWritten(None, source, localId) == Failure(PropsNotObject)
    ensures forall props: Option<Props> :: DeriveAsWritten(props, source, localId).Success? ==> props.Some?
  {
  }

  /** With no props and no source the render degrades to the placeholder and does not fail. */
  lemma AbsentInputsShowPlaceholder(localId: Option<string>)
    ensures var rs := Derive(None, None, localId);
      && !rs.hasVideo && rs.videoOpacity == 0 && rs.placeholderOpacity == 1
      && !rs.showName && !rs.hasSeen && rs.objectFit == Cover && rs.volume == 1.0
      && (rs.muteAudio <==> localId.None?)
  {
  }

  /** When the source is the local participant its audio is muted whatever the host's isMuted says. */
  lemma SelfMutedWhateverIsMuted(props: Option<Props>, other: Option<Props>, source: Option<Source>, localId: Option<string>)
    requires source.Some? ==> NameSliceable(source.value.props)
    requires Derive(props, source, localId).isSelf
    ensures Derive(other, source, localId).isSelf
    ensures Derive(props, source, localId).muteAudio && Derive(other, source, localId).muteAudio
  {
  }

  /** An explicit `isHidden` beats the source's capability: the placeholder shows, the video does not. */
  lemma HiddenOverridesVideo(p: Props, source: Option<Source>, localId: Option<string>)
    requires source.Some? ==> NameSliceable(source.value.props)
    requires p.isHidden == Some(true)
    ensures !Derive(Some(p), source, localId).hasVideo
    ensures Derive(Some(p), source, localId).placeholderOpacity == 1
  {
  }

  /** The mute, video and placeholder flags depend on the source's metadata, never on its stream. */
  lemma StreamDoesNotAffectFlags(props: Option<Props>, s: Source, stream: Option<Stream>, localId: Option<string>)
    requires NameSliceable(s.props)
    ensures Derive(props, Some(s), localId) == Derive(props, Some(s.(value := stream)), localId)
  {
  }

  /** A remote participant with video on and the host not muting: audible, video shown, volume as configured. */
  lemma RemoteParticipantScenario()
    ensures var props := Props(Some(0.8), Some(false), None, None, None);
      var source := Source("s1", map["participantId" := Str("p2"), "videoEnabled" := Bool(true), "displayName" := Str("Ann")], None);
      var rs := Derive(Some(props), Some(source), Some("p1"));
      && !rs.isSelf && !rs.muteAudio && rs.hasVideo && rs.volume == 0.8
      && rs.showName && rs.initial == "A" && rs.objectFit == Cover
  {
  }

  /** The same source seen by participant "p2" itself: muted although the host's isMuted is false. */
  lemma LocalParticipantScenario()
    ensures var props := Props(Some(0.8), Some(false), None, None, None);
      var source := Source("s1", map["participantId" := Str("p2"), "videoEnabled" := Bool(true), "displayName" := Str("Ann")], None);
      var rs := Derive(Some(props), Some(source), Some("p2"));
      rs.isSelf && rs.muteAudio
  {
  }
}
