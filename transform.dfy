/**
 * The state of one placed room-participant transform: the closure variables `props` and `source`
 * that the host's lifecycle callbacks replace, the `<video>` element the component renders, the
 * component's `ref` to it and its `labelSize` state, and the effects that bind the stream and the
 * volume to the element after every render.
 */
module Transform {
  import opened Wrappers
  import opened Sources
  import opened Participant
  import opened LabelSize

  /** Whether the binding effect assigns `srcObject`: when the stream is absent, or present and different. */
  predicate Reassigns(current: Option<Stream>, value: Option<Stream>) {
    (value.Some? && value != current) || value.None?
  }

  /**
   * `srcObject` after the binding effect: the source's stream when there is one, cleared otherwise.
   * The guard only saves the assignment when the element already shows that stream.
   */
  function BoundStream(current: Option<Stream>, value: Option<Stream>): (r: Option<Stream>)
    ensures r == value
    ensures !Reassigns(current, value) ==> r == current
  {
    if value.Some? && value != current then value
    else if value.None? then None
    else current
  }

  /** `HTMLMediaElement.volume` accepts only values in [0, 1]; any other value throws. */
  predicate VolumeInRange(v: real) {
    0.0 <= v <= 1.0
  }

  /** The `<video>` element: its attached stream and volume, mutated in place by the effects. */
  class VideoElement {
    var srcObject: Option<Stream>
    var volume: real
    /** How many times `srcObject` has been assigned; each assignment restarts the media load. */
    ghost var writes: nat

    constructor ()
      ensures srcObject == None && volume == 1.0 && writes == 0
    {
      srcObject := None;
      volume := 1.0;
      writes := 0;
    }

    /** `element.srcObject = stream`. */
    method SetSrcObject(stream: Option<Stream>)
      modifies this
      ensures srcObject == stream && volume == old(volume) && writes == old(writes) + 1
    {
      srcObject := stream;
      writes := writes + 1;
    }

    /** `element.volume = v`: taken when in range, refused (the DOM throws) otherwise. */
    method SetVolume(v: real) returns (ok: bool)
      modifies this
      ensures ok <==> VolumeInRange(v)
      ensures volume == if ok then v else old(volume)
      ensures srcObject == old(srcObject) && writes == old(writes)
    {
      ok := VolumeInRange(v);
      if ok {
        volume := v;
      }
    }
  }

  /** How a render ended: completed, or the volume effect threw on an out-of-range volume. */
  datatype Outcome = Rendered | VolumeRejected

  /** One instance made by `create`: the closure state and the mounted component's state. */
  class Instance {
    /**
     * `room?.participantId` as the last render read it. The room is looked up once, at creation,
     * but its participant id is read again on every render.
     */
    var localId: Option<string>
    /** The `<video>` element the first render mounts. */
    const video: VideoElement
    var props: Option<Props>
    var source: Option<Source>
    /** `ref.current`: the element while the component holds it, null before mounting and after release. */
    var ref: VideoElement?
    /** The render state of the last render, `None` before the first one. */
    var view: Option<RenderState>
    var labelSize: Tier

    /** Shape facts every state has, also between a callback's assignment and its re-render. */
    ghost predicate Wf()
      reads this
    {
      && (ref == null || ref == video)
      && (source.Some? ==> NameSliceable(source.value.props))
    }

    /**
     * The instance invariant between callbacks: what is shown is derived from the current props and
     * source, and an element the component still holds never shows a stale stream or volume.
     */
    ghost predicate Valid()
      reads this, video
    {
      && Wf()
      && (view.Some? ==> view.value == Derive(props, source, localId))
      && (view.None? ==> ref == null)
      && (ref != null ==> props.Some? && video.srcObject == StreamOf(source))
      && (ref != null && VolumeInRange(VolumeOf(props)) ==> video.volume == VolumeOf(props))
    }

    /** The element will be worked on by the next render's effects: it is held, or not yet mounted. */
    ghost predicate Live()
      reads this
    {
      view.None? || ref != null
    }

    /**
     * What a render leaves on the element, given whether it was live before and its earlier
     * stream and volume: a live element gets the source's stream and the configured volume, or is
     * cleared and released when the props are gone; an element already released is left alone.
     */
    ghost predicate RenderedElement(wasLive: bool, oldStream: Option<Stream>, oldVolume: real)
      reads this, video
    {
      && (wasLive && props.Some? ==> ref == video && video.srcObject == StreamOf(source))
      && (wasLive && props.Some? ==> video.volume == if VolumeInRange(VolumeOf(props)) then VolumeOf(props) else oldVolume)
      && (wasLive && props.None? ==> ref == null && video.srcObject == None && video.volume == oldVolume)
      && (!wasLive ==> ref == null && video.srcObject == oldStream && video.volume == oldVolume)
    }

    /** `create(callbacks, initialProps)`: no source yet, nothing rendered. */
    constructor Create(initialProps: Option<Props>)
      ensures Valid() && fresh(video)
      ensures props == initialProps && source.None?
      ensures ref == null && view.None? && labelSize == 0
      ensures video.srcObject == None && video.volume == 1.0
    {
      localId := None;
      video := new VideoElement();
      props := initialProps;
      source := None;
      ref := null;
      view := None;
      labelSize := 0;
    }

    /** The binding effect: attach the source's stream when it differs, detach when there is none. */
    method BindStreamEffect()
      requires Wf()
      modifies video
      ensures ref != null ==> video.srcObject == BoundStream(old(video.srcObject), StreamOf(source))
      ensures ref != null ==> video.writes == old(video.writes) + if Reassigns(old(video.srcObject), StreamOf(source)) then 1 else 0
      ensures ref == null ==> video.srcObject == old(video.srcObject) && video.writes == old(video.writes)
      ensures video.volume == old(video.volume)
    {
      if ref == null {
        return;
      }
      var value := StreamOf(source);
      if value.Some? && value != ref.srcObject {
        ref.SetSrcObject(value);
      } else if value.None? {
        ref.SetSrcObject(None);
      }
    }

    /** The release effect: with the props gone, clear the stream and drop the element reference. */
    method ReleaseEffect()
      requires Wf()
      modifies this`ref, video
      ensures Wf()
      ensures old(props.None? && ref != null) ==> ref == null && video.srcObject == None && video.writes == old(video.writes) + 1
      ensures !old(props.None? && ref != null) ==> ref == old(ref) && video.srcObject == old(video.srcObject) && video.writes == old(video.writes)
      ensures video.volume == old(video.volume)
    {
      if props.None? && ref != null {
        ref.SetSrcObject(None);
        ref := null;
      }
    }

    /** The volume effect: the configured volume, 1 when none is configured, onto a held element. */
    method VolumeEffect() returns (ok: bool)
      requires Wf()
      modifies video
      ensures ok <==> ref == null || VolumeInRange(VolumeOf(props))
      ensures video.volume == if ref != null && ok then VolumeOf(props) else old(video.volume)
      ensures video.srcObject == old(video.srcObject) && video.writes == old(video.writes)
    {
      if ref == null {
        return true;
      }
      ok := ref.SetVolume(VolumeOf(props));
    }

    /**
     * `render()`: derive the render state with the room's current participant id `roomId`, mount
     * the element on the first render, then run the binding, release and volume effects in that order.
     */
    method Render(roomId: Option<string>) returns (outcome: Outcome)
      requires Wf()
      modifies this`localId, this`ref, this`view, video
      ensures Valid()
      ensures localId == roomId
      ensures view == Some(Derive(props, source, roomId))
      ensures RenderedElement(old(Live()), old(video.srcObject), old(video.volume))
      ensures outcome == VolumeRejected <==> old(Live()) && props.Some? && !VolumeInRange(VolumeOf(props))
    {
      localId := roomId;
      var rs := Derive(props, source, roomId);
      if view.None? {
        ref := video;
      }
      view := Some(rs);
      BindStreamEffect();
      ReleaseEffect();
      var ok := VolumeEffect();
      outcome := if ok then Rendered else VolumeRejected;
    }

    /** The `onUpdate` handler: replace the props, nothing else, and re-render. */
    method OnUpdate(newProps: Option<Props>, roomId: Option<string>) returns (outcome: Outcome)
      requires Valid()
      modifies this`props, this`localId, this`ref, this`view, video
      ensures Valid()
      ensures props == newProps && source == old(source) && labelSize == old(labelSize)
      ensures view == Some(Derive(newProps, source, roomId))
      ensures RenderedElement(old(Live()), old(video.srcObject), old(video.volume))
      ensures outcome == VolumeRejected <==> old(Live()) && newProps.Some? && !VolumeInRange(VolumeOf(newProps))
    {
      props := newProps;
      outcome := Render(roomId);
    }

    /** The `onNewSource` handler: replace the source, nothing else, and re-render. */
    method OnNewSource(newSource: Option<Source>, roomId: Option<string>) returns (outcome: Outcome)
      requires Valid()
      requires newSource.Some? ==> NameSliceable(newSource.value.props)
      modifies this`source, this`localId, this`ref, this`view, video
      ensures Valid()
      ensures source == newSource && props == old(props) && labelSize == old(labelSize)
      ensures view == Some(Derive(props, newSource, roomId))
      ensures RenderedElement(old(Live()), old(video.srcObject), old(video.volume))
      ensures outcome == VolumeRejected <==> old(Live()) && props.Some? && !VolumeInRange(VolumeOf(props))
    {
      source := newSource;
      outcome := Render(roomId);
    }

    /** The `onRemove` handler: replace the props with the final ones (null on teardown) and re-render. */
    method OnRemove(finalProps: Option<Props>, roomId: Option<string>) returns (outcome: Outcome)
      requires Valid()
      modifies this`props, this`localId, this`ref, this`view, video
      ensures Valid()
      ensures props == finalProps && source == old(source) && labelSize == old(labelSize)
      ensures view == Some(Derive(finalProps, source, roomId))
      ensures RenderedElement(old(Live()), old(video.srcObject), old(video.volume))
      ensures finalProps.None? ==> ref == null && !Live()
      ensures finalProps.None? && old(Live()) ==> video.srcObject == None
      ensures outcome == VolumeRejected <==> old(Live()) && finalProps.Some? && !VolumeInRange(VolumeOf(finalProps))
    {
      props := finalProps;
      outcome := Render(roomId);
    }

    /**
     * A resize notification (and the eager measurement after mounting): the label tier from the
     * element's current width, while the component still holds the element.
     */
    method Resize(clientWidth: real, canvasWidth: real)
      requires Valid()
      requires canvasWidth > 0.0
      modifies this`labelSize
      ensures Valid()
      ensures labelSize == if ref != null then GetSize(clientWidth, canvasWidth) else old(labelSize)
    {
      if ref != null {
        labelSize := GetSize(clientWidth, canvasWidth);
      }
    }
  }

  /**
   * A teardown: a participant joins with a stream, the host removes the element with null props and
   * then removes it again. The stream is attached, then cleared; the second removal changes nothing.
   */
  method RemoveTwiceScenario(stream: Stream) returns (attached: Option<Stream>, afterRemove: Option<Stream>, afterSecond: Option<Stream>, released: bool)
    ensures attached == Some(stream)
    ensures afterRemove == None && afterSecond == None
    ensures released
  {
    var props := Props(Some(0.8), Some(false), None, None, None);
    var t := new Instance.Create(Some(props));
    var source := Source("s2", map["participantId" := Str("p2"), "videoEnabled" := Bool(true)], Some(stream));
    var _ := t.OnNewSource(Some(source), Some("p1"));
    attached := t.video.srcObject;
    assert t.video.volume == 0.8;
    var _ := t.OnRemove(None, Some("p1"));
    afterRemove := t.video.srcObject;
    var _ := t.OnRemove(None, Some("p1"));
    afterSecond := t.video.srcObject;
    released := t.ref == null;
  }
}
