# Room-participant transform, modelled in Dafny

`src/core/transforms/WebRTC.tsx` declares the `LS-Room-Participant` transform. It binds one
room participant's media source (a live stream and its metadata) to a `<video>` element inside a
compositor scene. This project models the logic under the rendering:

- the label-size classifier `getSize`;
- the render-state derivation in the `Participant` component: `isSelf`, `muteAudio`, `hasVideo`,
  `hasSeen`, the opacities, the name banner, the initial and `objectFit`;
- the source matcher `useSource`;
- the instance that `create` returns. It holds the closure variables `props` and `source`, which
  the `onUpdate`, `onNewSource` and `onRemove` handlers replace. It also holds the element's
  `srcObject` and `volume`, which the effects set after every render.

Modules, leaves first:

- `Wrappers`: `Option` stands for `undefined`/`null`. `Result` stands for evaluation that may throw.
- `Sources`: JavaScript primitives, flat objects, truthiness, streams and sources.
- `LabelSize`: the classifier, on exact reals.
- `SourceMatch`: `isMatch` and `useSource`.
- `Participant`: the render-state derivation.
- `Transform`: the `VideoElement` and `Instance` classes, the effects and the lifecycle handlers.
- `Declaration`: the name, the source type and the props schema.

Inputs the code takes from global state become parameters:

- the local participant id, `room?.participantId`, which every lifecycle handler and `Render`
  take, because the code reads it again on every render (lines 81-82);
- the compositor canvas width, which `Instance.Resize` takes.

A source's metadata is a flat map of primitives. The hooks are modelled as follows:

- `useRef`: the field `ref`. It points at the element from the first render on, and becomes null
  once the release effect drops it.
- The render: the method `Render`. It derives the render state, mounts the element on the first
  render, then runs the three passive effects in source order (bind the stream, release on null
  props, set the volume).
- The layout effect's measurement: `Resize`.

## Model

| member | source | states |
|---|---|---|
| `LabelSize.GetSize` | src/core/transforms/WebRTC.tsx:52-66 | The tier is always 0 to 3 (the type `Tier`). It is 3 exactly when the width is at least half the canvas width, 2 when it is strictly between a quarter and a half, 1 when it is above 15% and at most a quarter, and 0 otherwise. |
| `LabelSize.GetSizeMonotone` | src/core/transforms/WebRTC.tsx:56-65 | On a fixed canvas, a wider surface never gets a smaller tier. |
| `LabelSize.GetSizeScaleInvariant` | src/core/transforms/WebRTC.tsx:56 | The tier depends only on the ratio: scaling the width and the canvas together by any positive factor leaves it unchanged. |
| `LabelSize.GetSizeBoundaries` | src/core/transforms/WebRTC.tsx:58-65 | Exactly one half gives 3, exactly a quarter gives 1, and exactly 15% gives 0. |
| `LabelSize.GetSizeExample` | src/core/transforms/WebRTC.tsx:52-66 | 120 px on a 400 px canvas gives 2; 200, 100 and 60 px give 3, 1 and 0. |
| `SourceMatch.IsMatch` | src/core/transforms/WebRTC.tsx:38 | Every key of the fragment is present in the object with an equal value; equivalently, the fragment's key/value pairs are a subset of the object's. |
| `SourceMatch.PairsContained` | src/core/transforms/WebRTC.tsx:38 | Key-wise containment of the fragment in the object is the same as containment of its key/value pairs. |
| `SourceMatch.FindFrom` | src/core/transforms/WebRTC.tsx:38 | A found index is at or after the start and its candidate matches. No candidate between the start and the result (or the end, when nothing is found) matches. |
| `SourceMatch.UseSource` | src/core/transforms/WebRTC.tsx:36-39 | It returns none exactly when no candidate matches. A returned source is one of the candidates and matches the fragment. |
| `SourceMatch.UseSourceIsFirst` | src/core/transforms/WebRTC.tsx:38 | When index k is the first match, the result is the candidate at k. |
| `SourceMatch.UseSourceFound` | src/core/transforms/WebRTC.tsx:38 | Conversely, a returned source is the candidate at the index of the first match. |
| `SourceMatch.UseSourceAppend` | src/core/transforms/WebRTC.tsx:38 | Candidates appended to a list that already has a match do not change the result. When the front has no match, the result is the first match among the appended candidates. |
| `SourceMatch.EmptyFragmentPicksFirst` | src/core/transforms/WebRTC.tsx:38 | An empty fragment selects the first candidate. |
| `SourceMatch.EarlierCandidateWins` | src/core/transforms/WebRTC.tsx:37-38 | A matching earlier candidate wins whatever the later one is: liveness is not considered. |
| `SourceMatch.IsMatchReflexive` | src/core/transforms/WebRTC.tsx:38 | An object matches a fragment made of its own properties. |
| `SourceMatch.IsMatchMonotone` | src/core/transforms/WebRTC.tsx:38 | A match survives dropping keys from the fragment and adding keys to the object. |
| `Participant.VolumeOf` | src/core/transforms/WebRTC.tsx:75 | The volume is the configured one when set, otherwise 1. |
| `Participant.IsSelf` | src/core/transforms/WebRTC.tsx:80-82 | Case by case: with no source, it holds exactly when there is no local id. With no local id, it holds exactly when the source has no `participantId`. Otherwise, it holds when the source id or the source's `participantId` equals the local id. |
| `Participant.HasVideo` | src/core/transforms/WebRTC.tsx:90 | It holds exactly when the host does not set `isHidden` and a source is present whose `videoEnabled` is truthy. |
| `Participant.HasName` | src/core/transforms/WebRTC.tsx:174 | The display name is truthy exactly when it is a non-empty string. |
| `Participant.Initial` | src/core/transforms/WebRTC.tsx:188 | A shown banner with a non-empty name gets the name's first character; no banner gets "". |
| `Participant.Derive` | src/core/transforms/WebRTC.tsx:75-91 | `isSelf`, case by case: with no source, it holds exactly when there is no local id. With no local id, it holds exactly when the source has no `participantId`. Otherwise, it holds when the source id or the source's `participantId` equals the local id. `isSelf` implies `muteAudio`; without `isSelf`, `muteAudio` is exactly the host's `isMuted`. `hasVideo` holds exactly when the host does not hide the video and a source is present with a truthy `videoEnabled`. The two opacities (lines 171 and 205) add up to 1, and the video's is 1 exactly when `hasVideo` holds. `hasSeen` is exactly `noDisplay`. The banner and the initial (lines 174, 188 and 212) appear exactly when `hasSeen` is false and the display name is non-empty. The initial is then the name's first character, and "" otherwise. `objectFit` is `contain` exactly when the source type is `"screen"` (line 207). |
| `Participant.DeriveAsWritten` | src/core/transforms/WebRTC.tsx:75 | As written, the component body throws exactly when the props are null or undefined. Otherwise it yields `Derive`. |
| `Participant.NullPropsAborts` | src/core/transforms/WebRTC.tsx:108-113 | As written, null props always throw at line 75. So every render that completes has props, and the `!props` branch of the effect at 108-113 never runs for null or undefined props. |
| `Participant.AbsentInputsShowPlaceholder` | src/core/transforms/WebRTC.tsx:86-91 | With no props and no source, the derivation does not fail. It gives no video, an opaque placeholder, no banner, `cover` and volume 1. |
| `Participant.SelfMutedWhateverIsMuted` | src/core/transforms/WebRTC.tsx:80-86 | `isSelf` does not depend on the props. When it holds, audio is muted under any props. |
| `Participant.HiddenOverridesVideo` | src/core/transforms/WebRTC.tsx:90 | `isHidden` set to true forces `hasVideo` false and the placeholder opaque, for any source. |
| `Participant.StreamDoesNotAffectFlags` | src/core/transforms/WebRTC.tsx:80-91 | Replacing the source's stream changes none of the derived flags. |
| `Participant.RemoteParticipantScenario` | src/core/transforms/WebRTC.tsx:80-91 | Participant "p2" with video, seen by "p1" with `isMuted` false and volume 0.8: not self, not muted, video shown, volume 0.8, banner with initial "A". |
| `Participant.LocalParticipantScenario` | src/core/transforms/WebRTC.tsx:80-86 | The same source seen by "p2": self, so muted although `isMuted` is false. |
| `Transform.BoundStream` | src/core/transforms/WebRTC.tsx:101-105 | After the binding effect, `srcObject` is the source's stream, or cleared when there is none. It keeps its value without an assignment when it already holds that stream. |
| `Transform.VideoElement.SetSrcObject` | src/core/transforms/WebRTC.tsx:102 | The assignment replaces the stream, counts one write and leaves the volume alone. |
| `Transform.VideoElement.SetVolume` | src/core/transforms/WebRTC.tsx:147 | The volume is taken exactly when it is in [0, 1]. Otherwise the assignment is refused and nothing changes. |
| `Transform.Instance.Create` | src/core/transforms/WebRTC.tsx:40-50 | The new instance has the initial props, no source, nothing mounted, label size 0, and an element with no stream and volume 1. |
| `Transform.Instance.BindStreamEffect` | src/core/transforms/WebRTC.tsx:93-106 | On a held element, `srcObject` becomes `BoundStream` of the old value and the source's stream, and it is written only when `Reassigns` holds. Without a held element nothing changes. |
| `Transform.Instance.ReleaseEffect` | src/core/transforms/WebRTC.tsx:108-113 | With null props and a held element, it clears `srcObject` and drops `ref`. Otherwise it changes nothing. |
| `Transform.Instance.VolumeEffect` | src/core/transforms/WebRTC.tsx:145-148 | A held element gets `VolumeOf(props)` when that is in range. It fails exactly when the element is held and the volume is out of range. |
| `Transform.Instance.Render` | src/core/transforms/WebRTC.tsx:253-254 | The instance invariant is re-established, and the shown state is `Derive` of the current props, the current source and the room's participant id as read at this render. A live element ends with the source's stream and the configured volume. With null props, it ends cleared and released. An element already released is left untouched. |
| `Transform.Instance.OnUpdate` | src/core/transforms/WebRTC.tsx:256-259 | It replaces only `props`, then renders as `Render` states. |
| `Transform.Instance.OnNewSource` | src/core/transforms/WebRTC.tsx:261-264 | It replaces only `source`, then renders as `Render` states. |
| `Transform.Instance.OnRemove` | src/core/transforms/WebRTC.tsx:266-269 | It replaces only `props`, then renders. With null final props, the stream handle is cleared and the element reference is released. |
| `Transform.Instance.Resize` | src/core/transforms/WebRTC.tsx:118-128 | While the element is held, the label size becomes `GetSize` of its width and the canvas width. Otherwise the label size is unchanged. |
| `Transform.RemoveTwiceScenario` | src/core/transforms/WebRTC.tsx:256-269 | A bound stream is attached; the first `remove(null)` clears it and releases the element; a second `remove(null)` leaves it cleared. |
| `Declaration.SchemaWellFormed` | src/core/transforms/WebRTC.tsx:21-35 | The declaration is named `LS-Room-Participant` and binds `RoomParticipant` sources. Its schema declares exactly `isMuted` (Boolean) and `volume` (Number), neither required, each with a default of its declared type: false and 1. |
| `Declaration.WithDefaults` | src/core/transforms/WebRTC.tsx:24-35 | Filling in the schema defaults sets `isMuted` to false and `volume` to 1 where absent, and keeps every present key. |
| `Declaration.DefaultsAgree` | src/core/transforms/WebRTC.tsx:24-35 | The schema defaults agree with how the component reads an absent key: filling them in never changes the render state. |

## Findings

| source | as written | input that shows it | evidently intended | confidence | as-written member | corrected member |
|---|---|---|---|---|---|---|
| src/core/transforms/WebRTC.tsx:75 | `const { volume = 1, ... } = props` destructures the props without a guard, so the component body throws before its effects run. The effect at 108-113, which clears `srcObject` and drops `ref` when the props are null, never runs for null or undefined props. Line 91 (`props.noDisplay`) has the same unguarded read. | `onRemove(null)` after a source with a stream is bound | Read null props as all-undefined (`props ?? {}` at 75, `props?.noDisplay` at 91), as lines 86 and 90 already do. Removal then clears the stream and releases the element. | not executed; the model does not decide how React's handling of the uncaught error (unmounting the tree) would clear the element by another route | `Participant.DeriveAsWritten` | `Participant.Derive` |

`Participant.NullPropsAborts` proves the unreachability on the as-written member. The instance
(`Transform.Instance.Render`) uses the corrected `Derive`. `Transform.Instance.OnRemove` proves the
intended clear-and-release.

## Behaviour worth noting

- The derivation is not total: destructuring the props at line 75 throws on null or undefined
  props, before anything else in the component runs; see Findings.
- `hasSeen` (line 91) is simply `props.noDisplay`. The destructured `noDisplay = false` and
  `isHidden = false` at line 75 are never used: lines 90 and 91 read the props directly.
- Absent props do not by themselves hide the video. Even with the correction in Findings, null
  props and a source whose `videoEnabled` is true give `hasVideo` true (line 90). The placeholder
  then turns transparent (line 171) over a cleared video.
- With non-null final props, `onRemove` (lines 266-269) only re-renders. The layout-effect cleanup
  at lines 137-142 runs only when its dependencies `ref.current` or `project` change (line 143),
  or when the component unmounts, so such a removal does not unobserve the resize observer. Once
  the release effect has set `ref.current` to null (line 111), a later cleanup skips the unobserve
  (line 138).
- With null final props, the render throws at line 75. If React then unmounts the tree, the
  cleanup at lines 137-142 runs while `ref.current` still holds the element. It would then
  unobserve and clear `srcObject`. That route is not modelled.

## Left out

- JSX markup, CSS and `ReactDOM.render` (lines 150-254): UI only. The flags that drive them are
  `Participant.RenderState`.
- The `ResizeObserver` subscription and the layout-effect cleanup (lines 115-143): DOM scheduling.
  The measurement itself is `Transform.Instance.Resize`, which the host calls for the eager
  measurement after mounting and for each notification.
- `play()`, its rejection and the one-shot `document` click retry (lines 95-99): asynchronous
  browser policy and event plumbing.
- `getProject`, `getProjectRoom` and `CoreContext` (lines 43-44, 123-124): foreign global state.
  The room's `participantId` and the canvas width become parameters (`roomId` of the handlers and
  `Render`, `canvasWidth` of `Resize`).
- lodash `isMatch` beyond flat, primitive-valued objects: the library is not part of this model.
  For primitive values it compares with `===`, which is what `SourceMatch.IsMatch` states.
  Fragment values that are `undefined`, or a missing `sourceProps`, are not modelled.
- `LabelSize.GetSize`: compares the exact rational ratio. Double rounding of `width /
  canvas.width` next to 0.15, 0.25 or 0.5 is not modelled, and a zero canvas width (Infinity or
  NaN) is excluded by the precondition.
- React dependency lists: the model runs every effect on every render. Because each effect
  re-checks its own condition, the values that `srcObject`, `volume` and `ref` end with after a
  render are the same.
- `Transform.Instance.Render`: does not state how many times `srcObject` is written, because
  dependency gating decides that in React. Only `BindStreamEffect` and `ReleaseEffect` state their
  write counts.
- Effect timing: the passive effects (lines 93-113 and 145-148) are treated as flushed at the end
  of each callback, inside `Render`. Under `ReactDOM.render` they run after the commit, so a
  `Resize` that arrives between the commit and the flush would still see the element that the
  model has already released.
- The `labelSize` state update's own re-render: its props and source are unchanged. The model takes
  the room's `participantId` as unchanged since the last callback, so it shows the same render
  state.
- React's unmounting of the tree after an uncaught error in a render or an effect. This covers the
  as-written null-props throw and the DOM's exception on a volume outside [0, 1]. The latter is
  reported as `VolumeRejected`, leaving the volume unchanged.
- Element creation: the `<video>` element is allocated with the instance. It counts as mounted from
  the first render on, which is when `ref` first points at it.
- Source typing: only what the code relies on is required, namely that a truthy `displayName` is a
  string (`.slice` at line 188). Every source carries `props`, as its type declares. So the
  unguarded `source?.props.videoEnabled` (line 90) and `source?.props.type` (line 207) cannot throw
  in the model.
- `Participant.Derive` and `Participant.Initial`: the initial is the display name's first Unicode code point, whereas
  `slice(0, 1)` at line 188 takes the first UTF-16 code unit. For a name that starts outside the
  Basic Multilingual Plane (an emoji, say), the code shows a lone high surrogate; the model shows
  the whole character. Dafny strings cannot hold a lone surrogate.
- The `sink` prop is carried in `Props` but the code never reads it.
