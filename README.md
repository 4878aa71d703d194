# bevy-rrise, modelled in Dafny

bevy-rrise is a game-engine plugin that drives a closed audio SDK through
its Rust binding. The SDK does nearly all of the audio work. What the plugin
adds is its own bookkeeping and the order of its calls around the SDK, and
that is what this project models:

- **Emitters and listeners** (`emitter_listener.dfy`). This covers:
  - the components and their builders;
  - posting an event on an emitter, and the mask and callback that go with the post;
  - the shared list of an emitter's playing IDs, which a successful post
    extends and an end-of-event callback prunes;
  - the per-frame system that registers new listeners and then new emitters;
  - the system that despawns silent emitters.
- **Fire-and-forget posting** (`sound_engine.dfy`). `PostEventAtLocation`
  keeps its callback mask and its `has_flags` field, then makes up to four
  calls in a fixed order: register a temporary game object, place it, post,
  and unregister. It stops after a failed register or set position.
- **The plugin's lifecycle** (`plugin.dfy`). This covers:
  - the default settings and the rule that finds the banks folder;
  - the order in which initialisation starts the SDK's subsystems and
    termination stops them;
  - the per-frame choice between idling, terminating and rendering;
  - the draining of pending callbacks into the event stream;
  - the start-up system that loads `Init.bnk` and spawns the default listener.
- **Coordinate conversion** (`transforms.dfy`). The conversion into the SDK's
  left-handed, Y-up frame, as the program computes it: position and front
  mirrored in z, the top vector copied unchanged. Every `SetPosition` in the
  model's traces carries this conversion. Copying the top vector is a finding
  listed below, and the conversion evidently intended is stated and proved
  beside it.

The SDK is modelled in `sdk.dfy` as the class `Sdk.Engine`. Every call
appends a record to a ghost call trace. An `Oracle` gives each call's
answer:

- `reply(k, c)` is the status of call `c` when it is the `k`-th call of the trace;
- `playingIdAt(k)` is the ID a successful post at position `k` returns;
- `initializedAt(k)` is what `is_initialized` reports after `k` calls.

So a repeated call may get a different answer each time. Each imperative
operation is proved to append to the trace exactly the calls that a pure
function of the oracle and the starting position gives. The lemmas then
state what the source promises about that function. `Sdk.RunSteps` models a
chain of calls joined by Rust's `?` operator.

Shared state is modelled by classes. The callback channel is
`Callbacks.CallbackChannel`. An emitter's `Arc<RwLock<Vec<AkPlayingID>>>` is
`Callbacks.PlayingIds`: one object shared by the component and by every
callback closure posted with it. The system's `Commands` is
`EmitterListener.Commands`, and the event writer is `Plugin.EventWriter`. A
query over new components is an array of rows. The system sets each row's
`entity` in place.

Two choices follow the code rather than the documentation:

- `setup_audio` spawns the default listener once `Init.bnk` loads, whatever
  `spawn_default_listener` says (src/plugin.rs:230-243). The comment on the
  setting at src/plugin.rs:55-57 says it decides this. `Plugin.SetupAudio`
  models the code.
- `add_flags(f)` sets `has_flags` from `f` alone (src/sound_engine.rs:41-45).
  So `add_flags(0)` after non-zero flags leaves flags in the mask while
  `has_flags` is false, and the post then carries no callback.
  `SoundEngine.AddFlaggingConsistency` states exactly when `has_flags` stays truthful.

## Model

| member | source | states |
|---|---|---|
| `Types.Join` | src/plugin.rs:270-274 | `Path::join` under Unix rules: joining an absolute path gives that path. Joining a relative path appends its components and keeps the base's kind. |
| `Types.JoinAssociative` | src/plugin.rs:272-274 | `root.join(a).join(b)` equals `root.join(a.join(b))`. |
| `Callbacks.CallbackChannel.constructor` | src/plugin.rs:198-202 | A new channel has nothing pending. |
| `Callbacks.CallbackChannel.TrySend` | src/emitter_listener.rs:376 | Sending appends the callback to the pending queue. |
| `Callbacks.CallbackChannel.TryRecv` | src/plugin.rs:225 | A receive takes the oldest pending callback and leaves the rest in order. On an empty queue it returns nothing. |
| `Callbacks.Without` | src/emitter_listener.rs:298-299 | The retained list has every copy of the ended ID removed and every other ID kept, each with its multiplicity. A list without that ID is unchanged. |
| `Callbacks.WithoutAppend` | src/emitter_listener.rs:299 | Removal commutes with concatenation, so the other IDs keep their order. |
| `Callbacks.WithoutIdempotent` | src/emitter_listener.rs:299 | A second end-of-event for the same ID changes nothing. |
| `Callbacks.PushThenEnd` | src/emitter_listener.rs:292-300 | A post followed by its own end-of-event leaves the list as if the ID had only been removed. |
| `Callbacks.PlayingIds.constructor` | src/emitter_listener.rs:160 | A new emitter's shared list is empty. |
| `Callbacks.PlayingIds.Push` | src/emitter_listener.rs:385 | The posted ID is appended. |
| `Callbacks.PlayingIds.RetainOthers` | src/emitter_listener.rs:298-299 | The list becomes the old list without the ended ID. |
| `Callbacks.Invoke` | src/emitter_listener.rs:287-301 | A fire-and-forget closure forwards the callback to the channel. An emitter's closure forwards it when it has a channel. On end-of-event it removes that playing ID from the emitter's list, and on any other callback it leaves the list as it was. |
| `Sdk.PostReply` | src/emitter_listener.rs:285-287 | The definition of the SDK's answer to a post: the post's status, with the oracle's playing ID in place of unit on success. |
| `Sdk.Engine.Invoke` | src/sound_engine.rs:60-61 | An SDK call returns the oracle's answer for its position and is appended to the trace. |
| `Sdk.Engine.Notify` | src/plugin.rs:333 | A call without a status is appended to the trace. |
| `Sdk.Engine.Post` | src/sound_engine.rs:65 | A post returns the post reply for its position and is appended to the trace. |
| `Sdk.Engine.IsInitialized` | src/plugin.rs:214 | The query returns the oracle's answer and changes nothing. |
| `Sdk.RunSteps` | src/plugin.rs:261-321 | A `?` chain makes at most all of its calls. It makes all of them when it succeeds, and at least one when it has any. |
| `Sdk.RunStopsAtFirstError` | src/plugin.rs:261-321 | A chain succeeds exactly when every call succeeds. When it fails, every call before the last one made succeeded, and the last one's error is the chain's. |
| `Sdk.RunErrAt` | src/plugin.rs:261-321 | If the first `i` calls succeed and call `i` fails, exactly `i + 1` calls are made and call `i`'s error is returned. |
| `Sdk.RunAllOk` | src/plugin.rs:261-321 | A chain whose calls all succeed makes every call and returns `Ok`. |
| `Transforms.MirrorZ` | src/lib.rs:30-35 | Negating z keeps x and y and negates z. |
| `Transforms.MirrorKeepsDot` | src/lib.rs:30-35 | The z mirror keeps every dot product. |
| `Transforms.ToAkTransformAsWritten` | src/lib.rs:29-38 | As written, the position and front keep x and y and negate z, and the top is `up()` unchanged. |
| `Transforms.AsWrittenSkewsFrame` | src/lib.rs:36 | As written, the dot product of front and top is the original one minus twice the product of their z components. |
| `Transforms.AsWrittenBreaksOrthogonality` | src/lib.rs:36 | An orthogonal pitched frame converts, as written, into a front and top that are not orthogonal. |
| `Transforms.ToAkTransform` | src/lib.rs:36 | The conversion evidently intended, the corrected half of the finding: position, front and top all mirrored in z. The program does not compute this. |
| `Transforms.ToAkKeepsFrame` | src/lib.rs:36 | The intended conversion keeps the lengths of front and top and the angle between them. |
| `Transforms.ConversionsAgreeIffLevel` | src/lib.rs:36 | The written and the mirrored conversions agree exactly when the up vector has no z component. |
| `Transforms.FromAkTransform` | src/lib.rs:29-38 | The inverse of the conversion as written: position and front mirrored back, top kept. Converting its result gives back the SDK transform. |
| `Transforms.LocalToAk` | src/lib.rs:44 | `to_ak_transform` for `Transform`: the conversion as written, with `RoundTrip` as its inverse. |
| `Transforms.GlobalToAk` | src/lib.rs:44 | `to_ak_transform` for `GlobalTransform`: the same conversion, as `SameConversion` states. |
| `Transforms.RoundTrip` | src/lib.rs:29-38 | Converting a transform as written and back gives the transform. |
| `Transforms.SameConversion` | src/lib.rs:25-44 | `Transform` and `GlobalTransform` convert the same way, by the conversion as written. |
| `Transforms.IdentityFacesPositiveZ` | src/lib.rs:23-24 | An unrotated object at the origin faces +Z with +Y up in the SDK's frame. |
| `EmitterListener.DefaultListener` | src/emitter_listener.rs:99-106 | A default listener is a default listener and has no entity. |
| `EmitterListener.NewListener` | src/emitter_listener.rs:87-92 | `new` sets the default flag and takes every other field from the default listener. |
| `EmitterListener.DefaultListenerBundle` | src/emitter_listener.rs:108-134 | The default bundle has the default listener and identity transforms. |
| `EmitterListener.WithIsDefault` | src/emitter_listener.rs:143-146 | Only the listener's default flag changes. |
| `EmitterListener.DefaultEmitter` | src/emitter_listener.rs:149-163 | A default emitter has event `""`, flags 0, no auto post, no despawn on silence, a fresh empty list of playing IDs and no entity. |
| `EmitterListener.WithEvent` | src/emitter_listener.rs:188-193 | Sets the event and the despawn flag and forces auto post. Nothing else changes. |
| `EmitterListener.WithFlags` | src/emitter_listener.rs:196-199 | Sets only the flags. |
| `EmitterListener.DynamicWithEvent` | src/emitter_listener.rs:238-243 | The same update on the dynamic bundle's inner emitter. The transform is untouched. |
| `EmitterListener.DynamicWithFlags` | src/emitter_listener.rs:246-249 | Sets only the inner emitter's flags. |
| `EmitterListener.BuildersCommute` | src/emitter_listener.rs:188-199 | `with_event` and `with_flags` touch disjoint fields, so the order of applying them does not matter. |
| `EmitterListener.IsPlaying` | src/emitter_listener.rs:310-312 | `is_playing`: the shared list is non-empty. `EndOfEventSilences` states when an end-of-event makes it false. |
| `EmitterListener.IsRegistered` | src/emitter_listener.rs:317-319 | `is_registered`: the component knows its entity. `AttachedWithoutMarker` shows it can hold without the marker. |
| `EmitterListener.EndOfEventSilences` | src/emitter_listener.rs:292-300 | After an end-of-event for `p` the emitter stops playing exactly when every listed ID was `p`. |
| `EmitterListener.EmitterMask` | src/emitter_listener.rs:286 | The mask an emitter post sends. `EmitterMaskMeaning` states its properties. |
| `EmitterListener.EmitterMaskMeaning` | src/emitter_listener.rs:351-380 | The mask always includes end-of-event. It is the caller's flags with end-of-event when there are no flags or there is a channel, and end-of-event alone when flags come without a channel. |
| `EmitterListener.ForwardChannel` | src/emitter_listener.rs:354-380 | The closure forwards exactly when there are flags and a channel, and then to that channel. |
| `EmitterListener.EmitterPost` | src/emitter_listener.rs:285-301 | The post an emitter makes: on its entity's object, with `EmitterMask`, and a closure that tracks the emitter's list and forwards through `ForwardChannel`. `PostEvent` makes exactly this call. |
| `EmitterListener.PostEvent` | src/emitter_listener.rs:344-397 | Without an entity, nothing is posted, the invalid ID is returned and the list is unchanged. Otherwise exactly one post is made on the entity's object, with that mask and closure. On success its ID is appended and returned; on failure the invalid ID is returned and the list is unchanged. |
| `EmitterListener.PostAssociatedEvent` | src/emitter_listener.rs:334-336 | `post_event` with the emitter's own event and flags. |
| `EmitterListener.Stop` | src/emitter_listener.rs:322-326 | Stops everything on the emitter's object if it has an entity, and makes no call otherwise. |
| `EmitterListener.Commands.Push` | src/emitter_listener.rs:450 | A command is appended to the queue. |
| `EmitterListener.DigitChar` | src/emitter_listener.rs:425 | A digit below ten becomes the character spelling it. |
| `EmitterListener.Decimal` | src/emitter_listener.rs:425 | An entity index formats to a non-empty string of decimal digits. |
| `EmitterListener.DecimalRoundTrip` | src/emitter_listener.rs:425 | Reading the digits back gives the index, so distinct entities get distinct fallback names. |
| `EmitterListener.ObjectId` | src/emitter_listener.rs:418 | `e.id() as AkGameObjectID`: widening the entity index keeps its value. |
| `EmitterListener.RegisterCall` | src/emitter_listener.rs:420-436 | A release build registers by ID. Otherwise the entity is registered under its `Name`, or under `<kind>_<index>` when it has none. |
| `EmitterListener.ListenerPlan` | src/emitter_listener.rs:416-448 | A listener makes three calls when it is a default listener and two otherwise. |
| `EmitterListener.ListenerPlanShape` | src/emitter_listener.rs:416-448 | All of a listener's calls target its own object. Register comes first, then add-default-listener when it is a default one, then set position last. The position call carries the conversion as written: position and front mirrored, top copied. |
| `EmitterListener.EmitterPlan` | src/emitter_listener.rs:455-480 | An emitter makes two calls on its own object. The first is its register call. The second is its set-position call, which carries the conversion as written: position and front mirrored, top copied. |
| `EmitterListener.ListenerAttached` | src/emitter_listener.rs:417 | `rr_l.entity = Some(e)`: the listener row with its entity set and nothing else changed. |
| `EmitterListener.EmitterAttached` | src/emitter_listener.rs:456 | `rr_e.entity = Some(e)`: the emitter row with its entity set and nothing else changed. |
| `EmitterListener.ListenerStep` | src/emitter_listener.rs:416-452 | A listener makes between one call and its whole plan, and posts nothing. |
| `EmitterListener.ListenerStepMeaning` | src/emitter_listener.rs:416-452 | A listener is marked registered exactly when every call of its plan succeeds. Its calls are a prefix of the plan and stop right after the first failure. |
| `EmitterListener.EmitterStep` | src/emitter_listener.rs:455-488 | An emitter makes one to three calls and lists at most one ID. |
| `EmitterListener.EmitterStepMeaning` | src/emitter_listener.rs:455-488 | An emitter is marked exactly when register and set position succeed, whatever its post returns. Its calls follow the plan and stop right after the first failure: a failed register makes no further call, and a successful one is always followed by set position. It posts only when both succeed and it auto-posts, and every call targets its own object. It lists the posted ID exactly when the post succeeds. |
| `EmitterListener.AttachedWithoutMarker` | src/emitter_listener.rs:455-486 | When registering or positioning fails, the emitter still reports itself registered but gets no marker. |
| `EmitterListener.InitListener` | src/emitter_listener.rs:416-452 | One listener turn: the row is attached, the trace grows by the listener's step and the queue by its commands. The other rows are unchanged. |
| `EmitterListener.InitEmitter` | src/emitter_listener.rs:455-488 | One emitter turn: the row is attached, and the trace, the queue and the row's list grow by the emitter's step. The other rows are unchanged. |
| `EmitterListener.InitListeners` | src/emitter_listener.rs:416-453 | Every listener is attached, and trace and queue hold the listeners' steps in row order. |
| `EmitterListener.InitEmitters` | src/emitter_listener.rs:455-489 | Every emitter is attached. Trace and queue hold the emitters' steps in row order, and each emitter's list gains what its own step posted. |
| `EmitterListener.InitNewRrObjects` | src/emitter_listener.rs:401-492 | Every listener is handled before any emitter, and the emitter pass starts where the listener pass ends. Every row is attached, and the system always returns `Ok`. |
| `EmitterListener.SilentDespawns` | src/emitter_listener.rs:511-519 | It holds only despawn commands. An entity is despawned exactly when its emitter asks for it and has an empty list. |
| `EmitterListener.Silent` | src/emitter_listener.rs:512 | The despawn test: the emitter asked to be despawned and nothing is playing on it. |
| `EmitterListener.DespawnSilentEmitters` | src/emitter_listener.rs:507-522 | The queue grows by exactly the despawns of the silent emitters, in order, and the system returns `Ok`. |
| `SoundEngine.SetFlagging` | src/sound_engine.rs:48-52 | After `flags(f)`, the mask is `f`, and `has_flags` tells whether `f` is non-zero. |
| `SoundEngine.AddFlagging` | src/sound_engine.rs:41-45 | `add_flags`: OR into the mask, `has_flags` from the argument. `AddFlaggingMeaning` and `AddFlaggingConsistency` state its properties. |
| `SoundEngine.AddFlaggingMeaning` | src/sound_engine.rs:41-45 | After `add_flags(f)`, `has_flags` is `f != 0`, whatever was accumulated before. |
| `SoundEngine.AddFlaggingConsistency` | src/sound_engine.rs:41-45 | `has_flags` stays truthful exactly when `f` is non-zero or the mask was empty. |
| `SoundEngine.PostCall` | src/sound_engine.rs:64-91 | The post `post` makes. `PostCallMeaning` states when it carries a forwarding callback. |
| `SoundEngine.PostCallMeaning` | src/sound_engine.rs:64-91 | The post is on the temporary object with the event and the mask. A callback is attached exactly when there are flags and a channel, and it forwards to that channel. |
| `SoundEngine.PostAtLocation` | src/sound_engine.rs:59-102 | The calls of `post` and its result, for an SDK whose answers start at position `k`. `PostAtLocationMeaning` and `UnregisterIgnored` state its properties. |
| `SoundEngine.PostAtLocationMeaning` | src/sound_engine.rs:59-102 | Every call targets the temporary object. A failing register or set position returns its error with no post and no unregister. Otherwise the post is followed by exactly one unregister, and the post's answer is returned. |
| `SoundEngine.UnregisterIgnored` | src/sound_engine.rs:93-101 | The unregister's answer never reaches the caller. |
| `SoundEngine.PostEventAtLocation.constructor` | src/sound_engine.rs:28-38 | A new builder has the event, the temporary ID and the transform converted as written (top copied), with no flags. |
| `SoundEngine.PostEventAtLocation.AtGlobal` | src/sound_engine.rs:28-38 | The same from a global transform. |
| `SoundEngine.PostEventAtLocation.AddFlags` | src/sound_engine.rs:41-45 | The flags are OR'd into the mask, and `has_flags` is set from the argument. |
| `SoundEngine.PostEventAtLocation.Flags` | src/sound_engine.rs:48-52 | The mask is replaced, and `has_flags` tells whether it is non-zero. |
| `SoundEngine.PostEventAtLocation.Post` | src/sound_engine.rs:59-102 | The trace grows by exactly the calls of `PostAtLocation`, and the result is its result. |
| `Plugin.DefaultSettings` | src/plugin.rs:82-88 | Language `English(US)`, banks in the relative path `soundbanks`, and a default listener. |
| `Plugin.PlatformFolder` | src/plugin.rs:266-269 | The platform folder: `Windows` or `Linux` by the build target. |
| `Plugin.BanksFolder` | src/plugin.rs:270-275 | The banks-folder rule. `BanksFolderMeaning` states its properties. |
| `Plugin.BanksFolderMeaning` | src/plugin.rs:270-275 | An absolute location is used as it is. A relative one goes under `root/asset_folder`. The folder ends in the platform's name, and it is absolute exactly when one of the three paths is. |
| `Plugin.DefaultBanksFolder` | src/plugin.rs:80-81 | By default the banks are in `root/asset_folder/soundbanks/<platform>`. |
| `Plugin.InitSteps` | src/plugin.rs:261-321 | The calls of initialisation in order, with profiler communication only outside release builds. `InitOrder` states the start order. |
| `Plugin.InitOutcome` | src/plugin.rs:261-328 | What initialisation does for an SDK whose answers start at position `k`. `InitOutcomeMeaning` states its properties. |
| `Plugin.InitOutcomeMeaning` | src/plugin.rs:261-328 | Initialisation succeeds exactly when every call succeeds and the engine then reports itself initialized. If only the final check fails it returns `AK_Fail` after every call. Otherwise it stops right after the first failing call and returns that call's error. |
| `Plugin.InitOrder` | src/plugin.rs:260-321 | Memory, streaming, sound and music start in that order, then profiler communication outside release builds. |
| `Plugin.TermSteps` | src/plugin.rs:332-362 | The calls of termination in order when nothing fails. `TermOrder` states the stop order. |
| `Plugin.TermOutcome` | src/plugin.rs:332-363 | What termination does for an SDK whose answers start at position `k`. `TermOutcomeMeaning` states its properties. |
| `Plugin.TermOutcomeMeaning` | src/plugin.rs:332-362 | Termination returns the unregister-all status after stop-all and unregister-all. On success it stops the subsystems in the reverse of their start order. On failure it stops none. |
| `Plugin.TermOrder` | src/plugin.rs:332-362 | Communication (outside release builds), music, sound, streaming and memory stop in that order. |
| `Plugin.InitSucceeded` | src/plugin.rs:323-328 | When every call succeeded, the result is decided by the final initialized check alone. |
| `Plugin.CheckInitialized` | src/plugin.rs:323-328 | The final check returns `AK_Fail` unless the engine reports itself initialized. |
| `Plugin.InitSoundEngine` | src/plugin.rs:248-329 | The trace grows by exactly the calls of `InitOutcome` on the computed banks folder and language, and the result is its result. |
| `Plugin.TermSoundEngine` | src/plugin.rs:332-363 | The trace grows by exactly the calls of `TermOutcome`, and the result is its result. |
| `Plugin.Choose` | src/plugin.rs:213-222 | The three-way choice: idle when uninitialized, otherwise terminate on a pending exit, else render. |
| `Plugin.RenderOutcome` | src/plugin.rs:213-222 | What a frame of `audio_rendering` does. `RenderOutcomeMeaning` states its properties. |
| `Plugin.RenderOutcomeMeaning` | src/plugin.rs:213-222 | An uninitialized engine gets no call and the frame returns `Ok`. An initialized one is terminated when an exit is pending. Otherwise it is rendered with synchronous rendering allowed, and the render status is returned. A render happens only then. |
| `Plugin.AudioRendering` | src/plugin.rs:213-222 | The trace grows by exactly the calls of `RenderOutcome`, and the result is its result. |
| `Plugin.EventWriter.Send` | src/plugin.rs:226 | An event is appended to the stream. |
| `Plugin.Delivered` | src/plugin.rs:224-228 | The events that deliver a batch of callbacks. `DeliveredMeaning` and `DeliveredAppend` state its properties. |
| `Plugin.DeliveredMeaning` | src/plugin.rs:224-228 | One event per callback, each carrying its callback, in the same order. |
| `Plugin.DeliveredAppend` | src/plugin.rs:224-228 | Delivering two batches is delivering their concatenation. |
| `Plugin.ProcessCallbacks` | src/plugin.rs:224-228 | Every pending callback is delivered, oldest first, and the channel is left empty. |
| `Plugin.SetupAudio` | src/plugin.rs:230-243 | `Init.bnk` is loaded and its status returned. On failure nothing is spawned. On success exactly one default listener is spawned, named outside release builds, whatever the settings say. |
| `Plugin.MainListenerName` | src/plugin.rs:239-240 | The default listener is named `RrMainDefaultListener` outside release builds and has no name in them. |

## Left out

- Types.Join: follows Unix path rules, with each path either absolute or relative. It does not model the Windows forms that are not absolute yet still replace the base in `join`: a rooted path without a drive (`\soundbanks`) and a drive-relative path (`C:soundbanks`). For such a `banks_location`, Plugin.BanksFolder and Plugin.BanksFolderMeaning describe the relative branch under `root/asset_folder`, which is not what a Windows build computes.
- The SDK's internals (rendering, bank loading, spatialisation, memory and streaming settings) are a closed binary. Each call is an oracle answer plus an entry in the call trace.
- Threading is not modelled: the `RwLock` around playing IDs, the crossbeam channel's thread safety, and callbacks that arrive while `process_callbacks` is draining. A callback runs as a sequential method call (`Callbacks.Invoke`).
- The game engine's scheduling, stages and labels (src/plugin.rs:113-187) are host-framework behaviour, and so are the `Added`/`Changed`/`With` query filters. A query is an input sequence or array, and `Commands` is a queue.
- The `RrRegistered` marker is only queued. Applying commands to the world is left out, so `EmitterListener.DespawnSilentEmitters` takes the registered emitters as given.
- `update_rr_position` and `stop_destroyed_emitters` are pass-through SDK calls with no decision of the plugin's own.
- `error_handler` and every `debug!`/`warn!`/`error!` call only log.
- Floating point and quaternions are not modelled. Vectors are exact reals, and a rotation is given by the `forward()` and `up()` vectors the conversion reads. So `RrEmitterBundle::new`/`with_rotation`, `RrDynamicEmitterBundle::new`/`from_transform`/`with_rotation` and `RrListenerBundle::new`/`with_rotation` are left out: they only build transforms.
- The `assert!` after the memory manager starts (src/plugin.rs:262) and the raw window handle (src/plugin.rs:287-303) are left out. The first is a panic check on the SDK and the second is platform-specific unsafe code.
- The temporary game object of `PostEventAtLocation` comes from an address in the source. Here it is a constructor parameter.
- `init_sound_engine` converts the banks folder to a string with `to_str().unwrap()` (src/plugin.rs:279), which panics on a path that is not valid UTF-8. Paths here are sequences of strings, so that panic is not modelled.
- The game's root path, the asset folder and the target platform are parameters of `Plugin.InitSoundEngine`, and a pending exit is a parameter of `Plugin.AudioRendering`.
- The binding's post builder is not part of this model. It is assumed that `flags` replaces the mask, `add_flags` ORs into it, the initial mask is 0, and end-of-event is bit 0 of the mask.
- EmitterListener.InitEmitters: requires that every new emitter owns its list of playing IDs, which every freshly added component in the source does. EmitterListener.InitNewRrObjects requires the same.
- EmitterListener.SilentDespawns: requires that every silent emitter knows its entity, as every registered one does. The source would panic on `unwrap` otherwise.

## Findings

| source | as written | input that shows it | evidently intended | confidence | as-written member | corrected member |
|---|---|---|---|---|---|---|
| src/lib.rs:36 | The top vector is copied unchanged, while position and front have z negated. | A pitched frame with forward (0, 3, -4) and up (0, 4, 3), which are orthogonal, converts into front (0, 3, 4) and top (0, 4, 3), whose dot product is 24. | The mirror into the left-handed frame negates z of every vector, top included, so the frame stays orthonormal. | medium, not executed | `Transforms.AsWrittenBreaksOrthogonality` | `Transforms.ToAkKeepsFrame` |
