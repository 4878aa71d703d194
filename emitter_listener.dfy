/**
  Emitter and listener components, their builders, posting events on an
  emitter with the bookkeeping of its playing IDs, and the per-frame
  systems that register new components and despawn silent emitters.
*/
module EmitterListener {
  import opened Types
  import opened Callbacks
  import opened Sdk
  import opened Transforms

  /** A game-engine entity; its index is the game object ID the plugin registers. */
  datatype Entity = Entity(id: U32)

  /** `e.id() as AkGameObjectID`: widening a u32 to a u64 keeps the value. */
  function ObjectId(e: Entity): GameObjectId {
    e.id
  }

  /** The emitter component.  `playingIds` is a shared cell: the component and
      every callback closure posted with it see the same list. */
  datatype RrEmitter = RrEmitter(
    eventId: AkId,
    flags: CallbackMask,
    autoPost: bool,
    despawnOnSilent: bool,
    playingIds: PlayingIds,
    entity: Option<Entity>)

  /** The listener component. */
  datatype RrListener = RrListener(isDefault: bool, entity: Option<Entity>)

  datatype EmitterBundle = EmitterBundle(rr: RrEmitter, globalTfm: GlobalTransform)
  datatype DynamicEmitterBundle = DynamicEmitterBundle(emitter: EmitterBundle, tfm: Transform)
  datatype TransformBundle = TransformBundle(local: Transform, global: GlobalTransform)
  datatype ListenerBundle = ListenerBundle(tfm: TransformBundle, listener: RrListener)

  // ---------------------------------------------------------------- builders

  /** `RrListener::default`: a default listener not yet attached to an entity. */
  function DefaultListener(): (l: RrListener)
    ensures l.isDefault && l.entity == None
  {
    RrListener(true, None)
  }

  /** `RrListener::new`: the given default flag, everything else defaulted. */
  function NewListener(isDefault: bool): (l: RrListener)
    ensures l.isDefault == isDefault && l.entity == DefaultListener().entity
  {
    DefaultListener().(isDefault := isDefault)
  }

  /** The derived default of the listener bundle: identity transforms. */
  function DefaultListenerBundle(): (b: ListenerBundle)
    ensures b.listener == DefaultListener()
    ensures b.tfm.local == IDENTITY && b.tfm.global == GLOBAL_IDENTITY
  {
    ListenerBundle(TransformBundle(IDENTITY, GLOBAL_IDENTITY), DefaultListener())
  }

  /** `with_is_default`: only the listener's default flag changes. */
  function WithIsDefault(b: ListenerBundle, isDefault: bool): (r: ListenerBundle)
    ensures r.listener.isDefault == isDefault
    ensures r.listener.entity == b.listener.entity && r.tfm == b.tfm
  {
    b.(listener := b.listener.(isDefault := isDefault))
  }

  /** `RrEmitter::default`: no event, no flags, no auto post, no despawn on
      silence, a fresh empty list of playing IDs and no entity. */
  method DefaultEmitter() returns (e: RrEmitter)
    ensures e.eventId == Name("") && e.flags == 0
    ensures !e.autoPost && !e.despawnOnSilent && e.entity == None
    ensures fresh(e.playingIds) && e.playingIds.ids == []
  {
    var ids := new PlayingIds();
    e := RrEmitter(Name(""), 0, false, false, ids, None);
  }

  /** `RrEmitterBundle::with_event`: sets the event and the despawn flag and
      turns auto post on; nothing else changes. */
  function WithEvent(b: EmitterBundle, event: AkId, despawnOnSilent: bool): (r: EmitterBundle)
    ensures r.rr.eventId == event && r.rr.autoPost && r.rr.despawnOnSilent == despawnOnSilent
    ensures r.rr.flags == b.rr.flags && r.rr.playingIds == b.rr.playingIds && r.rr.entity == b.rr.entity
    ensures r.globalTfm == b.globalTfm
  {
    b.(rr := b.rr.(eventId := event, autoPost := true, despawnOnSilent := despawnOnSilent))
  }

  /** `RrEmitterBundle::with_flags`: sets the callback flags; nothing else changes. */
  function WithFlags(b: EmitterBundle, flags: CallbackMask): (r: EmitterBundle)
    ensures r.rr.flags == flags
    ensures r.rr.eventId == b.rr.eventId && r.rr.autoPost == b.rr.autoPost
    ensures r.rr.despawnOnSilent == b.rr.despawnOnSilent
    ensures r.rr.playingIds == b.rr.playingIds && r.rr.entity == b.rr.entity
    ensures r.globalTfm == b.globalTfm
  {
    b.(rr := b.rr.(flags := flags))
  }

  /** `RrDynamicEmitterBundle::with_event`, the same update on the inner emitter. */
  function DynamicWithEvent(b: DynamicEmitterBundle, event: AkId, despawnOnSilent: bool): (r: DynamicEmitterBundle)
    ensures r.emitter.rr.eventId == event && r.emitter.rr.autoPost
    ensures r.emitter.rr.despawnOnSilent == despawnOnSilent
    ensures r.emitter.rr.flags == b.emitter.rr.flags && r.emitter.rr.playingIds == b.emitter.rr.playingIds
    ensures r.emitter.rr.entity == b.emitter.rr.entity
    ensures r.emitter.globalTfm == b.emitter.globalTfm && r.tfm == b.tfm
  {
    b.(emitter := b.emitter.(rr := b.emitter.rr.(eventId := event, autoPost := true, despawnOnSilent := despawnOnSilent)))
  }

  /** `RrDynamicEmitterBundle::with_flags`. */
  function DynamicWithFlags(b: DynamicEmitterBundle, flags: CallbackMask): (r: DynamicEmitterBundle)
    ensures r.emitter.rr.flags == flags
    ensures r.emitter.rr.eventId == b.emitter.rr.eventId && r.emitter.rr.autoPost == b.emitter.rr.autoPost
    ensures r.emitter.rr.despawnOnSilent == b.emitter.rr.despawnOnSilent
    ensures r.emitter.rr.playingIds == b.emitter.rr.playingIds && r.emitter.rr.entity == b.emitter.rr.entity
    ensures r.emitter.globalTfm == b.emitter.globalTfm && r.tfm == b.tfm
  {
    b.(emitter := b.emitter.(rr := b.emitter.rr.(flags := flags)))
  }

  /** The two builders touch disjoint fields, so their order does not matter. */
  lemma BuildersCommute(b: EmitterBundle, event: AkId, despawnOnSilent: bool, flags: CallbackMask)
    ensures WithFlags(WithEvent(b, event, despawnOnSilent), flags)
            == WithEvent(WithFlags(b, flags), event, despawnOnSilent)
  {
  }

  // ------------------------------------------------------------- queries

  /** `is_playing`: some posted event has not ended yet. */
  predicate IsPlaying(e: RrEmitter)
    reads e.playingIds
  {
    e.playingIds.ids != []
  }

  /** `is_registered`: the component has been attached to its entity. */
  predicate IsRegistered(e: RrEmitter) {
    e.entity.Some?
  }

  /** An end-of-event callback stops the emitter playing exactly when every
      ID still listed is the one that ended; any other callback changes nothing. */
  lemma EndOfEventSilences(s: seq<PlayingId>, p: PlayingId)
    ensures Without(s, p) == [] <==> forall i :: 0 <= i < |s| ==> s[i] == p
  {
    if Without(s, p) != [] {
      var x := Without(s, p)[0];
      assert x in Without(s, p);
      var i :| 0 <= i < |s| && s[i] == x;
    }
  }

  // ------------------------------------------------------------- posting

  /** The callback mask that reaches the SDK: the caller's flags, or none
      when flags were asked for without a channel to deliver them, and in
      every case the end-of-event bit the bookkeeping relies on. */
  function EmitterMask(flags: CallbackMask, hasChannel: bool): CallbackMask {
    (if flags != 0 && !hasChannel then 0 else flags) | END_OF_EVENT
  }

  /** The mask always asks for end of event, keeps the caller's flags when
      they can be delivered and asks for nothing else when they cannot. */
  lemma EmitterMaskMeaning(flags: CallbackMask, hasChannel: bool)
    ensures var m := EmitterMask(flags, hasChannel);
            && m & END_OF_EVENT == END_OF_EVENT
            && (flags == 0 || hasChannel ==> m == flags | END_OF_EVENT)
            && (flags != 0 && !hasChannel ==> m == END_OF_EVENT)
  {
  }

  /** The channel the callback closure forwards to: only when the caller
      asked for flags and passed a channel. */
  function ForwardChannel(flags: CallbackMask, channel: Option<CallbackChannel>): (f: Option<CallbackChannel>)
    ensures f.Some? <==> flags != 0 && channel.Some?
    ensures f.Some? ==> f == channel
  {
    if flags != 0 then channel else None
  }

  /** The SDK call an emitter attached to `entity` makes to post `event`. */
  function EmitterPost(e: RrEmitter, entity: Entity, event: AkId, flags: CallbackMask,
                       channel: Option<CallbackChannel>): Call
  {
    Sdk.PostEvent(ObjectId(entity), event, EmitterMask(flags, channel.Some?),
              Some(Track(e.playingIds, ForwardChannel(flags, channel))))
  }

  /** `post_event`: posts `event` with `flags` (not the emitter's own) on the
      emitter's game object.  Without an entity nothing is posted; otherwise
      a successful post lists and returns its playing ID, and a failed one
      returns the invalid ID and lists nothing. */
  method PostEvent(e: RrEmitter, engine: Engine, event: AkId, flags: CallbackMask,
                   channel: Option<CallbackChannel>) returns (id: PlayingId)
    requires engine.Valid()
    modifies engine, e.playingIds
    ensures engine.Valid()
    ensures e.entity.None? ==>
              && id == INVALID_PLAYING_ID && engine.trace == old(engine.trace)
              && e.playingIds.ids == old(e.playingIds.ids)
    ensures e.entity.Some? ==>
              var c := EmitterPost(e, e.entity.value, event, flags, channel);
              var reply := PostReply(engine.oracle, old(engine.tick), c);
              && engine.trace == old(engine.trace) + [c]
              && id == (if reply.Ok? then reply.value else INVALID_PLAYING_ID)
              && e.playingIds.ids == old(e.playingIds.ids) + (if reply.Ok? then [reply.value] else [])
  {
    if e.entity.None? {
      id := INVALID_PLAYING_ID;
      return;
    }
    var obj := ObjectId(e.entity.value);
    var hasFlags := flags != 0;
    var mask: CallbackMask;
    var callback: Callback;
    if !hasFlags {
      mask, callback := flags | END_OF_EVENT, Track(e.playingIds, None);
    } else if channel.None? {
      mask, callback := 0 | END_OF_EVENT, Track(e.playingIds, None);
    } else {
      mask, callback := flags | END_OF_EVENT, Track(e.playingIds, channel);
    }
    var result := engine.Post(Sdk.PostEvent(obj, event, mask, Some(callback)));
    match result
    case Ok(playing) =>
      e.playingIds.Push(playing);
      id := playing;
    case Err(_) =>
      id := INVALID_PLAYING_ID;
  }

  /** `post_associated_event`: `post_event` with the emitter's own event and flags. */
  method PostAssociatedEvent(e: RrEmitter, engine: Engine, channel: Option<CallbackChannel>)
    returns (id: PlayingId)
    requires engine.Valid()
    modifies engine, e.playingIds
    ensures engine.Valid()
    ensures e.entity.None? ==>
              && id == INVALID_PLAYING_ID && engine.trace == old(engine.trace)
              && e.playingIds.ids == old(e.playingIds.ids)
    ensures e.entity.Some? ==>
              var c := EmitterPost(e, e.entity.value, e.eventId, e.flags, channel);
              var reply := PostReply(engine.oracle, old(engine.tick), c);
              && engine.trace == old(engine.trace) + [c]
              && id == (if reply.Ok? then reply.value else INVALID_PLAYING_ID)
              && e.playingIds.ids == old(e.playingIds.ids) + (if reply.Ok? then [reply.value] else [])
  {
    id := PostEvent(e, engine, e.eventId, e.flags, channel);
  }

  /** `stop`: stops everything playing on the emitter's game object, if it has one. */
  method Stop(e: RrEmitter, engine: Engine)
    requires engine.Valid()
    modifies engine
    ensures engine.Valid()
    ensures engine.trace == old(engine.trace)
              + (if e.entity.Some? then [StopAll(Some(ObjectId(e.entity.value)))] else [])
  {
    if e.entity.Some? {
      engine.Notify(StopAll(Some(ObjectId(e.entity.value))));
    }
  }

  // ------------------------------------------------------------- commands

  /** Deferred world changes a system asks for. */
  datatype Command =
    | InsertRegistered(entity: Entity)
    | Despawn(entity: Entity)
    | SpawnListener(bundle: ListenerBundle, name: Option<string>)

  /** The system's command queue, applied by the game engine after the system runs. */
  class Commands {
    var queue: seq<Command>

    constructor ()
      ensures queue == []
    {
      queue := [];
    }

    method Push(c: Command)
      modifies this
      ensures queue == old(queue) + [c]
    {
      queue := queue + [c];
    }
  }

  // ------------------------------------------------------------- names

  function DigitChar(d: nat): (c: char)
    requires d < 10
    ensures '0' <= c <= '9' && (c as int) - ('0' as int) == d
  {
    (('0' as int) + d) as char
  }

  /** `format!("{}", n)` for a natural number: its decimal digits. */
  function Decimal(n: nat): (s: string)
    ensures 1 <= |s|
    ensures forall i :: 0 <= i < |s| ==> '0' <= s[i] <= '9'
    decreases n
  {
    if n < 10 then [DigitChar(n)] else Decimal(n / 10) + [DigitChar(n % 10)]
  }

  /** The number a string of decimal digits spells. */
  function DecimalValue(s: string): nat
    requires forall i :: 0 <= i < |s| ==> '0' <= s[i] <= '9'
    decreases |s|
  {
    if s == [] then 0
    else DecimalValue(s[..|s| - 1]) * 10 + ((s[|s| - 1] as int) - ('0' as int))
  }

  /** Reading the digits back gives the number: distinct entities get
      distinct fallback names. */
  lemma {:induction false} DecimalRoundTrip(n: nat)
    ensures DecimalValue(Decimal(n)) == n
    decreases n
  {
    if n >= 10 {
      DecimalRoundTrip(n / 10);
      var s := Decimal(n);
      assert s[..|s| - 1] == Decimal(n / 10);
    }
  }

  // ------------------------------------------------------------- registration

  /** One row of the query over newly added listeners. */
  datatype ListenerRow = ListenerRow(entity: Entity, name: Option<string>, rr: RrListener, tfm: GlobalTransform)

  /** One row of the query over newly added emitters. */
  datatype EmitterRow = EmitterRow(entity: Entity, name: Option<string>, rr: RrEmitter, tfm: GlobalTransform)

  /** The registration call: by ID in a release build, else by the entity's
      name or, without one, `<kind>_<entity index>`. */
  function RegisterCall(release: bool, entity: Entity, name: Option<string>, kind: string): (c: Call)
    ensures Target(c) == Some(ObjectId(entity))
    ensures release ==> c == RegisterGameObj(ObjectId(entity))
    ensures !release ==> c.RegisterNamedGameObj?
    ensures !release && name.Some? ==> c.name == name.value
    ensures !release && name.None? ==> c.name == kind + "_" + Decimal(entity.id)
  {
    if release then RegisterGameObj(ObjectId(entity))
    else RegisterNamedGameObj(ObjectId(entity), if name.Some? then name.value else kind + "_" + Decimal(entity.id))
  }

  /** The calls a new listener goes through when each succeeds: register,
      become a default listener if it is one, set its position. */
  function ListenerPlan(release: bool, row: ListenerRow): (plan: seq<Call>)
    ensures |plan| == if row.rr.isDefault then 3 else 2
  {
    [RegisterCall(release, row.entity, row.name, "RrListener")]
    + (if row.rr.isDefault then [AddDefaultListener(ObjectId(row.entity))] else [])
    + [SetPosition(ObjectId(row.entity), GlobalToAk(row.tfm))]
  }

  /** A listener's calls are all about its own game object: it is registered
      first, made a default listener second when it is one, and positioned last. */
  lemma ListenerPlanShape(release: bool, row: ListenerRow)
    ensures var plan := ListenerPlan(release, row);
            && (forall i :: 0 <= i < |plan| ==> Target(plan[i]) == Some(ObjectId(row.entity)))
            && plan[0] == RegisterCall(release, row.entity, row.name, "RrListener")
            && (row.rr.isDefault ==> plan[1] == AddDefaultListener(ObjectId(row.entity)))
            && plan[|plan| - 1] == SetPosition(ObjectId(row.entity), GlobalToAk(row.tfm))
            && plan[|plan| - 1].at.position == MirrorZ(row.tfm.translation)
            && plan[|plan| - 1].at.orientationFront == MirrorZ(row.tfm.forward)
            && plan[|plan| - 1].at.orientationTop == row.tfm.up
  {
  }

  /** The calls that register a new emitter: register, set its position. */
  function EmitterPlan(release: bool, row: EmitterRow): (plan: seq<Call>)
    ensures |plan| == 2
    ensures plan[0] == RegisterCall(release, row.entity, row.name, "RrEmitter")
    ensures forall i :: 0 <= i < |plan| ==> Target(plan[i]) == Some(ObjectId(row.entity))
    ensures plan[1].SetPosition? && plan[1].at.position == MirrorZ(row.tfm.translation)
    ensures plan[1].at.orientationFront == MirrorZ(row.tfm.forward) && plan[1].at.orientationTop == row.tfm.up
  {
    [RegisterCall(release, row.entity, row.name, "RrEmitter"),
     SetPosition(ObjectId(row.entity), GlobalToAk(row.tfm))]
  }

  /** A row once the system has attached the component to its entity. */
  function ListenerAttached(row: ListenerRow): ListenerRow {
    row.(rr := row.rr.(entity := Some(row.entity)))
  }

  function EmitterAttached(row: EmitterRow): EmitterRow {
    row.(rr := row.rr.(entity := Some(row.entity)))
  }

  /** What registering one new row does: the calls made, the commands
      queued (the registered marker, or nothing) and the playing IDs its
      auto post lists. */
  datatype Outcome = Outcome(calls: seq<Call>, commands: seq<Command>, posted: seq<PlayingId>)

  function ListenerStep(reply: (nat, Call) -> Result<()>, release: bool, k: nat, row: ListenerRow): (s: Outcome)
    ensures 1 <= |s.calls| <= |ListenerPlan(release, row)|
    ensures s.posted == []
  {
    var obj := ObjectId(row.entity);
    var register := RegisterCall(release, row.entity, row.name, "RrListener");
    var position := SetPosition(obj, GlobalToAk(row.tfm));
    var mark := [InsertRegistered(row.entity)];
    if reply(k, register).Err? then Outcome([register], [], [])
    else if row.rr.isDefault then
      var default := AddDefaultListener(obj);
      if reply(k + 1, default).Err? then Outcome([register, default], [], [])
      else Outcome([register, default, position], if reply(k + 2, position).Ok? then mark else [], [])
    else Outcome([register, position], if reply(k + 1, position).Ok? then mark else [], [])
  }

  /** A listener is marked registered exactly when all of its calls succeed;
      otherwise its calls stop right after the first that fails. */
  lemma {:induction false} ListenerStepMeaning(reply: (nat, Call) -> Result<()>, release: bool, k: nat, row: ListenerRow)
    ensures var s := ListenerStep(reply, release, k, row);
            var plan := ListenerPlan(release, row);
            && s.commands == (if AllOk(reply, k, plan) then [InsertRegistered(row.entity)] else [])
            && s.calls == plan[..|s.calls|]
            && (AllOk(reply, k, plan) ==> s.calls == plan)
            && (forall i :: 0 <= i < |s.calls| - 1 ==> reply(k + i, s.calls[i]).Ok?)
            && (!AllOk(reply, k, plan) ==> reply(k + |s.calls| - 1, s.calls[|s.calls| - 1]).Err?)
  {
    var s := ListenerStep(reply, release, k, row);
    var plan := ListenerPlan(release, row);
    var last := |plan| - 1;
    if reply(k, plan[0]).Err? {
      assert !AllOk(reply, k, plan);
      assert s.calls == plan[..1];
    } else if row.rr.isDefault && reply(k + 1, plan[1]).Err? {
      assert !AllOk(reply, k, plan);
      assert s.calls == plan[..2];
    } else {
      assert plan[..|plan|] == plan == s.calls;
      if reply(k + last, plan[last]).Err? {
        assert !AllOk(reply, k, plan);
      }
    }
  }

  function EmitterStep(o: Oracle, release: bool, k: nat, row: EmitterRow, channel: CallbackChannel): (r: Outcome)
    ensures 1 <= |r.calls| <= 3
    ensures |r.posted| <= 1
  {
    var obj := ObjectId(row.entity);
    var register := RegisterCall(release, row.entity, row.name, "RrEmitter");
    var position := SetPosition(obj, GlobalToAk(row.tfm));
    var mark := [InsertRegistered(row.entity)];
    if o.reply(k, register).Err? then Outcome([register], [], [])
    else if o.reply(k + 1, position).Err? then Outcome([register, position], [], [])
    else if !row.rr.autoPost then Outcome([register, position], mark, [])
    else
      var post := EmitterPost(row.rr, row.entity, row.rr.eventId, row.rr.flags, Some(channel));
      var reply := PostReply(o, k + 2, post);
      Outcome([register, position, post], mark, if reply.Ok? then [reply.value] else [])
  }

  /** An emitter is marked registered exactly when registering and positioning
      it succeed, whatever its auto post returns; it posts only then and only
      when it auto-posts, a successful register is always followed by the
      position call, every call is about its own game object, and its
      list gains the posted ID exactly when the post succeeds. */
  lemma {:induction false} EmitterStepMeaning(o: Oracle, release: bool, k: nat, row: EmitterRow, channel: CallbackChannel)
    ensures var r := EmitterStep(o, release, k, row, channel);
            var plan := EmitterPlan(release, row);
            && r.commands == (if AllOk(o.reply, k, plan) then [InsertRegistered(row.entity)] else [])
            && (forall i :: 0 <= i < |r.calls| && i < 2 ==> r.calls[i] == plan[i])
            && (forall i :: 0 <= i < |r.calls| ==> Target(r.calls[i]) == Some(ObjectId(row.entity)))
            && (forall i :: 0 <= i < |r.calls| - 1 && i < 2 ==> o.reply(k + i, r.calls[i]).Ok?)
            && (!AllOk(o.reply, k, plan) ==> o.reply(k + |r.calls| - 1, r.calls[|r.calls| - 1]).Err?)
            && (o.reply(k, plan[0]).Err? ==> |r.calls| == 1)
            && (o.reply(k, plan[0]).Ok? ==> 2 <= |r.calls|)
            && (AllOk(o.reply, k, plan) ==> r.calls[..2] == plan)
            && (|r.calls| == 3 <==> AllOk(o.reply, k, plan) && row.rr.autoPost)
            && (|r.calls| == 3 ==>
                  && r.calls[2] == EmitterPost(row.rr, row.entity, row.rr.eventId, row.rr.flags, Some(channel))
                  && r.posted == (var reply := PostReply(o, k + 2, r.calls[2]);
                                  if reply.Ok? then [reply.value] else []))
            && (|r.calls| < 3 ==> r.posted == [])
  {
    var r := EmitterStep(o, release, k, row, channel);
    var plan := EmitterPlan(release, row);
    if o.reply(k, plan[0]).Err? {
      assert !AllOk(o.reply, k, plan);
    } else if o.reply(k + 1, plan[1]).Err? {
      assert !AllOk(o.reply, k, plan);
    }
  }

  /** The component is attached before any call, so an emitter whose
      registration or positioning fails reports itself registered while it
      gets no registered marker. */
  lemma AttachedWithoutMarker(o: Oracle, release: bool, k: nat, row: EmitterRow, channel: CallbackChannel)
    requires !AllOk(o.reply, k, EmitterPlan(release, row))
    ensures IsRegistered(EmitterAttached(row).rr)
    ensures EmitterStep(o, release, k, row, channel).commands == []
  {
    EmitterStepMeaning(o, release, k, row, channel);
  }

  /** The steps of the listener and of the emitter system, as functions of
      the trace position they start at and the row. */
  function ListenerSteps(reply: (nat, Call) -> Result<()>, release: bool): (nat, ListenerRow) -> Outcome {
    (k: nat, row: ListenerRow) => ListenerStep(reply, release, k, row)
  }

  function EmitterSteps(o: Oracle, release: bool, channel: CallbackChannel): (nat, EmitterRow) -> Outcome {
    (k: nat, row: EmitterRow) => EmitterStep(o, release, k, row, channel)
  }

  /** What one system does to the first `n` rows: its calls and its commands. */
  datatype Pass = Pass(calls: seq<Call>, commands: seq<Command>)

  /** The rows handled one after another from trace position `k`, each step
      starting where the previous one's calls end. */
  function Sweep<R>(step: (nat, R) -> Outcome, k: nat, rows: seq<R>, n: nat): (p: Pass)
    requires n <= |rows|
    decreases n
  {
    if n == 0 then Pass([], [])
    else
      var before := Sweep(step, k, rows, n - 1);
      var out := step(k + |before.calls|, rows[n - 1]);
      Pass(before.calls + out.calls, before.commands + out.commands)
  }

  /** What row `m`'s list of playing IDs gains during the sweep. */
  function Posted<R>(step: (nat, R) -> Outcome, k: nat, rows: seq<R>, m: nat): seq<PlayingId>
    requires m < |rows|
  {
    step(k + |Sweep(step, k, rows, m).calls|, rows[m]).posted
  }

  /** A log that holds the sweep over the first `i` rows, extended by row
      `i`'s step made from the log's end, holds the sweep over `i + 1` rows,
      and that step posts what row `i` gains. */
  lemma {:induction false} SweepTurn<R>(step: (nat, R) -> Outcome, rows: seq<R>, i: nat,
                                         trace0: seq<Call>, queue0: seq<Command>, t: seq<Call>, q: seq<Command>)
    requires i < |rows|
    requires t == trace0 + Sweep(step, |trace0|, rows, i).calls
    requires q == queue0 + Sweep(step, |trace0|, rows, i).commands
    ensures var out := step(|t|, rows[i]);
            && t + out.calls == trace0 + Sweep(step, |trace0|, rows, i + 1).calls
            && q + out.commands == queue0 + Sweep(step, |trace0|, rows, i + 1).commands
            && out.posted == Posted(step, |trace0|, rows, i)
  {
    var pass := Sweep(step, |trace0|, rows, i);
    assert |t| == |trace0| + |pass.calls|;
    var out := step(|t|, rows[i]);
    assert i + 1 - 1 == i;
    AppendAssoc(trace0, pass.calls, out.calls);
    AppendAssoc(queue0, pass.commands, out.commands);
  }

  /** The loop body for one listener: attach, then register, make default,
      set position, each only if the previous succeeded; mark it registered
      only if all of them did. */
  method InitListener(engine: Engine, commands: Commands, rows: array<ListenerRow>, i: nat)
    requires engine.Valid() && i < rows.Length
    modifies engine, commands, rows
    ensures engine.Valid()
    ensures rows[i] == ListenerAttached(old(rows[i]))
    ensures forall m :: 0 <= m < rows.Length && m != i ==> rows[m] == old(rows[m])
    ensures var step := ListenerStep(engine.oracle.reply, engine.release, old(engine.tick), old(rows[i]));
            && engine.trace == old(engine.trace) + step.calls
            && commands.queue == old(commands.queue) + step.commands
  {
    var row := rows[i];
    rows[i] := ListenerAttached(row);
    var obj := ObjectId(row.entity);
    var r := engine.Invoke(RegisterCall(engine.release, row.entity, row.name, "RrListener"));
    if r.Err? {
      return;
    }
    if row.rr.isDefault {
      r := engine.Invoke(AddDefaultListener(obj));
      if r.Err? {
        return;
      }
    }
    r := engine.Invoke(SetPosition(obj, GlobalToAk(row.tfm)));
    if r.Err? {
      return;
    }
    commands.Push(InsertRegistered(row.entity));
  }

  /** The loop body for one emitter: attach, register, set position, then
      post its event if it auto-posts, and mark it registered once register
      and set position have succeeded, whatever the post returned. */
  method InitEmitter(engine: Engine, commands: Commands, rows: array<EmitterRow>, i: nat, channel: CallbackChannel)
    requires engine.Valid() && i < rows.Length
    modifies engine, commands, rows, rows[i].rr.playingIds
    ensures engine.Valid()
    ensures rows[i] == EmitterAttached(old(rows[i]))
    ensures forall m :: 0 <= m < rows.Length && m != i ==> rows[m] == old(rows[m])
    ensures var out := EmitterStep(engine.oracle, engine.release, old(engine.tick), old(rows[i]), channel);
            && engine.trace == old(engine.trace) + out.calls
            && commands.queue == old(commands.queue) + out.commands
            && rows[i].rr.playingIds.ids == old(rows[i].rr.playingIds.ids) + out.posted
  {
    var row := rows[i];
    var rr := row.rr.(entity := Some(row.entity));
    rows[i] := row.(rr := rr);
    var obj := ObjectId(row.entity);
    var r := engine.Invoke(RegisterCall(engine.release, row.entity, row.name, "RrEmitter"));
    if r.Err? {
      return;
    }
    r := engine.Invoke(SetPosition(obj, GlobalToAk(row.tfm)));
    if r.Err? {
      return;
    }
    if rr.autoPost {
      var _ := PostAssociatedEvent(rr, engine, Some(channel));
    }
    commands.Push(InsertRegistered(row.entity));
  }

  /** The playing-ID lists of a set of emitter rows. */
  function Trackers(rows: seq<EmitterRow>): set<PlayingIds> {
    set i | 0 <= i < |rows| :: rows[i].rr.playingIds
  }

  /** The current contents of each row's list of playing IDs. */
  function IdLists(rows: seq<EmitterRow>): (lists: seq<seq<PlayingId>>)
    reads Trackers(rows)
    ensures |lists| == |rows|
    ensures forall m :: 0 <= m < |rows| ==> lists[m] == rows[m].rr.playingIds.ids
  {
    seq(|rows|, m requires 0 <= m < |rows| reads Trackers(rows) => rows[m].rr.playingIds.ids)
  }

  /** Row `i`'s list of playing IDs. */
  function TrackerAt(rows: seq<EmitterRow>, i: nat): PlayingIds
    requires i < |rows|
  {
    rows[i].rr.playingIds
  }

  /** Every emitter component owns its list of playing IDs. */
  ghost predicate DistinctTrackers(rows: seq<EmitterRow>) {
    forall i, j :: 0 <= i < j < |rows| ==> TrackerAt(rows, i) != TrackerAt(rows, j)
  }

  /** Row `j`'s list is no other row's. */
  lemma DistinctAt(rows: seq<EmitterRow>, j: nat)
    requires DistinctTrackers(rows) && j < |rows|
    ensures forall m :: 0 <= m < |rows| && m != j ==> rows[m].rr.playingIds != rows[j].rr.playingIds
  {
    forall m | 0 <= m < |rows| && m != j
      ensures rows[m].rr.playingIds != rows[j].rr.playingIds
    {
      if m < j {
        assert TrackerAt(rows, m) != TrackerAt(rows, j);
      } else {
        assert TrackerAt(rows, j) != TrackerAt(rows, m);
      }
    }
  }

  /** The state after the listener loop has handled the first `i` of the
      rows `ls`, starting from the logs `trace0` and `queue0`. */
  ghost predicate ListenersDone(engine: Engine, commands: Commands, listeners: array<ListenerRow>,
                                ls: seq<ListenerRow>, trace0: seq<Call>, queue0: seq<Command>, i: nat)
    reads engine, commands, listeners
  {
    && engine.Valid() && i <= listeners.Length == |ls|
    && (forall m :: 0 <= m < i ==> listeners[m] == ListenerAttached(ls[m]))
    && (forall m :: i <= m < listeners.Length ==> listeners[m] == ls[m])
    && engine.trace == trace0 + Sweep(ListenerSteps(engine.oracle.reply, engine.release), |trace0|, ls, i).calls
    && commands.queue == queue0 + Sweep(ListenerSteps(engine.oracle.reply, engine.release), |trace0|, ls, i).commands
  }

  /** One turn of the listener loop. */
  method InitListenerAt(engine: Engine, commands: Commands, listeners: array<ListenerRow>, i: nat,
                        ghost ls: seq<ListenerRow>, ghost trace0: seq<Call>, ghost queue0: seq<Command>)
    requires ListenersDone(engine, commands, listeners, ls, trace0, queue0, i) && i < listeners.Length
    modifies engine, commands, listeners
    ensures ListenersDone(engine, commands, listeners, ls, trace0, queue0, i + 1)
  {
    ghost var step := ListenerSteps(engine.oracle.reply, engine.release);
    SweepTurn(step, ls, i, trace0, queue0, engine.trace, commands.queue);
    assert step(engine.tick, ls[i]) == ListenerStep(engine.oracle.reply, engine.release, engine.tick, listeners[i]);
    InitListener(engine, commands, listeners, i);
  }

  /** The first loop of `init_new_rr_objects`, over the new listeners. */
  method InitListeners(engine: Engine, commands: Commands, listeners: array<ListenerRow>)
    requires engine.Valid()
    modifies engine, commands, listeners
    ensures ListenersDone(engine, commands, listeners, old(listeners[..]), old(engine.trace), old(commands.queue), listeners.Length)
  {
    ghost var ls := listeners[..];
    ghost var trace0, queue0 := engine.trace, commands.queue;
    var i := 0;
    while i < listeners.Length
      invariant ListenersDone(engine, commands, listeners, ls, trace0, queue0, i)
    {
      InitListenerAt(engine, commands, listeners, i, ls, trace0, queue0);
      i := i + 1;
    }
  }

  /** The state after the emitter loop has handled the first `j` of the rows
      `es`, starting from the logs `trace0` and `queue0`; `ids0[m]` is row
      `m`'s list of playing IDs before the loop. */
  ghost predicate EmittersDone(engine: Engine, commands: Commands, emitters: array<EmitterRow>, channel: CallbackChannel,
                               es: seq<EmitterRow>, ids0: seq<seq<PlayingId>>, trace0: seq<Call>, queue0: seq<Command>, j: nat)
    reads engine, commands, emitters, Trackers(es)
  {
    && engine.Valid() && j <= emitters.Length == |es| == |ids0|
    && (forall m :: 0 <= m < j ==> emitters[m] == EmitterAttached(es[m]))
    && (forall m :: j <= m < emitters.Length ==> emitters[m] == es[m])
    && engine.trace == trace0 + Sweep(EmitterSteps(engine.oracle, engine.release, channel), |trace0|, es, j).calls
    && commands.queue == queue0 + Sweep(EmitterSteps(engine.oracle, engine.release, channel), |trace0|, es, j).commands
    && (forall m :: 0 <= m < j ==>
          es[m].rr.playingIds.ids == ids0[m] + Posted(EmitterSteps(engine.oracle, engine.release, channel), |trace0|, es, m))
    && (forall m :: j <= m < |es| ==> es[m].rr.playingIds.ids == ids0[m])
  }

  /** One turn of the emitter loop. */
  method InitEmitterAt(engine: Engine, commands: Commands, emitters: array<EmitterRow>, j: nat, channel: CallbackChannel,
                       ghost es: seq<EmitterRow>, ghost ids0: seq<seq<PlayingId>>, ghost trace0: seq<Call>, ghost queue0: seq<Command>)
    requires EmittersDone(engine, commands, emitters, channel, es, ids0, trace0, queue0, j) && j < emitters.Length
    requires forall m :: 0 <= m < |es| && m != j ==> es[m].rr.playingIds != es[j].rr.playingIds
    modifies engine, commands, emitters, es[j].rr.playingIds
    ensures EmittersDone(engine, commands, emitters, channel, es, ids0, trace0, queue0, j + 1)
  {
    ghost var step := EmitterSteps(engine.oracle, engine.release, channel);
    SweepTurn(step, es, j, trace0, queue0, engine.trace, commands.queue);
    assert step(engine.tick, es[j]) == EmitterStep(engine.oracle, engine.release, engine.tick, emitters[j], channel);
    InitEmitter(engine, commands, emitters, j, channel);
  }

  /** The second loop of `init_new_rr_objects`, over the new emitters. */
  method InitEmitters(engine: Engine, commands: Commands, emitters: array<EmitterRow>, channel: CallbackChannel)
    requires engine.Valid()
    requires DistinctTrackers(emitters[..])
    modifies engine, commands, emitters, Trackers(emitters[..])
    ensures EmittersDone(engine, commands, emitters, channel, old(emitters[..]), old(IdLists(emitters[..])),
                         old(engine.trace), old(commands.queue), emitters.Length)
  {
    ghost var es := emitters[..];
    ghost var ids0 := IdLists(es);
    ghost var trace0, queue0 := engine.trace, commands.queue;
    var j := 0;
    while j < emitters.Length
      invariant EmittersDone(engine, commands, emitters, channel, es, ids0, trace0, queue0, j)
    {
      assert es[j].rr.playingIds in Trackers(es);
      DistinctAt(es, j);
      InitEmitterAt(engine, commands, emitters, j, channel, es, ids0, trace0, queue0);
      j := j + 1;
    }
  }

  /** `init_new_rr_objects`: every new listener first, then every new emitter,
      the emitter pass starting where the listener pass ends.  It always
      returns `Ok`: a failed SDK call only leaves its row unregistered. */
  method InitNewRrObjects(engine: Engine, commands: Commands, listeners: array<ListenerRow>,
                          emitters: array<EmitterRow>, channel: CallbackChannel) returns (r: Result<()>)
    requires engine.Valid()
    requires DistinctTrackers(emitters[..])
    modifies engine, commands, listeners, emitters, Trackers(emitters[..])
    ensures r == Ok(())
    ensures forall i :: 0 <= i < listeners.Length ==> listeners[i] == ListenerAttached(old(listeners[i]))
    ensures var lp := Sweep(ListenerSteps(engine.oracle.reply, engine.release), old(engine.tick), old(listeners[..]), listeners.Length);
            EmittersDone(engine, commands, emitters, channel, old(emitters[..]), old(IdLists(emitters[..])),
                         old(engine.trace) + lp.calls, old(commands.queue) + lp.commands, emitters.Length)
  {
    ghost var es := emitters[..];
    ghost var ids0 := IdLists(es);
    InitListeners(engine, commands, listeners);
    assert emitters[..] == es;
    assert IdLists(es) == ids0;
    ghost var attached := listeners[..];
    InitEmitters(engine, commands, emitters, channel);
    assert listeners[..] == attached;
    r := Ok(());
  }

  // ------------------------------------------------------------- silence

  /** An emitter the despawn system removes: it asked for it and nothing is playing. */
  predicate Silent(rr: RrEmitter)
    reads rr.playingIds
  {
    rr.despawnOnSilent && rr.playingIds.ids == []
  }

  /** The playing-ID lists of a sequence of emitters. */
  function Lists(es: seq<RrEmitter>): set<PlayingIds> {
    set e | e in es :: e.playingIds
  }

  /** Every silent emitter among `es` knows its entity, as every registered
      emitter does once `init_new_rr_objects` has attached it. */
  predicate SilentKnown(es: seq<RrEmitter>)
    reads Lists(es)
  {
    forall i :: 0 <= i < |es| && Silent(es[i]) ==> es[i].entity.Some?
  }

  /** The despawn commands for the silent emitters among the first `n` of
      `es`, in order. */
  function SilentDespawns(es: seq<RrEmitter>, n: nat): (cmds: seq<Command>)
    requires n <= |es| && SilentKnown(es)
    reads Lists(es)
    ensures |cmds| <= n
    ensures forall c :: c in cmds ==> c.Despawn?
    ensures forall x :: Despawn(x) in cmds <==>
              exists i :: 0 <= i < n && Silent(es[i]) && es[i].entity == Some(x)
    decreases n
  {
    if n == 0 then []
    else
      var last := es[n - 1];
      SilentDespawns(es, n - 1) + (if Silent(last) then [Despawn(last.entity.value)] else [])
  }

  /** `despawn_silent_emitters` over the registered emitters. */
  method DespawnSilentEmitters(emitters: seq<RrEmitter>, commands: Commands) returns (r: Result<()>)
    requires SilentKnown(emitters)
    modifies commands
    ensures r == Ok(())
    ensures commands.queue == old(commands.queue) + SilentDespawns(emitters, |emitters|)
  {
    var i := 0;
    while i < |emitters|
      invariant 0 <= i <= |emitters|
      invariant commands.queue == old(commands.queue) + SilentDespawns(emitters, i)
    {
      var rr := emitters[i];
      ghost var before := SilentDespawns(emitters, i);
      assert i + 1 - 1 == i;
      if rr.despawnOnSilent && rr.playingIds.ids == [] {
        commands.Push(Despawn(rr.entity.value));
        AppendAssoc(old(commands.queue), before, [Despawn(rr.entity.value)]);
        assert unchanged(Lists(emitters));
      }
      i := i + 1;
    }
    r := Ok(());
  }
}
