/**
  Fire-and-forget posting: `PostEventAtLocation` registers a temporary game
  object, places it, posts the event on it and unregisters it again.
*/
module SoundEngine {
  import opened Types
  import opened Callbacks
  import opened Sdk
  import opened Transforms

  // ------------------------------------------------------------- flags

  /** The callback mask held by the wrapped post builder and the `has_flags`
      field beside it. */
  datatype Flagging = Flagging(mask: CallbackMask, hasFlags: bool)

  /** `has_flags` tells the truth about the mask. */
  predicate Consistent(s: Flagging) {
    s.hasFlags == (s.mask != 0)
  }

  /** `flags(f)`: the mask becomes `f`; `has_flags` is whether `f` is non-zero. */
  function SetFlagging(f: CallbackMask): (s: Flagging)
    ensures s.mask == f && s.hasFlags == (f != 0)
    ensures Consistent(s)
  {
    Flagging(f, f != 0)
  }

  /** `add_flags(f)`: `f` is OR'd into the mask, but `has_flags` is decided
      by `f` alone. */
  function AddFlagging(s: Flagging, f: CallbackMask): Flagging {
    Flagging(s.mask | f, f != 0)
  }

  /** Adding flags accumulates them in the mask, and what `has_flags` ends up
      as depends only on the last argument, not on the earlier mask. */
  lemma AddFlaggingMeaning(s1: Flagging, s2: Flagging, f: CallbackMask)
    ensures AddFlagging(s1, f).hasFlags == AddFlagging(s2, f).hasFlags == (f != 0)
  {
  }

  /** `add_flags` keeps `has_flags` truthful exactly when it adds a non-zero
      mask or the mask was empty: `add_flags(0)` after non-zero flags leaves
      flags in the mask with `has_flags` false. */
  lemma AddFlaggingConsistency(s: Flagging, f: CallbackMask)
    requires Consistent(s)
    ensures Consistent(AddFlagging(s, f)) <==> f != 0 || s.mask == 0
  {
    if f == 0 {
      assert s.mask | f == s.mask;
    } else {
      assert (s.mask | f) & f == f;
    }
  }

  // ------------------------------------------------------------- posting

  /** The post call `post` makes: a plain post without flags or without a
      channel, a post whose callback forwards to the channel otherwise.  The
      mask is passed either way. */
  function PostCall(tmpId: GameObjectId, event: AkId, s: Flagging, channel: Option<CallbackChannel>): Call {
    match (s.hasFlags, channel)
    case (false, _) => Sdk.PostEvent(tmpId, event, s.mask, None)
    case (true, None) => Sdk.PostEvent(tmpId, event, s.mask, None)
    case (true, Some(ch)) => Sdk.PostEvent(tmpId, event, s.mask, Some(Forward(ch)))
  }

  /** A callback is attached exactly when there are flags and a channel, and
      then it forwards to that channel; the event and mask are passed as they are. */
  lemma PostCallMeaning(tmpId: GameObjectId, event: AkId, s: Flagging, channel: Option<CallbackChannel>)
    ensures var c := PostCall(tmpId, event, s, channel);
            && c.PostEvent? && c.obj == tmpId && c.event == event && c.flags == s.mask
            && (c.callback.Some? <==> s.hasFlags && channel.Some?)
            && (c.callback.Some? ==> c.callback == Some(Forward(channel.value)))
  {
  }

  /** The calls `post` makes and what it returns. */
  datatype AtLocation = AtLocation(calls: seq<Call>, result: Result<PlayingId>)

  /** `post` with the SDK's call at position `k` first: register the temporary
      object, then set its position, each returning its error on failure;
      then post and unregister, returning what the post returned. */
  function PostAtLocation(o: Oracle, k: nat, tmpId: GameObjectId, event: AkId, s: Flagging,
                          at: AkTransform, channel: Option<CallbackChannel>): AtLocation
  {
    var register := RegisterGameObj(tmpId);
    var position := SetPosition(tmpId, at);
    if o.reply(k, register).Err? then
      AtLocation([register], Err(o.reply(k, register).error))
    else if o.reply(k + 1, position).Err? then
      AtLocation([register, position], Err(o.reply(k + 1, position).error))
    else
      var post := PostCall(tmpId, event, s, channel);
      AtLocation([register, position, post, UnregisterGameObj(tmpId)], PostReply(o, k + 2, post))
  }

  /** Every call is about the temporary object; a failed register or set
      position ends the post with that error and no post or unregister; once
      both succeed, the post is made and the object is unregistered exactly
      once after it, and the post's answer is returned. */
  lemma PostAtLocationMeaning(o: Oracle, k: nat, tmpId: GameObjectId, event: AkId, s: Flagging,
                              at: AkTransform, channel: Option<CallbackChannel>)
    ensures var a := PostAtLocation(o, k, tmpId, event, s, at, channel);
            var register, position := RegisterGameObj(tmpId), SetPosition(tmpId, at);
            && (forall i :: 0 <= i < |a.calls| ==> Target(a.calls[i]) == Some(tmpId))
            && a.calls[..1] == [register]
            && (o.reply(k, register).Err? ==>
                  a.calls == [register] && a.result.Err? && a.result.error == o.reply(k, register).error)
            && (o.reply(k, register).Ok? && o.reply(k + 1, position).Err? ==>
                  a.calls == [register, position] && a.result.Err?
                  && a.result.error == o.reply(k + 1, position).error)
            && (o.reply(k, register).Ok? && o.reply(k + 1, position).Ok? ==>
                  && a.calls == [register, position, PostCall(tmpId, event, s, channel), UnregisterGameObj(tmpId)]
                  && a.result == PostReply(o, k + 2, a.calls[2]))
            && (forall i :: 0 <= i < |a.calls| && a.calls[i].UnregisterGameObj? ==> i == 3)
            && ((exists i :: 0 <= i < |a.calls| && a.calls[i].PostEvent?) <==> |a.calls| == 4)
  {
    var a := PostAtLocation(o, k, tmpId, event, s, at, channel);
    if |a.calls| == 4 {
      assert a.calls[2].PostEvent?;
    }
  }

  /** The unregister's answer never reaches the caller: two SDKs that answer
      the first three calls alike give the same result. */
  lemma UnregisterIgnored(o1: Oracle, o2: Oracle, k: nat, tmpId: GameObjectId, event: AkId, s: Flagging,
                          at: AkTransform, channel: Option<CallbackChannel>)
    requires o1.reply(k, RegisterGameObj(tmpId)) == o2.reply(k, RegisterGameObj(tmpId))
    requires o1.reply(k + 1, SetPosition(tmpId, at)) == o2.reply(k + 1, SetPosition(tmpId, at))
    requires var post := PostCall(tmpId, event, s, channel);
             o1.reply(k + 2, post) == o2.reply(k + 2, post) && o1.playingIdAt(k + 2) == o2.playingIdAt(k + 2)
    ensures PostAtLocation(o1, k, tmpId, event, s, at, channel) == PostAtLocation(o2, k, tmpId, event, s, at, channel)
  {
  }

  /** The builder for one fire-and-forget post.  `tmpId` is the temporary
      game object, taken by the source from an address and a parameter here. */
  class PostEventAtLocation {
    const tmpId: GameObjectId
    const event: AkId
    const at: AkTransform
    var flags: CallbackMask
    var hasFlags: bool

    /** `new` at a local transform. */
    constructor (event: AkId, at: Transform, tmpId: GameObjectId)
      ensures this.event == event && this.at == LocalToAk(at) && this.tmpId == tmpId
      ensures this.at.orientationTop == at.up
      ensures flags == 0 && !hasFlags
    {
      this.event := event;
      this.at := LocalToAk(at);
      this.tmpId := tmpId;
      flags := 0;
      hasFlags := false;
    }

    /** `new` at a global transform. */
    constructor AtGlobal(event: AkId, at: GlobalTransform, tmpId: GameObjectId)
      ensures this.event == event && this.at == GlobalToAk(at) && this.tmpId == tmpId
      ensures this.at.orientationTop == at.up
      ensures flags == 0 && !hasFlags
    {
      this.event := event;
      this.at := GlobalToAk(at);
      this.tmpId := tmpId;
      flags := 0;
      hasFlags := false;
    }

    function State(): Flagging
      reads this
    {
      Flagging(flags, hasFlags)
    }

    method AddFlags(f: CallbackMask)
      modifies this
      ensures State() == AddFlagging(old(State()), f)
    {
      hasFlags := f > 0;
      flags := flags | f;
    }

    method Flags(f: CallbackMask)
      modifies this
      ensures State() == SetFlagging(f)
    {
      hasFlags := f > 0;
      flags := f;
    }

    method Post(engine: Engine, channel: Option<CallbackChannel>) returns (r: Result<PlayingId>)
      requires engine.Valid()
      modifies engine
      ensures engine.Valid()
      ensures var a := PostAtLocation(engine.oracle, old(engine.tick), tmpId, event, State(), at, channel);
              engine.trace == old(engine.trace) + a.calls && r == a.result
    {
      var registered := engine.Invoke(RegisterGameObj(tmpId));
      if registered.Err? {
        return Err(registered.error);
      }
      var placed := engine.Invoke(SetPosition(tmpId, at));
      if placed.Err? {
        return Err(placed.error);
      }
      var postResult: Result<PlayingId>;
      match (hasFlags, channel) {
        case (false, _) =>
          postResult := engine.Post(Sdk.PostEvent(tmpId, event, flags, None));
        case (true, None) =>
          postResult := engine.Post(Sdk.PostEvent(tmpId, event, flags, None));
        case (true, Some(ch)) =>
          postResult := engine.Post(Sdk.PostEvent(tmpId, event, flags, Some(Forward(ch))));
      }
      var unregistered := engine.Invoke(UnregisterGameObj(tmpId));
      return postResult;
    }
  }
}
