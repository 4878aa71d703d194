/**
  The state that audio-SDK callbacks touch: the plugin's callback channel,
  an emitter's shared list of playing IDs, and the two kinds of callback
  closure the plugin hands to the SDK.
*/
module Callbacks {
  import opened Types

  /** The unbounded channel of `CallbackChannel`: things the SDK's callback
      thread sends, waiting for the frame's `process_callbacks`.  While the
      plugin's resource holds the receiver a send cannot fail. */
  class CallbackChannel {
    var queue: seq<CallbackInfo>

    constructor ()
      ensures queue == []
    {
      queue := [];
    }

    method TrySend(info: CallbackInfo)
      modifies this
      ensures queue == old(queue) + [info]
    {
      queue := queue + [info];
    }

    /** `try_recv`: the oldest pending item, or None when nothing is pending. */
    method TryRecv() returns (r: Option<CallbackInfo>)
      modifies this
      ensures old(queue) == [] ==> r == None && queue == []
      ensures old(queue) != [] ==> r == Some(old(queue)[0]) && queue == old(queue)[1..]
    {
      if queue == [] {
        r := None;
      } else {
        r := Some(queue[0]);
        queue := queue[1..];
      }
    }
  }

  /** `retain(|&id| id != p)`: `s` without any copy of `p`, others kept in order. */
  function Without(s: seq<PlayingId>, p: PlayingId): (r: seq<PlayingId>)
    ensures multiset(r) == multiset(s)[p := 0]
    ensures forall x :: x in r <==> x in s && x != p
    ensures p !in s ==> r == s
  {
    if s == [] then []
    else
      assert s == [s[0]] + s[1..];
      if s[0] == p then Without(s[1..], p) else [s[0]] + Without(s[1..], p)
  }

  /** Removing commutes with concatenation: the order of the other IDs is kept. */
  lemma {:induction false} WithoutAppend(a: seq<PlayingId>, b: seq<PlayingId>, p: PlayingId)
    ensures Without(a + b, p) == Without(a, p) + Without(b, p)
  {
    if a != [] {
      assert (a + b)[1..] == a[1..] + b;
      WithoutAppend(a[1..], b, p);
    } else {
      assert a + b == b;
    }
  }

  /** Removing twice is removing once. */
  lemma WithoutIdempotent(s: seq<PlayingId>, p: PlayingId)
    ensures Without(Without(s, p), p) == Without(s, p)
  {
  }

  /** A post followed by its own end-of-event leaves the list as a removal
      of that ID from the earlier list. */
  lemma PushThenEnd(s: seq<PlayingId>, p: PlayingId)
    ensures Without(s + [p], p) == Without(s, p)
  {
    WithoutAppend(s, [p], p);
    assert Without([p], p) == [];
  }

  /** `Arc<RwLock<Vec<AkPlayingID>>>`: the playing IDs of one emitter, shared
      by the emitter component and every callback closure posted with it. */
  class PlayingIds {
    var ids: seq<PlayingId>

    constructor ()
      ensures ids == []
    {
      ids := [];
    }

    method Push(id: PlayingId)
      modifies this
      ensures ids == old(ids) + [id]
    {
      ids := ids + [id];
    }

    method RetainOthers(p: PlayingId)
      modifies this
      ensures ids == Without(old(ids), p)
    {
      ids := Without(ids, p);
    }
  }

  /** The closures passed to `post_with_callback`.
      Forward: the fire-and-forget post sends every callback to the channel.
      Track: an emitter's post optionally forwards, then drops the playing ID
      from the emitter's list when the event ends. */
  datatype Callback =
    | Forward(channel: CallbackChannel)
    | Track(ids: PlayingIds, forward: Option<CallbackChannel>)

  function Footprint(cb: Callback): set<object> {
    match cb
    case Forward(ch) => {ch}
    case Track(ids, fwd) => {ids} + (if fwd.Some? then {fwd.value} else {})
  }

  /** The SDK running a closure on one callback. */
  method Invoke(cb: Callback, info: CallbackInfo)
    modifies Footprint(cb)
    ensures cb.Forward? ==> cb.channel.queue == old(cb.channel.queue) + [info]
    ensures cb.Track? && cb.forward.Some? ==>
              cb.forward.value.queue == old(cb.forward.value.queue) + [info]
    ensures cb.Track? ==>
              cb.ids.ids == if IsEndOfEvent(info) then Without(old(cb.ids.ids), info.playingId)
                            else old(cb.ids.ids)
  {
    match cb
    case Forward(ch) =>
      ch.TrySend(info);
    case Track(ids, fwd) =>
      if fwd.Some? {
        fwd.value.TrySend(info);
      }
      if IsEndOfEvent(info) {
        ids.RetainOthers(info.playingId);
      }
  }
}
