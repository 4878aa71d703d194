/**
  The audio SDK as the plugin sees it: every call is an opaque operation
  whose answer comes from an oracle and which is recorded, in order, in a
  call trace.  Nothing of what the SDK does internally is modelled.
*/
module Sdk {
  import opened Types
  import opened Callbacks

  /** One call into the SDK, with the arguments the plugin controls. */
  datatype Call =
    | RegisterGameObj(obj: GameObjectId)
    | RegisterNamedGameObj(obj: GameObjectId, name: string)
    | AddDefaultListener(obj: GameObjectId)
    | SetPosition(obj: GameObjectId, at: AkTransform)
    | PostEvent(obj: GameObjectId, event: AkId, flags: CallbackMask, callback: Option<Callback>)
    | UnregisterGameObj(obj: GameObjectId)
    | StopAll(target: Option<GameObjectId>)
    | UnregisterAllGameObj
    | RenderAudio(allowSyncRender: bool)
    | LoadBank(bank: string)
    | MemoryMgrInit
    | StreamMgrInit(banksFolder: Path)
    | SetCurrentLanguage(language: string)
    | SoundEngineInit
    | MusicEngineInit
    | CommsInit
    | CommsTerm
    | MusicEngineTerm
    | SoundEngineTerm
    | StreamMgrTerm
    | MemoryMgrTerm

  /** The game object a call is about, if any. */
  function Target(c: Call): Option<GameObjectId> {
    match c
    case RegisterGameObj(obj) => Some(obj)
    case RegisterNamedGameObj(obj, _) => Some(obj)
    case AddDefaultListener(obj) => Some(obj)
    case SetPosition(obj, _) => Some(obj)
    case PostEvent(obj, _, _, _) => Some(obj)
    case UnregisterGameObj(obj) => Some(obj)
    case StopAll(target) => target
    case _ => None
  }

  /** What the closed SDK answers.  `reply(k, c)` is the status of `c` when it
      is the call at position `k` of the trace; `playingIdAt(k)` is the ID a
      successful post at position `k` returns; `initializedAt(k)` is what
      `is_initialized` says after `k` calls. */
  datatype Oracle = Oracle(
    reply: (nat, Call) -> Result<()>,
    playingIdAt: nat -> PlayingId,
    initializedAt: nat -> bool)

  /** The answer to a post at position `k`. */
  function PostReply(o: Oracle, k: nat, c: Call): Result<PlayingId> {
    match o.reply(k, c)
    case Ok(_) => Ok(o.playingIdAt(k))
    case Err(e) => Err(e)
  }

  /** The SDK handle.  `release` is the `wwrelease` build (no named game
      objects, no profiler communication). */
  class Engine {
    const release: bool
    const oracle: Oracle
    var tick: nat
    ghost var trace: seq<Call>

    ghost predicate Valid()
      reads this
    {
      tick == |trace|
    }

    constructor (release: bool, oracle: Oracle)
      ensures Valid() && trace == []
      ensures this.release == release && this.oracle == oracle
    {
      this.release := release;
      this.oracle := oracle;
      tick := 0;
      trace := [];
    }

    /** A call that reports a status. */
    method Invoke(c: Call) returns (r: Result<()>)
      requires Valid()
      modifies this
      ensures Valid() && trace == old(trace) + [c]
      ensures r == oracle.reply(old(tick), c)
    {
      r := oracle.reply(tick, c);
      trace := trace + [c];
      tick := tick + 1;
    }

    /** A call that returns nothing. */
    method Notify(c: Call)
      requires Valid()
      modifies this
      ensures Valid() && trace == old(trace) + [c]
    {
      trace := trace + [c];
      tick := tick + 1;
    }

    /** A post, which returns a playing ID on success. */
    method Post(c: Call) returns (r: Result<PlayingId>)
      requires Valid() && c.PostEvent?
      modifies this
      ensures Valid() && trace == old(trace) + [c]
      ensures r == PostReply(oracle, old(tick), c)
    {
      r := PostReply(oracle, tick, c);
      trace := trace + [c];
      tick := tick + 1;
    }

    /** `sound_engine::is_initialized`, a query that changes nothing. */
    method IsInitialized() returns (b: bool)
      ensures b == oracle.initializedAt(tick)
    {
      b := oracle.initializedAt(tick);
    }
  }

  /** Every call of `steps`, made from position `k` on, succeeds. */
  ghost predicate AllOk(reply: (nat, Call) -> Result<()>, k: nat, steps: seq<Call>) {
    forall i :: 0 <= i < |steps| ==> reply(k + i, steps[i]).Ok?
  }

  /** How a chain of `?`-propagated calls ends: how many calls were made and
      the status the chain returns. */
  datatype Run = Run(made: nat, status: Result<()>)

  /** Making `steps` one after another from position `k`, stopping at the
      first error and returning it (Rust's `?`). */
  function RunSteps(reply: (nat, Call) -> Result<()>, k: nat, steps: seq<Call>): (r: Run)
    ensures r.made <= |steps|
    ensures r.status.Ok? ==> r.made == |steps|
    ensures steps != [] ==> 1 <= r.made
    decreases |steps|
  {
    if steps == [] then Run(0, Ok(()))
    else if reply(k, steps[0]).Err? then Run(1, reply(k, steps[0]))
    else
      var rest := RunSteps(reply, k + 1, steps[1..]);
      Run(1 + rest.made, rest.status)
  }

  /** A chain succeeds exactly when every one of its calls does; when it
      fails, every call before the last one made succeeded and the last one
      made returned the chain's error. */
  lemma {:induction false} RunStopsAtFirstError(reply: (nat, Call) -> Result<()>, k: nat, steps: seq<Call>)
    ensures var r := RunSteps(reply, k, steps);
            && (r.status.Ok? <==> AllOk(reply, k, steps))
            && (r.status.Err? ==>
                  1 <= r.made && AllOk(reply, k, steps[..r.made - 1])
                  && reply(k + r.made - 1, steps[r.made - 1]) == r.status)
    decreases |steps|
  {
    if steps != [] && reply(k + 0, steps[0]).Ok? {
      RunStopsAtFirstError(reply, k + 1, steps[1..]);
      var rest := RunSteps(reply, k + 1, steps[1..]);
      assert forall i :: 1 <= i < |steps| ==> steps[1..][i - 1] == steps[i];
      if rest.status.Err? {
        assert steps[..rest.made + 1][1..] == steps[1..][..rest.made];
      }
    }
  }

  /** A chain whose first `i` calls succeed and whose call `i` fails makes
      `i + 1` calls and returns that call's error. */
  lemma {:induction false} RunErrAt(reply: (nat, Call) -> Result<()>, k: nat, steps: seq<Call>, i: nat)
    requires i < |steps| && AllOk(reply, k, steps[..i]) && reply(k + i, steps[i]).Err?
    ensures RunSteps(reply, k, steps) == Run(i + 1, reply(k + i, steps[i]))
    decreases i
  {
    if i == 0 {
      assert reply(k, steps[0]).Err?;
    } else {
      assert steps[..i][0] == steps[0];
      assert reply(k + 0, steps[..i][0]).Ok?;
      var rest := steps[1..];
      assert rest[i - 1] == steps[i] && k + 1 + (i - 1) == k + i;
      assert rest[..i - 1] == steps[..i][1..];
      AllOkTail(reply, k, steps[..i]);
      RunErrAt(reply, k + 1, rest, i - 1);
    }
  }

  /** The calls after the first of a successful chain succeed. */
  lemma AllOkTail(reply: (nat, Call) -> Result<()>, k: nat, steps: seq<Call>)
    requires steps != [] && AllOk(reply, k, steps)
    ensures AllOk(reply, k + 1, steps[1..])
  {
    forall j | 0 <= j < |steps| - 1
      ensures reply(k + 1 + j, steps[1..][j]).Ok?
    {
      assert steps[1..][j] == steps[j + 1];
      assert reply(k + (j + 1), steps[j + 1]).Ok?;
    }
  }

  /** A successful chain extended by a successful call is a successful chain. */
  lemma AllOkSnoc(reply: (nat, Call) -> Result<()>, k: nat, steps: seq<Call>, c: Call)
    requires AllOk(reply, k, steps) && reply(k + |steps|, c).Ok?
    ensures AllOk(reply, k, steps + [c])
  {
    forall i | 0 <= i < |steps| + 1
      ensures reply(k + i, (steps + [c])[i]).Ok?
    {
      if i < |steps| {
        assert (steps + [c])[i] == steps[i];
      }
    }
  }

  /** A chain whose calls all succeed makes them all and succeeds. */
  lemma RunAllOk(reply: (nat, Call) -> Result<()>, k: nat, steps: seq<Call>)
    requires AllOk(reply, k, steps)
    ensures RunSteps(reply, k, steps) == Run(|steps|, Ok(()))
  {
    RunStopsAtFirstError(reply, k, steps);
    var r := RunSteps(reply, k, steps);
    assert r.status.Ok? && r.status.value == ();
  }
}
