/**
  The plugin's own lifecycle: its settings, where it looks for the
  generated banks, the order in which it starts and stops the SDK's
  subsystems, the per-frame render-or-terminate decision, the draining of
  pending callbacks into the event stream, and the start-up system that
  loads the init bank and spawns the default listener.
*/
module Plugin {
  import opened Types
  import opened Callbacks
  import opened Sdk
  import opened EmitterListener

  // ------------------------------------------------------------- settings

  /** `RrisePluginSettings`. */
  datatype PluginSettings = PluginSettings(initLanguage: string, banksLocation: Path, spawnDefaultListener: bool)

  /** The default settings: US English, banks under `soundbanks`, and a
      default listener. */
  function DefaultSettings(): (s: PluginSettings)
    ensures s.initLanguage == "English(US)"
    ensures s.banksLocation == RelativePath(["soundbanks"])
    ensures s.spawnDefaultListener
  {
    PluginSettings("English(US)", RelativePath(["soundbanks"]), true)
  }

  /** The operating systems the plugin builds for. */
  datatype TargetOs = Windows | Linux

  /** The per-platform sub-folder of the generated banks. */
  function PlatformFolder(os: TargetOs): string {
    match os
    case Windows => "Windows"
    case Linux => "Linux"
  }

  /** The banks folder handed to the streaming manager: the platform folder
      under the configured location, put under the asset folder of the
      game's root when it is still relative. */
  function BanksFolder(location: Path, os: TargetOs, root: Path, assetFolder: Path): Path {
    var gen := Join(location, RelativePath([PlatformFolder(os)]));
    if !gen.absolute then Join(Join(root, assetFolder), gen) else gen
  }

  /** An absolute location is used as it is; a relative one is put under
      `root/assetFolder`; the folder always ends in the platform's name, and
      it is absolute exactly when one of the three paths is. */
  lemma BanksFolderMeaning(location: Path, os: TargetOs, root: Path, assetFolder: Path)
    ensures var p := BanksFolder(location, os, root, assetFolder);
            var gen := Path(location.absolute, location.parts + [PlatformFolder(os)]);
            && (location.absolute ==> p == gen)
            && (!location.absolute ==> p == Join(root, Join(assetFolder, gen)))
            && |p.parts| > 0 && p.parts[|p.parts| - 1] == PlatformFolder(os)
            && (p.absolute <==> location.absolute || assetFolder.absolute || root.absolute)
  {
    var gen := Path(location.absolute, location.parts + [PlatformFolder(os)]);
    if !location.absolute {
      JoinAssociative(root, assetFolder, gen);
      var p := Join(root, Join(assetFolder, gen));
      if !assetFolder.absolute && !root.absolute {
        assert p.parts == root.parts + (assetFolder.parts + gen.parts);
      } else if !assetFolder.absolute {
        assert p.parts == root.parts + (assetFolder.parts + gen.parts);
      } else {
        assert p.parts == assetFolder.parts + gen.parts;
      }
    }
  }

  /** With the default settings the banks are in `root/assetFolder/soundbanks/<platform>`. */
  lemma DefaultBanksFolder(os: TargetOs, root: Path, assetFolder: Path)
    ensures BanksFolder(DefaultSettings().banksLocation, os, root, assetFolder)
            == Join(Join(root, assetFolder), RelativePath(["soundbanks", PlatformFolder(os)]))
  {
    assert ["soundbanks"] + [PlatformFolder(os)] == ["soundbanks", PlatformFolder(os)];
  }

  // ------------------------------------------------------------- subsystems

  /** What a chain of SDK calls did: the calls made and what it returned. */
  datatype Effect = Effect(calls: seq<Call>, result: Result<()>)

  /** The SDK parts the plugin starts and stops. */
  datatype Subsystem = Memory | Streaming | Sound | Music | Comms

  /** The subsystem a call starts, if any. */
  function Starts(c: Call): Option<Subsystem> {
    match c
    case MemoryMgrInit => Some(Memory)
    case StreamMgrInit(_) => Some(Streaming)
    case SoundEngineInit => Some(Sound)
    case MusicEngineInit => Some(Music)
    case CommsInit => Some(Comms)
    case _ => None
  }

  /** The subsystem a call stops, if any. */
  function Stops(c: Call): Option<Subsystem> {
    match c
    case MemoryMgrTerm => Some(Memory)
    case StreamMgrTerm => Some(Streaming)
    case SoundEngineTerm => Some(Sound)
    case MusicEngineTerm => Some(Music)
    case CommsTerm => Some(Comms)
    case _ => None
  }

  /** The subsystems present in `xs`, in order. */
  function Present(xs: seq<Option<Subsystem>>): seq<Subsystem> {
    if xs == [] then []
    else (if xs[0].Some? then [xs[0].value] else []) + Present(xs[1..])
  }

  lemma NothingPresent()
    ensures Present([None, None]) == []
  {
    var none: seq<Option<Subsystem>> := [None, None];
    assert none[1..] == [None];
    assert none[1..][1..] == [];
  }

  /** Filtering two lists one after the other is filtering their concatenation. */
  lemma {:induction false} PresentAppend(a: seq<Option<Subsystem>>, b: seq<Option<Subsystem>>)
    ensures Present(a + b) == Present(a) + Present(b)
  {
    if a == [] {
      assert a + b == b;
    } else {
      assert (a + b)[1..] == a[1..] + b;
      PresentAppend(a[1..], b);
    }
  }

  /** The subsystems `calls` start, in order. */
  function Started(calls: seq<Call>): seq<Subsystem> {
    Present(seq(|calls|, i requires 0 <= i < |calls| => Starts(calls[i])))
  }

  /** The subsystems `calls` stop, in order. */
  function Stopped(calls: seq<Call>): seq<Subsystem> {
    Present(seq(|calls|, i requires 0 <= i < |calls| => Stops(calls[i])))
  }

  function Reverse<T>(s: seq<T>): (r: seq<T>)
    ensures |r| == |s|
    ensures forall i :: 0 <= i < |s| ==> r[i] == s[|s| - 1 - i]
  {
    if s == [] then [] else Reverse(s[1..]) + [s[0]]
  }

  /** The calls of `init_sound_engine` before its final check: memory, the
      streaming manager on the banks folder, the language, the sound engine,
      the music engine, and profiler communication outside release builds. */
  function InitSteps(release: bool, banksFolder: Path, language: string): seq<Call> {
    [MemoryMgrInit, StreamMgrInit(banksFolder), SetCurrentLanguage(language), SoundEngineInit, MusicEngineInit]
    + (if release then [] else [CommsInit])
  }

  /** `init_sound_engine` from position `k`: the first failing call's error,
      or AK_Fail when every call succeeded but the engine does not report
      itself initialized afterwards. */
  function InitOutcome(o: Oracle, k: nat, steps: seq<Call>): Effect {
    var run := RunSteps(o.reply, k, steps);
    if run.status.Err? then Effect(steps[..run.made], run.status)
    else Effect(steps, if o.initializedAt(k + |steps|) then Ok(()) else Err(Fail))
  }

  /** Initialisation succeeds exactly when every call succeeds and the engine
      is initialized afterwards; it fails with AK_Fail after making every
      call when only the final check fails; otherwise it stops at the first
      failing call and returns that call's error. */
  lemma InitOutcomeMeaning(o: Oracle, k: nat, steps: seq<Call>)
    ensures var e := InitOutcome(o, k, steps);
            && (e.result.Ok? <==> AllOk(o.reply, k, steps) && o.initializedAt(k + |steps|))
            && (AllOk(o.reply, k, steps) ==> e.calls == steps)
            && (AllOk(o.reply, k, steps) && !o.initializedAt(k + |steps|) ==> e.result == Err(Fail))
            && (!AllOk(o.reply, k, steps) ==>
                  exists i :: 0 <= i < |steps| && AllOk(o.reply, k, steps[..i])
                              && e.calls == steps[..i + 1] && e.result == o.reply(k + i, steps[i]))
  {
    RunStopsAtFirstError(o.reply, k, steps);
    var run := RunSteps(o.reply, k, steps);
    if run.status.Err? {
      var i := run.made - 1;
      assert AllOk(o.reply, k, steps[..i]) && o.reply(k + i, steps[i]) == run.status;
    }
  }

  /** Initialisation starts memory, streaming, sound and music in that order,
      then profiler communication outside release builds. */
  lemma InitOrder(release: bool, banksFolder: Path, language: string)
    ensures Started(InitSteps(release, banksFolder, language))
            == [Memory, Streaming, Sound, Music] + (if release then [] else [Comms])
  {
    InitStarts(release, banksFolder, language);
    PresentOfStarts(release);
  }

  lemma PresentOfStarts(release: bool)
    ensures Present([Some(Memory), Some(Streaming), None, Some(Sound), Some(Music)]
                    + (if release then [] else [Some(Comms)]))
            == [Memory, Streaming, Sound, Music] + (if release then [] else [Comms])
  {
    var head := [Some(Memory), Some(Streaming), None, Some(Sound), Some(Music)];
    PresentAppend(head, if release then [] else [Some(Comms)]);
    assert Present(head) == [Memory, Streaming, Sound, Music];
  }

  lemma InitStarts(release: bool, banksFolder: Path, language: string)
    ensures var steps := InitSteps(release, banksFolder, language);
            seq(|steps|, i requires 0 <= i < |steps| => Starts(steps[i]))
            == [Some(Memory), Some(Streaming), None, Some(Sound), Some(Music)]
               + (if release then [] else [Some(Comms)])
  {
    InitStepsShape(release, banksFolder, language);
  }

  /** The calls of `term_sound_engine` when nothing fails: stop everything,
      unregister every object, then stop communication (outside release
      builds), music, sound, streaming and memory. */
  function TermSteps(release: bool): seq<Call> {
    [StopAll(None), UnregisterAllGameObj]
    + (if release then [] else [CommsTerm])
    + [MusicEngineTerm, SoundEngineTerm, StreamMgrTerm, MemoryMgrTerm]
  }

  /** `term_sound_engine` from position `k`: a failing unregister-all ends it
      with that error before anything is terminated. */
  function TermOutcome(o: Oracle, k: nat, release: bool): Effect {
    var unregister := o.reply(k + 1, UnregisterAllGameObj);
    if unregister.Err? then Effect([StopAll(None), UnregisterAllGameObj], unregister)
    else Effect(TermSteps(release), Ok(()))
  }

  /** Termination returns the unregister-all status; on success it stops the
      subsystems in the reverse of the order initialisation started them,
      and on failure it has stopped none. */
  lemma TermOutcomeMeaning(o: Oracle, k: nat, release: bool, banksFolder: Path, language: string)
    ensures var e := TermOutcome(o, k, release);
            && e.result == o.reply(k + 1, UnregisterAllGameObj)
            && e.calls[..2] == [StopAll(None), UnregisterAllGameObj]
            && (e.result.Ok? ==> Stopped(e.calls) == Reverse(Started(InitSteps(release, banksFolder, language))))
            && (e.result.Err? ==> Stopped(e.calls) == [])
  {
    var e := TermOutcome(o, k, release);
    assert e.calls[..2] == [StopAll(None), UnregisterAllGameObj];
    if e.result.Ok? {
      InitOrder(release, banksFolder, language);
      TermOrder(release);
      ReverseStarted(release);
      assert o.reply(k + 1, UnregisterAllGameObj).value == ();
    } else {
      assert e.calls == [StopAll(None), UnregisterAllGameObj];
      StoppedHead();
    }
  }

  lemma StoppedHead()
    ensures Stopped([StopAll(None), UnregisterAllGameObj]) == []
  {
    var c := [StopAll(None), UnregisterAllGameObj];
    assert seq(|c|, i requires 0 <= i < |c| => Stops(c[i])) == [None, None];
    NothingPresent();
  }

  lemma ReverseStarted(release: bool)
    ensures Reverse([Memory, Streaming, Sound, Music] + (if release then [] else [Comms]))
            == (if release then [] else [Comms]) + [Music, Sound, Streaming, Memory]
  {
    var s := [Memory, Streaming, Sound, Music] + (if release then [] else [Comms]);
    var r := Reverse(s);
    if release {
      assert r[0] == s[3] && r[1] == s[2] && r[2] == s[1] && r[3] == s[0];
    } else {
      assert r[0] == s[4] && r[1] == s[3] && r[2] == s[2] && r[3] == s[1] && r[4] == s[0];
    }
  }

  lemma TermOrder(release: bool)
    ensures Stopped(TermSteps(release))
            == (if release then [] else [Comms]) + [Music, Sound, Streaming, Memory]
  {
    TermStops(release);
    PresentOfStops(release);
  }

  lemma PresentOfStops(release: bool)
    ensures Present([None, None] + (if release then [] else [Some(Comms)])
                    + [Some(Music), Some(Sound), Some(Streaming), Some(Memory)])
            == (if release then [] else [Comms]) + [Music, Sound, Streaming, Memory]
  {
    var comms: seq<Option<Subsystem>> := if release then [] else [Some(Comms)];
    var tail := [Some(Music), Some(Sound), Some(Streaming), Some(Memory)];
    PresentAppend([None, None] + comms, tail);
    PresentAppend([None, None], comms);
    NothingPresent();
    assert Present(tail) == [Music, Sound, Streaming, Memory];
  }

  lemma TermStops(release: bool)
    ensures var steps := TermSteps(release);
            seq(|steps|, i requires 0 <= i < |steps| => Stops(steps[i]))
            == [None, None] + (if release then [] else [Some(Comms)])
               + [Some(Music), Some(Sound), Some(Streaming), Some(Memory)]
  {
    TermStepsShape(release);
  }

  lemma TermStepsShape(release: bool)
    ensures var steps := TermSteps(release);
            var c := if release then 0 else 1;
            && |steps| == 6 + c
            && steps[0] == StopAll(None) && steps[1] == UnregisterAllGameObj
            && (!release ==> steps[2] == CommsTerm)
            && steps[2 + c] == MusicEngineTerm && steps[3 + c] == SoundEngineTerm
            && steps[4 + c] == StreamMgrTerm && steps[5 + c] == MemoryMgrTerm
  {
  }

  /** One `?`-propagated call of `init_sound_engine`: call `i` of `steps`,
      made after the first `i` succeeded. */
  method InitCall(engine: Engine, c: Call, ghost k: nat, ghost steps: seq<Call>, ghost i: nat, ghost trace0: seq<Call>)
    returns (r: Result<()>)
    requires engine.Valid() && i < |steps| && steps[i] == c
    requires engine.trace == trace0 + steps[..i] && engine.tick == k + i
    requires AllOk(engine.oracle.reply, k, steps[..i])
    modifies engine
    ensures engine.Valid() && engine.trace == trace0 + steps[..i + 1]
    ensures r.Err? ==> InitOutcome(engine.oracle, k, steps) == Effect(steps[..i + 1], r)
    ensures r.Ok? ==> AllOk(engine.oracle.reply, k, steps[..i + 1])
  {
    r := engine.Invoke(c);
    assert steps[..i + 1] == steps[..i] + [c];
    if r.Err? {
      RunErrAt(engine.oracle.reply, k, steps, i);
    } else {
      AllOkSnoc(engine.oracle.reply, k, steps[..i], c);
    }
  }

  lemma InitStepsShape(release: bool, banksFolder: Path, language: string)
    ensures var steps := InitSteps(release, banksFolder, language);
            && |steps| == (if release then 5 else 6)
            && steps[0] == MemoryMgrInit && steps[1] == StreamMgrInit(banksFolder)
            && steps[2] == SetCurrentLanguage(language) && steps[3] == SoundEngineInit
            && steps[4] == MusicEngineInit && (!release ==> steps[5] == CommsInit)
  {
  }

  /** What `init_sound_engine` returns when every call succeeded. */
  lemma InitSucceeded(o: Oracle, k: nat, steps: seq<Call>)
    requires AllOk(o.reply, k, steps)
    ensures InitOutcome(o, k, steps) == Effect(steps, if o.initializedAt(k + |steps|) then Ok(()) else Err(Fail))
  {
    RunAllOk(o.reply, k, steps);
  }

  /** The last part of `init_sound_engine`, once every call succeeded: AK_Fail
      unless the engine reports itself initialized. */
  method CheckInitialized(engine: Engine, ghost k: nat, ghost steps: seq<Call>, ghost trace0: seq<Call>)
    returns (r: Result<()>)
    requires engine.Valid() && engine.trace == trace0 + steps[..|steps|] && engine.tick == k + |steps|
    requires AllOk(engine.oracle.reply, k, steps[..|steps|])
    ensures var e := InitOutcome(engine.oracle, k, steps);
            engine.trace == trace0 + e.calls && r == e.result
  {
    assert steps[..|steps|] == steps;
    InitSucceeded(engine.oracle, k, steps);
    var initialized := engine.IsInitialized();
    if !initialized {
      return Err(Fail);
    }
    return Ok(());
  }

  /** `init_sound_engine`.  `root` and `assetFolder` are the game's root
      path and the asset server's folder; `os` is the build target. */
  method InitSoundEngine(engine: Engine, settings: PluginSettings, os: TargetOs, root: Path, assetFolder: Path)
    returns (r: Result<()>)
    requires engine.Valid()
    modifies engine
    ensures engine.Valid()
    ensures var folder := BanksFolder(settings.banksLocation, os, root, assetFolder);
            var e := InitOutcome(engine.oracle, old(engine.tick), InitSteps(engine.release, folder, settings.initLanguage));
            engine.trace == old(engine.trace) + e.calls && r == e.result
  {
    ghost var k, t0 := engine.tick, engine.trace;
    ghost var folder := BanksFolder(settings.banksLocation, os, root, assetFolder);
    ghost var steps := InitSteps(engine.release, folder, settings.initLanguage);
    InitStepsShape(engine.release, folder, settings.initLanguage);
    assert steps[..0] == [];

    r := InitCall(engine, MemoryMgrInit, k, steps, 0, t0);
    if r.Err? {
      return;
    }

    var genBanksFolder := Join(settings.banksLocation, RelativePath([PlatformFolder(os)]));
    if !genBanksFolder.absolute {
      genBanksFolder := Join(Join(root, assetFolder), genBanksFolder);
    }
    assert genBanksFolder == folder;
    r := InitCall(engine, StreamMgrInit(genBanksFolder), k, steps, 1, t0);
    if r.Err? {
      return;
    }
    r := InitCall(engine, SetCurrentLanguage(settings.initLanguage), k, steps, 2, t0);
    if r.Err? {
      return;
    }
    r := InitCall(engine, SoundEngineInit, k, steps, 3, t0);
    if r.Err? {
      return;
    }
    r := InitCall(engine, MusicEngineInit, k, steps, 4, t0);
    if r.Err? {
      return;
    }
    if !engine.release {
      r := InitCall(engine, CommsInit, k, steps, 5, t0);
      if r.Err? {
        return;
      }
    }
    r := CheckInitialized(engine, k, steps, t0);
  }

  /** `term_sound_engine`. */
  method TermSoundEngine(engine: Engine) returns (r: Result<()>)
    requires engine.Valid()
    modifies engine
    ensures engine.Valid()
    ensures var e := TermOutcome(engine.oracle, old(engine.tick), engine.release);
            engine.trace == old(engine.trace) + e.calls && r == e.result
  {
    engine.Notify(StopAll(None));
    var unregistered := engine.Invoke(UnregisterAllGameObj);
    if unregistered.Err? {
      return unregistered;
    }
    if !engine.release {
      engine.Notify(CommsTerm);
    }
    engine.Notify(MusicEngineTerm);
    engine.Notify(SoundEngineTerm);
    engine.Notify(StreamMgrTerm);
    engine.Notify(MemoryMgrTerm);
    return Ok(());
  }

  // ------------------------------------------------------------- frames

  /** `ALLOW_SYNC_RENDER`. */
  const ALLOW_SYNC_RENDER: bool := true

  /** What `audio_rendering` does this frame. */
  datatype RenderChoice = Idle | Terminate | Render

  function Choose(initialized: bool, exitPending: bool): RenderChoice {
    if !initialized then Idle else if exitPending then Terminate else Render
  }

  /** `audio_rendering` from position `k`. */
  function RenderOutcome(o: Oracle, k: nat, release: bool, exitPending: bool): Effect {
    match Choose(o.initializedAt(k), exitPending)
    case Idle => Effect([], Ok(()))
    case Terminate => TermOutcome(o, k, release)
    case Render => Effect([RenderAudio(ALLOW_SYNC_RENDER)], o.reply(k, RenderAudio(ALLOW_SYNC_RENDER)))
  }

  /** An uninitialized engine is left alone and the frame succeeds; an
      initialized one is terminated when an exit is pending and rendered,
      with synchronous rendering allowed, otherwise. */
  lemma RenderOutcomeMeaning(o: Oracle, k: nat, release: bool, exitPending: bool)
    ensures var e := RenderOutcome(o, k, release, exitPending);
            && (e.calls == [] <==> !o.initializedAt(k))
            && (!o.initializedAt(k) ==> e.result == Ok(()))
            && (o.initializedAt(k) && exitPending ==> e == TermOutcome(o, k, release) && e.calls[0] == StopAll(None))
            && (o.initializedAt(k) && !exitPending ==>
                  e.calls == [RenderAudio(true)] && e.result == o.reply(k, RenderAudio(true)))
            && (RenderAudio(true) in e.calls ==> o.initializedAt(k) && !exitPending)
  {
    var e := RenderOutcome(o, k, release, exitPending);
    if o.initializedAt(k) && exitPending {
      assert e.calls[..2] == [StopAll(None), UnregisterAllGameObj];
      if !release && e.calls == TermSteps(release) {
        assert e.calls == [StopAll(None), UnregisterAllGameObj, CommsTerm, MusicEngineTerm, SoundEngineTerm, StreamMgrTerm, MemoryMgrTerm];
      }
    }
  }

  /** `audio_rendering`; `exitPending` is whether an exit event was read this frame. */
  method AudioRendering(engine: Engine, exitPending: bool) returns (r: Result<()>)
    requires engine.Valid()
    modifies engine
    ensures engine.Valid()
    ensures var e := RenderOutcome(engine.oracle, old(engine.tick), engine.release, exitPending);
            engine.trace == old(engine.trace) + e.calls && r == e.result
  {
    var initialized := engine.IsInitialized();
    if !initialized {
      r := Ok(());
    } else if exitPending {
      r := TermSoundEngine(engine);
    } else {
      r := engine.Invoke(RenderAudio(ALLOW_SYNC_RENDER));
    }
  }

  /** `AkCallbackEvent`: a callback delivered to the game's systems. */
  datatype AkCallbackEvent = AkCallbackEvent(info: CallbackInfo)

  /** The game engine's event stream of callback events. */
  class EventWriter {
    var sent: seq<AkCallbackEvent>

    constructor ()
      ensures sent == []
    {
      sent := [];
    }

    method Send(ev: AkCallbackEvent)
      modifies this
      ensures sent == old(sent) + [ev]
    {
      sent := sent + [ev];
    }
  }

  /** The events that deliver `infos`, in order. */
  function Delivered(infos: seq<CallbackInfo>): seq<AkCallbackEvent> {
    if infos == [] then [] else [AkCallbackEvent(infos[0])] + Delivered(infos[1..])
  }

  /** One event per callback, each carrying its callback, in the same order. */
  lemma {:induction false} DeliveredMeaning(infos: seq<CallbackInfo>)
    ensures |Delivered(infos)| == |infos|
    ensures forall i :: 0 <= i < |infos| ==> Delivered(infos)[i] == AkCallbackEvent(infos[i])
  {
    if infos != [] {
      DeliveredMeaning(infos[1..]);
    }
  }

  /** Delivering two batches is delivering their concatenation. */
  lemma {:induction false} DeliveredAppend(a: seq<CallbackInfo>, b: seq<CallbackInfo>)
    ensures Delivered(a + b) == Delivered(a) + Delivered(b)
  {
    if a == [] {
      assert a + b == b;
    } else {
      assert (a + b)[1..] == a[1..] + b;
      DeliveredAppend(a[1..], b);
    }
  }

  /** `process_callbacks`: every pending callback becomes an event, oldest
      first, and the channel is left empty. */
  method ProcessCallbacks(channel: CallbackChannel, events: EventWriter)
    modifies channel, events
    ensures events.sent == old(events.sent) + Delivered(old(channel.queue))
    ensures channel.queue == []
  {
    var item := channel.TryRecv();
    while item.Some?
      invariant item.None? ==> channel.queue == []
      invariant events.sent + Delivered((if item.Some? then [item.value] else []) + channel.queue)
                == old(events.sent) + Delivered(old(channel.queue))
      decreases |channel.queue| + (if item.Some? then 1 else 0)
    {
      var current := item.value;
      ghost var rest := channel.queue;
      events.Send(AkCallbackEvent(current));
      item := channel.TryRecv();
      DeliveredAppend([current], rest);
    }
  }

  // ------------------------------------------------------------- start-up

  /** The bank every project needs loaded first. */
  const INIT_BANK := "Init.bnk"

  /** The name given to the default listener outside release builds. */
  function MainListenerName(release: bool): Option<string> {
    if release then None else Some("RrMainDefaultListener")
  }

  /** `setup_audio`: load the init bank; on failure return its error and
      spawn nothing, otherwise spawn one default listener (named outside
      release builds), whatever the settings say about spawning one. */
  method SetupAudio(engine: Engine, commands: Commands) returns (r: Result<()>)
    requires engine.Valid()
    modifies engine, commands
    ensures engine.Valid()
    ensures engine.trace == old(engine.trace) + [LoadBank(INIT_BANK)]
    ensures r == engine.oracle.reply(old(engine.tick), LoadBank(INIT_BANK))
    ensures commands.queue == old(commands.queue)
              + (if r.Ok? then [SpawnListener(DefaultListenerBundle(), MainListenerName(engine.release))] else [])
  {
    var loaded := engine.Invoke(LoadBank(INIT_BANK));
    if loaded.Err? {
      return loaded;
    }
    commands.Push(SpawnListener(DefaultListenerBundle(), MainListenerName(engine.release)));
    return loaded;
  }
}
