/**
 * The playback session of MusicPlayerProvider as values: the three state
 * cells the provider owns (`sound`, `isPlaying`, `currentTrack`), the audio
 * backend beside them, and one function per transport operation giving the
 * state after the operation from the state before it. Each of those
 * functions states in its contract what the operation promises; the class
 * MusicPlayerContext.MusicPlayerProvider is proved to follow them.
 */
module Playback {

  import opened Wrappers
  import opened AudioBackend

  /** A track as the screens hand it over; the player reads only `id` and `audio`. */
  datatype Track = Track(id: string, name: string, audio: string)

  /** What FileSystem.getInfoAsync can see: the document directory and the files that exist. */
  datatype FileSystem = FileSystem(documentDirectory: string, files: set<string>)

  /** Where a downloaded copy of the track is kept. */
  function CacheUri(fs: FileSystem, id: string): (uri: string)
  {
    fs.documentDirectory + id + ".mp3"
  }

  predicate Cached(fs: FileSystem, id: string)
  {
    CacheUri(fs, id) in fs.files
  }

  /** The URI the player loads for a track: its local copy when there is one, its remote audio otherwise. */
  function SourceUri(fs: FileSystem, t: Track): (uri: string)
    ensures uri == t.audio || uri in fs.files
    ensures Cached(fs, t.id) ==> uri == fs.documentDirectory + t.id + ".mp3"
    ensures uri != t.audio ==> uri == CacheUri(fs, t.id)
    ensures !Cached(fs, t.id) ==> uri == t.audio
  {
    if Cached(fs, t.id) then CacheUri(fs, t.id) else t.audio
  }

  /** The provider's three state cells. */
  datatype Player = Player(sound: Option<Handle>, isPlaying: bool, currentTrack: Option<Track>)

  /** The provider together with the backend it drives. */
  datatype World = World(player: Player, device: Device)

  datatype PlayerError =
    | LoadError(uri: string)   // createAsync rejected
    | NotLoaded(h: Handle)     // playAsync or pauseAsync on a sound that is not loaded

  /** How the promise an operation returns settles. */
  datatype Outcome = Success | Failure(error: PlayerError)

  /** The handles the player holds: none, or its `sound`. */
  function Held(p: Player): (s: set<Handle>)
    ensures |s| <= 1
    ensures forall h :: h in s <==> p.sound == Some(h)
  {
    if p.sound.Some? then {p.sound.value} else {}
  }

  /**
   * The session invariant: a playing session has a sound and a track; a
   * sound is held exactly when a track is current; every live handle is the
   * held one; and at no moment were two handles live (peak at most one).
   */
  predicate Inv(w: World)
  {
    && DeviceValid(w.device)
    && (w.player.isPlaying ==> w.player.sound.Some? && w.player.currentTrack.Some?)
    && (w.player.sound.Some? <==> w.player.currentTrack.Some?)
    && w.device.live <= Held(w.player)
    && (w.player.sound.Some? ==> w.player.sound.value < w.device.nextId)
    && w.device.peak <= 1
  }

  /** The session as the provider mounts it, beside a backend that has loaded nothing. */
  function Initial(): (w: World)
    ensures Inv(w)
    ensures w.player.sound.None? && !w.player.isPlaying && w.player.currentTrack.None?
    ensures w.device.live == {} && w.device.log == []
  {
    World(Player(None, false, None), Device({}, 0, 0, []))
  }

  /** The commands that unloading `previous`, if there is one, sends to the backend. */
  function ReleaseCommands(previous: Option<Handle>): (cmds: seq<Command>)
    ensures |cmds| <= 1
    ensures forall c :: c in cmds <==> previous.Some? && c == Unload(previous.value)
  {
    if previous.Some? then [Unload(previous.value)] else []
  }

  /**
   * Unload `previous` when there is one: what playTrack does to the held
   * sound before loading (line 17) and what the sound effect's cleanup does
   * to the sound being replaced or torn down (lines 39-45).
   */
  function ReleaseSound(d: Device, previous: Option<Handle>): (r: Device)
    requires DeviceValid(d)
    ensures DeviceValid(r)
    ensures r.nextId == d.nextId
    ensures previous.Some? ==> r.live == d.live - {previous.value}
    ensures previous.None? ==> r.live == d.live
    ensures r.log == d.log + ReleaseCommands(previous)
    ensures r.peak == d.peak
  {
    if previous.Some? then DeviceUnload(d, previous.value) else assert d.log + [] == d.log; d
  }

  /**
   * What a successful swap sends to the backend: unload the held sound, load
   * and play the new one, and the effect's unload of the replaced sound.
   */
  function SwapCommands(previous: Option<Handle>, uri: string, h: Handle): (cmds: seq<Command>)
    ensures |cmds| == 2 * |ReleaseCommands(previous)| + 2
    ensures cmds[|ReleaseCommands(previous)|] == Load(uri, h)
  {
    ReleaseCommands(previous) + [Load(uri, h), Play(h)] + ReleaseCommands(previous)
  }

  /**
   * Lines 19-22 and the effect, once createAsync has returned `h` on `d`:
   * record sound, track and playing, command play, and unload the replaced
   * sound `previous` once more.
   */
  function Started(d: Device, previous: Option<Handle>, t: Track, h: Handle): (r: World)
    requires DeviceValid(d) && d.peak <= 1
    requires d.live == {h} && h < d.nextId
    requires previous.Some? ==> previous.value != h
    ensures Inv(r)
    ensures r.player == Player(Some(h), true, Some(t))
    ensures r.device.live == {h} && r.device.nextId == d.nextId
    ensures r.device.log == d.log + [Play(h)] + ReleaseCommands(previous)
  {
    var played := DeviceCommand(d, h, Play(h));
    var d2 := ReleaseSound(played.device, previous);
    assert d2.live == {h};
    World(Player(Some(h), true, Some(t)), d2)
  }

  /**
   * playTrack(track): choose the URI, unload the held sound, load the new
   * one; when the load succeeds, record sound, track and playing, command
   * play, and let the effect unload the replaced sound again. When the load
   * fails the state cells are left as they were, although the old sound has
   * already been unloaded. `failing` holds the URIs the backend cannot load
   * at the moment of this call.
   */
  function PlayTrack(w: World, fs: FileSystem, t: Track, failing: set<string>): (r: (World, Outcome))
    requires Inv(w)
    ensures Inv(r.0)
    ensures r.1.Success? <==> SourceUri(fs, t) !in failing
    ensures r.1.Success? ==>
              && r.0.player.sound.Some?
              && var h := r.0.player.sound.value;
              && h !in w.device.live && w.device.nextId <= h
              && r.0.player.currentTrack == Some(t)
              && r.0.player.isPlaying
              && r.0.device.live == {h}
              && r.0.device.log == w.device.log + SwapCommands(w.player.sound, SourceUri(fs, t), h)
    ensures r.1.Failure? ==>
              && r.1 == Failure(LoadError(SourceUri(fs, t)))
              && r.0.player == w.player
              && r.0.device.live == {}
              && r.0.device.log == w.device.log + ReleaseCommands(w.player.sound) + [LoadFailed(SourceUri(fs, t))]
  {
    var uri := SourceUri(fs, t);
    var undo := ReleaseCommands(w.player.sound);
    var d1 := ReleaseSound(w.device, w.player.sound);
    assert d1.live == {};
    var loaded := DeviceLoad(d1, uri, failing);
    if loaded.handle.None? then
      (World(w.player, loaded.device), Failure(LoadError(uri)))
    else
      var h := loaded.handle.value;
      assert loaded.device.live == {h};
      var started := Started(loaded.device, w.player.sound, t, h);
      assert started.device.log == w.device.log + SwapCommands(w.player.sound, uri, h) by {
        assert started.device.log == w.device.log + undo + [Load(uri, h)] + [Play(h)] + undo;
      }
      (started, Success)
  }

  /** pauseTrack(): with a sound held, pause it and clear the playing flag; with none, do nothing. */
  function PauseTrack(w: World): (r: (World, Outcome))
    requires Inv(w)
    ensures Inv(r.0)
    ensures r.0.player.sound == w.player.sound && r.0.player.currentTrack == w.player.currentTrack
    ensures r.0.device.live == w.device.live && r.0.device.nextId == w.device.nextId && r.0.device.peak == w.device.peak
    ensures w.player.sound.None? ==> r == (w, Success)
    ensures w.player.sound.Some? && w.player.sound.value in w.device.live ==>
              && r.1.Success?
              && !r.0.player.isPlaying
              && r.0.device.log == w.device.log + [Pause(w.player.sound.value)]
    ensures w.player.sound.Some? && w.player.sound.value !in w.device.live ==>
              r == (w, Failure(NotLoaded(w.player.sound.value)))
  {
    match w.player.sound
    case None => (w, Success)
    case Some(h) =>
      var paused := DeviceCommand(w.device, h, Pause(h));
      if paused.accepted then
        (World(w.player.(isPlaying := false), paused.device), Success)
      else
        (World(w.player, paused.device), Failure(NotLoaded(h)))
  }

  /** resumeTrack(): with a sound held, play it and set the playing flag; with none, do nothing. */
  function ResumeTrack(w: World): (r: (World, Outcome))
    requires Inv(w)
    ensures Inv(r.0)
    ensures r.0.player.sound == w.player.sound && r.0.player.currentTrack == w.player.currentTrack
    ensures r.0.device.live == w.device.live && r.0.device.nextId == w.device.nextId && r.0.device.peak == w.device.peak
    ensures w.player.sound.None? ==> r == (w, Success)
    ensures w.player.sound.Some? && w.player.sound.value in w.device.live ==>
              && r.1.Success?
              && r.0.player.isPlaying
              && r.0.device.log == w.device.log + [Play(w.player.sound.value)]
    ensures w.player.sound.Some? && w.player.sound.value !in w.device.live ==>
              r == (w, Failure(NotLoaded(w.player.sound.value)))
  {
    match w.player.sound
    case None => (w, Success)
    case Some(h) =>
      var played := DeviceCommand(w.device, h, Play(h));
      if played.accepted then
        (World(w.player.(isPlaying := true), played.device), Success)
      else
        (World(w.player, played.device), Failure(NotLoaded(h)))
  }

  /** The provider is torn down: the effect's cleanup unloads the current sound. */
  function Unmount(w: World): (r: World)
    requires Inv(w)
    ensures Inv(r)
    ensures r.player == w.player
    ensures r.device.live == {}
    ensures r.device.log == w.device.log + ReleaseCommands(w.player.sound)
    ensures r.device.nextId == w.device.nextId && r.device.peak == w.device.peak
  {
    World(w.player, ReleaseSound(w.device, w.player.sound))
  }

  /**
   * The transport calls a screen can make. A playTrack call carries what the
   * file system shows and which URIs the backend cannot load at that moment.
   */
  datatype Call = PlayTrackCall(fs: FileSystem, track: Track, failing: set<string>) | PauseTrackCall | ResumeTrackCall

  function Step(w: World, c: Call): (r: World)
    requires Inv(w)
    ensures Inv(r)
    ensures w.device.log <= r.device.log
  {
    match c
    case PlayTrackCall(fs, t, failing) => PlayTrack(w, fs, t, failing).0
    case PauseTrackCall => PauseTrack(w).0
    case ResumeTrackCall => ResumeTrack(w).0
  }

  /** The session after a sequence of calls, one after the other. */
  function Run(w: World, calls: seq<Call>): (r: World)
    requires Inv(w)
    ensures Inv(r)
    ensures w.device.log <= r.device.log
    decreases |calls|
  {
    if calls == [] then w else Run(Step(w, calls[0]), calls[1..])
  }

  lemma {:induction false} RunAppend(w: World, calls: seq<Call>, c: Call)
    requires Inv(w)
    ensures Run(w, calls + [c]) == Step(Run(w, calls), c)
    decreases |calls|
  {
    if calls == [] {
      assert [c][1..] == [];
    } else {
      assert (calls + [c])[1..] == calls[1..] + [c];
      RunAppend(Step(w, calls[0]), calls[1..], c);
    }
  }

  /** A playTrack call whose URI the backend can load at that moment. */
  predicate Loads(c: Call)
  {
    c.PlayTrackCall? && SourceUri(c.fs, c.track) !in c.failing
  }

  /** The track of the last call in `calls` that is a playTrack whose load succeeds, if any. */
  function LastLoaded(calls: seq<Call>): (t: Option<Track>)
  {
    if calls == [] then None
    else if Loads(calls[|calls| - 1]) then Some(calls[|calls| - 1].track)
    else LastLoaded(calls[..|calls| - 1])
  }

  /**
   * The current track after any sequence of calls is the track of the last
   * playTrack whose load succeeded; calls whose load failed, and pause and
   * resume, never change it.
   */
  lemma {:induction false} CurrentTrackIsLastLoaded(w: World, calls: seq<Call>)
    requires Inv(w)
    ensures Run(w, calls).player.currentTrack ==
              if LastLoaded(calls).Some? then LastLoaded(calls)
              else w.player.currentTrack
    decreases |calls|
  {
    if calls != [] {
      var earlier, c := calls[..|calls| - 1], calls[|calls| - 1];
      assert calls == earlier + [c];
      RunAppend(w, earlier, c);
      CurrentTrackIsLastLoaded(w, earlier);
    }
  }

  /**
   * A playTrack whose load fails after a sound was held leaves the provider
   * pointing at that sound although it has been unloaded, with the playing
   * flag as it was; pause and resume on that state are then rejected and
   * change nothing.
   */
  lemma FailedLoadLeavesUnloadedSound(w: World, fs: FileSystem, t: Track, failing: set<string>)
    requires Inv(w) && w.player.sound.Some?
    requires SourceUri(fs, t) in failing
    ensures var r := PlayTrack(w, fs, t, failing).0;
            && r.player == w.player
            && r.device.live == {}
            && PauseTrack(r) == (r, Failure(NotLoaded(w.player.sound.value)))
            && ResumeTrack(r) == (r, Failure(NotLoaded(w.player.sound.value)))
  {
  }
}
