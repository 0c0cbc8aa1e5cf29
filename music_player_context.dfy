/**
 * MusicPlayerProvider: the object that owns the three state cells of the
 * player and drives the audio backend. Each method is one transport call of
 * the provider, taken as one sequential step, and is proved to change the
 * provider and the backend exactly as the matching function of Playback says.
 */
module MusicPlayerContext {

  import opened Wrappers
  import opened AudioBackend
  import opened Playback

  class MusicPlayerProvider {
    var sound: Option<Handle>
    var isPlaying: bool
    var currentTrack: Option<Track>
    const backend: AudioBackend

    /** The provider and its backend as a value. */
    ghost function State(): World
      reads this, backend
    {
      World(Player(sound, isPlaying, currentTrack), backend.Snapshot())
    }

    ghost predicate Valid()
      reads this, backend
    {
      Inv(State())
    }

    /** Mounting: no sound, not playing, no track. */
    constructor ()
      ensures Valid() && fresh(backend)
      ensures State() == Initial()
      ensures sound == None && !isPlaying && currentTrack == None
    {
      sound := None;
      isPlaying := false;
      currentTrack := None;
      backend := new AudioBackend();
    }

    /**
     * Unload `previous` when there is one: playTrack does this to the held
     * sound before it loads, and the sound effect's cleanup does it to the
     * sound being replaced or torn down.
     */
    method Release(previous: Option<Handle>)
      requires backend.Valid()
      modifies backend
      ensures backend.Valid()
      ensures backend.Snapshot() == ReleaseSound(old(backend.Snapshot()), previous)
    {
      if previous.Some? {
        backend.UnloadAsync(previous.value);
      }
    }

    /**
     * playTrack(track), with `fs` what the file system shows at the call and
     * `failing` the URIs the backend cannot load at that moment.
     */
    method PlayTrack(fs: FileSystem, track: Track, failing: set<string>) returns (outcome: Outcome)
      requires Valid()
      modifies this, backend
      ensures Valid()
      ensures (State(), outcome) == Playback.PlayTrack(old(State()), fs, track, failing)
    {
      var fileUri := CacheUri(fs, track.id);
      var fileExists := fileUri in fs.files;
      var uri := if fileExists then fileUri else track.audio;

      var previous := sound;
      Release(previous);
      var loaded := backend.CreateAsync(uri, failing);
      if loaded.None? {
        return Failure(LoadError(uri));
      }
      var newSound := loaded.value;
      sound := Some(newSound);
      currentTrack := Some(track);
      isPlaying := true;
      var accepted := backend.PlayAsync(newSound);
      Release(previous);
      outcome := if accepted then Success else Failure(NotLoaded(newSound));
    }

    /** pauseTrack() */
    method PauseTrack() returns (outcome: Outcome)
      requires Valid()
      modifies this, backend
      ensures Valid()
      ensures (State(), outcome) == Playback.PauseTrack(old(State()))
    {
      outcome := Success;
      if sound.Some? {
        var accepted := backend.PauseAsync(sound.value);
        if !accepted {
          return Failure(NotLoaded(sound.value));
        }
        isPlaying := false;
      }
    }

    /** resumeTrack() */
    method ResumeTrack() returns (outcome: Outcome)
      requires Valid()
      modifies this, backend
      ensures Valid()
      ensures (State(), outcome) == Playback.ResumeTrack(old(State()))
    {
      outcome := Success;
      if sound.Some? {
        var accepted := backend.PlayAsync(sound.value);
        if !accepted {
          return Failure(NotLoaded(sound.value));
        }
        isPlaying := true;
      }
    }

    /** The provider is torn down: the effect's cleanup for the current sound runs. */
    method Unmount()
      requires Valid()
      modifies backend
      ensures Valid()
      ensures State() == Playback.Unmount(old(State()))
    {
      Release(sound);
    }
  }
}
