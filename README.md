# Playback session of vibescape, in Dafny

The model covers the one stateful part of the vibescape app: `MusicPlayerProvider` in
`context/MusicPlayerContext.tsx`. The provider owns three state cells:

- `sound`, the loaded `Audio.Sound` or null;
- `isPlaying`;
- `currentTrack`.

It exposes `playTrack`, `pauseTrack` and `resumeTrack`. An effect keyed on `sound` unloads
the previous sound when `sound` is replaced and when the provider is torn down.

The project has four modules:

- `Wrappers` (`wrappers.dfy`): an `Option` for the nullable cells.
- `AudioBackend` (`audio_backend.dfy`): the audio library, seen only as commands.
  - `createAsync` either hands out a fresh numeric handle or fails. It fails for a URI in
    the set `failing` passed with that call: the URIs that cannot be loaded at that
    moment. A URI can fail on one call and load on a later one.
  - `playAsync` and `pauseAsync` are accepted exactly when the handle is loaded.
  - `unloadAsync` may be sent to a handle already unloaded, and then changes nothing.
  - The backend logs every load attempt (failed ones included), every unload, and every
    play or pause it accepts. A rejected play or pause is not logged.
  - The backend also keeps `peak`: the most handles ever live at one moment.
  - `Device` is the backend as a value, with one function per command. The class
    `AudioBackend` has one method per command, each proved to follow its function.
- `Playback` (`playback.dfy`): the provider and backend together as a value (`World`), and
  one function per operation taking the state before to the state after and the way the
  returned promise settles (`Outcome`).
  - Each function's contract states what the operation promises.
  - `Inv` is the session invariant. Every operation keeps it.
  - `Run` applies a sequence of calls, and lemmas relate runs to independent definitions.
- `MusicPlayerContext` (`music_player_context.dfy`): the class `MusicPlayerProvider`. Its
  fields `sound`, `isPlaying` and `currentTrack` are the cells of the source. Every method
  is proved to change the provider and the backend exactly as its `Playback` function says.

The file system is a parameter: a `FileSystem` value holding `documentDirectory` and the set
of existing files, as `FileSystem.getInfoAsync` would report them.

Some things the code does differently from a cleaner design of such a player. The model
follows the code:

- A failed load leaves a released handle behind.
  - `playTrack` unloads the held sound (line 17) before `createAsync` (line 18).
  - When `createAsync` throws, lines 19-22 never run. `sound` still names the unloaded
    sound, and `currentTrack` and `isPlaying` keep their old values.
  - So the session can claim to be playing while no sound is live
    (`Playback.FailedLoadLeavesUnloadedSound`).
- The code has no playback history, no previous or random track, and no rejection of a
  track with an empty `audio`. An empty URI simply goes to `createAsync`.
- `resumeTrack` with no sound does nothing, even when a track is current.
- Overlapping calls are not serialised. The model takes each call as one atomic step.

## Model

| member | source | states |
|---|---|---|
| `Playback.SourceUri` | context/MusicPlayerContext.tsx:13-15 | the URI loaded is `documentDirectory + id + ".mp3"` when that file exists, and the track's `audio` otherwise; a missing local file is never chosen |
| `AudioBackend.DeviceLoad` | context/MusicPlayerContext.tsx:18 | `createAsync` fails exactly for a URI that cannot be loaded at that call, changing no handle; otherwise it returns a handle that was never loaded before and is now the only addition to the live set |
| `AudioBackend.DeviceUnload` | context/MusicPlayerContext.tsx:17 | after unloading, the handle is not live and nothing else changed; unloading a handle already unloaded leaves the live set unchanged (idempotent release) |
| `AudioBackend.DeviceCommand` | context/MusicPlayerContext.tsx:22 | a play or pause command is accepted exactly when the handle is live, and it changes no live handle |
| `AudioBackend.AudioBackend.CreateAsync` | context/MusicPlayerContext.tsx:18 | the backend object changes as `DeviceLoad` says and returns its handle |
| `AudioBackend.AudioBackend.PlayAsync` | context/MusicPlayerContext.tsx:34 | the backend object changes as `DeviceCommand` with `Play` says |
| `AudioBackend.AudioBackend.PauseAsync` | context/MusicPlayerContext.tsx:27 | the backend object changes as `DeviceCommand` with `Pause` says |
| `AudioBackend.AudioBackend.UnloadAsync` | context/MusicPlayerContext.tsx:42 | the backend object changes as `DeviceUnload` says |
| `Playback.Initial` | context/MusicPlayerContext.tsx:8-10 | the mounted session has no sound, is not playing, has no track, and satisfies the session invariant |
| `Playback.ReleaseSound` | context/MusicPlayerContext.tsx:39-45 | unloading the replaced or torn-down sound removes exactly that handle from the live set and sends exactly one unload for it |
| `Playback.ReleaseCommands` | context/MusicPlayerContext.tsx:40-43 | releasing sends at most one command: an unload of the held sound when there is one, and nothing otherwise |
| `Playback.SwapCommands` | context/MusicPlayerContext.tsx:17-22 | a successful swap sends two more commands than twice the release, and the load comes right after the first release |
| `Playback.Started` | context/MusicPlayerContext.tsx:19-22 | after a load returned `h`, the cells become sound `h`, playing, and the new track; play is commanded on `h`, and `h` stays the only live handle |
| `Playback.PlayTrack` | context/MusicPlayerContext.tsx:12-23 | keeps the invariant. It succeeds exactly when the chosen URI loads. On success the sound is a fresh handle, the only live one, the track is `t`, `isPlaying` holds, and the backend received: unload of the old sound, load, play, then the effect's unload of the old sound. On failure the cells are unchanged and no handle is live |
| `Playback.PauseTrack` | context/MusicPlayerContext.tsx:25-30 | with no sound nothing changes. With a live sound, pause is commanded and `isPlaying` becomes false. With an unloaded sound the call is rejected and nothing changes. `sound`, `currentTrack`, the live set, the next handle and the peak are never changed |
| `Playback.ResumeTrack` | context/MusicPlayerContext.tsx:32-37 | with no sound nothing changes. With a live sound, play is commanded and `isPlaying` becomes true. With an unloaded sound the call is rejected and nothing changes. `sound`, `currentTrack`, the live set, the next handle and the peak are never changed |
| `Playback.Unmount` | context/MusicPlayerContext.tsx:39-45 | teardown unloads the current sound: afterwards no handle is live, the backend received exactly one unload for the held sound (none when there is none), the cells, the next handle and the peak are unchanged, and the invariant still holds |
| `Playback.Step` | context/MusicPlayerContext.tsx:49 | any one call through the provider's value keeps the invariant and only appends to the backend's log |
| `Playback.Run` | context/MusicPlayerContext.tsx:8-45 | after any sequence of calls, `isPlaying` implies a sound and a track, every live handle is the held one, and at no moment were two handles live |
| `Playback.CurrentTrackIsLastLoaded` | context/MusicPlayerContext.tsx:18-20 | after any sequence of calls, `currentTrack` is the track of the last `playTrack` whose load succeeded at its own moment, or the starting track if there was none |
| `Playback.FailedLoadLeavesUnloadedSound` | context/MusicPlayerContext.tsx:17-21 | a failed load after a sound was held leaves the cells unchanged but no sound live; pause and resume are then rejected and change nothing |
| `MusicPlayerContext.MusicPlayerProvider.constructor` | context/MusicPlayerContext.tsx:8-10 | the provider starts with `sound` null, `isPlaying` false and `currentTrack` null, beside a backend with nothing loaded |
| `MusicPlayerContext.MusicPlayerProvider.Release` | context/MusicPlayerContext.tsx:40-43 | the backend changes as `ReleaseSound` says |
| `MusicPlayerContext.MusicPlayerProvider.PlayTrack` | context/MusicPlayerContext.tsx:12-23 | the provider and backend change as `Playback.PlayTrack` says, and the invariant is kept |
| `MusicPlayerContext.MusicPlayerProvider.PauseTrack` | context/MusicPlayerContext.tsx:25-30 | the provider and backend change as `Playback.PauseTrack` says, and the invariant is kept |
| `MusicPlayerContext.MusicPlayerProvider.ResumeTrack` | context/MusicPlayerContext.tsx:32-37 | the provider and backend change as `Playback.ResumeTrack` says, and the invariant is kept |
| `MusicPlayerContext.MusicPlayerProvider.Unmount` | context/MusicPlayerContext.tsx:39-45 | the backend changes as `Playback.Unmount` says: the current sound is unloaded |

## Left out

- Overlapping `playTrack` calls: the awaits of two calls can interleave on shared React state. The model takes every call as one atomic step.
- React's render and effect timing: the effect's unload of the replaced sound is placed right after `playAsync` in a successful `playTrack`.
- Failures of `FileSystem.getInfoAsync` and of `unloadAsync` are not modelled. `playAsync` and `pauseAsync` fail only on a sound that is not loaded.
- `FileSystem.documentDirectory` can be null in expo-file-system. The model takes it as a string.
- Tracks are untyped records in the source and are loaded through their `id` and `audio` only. The model gives them a fixed `Track` type, with `id` as a string.
- Loading progress, status callbacks and the rest of expo-av and expo-file-system are library internals, outside the model.
- The screens (sign-up, login, search, playlist, welcome), the navigator, `App.tsx`, the style constants and the type declaration shim are user interface, network and database I/O, or wiring. They are not part of this model.
