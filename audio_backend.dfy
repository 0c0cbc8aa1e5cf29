/**
 * The audio backend the player drives (expo-av's `Audio.Sound`), seen only
 * through the commands it accepts. Loading a sound hands out a fresh handle;
 * a handle is live from its load until its first unload. Whether a load
 * succeeds is decided at the moment of the call: the caller passes the URIs
 * that cannot be loaded then. The backend logs every load attempt (failed
 * ones included), every unload, and every play or pause it accepts, so that
 * properties about the order of commands ("unload the old sound before
 * loading the new one") can be stated about the log. A rejected play or
 * pause is not logged. The most handles ever live at one moment is kept as
 * `peak`, so that "never two live sounds" is a bound on one number.
 */
module AudioBackend {

  import opened Wrappers

  type Handle = nat

  /** One command as the backend receives it. */
  datatype Command =
    | Load(uri: string, h: Handle)   // createAsync that returned h
    | LoadFailed(uri: string)        // createAsync that threw
    | Play(h: Handle)                // playAsync on a loaded sound
    | Pause(h: Handle)               // pauseAsync on a loaded sound
    | Unload(h: Handle)              // unloadAsync, loaded or not

  /** The larger of the peak so far and the size of the live set now. */
  function Peak(peak: nat, live: set<Handle>): (r: nat)
    ensures r >= peak && r >= |live|
    ensures r == peak || r == |live|
  {
    if |live| > peak then |live| else peak
  }

  /**
   * The backend's state as a value: the live handles, the next handle it
   * will hand out, the most handles that were ever live at one moment, and
   * the log of commands.
   */
  datatype Device = Device(live: set<Handle>, nextId: Handle, peak: nat, log: seq<Command>)

  /** The peak bounds the live set, and every handle live or ever loaded is below nextId. */
  predicate DeviceValid(d: Device)
  {
    && |d.live| <= d.peak
    && (forall h :: h in d.live ==> h < d.nextId)
    && (forall i :: 0 <= i < |d.log| && d.log[i].Load? ==> d.log[i].h < d.nextId)
  }

  datatype LoadResult = LoadResult(device: Device, handle: Option<Handle>)

  datatype CommandResult = CommandResult(device: Device, accepted: bool)

  /**
   * createAsync: a fresh live handle, or a failure that changes no handle.
   * `failing` holds the URIs that cannot be loaded at this call (malformed,
   * unreachable at the moment, or of an unsupported format).
   */
  function DeviceLoad(d: Device, uri: string, failing: set<string>): (r: LoadResult)
    requires DeviceValid(d)
    ensures DeviceValid(r.device)
    ensures r.handle.None? <==> uri in failing
    ensures r.handle.None? ==> r.device.live == d.live && r.device.log == d.log + [LoadFailed(uri)]
    ensures r.handle.Some? ==>
              && d.nextId <= r.handle.value < r.device.nextId
              && r.handle.value !in d.live
              && r.device.live == d.live + {r.handle.value}
              && r.device.log == d.log + [Load(uri, r.handle.value)]
    ensures r.handle.Some? ==>
              forall i :: 0 <= i < |d.log| && d.log[i].Load? ==> d.log[i].h != r.handle.value
    ensures r.device.peak == Peak(d.peak, r.device.live)
  {
    if uri in failing then
      LoadResult(Device(d.live, d.nextId, d.peak, d.log + [LoadFailed(uri)]), None)
    else
      var live := d.live + {d.nextId};
      LoadResult(Device(live, d.nextId + 1, Peak(d.peak, live), d.log + [Load(uri, d.nextId)]), Some(d.nextId))
  }

  /** unloadAsync: the handle is no longer live; on a handle already unloaded it changes nothing. */
  function DeviceUnload(d: Device, h: Handle): (r: Device)
    requires DeviceValid(d)
    ensures DeviceValid(r)
    ensures r.nextId == d.nextId
    ensures h !in r.live && r.live == d.live - {h}
    ensures h !in d.live ==> r.live == d.live
    ensures r.log == d.log + [Unload(h)]
    ensures r.peak == d.peak
  {
    Device(d.live - {h}, d.nextId, d.peak, d.log + [Unload(h)])
  }

  /** A transport command (play or pause): accepted exactly when the handle is live. */
  function DeviceCommand(d: Device, h: Handle, c: Command): (r: CommandResult)
    requires DeviceValid(d)
    requires c == Play(h) || c == Pause(h)
    ensures DeviceValid(r.device)
    ensures r.device.live == d.live && r.device.nextId == d.nextId
    ensures r.device.peak == d.peak
    ensures r.accepted <==> h in d.live
    ensures r.device.log == if r.accepted then d.log + [c] else d.log
  {
    if h in d.live then
      CommandResult(Device(d.live, d.nextId, d.peak, d.log + [c]), true)
    else
      CommandResult(d, false)
  }

  /** The backend as an object whose state the player's commands change. */
  class AudioBackend {
    var live: set<Handle>
    var nextId: Handle
    ghost var peak: nat
    ghost var log: seq<Command>

    ghost function Snapshot(): Device
      reads this
    {
      Device(live, nextId, peak, log)
    }

    ghost predicate Valid()
      reads this
    {
      DeviceValid(Snapshot())
    }

    constructor ()
      ensures Valid()
      ensures Snapshot() == Device({}, 0, 0, [])
    {
      live := {};
      nextId := 0;
      peak := 0;
      log := [];
    }

    /** Audio.Sound.createAsync({ uri }), with `failing` the URIs that cannot be loaded at this call. */
    method CreateAsync(uri: string, failing: set<string>) returns (h: Option<Handle>)
      requires Valid()
      modifies this
      ensures Valid()
      ensures LoadResult(Snapshot(), h) == DeviceLoad(old(Snapshot()), uri, failing)
    {
      if uri in failing {
        log := log + [LoadFailed(uri)];
        h := None;
      } else {
        h := Some(nextId);
        live := live + {nextId};
        peak := Peak(peak, live);
        log := log + [Load(uri, nextId)];
        nextId := nextId + 1;
      }
    }

    /** sound.playAsync(): false when the sound is not loaded. */
    method PlayAsync(h: Handle) returns (accepted: bool)
      requires Valid()
      modifies this
      ensures Valid()
      ensures CommandResult(Snapshot(), accepted) == DeviceCommand(old(Snapshot()), h, Play(h))
    {
      accepted := h in live;
      if accepted {
        log := log + [Play(h)];
      }
    }

    /** sound.pauseAsync(): false when the sound is not loaded. */
    method PauseAsync(h: Handle) returns (accepted: bool)
      requires Valid()
      modifies this
      ensures Valid()
      ensures CommandResult(Snapshot(), accepted) == DeviceCommand(old(Snapshot()), h, Pause(h))
    {
      accepted := h in live;
      if accepted {
        log := log + [Pause(h)];
      }
    }

    /** sound.unloadAsync(): safe on a sound already unloaded. */
    method UnloadAsync(h: Handle)
      requires Valid()
      modifies this
      ensures Valid()
      ensures Snapshot() == DeviceUnload(old(Snapshot()), h)
    {
      live := live - {h};
      log := log + [Unload(h)];
    }
  }
}
