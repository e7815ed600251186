/**
 * The handler behind one speaker accessory: a small record of
 * characteristic values it answers from, and the Active characteristic,
 * which it derives from the platform's default speaker.
 */
module Accessory {
  import opened Host
  import opened Platform

  /** The characteristic values the handler keeps for its accessory. */
  datatype States = States(mute: bool, volume: int, on: bool, brightness: int)

  /** What a freshly created handler starts from. */
  const InitialStates: States := States(false, 100, false, 0)

  /** The two values of HomeKit's Active characteristic. */
  const ACTIVE: int := 1
  const INACTIVE: int := 0

  class ExamplePlatformAccessory {
    const platform: ExampleHomebridgePlatform
    const accessory: PlatformAccessory
    var states: States

    constructor (platform: ExampleHomebridgePlatform, accessory: PlatformAccessory)
      ensures this.platform == platform && this.accessory == accessory
      ensures states == InitialStates
    {
      this.platform := platform;
      this.accessory := accessory;
      states := InitialStates;
    }

    /** This accessory is the platform's default speaker. */
    predicate IsActive()
      reads platform
    {
      platform.defaultSpeakerUUID == accessory.uuid
    }

    method SetMute(value: bool)
      modifies this`states
      ensures states == old(states).(mute := value)
    {
      states := states.(mute := value);
    }

    method GetMute() returns (isMute: bool)
      ensures isMute == states.mute
    {
      isMute := states.mute;
    }

    /**
     * Makes this accessory the platform's default speaker, whatever value
     * HomeKit asked for: the request's value is not looked at.
     */
    method SetActive()
      modifies platform`defaultSpeakerUUID
      ensures IsActive()
      ensures platform.defaultSpeakerUUID == accessory.uuid
    {
      platform.defaultSpeakerUUID := accessory.uuid;
    }

    method GetActive() returns (active: int)
      ensures active == ACTIVE || active == INACTIVE
      ensures active == ACTIVE <==> IsActive()
    {
      var isActive := platform.defaultSpeakerUUID == accessory.uuid;
      active := if isActive then ACTIVE else INACTIVE;
    }

    method GetVolume() returns (volume: int)
      ensures volume == states.volume
    {
      volume := states.volume;
    }

    method SetVolume(value: int)
      modifies this`states
      ensures states == old(states).(volume := value)
    {
      states := states.(volume := value);
    }

    method SetOn(value: bool)
      modifies this`states
      ensures states == old(states).(on := value)
    {
      states := states.(on := value);
    }

    method GetOn() returns (isOn: bool)
      ensures isOn == states.on
    {
      isOn := states.on;
    }

    method SetBrightness(value: int)
      modifies this`states
      ensures states == old(states).(brightness := value)
    {
      states := states.(brightness := value);
    }
  }

  /** Reading Mute back after setting it gives the value set; the other three values stay. */
  method MuteRoundTrip(handler: ExamplePlatformAccessory, value: bool) returns (read: bool)
    modifies handler
    ensures read == value
    ensures handler.states.volume == old(handler.states.volume) && handler.states.on == old(handler.states.on)
    ensures handler.states.brightness == old(handler.states.brightness)
  {
    handler.SetMute(value);
    read := handler.GetMute();
  }

  /** Reading Volume back after setting it gives the value set; the other three values stay. */
  method VolumeRoundTrip(handler: ExamplePlatformAccessory, value: int) returns (read: int)
    modifies handler
    ensures read == value
    ensures handler.states.mute == old(handler.states.mute) && handler.states.on == old(handler.states.on)
    ensures handler.states.brightness == old(handler.states.brightness)
  {
    handler.SetVolume(value);
    read := handler.GetVolume();
  }

  /** Reading On back after setting it gives the value set; the other three values stay. */
  method OnRoundTrip(handler: ExamplePlatformAccessory, value: bool) returns (read: bool)
    modifies handler
    ensures read == value
    ensures handler.states.mute == old(handler.states.mute) && handler.states.volume == old(handler.states.volume)
    ensures handler.states.brightness == old(handler.states.brightness)
  {
    handler.SetOn(value);
    read := handler.GetOn();
  }

  /** Handlers of one platform whose accessories have pairwise distinct UUIDs. */
  ghost predicate DistinctHandlers(handlers: seq<ExamplePlatformAccessory>, platform: ExampleHomebridgePlatform) {
    (forall h :: h in handlers ==> h.platform == platform) &&
    (forall i, j :: 0 <= i < j < |handlers| ==> handlers[i].accessory.uuid != handlers[j].accessory.uuid)
  }

  /** Since Active is read off one shared UUID, at most one of such handlers is active. */
  lemma AtMostOneActive(handlers: seq<ExamplePlatformAccessory>, platform: ExampleHomebridgePlatform, i: nat, j: nat)
    requires DistinctHandlers(handlers, platform)
    requires i < |handlers| && j < |handlers|
    requires handlers[i].IsActive() && handlers[j].IsActive()
    ensures i == j
  {
  }

  /**
   * Setting Active on one handler makes it the one handler that reports
   * ACTIVE: every other handler of the platform reports INACTIVE.
   */
  method ActivateOne(handlers: seq<ExamplePlatformAccessory>, platform: ExampleHomebridgePlatform, k: nat)
    returns (reported: seq<int>)
    requires DistinctHandlers(handlers, platform) && k < |handlers|
    modifies platform`defaultSpeakerUUID
    ensures |reported| == |handlers|
    ensures forall j :: 0 <= j < |handlers| ==> (reported[j] == ACTIVE <==> j == k)
    ensures forall j :: 0 <= j < |handlers| ==> reported[j] == ACTIVE || reported[j] == INACTIVE
  {
    handlers[k].SetActive();
    reported := [];
    for j := 0 to |handlers|
      invariant handlers[k].IsActive() && |reported| == j
      invariant forall m :: 0 <= m < j ==> (reported[m] == ACTIVE <==> m == k)
      invariant forall m :: 0 <= m < j ==> reported[m] == ACTIVE || reported[m] == INACTIVE
    {
      var active := handlers[j].GetActive();
      if active == ACTIVE && j != k {
        AtMostOneActive(handlers, platform, j, k);
      }
      reported := reported + [active];
    }
  }
}
