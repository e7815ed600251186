/**
 * The dynamic platform: it collects the accessories the host restores from
 * its cache, reconciles them with the speakers found at launch, and keeps
 * the UUID of the current default speaker.
 */
module Platform {
  import opened Wrappers
  import opened Speakers
  import opened Host
  import opened Reconciliation

  /**
   * The accessory a speaker ends up with: the cached one it restored, or a
   * new one named after it, in either case holding the speaker's record.
   */
  function Placed(restored: Option<PlatformAccessory>, speaker: SoundItem, uuid: string): PlatformAccessory {
    (if restored.Some? then restored.value else NewAccessory(speaker.name, uuid)).(device := Some(speaker))
  }

  class ExampleHomebridgePlatform {
    /** `api.hap.uuid.generate`, supplied by the host. */
    const generate: string -> string
    /** Accessories restored from the host's cache and not yet matched. */
    var cacheAccessories: seq<PlatformAccessory>
    /** Accessories in use, in the order they were matched or created. */
    var accessories: seq<PlatformAccessory>
    var defaultSpeakerUUID: string
    /** The register / update / unregister calls made to the host so far. */
    var actions: seq<HostAction>

    constructor (generate: string -> string)
      ensures this.generate == generate
      ensures cacheAccessories == [] && accessories == [] && defaultSpeakerUUID == "" && actions == []
    {
      this.generate := generate;
      cacheAccessories := [];
      accessories := [];
      defaultSpeakerUUID := "";
      actions := [];
    }

    /** Called by the host for every accessory it restores from disk. */
    method ConfigureAccessory(accessory: PlatformAccessory)
      modifies this`cacheAccessories
      ensures cacheAccessories == old(cacheAccessories) + [accessory]
    {
      cacheAccessories := cacheAccessories + [accessory];
    }

    /**
     * Matches every speaker against the cache by UUID: the first cached
     * accessory with the speaker's UUID gets the speaker's record, is
     * reported as updated and moves to `accessories`; otherwise a new
     * accessory is created and registered. What is left in the cache is
     * unregistered in one call, and the cache is emptied. `saved` and
     * `parsed` are what the utility run and the JSON parse produced.
     */
    method DiscoverDevices(saved: bool, parsed: Option<seq<SoundItem>>)
      modifies this`cacheAccessories, this`accessories, this`defaultSpeakerUUID, this`actions
      ensures cacheAccessories == []
      ensures var speakers := GetAllSpeakers(saved, parsed);
        var plan := Reconcile(old(cacheAccessories), SpeakerUuids(generate, speakers));
        var added := Placements(generate, speakers, plan.restored);
        accessories == old(accessories) + added &&
        actions == old(actions) + HostCalls(plan.restored, added) + RetireCalls(plan.retired)
      ensures var speakers := GetAllSpeakers(saved, parsed);
        defaultSpeakerUUID == DefaultAfter(generate, old(defaultSpeakerUUID), speakers, |speakers|)
    {
      var speakers := GetAllSpeakers(saved, parsed);
      var cache, inUse, log, defaultUuid :=
        MatchSpeakers(generate, speakers, cacheAccessories, accessories, actions, defaultSpeakerUUID);
      if |cache| > 0 {
        log := log + [UnregisterPlatformAccessories(cache)];
        cache := [];
      }
      cacheAccessories, accessories, actions, defaultSpeakerUUID := cache, inUse, log, defaultUuid;
    }

    /**
     * The loop of `discoverDevices`, on copies of the four fields it changes
     * (`cacheAccessories`, `accessories`, the host calls and
     * `defaultSpeakerUUID`): every speaker in turn takes its accessory from
     * the cache or gets a new one, and a speaker marked Default becomes the
     * default.
     */
    static method MatchSpeakers(generate: string -> string, speakers: seq<SoundItem>, cache0: seq<PlatformAccessory>,
                                inUse0: seq<PlatformAccessory>, log0: seq<HostAction>, default0: string)
      returns (cache: seq<PlatformAccessory>, inUse: seq<PlatformAccessory>, log: seq<HostAction>, defaultUuid: string)
      ensures var plan := Reconcile(cache0, SpeakerUuids(generate, speakers));
        var added := Placements(generate, speakers, plan.restored);
        cache == plan.retired && inUse == inUse0 + added && log == log0 + HostCalls(plan.restored, added)
      ensures defaultUuid == DefaultAfter(generate, default0, speakers, |speakers|)
    {
      ghost var uuids := SpeakerUuids(generate, speakers);
      cache, inUse, log, defaultUuid := cache0, inUse0, log0, default0;

      var i := 0;
      while i < |speakers|
        invariant 0 <= i <= |speakers|
        invariant cache == PlanAfter(cache0, uuids, i).retired
        invariant defaultUuid == DefaultAfter(generate, default0, speakers, i)
        invariant inUse == inUse0 + Placements(generate, speakers, PlanAfter(cache0, uuids, i).restored)
        invariant log == log0 + HostCalls(PlanAfter(cache0, uuids, i).restored,
                                          Placements(generate, speakers, PlanAfter(cache0, uuids, i).restored))
      {
        DiscoverStep(cache0, generate, speakers, i, inUse0, log0);
        var device := speakers[i];
        var uuid := Uuid(generate, device);
        if IsDefault(device) {
          defaultUuid := uuid;
        }

        var accessory, call;
        accessory, call, cache := PlaceSpeaker(cache, device, uuid);
        log := log + [call];
        inUse := inUse + [accessory];
        i := i + 1;
      }
      PlanAfterIsReconcile(cache0, uuids);
    }

    /**
     * One turn of the discovery loop: the speaker takes the first cached
     * accessory with its UUID, which gets the speaker's record and is
     * reported as updated, or else gets a new accessory, which is registered.
     */
    static method PlaceSpeaker(cache: seq<PlatformAccessory>, device: SoundItem, uuid: string)
      returns (accessory: PlatformAccessory, call: HostAction, rest: seq<PlatformAccessory>)
      ensures accessory == Placed(Pick(cache, uuid), device, uuid)
      ensures call == HostCall(Pick(cache, uuid), accessory)
      ensures rest == Remaining(cache, uuid)
    {
      var existingAccessory := Pick(cache, uuid);
      rest := cache;
      if existingAccessory.Some? {
        accessory := existingAccessory.value.(device := Some(device));
        call := UpdatePlatformAccessories([accessory]);
        SpliceFound(cache, uuid);
        rest := RemoveAt(cache, IndexOf(cache, existingAccessory.value));
      } else {
        accessory := NewAccessory(device.name, uuid).(device := Some(device));
        call := RegisterPlatformAccessories([accessory]);
      }
    }

    /**
     * Makes `accessory` the default speaker. If it already is, nothing
     * happens; otherwise every other accessory in use that has a Lightbulb
     * service has its `On` characteristic turned off.
     */
    method UpdateDevicesState(accessory: PlatformAccessory)
      modifies this`defaultSpeakerUUID, this`accessories
      ensures defaultSpeakerUUID == accessory.uuid
      ensures old(defaultSpeakerUUID) == accessory.uuid ==> accessories == old(accessories)
      ensures old(defaultSpeakerUUID) != accessory.uuid ==> accessories == OthersOff(old(accessories), accessory.uuid)
    {
      var currentUUID := accessory.uuid;
      if defaultSpeakerUUID == currentUUID {
        return;
      }
      defaultSpeakerUUID := currentUUID;
      for i := 0 to |accessories|
        invariant defaultSpeakerUUID == currentUUID && |accessories| == |old(accessories)|
        invariant forall k :: 0 <= k < i ==> accessories[k] == LightOff(old(accessories)[k], currentUUID)
        invariant forall k :: i <= k < |accessories| ==> accessories[k] == old(accessories)[k]
      {
        var speaker := accessories[i];
        if speaker.uuid != currentUUID && speaker.hasLightbulb {
          accessories := accessories[i := speaker.(lightbulbOn := false)];
        }
      }
      assert accessories == OthersOff(old(accessories), currentUUID);
    }
  }

  /** The accessories the speakers end up with, given what each restored from the cache. */
  function Placements(generate: string -> string, speakers: seq<SoundItem>, restored: seq<Option<PlatformAccessory>>)
    : seq<PlatformAccessory>
    requires |restored| <= |speakers|
  {
    seq(|restored|, k requires 0 <= k < |restored| => Placed(restored[k], speakers[k], Uuid(generate, speakers[k])))
  }

  /**
   * One turn of the discovery loop: speaker `i` takes its accessory from
   * what the first `i` speakers left in the cache, its accessory is
   * appended, and its host call is logged.
   */
  lemma DiscoverStep(cache: seq<PlatformAccessory>, generate: string -> string, speakers: seq<SoundItem>, i: nat,
                      inUse0: seq<PlatformAccessory>, log0: seq<HostAction>)
    requires i < |speakers|
    ensures var uuids := SpeakerUuids(generate, speakers);
      var before := PlanAfter(cache, uuids, i);
      var after := PlanAfter(cache, uuids, i + 1);
      var found := Pick(before.retired, uuids[i]);
      var accessory := Placed(found, speakers[i], uuids[i]);
      var added := Placements(generate, speakers, before.restored);
      after.retired == Remaining(before.retired, uuids[i]) &&
      inUse0 + Placements(generate, speakers, after.restored) == (inUse0 + added) + [accessory] &&
      log0 + HostCalls(after.restored, Placements(generate, speakers, after.restored))
        == (log0 + HostCalls(before.restored, added)) + [HostCall(found, accessory)]
  {
    var uuids := SpeakerUuids(generate, speakers);
    var before := PlanAfter(cache, uuids, i);
    var after := PlanAfter(cache, uuids, i + 1);
    var added := Placements(generate, speakers, before.restored);
    var accessory := Placed(Pick(before.retired, uuids[i]), speakers[i], uuids[i]);
    assert after.restored == before.restored + [Pick(before.retired, uuids[i])];
    assert Placements(generate, speakers, after.restored) == added + [accessory];
    assert HostCalls(after.restored, added + [accessory]) == HostCalls(before.restored, added) + [HostCall(Pick(before.retired, uuids[i]), accessory)];
    AppendAssoc(inUse0, added, [accessory]);
    AppendAssoc(log0, HostCalls(before.restored, added), [HostCall(Pick(before.retired, uuids[i]), accessory)]);
  }

  /**
   * When the utility fails or the file holds `null`, no speaker is found:
   * nothing is restored, nothing is created, and every cached accessory is
   * unregistered in one call (none when the cache is empty).
   */
  lemma FailedScanRetiresCache(cache: seq<PlatformAccessory>, generate: string -> string, saved: bool,
                               parsed: Option<seq<SoundItem>>)
    requires !saved || parsed == None
    ensures var plan := Reconcile(cache, SpeakerUuids(generate, GetAllSpeakers(saved, parsed)));
      plan.restored == [] && plan.retired == cache &&
      RetireCalls(plan.retired) == if cache == [] then [] else [UnregisterPlatformAccessories(cache)]
  {
  }

  /** Every speaker gets one accessory, in discovery order, carrying its UUID and its record. */
  lemma PlacementsFollowSpeakers(cache: seq<PlatformAccessory>, generate: string -> string, speakers: seq<SoundItem>)
    ensures var plan := Reconcile(cache, SpeakerUuids(generate, speakers));
      var added := Placements(generate, speakers, plan.restored);
      |added| == |speakers| &&
      forall k :: 0 <= k < |speakers| ==>
        added[k].uuid == Uuid(generate, speakers[k]) && added[k].device == Some(speakers[k])
  {
    var uuids := SpeakerUuids(generate, speakers);
    var plan := Reconcile(cache, uuids);
    forall k | 0 <= k < |speakers|
      ensures Placements(generate, speakers, plan.restored)[k].uuid == Uuid(generate, speakers[k])
    {
      assert uuids[k] == Uuid(generate, speakers[k]);
    }
  }

  /**
   * A speaker that finds a cached accessory with its UUID gets that very
   * accessory with its record replaced, reported in an update call; the
   * accessory came from the cache and is not in the unregister batch.
   */
  lemma RestoredIsUpdated(cache: seq<PlatformAccessory>, generate: string -> string, speakers: seq<SoundItem>, k: nat)
    requires NoDuplicates(cache)
    requires k < |speakers| && Reconcile(cache, SpeakerUuids(generate, speakers)).restored[k].Some?
    ensures var plan := Reconcile(cache, SpeakerUuids(generate, speakers));
      var added := Placements(generate, speakers, plan.restored);
      var c := plan.restored[k].value;
      c in cache && c !in plan.retired &&
      added[k] == c.(device := Some(speakers[k])) &&
      HostCalls(plan.restored, added)[k] == UpdatePlatformAccessories([added[k]])
  {
    RestoredNotRetired(cache, SpeakerUuids(generate, speakers), k);
  }

  /**
   * A speaker with no cached accessory gets one new accessory named after
   * it, with its UUID and record, reported in a register call; nothing in
   * the unregister batch has its UUID.
   */
  lemma CreatedIsRegistered(cache: seq<PlatformAccessory>, generate: string -> string, speakers: seq<SoundItem>, k: nat)
    requires k < |speakers| && Reconcile(cache, SpeakerUuids(generate, speakers)).restored[k].None?
    ensures var plan := Reconcile(cache, SpeakerUuids(generate, speakers));
      var added := Placements(generate, speakers, plan.restored);
      var uuid := Uuid(generate, speakers[k]);
      added[k] == NewAccessory(speakers[k].name, uuid).(device := Some(speakers[k])) &&
      HostCalls(plan.restored, added)[k] == RegisterPlatformAccessories([added[k]]) &&
      forall c :: c in plan.retired ==> c.uuid != uuid
  {
    CreatedUuidNotRetired(cache, SpeakerUuids(generate, speakers), k);
  }

  /** One accessory after the switch to `current`: its `On` is off unless it is `current` or has no Lightbulb. */
  function LightOff(a: PlatformAccessory, current: string): PlatformAccessory {
    if a.uuid != current && a.hasLightbulb then a.(lightbulbOn := false) else a
  }

  /**
   * The accessories in use after the switch to `current`: only `On` may
   * change, it stays as it was on `current`'s accessories and on those
   * without a Lightbulb, and is off everywhere else.
   */
  function OthersOff(accessories: seq<PlatformAccessory>, current: string): (after: seq<PlatformAccessory>)
    ensures |after| == |accessories|
    ensures forall k :: 0 <= k < |accessories| ==>
      after[k] == accessories[k].(lightbulbOn := after[k].lightbulbOn)
    ensures forall k :: 0 <= k < |accessories| ==>
      (after[k].lightbulbOn <==>
        accessories[k].lightbulbOn && (accessories[k].uuid == current || !accessories[k].hasLightbulb))
  {
    seq(|accessories|, k requires 0 <= k < |accessories| => LightOff(accessories[k], current))
  }

  /** After the switch, every Lightbulb still on belongs to an accessory with the new default's UUID. */
  lemma SwitchLeavesOnlyCurrentLit(accessories: seq<PlatformAccessory>, current: string)
    ensures forall a :: a in OthersOff(accessories, current) && a.hasLightbulb && a.lightbulbOn ==> a.uuid == current
  {
    var after := OthersOff(accessories, current);
    forall a | a in after && a.hasLightbulb && a.lightbulbOn
      ensures a.uuid == current
    {
      var k :| 0 <= k < |after| && after[k] == a;
      assert accessories[k].hasLightbulb;
    }
  }

  /** Switching twice to the same accessory changes nothing the second time. */
  lemma OthersOffIdempotent(accessories: seq<PlatformAccessory>, current: string)
    ensures OthersOff(OthersOff(accessories, current), current) == OthersOff(accessories, current)
  {
    var once := OthersOff(accessories, current);
    var twice := OthersOff(once, current);
    assert forall k :: 0 <= k < |once| ==> twice[k] == once[k];
  }
}
