# Homebridge audio-device platform — a Dafny model

This project models the core of a Homebridge dynamic platform plugin that
exposes the Windows audio output devices ("speakers") as HomeKit
accessories, and proves properties of that model.

At launch the host hands the platform every accessory it restored from its
cache (`configureAccessory`). When the host has finished launching, the platform
runs `discoverDevices`:

- It reads the device list that the sound-volume utility wrote to a JSON file.
- It drops a leading byte-order mark and keeps only the items of Type
  "Device" and Direction "Render".
- It matches each speaker against the cache by the UUID derived from the
  speaker's Item ID:
  - A cached accessory that matches gets the speaker's record, is reported
    to the host in an update call, leaves the cache and is appended to the
    accessories in use.
  - A speaker with no match gets a new accessory, which is registered and
    appended.
- A speaker whose "Default" field is not empty becomes the default speaker.
- Whatever is left in the cache is unregistered in one call, and the cache
  is emptied.

`updateDevicesState` makes one accessory the default. It turns off the `On`
characteristic of the Lightbulb service on every other accessory in use that
has one.

Each accessory's handler (`ExamplePlatformAccessory`) keeps a small record of
characteristic values: Mute, Volume, On and Brightness. It answers get and
set requests from that record. The Active characteristic is read off the
platform's default-speaker UUID. Setting Active makes the accessory the
default, whatever value was requested.

Modules:

- `Wrappers` — `Option`.
- `Speakers` (`speakers.dfy`) — the sound item, the BOM strip, the speaker
  filter and `getAllSpeakers` after its I/O.
- `Host` (`host.dfy`) — the host accessory as the platform sees it, and the
  register / update / unregister calls, kept as a log.
- `Reconciliation` (`reconcile.dfy`) — functions that state what one
  discovery run decides:
  - which cached accessory each speaker restores;
  - what is retired;
  - which UUID ends up as the default.

  The module also holds the lemmas about those decisions.
- `Platform` (`platform.dfy`) — the class `ExampleHomebridgePlatform`. Its
  methods are proved against the `Reconciliation` functions.
- `Accessory` (`platform_accessory.dfy`) — the class
  `ExamplePlatformAccessory`.

Some functions are plain definitions, used to state the contracts of
`DiscoverDevices` and `MatchSpeakers`. The lemmas listed below state their
properties.

- `Speakers.GetAllSpeakers` — what `getAllSpeakers` returns.
- `Host.NewAccessory` — `new api.platformAccessory(name, uuid)`: an empty
  context and no Lightbulb service.
- `Reconciliation.SpeakerUuids` — the UUID generated from each speaker's
  Item ID.
- `Platform.Placements` — the accessory each speaker ends up with.
- `Reconciliation.HostCall` and `Reconciliation.HostCalls` — the update or
  register call made for each speaker.
- `Reconciliation.RetireCalls` — the final unregister call, if any.

## Model

| member | source | states |
|---|---|---|
| Speakers.StripBom | src/platform.ts:161 | The result is the text itself, or the text with one leading U+FEFF removed. The text is left unchanged exactly when it does not start with U+FEFF, so at most one mark is removed. |
| Speakers.FilterSpeakers | src/platform.ts:166-168 | Keeps exactly the items with Type "Device" and Direction "Render". Each kept item appears as often as in the input. The result is never longer than the input. |
| Speakers.FilterSpeakersAppend | src/platform.ts:166-168 | The filter distributes over concatenation, so the speakers keep their relative order. |
| Speakers.GetAllSpeakersMembers | src/platform.ts:149-173 | An item is reported iff the utility ran, the file parsed to an array that holds the item, and the item is a speaker. A failed run or a JSON `null` reports nothing. |
| Platform.FailedScanRetiresCache | src/platform.ts:149-155 | When the utility fails or the file holds `null`, nothing is restored or created. Every cached accessory is unregistered in one call, and there is no call when the cache is empty. |
| Platform.ExampleHomebridgePlatform.constructor | src/platform.ts:21-33 | The platform starts with an empty cache, no accessories in use, no default UUID and no host calls. |
| Platform.ExampleHomebridgePlatform.ConfigureAccessory | src/platform.ts:58-63 | The restored accessory is appended to the cache, and nothing else changes. |
| Platform.ExampleHomebridgePlatform.DiscoverDevices | src/platform.ts:70-141 | The cache ends empty. The accessories in use gain exactly the speakers' placements, in speaker order. The host calls are one update or register per speaker, then one unregister call for the accessories `Reconcile` retires, and none when none are retired. The default UUID is the one `DefaultAfter` gives. |
| Platform.ExampleHomebridgePlatform.MatchSpeakers | src/platform.ts:76-134 | The loop over the speakers ends with the cache `Reconcile` retires. It has appended one accessory and one host call per speaker, and has set the default that `DefaultAfter` gives. |
| Platform.ExampleHomebridgePlatform.PlaceSpeaker | src/platform.ts:89-133 | One turn of the loop: the speaker's accessory is the first cached one with its UUID, or a new one named after the speaker. Either way it carries the speaker's record. The call is an update in the first case and a register in the second. The cache loses exactly the accessory that was found. |
| Platform.ExampleHomebridgePlatform.UpdateDevicesState | src/platform.ts:176-197 | Afterwards the accessory is the default. If it already was, nothing changes. Otherwise the accessories in use become `OthersOff` of the old ones. |
| Platform.Placed | src/platform.ts:93-133 | Definition of the accessory a speaker ends up with. `PlaceSpeaker`, `RestoredIsUpdated` and `CreatedIsRegistered` state its behaviour. |
| Platform.DiscoverStep | src/platform.ts:76-134 | Visiting speaker `i` removes its accessory from what the earlier speakers left in the cache. It appends that speaker's accessory and host call to what was there. |
| Platform.PlacementsFollowSpeakers | src/platform.ts:76-133 | There is one accessory per speaker, in speaker order. Each carries its speaker's UUID and record. |
| Platform.RestoredIsUpdated | src/platform.ts:91-112 | When a speaker restores a cached accessory, its record is replaced and it is reported in an update call, and the accessory came from the cache. When each accessory is cached once, it is also not in the unregister batch. |
| Platform.CreatedIsRegistered | src/platform.ts:113-133 | A speaker with no cached accessory gets a new one named after it, with its UUID and record. That accessory is reported in a register call, and no retired accessory has that UUID. |
| Platform.LightOff | src/platform.ts:189-195 | Definition of one accessory after the switch. `OthersOff` states its behaviour. |
| Platform.OthersOff | src/platform.ts:186-196 | Only `On` may change, and the order and length stay. `On` is on afterwards iff it was on and the accessory either is the new default or has no Lightbulb. |
| Platform.SwitchLeavesOnlyCurrentLit | src/platform.ts:186-196 | After the switch, every Lightbulb still on belongs to an accessory with the new default's UUID. |
| Platform.OthersOffIdempotent | src/platform.ts:182-196 | Switching to the same accessory a second time changes nothing more. |
| Reconciliation.FindByUuid | src/platform.ts:91 | `find` gives the first position with the UUID, or none when no accessory has it. |
| Reconciliation.IndexOf | src/platform.ts:106 | `indexOf` is -1 iff the accessory is absent. Otherwise it is the first position holding it. |
| Reconciliation.SpliceFound | src/platform.ts:91-106 | The accessory `find` returned is at the position `indexOf` reports. `splice` there leaves exactly the cache without the found accessory. |
| Reconciliation.Pick | src/platform.ts:91 | Definition of what `find` returns. `SpliceFound`, `Reconcile` and `RestoredIffCached` state its behaviour. |
| Reconciliation.Remaining | src/platform.ts:91-106 | Definition of the cache after one speaker has taken its accessory. `SpliceFound` and `ReconcilePartition` state its behaviour. |
| Reconciliation.RemoveAt | src/platform.ts:106 | `splice(i, 1)` shortens the cache by one. `SpliceContents` states which accessory goes. |
| Reconciliation.SpliceContents | src/platform.ts:106 | `splice(i, 1)` removes exactly one copy of the accessory at `i`. Every other accessory stays, in its order. |
| Reconciliation.Reconcile | src/platform.ts:76-140 | There is one entry per speaker. Each restored accessory came from the cache and has that speaker's UUID. Every retired accessory came from the cache. |
| Reconciliation.PlanAfter | src/platform.ts:76-134 | After `n` speakers of the loop, `n` decisions have been made. |
| Reconciliation.PlanAfterHead | src/platform.ts:76-134 | Running the loop from the front equals letting the first speaker pick, then running the loop for the others on what it left. |
| Reconciliation.PlanAfterIsReconcile | src/platform.ts:76-134 | Speaker by speaker, the loop arrives at exactly the plan `Reconcile` describes. |
| Reconciliation.ReconcilePartition | src/platform.ts:91-140 | The cached accessories are split exactly: each is either restored by one speaker or retired, and counts match as multisets. |
| Reconciliation.RestoredNotRetired | src/platform.ts:105-112 | When each accessory is cached once, a restored accessory is never in the unregister batch. |
| Reconciliation.RestoredIffCached | src/platform.ts:89-93 | When speaker UUIDs are distinct, a speaker restores an accessory iff one with its UUID is cached. |
| Reconciliation.RetiredIffUnmatched | src/platform.ts:136-140 | When cached UUIDs are distinct, an accessory is unregistered iff it is cached and no speaker has its UUID. |
| Reconciliation.UnmatchedIsRetired | src/platform.ts:136-140 | A cached accessory whose UUID no speaker has is unregistered. |
| Reconciliation.RetiredNoSpeaker | src/platform.ts:136-140 | When cached UUIDs are distinct, no speaker has the UUID of an unregistered accessory. |
| Reconciliation.CreatedUuidNotRetired | src/platform.ts:113-140 | A speaker that found no cached accessory leaves none with its UUID to be unregistered. |
| Reconciliation.RemoveAtDistinctUuids | src/platform.ts:106 | Removing an accessory from a cache with distinct UUIDs keeps the UUIDs distinct. |
| Reconciliation.DistinctSpeakerUuids | src/platform.ts:78-81 | With an injective generator, speakers with distinct Item IDs get distinct UUIDs. |
| Reconciliation.DefaultAfter | src/platform.ts:83-87 | Definition of the default UUID after the first `n` speakers. `DefaultUnchanged` and `DefaultIsLastMarked` state its behaviour. |
| Reconciliation.DefaultUnchanged | src/platform.ts:83-87 | When no speaker is marked Default, the default UUID stays as it was. |
| Reconciliation.DefaultIsLastMarked | src/platform.ts:83-87 | Otherwise the default is the UUID of the last speaker marked Default. |
| Accessory.ExamplePlatformAccessory.constructor | src/platformAccessory.ts:17-27 | A new handler starts from Mute off, Volume 100, On off and Brightness 0. |
| Accessory.ExamplePlatformAccessory.SetMute | src/platformAccessory.ts:71-75 | Mute takes the value, and the other three values stay. |
| Accessory.ExamplePlatformAccessory.GetMute | src/platformAccessory.ts:77-83 | Returns the Mute value held. |
| Accessory.ExamplePlatformAccessory.SetActive | src/platformAccessory.ts:86-92 | The platform's default UUID becomes this accessory's UUID, so the handler is active. |
| Accessory.ExamplePlatformAccessory.GetActive | src/platformAccessory.ts:94-100 | Returns ACTIVE or INACTIVE, and ACTIVE iff the default UUID is this accessory's UUID. |
| Accessory.ExamplePlatformAccessory.GetVolume | src/platformAccessory.ts:102-106 | Returns the Volume value held. |
| Accessory.ExamplePlatformAccessory.SetVolume | src/platformAccessory.ts:108-112 | Volume takes the value, and the other three values stay. |
| Accessory.ExamplePlatformAccessory.SetOn | src/platformAccessory.ts:118-123 | On takes the value, and the other three values stay. |
| Accessory.ExamplePlatformAccessory.GetOn | src/platformAccessory.ts:138-148 | Returns the On value held. |
| Accessory.ExamplePlatformAccessory.SetBrightness | src/platformAccessory.ts:154-159 | Brightness takes the value, and the other three values stay. |
| Accessory.MuteRoundTrip | src/platformAccessory.ts:71-83 | Reading Mute after setting it gives the value set, and Volume, On and Brightness are untouched. |
| Accessory.VolumeRoundTrip | src/platformAccessory.ts:102-112 | Reading Volume after setting it gives the value set, and Mute, On and Brightness are untouched. |
| Accessory.OnRoundTrip | src/platformAccessory.ts:118-148 | Reading On after setting it gives the value set, and Mute, Volume and Brightness are untouched. |
| Accessory.AtMostOneActive | src/platformAccessory.ts:94-100 | Among handlers of one platform with distinct UUIDs, at most one is active. |
| Accessory.ActivateOne | src/platformAccessory.ts:86-100 | After Active is set on one handler, that handler alone reports ACTIVE. Every other handler reports INACTIVE. |

## Left out

- The I/O of `getAllSpeakers` is not modelled:
  - Running the utility becomes a `saved` flag. `saveSoundItemFile` is
    not part of this model.
  - Reading the file and `JSON.parse` become a parsed-array parameter, where
    `None` stands for `null`.
  - A parse that throws is not modelled.
  - The BOM strip is modelled on its own, on the text.
- `api.hap.uuid.generate` is a function the platform is given. Its injectivity
  appears only as a hypothesis of `DistinctSpeakerUuids`.
- Logging, `async`, and the host's `didFinishLaunching` event are not
  modelled.
- Host calls are recorded in a log. The plugin and platform names they carry
  are constant, so they are dropped.
- The host accessory is a value, not a shared object:
  - Replacing `context.device` yields an updated value, and that value is
    appended and reported.
  - `indexOf` looks up the accessory as it was found, which is the same
    position, as `SpliceFound` shows.
  - Aliasing between the host and the platform is not captured.
- `DiscoverDevices` runs the loop on copies of the four fields and writes
  them back. This is equivalent because nothing in the loop reads those
  fields through another path.
- The handler that `discoverDevices` creates for each accessory is not
  stored by the platform, so it does not appear in the model. Its
  constructor is modelled on its own, in `Accessory`.
- The handler constructor's service and characteristic set-up is not
  modelled. This covers accessory information, the Speaker service, and
  the `onGet`/`onSet` wiring. Only the state record is modelled.
- The Lightbulb service's `On` characteristic becomes the `hasLightbulb` and
  `lightbulbOn` fields, and `updateCharacteristic` becomes a field update.
  The handlers only ever add a Speaker service, so only accessories that
  already had a Lightbulb are affected.
- Volume and Brightness are JavaScript numbers and are modelled as `int`.
  Fractional values are not modelled.
- The `value as boolean` and `value as number` casts are not modelled. The
  setters take values of the right type.
- `getActive` answers with HomeKit's ACTIVE (1) and INACTIVE (0).
- Nothing in the repository calls `updateDevicesState`, and `setActive` does
  not call it either. The model keeps them apart, as the source does.
- `src/cmd.ts` (running the external utility) is not part of this model. The
  repository's test script is not part of it either.
