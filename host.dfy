/**
 * The part of the home-automation host the platform touches: accessories
 * and the register / update / unregister calls, kept as a log.
 */
module Host {
  import opened Wrappers
  import opened Speakers

  /**
   * A host accessory, as the platform sees it. `uuid` identifies it to the
   * host; `device` is `context.device`, which the platform overwrites; a
   * Lightbulb service, when the accessory has one, carries an `On`
   * characteristic.
   */
  datatype PlatformAccessory = PlatformAccessory(
    displayName: string,
    uuid: string,
    device: Option<SoundItem>,
    hasLightbulb: bool,
    lightbulbOn: bool
  )

  /** `new api.platformAccessory(name, uuid)`: an empty context, no Lightbulb. */
  function NewAccessory(displayName: string, uuid: string): PlatformAccessory {
    PlatformAccessory(displayName, uuid, None, false, false)
  }

  /** One call into the host's accessory registry. */
  datatype HostAction =
    | RegisterPlatformAccessories(accessories: seq<PlatformAccessory>)
    | UpdatePlatformAccessories(accessories: seq<PlatformAccessory>)
    | UnregisterPlatformAccessories(accessories: seq<PlatformAccessory>)
}
