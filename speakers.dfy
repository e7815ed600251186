/**
 * The device list read from the sound-volume utility's JSON file, and the two
 * pure steps `getAllSpeakers` applies to it: stripping a leading byte-order
 * mark from the raw text and keeping only the speakers.
 */
module Speakers {
  import opened Wrappers

  /** One element of the JSON array: the string fields the platform reads. */
  datatype SoundItem = SoundItem(
    itemId: string,      // "Item ID"
    name: string,        // "Name"
    deviceName: string,  // "Device Name"
    itemType: string,    // "Type"
    direction: string,   // "Direction"
    defaultMark: string  // "Default": empty unless this is the default device
  )

  /** A speaker is an output device: Type "Device" and Direction "Render". */
  predicate IsSpeaker(item: SoundItem) {
    item.itemType == "Device" && item.direction == "Render"
  }

  /** The "Default" field is compared against the empty string. */
  predicate IsDefault(item: SoundItem) {
    item.defaultMark != ""
  }

  /** The byte-order mark U+FEFF. */
  const BOM: char := '\U{FEFF}'

  /** Drops one leading BOM, if there is one; a second BOM stays. */
  function StripBom(text: string): (stripped: string)
    ensures text == stripped || text == [BOM] + stripped
    ensures stripped == text <==> (text == [] || text[0] != BOM)
  {
    if text != [] && text[0] == BOM then text[1..] else text
  }

  /** `soundItems.filter(...)`: the speakers among the items, in their order. */
  function FilterSpeakers(items: seq<SoundItem>): (speakers: seq<SoundItem>)
    ensures |speakers| <= |items|
    ensures forall x :: x in speakers <==> x in items && IsSpeaker(x)
    ensures forall x :: multiset(speakers)[x] == if IsSpeaker(x) then multiset(items)[x] else 0
  {
    if items == [] then []
    else
      assert items == [items[0]] + items[1..];
      if IsSpeaker(items[0]) then [items[0]] + FilterSpeakers(items[1..])
      else FilterSpeakers(items[1..])
  }

  /** Filtering commutes with concatenation, so relative order is kept. */
  lemma {:induction false} FilterSpeakersAppend(a: seq<SoundItem>, b: seq<SoundItem>)
    ensures FilterSpeakers(a + b) == FilterSpeakers(a) + FilterSpeakers(b)
    decreases |a|
  {
    if a == [] {
      assert a + b == b;
    } else {
      assert (a + b)[0] == a[0];
      assert (a + b)[1..] == a[1..] + b;
      FilterSpeakersAppend(a[1..], b);
    }
  }

  /**
   * `getAllSpeakers` after its I/O: an empty list when saving the file failed,
   * otherwise the speakers of the parsed array, where a JSON `null` counts as
   * the empty array.
   */
  function GetAllSpeakers(saved: bool, parsed: Option<seq<SoundItem>>): seq<SoundItem> {
    if !saved then []
    else match parsed
      case None => []
      case Some(items) => FilterSpeakers(items)
  }

  /**
   * The speakers reported are exactly the speakers of the parsed array: none
   * when the utility failed or the file held `null`.
   */
  lemma GetAllSpeakersMembers(saved: bool, parsed: Option<seq<SoundItem>>, s: SoundItem)
    ensures s in GetAllSpeakers(saved, parsed) <==> saved && parsed.Some? && s in parsed.value && IsSpeaker(s)
  {
  }
}
