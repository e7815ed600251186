/**
 * What one run of `discoverDevices` decides, as functions of the restored
 * cache and the discovered speakers: which cached accessory each speaker
 * takes over (or that it needs a new one), which cached accessories are
 * left over for unregistering, and which UUID ends up as the default.
 */
module Reconciliation {
  import opened Wrappers
  import opened Speakers
  import opened Host

  /** `cache.find(a => a.UUID === uuid)`, as the index of the first match. */
  function FindByUuid(cache: seq<PlatformAccessory>, uuid: string): (found: Option<nat>)
    ensures found.Some? ==> found.value < |cache| && cache[found.value].uuid == uuid
    ensures found.Some? ==> forall j :: 0 <= j < found.value ==> cache[j].uuid != uuid
    ensures found.None? ==> forall j :: 0 <= j < |cache| ==> cache[j].uuid != uuid
  {
    if cache == [] then None
    else if cache[0].uuid == uuid then Some(0)
    else match FindByUuid(cache[1..], uuid)
      case None => None
      case Some(i) => Some(i + 1)
  }

  /** `cache.indexOf(a)`: the first position holding `a`, or -1. */
  function IndexOf(cache: seq<PlatformAccessory>, a: PlatformAccessory): (k: int)
    ensures -1 <= k && (k == -1 <==> a !in cache)
    ensures 0 <= k ==> k < |cache| && cache[k] == a && forall j :: 0 <= j < k ==> cache[j] != a
  {
    if cache == [] then -1
    else if cache[0] == a then 0
    else
      assert cache == [cache[0]] + cache[1..];
      var k := IndexOf(cache[1..], a);
      assert forall j :: 1 <= j < |cache| ==> cache[j] == cache[1..][j - 1];
      if k == -1 then -1 else k + 1
  }

  /**
   * The accessory `find` returned sits where `indexOf` looks for it, so
   * `splice` removes exactly it and leaves the cache `Remaining` describes.
   */
  lemma SpliceFound(cache: seq<PlatformAccessory>, uuid: string)
    requires Pick(cache, uuid).Some?
    ensures 0 <= IndexOf(cache, Pick(cache, uuid).value) < |cache|
    ensures RemoveAt(cache, IndexOf(cache, Pick(cache, uuid).value)) == Remaining(cache, uuid)
  {
    var i := FindByUuid(cache, uuid).value;
    assert Pick(cache, uuid).value == cache[i] && Remaining(cache, uuid) == RemoveAt(cache, i);
    var k := IndexOf(cache, cache[i]);
    assert 0 <= k <= i by {
      assert cache[i] in cache;
    }
    assert k == i;
  }

  /** The cache without position `i` (`splice(i, 1)`). */
  function RemoveAt(cache: seq<PlatformAccessory>, i: nat): (rest: seq<PlatformAccessory>)
    requires i < |cache|
    ensures |rest| == |cache| - 1
  {
    cache[..i] + cache[i + 1..]
  }

  /**
   * `splice(i, 1)` removes exactly the accessory at `i`: the others stay,
   * in their order, each as often as before.
   */
  lemma SpliceContents(cache: seq<PlatformAccessory>, i: nat)
    requires i < |cache|
    ensures var rest := RemoveAt(cache, i);
      multiset(rest) + multiset{cache[i]} == multiset(cache) &&
      (forall c :: c in rest ==> c in cache) &&
      (forall c :: c in cache && c != cache[i] ==> c in rest) &&
      (forall p :: 0 <= p < |rest| ==> rest[p] == cache[if p < i then p else p + 1])
  {
    assert cache == cache[..i] + [cache[i]] + cache[i + 1..];
  }

  /**
   * The outcome of a run: for each speaker, the cached accessory it restores
   * (None: a new accessory is created), and what is left in the cache.
   */
  datatype Plan = Plan(restored: seq<Option<PlatformAccessory>>, retired: seq<PlatformAccessory>)

  /**
   * Walks the speakers' UUIDs in order; each takes the first accessory still
   * in the cache with its UUID, which then leaves the cache.
   */
  function Reconcile(cache: seq<PlatformAccessory>, uuids: seq<string>): (plan: Plan)
    ensures |plan.restored| == |uuids|
    ensures forall k :: 0 <= k < |uuids| && plan.restored[k].Some? ==>
      plan.restored[k].value in cache && plan.restored[k].value.uuid == uuids[k]
    ensures forall c :: c in plan.retired ==> c in cache
    decreases |uuids|
  {
    if uuids == [] then Plan([], cache)
    else match FindByUuid(cache, uuids[0])
      case None =>
        var rest := Reconcile(cache, uuids[1..]);
        Plan([None] + rest.restored, rest.retired)
      case Some(i) =>
        SpliceContents(cache, i);
        var rest := Reconcile(RemoveAt(cache, i), uuids[1..]);
        Plan([Some(cache[i])] + rest.restored, rest.retired)
  }

  /** What one speaker takes from the cache: the first accessory with its UUID, if any. */
  function Pick(cache: seq<PlatformAccessory>, uuid: string): Option<PlatformAccessory> {
    match FindByUuid(cache, uuid)
    case None => None
    case Some(j) => Some(cache[j])
  }

  /** The cache once that speaker has taken its accessory. */
  function Remaining(cache: seq<PlatformAccessory>, uuid: string): seq<PlatformAccessory> {
    match FindByUuid(cache, uuid)
    case None => cache
    case Some(j) => RemoveAt(cache, j)
  }

  /** The first speaker picks from the cache, and the plan for the others starts from what it leaves. */
  lemma ReconcileHead(cache: seq<PlatformAccessory>, uuids: seq<string>)
    requires uuids != []
    ensures var rest := Reconcile(Remaining(cache, uuids[0]), uuids[1..]);
      Reconcile(cache, uuids) == Plan([Pick(cache, uuids[0])] + rest.restored, rest.retired)
  {
  }

  /**
   * The plan for the first `n` speakers, built one speaker at a time as the
   * discovery loop does: `retired` is the cache as it stands after them.
   */
  function PlanAfter(cache: seq<PlatformAccessory>, uuids: seq<string>, n: nat): (plan: Plan)
    requires n <= |uuids|
    ensures |plan.restored| == n
    decreases n
  {
    if n == 0 then Plan([], cache)
    else
      var before := PlanAfter(cache, uuids, n - 1);
      Plan(before.restored + [Pick(before.retired, uuids[n - 1])], Remaining(before.retired, uuids[n - 1]))
  }

  /**
   * Building the plan speaker by speaker from the front agrees with first
   * letting the first speaker pick and then building the plan for the
   * others from what it leaves.
   */
  lemma {:induction false} PlanAfterHead(cache: seq<PlatformAccessory>, uuids: seq<string>, n: nat)
    requires n < |uuids|
    ensures var tail := PlanAfter(Remaining(cache, uuids[0]), uuids[1..], n);
      PlanAfter(cache, uuids, n + 1) == Plan([Pick(cache, uuids[0])] + tail.restored, tail.retired)
    decreases n
  {
    if n > 0 {
      PlanAfterHead(cache, uuids, n - 1);
      var picked := Pick(cache, uuids[0]);
      var previous := PlanAfter(Remaining(cache, uuids[0]), uuids[1..], n - 1);
      var next := Pick(previous.retired, uuids[n]);
      var before := PlanAfter(cache, uuids, n);
      assert before == Plan([picked] + previous.restored, previous.retired);
      assert uuids[1..][n - 1] == uuids[n];
      assert PlanAfter(cache, uuids, n + 1)
        == Plan(before.restored + [Pick(before.retired, uuids[n])], Remaining(before.retired, uuids[n]));
      AppendAssoc([picked], previous.restored, [next]);
    }
  }

  /** Speaker by speaker, the discovery loop arrives at exactly the plan `Reconcile` describes. */
  lemma {:induction false} PlanAfterIsReconcile(cache: seq<PlatformAccessory>, uuids: seq<string>)
    ensures PlanAfter(cache, uuids, |uuids|) == Reconcile(cache, uuids)
    decreases |uuids|
  {
    if uuids != [] {
      var left := Remaining(cache, uuids[0]);
      PlanAfterHead(cache, uuids, |uuids| - 1);
      PlanAfterIsReconcile(left, uuids[1..]);
      ReconcileHead(cache, uuids);
    }
  }

  /** The accessories a plan restores, in speaker order. */
  function Restored(restored: seq<Option<PlatformAccessory>>): seq<PlatformAccessory> {
    if restored == [] then []
    else match restored[0]
      case None => Restored(restored[1..])
      case Some(a) => [a] + Restored(restored[1..])
  }

  /** Every cached accessory is either restored exactly once or retired, never both. */
  lemma {:induction false} ReconcilePartition(cache: seq<PlatformAccessory>, uuids: seq<string>)
    ensures var plan := Reconcile(cache, uuids);
      multiset(Restored(plan.restored)) + multiset(plan.retired) == multiset(cache)
    decreases |uuids|
  {
    if uuids != [] {
      match FindByUuid(cache, uuids[0])
      case None =>
        ReconcilePartition(cache, uuids[1..]);
      case Some(i) =>
        SpliceContents(cache, i);
        ReconcilePartition(RemoveAt(cache, i), uuids[1..]);
    }
  }

  /** A speaker that found no cached accessory leaves none with its UUID for retirement. */
  lemma {:induction false} CreatedUuidNotRetired(cache: seq<PlatformAccessory>, uuids: seq<string>, k: nat)
    requires k < |uuids| && Reconcile(cache, uuids).restored[k] == None
    ensures forall c :: c in Reconcile(cache, uuids).retired ==> c.uuid != uuids[k]
    decreases |uuids|
  {
    match FindByUuid(cache, uuids[0])
    case None =>
      if k > 0 {
        CreatedUuidNotRetired(cache, uuids[1..], k - 1);
      }
    case Some(i) =>
      CreatedUuidNotRetired(RemoveAt(cache, i), uuids[1..], k - 1);
  }

  /** A cached accessory whose UUID no speaker has is retired. */
  lemma {:induction false} UnmatchedIsRetired(cache: seq<PlatformAccessory>, uuids: seq<string>, c: PlatformAccessory)
    requires c in cache && c.uuid !in uuids
    ensures c in Reconcile(cache, uuids).retired
    decreases |uuids|
  {
    if uuids != [] {
      match FindByUuid(cache, uuids[0])
      case None =>
        UnmatchedIsRetired(cache, uuids[1..], c);
      case Some(i) =>
        assert cache[i] != c;
        SpliceContents(cache, i);
        var rest := RemoveAt(cache, i);
        UnmatchedIsRetired(rest, uuids[1..], c);
    }
  }

  /** The cache holds each accessory once. */
  ghost predicate NoDuplicates(cache: seq<PlatformAccessory>) {
    forall c :: c in cache ==> multiset(cache)[c] == 1
  }

  /** No two cached accessories share a UUID. */
  ghost predicate DistinctUuids(cache: seq<PlatformAccessory>) {
    forall i, j :: 0 <= i < j < |cache| ==> cache[i].uuid != cache[j].uuid
  }

  /** With each accessory cached once, a restored accessory is never in the unregister batch. */
  lemma RestoredNotRetired(cache: seq<PlatformAccessory>, uuids: seq<string>, k: nat)
    requires NoDuplicates(cache)
    requires k < |uuids| && Reconcile(cache, uuids).restored[k].Some?
    ensures Reconcile(cache, uuids).restored[k].value !in Reconcile(cache, uuids).retired
  {
    var plan := Reconcile(cache, uuids);
    var a := plan.restored[k].value;
    RestoredContains(plan.restored, k);
    ReconcilePartition(cache, uuids);
    assert multiset(Restored(plan.restored))[a] >= 1;
  }

  lemma {:induction false} RestoredContains(restored: seq<Option<PlatformAccessory>>, k: nat)
    requires k < |restored| && restored[k].Some?
    ensures restored[k].value in Restored(restored)
    decreases |restored|
  {
    if k > 0 {
      RestoredContains(restored[1..], k - 1);
    }
  }

  /**
   * When UUIDs are unique on both sides, a speaker restores a cached
   * accessory exactly when one with its UUID is cached.
   */
  lemma {:induction false} RestoredIffCached(cache: seq<PlatformAccessory>, uuids: seq<string>, k: nat)
    requires k < |uuids|
    requires forall i, j :: 0 <= i < j < |uuids| ==> uuids[i] != uuids[j]
    ensures Reconcile(cache, uuids).restored[k].Some? <==> exists c :: c in cache && c.uuid == uuids[k]
    decreases |uuids|
  {
    var first := FindByUuid(cache, uuids[0]);
    if k == 0 {
      if first.Some? {
        assert cache[first.value] in cache;
      }
    } else {
      assert forall i, j :: 0 <= i < j < |uuids[1..]| ==> uuids[1..][i] != uuids[1..][j] by {
        forall i, j | 0 <= i < j < |uuids[1..]| ensures uuids[1..][i] != uuids[1..][j] {
          assert uuids[1..][i] == uuids[i + 1] && uuids[1..][j] == uuids[j + 1];
        }
      }
      assert uuids[1..][k - 1] == uuids[k];
      match first
      case None =>
        var tail := Reconcile(cache, uuids[1..]);
        RestoredIffCached(cache, uuids[1..], k - 1);
        assert Reconcile(cache, uuids) == Plan([None] + tail.restored, tail.retired);
        assert ([None] + tail.restored)[k] == tail.restored[k - 1];
      case Some(i) =>
        var rest := RemoveAt(cache, i);
        SpliceContents(cache, i);
        var tail := Reconcile(rest, uuids[1..]);
        RestoredIffCached(rest, uuids[1..], k - 1);
        assert Reconcile(cache, uuids) == Plan([Some(cache[i])] + tail.restored, tail.retired);
        assert ([Some(cache[i])] + tail.restored)[k] == tail.restored[k - 1];
        if c :| c in cache && c.uuid == uuids[k] {
          assert c != cache[i] by { assert uuids[0] != uuids[k]; }
          assert c in rest;
        }
    }
  }

  /** With cached UUIDs unique, exactly the accessories no speaker claims are retired. */
  lemma RetiredIffUnmatched(cache: seq<PlatformAccessory>, uuids: seq<string>, c: PlatformAccessory)
    requires DistinctUuids(cache)
    ensures c in Reconcile(cache, uuids).retired <==> c in cache && c.uuid !in uuids
  {
    if c in cache && c.uuid !in uuids {
      UnmatchedIsRetired(cache, uuids, c);
    }
    if c in Reconcile(cache, uuids).retired {
      RetiredNoSpeaker(cache, uuids, c);
    }
  }

  lemma {:induction false} RetiredNoSpeaker(cache: seq<PlatformAccessory>, uuids: seq<string>, c: PlatformAccessory)
    requires DistinctUuids(cache)
    requires c in Reconcile(cache, uuids).retired
    ensures c.uuid !in uuids
    decreases |uuids|
  {
    if uuids != [] {
      match FindByUuid(cache, uuids[0])
      case None =>
        RetiredNoSpeaker(cache, uuids[1..], c);
      case Some(i) =>
        var rest := RemoveAt(cache, i);
        SpliceContents(cache, i);
        RemoveAtDistinctUuids(cache, i);
        RetiredNoSpeaker(rest, uuids[1..], c);
        // c survived the removal, so it sits at another position than the
        // accessory found for uuids[0], and unique UUIDs tell them apart
        var p :| 0 <= p < |rest| && rest[p] == c;
        assert cache[if p < i then p else p + 1] == c;
    }
  }

  lemma RemoveAtDistinctUuids(cache: seq<PlatformAccessory>, i: nat)
    requires i < |cache| && DistinctUuids(cache)
    ensures DistinctUuids(RemoveAt(cache, i))
  {
    var rest := RemoveAt(cache, i);
    SpliceContents(cache, i);
    forall p, q | 0 <= p < q < |rest| ensures rest[p].uuid != rest[q].uuid {
      assert rest[p] == cache[if p < i then p else p + 1];
      assert rest[q] == cache[if q < i then q else q + 1];
    }
  }

  /** The host call for one speaker: an update when it restored `a`, a registration when it created it. */
  function HostCall(restored: Option<PlatformAccessory>, a: PlatformAccessory): HostAction {
    if restored.Some? then UpdatePlatformAccessories([a]) else RegisterPlatformAccessories([a])
  }

  /**
   * The host calls made for the speakers, in order: an update for a restored
   * accessory, a registration for a created one.
   */
  function HostCalls(restored: seq<Option<PlatformAccessory>>, added: seq<PlatformAccessory>): seq<HostAction>
    requires |restored| == |added|
  {
    seq(|restored|, k requires 0 <= k < |restored| => HostCall(restored[k], added[k]))
  }

  /** Concatenation is associative. */
  lemma AppendAssoc<T>(a: seq<T>, b: seq<T>, c: seq<T>)
    ensures a + (b + c) == (a + b) + c
  {
  }

  /** One unregister call for whatever is left in the cache, and none when nothing is. */
  function RetireCalls(retired: seq<PlatformAccessory>): seq<HostAction> {
    if retired == [] then [] else [UnregisterPlatformAccessories(retired)]
  }

  /** The UUID `api.hap.uuid.generate` derives from a speaker's Item ID. */
  function Uuid(generate: string -> string, device: SoundItem): string {
    generate(device.itemId)
  }

  /** The UUID of each speaker, in order. */
  function SpeakerUuids(generate: string -> string, speakers: seq<SoundItem>): seq<string> {
    seq(|speakers|, k requires 0 <= k < |speakers| => Uuid(generate, speakers[k]))
  }

  ghost predicate Injective(generate: string -> string) {
    forall x, y :: generate(x) == generate(y) ==> x == y
  }

  /** An injective generator gives distinct Item IDs distinct UUIDs. */
  lemma DistinctSpeakerUuids(generate: string -> string, speakers: seq<SoundItem>)
    requires Injective(generate)
    requires forall i, j :: 0 <= i < j < |speakers| ==> speakers[i].itemId != speakers[j].itemId
    ensures var uuids := SpeakerUuids(generate, speakers);
      forall i, j :: 0 <= i < j < |uuids| ==> uuids[i] != uuids[j]
  {
  }

  /** The default UUID after visiting the first `n` speakers in order, starting from `current`. */
  function DefaultAfter(generate: string -> string, current: string, speakers: seq<SoundItem>, n: nat): string
    requires n <= |speakers|
    decreases n
  {
    if n == 0 then current
    else if IsDefault(speakers[n - 1]) then Uuid(generate, speakers[n - 1])
    else DefaultAfter(generate, current, speakers, n - 1)
  }

  /** No speaker among the first `n` marked default: the default UUID is untouched. */
  lemma {:induction false} DefaultUnchanged(generate: string -> string, current: string, speakers: seq<SoundItem>, n: nat)
    requires n <= |speakers|
    requires forall k :: 0 <= k < n ==> !IsDefault(speakers[k])
    ensures DefaultAfter(generate, current, speakers, n) == current
    decreases n
  {
    if n > 0 {
      DefaultUnchanged(generate, current, speakers, n - 1);
    }
  }

  /** Otherwise the last speaker marked default wins. */
  lemma {:induction false} DefaultIsLastMarked(generate: string -> string, current: string, speakers: seq<SoundItem>,
                                               n: nat, j: nat)
    requires j < n <= |speakers| && IsDefault(speakers[j])
    requires forall k :: j < k < n ==> !IsDefault(speakers[k])
    ensures DefaultAfter(generate, current, speakers, n) == Uuid(generate, speakers[j])
    decreases n
  {
    if j < n - 1 {
      DefaultIsLastMarked(generate, current, speakers, n - 1, j);
    }
  }
}
