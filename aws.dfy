/** Translation of EC2 instance descriptors and the per-account, per-region
    accumulation of a snapshot (inventory/inventoryengine/aws.go). The SDK
    calls are outside the model: a fetch arrives as an already-obtained
    `SubFetch` value. */
module Aws {
  import opened Wrappers
  import opened Text
  import opened Instances

  /** `types.Tag`. */
  datatype Tag = Tag(key: string, value: string)

  /** The fields of `types.Instance` the inventory engine reads. The pointer fields the
      translation tests for nil are `Option`s, and so are the three it
      dereferences without a test. `State` (a pointer whose `Name` the
      translation reads) and the tags' `Key` and `Value` pointers are
      dereferenced without a test as well; they are plain values here, so
      their nil cases are not modelled. The addresses are listed only to
      show that the translation drops them. */
  datatype Descriptor = Descriptor(
    instanceId: Option<string>,
    imageId: Option<string>,
    launchTime: Option<Time>,
    keyName: Option<string>,
    subnetId: Option<string>,
    vpcId: Option<string>,
    privateIpAddress: Option<string>,
    publicIpAddress: Option<string>,
    stateName: string,
    tags: seq<Tag>)

  /** `InstanceId`, `ImageId` and `LaunchTime` are present: the translation
      dereferences them without a nil test (and so does the debug line
      before it), so a descriptor lacking one makes the Go code panic. */
  predicate WellFormed(d: Descriptor) {
    d.instanceId.Some? && d.imageId.Some? && d.launchTime.Some?
  }

  const NoTagMessage := "tag does not exist"

  /** `tags[j]` is the first tag whose key equals `tag` up to case. */
  predicate FirstMatch(tags: seq<Tag>, tag: string, j: int) {
    0 <= j < |tags| && EqualFold(tag, tags[j].key) && forall j' :: 0 <= j' < j ==> !EqualFold(tag, tags[j'].key)
  }

  /** A first match after a non-matching head is a first match of the whole list. */
  lemma FirstMatchShift(tags: seq<Tag>, tag: string, j: int)
    requires tags != [] && !EqualFold(tag, tags[0].key) && FirstMatch(tags[1..], tag, j)
    ensures FirstMatch(tags, tag, j + 1) && tags[j + 1] == tags[1..][j]
  {
    forall j' | 0 <= j' < j + 1 ensures !EqualFold(tag, tags[j'].key) {
      if j' > 0 { assert tags[j'] == tags[1..][j' - 1]; }
    }
  }

  /** Case-insensitive, first-match tag lookup. */
  function GetTag(tags: seq<Tag>, tag: string): (r: Result<string>)
    ensures r.Err? <==> forall j :: 0 <= j < |tags| ==> !EqualFold(tag, tags[j].key)
    ensures r.Err? ==> r.message == NoTagMessage
    ensures r.Ok? ==> exists j :: FirstMatch(tags, tag, j) && r.value == tags[j].value
  {
    if tags == [] then Err(NoTagMessage)
    else if EqualFold(tag, tags[0].key) then
      assert FirstMatch(tags, tag, 0);
      Ok(tags[0].value)
    else
      var r := GetTag(tags[1..], tag);
      assert r.Ok? ==> exists j :: FirstMatch(tags, tag, j) && r.value == tags[j].value by {
        if r.Ok? {
          var j :| FirstMatch(tags[1..], tag, j) && r.value == tags[1..][j].value;
          FirstMatchShift(tags, tag, j);
        }
      }
      assert r.Err? ==> forall j :: 0 <= j < |tags| ==> !EqualFold(tag, tags[j].key) by {
        if r.Err? {
          forall j | 0 <= j < |tags| ensures !EqualFold(tag, tags[j].key) {
            if j > 0 { assert tags[j] == tags[1..][j - 1]; }
          }
        }
      }
      r
  }

  /** The fields the translation never sets hold Go's zero values. */
  predicate UntouchedByTranslation(r: Instance) {
    && r.account == "" && r.cloudProvider == "" && r.env == "" && r.notes == ""
    && r.os == "" && r.privateIp == "" && r.publicIp == "" && r.region == ""
    && r.size == "" && !r.skip && r.sshKey == "" && r.sshPort == ""
    && r.tags == map[] && r.user == ""
  }

  /** Map a provider descriptor to the canonical record. */
  function TranslateInstance(d: Descriptor): (r: Instance)
    requires WellFormed(d)
    ensures r.id == d.instanceId.value && r.ami == d.imageId.value
    ensures r.launchTime == d.launchTime.value && r.state == d.stateName
    ensures d.keyName.None? ==> r.keypairName == ""
    ensures d.keyName.Some? ==> r.keypairName == d.keyName.value
    ensures d.subnetId.None? ==> r.subnet == ""
    ensures d.subnetId.Some? ==> r.subnet == d.subnetId.value
    ensures d.vpcId.None? ==> r.vpc == ""
    ensures d.vpcId.Some? ==> r.vpc == d.vpcId.value
    ensures GetTag(d.tags, "Name").Err? ==> r.name == ""
    ensures GetTag(d.tags, "Name").Ok? ==> r.name == GetTag(d.tags, "Name").value
    ensures UntouchedByTranslation(r)
  {
    var name := match GetTag(d.tags, "Name") case Ok(v) => v case Err(_) => "";
    var keyname := if d.keyName.Some? then d.keyName.value else "";
    var subnet := if d.subnetId.Some? then d.subnetId.value else "";
    var vpcid := if d.vpcId.Some? then d.vpcId.value else "";
    ZeroInstance.(
      id := d.instanceId.value,
      ami := d.imageId.value,
      keypairName := keyname,
      launchTime := d.launchTime.value,
      name := name,
      state := d.stateName,
      subnet := subnet,
      vpc := vpcid)
  }

  /** The translation copies no address, so a freshly translated instance
      has no connection address whatever the descriptor reports. */
  lemma TranslatedHasNoAddress(d: Descriptor)
    requires WellFormed(d)
    ensures GetConnectionAddress(TranslateInstance(d)) == Err(NoAddressMessage)
  {
  }

  /** The outcome of one (profile, region) round of SDK calls:
      `config.LoadDefaultConfig` failed, `DescribeInstances` failed, or the
      descriptors of all reservations, in order. */
  datatype FetchOutcome =
    | ConfigFailed
    | DescribeFailed(message: string)
    | Described(descriptors: seq<Descriptor>)

  datatype SubFetch = SubFetch(profile: string, region: string, outcome: FetchOutcome)

  /** One descriptor together with the profile and region it was fetched for. */
  datatype Sighting = Sighting(profile: string, region: string, descriptor: Descriptor)

  /** Every descriptor the fetches deliver is well formed. */
  predicate AllWellFormed(fetches: seq<SubFetch>) {
    forall g, k ::
      (0 <= g < |fetches| && fetches[g].outcome.Described? && 0 <= k < |fetches[g].outcome.descriptors|) ==>
        WellFormed(fetches[g].outcome.descriptors[k])
  }

  /** The fetches the accumulation reads, those before the first failure,
      deliver only well-formed descriptors. Fetches after a failure are
      never read and may hold anything. */
  predicate ReadFetchesWellFormed(fetches: seq<SubFetch>) {
    AllWellFormed(fetches[..LeadingDescribed(fetches)])
  }

  /** The number of fetches before the first one that failed. */
  function LeadingDescribed(fetches: seq<SubFetch>): (n: nat)
    ensures n <= |fetches|
    ensures forall g :: 0 <= g < n ==> fetches[g].outcome.Described?
    ensures n < |fetches| ==> !fetches[n].outcome.Described?
  {
    if fetches == [] || !fetches[0].outcome.Described? then 0
    else 1 + LeadingDescribed(fetches[1..])
  }

  /** The first failed fetch, or the end, fixes the count of leading successes. */
  lemma LeadingDescribedIs(fetches: seq<SubFetch>, f: nat)
    requires f <= |fetches| && forall g :: 0 <= g < f ==> fetches[g].outcome.Described?
    requires f < |fetches| ==> !fetches[f].outcome.Described?
    ensures LeadingDescribed(fetches) == f
  {
  }

  function SightingsOf(f: SubFetch): (r: seq<Sighting>)
    requires f.outcome.Described?
    ensures |r| == |f.outcome.descriptors|
    ensures forall k :: 0 <= k < |r| ==> r[k] == Sighting(f.profile, f.region, f.outcome.descriptors[k])
  {
    seq(|f.outcome.descriptors|, k requires 0 <= k < |f.outcome.descriptors| =>
      Sighting(f.profile, f.region, f.outcome.descriptors[k]))
  }

  /** All descriptors of a run of successful fetches, in visiting order. */
  function Sightings(fetches: seq<SubFetch>): (r: seq<Sighting>)
    requires forall g :: 0 <= g < |fetches| ==> fetches[g].outcome.Described?
    requires AllWellFormed(fetches)
    ensures forall j :: 0 <= j < |r| ==> WellFormed(r[j].descriptor)
  {
    if fetches == [] then []
    else
      var pre := fetches[..|fetches| - 1];
      assert AllWellFormed(pre) by {
        forall g, k | 0 <= g < |pre| && pre[g].outcome.Described? && 0 <= k < |pre[g].outcome.descriptors|
          ensures WellFormed(pre[g].outcome.descriptors[k])
        {
          assert pre[g] == fetches[g];
        }
      }
      Sightings(pre) + SightingsOf(fetches[|fetches| - 1])
  }

  /** The env configured for a profile; a missing account reads as Go's zero struct. */
  function EnvOf(accounts: map<string, string>, profile: string): string {
    if profile in accounts then accounts[profile] else ""
  }

  predicate SightingsWellFormed(xs: seq<Sighting>) {
    forall j :: 0 <= j < |xs| ==> WellFormed(xs[j].descriptor)
  }

  function IdOf(s: Sighting): string
    requires WellFormed(s.descriptor)
  {
    s.descriptor.instanceId.value
  }

  /** A translated instance stamped with where it was found. */
  function Stamp(s: Sighting, accounts: map<string, string>): (r: Instance)
    requires WellFormed(s.descriptor)
    ensures r.id == IdOf(s)
    ensures r.account == s.profile && r.region == s.region && r.env == EnvOf(accounts, s.profile)
  {
    TranslateInstance(s.descriptor).(account := s.profile, region := s.region, env := EnvOf(accounts, s.profile))
  }

  /** The map after storing every sighting, in order, under its own ID. */
  function Accumulate(m: map<string, Instance>, accounts: map<string, string>, xs: seq<Sighting>): map<string, Instance>
    requires SightingsWellFormed(xs)
  {
    if xs == [] then m
    else
      var inst := Stamp(xs[|xs| - 1], accounts);
      Accumulate(m, accounts, xs[..|xs| - 1])[inst.id := inst]
  }

  /** Storing one more sighting is one more map update. */
  lemma AccumulateSnoc(m: map<string, Instance>, accounts: map<string, string>, xs: seq<Sighting>, x: Sighting)
    requires SightingsWellFormed(xs) && WellFormed(x.descriptor)
    ensures SightingsWellFormed(xs + [x])
    ensures Accumulate(m, accounts, xs + [x]) == Accumulate(m, accounts, xs)[IdOf(x) := Stamp(x, accounts)]
  {
    assert (xs + [x])[..|xs|] == xs;
  }

  lemma AllWellFormedPrefix(fetches: seq<SubFetch>, n: nat)
    requires AllWellFormed(fetches) && n <= |fetches|
    ensures AllWellFormed(fetches[..n])
  {
    forall g, k | 0 <= g < n && fetches[..n][g].outcome.Described? && 0 <= k < |fetches[..n][g].outcome.descriptors|
      ensures WellFormed(fetches[..n][g].outcome.descriptors[k])
    {
      assert fetches[..n][g] == fetches[g];
    }
  }

  lemma SliceSnoc<T>(a: seq<T>, b: seq<T>, k: nat)
    requires k < |b|
    ensures a + b[..k + 1] == (a + b[..k]) + [b[k]]
  {
    assert b[..k + 1] == b[..k] + [b[k]];
  }

  /** One turn of the innermost loop: storing the next sighting of a fetch
      extends the accumulation by it and keeps every entry under its ID. */
  lemma StoreStep(m: map<string, Instance>, accounts: map<string, string>, seen: seq<Sighting>, fetch: SubFetch, k: nat)
    requires fetch.outcome.Described? && k < |fetch.outcome.descriptors|
    requires SightingsWellFormed(seen + SightingsOf(fetch)[..k]) && WellFormed(fetch.outcome.descriptors[k])
    requires m == Accumulate(map[], accounts, seen + SightingsOf(fetch)[..k]) && KeyedById(m)
    ensures SightingsWellFormed(seen + SightingsOf(fetch)[..k + 1])
    ensures Accumulate(map[], accounts, seen + SightingsOf(fetch)[..k + 1])
      == m[IdOf(SightingsOf(fetch)[k]) := Stamp(SightingsOf(fetch)[k], accounts)]
    ensures KeyedById(m[IdOf(SightingsOf(fetch)[k]) := Stamp(SightingsOf(fetch)[k], accounts)])
  {
    var found := SightingsOf(fetch);
    AccumulateSnoc(map[], accounts, seen + found[..k], found[k]);
    SliceSnoc(seen, found, k);
  }

  /** A fetch with only successes before it is read, so its descriptors are
      well formed. */
  lemma ReadFetchWellFormed(fetches: seq<SubFetch>, f: nat)
    requires ReadFetchesWellFormed(fetches)
    requires f < |fetches| && forall g :: 0 <= g <= f ==> fetches[g].outcome.Described?
    ensures AllWellFormed(fetches[..f + 1])
    ensures forall k :: 0 <= k < |fetches[f].outcome.descriptors| ==> WellFormed(fetches[f].outcome.descriptors[k])
  {
    var lead := LeadingDescribed(fetches);
    assert f < lead;
    AllWellFormedPrefix(fetches[..lead], f + 1);
    assert fetches[..lead][..f + 1] == fetches[..f + 1];
    assert fetches[..f + 1][f] == fetches[f];
  }

  /** The sightings of one more successful fetch follow those already seen. */
  lemma SightingsSnoc(fetches: seq<SubFetch>, f: nat)
    requires f < |fetches| && AllWellFormed(fetches[..f + 1])
    requires forall g :: 0 <= g <= f ==> fetches[g].outcome.Described?
    ensures AllWellFormed(fetches[..f])
    ensures Sightings(fetches[..f + 1]) == Sightings(fetches[..f]) + SightingsOf(fetches[f])
  {
    AllWellFormedPrefix(fetches[..f + 1], f);
    assert fetches[..f + 1][..f] == fetches[..f];
  }

  /** No later sighting carries the ID of sighting `j`. */
  predicate LastWithId(xs: seq<Sighting>, j: int)
    requires SightingsWellFormed(xs)
    requires 0 <= j < |xs|
  {
    forall j' :: j < j' < |xs| ==> IdOf(xs[j']) != IdOf(xs[j])
  }

  /** The accumulation holds exactly the old keys and the sighted IDs. */
  lemma {:induction false} AccumulateKeys(m: map<string, Instance>, accounts: map<string, string>, xs: seq<Sighting>, k: string)
    requires SightingsWellFormed(xs)
    ensures k in Accumulate(m, accounts, xs) <==> k in m || exists j :: 0 <= j < |xs| && IdOf(xs[j]) == k
  {
    if xs != [] {
      var n := |xs| - 1;
      var pre := xs[..n];
      assert SightingsWellFormed(pre);
      AccumulateKeys(m, accounts, pre, k);
      var last := Stamp(xs[n], accounts);
      assert Accumulate(m, accounts, xs) == Accumulate(m, accounts, pre)[last.id := last];
      SightedSnoc(xs, k);
    }
  }

  /** Some sighting in `xs` carries ID `k`. */
  predicate Sighted(xs: seq<Sighting>, k: string)
    requires SightingsWellFormed(xs)
  {
    exists j :: 0 <= j < |xs| && IdOf(xs[j]) == k
  }

  /** A key is sighted in `xs` iff it is sighted before the last element or is the last one's ID. */
  lemma SightedSnoc(xs: seq<Sighting>, k: string)
    requires SightingsWellFormed(xs) && xs != []
    ensures SightingsWellFormed(xs[..|xs| - 1])
    ensures Sighted(xs, k) <==> Sighted(xs[..|xs| - 1], k) || IdOf(xs[|xs| - 1]) == k
  {
    var pre := xs[..|xs| - 1];
    assert SightingsWellFormed(pre);
    if exists j :: 0 <= j < |pre| && IdOf(pre[j]) == k {
      var j :| 0 <= j < |pre| && IdOf(pre[j]) == k;
      assert IdOf(xs[j]) == k;
    }
    if exists j :: 0 <= j < |xs| && IdOf(xs[j]) == k {
      var j :| 0 <= j < |xs| && IdOf(xs[j]) == k;
      if j < |pre| { assert IdOf(pre[j]) == k; }
    }
  }

  /** Each sighted ID maps to the stamped instance of its last sighting: a
      later duplicate overwrites an earlier one. */
  lemma {:induction false} AccumulateLastWins(m: map<string, Instance>, accounts: map<string, string>, xs: seq<Sighting>, j: int)
    requires SightingsWellFormed(xs)
    requires 0 <= j < |xs| && LastWithId(xs, j)
    ensures IdOf(xs[j]) in Accumulate(m, accounts, xs)
    ensures Accumulate(m, accounts, xs)[IdOf(xs[j])] == Stamp(xs[j], accounts)
  {
    var n := |xs| - 1;
    var pre, x := xs[..n], xs[n];
    assert SightingsWellFormed(pre);
    assert xs == pre + [x];
    AccumulateSnoc(m, accounts, pre, x);
    if j < n {
      assert pre[j] == xs[j];
      assert LastWithId(pre, j) by {
        forall j' | j < j' < |pre| ensures IdOf(pre[j']) != IdOf(pre[j]) { assert pre[j'] == xs[j']; }
      }
      AccumulateLastWins(m, accounts, pre, j);
      assert IdOf(x) != IdOf(xs[j]);
    }
  }

  /** A key no sighting carries keeps its old value. */
  lemma {:induction false} AccumulateKeepsUnsighted(m: map<string, Instance>, accounts: map<string, string>, xs: seq<Sighting>, k: string)
    requires SightingsWellFormed(xs)
    requires k in m && forall j :: 0 <= j < |xs| ==> IdOf(xs[j]) != k
    ensures k in Accumulate(m, accounts, xs) && Accumulate(m, accounts, xs)[k] == m[k]
  {
    if xs != [] {
      var pre := xs[..|xs| - 1];
      assert SightingsWellFormed(pre);
      assert forall j :: 0 <= j < |pre| ==> IdOf(pre[j]) != k by {
        forall j | 0 <= j < |pre| ensures IdOf(pre[j]) != k { assert pre[j] == xs[j]; }
      }
      AccumulateKeepsUnsighted(m, accounts, pre, k);
    }
  }

  /** Every instance a map holds is keyed by its own ID. */
  predicate KeyedById(m: map<string, Instance>) {
    forall k :: k in m ==> m[k].id == k
  }

  lemma {:induction false} AccumulateKeyedById(m: map<string, Instance>, accounts: map<string, string>, xs: seq<Sighting>)
    requires SightingsWellFormed(xs)
    requires KeyedById(m)
    ensures KeyedById(Accumulate(m, accounts, xs))
  {
    if xs != [] {
      assert SightingsWellFormed(xs[..|xs| - 1]);
      AccumulateKeyedById(m, accounts, xs[..|xs| - 1]);
    }
  }

  /** What `GetInstances` reports: only a failed `DescribeInstances` ends the
      process; a failed configuration load silently stops the round. */
  function FetchResult(fetches: seq<SubFetch>): Outcome<()>
  {
    var n := LeadingDescribed(fetches);
    if n < |fetches| && fetches[n].outcome.DescribeFailed? then
      Halted("Unable to get instances: " + fetches[n].outcome.message)
    else Returned(())
  }

  /** The `AWS` object. `loaded` is "the `Instances` map is not nil"; the EC2
      client, the profile and the region set by `Init` are not modelled. */
  class AWS {
    var instances: map<string, Instance>
    var loaded: bool

    ghost predicate Valid()
      reads this
    {
      && KeyedById(instances)
      && (!loaded ==> instances == map[])
    }

    /** `&AWS{}` as `NewAWS` builds it. */
    constructor ()
      ensures Valid() && instances == map[] && !loaded
    {
      instances := map[];
      loaded := false;
    }

    /** The keys of `instances`, each exactly once, in map iteration order. */
    method GetInstanceList() returns (ids: seq<string>)
      ensures forall k :: k in ids <==> k in instances
      ensures forall j, j' :: 0 <= j < j' < |ids| ==> ids[j] != ids[j']
      ensures |ids| == |instances|
    {
      ids := [];
      var remaining := instances.Keys;
      while remaining != {}
        invariant remaining <= instances.Keys
        invariant forall k :: k in ids <==> k in instances && k !in remaining
        invariant forall j, j' :: 0 <= j < j' < |ids| ==> ids[j] != ids[j']
        invariant |ids| + |remaining| == |instances|
        decreases remaining
      {
        var id :| id in remaining;
        ids := ids + [id];
        remaining := remaining - {id};
      }
    }

    /** The accumulation loop of `GetInstances`, over the fetches in the order
        the nested profile and region loops visit them. Only a nil map is
        filled; a loaded one is left as it is. */
    method GetInstances(accounts: map<string, string>, fetches: seq<SubFetch>) returns (r: Outcome<()>)
      requires Valid() && ReadFetchesWellFormed(fetches)
      modifies this
      ensures Valid() && loaded
      ensures old(loaded) ==> instances == old(instances) && r == Returned(())
      ensures !old(loaded) ==> r == FetchResult(fetches)
      ensures !old(loaded) ==>
        AllWellFormed(fetches[..LeadingDescribed(fetches)]) &&
        instances == Accumulate(map[], accounts, Sightings(fetches[..LeadingDescribed(fetches)]))
    {
      if loaded {
        return Returned(());
      }
      instances := map[];
      loaded := true;
      r := FillInstances(accounts, fetches);
    }

    /** The profile and region loops of `GetInstances`, filling the fresh map
        that `make` has just allocated. */
    method FillInstances(accounts: map<string, string>, fetches: seq<SubFetch>) returns (r: Outcome<()>)
      requires loaded && instances == map[] && ReadFetchesWellFormed(fetches)
      modifies this`instances
      ensures Valid() && r == FetchResult(fetches)
      ensures AllWellFormed(fetches[..LeadingDescribed(fetches)]) &&
        instances == Accumulate(map[], accounts, Sightings(fetches[..LeadingDescribed(fetches)]))
    {
      var f := 0;
      assert AllWellFormed(fetches[..0]);
      while f < |fetches|
        invariant 0 <= f <= |fetches|
        invariant forall g :: 0 <= g < f ==> fetches[g].outcome.Described?
        invariant AllWellFormed(fetches[..f])
        invariant instances == Accumulate(map[], accounts, Sightings(fetches[..f]))
        invariant loaded && Valid()
      {
        match fetches[f].outcome {
          case ConfigFailed =>
            LeadingDescribedIs(fetches, f);
            return Returned(());
          case DescribeFailed(message) =>
            LeadingDescribedIs(fetches, f);
            return Halted("Unable to get instances: " + message);
          case Described(_) =>
            StoreFetch(accounts, fetches, f);
        }
        f := f + 1;
      }
      assert fetches[..f] == fetches;
      LeadingDescribedIs(fetches, f);
      r := Returned(());
    }

    /** One turn of the region loop whose fetch succeeded. */
    method StoreFetch(accounts: map<string, string>, fetches: seq<SubFetch>, f: nat)
      requires ReadFetchesWellFormed(fetches)
      requires f < |fetches| && forall g :: 0 <= g <= f ==> fetches[g].outcome.Described?
      requires loaded && AllWellFormed(fetches[..f]) && Valid() && instances == Accumulate(map[], accounts, Sightings(fetches[..f]))
      modifies this`instances
      ensures AllWellFormed(fetches[..f + 1]) && Valid()
      ensures instances == Accumulate(map[], accounts, Sightings(fetches[..f + 1]))
    {
      ReadFetchWellFormed(fetches, f);
      SightingsSnoc(fetches, f);
      StoreDescribed(accounts, fetches[f], Sightings(fetches[..f]));
    }

    /** The innermost loops of `GetInstances` for one successful fetch:
        translate each descriptor, stamp it with profile, region and env,
        and store it under its ID. */
    method StoreDescribed(accounts: map<string, string>, fetch: SubFetch, ghost seen: seq<Sighting>)
      requires fetch.outcome.Described? && SightingsWellFormed(seen)
      requires forall k :: 0 <= k < |fetch.outcome.descriptors| ==> WellFormed(fetch.outcome.descriptors[k])
      requires loaded && Valid() && instances == Accumulate(map[], accounts, seen)
      modifies this`instances
      ensures Valid() && SightingsWellFormed(seen + SightingsOf(fetch))
      ensures instances == Accumulate(map[], accounts, seen + SightingsOf(fetch))
    {
      var ds := fetch.outcome.descriptors;
      ghost var found := SightingsOf(fetch);
      var k := 0;
      assert seen + found[..k] == seen;
      while k < |ds|
        invariant 0 <= k <= |ds|
        invariant SightingsWellFormed(seen + found[..k])
        invariant instances == Accumulate(map[], accounts, seen + found[..k])
        invariant Valid()
      {
        var instance := TranslateInstance(ds[k]);
        instance := instance.(account := fetch.profile, region := fetch.region, env := EnvOf(accounts, fetch.profile));
        assert instance == Stamp(found[k], accounts);
        StoreStep(instances, accounts, seen, fetch, k);
        instances := instances[instance.id := instance];
        k := k + 1;
      }
      assert found[..k] == found;
    }
  }
}
