/** The reconciliation engine (inventory/inventoryengine/inventoryengine.go):
    a round upserts the provider snapshot into the store and then flags as
    terminated every active row the snapshot no longer holds; `AddNew`
    merges the snapshot's new instances into the engine's own map and
    probes each of them over SSH once per configured user. */
module InventoryEngine {
  import opened Wrappers
  import opened Instances
  import opened Aws
  import opened Store
  import opened SshTest

  // ----- marking terminations -----

  /** The IDs of `active`, in order, that `present` does not hold. */
  function Vanished(active: seq<string>, present: set<string>): seq<string> {
    if active == [] then []
    else
      var last := active[|active| - 1];
      Vanished(active[..|active| - 1], present) + (if last !in present then [last] else [])
  }

  lemma {:induction false} VanishedSpec(active: seq<string>, present: set<string>, id: string)
    ensures id in Vanished(active, present) <==> id in active && id !in present
  {
    if active != [] {
      var pre := active[..|active| - 1];
      VanishedSpec(pre, present, id);
      assert active == pre + [active[|active| - 1]];
    }
  }

  /** Active A, B, C against a provider listing B, C, D: only A is flagged. */
  lemma VanishedExample()
    ensures Vanished(["A", "B", "C"], {"B", "C", "D"}) == ["A"]
  {
    assert ["A", "B", "C"][..2] == ["A", "B"];
    assert ["A", "B"][..1] == ["A"];
    assert ["A"][..0] == [];
  }

  /** The rows after `MarkTerminated` succeeds against the snapshot's IDs. */
  function MarkedRows(rows: seq<Row>, present: set<string>): seq<Row> {
    Flagged(rows, Vanished(ActiveIds(rows), present))
  }

  /** After marking, an ID outside the snapshot has no active row, and an ID
      in it keeps whatever status it had. */
  lemma MarkTerminatedEffect(rows: seq<Row>, present: set<string>, id: string)
    ensures id !in present ==> !HasActive(MarkedRows(rows, present), id)
    ensures id in present ==> (HasActive(MarkedRows(rows, present), id) <==> HasActive(rows, id))
  {
    var v := Vanished(ActiveIds(rows), present);
    VanishedSpec(ActiveIds(rows), present, id);
    ActiveIdsSpec(rows, id);
    FlaggedDeactivates(rows, v, id);
  }

  // ----- a whole round -----

  /** The rows after a round: the snapshot upserted in map order, then,
      unless the store fails to list its active IDs, the vanished IDs flagged. */
  function RolledRows(rows: seq<Row>, snapshot: map<string, Instance>, order: seq<string>, now: Time, engineError: Option<string>): seq<Row>
    requires forall k :: k in order ==> k in snapshot
  {
    var upserted := UpsertAll(rows, snapshot, order, now);
    if engineError.Some? then upserted else MarkedRows(upserted, snapshot.Keys)
  }

  /** After a round in which the store answers, the active IDs are exactly
      the snapshot's non-terminated instances, whatever the store held before
      and in whatever order the map was visited. */
  lemma RollActiveExactly(rows: seq<Row>, snapshot: map<string, Instance>, order: seq<string>, now: Time, id: string)
    requires IsKeyOrder(order, snapshot.Keys) && KeyedById(snapshot)
    ensures HasActive(RolledRows(rows, snapshot, order, now, None), id) <==>
      id in snapshot && snapshot[id].state != Terminated
  {
    var upserted := UpsertAll(rows, snapshot, order, now);
    MarkTerminatedEffect(upserted, snapshot.Keys, id);
    if id in snapshot {
      UpsertAllActiveIff(rows, snapshot, order, now, id);
    }
  }

  /** When the store cannot list its active IDs the round still upserts the
      snapshot, but rows the snapshot no longer holds stay as they were. */
  lemma RollWithoutListingKeepsStale(rows: seq<Row>, snapshot: map<string, Instance>, order: seq<string>, now: Time, msg: string, id: string)
    requires IsKeyOrder(order, snapshot.Keys) && KeyedById(snapshot)
    ensures id in snapshot ==>
      (HasActive(RolledRows(rows, snapshot, order, now, Some(msg)), id) <==> snapshot[id].state != Terminated)
    ensures id !in snapshot ==>
      (HasActive(RolledRows(rows, snapshot, order, now, Some(msg)), id) <==> HasActive(rows, id))
  {
    if id in snapshot {
      UpsertAllActiveIff(rows, snapshot, order, now, id);
    } else {
      UpsertAllKeepsOthers(rows, snapshot, order, now, id);
    }
  }

  // ----- probing new instances -----

  /** The dials a probe makes and the abort that ends it, if any. */
  datatype Probe = Probe(requests: seq<Request>, halt: Option<string>)

  const AddressFailure := "Failure getting address."

  /** The panic of assigning into the nil `Instances` map. */
  const NilMapMessage := "assignment to entry in nil map"

  /** The user loop for one instance: one `TryConnect` per user, in order,
      with the key and no password; an abort ends the run, a success does not. */
  function ProbeUsers(address: string, port: string, key: string, users: seq<string>,
                      keyFile: string -> KeyFile, dial: Request -> SessionOutcome): Probe
  {
    if users == [] then Probe([], None)
    else
      var p := ProbeUsers(address, port, key, users[..|users| - 1], keyFile, dial);
      if p.halt.Some? then p
      else
        var a := TryConnectSpec(address, port, users[|users| - 1], key, "", None, keyFile, dial);
        Probe(p.requests + (if a.request.Some? then [a.request.value] else []),
              if a.outcome.Halted? then Some(a.outcome.message) else None)
  }

  /** Probing one instance, which must have an address. */
  function ProbeInstance(inst: Instance, users: seq<string>, keyFile: string -> KeyFile, dial: Request -> SessionOutcome): Probe {
    match GetConnectionAddress(inst)
    case Err(_) => Probe([], Some(AddressFailure))
    case Ok(address) => ProbeUsers(address, GetPort(inst), inst.sshKey, users, keyFile, dial)
  }

  /** `a.Instances[id]`: the zero record for a missing key. */
  function Lookup(m: map<string, Instance>, id: string): Instance {
    if id in m then m[id] else ZeroInstance
  }

  /** Probing every listed ID in order, stopping at the first abort. */
  function ProbeAll(ids: seq<string>, snapshot: map<string, Instance>, users: seq<string>,
                    keyFile: string -> KeyFile, dial: Request -> SessionOutcome): Probe
  {
    if ids == [] then Probe([], None)
    else
      var p := ProbeAll(ids[..|ids| - 1], snapshot, users, keyFile, dial);
      if p.halt.Some? then p
      else
        var q := ProbeInstance(Lookup(snapshot, ids[|ids| - 1]), users, keyFile, dial);
        Probe(p.requests + q.requests, q.halt)
  }

  /** With a usable key, an instance is dialled once per user, in the users'
      order, at its address and port with that key, whatever the dials answer. */
  lemma {:induction false} ProbeUsersDialsEveryUser(address: string, port: string, key: string, users: seq<string>,
                                                    keyFile: string -> KeyFile, dial: Request -> SessionOutcome)
    requires address != "" && key != "" && keyFile(key) == Usable
    ensures ProbeUsers(address, port, key, users, keyFile, dial).halt.None?
    ensures var rs := ProbeUsers(address, port, key, users, keyFile, dial).requests;
      |rs| == |users| &&
      forall j :: 0 <= j < |users| ==> rs[j] == Request(JoinHostPort(address, port), users[j], PublicKeys(key))
  {
    if users != [] {
      var n := |users| - 1;
      ProbeUsersDialsEveryUser(address, port, key, users[..n], keyFile, dial);
      TryConnectResult(address, port, users[n], key, "", None, keyFile, dial);
    }
  }

  /** Without a key (and the probe never sets a password) the first
      `TryConnect` ends the process before any dial. */
  lemma {:induction false} ProbeUsersWithoutKeyHalts(address: string, port: string, users: seq<string>,
                                                     keyFile: string -> KeyFile, dial: Request -> SessionOutcome)
    requires users != []
    ensures ProbeUsers(address, port, "", users, keyFile, dial) == Probe([], Some("No key or password provided."))
  {
    var n := |users| - 1;
    if n > 0 {
      ProbeUsersWithoutKeyHalts(address, port, users[..n], keyFile, dial);
    }
  }

  /** An instance fetched from the provider carries no IP address, so
      probing it aborts at once. */
  lemma FetchedInstanceHaltsProbe(s: Sighting, accounts: map<string, string>, users: seq<string>,
                                  keyFile: string -> KeyFile, dial: Request -> SessionOutcome)
    requires WellFormed(s.descriptor)
    ensures ProbeInstance(Stamp(s, accounts), users, keyFile, dial) == Probe([], Some(AddressFailure))
  {
    var t := TranslateInstance(s.descriptor);
    assert t.publicIp == "" && t.privateIp == "";
    assert Stamp(s, accounts).publicIp == "" && Stamp(s, accounts).privateIp == "";
  }

  /** Once a probe aborts, listing further IDs changes nothing. */
  lemma {:induction false} ProbeAllHaltIsFinal(ids: seq<string>, more: seq<string>, snapshot: map<string, Instance>,
                                               users: seq<string>, keyFile: string -> KeyFile, dial: Request -> SessionOutcome)
    requires ProbeAll(ids, snapshot, users, keyFile, dial).halt.Some?
    ensures ProbeAll(ids + more, snapshot, users, keyFile, dial) == ProbeAll(ids, snapshot, users, keyFile, dial)
  {
    if more == [] {
      assert ids + more == ids;
    } else {
      var n := |more| - 1;
      assert (ids + more)[..|ids + more| - 1] == ids + more[..n];
      ProbeAllHaltIsFinal(ids, more[..n], snapshot, users, keyFile, dial);
    }
  }

  // ----- the engine object -----

  /** The `Inventory` object. `hasMap` is "the `Instances` map is not
      nil": `NewInventory` leaves it nil. `reportNew` is `Report.new`. */
  class Inventory {
    var instances: map<string, Instance>
    var hasMap: bool
    var reportNew: seq<string>
    const db: DB

    ghost predicate Valid()
      reads this
    {
      !hasMap ==> instances == map[]
    }

    /** `NewInventory`, given the store `NewDB` opens. */
    constructor (db: DB)
      ensures Valid() && this.db == db && instances == map[] && !hasMap && reportNew == []
    {
      this.db := db;
      instances := map[];
      hasMap := false;
      reportNew := [];
    }

    /** Flag every active row whose ID the provider no longer reports; when
        the store cannot list its active IDs, return its error and flag
        nothing. */
    method MarkTerminated(aws: AWS, engineError: Option<string>) returns (err: Option<string>)
      modifies db`rows, db`flagBatches
      ensures err == engineError
      ensures err.Some? ==> db.rows == old(db.rows) && db.flagBatches == old(db.flagBatches)
      ensures err.None? ==>
        db.rows == MarkedRows(old(db.rows), aws.instances.Keys) &&
        db.flagBatches == old(db.flagBatches) + [Vanished(ActiveIds(old(db.rows)), aws.instances.Keys)]
    {
      var present := aws.GetInstanceList();
      var notTerminated, e := db.GetActiveInstances(engineError);
      if e.Some? {
        return e;
      }
      var needsMarked := [];
      var j := 0;
      while j < |notTerminated|
        invariant 0 <= j <= |notTerminated|
        invariant needsMarked == Vanished(notTerminated[..j], aws.instances.Keys)
      {
        assert notTerminated[..j + 1][..j] == notTerminated[..j];
        if notTerminated[j] !in present {
          needsMarked := needsMarked + [notTerminated[j]];
        }
        j := j + 1;
      }
      assert notTerminated[..j] == notTerminated;
      db.FlagInstancesAsTerminated(needsMarked);
      err := None;
    }

    /** Upsert every instance of the map, in map order. */
    method AddInstancesToDB(snapshot: map<string, Instance>, now: Time) returns (ghost order: seq<string>)
      modifies db`rows
      ensures IsKeyOrder(order, snapshot.Keys)
      ensures db.rows == UpsertAll(old(db.rows), snapshot, order, now)
    {
      order := db.AddInstancesToDB(snapshot, now);
    }

    /** Fetch the provider snapshot, then upsert it. `GetInstances` returns
        nothing in the source, so the snapshot upserted is the AWS object's
        map after the fetch. */
    method ReadInventoryFromAWS(aws: AWS, accounts: map<string, string>, fetches: seq<SubFetch>, now: Time)
      returns (r: Outcome<()>, ghost order: seq<string>)
      requires aws.Valid() && ReadFetchesWellFormed(fetches)
      modifies aws, db`rows
      ensures aws.Valid() && aws.loaded
      ensures r == (if old(aws.loaded) then Returned(()) else FetchResult(fetches))
      ensures r.Halted? ==> db.rows == old(db.rows)
      ensures r.Returned? ==> IsKeyOrder(order, aws.instances.Keys) && db.rows == UpsertAll(old(db.rows), aws.instances, order, now)
      ensures !old(aws.loaded) ==>
        aws.instances == Accumulate(map[], accounts, Sightings(fetches[..LeadingDescribed(fetches)]))
      ensures old(aws.loaded) ==> aws.instances == old(aws.instances)
    {
      order := [];
      r := aws.GetInstances(accounts, fetches);
      if r.Halted? {
        return;
      }
      order := AddInstancesToDB(aws.instances, now);
    }

    /** One round: read and upsert the snapshot, then mark terminations. The
        marking step's error is ignored and exporting does nothing, so the
        round returns normally unless the fetch ends the process. */
    method Roll(aws: AWS, accounts: map<string, string>, fetches: seq<SubFetch>, now: Time, engineError: Option<string>)
      returns (r: Outcome<()>, ghost order: seq<string>)
      requires aws.Valid() && ReadFetchesWellFormed(fetches)
      modifies aws, db`rows, db`flagBatches
      ensures aws.Valid() && aws.loaded
      ensures !old(aws.loaded) ==>
        aws.instances == Accumulate(map[], accounts, Sightings(fetches[..LeadingDescribed(fetches)]))
      ensures old(aws.loaded) ==> aws.instances == old(aws.instances)
      ensures r == (if old(aws.loaded) then Returned(()) else FetchResult(fetches))
      ensures r.Halted? ==> db.rows == old(db.rows) && db.flagBatches == old(db.flagBatches)
      ensures r.Returned? ==>
        IsKeyOrder(order, aws.instances.Keys) && db.rows == RolledRows(old(db.rows), aws.instances, order, now, engineError)
      ensures r.Returned? ==>
        db.flagBatches == old(db.flagBatches) +
          (if engineError.Some? then []
           else [Vanished(ActiveIds(UpsertAll(old(db.rows), aws.instances, order, now)), aws.instances.Keys)])
    {
      r, order := ReadInventoryFromAWS(aws, accounts, fetches, now);
      if r.Halted? {
        return;
      }
      var _ := MarkTerminated(aws, engineError);
    }

    /** Merge the snapshot's new keys into the map, then probe every ID in
        `Report.new`. `added` is the order the new keys were found in. */
    method AddNew(aws: AWS, users: seq<string>, net: Network) returns (r: Outcome<()>, ghost added: seq<string>)
      requires Valid()
      modifies this`instances, this`reportNew, net`attempts
      ensures Valid()
      ensures !hasMap && aws.instances != map[] ==>
        r == Halted(NilMapMessage) && instances == old(instances) && reportNew == old(reportNew) &&
        net.attempts == old(net.attempts)
      ensures hasMap || aws.instances == map[] ==>
        && IsKeyOrder(added, aws.instances.Keys - old(instances).Keys)
        && instances == aws.instances + old(instances)
        && reportNew == old(reportNew) + added
        && var p := ProbeAll(reportNew, aws.instances, users, net.keyFile, net.dial);
           net.attempts == old(net.attempts) + p.requests &&
           r == (if p.halt.Some? then Halted(p.halt.value) else Returned(()))
    {
      var halted;
      halted, added := MergeNew(aws);
      if halted {
        return Halted(NilMapMessage), added;
      }
      r := ProbeReport(aws, users, net);
    }

    /** The first loop of `AddNew`: copy each snapshot entry whose key the map
        lacks and append the key to `Report.new`. Writing into the nil map
        panics at the first new key. */
    method MergeNew(aws: AWS) returns (halted: bool, ghost added: seq<string>)
      requires Valid()
      modifies this`instances, this`reportNew
      ensures Valid()
      ensures halted <==> !hasMap && aws.instances != map[]
      ensures halted ==> instances == old(instances) && reportNew == old(reportNew)
      ensures !halted ==>
        && IsKeyOrder(added, aws.instances.Keys - old(instances).Keys)
        && instances == aws.instances + old(instances)
        && reportNew == old(reportNew) + added
    {
      added := [];
      var remaining := aws.instances.Keys;
      while remaining != {}
        invariant remaining <= aws.instances.Keys
        invariant forall k :: k in added <==> k in aws.instances && k !in old(instances) && k !in remaining
        invariant forall j, j' :: 0 <= j < j' < |added| ==> added[j] != added[j']
        invariant instances == (map k | k in aws.instances && k !in remaining :: aws.instances[k]) + old(instances)
        invariant reportNew == old(reportNew) + added
        invariant !hasMap ==> remaining == aws.instances.Keys && instances == old(instances) && added == []
        decreases remaining
      {
        var key :| key in remaining;
        if key !in instances {
          if !hasMap {
            return true, [];
          }
          instances := instances[key := aws.instances[key]];
          reportNew := reportNew + [key];
          added := added + [key];
        }
        remaining := remaining - {key};
      }
      RestrictNothing(aws.instances, remaining);
      halted := false;
    }

    /** The probe loop of `AddNew`, over the whole of `Report.new`. */
    method ProbeReport(aws: AWS, users: seq<string>, net: Network) returns (r: Outcome<()>)
      modifies net`attempts
      ensures var p := ProbeAll(reportNew, aws.instances, users, net.keyFile, net.dial);
        net.attempts == old(net.attempts) + p.requests &&
        r == (if p.halt.Some? then Halted(p.halt.value) else Returned(()))
    {
      r := ProbeIds(instances, reportNew, aws.instances, users, net);
    }

  }

  /** Probe the listed IDs in order against the snapshot, stopping at the
      first abort. */
  method ProbeIds(entries: map<string, Instance>, ids: seq<string>, snapshot: map<string, Instance>, users: seq<string>, net: Network) returns (r: Outcome<()>)
    modifies net`attempts
    ensures var p := ProbeAll(ids, snapshot, users, net.keyFile, net.dial);
      net.attempts == old(net.attempts) + p.requests &&
      r == (if p.halt.Some? then Halted(p.halt.value) else Returned(()))
  {
    ghost var keyFile, dial := net.keyFile, net.dial;
    var j := 0;
    while j < |ids|
      invariant 0 <= j <= |ids|
      invariant ProbeAll(ids[..j], snapshot, users, keyFile, dial).halt.None?
      invariant net.attempts == old(net.attempts) + ProbeAll(ids[..j], snapshot, users, keyFile, dial).requests
    {
      ghost var before := net.attempts;
      var instance := Lookup(snapshot, ids[j]);
      var halt := ProbeOne(entries, ids[j], instance, users, net);
      ProbeStep(ids, j, snapshot, users, keyFile, dial, old(net.attempts), before, net.attempts);
      if halt.Some? {
        return Halted(halt.value);
      }
      j := j + 1;
    }
    assert ids[..j] == ids;
    r := Returned(());
  }

  /** Probe one listed instance: abort when it has no address, otherwise
      run the user loop at its address and port. */
  method ProbeOne(entries: map<string, Instance>, id: string, instance: Instance, users: seq<string>, net: Network) returns (halt: Option<string>)
    modifies net`attempts
    ensures var q := ProbeInstance(instance, users, net.keyFile, net.dial);
      net.attempts == old(net.attempts) + q.requests && halt == q.halt
  {
    var address := GetConnectionAddress(instance);
    var port := GetPort(instance);
    if address.Err? {
      return Some(AddressFailure);
    }
    halt := ProbeUsersOf(entries, id, address.value, port, instance.sshKey, users, net);
  }

  /** The user loop for one instance, dialling through `net`. A successful
      probe only updates a copy of the map entry, so the engine's map
      `entries` is not changed. */
  method ProbeUsersOf(entries: map<string, Instance>, id: string, address: string, port: string, key: string, users: seq<string>, net: Network)
    returns (halt: Option<string>)
    modifies net`attempts
    ensures var p := ProbeUsers(address, port, key, users, net.keyFile, net.dial);
      net.attempts == old(net.attempts) + p.requests && halt == p.halt
  {
    var u := 0;
    while u < |users|
      invariant 0 <= u <= |users|
      invariant ProbeUsers(address, port, key, users[..u], net.keyFile, net.dial).halt.None?
      invariant net.attempts == old(net.attempts) + ProbeUsers(address, port, key, users[..u], net.keyFile, net.dial).requests
    {
      assert users[..u + 1][..u] == users[..u];
      var conn := new ConnectionInfo(address, users[u], port, key, "");
      var result := conn.TryConnect(net);
      if result.Halted? {
        ProbeUsersHaltIsFinal(address, port, key, users, u + 1, net.keyFile, net.dial);
        return Some(result.message);
      }
      if result.value && id in entries {
        var entry := entries[id];
        entry := entry.(user := users[u], sshPort := port, sshKey := key);
      }
      u := u + 1;
    }
    assert users[..u] == users;
    halt := None;
  }

  lemma RestrictNothing(m: map<string, Instance>, remaining: set<string>)
    requires remaining == {}
    ensures (map k | k in m && k !in remaining :: m[k]) == m
  {
  }

  /** One turn of the probe loop: the dials made so far grow by the probe of
      the next ID, and a halt there is the halt of the whole loop. */
  lemma ProbeStep(ids: seq<string>, j: nat, snapshot: map<string, Instance>, users: seq<string>,
                  keyFile: string -> KeyFile, dial: Request -> SessionOutcome,
                  start: seq<Request>, before: seq<Request>, after: seq<Request>)
    requires j < |ids|
    requires ProbeAll(ids[..j], snapshot, users, keyFile, dial).halt.None?
    requires before == start + ProbeAll(ids[..j], snapshot, users, keyFile, dial).requests
    requires after == before + ProbeInstance(Lookup(snapshot, ids[j]), users, keyFile, dial).requests
    ensures after == start + ProbeAll(ids[..j + 1], snapshot, users, keyFile, dial).requests
    ensures ProbeAll(ids[..j + 1], snapshot, users, keyFile, dial).halt == ProbeInstance(Lookup(snapshot, ids[j]), users, keyFile, dial).halt
    ensures ProbeAll(ids[..j + 1], snapshot, users, keyFile, dial).halt.Some? ==>
      ProbeAll(ids, snapshot, users, keyFile, dial) == ProbeAll(ids[..j + 1], snapshot, users, keyFile, dial)
  {
    ProbeAllSnoc(ids, j, snapshot, users, keyFile, dial);
    var p' := ProbeAll(ids[..j + 1], snapshot, users, keyFile, dial);
    Concatenated(start, before, after, ProbeAll(ids[..j], snapshot, users, keyFile, dial),
                 ProbeInstance(Lookup(snapshot, ids[j]), users, keyFile, dial), p');
    if p'.halt.Some? {
      ProbeAllStops(ids, j + 1, snapshot, users, keyFile, dial);
    }
  }

  lemma Concatenated(start: seq<Request>, before: seq<Request>, after: seq<Request>, p: Probe, q: Probe, p': Probe)
    requires p' == Probe(p.requests + q.requests, q.halt)
    requires before == start + p.requests && after == before + q.requests
    ensures after == start + p'.requests
  {
  }

  lemma ProbeAllSnoc(ids: seq<string>, j: nat, snapshot: map<string, Instance>, users: seq<string>,
                     keyFile: string -> KeyFile, dial: Request -> SessionOutcome)
    requires j < |ids|
    requires ProbeAll(ids[..j], snapshot, users, keyFile, dial).halt.None?
    ensures var p := ProbeAll(ids[..j], snapshot, users, keyFile, dial);
      var q := ProbeInstance(Lookup(snapshot, ids[j]), users, keyFile, dial);
      ProbeAll(ids[..j + 1], snapshot, users, keyFile, dial) == Probe(p.requests + q.requests, q.halt)
  {
    assert ids[..j + 1][..j] == ids[..j];
  }

  lemma {:induction false} ProbeUsersHaltIsFinal(address: string, port: string, key: string, users: seq<string>, u: nat,
                                                 keyFile: string -> KeyFile, dial: Request -> SessionOutcome)
    requires u <= |users|
    requires ProbeUsers(address, port, key, users[..u], keyFile, dial).halt.Some?
    ensures ProbeUsers(address, port, key, users, keyFile, dial) == ProbeUsers(address, port, key, users[..u], keyFile, dial)
    decreases |users| - u
  {
    if u < |users| {
      assert users[..u + 1][..u] == users[..u];
      ProbeUsersHaltIsFinal(address, port, key, users, u + 1, keyFile, dial);
    } else {
      assert users[..u] == users;
    }
  }

  lemma ProbeAllStops(ids: seq<string>, j: nat, snapshot: map<string, Instance>, users: seq<string>,
                      keyFile: string -> KeyFile, dial: Request -> SessionOutcome)
    requires j <= |ids|
    requires ProbeAll(ids[..j], snapshot, users, keyFile, dial).halt.Some?
    ensures ProbeAll(ids, snapshot, users, keyFile, dial) == ProbeAll(ids[..j], snapshot, users, keyFile, dial)
  {
    assert ids == ids[..j] + ids[j..];
    ProbeAllHaltIsFinal(ids[..j], ids[j..], snapshot, users, keyFile, dial);
  }
}
