/** The inventory store (inventory/inventoryengine/db.go) with its two SQL
    tables held in memory: `AWSInstance` as a sequence of rows and `Tags` as a
    sequence of (InstanceID, Key, Value) rows. Each SQL statement becomes an
    update of those sequences; opening the database, creating the schema and
    transactions are outside the model. */
module Store {
  import opened Wrappers
  import opened Instances

  const Terminated := "terminated"

  /** The instance table and its columns, as created at db.go:39-63. */
  const InstanceTable := "AWSInstance"
  const InstanceColumns: set<string> := {
    "Account", "AMI", "ENV", "ID", "KeypairName", "LaunchTime", "Name", "Notes", "OS",
    "PrivateIP", "PublicIP", "Region", "Size", "Skip", "SSHKey", "SSHPort", "State",
    "Subnet", "User", "VPC", "LastSeen"}

  /** One `AWSInstance` row. `skip` is NULL (None) in a row that was only
      ever inserted, because the INSERT does not name the Skip column. */
  datatype Row = Row(
    account: string,
    ami: string,
    env: string,
    id: string,
    keypairName: string,
    launchTime: Time,
    name: string,
    notes: string,
    os: string,
    privateIp: string,
    publicIp: string,
    region: string,
    size: string,
    skip: Option<bool>,
    sshKey: string,
    sshPort: string,
    state: string,
    subnet: string,
    user: string,
    vpc: string,
    lastSeen: Time)

  /** One `Tags` row. */
  datatype TagRow = TagRow(instanceId: string, key: string, value: string)

  predicate Active(r: Row) {
    r.state != Terminated
  }

  /** `SELECT count(*) FROM AWSInstance WHERE ID = ? AND State != 'terminated'` is positive. */
  predicate HasActive(rows: seq<Row>, id: string) {
    exists k :: 0 <= k < |rows| && rows[k].id == id && Active(rows[k])
  }

  // ----- INSERT -----

  /** The row inserts carry every column of the instance except Skip. */
  predicate Carries(r: Row, i: Instance) {
    && r.account == i.account && r.ami == i.ami && r.env == i.env && r.id == i.id
    && r.keypairName == i.keypairName && r.launchTime == i.launchTime && r.name == i.name
    && r.notes == i.notes && r.os == i.os && r.privateIp == i.privateIp && r.publicIp == i.publicIp
    && r.region == i.region && r.size == i.size && r.sshKey == i.sshKey && r.sshPort == i.sshPort
    && r.state == i.state && r.subnet == i.subnet && r.user == i.user && r.vpc == i.vpc
  }

  /** The row `AddInstance` inserts, stamped with the insertion time. */
  function InsertedRow(i: Instance, now: Time): (r: Row)
    ensures Carries(r, i) && r.skip == None && r.lastSeen == now
  {
    Row(i.account, i.ami, i.env, i.id, i.keypairName, i.launchTime, i.name, i.notes, i.os,
        i.privateIp, i.publicIp, i.region, i.size, None, i.sshKey, i.sshPort, i.state,
        i.subnet, i.user, i.vpc, now)
  }

  // ----- UPDATE -----

  /** The columns the UPDATE of `UpdateInstance` does not name. */
  predicate SameFixedColumns(a: Row, b: Row) {
    && a.account == b.account && a.ami == b.ami && a.id == b.id && a.keypairName == b.keypairName
    && a.launchTime == b.launchTime && a.notes == b.notes && a.region == b.region
    && a.vpc == b.vpc && a.lastSeen == b.lastSeen
  }

  /** The twelve columns the UPDATE sets hold the instance's values. */
  predicate HoldsMutable(r: Row, i: Instance) {
    && r.env == i.env && r.name == i.name && r.os == i.os && r.privateIp == i.privateIp
    && r.publicIp == i.publicIp && r.size == i.size && r.skip == Some(i.skip)
    && r.sshKey == i.sshKey && r.sshPort == i.sshPort && r.state == i.state
    && r.subnet == i.subnet && r.user == i.user
  }

  function UpdatedRow(r: Row, i: Instance): Row {
    r.(env := i.env, name := i.name, os := i.os, privateIp := i.privateIp, publicIp := i.publicIp,
       size := i.size, skip := Some(i.skip), sshKey := i.sshKey, sshPort := i.sshPort,
       state := i.state, subnet := i.subnet, user := i.user)
  }

  /** `UPDATE AWSInstance SET ENV = ?, ..., User = ? WHERE ID = ?`. As written
      the statement neither refreshes LastSeen nor excludes terminated rows. */
  function Updated(rows: seq<Row>, i: Instance): seq<Row> {
    seq(|rows|, k requires 0 <= k < |rows| => if rows[k].id == i.id then UpdatedRow(rows[k], i) else rows[k])
  }

  /** The update changes exactly the twelve named columns, and only on rows
      whose ID matches; LastSeen and every other row are left as they were. */
  lemma UpdateTouchesOnlyMutableColumns(rows: seq<Row>, i: Instance)
    ensures |Updated(rows, i)| == |rows|
    ensures forall k :: 0 <= k < |rows| ==> SameFixedColumns(Updated(rows, i)[k], rows[k])
    ensures forall k :: 0 <= k < |rows| && rows[k].id == i.id ==> HoldsMutable(Updated(rows, i)[k], i)
    ensures forall k :: 0 <= k < |rows| && rows[k].id != i.id ==> Updated(rows, i)[k] == rows[k]
  {
  }

  // ----- upsert -----

  /** `AddOrUpdateInstance`: update when an active row exists, insert otherwise. */
  function Upserted(rows: seq<Row>, i: Instance, now: Time): seq<Row> {
    if HasActive(rows, i.id) then Updated(rows, i) else rows + [InsertedRow(i, now)]
  }

  /** Upserting a non-terminated instance leaves an active row for its ID. */
  lemma UpsertEstablishesActive(rows: seq<Row>, i: Instance, now: Time)
    requires i.state != Terminated
    ensures HasActive(Upserted(rows, i, now), i.id)
  {
    var r := Upserted(rows, i, now);
    if HasActive(rows, i.id) {
      var k :| 0 <= k < |rows| && rows[k].id == i.id && Active(rows[k]);
      assert r[k].id == i.id && Active(r[k]);
    } else {
      assert r[|rows|] == InsertedRow(i, now);
    }
  }

  /** Upserting one instance neither creates nor removes an active row of
      any other ID. */
  lemma UpsertKeepsOtherIds(rows: seq<Row>, i: Instance, now: Time, id: string)
    requires id != i.id
    ensures HasActive(Upserted(rows, i, now), id) <==> HasActive(rows, id)
  {
    var r := Upserted(rows, i, now);
    if HasActive(rows, id) {
      var k :| 0 <= k < |rows| && rows[k].id == id && Active(rows[k]);
      assert r[k] == rows[k];
    }
    if HasActive(r, id) {
      var k :| 0 <= k < |r| && r[k].id == id && Active(r[k]);
      if HasActive(rows, i.id) {
        assert r[k] == rows[k];
      } else if k < |rows| {
        assert r[k] == rows[k];
      }
    }
  }

  /** A second upsert of the same non-terminated instance takes the update
      path, so it adds no row. */
  lemma UpsertTwiceAddsNoRow(rows: seq<Row>, i: Instance, now: Time, later: Time)
    requires i.state != Terminated
    ensures HasActive(Upserted(rows, i, now), i.id)
    ensures |Upserted(Upserted(rows, i, now), i, later)| == |Upserted(rows, i, now)|
  {
    UpsertEstablishesActive(rows, i, now);
  }

  /** Starting from a store without any row for the ID, two upserts of the
      same non-terminated instance leave exactly one row for that ID. */
  lemma UpsertTwiceSingleRow(rows: seq<Row>, i: Instance, now: Time, later: Time)
    requires i.state != Terminated
    requires forall k :: 0 <= k < |rows| ==> rows[k].id != i.id
    ensures var r := Upserted(Upserted(rows, i, now), i, later);
      |r| == |rows| + 1 && r[|rows|].id == i.id &&
      forall k :: 0 <= k < |r| && r[k].id == i.id ==> k == |rows|
  {
    assert !HasActive(rows, i.id);
    var r1 := Upserted(rows, i, now);
    assert r1 == rows + [InsertedRow(i, now)];
    assert r1[|rows|].id == i.id && Active(r1[|rows|]);
    assert HasActive(r1, i.id);
  }

  lemma UpdatedTwice(rows: seq<Row>, i: Instance)
    ensures Updated(Updated(rows, i), i) == Updated(rows, i)
  {
  }

  lemma UpdatedKeepsActive(rows: seq<Row>, i: Instance)
    requires i.state != Terminated && HasActive(rows, i.id)
    ensures HasActive(Updated(rows, i), i.id)
  {
    var k :| 0 <= k < |rows| && rows[k].id == i.id && Active(rows[k]);
    assert Updated(rows, i)[k].id == i.id;
  }

  /** When the first upsert takes the update path, a second one changes nothing. */
  lemma UpsertIdempotentOnUpdatePath(rows: seq<Row>, i: Instance, now: Time, later: Time)
    requires i.state != Terminated && HasActive(rows, i.id)
    ensures Upserted(Upserted(rows, i, now), i, later) == Upserted(rows, i, now)
  {
    UpdatedKeepsActive(rows, i);
    UpdatedTwice(rows, i);
  }

  /** Whatever the store held, the second upsert of a non-terminated
      instance is the last one that changes anything. */
  lemma UpsertSettles(rows: seq<Row>, i: Instance, t1: Time, t2: Time, t3: Time)
    requires i.state != Terminated
    ensures var r2 := Upserted(Upserted(rows, i, t1), i, t2); Upserted(r2, i, t3) == r2
  {
    UpsertEstablishesActive(rows, i, t1);
    UpsertIdempotentOnUpdatePath(Upserted(rows, i, t1), i, t2, t3);
  }

  /** As written, the insert leaves Skip NULL and the next update sets it,
      so an insert followed by an upsert of the unchanged instance still
      changes the stored row. */
  lemma InsertThenUpdateChangesSkip()
    ensures var i := ZeroInstance.(id := "i-1", state := "running");
      Upserted(Upserted([], i, 0), i, 0) != Upserted([], i, 0)
  {
    var i := ZeroInstance.(id := "i-1", state := "running");
    var r1 := Upserted([], i, 0);
    assert r1 == [InsertedRow(i, 0)];
    assert HasActive(r1, i.id) by { assert r1[0].id == i.id && r1[0].state == "running"; }
    assert Upserted(r1, i, 0)[0].skip == Some(false);
  }

  /** As written, the update is not restricted to active rows: once an ID has
      a terminated row and a fresh active row, the next upsert rewrites the
      terminated row too and brings it back to life. */
  lemma UpdateResurrectsTerminatedRow()
    ensures var i := ZeroInstance.(id := "i-1", state := "running");
      var old0 := InsertedRow(i.(state := Terminated), 0);
      var r2 := Upserted(Upserted([old0], i, 1), i, 2);
      !Active(old0) && |r2| == 2 && r2[0].id == i.id && Active(r2[0])
  {
    var i := ZeroInstance.(id := "i-1", state := "running");
    var old0 := InsertedRow(i.(state := Terminated), 0);
    assert !HasActive([old0], i.id);
    var r1 := Upserted([old0], i, 1);
    assert r1 == [old0, InsertedRow(i, 1)];
    assert HasActive(r1, i.id) by { assert r1[1].id == i.id && Active(r1[1]); }
  }

  /** A sequence of distinct keys that lists exactly the given set. */
  ghost predicate IsKeyOrder(order: seq<string>, keys: set<string>) {
    && (forall k :: k in order <==> k in keys)
    && (forall j, j' :: 0 <= j < j' < |order| ==> order[j] != order[j'])
  }

  /** Upsert the map's instances in the given key order. */
  function UpsertAll(rows: seq<Row>, instances: map<string, Instance>, order: seq<string>, now: Time): seq<Row>
    requires forall k :: k in order ==> k in instances
  {
    if order == [] then rows
    else
      var n := |order| - 1;
      Upserted(UpsertAll(rows, instances, order[..n], now), instances[order[n]], now)
  }

  /** Upserting a terminated instance leaves no active row for its ID. */
  lemma UpsertTerminatedDeactivates(rows: seq<Row>, i: Instance, now: Time)
    requires i.state == Terminated
    ensures !HasActive(Upserted(rows, i, now), i.id)
  {
  }

  /** After upserting a snapshot keyed by ID, in any order, one of its IDs
      has an active row exactly when its instance is not terminated. */
  lemma {:induction false} UpsertAllActiveIff(rows: seq<Row>, instances: map<string, Instance>, order: seq<string>, now: Time, id: string)
    requires forall k :: k in order ==> k in instances && instances[k].id == k
    requires id in order
    ensures HasActive(UpsertAll(rows, instances, order, now), id) <==> instances[id].state != Terminated
  {
    var n := |order| - 1;
    var pre := order[..n];
    assert forall k :: k in pre ==> k in order;
    var before := UpsertAll(rows, instances, pre, now);
    if order[n] == id {
      if instances[id].state == Terminated {
        UpsertTerminatedDeactivates(before, instances[id], now);
      } else {
        UpsertEstablishesActive(before, instances[id], now);
      }
    } else {
      assert id in pre;
      UpsertAllActiveIff(rows, instances, pre, now, id);
      UpsertKeepsOtherIds(before, instances[order[n]], now, id);
    }
  }

  /** IDs the upserted snapshot does not hold keep their rows' status. */
  lemma {:induction false} UpsertAllKeepsOthers(rows: seq<Row>, instances: map<string, Instance>, order: seq<string>, now: Time, id: string)
    requires forall k :: k in order ==> k in instances && instances[k].id == k
    requires id !in order
    ensures HasActive(UpsertAll(rows, instances, order, now), id) <==> HasActive(rows, id)
  {
    if order != [] {
      var n := |order| - 1;
      var pre := order[..n];
      assert forall k :: k in pre ==> k in order;
      UpsertAllKeepsOthers(rows, instances, pre, now, id);
      UpsertKeepsOtherIds(UpsertAll(rows, instances, pre, now), instances[order[n]], now, id);
    }
  }

  // ----- flag terminated -----

  /** The table the terminate statement names (db.go:146): the schema has no
      such table, so every statement fails, and the error is dropped. */
  const FlagStatementTable := "Instance"

  /** `UPDATE <table> SET State = 'terminated' WHERE ID = ?` for one ID. */
  function SetTerminated(rows: seq<Row>, id: string): seq<Row> {
    seq(|rows|, k requires 0 <= k < |rows| => if rows[k].id == id then rows[k].(state := Terminated) else rows[k])
  }

  /** One terminate statement per listed ID, on the instance table. */
  function Flagged(rows: seq<Row>, ids: seq<string>): seq<Row> {
    if ids == [] then rows else SetTerminated(Flagged(rows, ids[..|ids| - 1]), ids[|ids| - 1])
  }

  /** The batch terminates every row whose ID is listed, ignores listed IDs
      the store does not hold, and leaves every other row as it was. */
  lemma {:induction false} FlaggedSpec(rows: seq<Row>, ids: seq<string>)
    ensures |Flagged(rows, ids)| == |rows|
    ensures forall k :: 0 <= k < |rows| ==>
      Flagged(rows, ids)[k] == if rows[k].id in ids then rows[k].(state := Terminated) else rows[k]
  {
    if ids != [] {
      var pre := ids[..|ids| - 1];
      FlaggedSpec(rows, pre);
      assert forall x :: x in ids <==> x in pre || x == ids[|ids| - 1];
    }
  }

  /** No listed ID keeps an active row; unlisted IDs keep theirs. */
  lemma FlaggedDeactivates(rows: seq<Row>, ids: seq<string>, id: string)
    ensures id in ids ==> !HasActive(Flagged(rows, ids), id)
    ensures id !in ids ==> (HasActive(Flagged(rows, ids), id) <==> HasActive(rows, id))
  {
    FlaggedSpec(rows, ids);
    if id !in ids && HasActive(rows, id) {
      var k :| 0 <= k < |rows| && rows[k].id == id && Active(rows[k]);
      assert Flagged(rows, ids)[k] == rows[k];
    }
  }

  /** Flagging never turns a terminated row back into an active one. */
  lemma FlaggedMonotonic(rows: seq<Row>, ids: seq<string>, k: int)
    requires 0 <= k < |rows| && !Active(rows[k])
    ensures |Flagged(rows, ids)| == |rows| && !Active(Flagged(rows, ids)[k])
  {
    FlaggedSpec(rows, ids);
  }

  /** The terminate statement run against table `table`: on any table but
      the instance table it fails and the ignored error leaves the rows alone. */
  function UpdateStateInTable(table: string, rows: seq<Row>, ids: seq<string>): seq<Row> {
    if table == InstanceTable then Flagged(rows, ids) else rows
  }

  /** As written, flagging an active row's ID leaves it active. */
  lemma FlagAsWrittenIsNoOp(rows: seq<Row>, ids: seq<string>, id: string)
    requires id in ids && HasActive(rows, id)
    ensures UpdateStateInTable(FlagStatementTable, rows, ids) == rows
    ensures HasActive(UpdateStateInTable(FlagStatementTable, rows, ids), id)
    ensures !HasActive(UpdateStateInTable(InstanceTable, rows, ids), id)
  {
    FlaggedDeactivates(rows, ids, id);
  }

  // ----- active IDs -----

  /** The IDs of the active rows, in row order. */
  function ActiveIds(rows: seq<Row>): seq<string> {
    if rows == [] then []
    else
      var last := rows[|rows| - 1];
      ActiveIds(rows[..|rows| - 1]) + (if Active(last) then [last.id] else [])
  }

  /** The listing holds exactly the IDs that have an active row. */
  lemma {:induction false} ActiveIdsSpec(rows: seq<Row>, id: string)
    ensures id in ActiveIds(rows) <==> HasActive(rows, id)
  {
    if rows != [] {
      var n := |rows| - 1;
      var pre := rows[..n];
      ActiveIdsSpec(pre, id);
      if HasActive(pre, id) {
        var k :| 0 <= k < |pre| && pre[k].id == id && Active(pre[k]);
        assert rows[k] == pre[k];
      }
      if HasActive(rows, id) && !(rows[n].id == id && Active(rows[n])) {
        var k :| 0 <= k < |rows| && rows[k].id == id && Active(rows[k]);
        assert k < n && pre[k] == rows[k];
      }
    }
  }

  /** The column the active-instance query selects (db.go:162): the table
      has no such column, so the query always fails. */
  const ActiveQueryColumn := "InstanceID"

  /** `SELECT <column> FROM AWSInstance WHERE State != 'terminated'`, for the
      ID column or a column the table lacks. */
  function SelectActive(rows: seq<Row>, column: string): Result<seq<string>>
    requires column == "ID" || column !in InstanceColumns
  {
    if column == "ID" then Ok(ActiveIds(rows)) else Err("no such column: " + column)
  }

  /** As written, the active-instance query fails on every store, even one
      with active rows, while selecting ID lists them. */
  lemma ActiveQueryAsWrittenFails(rows: seq<Row>)
    ensures SelectActive(rows, ActiveQueryColumn).Err?
    ensures SelectActive(rows, "ID") == Ok(ActiveIds(rows))
  {
  }

  // ----- tags -----

  /** The tag rows of every other instance: `DELETE FROM Tags WHERE InstanceID = ?`. */
  function Without(tags: seq<TagRow>, id: string): seq<TagRow> {
    if tags == [] then []
    else
      var last := tags[|tags| - 1];
      Without(tags[..|tags| - 1], id) + (if last.instanceId != id then [last] else [])
  }

  lemma {:induction false} WithoutCount(tags: seq<TagRow>, id: string, t: TagRow)
    ensures multiset(Without(tags, id))[t] == if t.instanceId == id then 0 else multiset(tags)[t]
  {
    if tags != [] {
      var n := |tags| - 1;
      WithoutCount(tags[..n], id, t);
      assert tags == tags[..n] + [tags[n]];
    }
  }

  lemma {:induction false} WithoutAppend(a: seq<TagRow>, b: seq<TagRow>, id: string)
    ensures Without(a + b, id) == Without(a, id) + Without(b, id)
  {
    if b != [] {
      var n := |b| - 1;
      assert (a + b)[..|a + b| - 1] == a + b[..n];
      assert (a + b)[|a + b| - 1] == b[n];
      WithoutAppend(a, b[..n], id);
      var tail := if b[n].instanceId != id then [b[n]] else [];
      assert Without(a + b, id) == Without(a + b[..n], id) + tail;
      assert Without(b, id) == Without(b[..n], id) + tail;
    } else {
      assert a + b == a;
    }
  }

  lemma {:induction false} WithoutAll(tags: seq<TagRow>, id: string)
    requires forall j :: 0 <= j < |tags| ==> tags[j].instanceId == id
    ensures Without(tags, id) == []
  {
    if tags != [] {
      WithoutAll(tags[..|tags| - 1], id);
    }
  }

  lemma {:induction false} WithoutTwice(tags: seq<TagRow>, id: string)
    ensures Without(Without(tags, id), id) == Without(tags, id)
  {
    if tags != [] {
      var n := |tags| - 1;
      WithoutTwice(tags[..n], id);
      var last := tags[n];
      WithoutAppend(Without(tags[..n], id), if last.instanceId != id then [last] else [], id);
      if last.instanceId != id {
        assert [last][..0] == [];
      }
    }
  }

  /** `e` lists every entry of `m` exactly once, as tag rows of instance `id`. */
  predicate IsEnumeration(e: seq<TagRow>, id: string, m: map<string, string>) {
    && (forall j :: 0 <= j < |e| ==> e[j].instanceId == id && e[j].key in m && m[e[j].key] == e[j].value)
    && (forall j, j' :: 0 <= j < j' < |e| ==> e[j].key != e[j'].key)
    && (forall k :: k in m ==> exists j :: 0 <= j < |e| && e[j].key == k)
  }

  /** The tag table after replacing instance `id`'s tags with `m`: the other
      instances' rows, in their old order, followed by an enumeration of `m`. */
  predicate ReplacedTags(before: seq<TagRow>, after: seq<TagRow>, id: string, m: map<string, string>) {
    var kept := Without(before, id);
    |kept| <= |after| && after[..|kept|] == kept && IsEnumeration(after[|kept|..], id, m)
  }

  lemma {:induction false} DistinctCount(s: seq<TagRow>, t: TagRow)
    requires forall j, j' :: 0 <= j < j' < |s| ==> s[j] != s[j']
    ensures multiset(s)[t] == if t in s then 1 else 0
  {
    if s != [] {
      var n := |s| - 1;
      DistinctCount(s[..n], t);
      assert s == s[..n] + [s[n]];
      if t == s[n] {
        assert t !in s[..n];
      }
    }
  }

  lemma EnumerationCount(e: seq<TagRow>, id: string, m: map<string, string>, t: TagRow)
    requires IsEnumeration(e, id, m)
    ensures multiset(e)[t] == if t.instanceId == id && t.key in m && m[t.key] == t.value then 1 else 0
  {
    DistinctCount(e, t);
    if t.instanceId == id && t.key in m && m[t.key] == t.value {
      var j :| 0 <= j < |e| && e[j].key == t.key;
      assert e[j] == t;
    }
  }

  lemma ReplacedSplit(before: seq<TagRow>, after: seq<TagRow>, id: string, m: map<string, string>)
    requires ReplacedTags(before, after, id, m)
    ensures after == Without(before, id) + after[|Without(before, id)|..]
  {
  }

  /** After the replacement the rows of instance `id` are exactly the entries
      of `m`, each once, whatever tags the instance had before. */
  lemma ReplacedTagsExact(before: seq<TagRow>, after: seq<TagRow>, id: string, m: map<string, string>, key: string, value: string)
    requires ReplacedTags(before, after, id, m)
    ensures multiset(after)[TagRow(id, key, value)] == if key in m && m[key] == value then 1 else 0
  {
    var kept := Without(before, id);
    ReplacedSplit(before, after, id, m);
    WithoutCount(before, id, TagRow(id, key, value));
    EnumerationCount(after[|kept|..], id, m, TagRow(id, key, value));
  }

  /** The replacement leaves every other instance's tag rows as they were. */
  lemma ReplacedTagsKeepsOthers(before: seq<TagRow>, after: seq<TagRow>, id: string, m: map<string, string>, t: TagRow)
    requires ReplacedTags(before, after, id, m)
    requires t.instanceId != id
    ensures multiset(after)[t] == multiset(before)[t]
  {
    var kept := Without(before, id);
    ReplacedSplit(before, after, id, m);
    WithoutCount(before, id, t);
    EnumerationCount(after[|kept|..], id, m, t);
  }

  /** The rows a replacement keeps are the rows it started from without `id`. */
  lemma ReplacedKeeps(before: seq<TagRow>, once: seq<TagRow>, id: string, m: map<string, string>)
    requires ReplacedTags(before, once, id, m)
    ensures Without(once, id) == Without(before, id)
  {
    var kept := Without(before, id);
    var e1 := once[|kept|..];
    ReplacedSplit(before, once, id, m);
    WithoutAppend(kept, e1, id);
    WithoutTwice(before, id);
    WithoutAll(e1, id);
  }

  /** Two enumerations of the same map hold the same rows. */
  lemma EnumerationsAgree(e1: seq<TagRow>, e2: seq<TagRow>, id: string, m: map<string, string>)
    requires IsEnumeration(e1, id, m) && IsEnumeration(e2, id, m)
    ensures multiset(e2) == multiset(e1)
  {
    forall t ensures multiset(e2)[t] == multiset(e1)[t] {
      EnumerationCount(e1, id, m, t);
      EnumerationCount(e2, id, m, t);
    }
  }

  /** A replaced table is the kept rows together with the enumeration. */
  lemma ReplacedMultiset(before: seq<TagRow>, after: seq<TagRow>, id: string, m: map<string, string>)
    requires ReplacedTags(before, after, id, m)
    ensures multiset(after) == multiset(Without(before, id)) + multiset(after[|Without(before, id)|..])
  {
    ReplacedSplit(before, after, id, m);
  }

  /** Replacing the same tags twice gives the same table as replacing them
      once, up to the order in which the entries were listed. */
  lemma ReplaceTagsIdempotent(before: seq<TagRow>, once: seq<TagRow>, twice: seq<TagRow>, id: string, m: map<string, string>)
    requires ReplacedTags(before, once, id, m) && ReplacedTags(once, twice, id, m)
    ensures multiset(twice) == multiset(once)
  {
    ReplacedKeeps(before, once, id, m);
    var kept := Without(before, id);
    ReplacedMultiset(before, once, id, m);
    ReplacedMultiset(once, twice, id, m);
    EnumerationsAgree(once[|kept|..], twice[|kept|..], id, m);
  }

  // ----- the store object -----

  /** The `DB` handle, with the contents of its two tables. `flagBatches`
      records the ID lists `FlagInstancesAsTerminated` is called with. */
  class DB {
    var rows: seq<Row>
    var tags: seq<TagRow>
    ghost var flagBatches: seq<seq<string>>

    /** A store over empty tables. */
    constructor ()
      ensures rows == [] && tags == [] && flagBatches == []
    {
      rows := [];
      tags := [];
      flagBatches := [];
    }

    /** True iff the instance's ID has a row that is not terminated. */
    method InstanceExists(i: Instance) returns (r: bool)
      ensures r <==> HasActive(rows, i.id)
    {
      var count := 0;
      var k := 0;
      while k < |rows|
        invariant 0 <= k <= |rows|
        invariant count > 0 <==> exists k' :: 0 <= k' < k && rows[k'].id == i.id && Active(rows[k'])
      {
        if rows[k].id == i.id && rows[k].state != Terminated {
          count := count + 1;
        }
        k := k + 1;
      }
      r := count > 0;
    }

    method UpdateInstance(i: Instance)
      modifies this`rows
      ensures rows == Updated(old(rows), i)
    {
      rows := Updated(rows, i);
    }

    method AddInstance(i: Instance, now: Time)
      modifies this`rows
      ensures rows == old(rows) + [InsertedRow(i, now)]
    {
      rows := rows + [InsertedRow(i, now)];
    }

    method AddOrUpdateInstance(i: Instance, now: Time)
      modifies this`rows
      ensures rows == Upserted(old(rows), i, now)
    {
      var exists_ := InstanceExists(i);
      if exists_ {
        UpdateInstance(i);
      } else {
        AddInstance(i, now);
      }
    }

    /** Upsert every instance of the map, in map iteration order; `order`
        is that order. */
    method AddInstancesToDB(instances: map<string, Instance>, now: Time) returns (ghost order: seq<string>)
      modifies this`rows
      ensures IsKeyOrder(order, instances.Keys)
      ensures rows == UpsertAll(old(rows), instances, order, now)
    {
      order := [];
      var remaining := instances.Keys;
      while remaining != {}
        invariant remaining <= instances.Keys
        invariant forall k :: k in order <==> k in instances && k !in remaining
        invariant forall j, j' :: 0 <= j < j' < |order| ==> order[j] != order[j']
        invariant rows == UpsertAll(old(rows), instances, order, now)
        decreases remaining
      {
        var id :| id in remaining;
        AddOrUpdateInstance(instances[id], now);
        ghost var prev := order;
        order := order + [id];
        assert order[..|order| - 1] == prev;
        remaining := remaining - {id};
      }
    }

    /** Terminate every listed ID, one statement per ID, on the instance
        table. As written (db.go:146) the statement names table `Instance`,
        which does not exist, and the error is ignored, so the source changes
        nothing (`UpdateStateInTable`, `FlagAsWrittenIsNoOp`); this method
        models the evident intent. */
    method FlagInstancesAsTerminated(ids: seq<string>)
      modifies this`rows, this`flagBatches
      ensures rows == Flagged(old(rows), ids)
      ensures flagBatches == old(flagBatches) + [ids]
    {
      var j := 0;
      while j < |ids|
        invariant 0 <= j <= |ids|
        invariant rows == Flagged(old(rows), ids[..j])
        invariant flagBatches == old(flagBatches)
      {
        assert ids[..j + 1][..j] == ids[..j];
        rows := SetTerminated(rows, ids[j]);
        j := j + 1;
      }
      assert ids[..j] == ids;
      flagBatches := flagBatches + [ids];
    }

    /** The IDs of all active rows, or no IDs and the storage engine's error
        when beginning the transaction or running the query fails. As written
        (db.go:162) the query selects a column the table lacks and always
        fails (`ActiveQueryAsWrittenFails`); this method models the evident
        intent, selecting ID. */
    method GetActiveInstances(engineError: Option<string>) returns (ids: seq<string>, err: Option<string>)
      ensures err == engineError
      ensures err.Some? ==> ids == []
      ensures err.None? ==> ids == ActiveIds(rows)
    {
      if engineError.Some? {
        return [], engineError;
      }
      ids := [];
      var k := 0;
      while k < |rows|
        invariant 0 <= k <= |rows|
        invariant ids == ActiveIds(rows[..k])
      {
        assert rows[..k + 1][..k] == rows[..k];
        if rows[k].state != Terminated {
          ids := ids + [rows[k].id];
        }
        k := k + 1;
      }
      assert rows[..k] == rows;
      err := None;
    }

    method DeleteTags(id: string)
      modifies this`tags
      ensures tags == Without(old(tags), id)
    {
      tags := Without(tags, id);
    }

    /** Delete the instance's tag rows, then insert one row per entry of its
        tag map, in map iteration order. */
    method AddTags(i: Instance)
      modifies this`tags
      ensures ReplacedTags(old(tags), tags, i.id, i.tags)
    {
      DeleteTags(i.id);
      ghost var kept := tags;
      ghost var e: seq<TagRow> := [];
      var remaining := i.tags.Keys;
      while remaining != {}
        invariant remaining <= i.tags.Keys
        invariant tags == kept + e
        invariant forall j :: 0 <= j < |e| ==>
          e[j].instanceId == i.id && e[j].key in i.tags && e[j].key !in remaining &&
          i.tags[e[j].key] == e[j].value
        invariant forall j, j' :: 0 <= j < j' < |e| ==> e[j].key != e[j'].key
        invariant forall k :: k in i.tags && k !in remaining ==> exists j :: 0 <= j < |e| && e[j].key == k
        decreases remaining
      {
        var k :| k in remaining;
        tags := tags + [TagRow(i.id, k, i.tags[k])];
        ghost var prev := e;
        e := e + [TagRow(i.id, k, i.tags[k])];
        forall k' | k' in i.tags && k' !in remaining - {k} ensures exists j :: 0 <= j < |e| && e[j].key == k' {
          if k' == k {
            assert e[|prev|].key == k;
          } else {
            var j :| 0 <= j < |prev| && prev[j].key == k';
            assert e[j] == prev[j];
          }
        }
        remaining := remaining - {k};
      }
      assert tags[|kept|..] == e;
    }
  }
}
