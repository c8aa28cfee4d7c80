# goinventory: a Dafny model of the reconciliation engine and the SSH probe

goinventory keeps an inventory of cloud instances. One round of its engine
does four things:

1. It fetches descriptors of the running instances for each configured
   (profile, region) pair.
2. It translates each descriptor into the canonical `Instance` record and
   keys the records by ID.
3. It upserts them into a SQLite store.
4. It flags as terminated every active row the provider no longer lists.

A second path, `AddNew`, merges the provider's new instances into the
engine's own map. It then probes each one over SSH, once per configured
user. A separate package classifies the outcome of such a probe into an
exit code and a text, and reports the probe record with the password
replaced by its hash.

The model has seven modules, one `.dfy` file each:

| module | file | models |
|---|---|---|
| `Wrappers` | wrappers.dfy | `Option`, `Result` (a Go `(value, error)`), and `Outcome` (a call that may end the process through `log.Fatal` or `panic`) |
| `Text` | text.dfy | `strings.ToLower`, `EqualFold` and `Contains` |
| `Instances` | instance.dfy | the `Instance` record, `GetConnectionAddress`, `GetPort` |
| `Aws` | aws.dfy | descriptors, `GetTag`, `TranslateInstance`, and the `AWS` object with `GetInstanceList` and the accumulation loop of `GetInstances` |
| `Store` | store.dfy | the `AWSInstance` and `Tags` tables as sequences of rows; the `DB` object with one method per SQL operation |
| `SshTest` | sshtest.dfy | keyword matching, the exit-code classification, the auth-method choice, `TryConnect`, `GetJson` |
| `InventoryEngine` | engine.dfy | `MarkTerminated`, `AddNew`, `AddInstancesToDB`, `ReadInventoryFromAWS` and `Roll` |

Objects whose fields the code updates are classes:

- `AWS`, `DB` and `Inventory`, whose methods update maps and row tables;
- `ConnectionInfo`, whose `ErrRaw`, `ErrCode` and `ErrText` are assigned.

Each method is tied to a specification function of its old state. The
properties are lemmas about those functions.

Go ranges over a map in an unspecified order. The model turns each such loop
into a choice of any remaining key. The order actually taken is returned as a
ghost out-parameter (`order`, `added`). Every contract holds for every order.
Where the result should not depend on the order, a lemma says so, for example
`InventoryEngine.RollActiveExactly`.

The outside world enters as values:

- The provider's answers are a sequence of `SubFetch` records for each
  (profile, region) pair. Each record holds either the descriptors, a failed
  configuration load, or a failed `DescribeInstances`.
- The storage engine's failure to list active rows is an `engineError`
  parameter.
- `time.Now()` is a `now` parameter. One timestamp serves a whole batch of
  upserts (`AddInstancesToDB`, `Roll`), where the code reads the clock again
  for each insert (db.go:219).
- The SSH transport is a `Network` object. It holds two fixed functions: one
  answers each dial, the other says what reading and parsing a key file gives.
  The object logs every dial in `attempts`.
- sha256 is a function parameter.
- The configured users are a parameter of `AddNew`.

### Behaviour modelled as written

These behaviours of the code are reproduced rather than corrected:

- `UpdateInstance` (db.go:120-136) does not refresh `LastSeen`. It also
  updates every row with the ID, terminated rows included. Once an ID has a
  terminated row and a fresh active one, the next upsert brings the terminated
  row back to life (`Store.UpdateResurrectsTerminatedRow`).
- The INSERT of `AddInstance` leaves `Skip` NULL and the next update sets it.
  A second upsert of an unchanged instance therefore still changes the row
  (`Store.InsertThenUpdateChangesSkip`). From the second upsert on nothing
  changes (`Store.UpsertSettles`).
- `InstanceExists` passes `i.State` as a second argument for a statement with
  one placeholder. The model assumes the driver binds only the placeholder, as
  the mattn/go-sqlite3 query path does, so the extra argument has no effect.
- `AddNew` writes into `i.Instances`, which `NewInventory` leaves nil. The
  first new key therefore panics (`NilMapMessage`) before anything is
  recorded. The model keeps this as the field `hasMap`, and
  `Inventory.AddNew` states both paths.
- `AddNew` builds an empty `config.Settings{}`, so its list of users is always
  empty as written. The model takes the users as a parameter so that the probe
  loop can be stated. The code's behaviour is the case `users == []`.
- The probe for a user that succeeds updates a copy of the map entry, so
  `i.Instances` is not changed (`InventoryEngine.ProbeUsersOf`). A success does not
  stop the loop (`InventoryEngine.ProbeUsersDialsEveryUser`).
- The probe loop runs over the whole of `Report.new`, including IDs added by
  earlier calls. An ID that the snapshot no longer holds reads as the zero
  record and has no address. Instances fetched from the provider never carry
  an IP address, because `TranslateInstance` does not copy one
  (`Aws.TranslatedHasNoAddress`). Probing any of them therefore panics with
  "Failure getting address." (`InventoryEngine.FetchedInstanceHaltsProbe`).
- `ReadInventoryFromAWS` assigns the result of `a.GetInstances()`, which
  returns nothing. The model upserts the AWS object's map after the fetch.
- A failed configuration load `return`s out of both fetch loops
  (aws.go:88-90), keeping what the map holds so far. A failed
  `DescribeInstances` ends the process (aws.go:95-97, `Aws.FetchResult`).
- `TryConnect` checks the key, the password and the host before dialling, and
  ends the process when a check fails (sshtest.go:146-152). With no key and no
  password configured, the first user's probe therefore ends the process
  without network I/O (`SshTest.PreflightBeforeDial`,
  `InventoryEngine.ProbeUsersWithoutKeyHalts`).
- No step of `Roll` (inventoryengine.go:45-63) calls `AddTags`, so a round
  never writes the tag table.
- Several storage errors are dropped: `UpdateInstance` drops the results of its
  `Exec` and of its deferred `Commit` (db.go:118, 136), the terminate
  statement's `Exec` result is dropped (db.go:147), and `Roll` ignores the
  error `MarkTerminated` returns (inventoryengine.go:57).

## Model

| member | source | states |
|---|---|---|
| `Text.ToLower` | inventory/sshtest/sshtest.go:253 | the lower-cased text has the input's length and folds every character (A-Z to a-z) |
| `Text.EqualFold` | inventory/inventoryengine/aws.go:160 | `strings.EqualFold` as equality of the lower-cased forms (ASCII folding) |
| `Text.Contains` | inventory/sshtest/sshtest.go:253 | `strings.Contains` as a left-to-right scan; its meaning is stated by `Text.ContainsIffOccurs` |
| `Text.ContainsIffOccurs` | inventory/sshtest/sshtest.go:253 | `strings.Contains` holds exactly when the substring occurs at some index |
| `Instances.GetConnectionAddress` | inventory/inventoryengine/instance.go:33-43 | the public IP whenever it is set; otherwise the private IP; the fixed error exactly when both are empty; a successful result is never empty |
| `Instances.FirstNonEmpty` | inventory/inventoryengine/instance.go:36-42 | the first non-empty candidate, taken from the list |
| `Instances.AddressIsFirstNonEmpty` | inventory/inventoryengine/instance.go:33-43 | the address is the first non-empty entry of the preference list [public, private], and an error when there is none |
| `Instances.GetPort` | inventory/inventoryengine/instance.go:45-51 | `SSHPort` when set, otherwise "22"; never empty |
| `Aws.GetTag` | inventory/inventoryengine/aws.go:157-165 | an error ("tag does not exist") exactly when no key matches case-insensitively, an empty list included; otherwise the value of the first matching tag |
| `Aws.TranslateInstance` | inventory/inventoryengine/aws.go:114-142 | ID, AMI, LaunchTime and State copied; absent key name, subnet and VPC become "", present ones are copied; Name from the tag or ""; every other field left at its zero value |
| `Aws.TranslatedHasNoAddress` | inventory/inventoryengine/aws.go:131-140 | a translated instance has no connection address |
| `Aws.LeadingDescribed` | inventory/inventoryengine/aws.go:83-97 | the number of fetches before the first failed one |
| `Aws.SightingsOf` | inventory/inventoryengine/aws.go:98-99 | one sighting per descriptor of a fetch, stamped with its profile and region |
| `Aws.Sightings` | inventory/inventoryengine/aws.go:79-99 | the sightings of a run of successful fetches, all well-formed |
| `Aws.Stamp` | inventory/inventoryengine/aws.go:102-105 | the stored record keeps the descriptor's ID and carries Account = profile, Region = region and ENV = that account's env ("" for an unknown profile) |
| `Aws.EnvOf` | inventory/inventoryengine/aws.go:105 | the env configured for the profile, and Go's zero value "" when the profile is not configured; used by `Aws.Stamp` |
| `Aws.Accumulate` | inventory/inventoryengine/aws.go:98-107 | the map after storing each stamped sighting under its ID, in visiting order; its keys and values are stated by `Aws.AccumulateKeys`, `Aws.AccumulateLastWins` and `Aws.AccumulateKeepsUnsighted` |
| `Aws.FetchResult` | inventory/inventoryengine/aws.go:88-97 | the fetch ends the process with "Unable to get instances: " and the error exactly when the first failed fetch is a failed describe; a failed configuration load returns normally |
| `Aws.AccumulateSnoc` | inventory/inventoryengine/aws.go:106 | one more sighting stores its stamped record under its ID |
| `Aws.AccumulateKeys` | inventory/inventoryengine/aws.go:98-107 | the accumulated map holds exactly the starting keys and the IDs sighted |
| `Aws.AccumulateLastWins` | inventory/inventoryengine/aws.go:106 | an ID holds the record of its last sighting: a later duplicate overwrites an earlier one |
| `Aws.AccumulateKeepsUnsighted` | inventory/inventoryengine/aws.go:98-107 | an entry whose ID is never sighted keeps its value |
| `Aws.AccumulateKeyedById` | inventory/inventoryengine/aws.go:106 | every accumulated record is stored under its own ID |
| `Aws.SightingsSnoc` | inventory/inventoryengine/aws.go:79-99 | the sightings of one more fetch come after those of the earlier ones |
| `Aws.AWS.constructor` | inventory/inventoryengine/aws.go:27-34 | the AWS object starts with a nil map |
| `Aws.AWS.GetInstanceList` | inventory/inventoryengine/aws.go:53-59 | each key of `Instances` exactly once; the length equals the map's size |
| `Aws.AWS.GetInstances` | inventory/inventoryengine/aws.go:69-112 | a loaded map is left alone; otherwise the map becomes the accumulation of all fetches before the first failure, and the call ends the process exactly when that failure is a failed describe |
| `Aws.AWS.FillInstances` | inventory/inventoryengine/aws.go:79-110 | the profile and region loops fill the fresh map with the accumulation of the leading successful fetches and report `FetchResult` |
| `Aws.AWS.StoreFetch` | inventory/inventoryengine/aws.go:94-108 | one successful fetch extends the map by its sightings |
| `Aws.AWS.StoreDescribed` | inventory/inventoryengine/aws.go:98-107 | one fetch's descriptors are folded into the map in order |
| `Store.InsertedRow` | inventory/inventoryengine/db.go:210-220 | the inserted row carries every instance column except Skip; Skip is NULL; LastSeen is the insertion time |
| `Store.HasActive` | inventory/inventoryengine/db.go:97-105 | the count is positive exactly when some row has the ID and a State other than 'terminated'; `Store.DB.InstanceExists` returns it |
| `Store.Updated` | inventory/inventoryengine/db.go:113-137 | the table-wide UPDATE: every row with the instance's ID takes its twelve SET columns; stated by `Store.UpdateTouchesOnlyMutableColumns` |
| `Store.Upserted` | inventory/inventoryengine/db.go:189-199 | update when the ID has an active row, otherwise append the inserted row; stated by the `Store.Upsert*` lemmas |
| `Store.UpsertAll` | inventory/inventoryengine/db.go:181-187 | the upsert of every map entry in the given key order; stated by `Store.UpsertAllActiveIff` and `Store.UpsertAllKeepsOthers` |
| `Store.UpdateTouchesOnlyMutableColumns` | inventory/inventoryengine/db.go:120-136 | only the twelve named columns change, and only on rows whose ID matches; LastSeen, the other columns and the other rows are unchanged |
| `Store.UpsertEstablishesActive` | inventory/inventoryengine/db.go:189-199 | after upserting a non-terminated instance its ID has an active row |
| `Store.UpsertKeepsOtherIds` | inventory/inventoryengine/db.go:189-199 | an upsert neither creates nor removes an active row of another ID |
| `Store.UpsertTwiceAddsNoRow` | inventory/inventoryengine/db.go:189-199 | the second upsert of a non-terminated instance takes the update path and adds no row |
| `Store.UpsertTwiceSingleRow` | inventory/inventoryengine/db.go:189-199 | starting without rows for the ID, two upserts leave exactly one row for it |
| `Store.UpdatedTwice` | inventory/inventoryengine/db.go:120-136 | updating twice with the same instance equals updating once |
| `Store.UpdatedKeepsActive` | inventory/inventoryengine/db.go:120-136 | updating with a non-terminated instance keeps its active row |
| `Store.UpsertIdempotentOnUpdatePath` | inventory/inventoryengine/db.go:189-199 | when the first upsert takes the update path, the second changes nothing |
| `Store.UpsertSettles` | inventory/inventoryengine/db.go:189-199 | whatever the store held, a third upsert of the same non-terminated instance changes nothing |
| `Store.InsertThenUpdateChangesSkip` | inventory/inventoryengine/db.go:210-214 | as written, insert then update of an unchanged instance still changes the row (Skip goes from NULL to false) |
| `Store.UpdateResurrectsTerminatedRow` | inventory/inventoryengine/db.go:134-135 | as written, the update rewrites a terminated row of the same ID and makes it active again |
| `Store.UpsertTerminatedDeactivates` | inventory/inventoryengine/db.go:189-199 | upserting a terminated instance leaves no active row for its ID |
| `Store.UpsertAllActiveIff` | inventory/inventoryengine/db.go:181-187 | after upserting a snapshot in any order, one of its IDs is active exactly when its instance is not terminated |
| `Store.UpsertAllKeepsOthers` | inventory/inventoryengine/db.go:181-187 | IDs outside the snapshot keep their active status |
| `Store.Flagged` | inventory/inventoryengine/db.go:139-150 | the intended terminate statement run once per listed ID; stated by `Store.FlaggedSpec` |
| `Store.SetTerminated` | inventory/inventoryengine/db.go:146-147 | one `UPDATE ... SET State = 'terminated' WHERE ID = ?`: every row with the ID becomes terminated, every other row stays as it was; stated for a batch by `Store.FlaggedSpec` |
| `Store.UpdateStateInTable` | inventory/inventoryengine/db.go:145-148 | the terminate statement against a named table: only the `AWSInstance` table holds the rows, any other name leaves them as they were |
| `Store.FlaggedSpec` | inventory/inventoryengine/db.go:145-148 | exactly the rows whose ID is listed become terminated; unknown IDs are ignored; other rows are untouched |
| `Store.FlaggedDeactivates` | inventory/inventoryengine/db.go:145-148 | no listed ID keeps an active row; unlisted IDs keep their status |
| `Store.FlaggedMonotonic` | inventory/inventoryengine/db.go:145-148 | flagging never turns a terminated row active |
| `Store.FlagAsWrittenIsNoOp` | inventory/inventoryengine/db.go:146-147 | as written (table `Instance`, error ignored), flagging an active ID changes nothing, where the instance table would have lost the active row |
| `Store.ActiveIds` | inventory/inventoryengine/db.go:160-178 | the IDs of the non-terminated rows in row order; stated by `Store.ActiveIdsSpec` |
| `Store.SelectActive` | inventory/inventoryengine/db.go:160-166 | the active-ID query against a named column: `ID` lists the active IDs, a name that is no column is an error |
| `Store.ActiveIdsSpec` | inventory/inventoryengine/db.go:160-178 | the listed IDs are exactly those with a non-terminated row |
| `Store.ActiveQueryAsWrittenFails` | inventory/inventoryengine/db.go:162-166 | as written (column `InstanceID`), the active query fails on every store, where selecting ID lists the active IDs |
| `Store.Without` | inventory/inventoryengine/db.go:240-241 | the DELETE of an instance's tag rows, keeping the others in order; stated by `Store.WithoutCount` |
| `Store.WithoutCount` | inventory/inventoryengine/db.go:240-241 | the delete removes every tag row of the ID and keeps every other row with its multiplicity |
| `Store.EnumerationCount` | inventory/inventoryengine/db.go:259-261 | the inserted tag rows hold each map entry exactly once |
| `Store.ReplacedTagsExact` | inventory/inventoryengine/db.go:256-265 | after replacement the ID's tag rows are exactly the entries of its tag map, each once |
| `Store.ReplacedTagsKeepsOthers` | inventory/inventoryengine/db.go:240-241 | other instances' tag rows are unchanged |
| `Store.ReplaceTagsIdempotent` | inventory/inventoryengine/db.go:247-265 | replacing twice gives the same table as once, up to the order of the entries |
| `Store.DB.constructor` | inventory/inventoryengine/db.go:20-24 | a store over empty tables |
| `Store.DB.InstanceExists` | inventory/inventoryengine/db.go:89-111 | true exactly when some row has the ID and is not terminated |
| `Store.DB.UpdateInstance` | inventory/inventoryengine/db.go:113-137 | the row table becomes the table-wide UPDATE of the instance |
| `Store.DB.AddInstance` | inventory/inventoryengine/db.go:201-231 | exactly one row is appended, the inserted row |
| `Store.DB.AddOrUpdateInstance` | inventory/inventoryengine/db.go:189-199 | update when an active row exists, insert otherwise |
| `Store.DB.AddInstancesToDB` | inventory/inventoryengine/db.go:181-187 | every map entry is upserted once, in some order of the keys |
| `Store.DB.FlagInstancesAsTerminated` | inventory/inventoryengine/db.go:139-150 | the listed IDs are terminated (the intended table), and the call is recorded as one batch |
| `Store.DB.GetActiveInstances` | inventory/inventoryengine/db.go:152-179 | the active IDs in row order, or no IDs and the storage error |
| `Store.DB.DeleteTags` | inventory/inventoryengine/db.go:233-245 | the ID's tag rows are deleted |
| `Store.DB.AddTags` | inventory/inventoryengine/db.go:247-266 | the table becomes the other instances' rows followed by an enumeration of the tag map |
| `SshTest.MentionsKeyword` | inventory/sshtest/sshtest.go:252-257 | true exactly when the lower-cased text contains some lower-cased keyword, at some index |
| `SshTest.IsAuthenticationError` | inventory/sshtest/sshtest.go:260-273 | true exactly when the text mentions one of the four authentication keywords |
| `SshTest.IsDNSError` | inventory/sshtest/sshtest.go:248-258 | true exactly when the text mentions "no such host" |
| `SshTest.MentionsAnyIffKeywordAt` | inventory/sshtest/sshtest.go:253 | the lower-cased search succeeds exactly when some stretch of the text equals a keyword up to case |
| `SshTest.UnknownHostIsDnsError` | inventory/sshtest/sshtest.go:248-257 | the resolver's "lookup <host>: no such host" is a DNS error for every host |
| `SshTest.ShortTextIsNoAuthError` | inventory/sshtest/sshtest.go:260-272 | a text shorter than every authentication keyword is no authentication error |
| `SshTest.Classify` | inventory/sshtest/sshtest.go:209-243 | the code is one of {0,1,2,3,5,6,255}, never 4; 0 exactly when there is no error; the text of 255 is the raw error text |
| `SshTest.ClassifyPrecedence` | inventory/sshtest/sshtest.go:220-242 | each code is produced exactly when its test holds and no earlier test does: authentication, timeout, refused, DNS target, "no such host"; no error is (0, "success") |
| `SshTest.AuthenticationWinsOverEverything` | inventory/sshtest/sshtest.go:224-226 | an authentication keyword gives code 1 whatever else holds |
| `SshTest.AuthFor` | inventory/sshtest/sshtest.go:108-119 | both empty ends the process with the fixed message; a usable key gives public-key auth, a malformed one "Bad key: <path>"; without a key, password auth |
| `SshTest.JoinHostPort` | inventory/sshtest/sshtest.go:105 | host and port joined by a colon, the host bracketed when it contains one |
| `SshTest.Network.constructor` | inventory/sshtest/sshtest.go:128-132 | a transport with no dials made |
| `SshTest.Network.Dial` | inventory/sshtest/sshtest.go:128-141 | the dial is logged and answered by the transport |
| `SshTest.Preflight` | inventory/sshtest/sshtest.go:146-152 | no abort exactly when exactly one of key and password is given and the host is set |
| `SshTest.ConnectError` | inventory/sshtest/sshtest.go:133-140 | the error `SSHConnect` returns: the dial's or the session's, nil once the session opens |
| `SshTest.TryConnectSpec` | inventory/sshtest/sshtest.go:145-169 | the attempt `TryConnect` makes: the request dialled if any, the new `ErrRaw` and the outcome; stated by `SshTest.PreflightBeforeDial` and `SshTest.TryConnectResult` |
| `SshTest.PreflightBeforeDial` | inventory/sshtest/sshtest.go:146-153 | both empty, both set or no host aborts before any dial and leaves ErrRaw alone |
| `SshTest.TryConnectResult` | inventory/sshtest/sshtest.go:153-168 | true exactly when dial, session and command all succeed; ErrRaw is the connect error, nil when only the command fails; the dial uses the key exactly when one is given |
| `SshTest.ConnectionInfo.constructor` | inventory/sshtest/sshtest.go:30-39 | the record with the given connection fields and no error |
| `SshTest.ConnectionInfo.SSHConnect` | inventory/sshtest/sshtest.go:102-143 | an abort makes no dial; otherwise exactly one dial with the chosen auth method |
| `SshTest.ConnectionInfo.TryConnect` | inventory/sshtest/sshtest.go:145-169 | the outcome, the new ErrRaw and the dials made are those of the attempt it specifies |
| `SshTest.ConnectionInfo.GetJson` | inventory/sshtest/sshtest.go:182-207 | every field copied, the password "" when empty and "Hash: " + sha256 otherwise |
| `SshTest.ConnectionInfo.HandleExit` | inventory/sshtest/sshtest.go:209-246 | ErrCode and ErrText are the classification of ErrRaw; the exit code is ErrCode |
| `SshTest.JsonRevealsOnlyHash` | inventory/sshtest/sshtest.go:196-201 | the report depends on the password only through its hash and its emptiness |
| `InventoryEngine.VanishedSpec` | inventory/inventoryengine/inventoryengine.go:84-89 | an ID is marked exactly when it is active in the store and absent from the provider list |
| `InventoryEngine.Vanished` | inventory/inventoryengine/inventoryengine.go:84-89 | the active IDs, in order, that the provider list lacks; stated by `InventoryEngine.VanishedSpec` |
| `InventoryEngine.MarkedRows` | inventory/inventoryengine/inventoryengine.go:65-93 | the rows after flagging the vanished IDs; stated by `InventoryEngine.MarkTerminatedEffect` |
| `InventoryEngine.RolledRows` | inventory/inventoryengine/inventoryengine.go:45-63 | upsert the snapshot, then mark unless the store fails to list; stated by `InventoryEngine.RollActiveExactly` and `InventoryEngine.RollWithoutListingKeepsStale` |
| `InventoryEngine.VanishedExample` | inventory/inventoryengine/inventoryengine.go:84-89 | active A, B, C against listed B, C, D marks exactly [A] |
| `InventoryEngine.MarkTerminatedEffect` | inventory/inventoryengine/inventoryengine.go:65-93 | after marking, an absent ID has no active row and a listed ID keeps its status |
| `InventoryEngine.RollActiveExactly` | inventory/inventoryengine/inventoryengine.go:45-63 | after a round the active IDs are exactly the snapshot's non-terminated instances, whatever the store held and whatever the map order |
| `InventoryEngine.RollWithoutListingKeepsStale` | inventory/inventoryengine/inventoryengine.go:78-81 | when the store fails to list, the snapshot is still upserted and vanished rows stay active |
| `InventoryEngine.ProbeUsersDialsEveryUser` | inventory/inventoryengine/inventoryengine.go:194-212 | with a usable key, one dial per user in config order at the instance's address and port with its key, whatever the answers |
| `InventoryEngine.ProbeUsersWithoutKeyHalts` | inventory/inventoryengine/inventoryengine.go:195-202 | without a key the first TryConnect ends the process before any dial |
| `InventoryEngine.FetchedInstanceHaltsProbe` | inventory/inventoryengine/inventoryengine.go:188-193 | probing an instance fetched from the provider panics at once |
| `InventoryEngine.ProbeAllHaltIsFinal` | inventory/inventoryengine/inventoryengine.go:184-193 | once a probe aborts, later IDs are not probed |
| `InventoryEngine.ProbeUsers` | inventory/inventoryengine/inventoryengine.go:194-211 | one `TryConnect` per user in order with an empty password, stopping at the first abort; stated by `InventoryEngine.ProbeUsersDialsEveryUser` and `InventoryEngine.ProbeUsersWithoutKeyHalts` |
| `InventoryEngine.ProbeInstance` | inventory/inventoryengine/inventoryengine.go:186-193 | no connection address aborts with "Failure getting address."; otherwise the user loop at the address and port; stated by `InventoryEngine.FetchedInstanceHaltsProbe` |
| `InventoryEngine.ProbeAll` | inventory/inventoryengine/inventoryengine.go:184-213 | every listed ID probed in order against the snapshot (a missing key reads as the zero record), stopping at the first abort; stated by `InventoryEngine.ProbeAllHaltIsFinal` |
| `InventoryEngine.Lookup` | inventory/inventoryengine/inventoryengine.go:185 | the map read `a.Instances[instanceId]`: the stored record, or the zero record for a missing key; `InventoryEngine.ProbeAll` and `InventoryEngine.ProbeIds` read the snapshot through it |
| `InventoryEngine.Inventory.constructor` | inventory/inventoryengine/inventoryengine.go:36-43 | the engine starts with a nil map and an empty report |
| `InventoryEngine.Inventory.MarkTerminated` | inventory/inventoryengine/inventoryengine.go:65-93 | on a listing error nothing is flagged and the error is returned; otherwise one flag call with the vanished IDs |
| `InventoryEngine.Inventory.AddInstancesToDB` | inventory/inventoryengine/inventoryengine.go:223-229 | every snapshot entry is upserted, in some key order |
| `InventoryEngine.Inventory.ReadInventoryFromAWS` | inventory/inventoryengine/inventoryengine.go:231-237 | fetch, then upsert the AWS map; a fetch that ends the process upserts nothing |
| `InventoryEngine.Inventory.Roll` | inventory/inventoryengine/inventoryengine.go:45-63 | the snapshot is upserted before terminations are marked; the marking error is ignored; the round returns normally unless the fetch ends the process |
| `InventoryEngine.ProbeUsersOf` | inventory/inventoryengine/inventoryengine.go:194-211 | the dials of the user loop, one `TryConnect` per user with an empty password; a success only edits a copy of the map entry |
| `InventoryEngine.Inventory.AddNew` | inventory/inventoryengine/inventoryengine.go:164-215 | a nil map panics at the first new key; otherwise new keys are added once each, present keys keep their values, the report grows by the new keys, and the probes of the whole report are made |
| `InventoryEngine.Inventory.MergeNew` | inventory/inventoryengine/inventoryengine.go:167-177 | the snapshot's missing keys are copied in and appended to the report once each |
| `InventoryEngine.Inventory.ProbeReport` | inventory/inventoryengine/inventoryengine.go:184-213 | the dials of probing every ID of `Report.new` against the AWS map, stopping at the first abort |
| `InventoryEngine.ProbeIds` | inventory/inventoryengine/inventoryengine.go:184-213 | the dials made and the abort are those of probing the listed IDs in order |
| `InventoryEngine.ProbeOne` | inventory/inventoryengine/inventoryengine.go:185-193 | no address panics; otherwise the user loop at the instance's address and port |

## Left out

- `Text.ToLower`, `Text.EqualFold`: fold only the ASCII letters A-Z, where Go's `strings.ToLower` and `strings.EqualFold` follow Unicode case mapping.
- `Aws.TranslateInstance`: requires the descriptor to carry `InstanceId`, `ImageId` and `LaunchTime` (`Aws.WellFormed`), so the nil-pointer panics of aws.go:101 and aws.go:132-135 are not modelled. `State` and its `Name` (aws.go:137) and the tags' `Key` and `Value` (aws.go:160-161) are dereferenced without a nil test too; the model types them as plain strings, so their panics are not modelled either. The requirement covers only the fetches the accumulation reads (`Aws.ReadFetchesWellFormed`).
- `Store.DB.InstanceExists`, `Store.DB.UpdateInstance`, `Store.DB.AddInstance`, `Store.DB.DeleteTags`, `Store.DB.AddTags`: never fail. Their storage-engine failures (`LogAndQuit`), begun and committed transactions, and the locking between transactions a SQLite file imposes are not modelled. In particular `InstanceExists` begins a transaction it never commits or rolls back (db.go:92-110); under SQLite's locking that transaction can keep its read lock, so a later commit of `UpdateInstance` or `AddInstance` may fail and be rolled back, silently for `UpdateInstance` and with only a debug line for `AddInstance` (db.go:228). The modelled upserts are therefore what the statements request, not necessarily what reaches disk.
- `Store.DB.GetActiveInstances`: the storage error is a parameter. The `panic` on a failed `Scan` is not modelled.
- `SshTest.ConnectionInfo.TryConnect`: the "You shouldn't get here." check for a nil client or session after a successful dial cannot trigger in the model, because a successful dial always opens both.
- `SshTest.ConnectionInfo.GetJson`: returns the record `MarshalIndent` serialises, not its JSON text. Its "Failed to parse json output." abort cannot happen for a record of strings and an integer.
- `SshTest.ConnectionInfo.HandleExit`: printing the report and `os.Exit` are replaced by returning the report and the exit code.
- The SSH transport (`ssh.Dial`, `NewSession`, `CombinedOutput`), key parsing, the 5-second timeout and the ignored host key. These are network I/O and appear only as the answers of `Network`.
- `readFile`, `readSize` and `PrintStruct`: file I/O and reflection. The outcome of reading a key file is `KeyFile`.
- The AWS SDK (`LoadDefaultConfig`, `NewFromConfig`, `DescribeInstances`), `AWS.Init` and `RefreshInstances`: foreign network calls. The fetch results arrive as `SubFetch` records, in the order the nested profile and region loops visit them.
- `aws.go`'s own `AddInstancesToDB`: its only caller is commented out. It loops the same way as `Store.DB.AddInstancesToDB`.
- `DB.Init`, `sql.Open` and schema creation: connection opening and DDL are storage-engine I/O.
- `Store.DB.constructor`: the model opens a fresh, empty store; `NewDB` reopening a persisted `inventory.db` with earlier rows is not modelled.
- `Store.UpsertAll`: one `now` serves the whole batch, where each insert of the code reads `time.Now()` itself (db.go:219); the LastSeen of rows inserted in one batch may differ by the time the batch takes.
- inventory/config/config.go: YAML loading and `parseTilde`. Accounts arrive as a map from profile to env, users as a sequence.
- The `sync.Once` singletons `NewAWS` and `NewInventory`: objects are passed explicitly. `NewAWS` takes a `*DB` that its callers in inventoryengine.go do not pass.
- `GetKeys`, `GetFiles`, `DirExists`, `CreateDirIfNotExists` and `IsPrivateKeyFile`: directory I/O and RE2 matching. `AddNew` only prints the keys found, so their result does not affect the model. Their `log.Fatal` exits (no home directory; `~/ansible/keys` not creatable or unreadable; inventoryengine.go:115, 123, 130, 153), which would end `AddNew` between its merge loop and its probe loop, are not modelled.
- `ExportToFile` (a stub that only logs), `PrettyPrintInventory` (JSON), `Pause` (stdin), logging setup, `LogAndQuit`, and inventory/main.go.
- `Report.terminated` and `Metadata`: no operation of the inventory engine reads or writes them.
- `Instance.LaunchTime` is an integer timestamp: the inventory engine never does `time.Time` arithmetic.

## Findings

| source | as written | input that shows it | evidently intended | confidence | as-written member | corrected member |
|---|---|---|---|---|---|---|
| inventory/inventoryengine/db.go:146-147 | the terminate statement updates table `Instance`, which the schema does not create, and the ignored error leaves every row as it was | a store with an active row "i-1" and the list ["i-1"]: the row stays active | update `AWSInstance`, so that every listed ID loses its active row | high; not executed | `Store.FlagAsWrittenIsNoOp` | `Store.FlaggedDeactivates` |
| inventory/inventoryengine/db.go:162 | the active-instance query selects column `InstanceID`, which `AWSInstance` does not have, so the query fails and `MarkTerminated` returns before flagging anything | any store, for example one with an active row "i-1": the listing is an error instead of ["i-1"] | select `ID` and list exactly the active IDs | high; not executed | `Store.ActiveQueryAsWrittenFails` | `Store.ActiveIdsSpec` |
