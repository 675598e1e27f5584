# mongoist, modelled in Dafny

mongoist is a promise-based layer over the MongoDB Node.js driver. This
project models its logic: everything it decides itself, as opposed to what
it forwards to the driver. The model covers:

- **Bulk writes** (`lib/bulk.js`, `lib/findSyntax.js`). Insert, update and
  delete entries go into command groups. A group is sealed when the kind
  changes or when it holds 1000 entries. `tojson` counts the operations.
  `execute` runs the groups in order and adds up the replies.
- **The lazy cursor** (`lib/cursor.js`). Options and flags are queued. The
  driver cursor is built once and the queued settings are applied to it.
  `next`, `hasNext`, `map`, `forEach`, `count`, `size`, `close` and the
  async-iterator step are built on top.
- **The collection** (`lib/collection.js`). It assigns `_id`s on insert and
  merges the write options. It picks between `updateOne`/`updateMany` and
  `deleteOne`/`deleteMany`. It reshapes replies to the old result format,
  splits `save` into update or insert, and builds `runCommand` documents
  and `find` options.
- **The database** (`lib/database.js`). Shortcut connection strings are
  expanded. The module also covers command documents, the
  `getCollectionInfos` filter, and how `connect` caches its connection and
  emits events.
- **The proxy** (`index.js`). Reading a property of the returned database
  gives one of three things. A database method comes back bound, once per
  key. Any other valid collection name gives a collection. Everything else
  gives the raw value.

JavaScript values are the datatype `JsValues.Value`. Objects are
*ordered* lists of properties, which models three things:

- key order as `Object.keys` reports it for keys that are not
  integer-like, which is insertion order (see "Left out");
- `Object.assign` overwriting a key in place and appending a new one;
- the MongoDB convention that a command's first key names the command.

Numbers are unbounded integers. A JavaScript `TypeError` (reading a property
of `null`/`undefined`, or assigning one on a primitive) is the `Err(TypeError)`
case of `Result`. A rejected promise is `Err(Rejected(reason))`.

The driver, the network and ObjectId generation are parameters:

- `reply: nat -> Reply` gives the replies to the bulk's commands, in order.
- `factory: nat -> Result<Driver>` gives what the n-th call of the cursor
  factory settles to, so a call after a rejection may succeed. The
  `Driver` value holds the documents still to come, the `dead`, `killed`
  and `closed` flags, and a log of the settings applied.
- `attempt` is the outcome of a connection attempt.
- `newId` and `mint` supply fresh ObjectIds.

The files are:

- `js.dfy`: module `JsValues`.
- `bulk.dfy`: module `BulkWrite`, with the classes `Bulk` and `FindSyntax`.
- `bulk_properties.dfy`: module `BulkProperties`.
- `cursor.dfy`: module `Cursors`, with the class `Cursor`.
- `collection.dfy`: module `Collections`.
- `database.dfy`: module `Databases`, with the class `Database`.
- `proxy.dfy`: module `DatabaseProxy`, with the class `Proxy`.

## Behaviour of the code worth knowing

The model follows the code, including these points a caller may not expect.

- **`tojson` pushes the open group every time it is called.** It pushes
  `currentCmd` onto `cmds` without clearing it (lib/bulk.js:105-108), so a
  second call pushes the same group again and reports one more batch.
  `BulkProperties.TojsonTwice` proves that the second summary differs.
- **`execute` never fills `writeErrors`.** The result object starts with
  empty `writeErrors` and `writeConcernErrors` (lib/bulk.js:73-82), and
  only the counters are added to (lib/bulk.js:84-87). See
  `BulkProperties.ExecuteAllReplied`. A rejected command rejects the whole
  `execute`, and later commands do not run (lib/bulk.js:136-144,
  `BulkProperties.ExecuteFirstFailure`).
- **Setters called after the driver cursor exists do not reach it.** A
  setter only writes `_options` (lib/cursor.js:16-21). The queued options
  are replayed once, in `Object.keys` order, when the driver cursor is
  first built (lib/cursor.js:121-136). See `Cursors.Cursor.SetOption` and
  `Cursors.MaterialiseLog`.
- **`connect` does not share an attempt in flight.** Each call made while
  no connection is cached starts an attempt of its own
  (lib/database.js:92-128). `Databases.Database.Connect` counts the
  attempts.
- **Three kinds of connection target.** `connect` handles a string, an
  object with a `_getConnection` function (a mongojs database) and another
  mongoist `Database`. Only the string branch emits `error`. A `null` or
  `undefined` target throws a TypeError, because lib/database.js:111 reads
  a property of it. Any other target falls through every branch, and
  `connect` returns `undefined`.
- **`close` passes errors on.** `Database.close` (lib/database.js:130-134)
  does not catch a failure to connect or to close.

## Model

| member | source | states |
|---|---|---|
| JsValues.FalsyValues | lib/cursor.js:31 | `Truthy` is JavaScript truthiness: exactly `undefined`, `null`, `false`, `0` and `""` are falsy, and objects, arrays and ObjectIds are truthy |
| JsValues.Or | lib/bulk.js:14 | `a \|\| b`: the first operand when it is truthy, otherwise the second |
| JsValues.AssignSpec | lib/collection.js:80 | `Object.assign(target, source)` gives the source's value for a key the source has and the target's otherwise. It keeps the target's keys first, in order, and adds no duplicate key |
| JsValues.AssignKeys | lib/collection.js:199-204 | The keys after `Object.assign` are the target's plus the source's. The target's keys stay first. A non-object source adds nothing |
| JsValues.CopyLookup | lib/collection.js:112 | `Object.assign({}, o)` reads like `o` on every key |
| JsValues.PutLookup | lib/cursor.js:105 | `o[k] = v` makes `k` read `v` and leaves every other key as it was |
| JsValues.PutKeys | lib/cursor.js:18 | Assignment overwrites an existing key in place and appends a new one at the end |
| JsValues.DeleteSpec | lib/database.js:65 | `delete o[k]` removes `k` and keeps every other key and its value |
| JsValues.AssignIdSpec | lib/bulk.js:66 | `AssignId`, that is `doc._id = doc._id \|\| id`, keeps a truthy `_id`, leaving the document unchanged. Otherwise it sets `_id` to the fresh id, in place or appended, and touches no other key |
| JsValues.IncludesChar | index.js:9 | `s.includes(c)` for a single character is membership of `c` in `s` |
| BulkWrite.CommandObject | lib/bulk.js:32-37 | A group's command object has exactly four distinct keys, and the first names the command with the collection name |
| BulkWrite.WriteConcernOption | lib/bulk.js:13-14 | The write concern is `opts.writeConcern` when truthy, otherwise `{w: 1}` |
| BulkWrite.Ensure | lib/bulk.js:25-41 | `ensureCommand` leaves an open group of the requested kind with room for one more entry, and keeps the builder well formed |
| BulkWrite.Append | lib/bulk.js:47-48 | Appending an entry keeps the builder well formed: every group is of its kind's shape and holds at most 1000 entries |
| BulkWrite.Dispatched | lib/bulk.js:16 | The dispatched groups are one per entry of `cmds` |
| BulkWrite.CountOps | lib/bulk.js:117-125 | Counting the operations never changes `nBatches` and never lowers a counter. The three counters together grow by exactly the entries of the groups with a collection name |
| BulkWrite.Bulk.constructor | lib/bulk.js:8-23 | A new bulk is empty and records the collection name, the ordered flag and the defaulted write concern |
| BulkWrite.Bulk.EnsureCommand | lib/bulk.js:25-41 | The new state is `Ensure` of the old one. The open group has the requested kind and fewer than 1000 entries |
| BulkWrite.Bulk.PushEntry | lib/bulk.js:48 | Pushing into the open group appends the entry to it and changes nothing else |
| BulkWrite.Bulk.Insert | lib/bulk.js:63-68 | An object document gets `_id` kept or freshly assigned and is appended to an insert group. A non-object opens the group and then throws without adding an entry |
| BulkWrite.Bulk.RemoveEntry | lib/bulk.js:46-49 | Appends `{q, limit}` to a delete group |
| BulkWrite.Bulk.UpdateEntry | lib/bulk.js:51-54 | Appends `{q, u, multi, upsert}` to an update group |
| BulkWrite.Bulk.Find | lib/bulk.js:43-61 | `find(q)` returns a fresh builder over this bulk for `q`, with `upsert` false |
| BulkWrite.Bulk.PushCurrentCmd | lib/bulk.js:99-103 | The open group, if any, is pushed onto `cmds` and stays open |
| BulkWrite.Bulk.ToJson | lib/bulk.js:105-128 | The open group is pushed, and the result is the summary of the pushed groups |
| BulkWrite.CountCommands | lib/bulk.js:110-125 | Starting from zero counters and `nBatches` equal to the number of commands, the loop ends with the counts of the dispatched groups as `CountOps` defines them |
| BulkWrite.Bulk.Execute | lib/bulk.js:70-97 | The open group is pushed. A connection failure rejects. Otherwise the groups run strictly in order and the result is the `Outcome` fold |
| BulkWrite.FindSyntax.constructor | lib/findSyntax.js:3-5 | The builder records its bulk and query, with `upsert` false |
| BulkWrite.FindSyntax.Upsert | lib/findSyntax.js:7-11 | Sets `upsert` and returns the same builder |
| BulkWrite.FindSyntax.Remove | lib/findSyntax.js:13-15 | Appends a delete with limit 0 |
| BulkWrite.FindSyntax.RemoveOne | lib/findSyntax.js:17-19 | Appends a delete with limit 1 |
| BulkWrite.FindSyntax.Update | lib/findSyntax.js:21-23 | Appends an update with `multi` true and the builder's `upsert` |
| BulkWrite.FindSyntax.UpdateOne | lib/findSyntax.js:25-27 | Appends an update with `multi` false and the builder's `upsert` |
| BulkWrite.FindSyntax.ReplaceOne | lib/findSyntax.js:29-31 | Does exactly what `updateOne` does |
| BulkProperties.CommandLookup | lib/bulk.js:32-37 | Reading a key of a group's command object gives the collection name, the entries, the ordered flag, the write concern, or `undefined` |
| BulkProperties.SealsAsWritten | lib/bulk.js:26 | The sealing rule is the source's test: the open group's command key is not truthy, or its entry list holds 1000 |
| BulkProperties.AddOpsAsWritten | lib/bulk.js:117-125 | `AddOps`, the per-group counting, is the source's `if update / else if insert / else if delete` chain on the command object |
| BulkProperties.NewGroupCommand | lib/bulk.js:32-37 | A new group has its command key first, the collection name, an empty entry list, the bulk's `ordered` flag and its write concern |
| BulkProperties.AppendRule | lib/bulk.js:25-41 | An entry opens a new group exactly when no group is open or the open one is sealed. A sealed group goes onto `cmds`. Otherwise the entry joins the open group |
| BulkProperties.AppendAll | lib/bulk.js:47-67 | Any sequence of builder calls leaves a well-formed builder |
| BulkProperties.FlattenLast | lib/bulk.js:48 | Changing the last group changes only the tail of the flattened entries |
| BulkProperties.OpenGroupStep | lib/bulk.js:26-37 | Opening a group keeps the partition invariant |
| BulkProperties.JoinGroupStep | lib/bulk.js:40-48 | Joining the open group keeps the partition invariant |
| BulkProperties.Partition | lib/bulk.js:25-41 | The groups hold the entries in call order, none is empty, each consecutive pair is split by the sealing rule, and every sealed group is on `cmds` in order |
| BulkProperties.InsertGroups | lib/bulk.js:63-68 | N inserts make `(N-1)/1000+1` groups, all inserts, the last open with `(N-1)%1000+1` entries |
| BulkProperties.AppendShape | lib/bulk.js:25-48 | With the open group last, one more entry either starts a new last group holding only that entry (when the open group is sealed) or grows the last group by one. Earlier groups stay as they were |
| BulkProperties.InsertStep | lib/bulk.js:63-68 | One more insert keeps the shape of N inserts (group count, open last group, remainder size, all inserts) for N+1 |
| BulkProperties.ExampleGroups | lib/bulk.js:25-68 | Two inserts, then an update, then a `removeOne` make exactly three groups |
| BulkProperties.InsertBatches | lib/bulk.js:3-68 | N inserts make ⌈N/1000⌉ insert groups of 1 to 1000 entries, and `tojson` reports ⌈N/1000⌉ batches |
| BulkProperties.CountKindAppend | lib/bulk.js:117-125 | Counting entries of a kind distributes over concatenation |
| BulkProperties.CountKindUniform | lib/bulk.js:117-125 | A group of one kind counts all its entries for that kind and none for the others |
| BulkProperties.CountOpsFlatten | lib/bulk.js:117-125 | Summing per group equals counting each kind over all entries |
| BulkProperties.TojsonCounts | lib/bulk.js:105-128 | `tojson` after any builder calls reports the number of inserts, updates and deletes made, and one batch per group |
| BulkProperties.TojsonExample | lib/bulk.js:105-128 | Two inserts, an update and a `removeOne` give 2/1/1 operations in 3 batches |
| BulkProperties.CountOpsBatches | lib/bulk.js:114-125 | Counting is independent of the starting `nBatches` |
| BulkProperties.TojsonTwice | lib/bulk.js:105-108 | A second `tojson` pushes the still-open group again. The summary gains one batch and that group's operations, so it differs |
| BulkProperties.Totals | lib/bulk.js:73-87 | The running result never touches `writeErrors`, `writeConcernErrors`, `upserted`, `nMatched`, `nModified` or `ok` |
| BulkProperties.RunFrom | lib/bulk.js:136-144 | `Run` is the recursive `each` with the reply fold of `setResult`. When every command replies, running from group i adds the rest and then sets `ok = 1` |
| BulkProperties.ExecuteAllReplied | lib/bulk.js:70-97 | When every command replies, `execute` resolves with `ok = 1`, and the untouched fields stay empty or zero |
| BulkProperties.ExecuteFirstFailure | lib/bulk.js:136-144 | In `Run`, the first rejected command rejects `execute` with its reason. Later groups are not run |
| BulkProperties.ExecuteEmpty | lib/bulk.js:70-97 | An empty bulk resolves with every count zero and `ok = 1` |
| BulkProperties.TotalsOfFullReplies | lib/bulk.js:84-87 | `Tally` is `setResult`, adding `n` to the counter the command's kind maps to. When each reply's `n` is its group's size, the counts are the inserts, updates (under `nUpserted`) and deletes so far |
| BulkProperties.ExecuteInserts | lib/bulk.js:63-97 | N inserts whose commands each acknowledge their group's size resolve with `nInserted = N` and `ok = 1` |
| Cursors.OptionCalls | lib/cursor.js:124-126 | One driver call per queued option, in key order |
| Cursors.FlagCalls | lib/cursor.js:127-129 | One `addCursorFlag` call per queued flag, in key order |
| Cursors.ApplyOptionsLog | lib/cursor.js:124-126 | Applying the options records exactly those calls, in order |
| Cursors.ApplyFlagsLog | lib/cursor.js:127-129 | Applying the flags records exactly those calls, in order |
| Cursors.MaterialiseLog | lib/cursor.js:121-135 | `Materialise`, the replay in `getCursor`: the built cursor gets every option, then every flag, and nothing else about it changes |
| Cursors.DriverClose | lib/cursor.js:79 | The driver's `close` leaves the cursor closed and killed |
| Cursors.Pull | lib/cursor.js:82-90 | A dead or killed cursor yields `null` and is untouched. Otherwise the driver's `next` is called. A truthy document consumes one |
| Cursors.TruthyPrefix | lib/cursor.js:28-37 | The documents before the first falsy one: a prefix, all truthy, stopped by a falsy one |
| Cursors.DrainSpec | lib/cursor.js:24-60 | `Drain`, the `map`/`forEach` loop, visits exactly the leading truthy documents, none for a dead or killed cursor. It consumes the stopping one and leaves the cursor otherwise unchanged |
| Cursors.IteratorResult | lib/cursor.js:143 | `{value: doc \|\| undefined, done: !doc}` |
| Cursors.Cursor.constructor | lib/cursor.js:4-14 | A new cursor has no options, no flags and no driver cursor |
| Cursors.Cursor.SetOption | lib/cursor.js:16-21 | The setter writes the option, returns the same cursor, and never changes an existing driver cursor |
| Cursors.Cursor.AddCursorFlag | lib/cursor.js:104-107 | Writes the flag, returns the same cursor, and never changes an existing driver cursor |
| Cursors.Cursor.GetCursor | lib/cursor.js:116-137 | A stored cursor is returned with no factory call. Otherwise the factory is called once, and on success the options and flags are applied and the result stored. A rejection is passed on and nothing is stored |
| Cursors.Cursor.Next | lib/cursor.js:82-90 | `getCursor` followed by `Pull` on the driver cursor; rejections pass through |
| Cursors.Cursor.HasNext | lib/cursor.js:92-94 | True exactly when the cursor is not closed and has a document left |
| Cursors.Cursor.Count | lib/cursor.js:62-64 | Asks the driver for `count(false, options)` |
| Cursors.Cursor.Size | lib/cursor.js:66-68 | Asks the driver for `count(true, options)` |
| Cursors.Cursor.Close | lib/cursor.js:78-80 | Closes the driver cursor |
| Cursors.Cursor.Destroy | lib/cursor.js:74-76 | Same as `close` |
| Cursors.Cursor.Map | lib/cursor.js:24-42 | Resolves with `fn` applied to the leading truthy documents. If `getCursor` rejects, the promise never settles |
| Cursors.Cursor.ForEach | lib/cursor.js:44-60 | Visits the leading truthy documents in order and resolves with `undefined`. If `getCursor` rejects, it never settles |
| Cursors.Cursor.IteratorNext | lib/cursor.js:141-146 | One `next`, wrapped as an iterator result |
| Cursors.SetterLookup | lib/cursor.js:16-21 | A setter changes only its own option |
| Cursors.ClosedYieldsNothing | lib/cursor.js:78-90 | After `close`, `next` yields `null` and `map`/`forEach` visit nothing |
| Cursors.Apply | lib/cursor.js:33 | `fn` applied to each document, in order |
| Collections.CopyWriteOptions | lib/collection.js:9 | Copying the default write options gives them back |
| Collections.MergedWriteOptionsSpec | lib/collection.js:80 | `MergedWriteOptions`, that is `Object.assign({}, writeOpts, opts)`: the merged options start with `writeConcern` and `ordered`. The caller's value wins for every key the caller sets, and the defaults fill the rest |
| Collections.InsertOne | lib/collection.js:75-83 | A non-object document throws. Otherwise a truthy `_id` is kept and the document sent unchanged; a missing one gets a fresh id and no other field changes. The options are the merged write options |
| Collections.FirstNonObject | lib/collection.js:86-88 | The index of the first document that is not an object |
| Collections.InsertMany | lib/collection.js:85-95 | Each document up to the first non-object gets its `_id` in place. The operation throws exactly when there is a non-object, leaving it and the later documents untouched. Otherwise all documents go to the driver with the merged options |
| Collections.WithIdSpec | lib/collection.js:76-87 | After id assignment `_id` is truthy, a truthy `_id` is kept, and no other field changes |
| Collections.Insert | lib/collection.js:69-73 | An array goes to `insertMany`, anything else to `insertOne`. For an array, the call fails exactly when some element is not an object; otherwise it sends every element with its `_id` assigned, and the merged write options |
| Collections.Update | lib/collection.js:97-107 | `updateMany` exactly when `opts.multi` is truthy, with the merged write options |
| Collections.Overlay | lib/collection.js:112-118 | Copying the reply and then overlaying the new fields gives each key the new field's value if it has one, and the reply's otherwise |
| Collections.UpdateFieldsKeys | lib/collection.js:112-118 | The overlay has the five fields `ok, n, nModified, nUpserted, upserted` |
| Collections.UpdateReplySpec | lib/collection.js:108-119 | `UpdateReply`, the reshaped update reply, has `ok` 1 or 0 by `acknowledged`, and `n = modifiedCount \|\| upsertedCount`. `nModified` and `nUpserted` are copied. `upserted` is `[{_id}]` or `null` |
| Collections.UpdateReplyKeeps | lib/collection.js:112 | `UpdateReply` keeps every other field of the driver's reply |
| Collections.RemoveOptions | lib/collection.js:149-153 | Falsy options become `{justOne: false}`, a boolean `b` becomes `{justOne: b}`, and anything else is kept |
| Collections.RemoveOptionsIdempotent | lib/collection.js:149-153 | Normalising twice is normalising once, and the result is always a truthy non-boolean |
| Collections.Remove | lib/collection.js:148-160 | `deleteOne` exactly when the normalised `justOne` is truthy, with the merged write options |
| Collections.RemoveJustOne | lib/collection.js:148-155 | `remove(q)` and `remove(q, false)` delete many; `remove(q, true)` and `{justOne: true}` delete one |
| Collections.RemoveReplySpec | lib/collection.js:161-169 | `RemoveReply`, the reshaped delete reply, has `ok` by `acknowledged`, `n = nRemoved = deletedCount`, and every other field kept |
| Collections.Save | lib/collection.js:134-146 | `null`/`undefined` throws. A truthy `_id` updates `{_id}` with `{$set: doc}`. Otherwise the document is inserted |
| Collections.SaveUpserts | lib/collection.js:137-142 | The update that `save` makes upserts unless the caller sets `upsert`, and carries every other caller option |
| Collections.CollectionCommand | lib/collection.js:196-204 | The command document's first key is the command |
| Collections.CollectionCommandSpec | lib/collection.js:196-204 | `{[cmd]: name}` merged with the options: the command key first, the collection name unless the options set that key, and other keys from the options |
| Collections.DropIndexCommands | lib/collection.js:215-221 | `dropIndexes` sends `{dropIndexes: name, index: "*"}` and `dropIndex(i)` sends `{dropIndexes: name, index: i}` |
| Collections.IsCapped | lib/collection.js:243-247 | `!!isCapped`: a boolean, true exactly when the driver's answer is truthy |
| Collections.FindCall | lib/collection.js:23-45 | With legacy projections the three arguments pass through. Otherwise `projection` becomes the first option |
| Collections.FindProjection | lib/collection.js:29-41 | The projection option is the caller's `projection` option if it has one, otherwise the projection argument |
| Databases.NormaliseUrlComplete | lib/database.js:10-19 | The string `NormaliseUrl` returns always contains `/` and `mongodb://` |
| Databases.NormaliseUrlIdempotent | lib/database.js:10-19 | `NormaliseUrl` leaves a string as it is exactly when it has both `/` and `mongodb://`, so normalising twice is normalising once |
| Databases.NormaliseBareName | lib/database.js:12-18 | Any database name without `/` becomes `mongodb://localhost/<name>` |
| Databases.NormaliseHostAndName | lib/database.js:16-18 | A string with `/` that does not include `mongodb://` only gets `mongodb://` in front |
| Databases.NormaliseExampleName | lib/database.js:10-19 | `test` becomes `mongodb://localhost/test` |
| Databases.NormaliseExampleAdmin | lib/database.js:10-19 | `admin` becomes `mongodb://localhost/admin` |
| Databases.ConstructorTarget | lib/database.js:10-21 | Only string targets are normalised |
| Databases.ConstructorOptions | lib/database.js:22 | Options default to `{}` |
| Databases.CommandDocument | lib/database.js:48-52 | A command name becomes `{[name]: 1}`, anything else is sent as it is |
| Databases.StatsCommand | lib/database.js:59-61 | `{dbStats: 1, scale}` in that order |
| Databases.CreateCollectionCommand | lib/database.js:28-32 | `create` is the command's first key |
| Databases.CreateCollectionSpec | lib/database.js:28-32 | `Object.assign({create: name}, opts)` keeps `create` as the first key and keys distinct. `create` holds `name` unless `opts` sets it, and every other key reads as in `opts` |
| Databases.CreateUserCommand | lib/database.js:63-68 | Throws exactly for `null`/`undefined` |
| Databases.CreateUserSpec | lib/database.js:63-68 | `createUser` comes first and holds the user name, unless `usr` has its own `createUser`. `user` is removed and every other field copied |
| Databases.DeleteDistinct | lib/database.js:65 | `delete` keeps keys distinct |
| Databases.VisibleCollections | lib/database.js:34-38 | Throws exactly when some entry's name is not a string |
| Databases.VisibleCollectionsMembers | lib/database.js:37 | An entry is kept exactly when its name does not start with `system.` |
| Databases.VisibleCollectionsAppend | lib/database.js:37 | The filter keeps order: filtering a concatenation concatenates the filtered parts |
| Databases.CollectionNames | lib/database.js:44-46 | The names of the visible entries, one per entry, in order |
| Databases.CollectionNamesVisible | lib/database.js:34-46 | No reported name starts with `system.` |
| Databases.Database.constructor | lib/database.js:7-26 | The target is normalised, options defaulted, and the connection `null` |
| Databases.Database.Connect | lib/database.js:92-128 | A truthy cached connection is returned with no attempt. Otherwise one attempt is made. Success caches the connection. Events: `connect` on success except via a peer, `error` on failure only for a URL. A `null`/`undefined` target throws a TypeError. Any other target gives `undefined` |
| DatabaseProxy.ValidCollectionNameChars | index.js:7-10 | A valid collection name is a non-empty string without `$` or `\0`, not starting with `system.` |
| DatabaseProxy.ValidCollectionNameExample | index.js:7-10 | `users` is a valid collection name |
| DatabaseProxy.InvalidCollectionNameExamples | index.js:7-10 | `""`, `a$b`, `system.indexes` and every symbol are not valid collection names |
| DatabaseProxy.Resolve | index.js:17-31 | A function is answered bound: the memoised binding if there is one, otherwise a fresh one that is stored. A valid name gives a collection, and anything else the raw value; neither touches the memo |
| DatabaseProxy.ResolveKeepsValid | index.js:14-22 | Lookups keep memoised bindings distinct, and a fresh binding differs from all others |
| DatabaseProxy.ResolveTwice | index.js:22-23 | Reading a key a second time answers the identical binding and changes nothing |
| DatabaseProxy.MethodsBeforeCollections | index.js:20-24 | A database function wins even under a valid collection name |
| DatabaseProxy.DataFieldIsCollection | index.js:26-28 | The data field `connection` reads as a collection |
| DatabaseProxy.SymbolsAreRaw | index.js:30 | A symbol never yields a collection |
| DatabaseProxy.Proxy.constructor | index.js:13-14 | The memo starts empty |
| DatabaseProxy.Proxy.Get | index.js:17-31 | The `get` trap answers and updates the memo as `Resolve` does, and keeps the memo valid |

## Left out

- The driver and the network are not modelled. `MongoClient.connect`,
  `connection.command`, the collection verbs and the driver cursor's
  `next`, `count` and `close` are inputs: reply oracles, a `Driver` value,
  or the requests built for them (`Collections.DriverCall`).
- Node streams and events are not modelled: `Readable`, `_read` and `push`,
  the forwarded `close` event (lib/cursor.js:131), and listeners that
  throw. Emitted database events are a log.
- `setImmediate` scheduling in `map` and `forEach` is not modelled; these
  are plain loops.
- `fn` in `map` and `forEach` is a pure function. Side effects it has on the
  cursor are not modelled. `ForEach` returns the visited documents in place
  of calling `fn`.
- Concurrency is not modelled. Overlapping `connect` or `getCursor` calls
  each start their own attempt, which the model shows for sequential calls
  only.
- ObjectId generation is not modelled. Fresh ids are parameters, assumed
  distinct by the caller.
- `Database.close` is not modelled: it connects, then calls the driver's
  `close`.
- Cursors.Cursor.SetOption: the source installs the setters on
  `Cursor.prototype` inside the constructor, so every cursor's setter writes
  into the most recently built cursor's `_options`. The model gives each
  cursor its own setters.
- `explain`, `rewind` and `toArray` on the cursor are not modelled: they
  forward to the driver.
- Bulk `toString` is not modelled: JSON text is out of scope, and its
  effect on the builder is that of `tojson`.
- BulkWrite.Bulk.Insert: an array or ObjectId given as a document is
  treated as a non-object, whose `_id` assignment throws. In JavaScript
  lib/bulk.js:66-67 sets `_id` on it and pushes it into the group.
- Collections.InsertOne, Collections.InsertMany: an array or ObjectId given
  as a document is treated as a non-object, whose `_id` assignment throws.
  In JavaScript it would take the property.
- Collections.Insert: documents are values. Writing the fresh `_id` into
  the caller's own objects (aliasing) is shown only for the top-level
  array that `InsertMany` updates in place.
- Numbers are integers. NaN, floating point and `-0` are not modelled.
- Key order is insertion order for every key. JavaScript lists
  integer-like keys (`"0"`, `"17"`) first, in ascending order, before the
  other keys. So for an object with such a key, `Object.keys` order and
  "the command is the first key" (as in `runCommand("drop", {"0": 1})`)
  differ from the model. An array or string source of `Object.assign`
  adds no keys in the model, while JavaScript copies its index keys.
- JsValues.PutKeys: a new key is appended at the end. JavaScript puts a new
  integer-like key before the other keys instead.
- JsValues.AssignKeys: an array or string source adds no keys. JavaScript
  copies its index keys. Integer-like keys are ordered as for `PutKeys`.
- JsValues.AssignSpec: "the target's keys come first" does not hold in
  JavaScript for integer-like source keys, which go before the others.
- These verbs are not modelled: `findOne`, `findAndModify`, `count`,
  `distinct`, `replaceOne`, `deleteMany`, `deleteOne`, `rename`, `drop`,
  collection `stats`, `createIndex`/`ensureIndex`, `getIndexes`,
  `reIndex`, `aggregate`, `dropUser`, `dropAllUsers`, `dropDatabase`,
  `getLastError`/`getLastErrorObj`, `listCollections`, and
  `Database.collection`. Each forwards one command or driver call and
  decides nothing of its own. The ones sending `runCommand` documents are
  covered by `Collections.CollectionCommandSpec` and
  `Databases.CommandDocument`.
- The `useLegacyProjections` feature flag is a parameter of
  `Collections.FindCall`, because `features` is never set on the database.
- The module-level exports of `index.js` (prototypes and BSON types) and
  `index.d.ts` are not modelled.
