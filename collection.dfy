/**
 * The option and result translators of lib/collection.js.
 *
 * Each collection operation is modelled by the driver call it makes (its
 * arguments and options) and, where the shim reshapes the driver's answer,
 * by that reshaping. The connection and the driver are outside the model:
 * a rejection from either passes through unchanged.
 */
module Collections {
  import opened JsValues

  /** The call handed to the driver's collection object. */
  datatype DriverCall =
    | InsertOneCall(doc: Value, options: seq<Prop>)
    | InsertManyCall(docs: seq<Value>, options: seq<Prop>)
    | UpdateCall(many: bool, query: Value, update: Value, options: seq<Prop>)
    | DeleteCall(one: bool, query: Value, options: seq<Prop>)
    | LegacyFind(query: Value, projection: Value, opts: Value)
    | Find(query: Value, findOptions: seq<Prop>)

  /** The shared write options `{ writeConcern: { w: 1 }, ordered: true }`. */
  const WriteOptions: seq<Prop> :=
    [Prop("writeConcern", Obj([Prop("w", Num(1))])), Prop("ordered", Bool(true))]

  const EmptyObject: Value := Obj([])

  /** `Object.assign({}, writeOpts, opts)`: a fresh object, so the shared
      defaults are never written to. */
  function MergedWriteOptions(opts: Value): seq<Prop> {
    Assign(AssignProps([], WriteOptions), opts)
  }

  lemma CopyWriteOptions()
    ensures AssignProps([], WriteOptions) == WriteOptions
  {
    var a, b := WriteOptions[0], WriteOptions[1];
    assert WriteOptions[1..] == [b] && [b][1..] == [];
    assert Put([], a.key, a.val) == [a];
    assert AssignProps([], WriteOptions) == AssignProps([a], [b]);
    assert Put([a], b.key, b.val) == [a] + Put([], b.key, b.val) == [a, b];
    assert AssignProps([a], [b]) == AssignProps([a, b], []);
  }

  /** The caller's options win on every key they set; the two defaults come
      first, in their own order, and fill in what the caller left out. */
  lemma MergedWriteOptionsSpec(opts: Value)
    requires opts.Obj? ==> Distinct(opts.props)
    ensures var r := MergedWriteOptions(opts);
      && Distinct(r)
      && |r| >= 2 && KeysOf(r)[..2] == ["writeConcern", "ordered"]
      && (forall k :: Lookup(r, k) == if Has(Assign([], opts), k) then Get(opts, k) else Lookup(WriteOptions, k))
      && (forall k :: Has(r, k) <==> k == "writeConcern" || k == "ordered" || Has(Assign([], opts), k))
  {
    CopyWriteOptions();
    assert KeysOf(WriteOptions) == ["writeConcern", "ordered"];
    AssignSpec(WriteOptions, opts);
  }

  // ---------------------------------------------------------------------
  // insert, insertOne, insertMany
  // ---------------------------------------------------------------------

  /** `if (!doc._id) doc._id = oid()` on one element: only plain objects
      take the property (anything else throws, see InsertOne). */
  function WithId(doc: Value, newId: nat): Value {
    if doc.Obj? then Obj(AssignId(doc.props, ObjectId(newId))) else doc
  }

  /** `insertOne(doc, opts)`: a document that is not an object throws a
      TypeError before anything is sent; otherwise a missing or falsy `_id`
      is replaced by the fresh one, and the document (which is also what
      the call resolves to) is sent with the merged write options. */
  function InsertOne(doc: Value, newId: nat, opts: Value): (r: Result<DriverCall>)
    ensures !doc.Obj? <==> r == Err(TypeError)
    ensures doc.Obj? ==> r.Ok? && r.value.InsertOneCall? && r.value.options == MergedWriteOptions(opts)
    ensures doc.Obj? ==> Get(r.value.doc, "_id") == Or(Get(doc, "_id"), ObjectId(newId))
    ensures doc.Obj? ==> forall k :: k != "_id" ==> Get(r.value.doc, k) == Get(doc, k)
    ensures doc.Obj? && Truthy(Get(doc, "_id")) ==> r.value.doc == doc
  {
    if !doc.Obj? then Err(TypeError)
    else
      AssignIdSpec(doc.props, ObjectId(newId));
      Ok(InsertOneCall(WithId(doc, newId), MergedWriteOptions(opts)))
  }

  /** The index of the first element that is not a plain object, or `|docs|`. */
  function FirstNonObject(docs: seq<Value>): (i: nat)
    ensures i <= |docs|
    ensures forall j :: 0 <= j < i ==> docs[j].Obj?
    ensures i < |docs| ==> !docs[i].Obj?
  {
    if docs == [] || !docs[0].Obj? then 0 else 1 + FirstNonObject(docs[1..])
  }

  /** `insertMany(docs, opts)`: the loop gives each document in turn an
      `_id` when it lacks one (the i-th fresh id is `mint(i)`), in place. At
      the first element that is not an object it throws a TypeError, the
      earlier elements keeping their new ids. Otherwise the same list, in
      the same order, is sent with the merged write options. */
  method InsertMany(docs: array<Value>, mint: nat -> nat, opts: Value) returns (r: Result<DriverCall>)
    modifies docs
    ensures var bad := FirstNonObject(old(docs[..]));
      && (forall j :: 0 <= j < docs.Length ==>
            docs[j] == if j < bad then WithId(old(docs[j]), mint(j)) else old(docs[j]))
      && (bad < docs.Length <==> r == Err(TypeError))
      && (bad == docs.Length ==> r == Ok(InsertManyCall(docs[..], MergedWriteOptions(opts))))
  {
    ghost var orig := docs[..];
    ghost var bad := FirstNonObject(orig);
    var i := 0;
    while i < docs.Length
      invariant 0 <= i <= docs.Length && i <= bad
      invariant forall j :: 0 <= j < docs.Length ==>
                  docs[j] == if j < i then WithId(orig[j], mint(j)) else orig[j]
    {
      if !docs[i].Obj? {
        assert docs[i] == orig[i];
        assert bad == i;
        return Err(TypeError);
      }
      docs[i] := WithId(docs[i], mint(i));
      i := i + 1;
    }
    assert bad == docs.Length;
    return Ok(InsertManyCall(docs[..], MergedWriteOptions(opts)));
  }

  /** What `insertMany` does to each document's `_id`: a truthy one is kept,
      otherwise the fresh one is stored, and no other property changes. */
  lemma WithIdSpec(doc: Value, newId: nat)
    requires doc.Obj?
    ensures Get(WithId(doc, newId), "_id") == Or(Get(doc, "_id"), ObjectId(newId))
    ensures Truthy(Get(WithId(doc, newId), "_id"))
    ensures Truthy(Get(doc, "_id")) ==> WithId(doc, newId) == doc
    ensures forall k :: k != "_id" ==> Get(WithId(doc, newId), k) == Get(doc, k)
  {
    AssignIdSpec(doc.props, ObjectId(newId));
  }

  /** `insert(docOrDocs, opts)`: an array goes to `insertMany`, anything
      else to `insertOne`. The model hands `insertMany` a fresh array with
      the list's elements and returns the updated list. */
  method Insert(docOrDocs: Value, mint: nat -> nat, opts: Value) returns (r: Result<DriverCall>)
    ensures !docOrDocs.Arr? ==> r == InsertOne(docOrDocs, mint(0), opts)
    ensures docOrDocs.Arr? ==>
              var bad := FirstNonObject(docOrDocs.items);
              (bad < |docOrDocs.items| <==> r == Err(TypeError))
              && (r.Ok? ==> r.value.InsertManyCall? &&
                            r.value.options == MergedWriteOptions(opts) &&
                            r.value.docs == seq(|docOrDocs.items|, j requires 0 <= j < |docOrDocs.items| =>
                                                  WithId(docOrDocs.items[j], mint(j))))
  {
    if !docOrDocs.Arr? {
      return InsertOne(docOrDocs, mint(0), opts);
    }
    var a := new Value[|docOrDocs.items|](j requires 0 <= j < |docOrDocs.items| => docOrDocs.items[j]);
    assert a[..] == docOrDocs.items;
    r := InsertMany(a, mint, opts);
  }

  // ---------------------------------------------------------------------
  // update
  // ---------------------------------------------------------------------

  /** `update(query, update, opts)`: `updateMany` exactly when `opts.multi`
      is truthy, `updateOne` otherwise, with the merged write options. */
  function Update(query: Value, update: Value, opts: Value): (c: DriverCall)
    ensures c.UpdateCall? && c.query == query && c.update == update
    ensures c.many <==> Truthy(Get(opts, "multi"))
    ensures c.options == MergedWriteOptions(Or(opts, EmptyObject))
  {
    var o := Or(opts, EmptyObject);
    UpdateCall(Truthy(Get(o, "multi")), query, update, MergedWriteOptions(o))
  }

  /** `result.upsertedCount ? [{ _id: result.upsertedId }] : null`. */
  function UpsertedList(result: Value): Value {
    if Truthy(Get(result, "upsertedCount")) then Arr([Obj([Prop("_id", Get(result, "upsertedId"))])]) else Null
  }

  /** The fields the legacy update reply adds on top of the driver's. */
  function UpdateFields(result: Value): seq<Prop> {
    [ Prop("ok", Num(if Truthy(Get(result, "acknowledged")) then 1 else 0)),
      Prop("n", Or(Get(result, "modifiedCount"), Get(result, "upsertedCount"))),
      Prop("nModified", Get(result, "modifiedCount")),
      Prop("nUpserted", Get(result, "upsertedCount")),
      Prop("upserted", UpsertedList(result)) ]
  }

  /** The reply of `update`: a copy of the driver's result with the legacy
      fields added (or overwritten). */
  function UpdateReply(result: Value): Value {
    Obj(AssignProps(Assign([], result), UpdateFields(result)))
  }

  /** `Object.assign({}, result, fields)`: the fields win, the rest of the
      result is kept. */
  lemma Overlay(result: Value, fs: seq<Prop>, k: string)
    requires result.Obj? ==> Distinct(result.props)
    requires Distinct(fs)
    ensures Lookup(AssignProps(Assign([], result), fs), k) ==
            if Has(fs, k) then Lookup(fs, k) else Get(result, k)
  {
    AssignPropsLookup(Assign([], result), fs);
    CopyLookup(result);
  }

  lemma UpdateFieldsKeys(result: Value)
    ensures KeysOf(UpdateFields(result)) == ["ok", "n", "nModified", "nUpserted", "upserted"]
    ensures Distinct(UpdateFields(result))
  {
    var ks := KeysOf(UpdateFields(result));
    assert ks == ["ok", "n", "nModified", "nUpserted", "upserted"];
    assert forall i, j :: 0 <= i < j < 5 ==> ks[i] != ks[j];
  }

  /** `ok` is 1 exactly when the write was acknowledged, `n` is the modified
      count or, when that is falsy, the upserted count, and `upserted` lists
      the upserted id exactly when one was upserted. */
  lemma UpdateReplySpec(result: Value)
    requires result.Obj? ==> Distinct(result.props)
    ensures var r := UpdateReply(result);
      && Get(r, "ok") == (if Truthy(Get(result, "acknowledged")) then Num(1) else Num(0))
      && Get(r, "n") == Or(Get(result, "modifiedCount"), Get(result, "upsertedCount"))
      && Get(r, "nModified") == Get(result, "modifiedCount")
      && Get(r, "nUpserted") == Get(result, "upsertedCount")
      && (Truthy(Get(result, "upsertedCount")) ==>
            Get(r, "upserted") == Arr([Obj([Prop("_id", Get(result, "upsertedId"))])]))
      && (!Truthy(Get(result, "upsertedCount")) ==> Get(r, "upserted") == Null)
  {
    var fs := UpdateFields(result);
    UpdateFieldsKeys(result);
    Overlay(result, fs, "ok");
    Overlay(result, fs, "n");
    Overlay(result, fs, "nModified");
    Overlay(result, fs, "nUpserted");
    Overlay(result, fs, "upserted");
    LookupPresent(fs, 0);
    LookupPresent(fs, 1);
    LookupPresent(fs, 2);
    LookupPresent(fs, 3);
    LookupPresent(fs, 4);
  }

  /** Every other field of the driver's update result is kept. */
  lemma UpdateReplyKeeps(result: Value, k: string)
    requires result.Obj? ==> Distinct(result.props)
    requires k != "ok" && k != "n" && k != "nModified" && k != "nUpserted" && k != "upserted"
    ensures Get(UpdateReply(result), k) == Get(result, k)
  {
    var fs := UpdateFields(result);
    UpdateFieldsKeys(result);
    Overlay(result, fs, k);
  }

  // ---------------------------------------------------------------------
  // remove
  // ---------------------------------------------------------------------

  /** `opts = opts || { justOne: false }`, then a boolean `b` becomes
      `{ justOne: b }`. */
  function RemoveOptions(opts: Value): (o: Value)
    ensures !Truthy(opts) ==> o == Obj([Prop("justOne", Bool(false))])
    ensures opts == Bool(true) ==> o == Obj([Prop("justOne", Bool(true))])
    ensures Truthy(opts) && !opts.Bool? ==> o == opts
  {
    var o := Or(opts, Obj([Prop("justOne", Bool(false))]));
    if o.Bool? then Obj([Prop("justOne", o)]) else o
  }

  /** Normalising twice is normalising once; the result is never a boolean
      and never falsy. */
  lemma RemoveOptionsIdempotent(opts: Value)
    ensures RemoveOptions(RemoveOptions(opts)) == RemoveOptions(opts)
    ensures Truthy(RemoveOptions(opts)) && !RemoveOptions(opts).Bool?
  {
  }

  /** `remove(query, opts)`: `deleteOne` exactly when the normalised
      `justOne` is truthy, `deleteMany` otherwise. */
  function Remove(query: Value, opts: Value): (c: DriverCall)
    ensures c.DeleteCall? && c.query == query
    ensures c.one <==> Truthy(Get(RemoveOptions(opts), "justOne"))
    ensures c.options == MergedWriteOptions(RemoveOptions(opts))
  {
    var o := RemoveOptions(opts);
    DeleteCall(Truthy(Get(o, "justOne")), query, MergedWriteOptions(o))
  }

  /** The two forms of the old API: `remove(q)` removes every match,
      `remove(q, true)` one. */
  lemma RemoveJustOne(query: Value)
    ensures !Remove(query, Undefined).one
    ensures Remove(query, Bool(true)).one
    ensures !Remove(query, Bool(false)).one
    ensures Remove(query, Obj([Prop("justOne", Bool(true))])).one
  {
  }

  function RemoveFields(result: Value): seq<Prop> {
    [ Prop("ok", Num(if Truthy(Get(result, "acknowledged")) then 1 else 0)),
      Prop("n", Get(result, "deletedCount")),
      Prop("nRemoved", Get(result, "deletedCount")) ]
  }

  /** The reply of `remove`: a copy of the driver's result with the legacy
      fields added. */
  function RemoveReply(result: Value): Value {
    Obj(AssignProps(Assign([], result), RemoveFields(result)))
  }

  /** `ok` is 1 exactly when acknowledged, `n` and `nRemoved` are both the
      deleted count, and every other field of the driver's result is kept. */
  lemma RemoveReplySpec(result: Value)
    requires result.Obj? ==> Distinct(result.props)
    ensures var r := RemoveReply(result);
      && Get(r, "ok") == (if Truthy(Get(result, "acknowledged")) then Num(1) else Num(0))
      && Get(r, "n") == Get(result, "deletedCount")
      && Get(r, "nRemoved") == Get(result, "deletedCount")
      && forall k :: k !in ["ok", "n", "nRemoved"] ==> Get(r, k) == Get(result, k)
  {
    var fs := RemoveFields(result);
    assert KeysOf(fs) == ["ok", "n", "nRemoved"];
    Overlay(result, fs, "ok");
    Overlay(result, fs, "n");
    Overlay(result, fs, "nRemoved");
    LookupIndex(fs, "ok");
    LookupIndex(fs, "n");
    LookupIndex(fs, "nRemoved");
    forall k | k !in ["ok", "n", "nRemoved"] ensures Get(RemoveReply(result), k) == Get(result, k) {
      Overlay(result, fs, k);
    }
  }

  // ---------------------------------------------------------------------
  // save
  // ---------------------------------------------------------------------

  datatype SaveAction =
    | SaveByUpdate(query: Value, update: Value, opts: Value)
    | SaveByInsert(doc: Value, opts: Value)

  /** `save(doc, opts)`: a document with a truthy `_id` is written with
      `update({ _id }, { $set: doc }, { upsert: true, ...opts })`, anything
      else is inserted. Reading `_id` of null or undefined throws. Either
      way the call resolves to the document. */
  function Save(doc: Value, opts: Value): (r: Result<SaveAction>)
    ensures (doc == Null || doc == Undefined) <==> r == Err(TypeError)
    ensures r.Ok? && Truthy(Get(doc, "_id")) ==>
              r.value == SaveByUpdate(Obj([Prop("_id", Get(doc, "_id"))]), Obj([Prop("$set", doc)]),
                                      Obj(Assign([Prop("upsert", Bool(true))], Or(opts, EmptyObject))))
    ensures r.Ok? && !Truthy(Get(doc, "_id")) ==> r.value == SaveByInsert(doc, Or(opts, EmptyObject))
  {
    if doc == Null || doc == Undefined then Err(TypeError)
    else
      var o := Or(opts, EmptyObject);
      if Truthy(Get(doc, "_id"))
      then Ok(SaveByUpdate(Obj([Prop("_id", Get(doc, "_id"))]), Obj([Prop("$set", doc)]),
                           Obj(Assign([Prop("upsert", Bool(true))], o))))
      else Ok(SaveByInsert(doc, o))
  }

  /** The options `save` hands to `update` ask for an upsert unless the
      caller's options set `upsert` themselves; every other option is the
      caller's. (`update` then merges them over the write defaults, see
      MergedWriteOptionsSpec, and picks `updateMany` only for a truthy
      `multi`.) */
  lemma SaveUpserts(doc: Value, opts: Value)
    requires opts.Obj? ==> Distinct(opts.props)
    requires Truthy(Get(doc, "_id"))
    ensures var r := Save(doc, opts);
      && r.Ok? && r.value.SaveByUpdate? && r.value.opts.Obj?
      && Distinct(r.value.opts.props)
      && Get(r.value.opts, "upsert") ==
           (if Truthy(opts) && Has(Assign([], opts), "upsert") then Get(opts, "upsert") else Bool(true))
      && forall k :: k != "upsert" ==> Get(r.value.opts, k) == Get(Or(opts, EmptyObject), k)
  {
    var o := Or(opts, EmptyObject);
    var u := [Prop("upsert", Bool(true))];
    assert KeysOf(u) == ["upsert"];
    AssignSpec(u, o);
    CopyLookup(o);
    if !Truthy(opts) {
      assert Assign([], o) == [];
    }
    forall k | k != "upsert" ensures Lookup(Assign(u, o), k) == Get(o, k) {
      assert Lookup(u, k) == Undefined;
      if !Has(Assign([], o), k) {
        LookupAbsent(Assign([], o), k);
      }
    }
  }

  // ---------------------------------------------------------------------
  // runCommand and the commands built on it
  // ---------------------------------------------------------------------

  /** `runCommand(cmd, opts)`: `{ [cmd]: name }` merged with the options. */
  function CollectionCommand(name: string, cmd: string, opts: Value): (c: seq<Prop>)
    ensures |c| >= 1 && c[0].key == cmd
  {
    AssignKeys([Prop(cmd, Str(name))], Or(opts, EmptyObject));
    Assign([Prop(cmd, Str(name))], Or(opts, EmptyObject))
  }

  /** The command name stays the first key; its value is the collection
      name unless the options set that key too; every other key comes from
      the options. */
  lemma CollectionCommandSpec(name: string, cmd: string, opts: Value)
    requires opts.Obj? ==> Distinct(opts.props)
    ensures var c := CollectionCommand(name, cmd, opts);
      && Distinct(c)
      && KeysOf(c)[0] == cmd
      && Lookup(c, cmd) == (if Truthy(opts) && Has(Assign([], opts), cmd) then Get(opts, cmd) else Str(name))
      && forall k :: k != cmd ==> Lookup(c, k) == Get(Or(opts, EmptyObject), k)
  {
    var o := Or(opts, EmptyObject);
    AssignSpec([Prop(cmd, Str(name))], o);
    CopyLookup(o);
    assert KeysOf([Prop(cmd, Str(name))]) == [cmd];
    forall k | k != cmd ensures Lookup(CollectionCommand(name, cmd, opts), k) == Get(o, k) {
      assert Lookup([Prop(cmd, Str(name))], k) == Undefined;
      if !Has(Assign([], o), k) {
        LookupAbsent(Assign([], o), k);
      }
    }
    if !Truthy(opts) {
      assert Assign([], o) == [];
    }
  }

  /** `dropIndexes()` and `dropIndex(index)`. */
  function DropIndexes(name: string): seq<Prop> {
    CollectionCommand(name, "dropIndexes", Obj([Prop("index", Str("*"))]))
  }

  function DropIndex(name: string, index: Value): seq<Prop> {
    CollectionCommand(name, "dropIndexes", Obj([Prop("index", index)]))
  }

  /** `dropIndexes` asks for every index, `dropIndex` for the one given. */
  lemma DropIndexCommands(name: string, index: Value)
    ensures DropIndexes(name) == [Prop("dropIndexes", Str(name)), Prop("index", Str("*"))]
    ensures DropIndex(name, index) == [Prop("dropIndexes", Str(name)), Prop("index", index)]
  {
    var t := [Prop("dropIndexes", Str(name))];
    assert Put(t, "index", Str("*")) == [t[0]] + Put([], "index", Str("*"));
    assert Put(t, "index", index) == [t[0]] + Put([], "index", index);
    assert AssignProps(t, [Prop("index", Str("*"))]) == AssignProps(Put(t, "index", Str("*")), []);
    assert AssignProps(t, [Prop("index", index)]) == AssignProps(Put(t, "index", index), []);
  }

  /** `!!isCapped`: always a boolean. */
  function IsCapped(answer: Value): (r: Value)
    ensures r.Bool? && (r.b <==> Truthy(answer))
  {
    Bool(Truthy(answer))
  }

  // ---------------------------------------------------------------------
  // find
  // ---------------------------------------------------------------------

  /** `find`/`findAsCursor`: with legacy projections the three arguments go
      through as they are; otherwise the projection becomes an option,
      `Object.assign({ projection }, opts)`. */
  function FindCall(query: Value, projection: Value, opts: Value, legacy: bool): (c: DriverCall)
    ensures legacy ==> c == LegacyFind(query, projection, opts)
    ensures !legacy ==> c.Find? && c.query == query && |c.findOptions| >= 1 && KeysOf(c.findOptions)[0] == "projection"
  {
    if legacy then LegacyFind(query, projection, opts)
    else
      AssignKeys([Prop("projection", projection)], opts);
      Find(query, Assign([Prop("projection", projection)], opts))
  }

  /** The projection argument is used unless the options carry their own. */
  lemma FindProjection(query: Value, projection: Value, opts: Value)
    requires opts.Obj? ==> Distinct(opts.props)
    ensures var c := FindCall(query, projection, opts, false);
      Lookup(c.findOptions, "projection") ==
        if Has(Assign([], opts), "projection") then Get(opts, "projection") else projection
  {
    AssignSpec([Prop("projection", projection)], opts);
  }
}
