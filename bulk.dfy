/**
 * The bulk-write builder of lib/bulk.js and its find-builder of
 * lib/findSyntax.js.
 *
 * The builder keeps a list `cmds` of command groups and one open group
 * `currentCmd`. In JavaScript both hold REFERENCES to group objects, and
 * `tojson`/`execute` push the open group onto `cmds` without clearing
 * `currentCmd`, so one group object can be listed in `cmds` and still be the
 * open group (or be listed twice). The model keeps that sharing visible: every
 * group ever opened lives in `arena`, in creation order, and `cmds` and
 * `current` hold indices into it.
 */
module BulkWrite {
  import opened JsValues

  /** `maxBulkSize`: no group takes more entries than this. */
  const MaxBulkSize: nat := 1000

  datatype Kind = Insert | Update | Delete

  /** The command name; it is the first key of a group's command object. */
  function CommandName(k: Kind): string {
    match k
    case Insert => "insert"
    case Update => "update"
    case Delete => "delete"
  }

  /** The key under which a group's command object lists its entries. */
  function EntriesKey(k: Kind): string {
    match k
    case Insert => "documents"
    case Update => "updates"
    case Delete => "deletes"
  }

  /** One write operation queued in a group. */
  datatype Entry =
    | InsertDoc(doc: Value)
    | UpdateOp(q: Value, u: Value, multi: bool, upsert: bool)
    | DeleteOp(q: Value, limit: int)

  function KindOf(e: Entry): Kind {
    match e
    case InsertDoc(_) => Insert
    case UpdateOp(_, _, _, _) => Update
    case DeleteOp(_, _) => Delete
  }

  /** The entry as the object pushed onto the group's list. */
  function EntryValue(e: Entry): Value {
    match e
    case InsertDoc(doc) => doc
    case UpdateOp(q, u, multi, upsert) =>
      Obj([Prop("q", q), Prop("u", u), Prop("multi", Bool(multi)), Prop("upsert", Bool(upsert))])
    case DeleteOp(q, limit) => Obj([Prop("q", q), Prop("limit", Num(limit))])
  }

  datatype Group = Group(kind: Kind, colName: string, entries: seq<Entry>, ordered: bool, writeConcern: Value)

  /** The command object sent to the server for a group. */
  function CommandObject(g: Group): (cmd: Value)
    ensures cmd.Obj? && |cmd.props| == 4 && Distinct(cmd.props)
    ensures cmd.props[0] == Prop(CommandName(g.kind), Str(g.colName))
  {
    Obj([ Prop(CommandName(g.kind), Str(g.colName)),
          Prop(EntriesKey(g.kind), Arr(seq(|g.entries|, i requires 0 <= i < |g.entries| => EntryValue(g.entries[i])))),
          Prop("ordered", Bool(g.ordered)),
          Prop("writeConcern", g.writeConcern) ])
  }

  /** What a builder is configured with at construction. */
  datatype Config = Config(colName: string, ordered: bool, writeConcern: Value)

  const DefaultWriteConcern: Value := Obj([Prop("w", Num(1))])

  /** `opts = opts || { writeConcern: { w: 1 } }; opts.writeConcern || { w: 1 }`:
      the caller's write concern when it gives a truthy one, `{w: 1}` otherwise. */
  function WriteConcernOption(opts: Value): (wc: Value)
    ensures Truthy(Get(opts, "writeConcern")) ==> wc == Get(opts, "writeConcern")
    ensures !Truthy(Get(opts, "writeConcern")) ==> wc == DefaultWriteConcern
  {
    Or(Get(Or(opts, Obj([Prop("writeConcern", DefaultWriteConcern)])), "writeConcern"), DefaultWriteConcern)
  }

  /** A fresh group of kind `k`: the collection name under the command key,
      an empty entry list, the builder's `ordered` flag and write concern. */
  function NewGroup(cfg: Config, k: Kind): Group {
    Group(k, cfg.colName, [], cfg.ordered, cfg.writeConcern)
  }

  // ---------------------------------------------------------------------
  // The builder's state and its transitions
  // ---------------------------------------------------------------------

  datatype BuilderState = BuilderState(arena: seq<Group>, cmds: seq<nat>, current: Option<nat>)

  const Empty: BuilderState := BuilderState([], [], None)

  /** A group as the builder makes it: the builder's settings, at most
      `MaxBulkSize` entries, all of the group's kind. */
  predicate GroupOf(g: Group, cfg: Config) {
    && g.colName == cfg.colName
    && g.ordered == cfg.ordered
    && g.writeConcern == cfg.writeConcern
    && |g.entries| <= MaxBulkSize
    && forall e :: e in g.entries ==> KindOf(e) == g.kind
  }

  predicate WellFormed(st: BuilderState, cfg: Config) {
    && (forall i :: 0 <= i < |st.cmds| ==> st.cmds[i] < |st.arena|)
    && (st.current.Some? ==> st.current.value < |st.arena|)
    && forall g :: g in st.arena ==> GroupOf(g, cfg)
  }

  /** The sealing rule of `ensureCommand`: the open group is closed when its
      kind differs from the requested one, or it already holds `MaxBulkSize`
      entries. The source tests `!currentCmd[cmdName]`, the truthiness of the
      collection name stored under the command key, so with an empty
      collection name the group is closed every time as well (see
      SealsAsWritten). */
  predicate Seals(g: Group, k: Kind) {
    g.kind != k || g.colName == "" || |g.entries| == MaxBulkSize
  }

  /** `ensureCommand(cmdName, bulkCollection)`. */
  function Ensure(st: BuilderState, cfg: Config, k: Kind): (r: BuilderState)
    requires WellFormed(st, cfg)
    ensures WellFormed(r, cfg)
    ensures r.current.Some? && r.arena[r.current.value].kind == k
    ensures |r.arena[r.current.value].entries| < MaxBulkSize
  {
    assert st.current.Some? ==> st.arena[st.current.value] in st.arena;
    var st1 := if st.current.Some? && Seals(st.arena[st.current.value], k)
               then st.(cmds := st.cmds + [st.current.value], current := None)
               else st;
    if st1.current.None?
    then st1.(arena := st1.arena + [NewGroup(cfg, k)], current := Some(|st1.arena|))
    else st1
  }

  /** Push an entry onto the open group's list. */
  function Push(st: BuilderState, cfg: Config, e: Entry): (r: BuilderState)
    requires WellFormed(st, cfg) && st.current.Some?
    requires KindOf(e) == st.arena[st.current.value].kind
    requires |st.arena[st.current.value].entries| < MaxBulkSize
    ensures WellFormed(r, cfg)
  {
    var c := st.current.value;
    assert st.arena[c] in st.arena;
    var g := st.arena[c].(entries := st.arena[c].entries + [e]);
    assert forall x :: x in st.arena[c := g] ==> x == g || x in st.arena;
    st.(arena := st.arena[c := g])
  }

  /** Adding one entry: `ensureCommand` for the entry's kind, then push. */
  function Append(st: BuilderState, cfg: Config, e: Entry): (r: BuilderState)
    requires WellFormed(st, cfg)
    ensures WellFormed(r, cfg)
  {
    Push(Ensure(st, cfg, KindOf(e)), cfg, e)
  }

  /** `pushCurrentCmd` (and the first lines of `tojson`): the open group is
      added to `cmds` but stays open. */
  function PushCurrent(st: BuilderState): BuilderState {
    if st.current.Some? then st.(cmds := st.cmds + [st.current.value]) else st
  }

  /** The groups `cmds` lists, in list order. */
  function Dispatched(st: BuilderState): (gs: seq<Group>)
    requires forall i :: 0 <= i < |st.cmds| ==> st.cmds[i] < |st.arena|
    ensures |gs| == |st.cmds|
  {
    seq(|st.cmds|, i requires 0 <= i < |st.cmds| => st.arena[st.cmds[i]])
  }

  // ---------------------------------------------------------------------
  // tojson
  // ---------------------------------------------------------------------

  datatype Summary = Summary(nInsertOps: int, nUpdateOps: int, nRemoveOps: int, nBatches: int)

  /** One step of the `forEach` in `tojson`: a group adds its entry count to
      its kind's counter when `cmd.update`/`cmd.insert`/`cmd.delete` is
      truthy, which is when the collection name is not empty. */
  function AddOps(s: Summary, g: Group): Summary {
    if g.colName == "" then s
    else match g.kind
      case Update => s.(nUpdateOps := s.nUpdateOps + |g.entries|)
      case Insert => s.(nInsertOps := s.nInsertOps + |g.entries|)
      case Delete => s.(nRemoveOps := s.nRemoveOps + |g.entries|)
  }

  /** How many entries the groups with a collection name hold. */
  function NamedEntries(gs: seq<Group>): nat {
    if gs == [] then 0
    else NamedEntries(gs[..|gs| - 1]) + (if gs[|gs| - 1].colName != "" then |gs[|gs| - 1].entries| else 0)
  }

  /** The `forEach` of `tojson`: no counter goes down, together they grow by
      the number of entries in named groups, and `nBatches` is left alone. */
  function CountOps(s: Summary, gs: seq<Group>): (r: Summary)
    ensures r.nBatches == s.nBatches
    ensures r.nInsertOps >= s.nInsertOps && r.nUpdateOps >= s.nUpdateOps && r.nRemoveOps >= s.nRemoveOps
    ensures (r.nInsertOps - s.nInsertOps) + (r.nUpdateOps - s.nUpdateOps) + (r.nRemoveOps - s.nRemoveOps)
            == NamedEntries(gs)
  {
    if gs == [] then s else AddOps(CountOps(s, gs[..|gs| - 1]), gs[|gs| - 1])
  }

  /** Counting one more group of a prefix is one more `AddOps`. */
  lemma CountOpsStep(s: Summary, gs: seq<Group>, i: nat)
    requires i < |gs|
    ensures CountOps(s, gs[..i + 1]) == AddOps(CountOps(s, gs[..i]), gs[i])
  {
    assert gs[..i + 1][..i] == gs[..i];
  }

  /** What `tojson` reports for a state whose open group is already pushed. */
  function Summarise(st: BuilderState): Summary
    requires forall i :: 0 <= i < |st.cmds| ==> st.cmds[i] < |st.arena|
  {
    CountOps(Summary(0, 0, 0, |st.cmds|), Dispatched(st))
  }

  /** The `forEach` of `tojson` over the pushed commands: it starts from
      zero counters and `nBatches` set to the number of commands, and ends
      with the summary of the dispatched groups. */
  method CountCommands(arena: seq<Group>, cmds: seq<nat>) returns (s: Summary)
    requires forall i :: 0 <= i < |cmds| ==> cmds[i] < |arena|
    ensures s == Summarise(BuilderState(arena, cmds, None))
  {
    s := Summary(0, 0, 0, |cmds|);
    ghost var gs := Dispatched(BuilderState(arena, cmds, None));
    var i := 0;
    while i < |cmds|
      invariant 0 <= i <= |cmds| == |gs|
      invariant s == CountOps(Summary(0, 0, 0, |cmds|), gs[..i])
    {
      var g := arena[cmds[i]];
      assert g == gs[i];
      CountOpsStep(Summary(0, 0, 0, |cmds|), gs, i);
      if g.colName != "" {
        match g.kind
        case Update => s := s.(nUpdateOps := s.nUpdateOps + |g.entries|);
        case Insert => s := s.(nInsertOps := s.nInsertOps + |g.entries|);
        case Delete => s := s.(nRemoveOps := s.nRemoveOps + |g.entries|);
      }
      i := i + 1;
    }
    assert gs[..i] == gs;
  }

  // ---------------------------------------------------------------------
  // execute
  // ---------------------------------------------------------------------

  /** The server's answer to one group command. */
  datatype Reply = Failed(reason: Value) | Replied(n: int)

  datatype BulkResult = BulkResult(
    writeErrors: seq<Value>,
    writeConcernErrors: seq<Value>,
    nInserted: int,
    nUpserted: int,
    nMatched: int,
    nModified: int,
    nRemoved: int,
    upserted: seq<Value>,
    ok: Option<int>)

  const Initial: BulkResult := BulkResult([], [], 0, 0, 0, 0, 0, [], None)

  /** `setResult`: `cmdKeys` sends an insert group's `n` to `nInserted`, a
      delete group's to `nRemoved` and an update group's to `nUpserted`. */
  function Tally(acc: BulkResult, k: Kind, n: int): BulkResult {
    match k
    case Insert => acc.(nInserted := acc.nInserted + n)
    case Delete => acc.(nRemoved := acc.nRemoved + n)
    case Update => acc.(nUpserted := acc.nUpserted + n)
  }

  /** `each`: group `i` is sent only after groups `0..i-1` have answered; the
      first failure rejects the whole run; `ok = 1` is set after the last. */
  function Run(gs: seq<Group>, reply: nat -> Reply, i: nat, acc: BulkResult): Result<BulkResult>
    requires i <= |gs|
    decreases |gs| - i
  {
    if i == |gs| then Ok(acc.(ok := Some(1)))
    else match reply(i)
      case Failed(reason) => Err(Rejected(reason))
      case Replied(n) => Run(gs, reply, i + 1, Tally(acc, gs[i].kind, n))
  }

  /** `execute` after the open group has been pushed: connect, then run. */
  function Outcome(st: BuilderState, connectError: Option<Value>, reply: nat -> Reply): Result<BulkResult>
    requires forall i :: 0 <= i < |st.cmds| ==> st.cmds[i] < |st.arena|
  {
    match connectError
    case Some(reason) => Err(Rejected(reason))
    case None => Run(Dispatched(st), reply, 0, Initial)
  }

  // ---------------------------------------------------------------------
  // The builder object
  // ---------------------------------------------------------------------

  class Bulk {
    const config: Config
    var arena: seq<Group>
    var cmds: seq<nat>
    var current: Option<nat>

    function State(): BuilderState
      reads this
    {
      BuilderState(arena, cmds, current)
    }

    predicate Valid()
      reads this
    {
      WellFormed(State(), config)
    }

    /** `new Bulk(colName, ordered, connect, opts)`. */
    constructor (colName: string, ordered: bool, opts: Value)
      ensures config == Config(colName, ordered, WriteConcernOption(opts))
      ensures State() == Empty && Valid()
    {
      config := Config(colName, ordered, WriteConcernOption(opts));
      arena, cmds, current := [], [], None;
    }

    /** `ensureCommand`: seal the open group when the rule says so, open a
        fresh one when none is open, and return the open group. */
    method EnsureCommand(k: Kind) returns (g: nat)
      requires Valid()
      modifies this
      ensures Valid() && State() == Ensure(old(State()), config, k)
      ensures current == Some(g) && g < |arena| && arena[g].kind == k
      ensures |arena[g].entries| < MaxBulkSize
    {
      if current.Some? && Seals(arena[current.value], k) {
        cmds := cmds + [current.value];
        current := None;
      }
      if current.None? {
        arena := arena + [NewGroup(config, k)];
        current := Some(|arena| - 1);
      }
      g := current.value;
    }

    /** Push one entry onto the group `EnsureCommand` returned. */
    method PushEntry(g: nat, e: Entry)
      requires Valid() && current == Some(g) && g < |arena|
      requires KindOf(e) == arena[g].kind && |arena[g].entries| < MaxBulkSize
      modifies this
      ensures State() == Push(old(State()), config, e) && Valid()
    {
      arena := arena[g := arena[g].(entries := arena[g].entries + [e])];
    }

    /** `insert(doc)`: the open insert group is ensured first; a document
        that is not an object then makes `doc._id = ...` throw, leaving the
        group open and without the document. */
    method Insert(doc: Value, newId: nat) returns (r: Result<Value>)
      requires Valid()
      modifies this
      ensures Valid()
      ensures doc.Obj? ==>
                r == Ok(Obj(AssignId(doc.props, ObjectId(newId)))) &&
                State() == Append(old(State()), config, InsertDoc(r.value))
      ensures !doc.Obj? ==> r == Err(TypeError) && State() == Ensure(old(State()), config, Kind.Insert)
    {
      var g := EnsureCommand(Kind.Insert);
      if !doc.Obj? {
        return Err(TypeError);
      }
      var stored := Obj(AssignId(doc.props, ObjectId(newId)));
      PushEntry(g, InsertDoc(stored));
      r := Ok(stored);
    }

    /** The `remove(limit)` closure of `find(q)`. */
    method RemoveEntry(q: Value, limit: int)
      requires Valid()
      modifies this
      ensures Valid() && State() == Append(old(State()), config, DeleteOp(q, limit))
    {
      var g := EnsureCommand(Delete);
      PushEntry(g, DeleteOp(q, limit));
    }

    /** The `update(u, multi)` closure of `find(q)`, reading the selector's
        current `upsert` flag. */
    method UpdateEntry(q: Value, u: Value, multi: bool, upsert: bool)
      requires Valid()
      modifies this
      ensures Valid() && State() == Append(old(State()), config, UpdateOp(q, u, multi, upsert))
    {
      var g := EnsureCommand(Update);
      PushEntry(g, UpdateOp(q, u, multi, upsert));
    }

    /** `find(q)`: a find-builder over this bulk with `upsert` false. */
    method Find(q: Value) returns (f: FindSyntax)
      ensures fresh(f) && f.bulk == this && f.q == q && !f.upsert
    {
      f := new FindSyntax(this, q);
    }

    method PushCurrentCmd()
      requires Valid()
      modifies this
      ensures Valid() && State() == PushCurrent(old(State()))
    {
      if current.Some? {
        cmds := cmds + [current.value];
      }
    }

    /** `tojson`: push the open group (without closing it), then count. */
    method ToJson() returns (s: Summary)
      requires Valid()
      modifies this
      ensures Valid() && State() == PushCurrent(old(State()))
      ensures s == Summarise(State())
    {
      if current.Some? {
        cmds := cmds + [current.value];
      }
      s := CountCommands(arena, cmds);
    }

    /** `execute`: push the open group, connect, run every listed group in
        order and fold each reply's `n` into the result. */
    method Execute(connectError: Option<Value>, reply: nat -> Reply) returns (r: Result<BulkResult>)
      requires Valid()
      modifies this
      ensures Valid() && State() == PushCurrent(old(State()))
      ensures r == Outcome(State(), connectError, reply)
    {
      PushCurrentCmd();
      if connectError.Some? {
        return Err(Rejected(connectError.value));
      }
      ghost var gs := Dispatched(State());
      var acc := Initial;
      var i := 0;
      while i < |cmds|
        invariant 0 <= i <= |cmds|
        invariant Run(gs, reply, i, acc) == Run(gs, reply, 0, Initial)
      {
        var g := arena[cmds[i]];
        match reply(i) {
          case Failed(reason) =>
            return Err(Rejected(reason));
          case Replied(n) =>
            acc := Tally(acc, g.kind, n);
        }
        i := i + 1;
      }
      r := Ok(acc.(ok := Some(1)));
    }
  }

  /** `bulk.find(q)`: the sub-builder whose calls each queue one entry on the
      owning bulk. */
  class FindSyntax {
    const bulk: Bulk
    const q: Value
    var upsert: bool

    constructor (bulk: Bulk, q: Value)
      ensures this.bulk == bulk && this.q == q && !upsert
    {
      this.bulk := bulk;
      this.q := q;
      upsert := false;
    }

    /** `upsert()`: later updates through this builder are upserts. */
    method Upsert() returns (self: FindSyntax)
      modifies this
      ensures self == this && upsert
    {
      upsert := true;
      self := this;
    }

    /** `remove()`: a delete entry without a limit (0). */
    method Remove()
      requires bulk.Valid()
      modifies bulk
      ensures bulk.Valid() && bulk.State() == Append(old(bulk.State()), bulk.config, DeleteOp(q, 0))
    {
      bulk.RemoveEntry(q, 0);
    }

    /** `removeOne()`: a delete entry with limit 1. */
    method RemoveOne()
      requires bulk.Valid()
      modifies bulk
      ensures bulk.Valid() && bulk.State() == Append(old(bulk.State()), bulk.config, DeleteOp(q, 1))
    {
      bulk.RemoveEntry(q, 1);
    }

    /** `update(u)`: an update entry with `multi` true. */
    method Update(u: Value)
      requires bulk.Valid()
      modifies bulk
      ensures bulk.Valid()
      ensures bulk.State() == Append(old(bulk.State()), bulk.config, UpdateOp(q, u, true, upsert))
    {
      bulk.UpdateEntry(q, u, true, upsert);
    }

    /** `updateOne(u)`: an update entry with `multi` false. */
    method UpdateOne(u: Value)
      requires bulk.Valid()
      modifies bulk
      ensures bulk.Valid()
      ensures bulk.State() == Append(old(bulk.State()), bulk.config, UpdateOp(q, u, false, upsert))
    {
      bulk.UpdateEntry(q, u, false, upsert);
    }

    /** `replaceOne(u)` is `updateOne(u)`. */
    method ReplaceOne(u: Value)
      requires bulk.Valid()
      modifies bulk
      ensures bulk.Valid()
      ensures bulk.State() == Append(old(bulk.State()), bulk.config, UpdateOp(q, u, false, upsert))
    {
      UpdateOne(u);
    }
  }
}
