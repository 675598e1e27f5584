/**
 * What the bulk-write builder guarantees, proved about the state machine of
 * module BulkWrite: the sealing rule, the partition of a sequence of builder
 * calls into groups, the group count for N inserts, the `tojson` counts (and
 * that `tojson` is not idempotent), and what `execute` folds into its result.
 */
module BulkProperties {
  import opened JsValues
  import opened BulkWrite

  // ---------------------------------------------------------------------
  // The rule as the source writes it
  // ---------------------------------------------------------------------

  /** Reading a property of a group's command object. */
  lemma CommandLookup(g: Group, k: string)
    ensures var cmd := CommandObject(g);
      Get(cmd, k) ==
        if k == CommandName(g.kind) then Str(g.colName)
        else if k == EntriesKey(g.kind) then cmd.props[1].val
        else if k == "ordered" then Bool(g.ordered)
        else if k == "writeConcern" then g.writeConcern
        else Undefined
  {
    var ps := CommandObject(g).props;
    assert KeysOf(ps) == [ps[0].key, ps[1].key, ps[2].key, ps[3].key];
    if Has(ps, k) {
      var i :| 0 <= i < 4 && KeysOf(ps)[i] == k;
      LookupPresent(ps, i);
    } else {
      LookupAbsent(ps, k);
    }
  }

  /** `Seals` is the source's test `!currentCmd[cmdName] ||
      currentCmd[bulkCollection].length === maxBulkSize` on the group's
      command object. */
  lemma SealsAsWritten(g: Group, k: Kind)
    ensures Seals(g, k) <==>
            !Truthy(Get(CommandObject(g), CommandName(k))) || |g.entries| == MaxBulkSize
  {
    CommandLookup(g, CommandName(k));
  }

  /** `AddOps` is the source's `if (cmd.update) ... else if (cmd.insert) ...
      else if (cmd.delete) ...` on the group's command object. */
  lemma AddOpsAsWritten(s: Summary, g: Group)
    ensures var cmd := CommandObject(g);
      AddOps(s, g) ==
        if Truthy(Get(cmd, "update")) then s.(nUpdateOps := s.nUpdateOps + |g.entries|)
        else if Truthy(Get(cmd, "insert")) then s.(nInsertOps := s.nInsertOps + |g.entries|)
        else if Truthy(Get(cmd, "delete")) then s.(nRemoveOps := s.nRemoveOps + |g.entries|)
        else s
  {
    CommandLookup(g, "update");
    CommandLookup(g, "insert");
    CommandLookup(g, "delete");
  }

  /** A freshly opened group carries the collection name under its command
      key, no entries yet, the builder's `ordered` flag and its write concern. */
  lemma NewGroupCommand(cfg: Config, k: Kind)
    ensures var cmd := CommandObject(NewGroup(cfg, k));
      && KeysOf(cmd.props)[0] == CommandName(k)
      && Get(cmd, CommandName(k)) == Str(cfg.colName)
      && Get(cmd, EntriesKey(k)) == Arr([])
      && Get(cmd, "ordered") == Bool(cfg.ordered)
      && Get(cmd, "writeConcern") == cfg.writeConcern
  {
    var g := NewGroup(cfg, k);
    var cmd := CommandObject(g);
    CommandLookup(g, CommandName(k));
    CommandLookup(g, EntriesKey(k));
    CommandLookup(g, "ordered");
    CommandLookup(g, "writeConcern");
    assert cmd.props[1].val == Arr([]);
  }

  // ---------------------------------------------------------------------
  // One entry at a time
  // ---------------------------------------------------------------------

  /** Appending an entry opens a new group exactly when no group is open or
      the open one seals for the entry's kind; otherwise the entry joins the
      open group and nothing else changes. */
  lemma AppendRule(st: BuilderState, cfg: Config, e: Entry)
    requires WellFormed(st, cfg)
    ensures var r := Append(st, cfg, e);
      if st.current.None? then
        r == st.(arena := st.arena + [NewGroup(cfg, KindOf(e)).(entries := [e])],
                 current := Some(|st.arena|))
      else if Seals(st.arena[st.current.value], KindOf(e)) then
        r == BuilderState(st.arena + [NewGroup(cfg, KindOf(e)).(entries := [e])],
                          st.cmds + [st.current.value], Some(|st.arena|))
      else
        var c := st.current.value;
        r == st.(arena := st.arena[c := st.arena[c].(entries := st.arena[c].entries + [e])])
  {
    var k := KindOf(e);
    var g1 := NewGroup(cfg, k).(entries := [e]);
    var s1 := Ensure(st, cfg, k);
    assert Append(st, cfg, e) == Push(s1, cfg, e);
    if st.current.None? || Seals(st.arena[st.current.value], k) {
      assert s1.arena == st.arena + [NewGroup(cfg, k)] && s1.current == Some(|st.arena|);
      assert s1.arena[|st.arena|].entries + [e] == [e];
      assert s1.arena[|st.arena| := g1] == st.arena + [g1];
    } else {
      assert s1 == st;
    }
  }

  // ---------------------------------------------------------------------
  // A sequence of builder calls on a fresh bulk
  // ---------------------------------------------------------------------

  /** The state after the given entries were added, in order, to a fresh
      bulk (with no `tojson` or `execute` in between). */
  function AppendAll(cfg: Config, es: seq<Entry>): (st: BuilderState)
    ensures WellFormed(st, cfg)
  {
    if es == [] then Empty else Append(AppendAll(cfg, es[..|es| - 1]), cfg, es[|es| - 1])
  }

  /** All entries of the groups, group after group. */
  function Flatten(gs: seq<Group>): seq<Entry> {
    if gs == [] then [] else Flatten(gs[..|gs| - 1]) + gs[|gs| - 1].entries
  }

  /** Without `tojson`/`execute`, `cmds` lists the sealed groups in creation
      order and the open group is the last one created. */
  predicate InOrder(st: BuilderState) {
    && (forall i :: 0 <= i < |st.cmds| ==> st.cmds[i] == i)
    && (st.current.None? ==> |st.arena| == |st.cmds|)
    && (st.current.Some? ==> st.current.value == |st.cmds| && |st.arena| == |st.cmds| + 1)
  }

  lemma FlattenLast(gs: seq<Group>, g: Group)
    requires gs != []
    ensures Flatten(gs[|gs| - 1 := g]) == Flatten(gs[..|gs| - 1]) + g.entries
  {
    var gs' := gs[|gs| - 1 := g];
    assert gs'[..|gs'| - 1] == gs[..|gs| - 1];
  }

  /** The groups partition the entries: in call order, none lost, none empty,
      and two neighbouring groups are split only where the sealing rule
      says so (a change of kind, a full group, or an empty collection name).
      So each group is a maximal run of same-kind calls cut at
      `MaxBulkSize`. */
  predicate Partitioned(st: BuilderState, es: seq<Entry>) {
    && InOrder(st)
    && Flatten(st.arena) == es
    && (st.current.None? <==> es == [])
    && (forall i :: 0 <= i < |st.arena| ==> st.arena[i].entries != [])
    && (forall i :: 0 <= i < |st.arena| - 1 ==> Seals(st.arena[i], st.arena[i + 1].kind))
  }

  lemma OpenGroupStep(st: BuilderState, cfg: Config, es: seq<Entry>, e: Entry)
    requires WellFormed(st, cfg) && Partitioned(st, es)
    requires st.current.None? || Seals(st.arena[st.current.value], KindOf(e))
    ensures Partitioned(Append(st, cfg, e), es + [e])
  {
    AppendRule(st, cfg, e);
    var g1 := NewGroup(cfg, KindOf(e)).(entries := [e]);
    if st.current.None? {
      assert st.arena == [] by { assert Flatten(st.arena) == []; }
      OpenedGroup(st.(current := None), g1, es, e);
    } else {
      OpenedGroup(st.(cmds := st.cmds + [st.current.value], current := None), g1, es, e);
    }
  }

  lemma FlattenSnoc(gs: seq<Group>, g: Group)
    ensures Flatten(gs + [g]) == Flatten(gs) + g.entries
  {
    assert (gs + [g])[..|gs|] == gs;
  }

  /** Adding a non-empty group keeps every group non-empty. */
  lemma SnocNonEmpty(gs: seq<Group>, g: Group)
    requires forall i :: 0 <= i < |gs| ==> gs[i].entries != []
    requires g.entries != []
    ensures forall i :: 0 <= i < |gs + [g]| ==> (gs + [g])[i].entries != []
  {
    forall i | 0 <= i < |gs + [g]|
      ensures (gs + [g])[i].entries != []
    {
      if i < |gs| {
        assert (gs + [g])[i] == gs[i];
      }
    }
  }

  /** Adding a group the last one seals against keeps every neighbouring
      pair sealed. */
  lemma SnocSealed(gs: seq<Group>, g: Group)
    requires forall i :: 0 <= i < |gs| - 1 ==> Seals(gs[i], gs[i + 1].kind)
    requires gs != [] ==> Seals(gs[|gs| - 1], g.kind)
    ensures forall i :: 0 <= i < |gs + [g]| - 1 ==> Seals((gs + [g])[i], (gs + [g])[i + 1].kind)
  {
    var r := gs + [g];
    forall i | 0 <= i < |r| - 1
      ensures Seals(r[i], r[i + 1].kind)
    {
      assert r[i] == gs[i];
      if i < |gs| - 1 {
        assert r[i + 1] == gs[i + 1];
      } else {
        assert r[i + 1] == g;
      }
    }
  }

  /** A sealed builder (every group on `cmds`) that opens group `g1` for
      entry `e` stays partitioned, provided the last group seals against
      `e`'s kind. */
  lemma OpenedGroup(st: BuilderState, g1: Group, es: seq<Entry>, e: Entry)
    requires st.current.None? && |st.arena| == |st.cmds|
    requires forall i :: 0 <= i < |st.cmds| ==> st.cmds[i] == i
    requires Flatten(st.arena) == es && (es == [] <==> st.arena == [])
    requires forall i :: 0 <= i < |st.arena| ==> st.arena[i].entries != []
    requires forall i :: 0 <= i < |st.arena| - 1 ==> Seals(st.arena[i], st.arena[i + 1].kind)
    requires st.arena != [] ==> Seals(st.arena[|st.arena| - 1], g1.kind)
    requires g1.entries == [e]
    ensures Partitioned(BuilderState(st.arena + [g1], st.cmds, Some(|st.arena|)), es + [e])
  {
    FlattenSnoc(st.arena, g1);
    SnocNonEmpty(st.arena, g1);
    SnocSealed(st.arena, g1);
  }

  lemma JoinGroupStep(st: BuilderState, cfg: Config, es: seq<Entry>, e: Entry)
    requires WellFormed(st, cfg) && Partitioned(st, es)
    requires st.current.Some? && !Seals(st.arena[st.current.value], KindOf(e))
    ensures Partitioned(Append(st, cfg, e), es + [e])
  {
    AppendRule(st, cfg, e);
    var c := st.current.value;
    var g := st.arena[c].(entries := st.arena[c].entries + [e]);
    var r := Append(st, cfg, e);
    assert r.arena == st.arena[c := g];
    assert c == |st.arena| - 1;
    FlattenLast(st.arena, g);
    assert Flatten(st.arena) == Flatten(st.arena[..c]) + st.arena[c].entries;
  }

  lemma {:induction false} Partition(cfg: Config, es: seq<Entry>)
    ensures Partitioned(AppendAll(cfg, es), es)
  {
    if es != [] {
      var es' := es[..|es| - 1];
      var e := es[|es| - 1];
      assert es' + [e] == es;
      Partition(cfg, es');
      var st := AppendAll(cfg, es');
      if st.current.None? || Seals(st.arena[st.current.value], KindOf(e)) {
        OpenGroupStep(st, cfg, es', e);
      } else {
        JoinGroupStep(st, cfg, es', e);
      }
    }
  }

  /** What one more entry does to the last group of a builder whose open
      group is its last: either a new last group holding just that entry,
      or the entry joins the last group; earlier groups stay. */
  lemma AppendShape(st: BuilderState, cfg: Config, e: Entry)
    requires WellFormed(st, cfg) && st.arena != [] && st.current == Some(|st.arena| - 1)
    ensures var r := Append(st, cfg, e);
      var last := st.arena[|st.arena| - 1];
      && r.arena != [] && r.current == Some(|r.arena| - 1)
      && r.arena[|r.arena| - 1].kind == KindOf(e)
      && (Seals(last, KindOf(e)) ==>
            |r.arena| == |st.arena| + 1 && |r.arena[|r.arena| - 1].entries| == 1
            && r.arena[..|r.arena| - 1] == st.arena)
      && (!Seals(last, KindOf(e)) ==>
            |r.arena| == |st.arena| && |r.arena[|r.arena| - 1].entries| == |last.entries| + 1
            && r.arena[..|r.arena| - 1] == st.arena[..|st.arena| - 1])
  {
    AppendRule(st, cfg, e);
    var r := Append(st, cfg, e);
    if Seals(st.arena[|st.arena| - 1], KindOf(e)) {
      assert r.arena[..|r.arena| - 1] == st.arena;
    } else {
      assert r.arena[..|r.arena| - 1] == st.arena[..|st.arena| - 1];
    }
  }

  /** One more entry either starts a new group of 1000 (when the last was
      full) or adds one to the last group's count. */
  lemma GroupCountStep(m: nat)
    requires m >= 1
    ensures (m - 1) % MaxBulkSize == MaxBulkSize - 1 ==>
              m / MaxBulkSize == (m - 1) / MaxBulkSize + 1 && m % MaxBulkSize == 0
    ensures (m - 1) % MaxBulkSize != MaxBulkSize - 1 ==>
              m / MaxBulkSize == (m - 1) / MaxBulkSize && m % MaxBulkSize == (m - 1) % MaxBulkSize + 1
  {
    var q, r := (m - 1) / MaxBulkSize, (m - 1) % MaxBulkSize;
    assert m == q * MaxBulkSize + r + 1;
    if r == MaxBulkSize - 1 {
      assert m == (q + 1) * MaxBulkSize;
    }
  }

  /** The first insert on a fresh bulk opens one group holding it. */
  lemma FirstInsert(cfg: Config, e: Entry)
    requires e.InsertDoc?
    ensures InsertShape(Append(Empty, cfg, e), 1)
  {
    AppendRule(Empty, cfg, e);
    var g1 := NewGroup(cfg, KindOf(e)).(entries := [e]);
    assert Append(Empty, cfg, e).arena == [g1];
  }

  /** N inserts on a fresh bulk fill groups of `MaxBulkSize` in turn: the
      open group is the last one and holds the remainder. */
  lemma {:induction false} InsertGroups(cfg: Config, es: seq<Entry>)
    requires cfg.colName != "" && |es| >= 1
    requires forall i :: 0 <= i < |es| ==> es[i].InsertDoc?
    ensures InsertShape(AppendAll(cfg, es), |es|)
  {
    var es' := es[..|es| - 1];
    var e := es[|es| - 1];
    assert es == es' + [e];
    AppendAllSnoc(cfg, es', e);
    var st' := AppendAll(cfg, es');
    assert AppendAll(cfg, es) == Append(st', cfg, e);
    if es' == [] {
      assert st' == Empty;
      FirstInsert(cfg, e);
    } else {
      forall i | 0 <= i < |es'|
        ensures es'[i].InsertDoc?
      {
        assert es'[i] == es[i];
      }
      InsertGroups(cfg, es');
      InsertStep(cfg, st', e, |es'|);
    }
  }

  /** After `m` inserts: `(m-1)/1000+1` groups, all inserts, the last open
      with `(m-1)%1000+1` entries. */
  predicate InsertShape(st: BuilderState, m: nat) {
    && |st.arena| == (m - 1) / MaxBulkSize + 1
    && st.current == Some(|st.arena| - 1)
    && |st.arena[|st.arena| - 1].entries| == (m - 1) % MaxBulkSize + 1
    && forall g :: g in st.arena ==> g.kind == Insert
  }

  /** One more insert keeps the shape, for `m + 1` inserts. */
  lemma InsertStep(cfg: Config, st: BuilderState, e: Entry, m: nat)
    requires cfg.colName != "" && WellFormed(st, cfg) && m >= 1 && e.InsertDoc?
    requires InsertShape(st, m)
    ensures InsertShape(Append(st, cfg, e), m + 1)
  {
    var r := Append(st, cfg, e);
    var last := st.arena[|st.arena| - 1];
    assert last in st.arena && GroupOf(last, cfg);
    AppendShape(st, cfg, e);
    GroupCountStep(m + 1);
    forall g | g in r.arena ensures g.kind == Insert {
      var i :| 0 <= i < |r.arena| && r.arena[i] == g;
      if i < |r.arena| - 1 {
        assert g in r.arena[..|r.arena| - 1];
      }
    }
  }

  /** N inserts give ceil(N / 1000) groups, none over 1000 entries, which is
      what `tojson` reports as `nBatches`. */
  lemma InsertBatches(cfg: Config, es: seq<Entry>)
    requires cfg.colName != "" && |es| >= 1
    requires forall i :: 0 <= i < |es| ==> es[i].InsertDoc?
    ensures var st := AppendAll(cfg, es);
      && |st.arena| == (|es| + MaxBulkSize - 1) / MaxBulkSize
      && Summarise(PushCurrent(st)).nBatches == (|es| + MaxBulkSize - 1) / MaxBulkSize
      && forall g :: g in st.arena ==> g.kind == Insert && 1 <= |g.entries| <= MaxBulkSize
  {
    InsertGroups(cfg, es);
    Partition(cfg, es);
    var st := AppendAll(cfg, es);
    var n := |es|;
    assert (n - 1) / MaxBulkSize + 1 == (n + MaxBulkSize - 1) / MaxBulkSize;
    assert |PushCurrent(st).cmds| == |st.arena|;
    forall g | g in st.arena ensures g.kind == Insert && 1 <= |g.entries| <= MaxBulkSize {
      var i :| 0 <= i < |st.arena| && st.arena[i] == g;
      assert st.arena[i].entries != [];
    }
  }

  // ---------------------------------------------------------------------
  // tojson
  // ---------------------------------------------------------------------

  /** How many of the entries are of kind `k`. */
  function CountKind(es: seq<Entry>, k: Kind): nat {
    if es == [] then 0
    else CountKind(es[..|es| - 1], k) + (if KindOf(es[|es| - 1]) == k then 1 else 0)
  }

  lemma {:induction false} CountKindAppend(a: seq<Entry>, b: seq<Entry>, k: Kind)
    ensures CountKind(a + b, k) == CountKind(a, k) + CountKind(b, k)
    decreases |b|
  {
    if b != [] {
      assert (a + b)[..|a + b| - 1] == a + b[..|b| - 1];
      assert (a + b)[|a + b| - 1] == b[|b| - 1];
      CountKindAppend(a, b[..|b| - 1], k);
    } else {
      assert a + b == a;
    }
  }

  lemma {:induction false} CountKindUniform(es: seq<Entry>, j: Kind, k: Kind)
    requires forall e :: e in es ==> KindOf(e) == j
    ensures CountKind(es, k) == if j == k then |es| else 0
  {
    if es != [] {
      CountKindUniform(es[..|es| - 1], j, k);
    }
  }

  /** Counting the groups is counting the entries they hold, kind by kind. */
  lemma {:induction false} CountOpsFlatten(cfg: Config, gs: seq<Group>, b: int)
    requires cfg.colName != ""
    requires forall g :: g in gs ==> GroupOf(g, cfg)
    ensures CountOps(Summary(0, 0, 0, b), gs) ==
            Summary(CountKind(Flatten(gs), Insert), CountKind(Flatten(gs), Update),
                    CountKind(Flatten(gs), Delete), b)
  {
    if gs != [] {
      var last := gs[|gs| - 1];
      assert last in gs;
      CountOpsFlatten(cfg, gs[..|gs| - 1], b);
      forall k: Kind ensures CountKind(Flatten(gs), k) ==
                             CountKind(Flatten(gs[..|gs| - 1]), k) + (if last.kind == k then |last.entries| else 0) {
        CountKindAppend(Flatten(gs[..|gs| - 1]), last.entries, k);
        CountKindUniform(last.entries, last.kind, k);
      }
    }
  }

  /** `tojson` after a sequence of builder calls on a fresh bulk: each counter
      is the number of calls of its kind and `nBatches` the number of groups. */
  lemma TojsonCounts(cfg: Config, es: seq<Entry>)
    requires cfg.colName != ""
    ensures var st := AppendAll(cfg, es);
      Summarise(PushCurrent(st)) ==
        Summary(CountKind(es, Insert), CountKind(es, Update), CountKind(es, Delete), |st.arena|)
  {
    Partition(cfg, es);
    var st := AppendAll(cfg, es);
    var p := PushCurrent(st);
    assert Dispatched(p) == st.arena;
    CountOpsFlatten(cfg, st.arena, |p.cmds|);
  }

  /** Two inserts, an update and a `removeOne` make three batches and count
      2 / 1 / 1. */
  lemma TojsonExample(cfg: Config, d1: Value, d2: Value, q1: Value, u: Value, q2: Value)
    requires cfg.colName != ""
    ensures var es := [InsertDoc(d1), InsertDoc(d2), UpdateOp(q1, u, true, false), DeleteOp(q2, 1)];
      Summarise(PushCurrent(AppendAll(cfg, es))) == Summary(2, 1, 1, 3)
  {
    var e0, e1, e2, e3 := InsertDoc(d1), InsertDoc(d2), UpdateOp(q1, u, true, false), DeleteOp(q2, 1);
    var es := [e0, e1, e2, e3];
    ExampleGroups(cfg, e0, e1, e2, e3);
    ExampleCounts(e0, e1, e2, e3);
    TojsonCounts(cfg, es);
  }

  /** Adding one more entry to a sequence of builder calls. */
  lemma AppendAllSnoc(cfg: Config, es: seq<Entry>, e: Entry)
    ensures AppendAll(cfg, es + [e]) == Append(AppendAll(cfg, es), cfg, e)
  {
    assert (es + [e])[..|es|] == es;
  }

  /** Two inserts share a group; the update and the delete open one each. */
  lemma ExampleGroups(cfg: Config, e0: Entry, e1: Entry, e2: Entry, e3: Entry)
    requires cfg.colName != ""
    requires e0.InsertDoc? && e1.InsertDoc? && e2.UpdateOp? && e3.DeleteOp?
    ensures |AppendAll(cfg, [e0, e1, e2, e3]).arena| == 3
  {
    ExampleChain(cfg, e0, e1, e2, e3);
    ExampleSteps(cfg, e0, e1, e2, e3);
  }

  /** The same four calls, one `Append` at a time. */
  lemma ExampleSteps(cfg: Config, e0: Entry, e1: Entry, e2: Entry, e3: Entry)
    requires cfg.colName != ""
    requires e0.InsertDoc? && e1.InsertDoc? && e2.UpdateOp? && e3.DeleteOp?
    ensures |Append(Append(Append(Append(Empty, cfg, e0), cfg, e1), cfg, e2), cfg, e3).arena| == 3
  {
    AppendRule(Empty, cfg, e0);
    var s1 := Append(Empty, cfg, e0);
    assert |s1.arena| == 1 && s1.current == Some(0) && |s1.arena[0].entries| == 1;
    assert s1.arena[0].kind == Insert && s1.arena[0].colName == cfg.colName;
    AppendShape(s1, cfg, e1);
    var s2 := Append(s1, cfg, e1);
    assert |s2.arena| == 1 && s2.arena[0].kind == Insert;
    AppendShape(s2, cfg, e2);
    var s3 := Append(s2, cfg, e2);
    assert |s3.arena| == 2 && s3.arena[1].kind == Update;
    AppendShape(s3, cfg, e3);
  }

  lemma ExampleChain(cfg: Config, e0: Entry, e1: Entry, e2: Entry, e3: Entry)
    ensures AppendAll(cfg, [e0, e1, e2, e3]) ==
            Append(Append(Append(Append(Empty, cfg, e0), cfg, e1), cfg, e2), cfg, e3)
  {
    assert [] + [e0] == [e0] && [e0] + [e1] == [e0, e1];
    assert [e0, e1] + [e2] == [e0, e1, e2] && [e0, e1, e2] + [e3] == [e0, e1, e2, e3];
    assert AppendAll(cfg, []) == Empty;
    AppendAllSnoc(cfg, [], e0);
    AppendAllSnoc(cfg, [e0], e1);
    AppendAllSnoc(cfg, [e0, e1], e2);
    AppendAllSnoc(cfg, [e0, e1, e2], e3);
  }

  /** The example's entries count 2 / 1 / 1 by kind. */
  lemma ExampleCounts(e0: Entry, e1: Entry, e2: Entry, e3: Entry)
    requires e0.InsertDoc? && e1.InsertDoc? && e2.UpdateOp? && e3.DeleteOp?
    ensures CountKind([e0, e1, e2, e3], Insert) == 2
    ensures CountKind([e0, e1, e2, e3], Update) == 1
    ensures CountKind([e0, e1, e2, e3], Delete) == 1
  {
    var ins := [e0, e1];
    assert [e0, e1, e2, e3] == (ins + [e2]) + [e3];
    forall k: Kind
      ensures CountKind([e0, e1, e2, e3], k) ==
                (if k == Insert then 2 else 0) + (if k == Update then 1 else 0) + (if k == Delete then 1 else 0)
    {
      CountKindUniform(ins, Insert, k);
      CountKindUniform([e2], Update, k);
      CountKindUniform([e3], Delete, k);
      CountKindAppend(ins, [e2], k);
      CountKindAppend(ins + [e2], [e3], k);
    }
  }

  lemma {:induction false} CountOpsBatches(s: Summary, gs: seq<Group>, b: int)
    ensures CountOps(s.(nBatches := b), gs) == CountOps(s, gs).(nBatches := b)
  {
    if gs != [] {
      CountOpsBatches(s, gs[..|gs| - 1], b);
    }
  }

  /** `tojson` is NOT idempotent: it pushes the open group without closing
      it, so a second call lists that group again, reports one more batch and
      counts its entries twice; an `execute` after `tojson` sends it twice. */
  lemma TojsonTwice(st: BuilderState, cfg: Config)
    requires WellFormed(st, cfg) && st.current.Some?
    ensures var once := PushCurrent(st);
      var twice := PushCurrent(once);
      var g := st.arena[st.current.value];
      && Dispatched(twice) == Dispatched(once) + [g]
      && Summarise(twice) == AddOps(Summarise(once).(nBatches := Summarise(once).nBatches + 1), g)
      && Summarise(twice) != Summarise(once)
  {
    var once := PushCurrent(st);
    var twice := PushCurrent(once);
    var g := st.arena[st.current.value];
    assert Dispatched(twice) == Dispatched(once) + [g];
    assert (Dispatched(once) + [g])[..|Dispatched(once)|] == Dispatched(once);
    CountOpsBatches(Summary(0, 0, 0, |once.cmds|), Dispatched(once), |twice.cmds|);
  }

  // ---------------------------------------------------------------------
  // execute
  // ---------------------------------------------------------------------

  /** The result after the first `i` groups have all answered. */
  function Totals(gs: seq<Group>, reply: nat -> Reply, i: nat): (r: BulkResult)
    requires i <= |gs|
    requires forall j :: 0 <= j < i ==> reply(j).Replied?
    ensures r.writeErrors == [] && r.writeConcernErrors == [] && r.upserted == []
    ensures r.nMatched == 0 && r.nModified == 0 && r.ok == None
  {
    if i == 0 then Initial else Tally(Totals(gs, reply, i - 1), gs[i - 1].kind, reply(i - 1).n)
  }

  lemma {:induction false} RunFrom(gs: seq<Group>, reply: nat -> Reply, i: nat)
    requires i <= |gs|
    requires forall j :: 0 <= j < |gs| ==> reply(j).Replied?
    ensures Run(gs, reply, i, Totals(gs, reply, i)) == Ok(Totals(gs, reply, |gs|).(ok := Some(1)))
    decreases |gs| - i
  {
    if i < |gs| {
      RunFrom(gs, reply, i + 1);
    }
  }

  /** When every group answers, `execute` resolves with `ok = 1`, the
      per-kind sums of the answers' `n`, and the error lists, `upserted`,
      `nMatched` and `nModified` as they started: empty and zero. */
  lemma ExecuteAllReplied(gs: seq<Group>, reply: nat -> Reply)
    requires forall j :: 0 <= j < |gs| ==> reply(j).Replied?
    ensures var r := Run(gs, reply, 0, Initial);
      && r == Ok(Totals(gs, reply, |gs|).(ok := Some(1)))
      && r.value.ok == Some(1)
      && r.value.writeErrors == [] && r.value.writeConcernErrors == [] && r.value.upserted == []
      && r.value.nMatched == 0 && r.value.nModified == 0
  {
    RunFrom(gs, reply, 0);
  }

  /** Groups run strictly in order: the first group whose command fails
      rejects `execute` with that failure, whatever later groups would have
      answered, and no result (so no `ok`) is produced. */
  lemma {:induction false} ExecuteFirstFailure(gs: seq<Group>, reply: nat -> Reply, i: nat, acc: BulkResult, f: nat)
    requires i <= f < |gs|
    requires forall j :: i <= j < f ==> reply(j).Replied?
    requires reply(f).Failed?
    ensures Run(gs, reply, i, acc) == Err(Rejected(reply(f).reason))
    decreases f - i
  {
    if i < f {
      ExecuteFirstFailure(gs, reply, i + 1, Tally(acc, gs[i].kind, reply(i).n), f);
    }
  }

  /** An empty bulk executes to `ok = 1` with every count zero. */
  lemma ExecuteEmpty(reply: nat -> Reply)
    ensures Outcome(PushCurrent(Empty), None, reply) == Ok(Initial.(ok := Some(1)))
  {
    assert Dispatched(PushCurrent(Empty)) == [];
  }

  /** When the server acknowledges every group in full (its `n` is the
      group's entry count), the totals are the numbers of entries of each
      kind. */
  lemma {:induction false} TotalsOfFullReplies(cfg: Config, gs: seq<Group>, reply: nat -> Reply, i: nat)
    requires i <= |gs|
    requires forall g :: g in gs ==> GroupOf(g, cfg)
    requires forall j :: 0 <= j < |gs| ==> reply(j) == Replied(|gs[j].entries|)
    ensures var t := Totals(gs, reply, i);
      && t.nInserted == CountKind(Flatten(gs[..i]), Insert)
      && t.nUpserted == CountKind(Flatten(gs[..i]), Update)
      && t.nRemoved == CountKind(Flatten(gs[..i]), Delete)
  {
    if i > 0 {
      TotalsOfFullReplies(cfg, gs, reply, i - 1);
      var g := gs[i - 1];
      var pre := Flatten(gs[..i - 1]);
      assert g in gs;
      assert gs[..i][..i - 1] == gs[..i - 1];
      assert Flatten(gs[..i]) == pre + g.entries;
      assert reply(i - 1) == Replied(|g.entries|);
      CountKindAppend(pre, g.entries, Insert);
      CountKindAppend(pre, g.entries, Update);
      CountKindAppend(pre, g.entries, Delete);
      CountKindUniform(g.entries, g.kind, Insert);
      CountKindUniform(g.entries, g.kind, Update);
      CountKindUniform(g.entries, g.kind, Delete);
    }
  }

  /** Without `tojson`/`execute` in between, pushing the open group
      dispatches every group once, in creation order. */
  lemma DispatchedInOrder(st: BuilderState)
    requires InOrder(st) && st.current.Some?
    ensures forall i :: 0 <= i < |PushCurrent(st).cmds| ==> PushCurrent(st).cmds[i] < |st.arena|
    ensures Dispatched(PushCurrent(st)) == st.arena
  {
    var p := PushCurrent(st);
    assert p.cmds == st.cmds + [st.current.value];
    forall i | 0 <= i < |p.cmds| ensures p.cmds[i] == i {
      if i < |st.cmds| {
        assert p.cmds[i] == st.cmds[i];
      }
    }
  }

  /** N inserts (1066 in the source's test) execute with `ok = 1`, and with
      `nInserted = N` when each group is acknowledged in full. */
  lemma ExecuteInserts(cfg: Config, es: seq<Entry>, reply: nat -> Reply)
    requires cfg.colName != "" && |es| >= 1
    requires forall i :: 0 <= i < |es| ==> es[i].InsertDoc?
    requires forall j :: 0 <= j < |AppendAll(cfg, es).arena| ==>
               reply(j) == Replied(|AppendAll(cfg, es).arena[j].entries|)
    ensures Outcome(PushCurrent(AppendAll(cfg, es)), None, reply) ==
            Ok(Initial.(nInserted := |es|, ok := Some(1)))
  {
    var st := AppendAll(cfg, es);
    Partition(cfg, es);
    DispatchedInOrder(st);
    var gs := st.arena;
    assert Outcome(PushCurrent(st), None, reply) == Run(gs, reply, 0, Initial);
    ExecuteAllReplied(gs, reply);
    TotalsOfFullReplies(cfg, gs, reply, |gs|);
    assert gs[..|gs|] == gs;
    assert forall e :: e in es ==> KindOf(e) == Insert;
    CountKindUniform(es, Insert, Insert);
    CountKindUniform(es, Insert, Update);
    CountKindUniform(es, Insert, Delete);
  }
}
