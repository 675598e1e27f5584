/**
 * The lazy cursor of lib/cursor.js.
 *
 * The cursor queues options and flags in two ordered maps, and creates the
 * driver cursor only on first use, through a factory, applying the queued
 * options in insertion order and then the queued flags. The driver cursor is
 * abstract here: the documents it still has to deliver, its `dead`,
 * `killed` and `closed` states, and a log of the settings applied to it.
 */
module Cursors {
  import opened JsValues

  /** The nine chainable option setters. */
  datatype CursorOption = BatchSize | Hint | Limit | MaxTimeMS | Max | Min | Skip | Snapshot | Sort

  /** The setter's name, which is also the key it stores its value under and
      the driver method it is replayed through. */
  function OptionName(op: CursorOption): string {
    match op
    case BatchSize => "batchSize"
    case Hint => "hint"
    case Limit => "limit"
    case MaxTimeMS => "maxTimeMS"
    case Max => "max"
    case Min => "min"
    case Skip => "skip"
    case Snapshot => "snapshot"
    case Sort => "sort"
  }

  /** One configuration call made on the driver cursor. */
  datatype Setting = OptionCall(name: string, data: Value) | FlagCall(flag: string, value: Value)

  /** The driver cursor, as far as the shim observes it. */
  datatype Driver = Driver(docs: seq<Value>, dead: bool, killed: bool, closed: bool, applied: seq<Setting>)

  /** `cursor[key](data)`: the driver records the option. */
  function ApplyOption(d: Driver, key: string, data: Value): Driver {
    d.(applied := d.applied + [OptionCall(key, data)])
  }

  /** `cursor.addCursorFlag(key, value)`. */
  function ApplyFlag(d: Driver, key: string, value: Value): Driver {
    d.(applied := d.applied + [FlagCall(key, value)])
  }

  function ApplyOptions(d: Driver, ps: seq<Prop>): Driver {
    if ps == [] then d
    else ApplyOption(ApplyOptions(d, ps[..|ps| - 1]), ps[|ps| - 1].key, ps[|ps| - 1].val)
  }

  function ApplyFlags(d: Driver, ps: seq<Prop>): Driver {
    if ps == [] then d
    else ApplyFlag(ApplyFlags(d, ps[..|ps| - 1]), ps[|ps| - 1].key, ps[|ps| - 1].val)
  }

  /** The driver cursor once every queued option and then every queued flag
      has been replayed on it. */
  function Materialise(d: Driver, options: seq<Prop>, flags: seq<Prop>): Driver {
    ApplyFlags(ApplyOptions(d, options), flags)
  }

  function OptionCalls(ps: seq<Prop>): (r: seq<Setting>)
    ensures |r| == |ps|
    ensures forall i :: 0 <= i < |ps| ==> r[i] == OptionCall(ps[i].key, ps[i].val)
  {
    seq(|ps|, i requires 0 <= i < |ps| => OptionCall(ps[i].key, ps[i].val))
  }

  function FlagCalls(ps: seq<Prop>): (r: seq<Setting>)
    ensures |r| == |ps|
    ensures forall i :: 0 <= i < |ps| ==> r[i] == FlagCall(ps[i].key, ps[i].val)
  {
    seq(|ps|, i requires 0 <= i < |ps| => FlagCall(ps[i].key, ps[i].val))
  }

  lemma {:induction false} ApplyOptionsLog(d: Driver, ps: seq<Prop>)
    ensures ApplyOptions(d, ps) == d.(applied := d.applied + OptionCalls(ps))
  {
    if ps != [] {
      ApplyOptionsLog(d, ps[..|ps| - 1]);
      assert OptionCalls(ps) == OptionCalls(ps[..|ps| - 1]) + [OptionCall(ps[|ps| - 1].key, ps[|ps| - 1].val)];
    } else {
      assert d.applied + OptionCalls(ps) == d.applied;
    }
  }

  lemma {:induction false} ApplyFlagsLog(d: Driver, ps: seq<Prop>)
    ensures ApplyFlags(d, ps) == d.(applied := d.applied + FlagCalls(ps))
  {
    if ps != [] {
      ApplyFlagsLog(d, ps[..|ps| - 1]);
      assert FlagCalls(ps) == FlagCalls(ps[..|ps| - 1]) + [FlagCall(ps[|ps| - 1].key, ps[|ps| - 1].val)];
    } else {
      assert d.applied + FlagCalls(ps) == d.applied;
    }
  }

  /** On first materialisation the driver receives every queued option, in
      insertion order, then every queued flag, and nothing else about it
      changes. */
  lemma MaterialiseLog(d: Driver, options: seq<Prop>, flags: seq<Prop>)
    ensures var m := Materialise(d, options, flags);
      && m.applied == d.applied + OptionCalls(options) + FlagCalls(flags)
      && m.docs == d.docs && m.dead == d.dead && m.killed == d.killed && m.closed == d.closed
  {
    ApplyOptionsLog(d, options);
    ApplyFlagsLog(ApplyOptions(d, options), flags);
  }

  // ---------------------------------------------------------------------
  // Reading documents
  // ---------------------------------------------------------------------

  /** The driver's own `next`: the next document, or null once exhausted. */
  function DriverNext(d: Driver): (Value, Driver) {
    if d.docs == [] then (Null, d) else (d.docs[0], d.(docs := d.docs[1..]))
  }

  /** The driver's `close`. */
  function DriverClose(d: Driver): (r: Driver)
    ensures r.closed && r.killed
  {
    d.(closed := true, killed := true)
  }

  /** The shim's `next` once the driver cursor exists: null, without
      touching the driver, when it is dead or killed; otherwise the driver's
      `next`. */
  function Pull(d: Driver): (r: (Value, Driver))
    ensures Truthy(r.0) ==> |r.1.docs| < |d.docs|
    ensures d.dead || d.killed ==> r == (Null, d)
    ensures !(d.dead || d.killed) ==> r == DriverNext(d)
  {
    if d.dead || d.killed then (Null, d) else DriverNext(d)
  }

  /** Pulling until the first falsy document: the documents pulled, and the
      driver afterwards. This is the loop of `map` and `forEach`. */
  function Drain(d: Driver): (r: (seq<Value>, Driver))
    decreases |d.docs|, 1
  {
    Continue(Pull(d).0, Pull(d).1)
  }

  /** What is left of the loop once `doc` has been pulled, leaving `d`. */
  function Continue(doc: Value, d: Driver): (seq<Value>, Driver)
    decreases |d.docs| + (if Truthy(doc) then 1 else 0), 0
  {
    if !Truthy(doc) then ([], d) else ([doc] + Drain(d).0, Drain(d).1)
  }

  /** One turn of the loop of `map` and `forEach`: the truthy document
      `x` moves from what is left to what was pulled. */
  lemma DrainStep(d0: Driver, pulled: seq<Value>, x: Value, c: Driver)
    requires Truthy(x)
    requires Drain(d0) == (pulled + Continue(x, c).0, Continue(x, c).1)
    ensures Drain(d0) == ((pulled + [x]) + Continue(Pull(c).0, Pull(c).1).0,
                          Continue(Pull(c).0, Pull(c).1).1)
  {
    assert Continue(x, c) == ([x] + Drain(c).0, Drain(c).1);
    assert pulled + ([x] + Drain(c).0) == (pulled + [x]) + Drain(c).0;
  }

  /** The longest prefix of `s` whose elements are all truthy. */
  function TruthyPrefix(s: seq<Value>): (p: seq<Value>)
    ensures p <= s
    ensures forall i :: 0 <= i < |p| ==> Truthy(p[i])
    ensures |p| < |s| ==> !Truthy(s[|p|])
  {
    if s == [] || !Truthy(s[0]) then [] else [s[0]] + TruthyPrefix(s[1..])
  }

  /** The loop pulls exactly the leading truthy documents (none from a dead
      or killed cursor), consumes the falsy one that stops it, and changes
      nothing else about the driver. */
  lemma {:induction false} DrainSpec(d: Driver)
    ensures var (pulled, after) := Drain(d);
      && pulled == (if d.dead || d.killed then [] else TruthyPrefix(d.docs))
      && after == (if d.dead || d.killed then d
                   else if |pulled| < |d.docs| then d.(docs := d.docs[|pulled| + 1..])
                   else d.(docs := []))
    decreases |d.docs|
  {
    if !(d.dead || d.killed) && d.docs != [] && Truthy(d.docs[0]) {
      var d' := d.(docs := d.docs[1..]);
      DrainSpec(d');
      var p := TruthyPrefix(d.docs[1..]);
      if |p| < |d'.docs| {
        assert d.docs[|p| + 2..] == d'.docs[|p| + 1..];
      }
    }
  }

  /** `{ value: doc || undefined, done: !doc }`, the async iterator's step. */
  function IteratorResult(doc: Value): (r: Value)
    ensures Get(r, "done") == Bool(!Truthy(doc))
    ensures Truthy(doc) ==> Get(r, "value") == doc
    ensures !Truthy(doc) ==> Get(r, "value") == Undefined
  {
    var ps := [Prop("value", Or(doc, Undefined)), Prop("done", Bool(!Truthy(doc)))];
    assert ps[1..] == [ps[1]];
    assert Lookup(ps[1..], "done") == Bool(!Truthy(doc));
    assert Lookup(ps, "done") == Bool(!Truthy(doc));
    assert Lookup(ps, "value") == Or(doc, Undefined);
    Obj(ps)
  }

  /** The arguments `count` and `size` hand to the driver's `count`. */
  datatype CountCall = CountCall(applySkipLimit: bool, options: seq<Prop>)

  /** A promise that resolves, or one that never settles. */
  datatype Settlement<T> = Resolved(value: T) | Pending

  class Cursor {
    /** What the `n`-th call of `cursorFactory()` settles to: a driver
        cursor, or a rejection. Each call may settle differently, so a call
        after a rejection can succeed. */
    const factory: nat -> Result<Driver>
    /** `_options` and `_flags`. */
    var options: seq<Prop>
    var flags: seq<Prop>
    /** `this.cursor`, the memoised driver cursor. */
    var cursor: Option<Driver>
    /** How many times the factory has been called. */
    var factoryCalls: nat

    ghost predicate Valid()
      reads this
    {
      Distinct(options) && Distinct(flags)
    }

    /** What `getCursor()` settles to in the current state. */
    function Target(): Result<Driver>
      reads this
    {
      if cursor.Some? then Ok(cursor.value)
      else if factory(factoryCalls).Ok? then Ok(Materialise(factory(factoryCalls).value, options, flags))
      else Err(factory(factoryCalls).error)
    }

    constructor (factory: nat -> Result<Driver>)
      ensures Valid()
      ensures this.factory == factory && options == [] && flags == [] && cursor == None
      ensures factoryCalls == 0
    {
      this.factory := factory;
      options := [];
      flags := [];
      cursor := None;
      factoryCalls := 0;
    }

    /** The nine setters: the value is stored under the setter's name, a
        later call overwriting an earlier one, and the cursor is returned.
        Once the driver cursor exists, this changes nothing it sees. */
    method SetOption(op: CursorOption, data: Value) returns (self: Cursor)
      requires Valid()
      modifies this
      ensures self == this && Valid()
      ensures options == Put(old(options), OptionName(op), data)
      ensures flags == old(flags) && cursor == old(cursor) && factoryCalls == old(factoryCalls)
      ensures old(cursor).Some? ==> Target() == old(Target())
    {
      PutKeys(options, OptionName(op), data);
      options := Put(options, OptionName(op), data);
      self := this;
    }

    /** `addCursorFlag(flag, value)`. */
    method AddCursorFlag(flag: string, value: Value) returns (self: Cursor)
      requires Valid()
      modifies this
      ensures self == this && Valid()
      ensures flags == Put(old(flags), flag, value)
      ensures options == old(options) && cursor == old(cursor) && factoryCalls == old(factoryCalls)
      ensures old(cursor).Some? ==> Target() == old(Target())
    {
      PutKeys(flags, flag, value);
      flags := Put(flags, flag, value);
      self := this;
    }

    /** `getCursor()`: the stored driver cursor when there is one; otherwise
        the factory is called, the queued options and then the queued flags
        are replayed on its cursor in insertion order, and the result is
        stored. A rejection of the factory stores nothing. */
    method GetCursor() returns (r: Result<Driver>)
      modifies this
      ensures r == old(Target())
      ensures cursor == (if r.Ok? then Some(r.value) else old(cursor))
      ensures options == old(options) && flags == old(flags)
      ensures factoryCalls == old(factoryCalls) + (if old(cursor).None? then 1 else 0)
    {
      if cursor.Some? {
        return Ok(cursor.value);
      }
      var outcome := factory(factoryCalls);
      factoryCalls := factoryCalls + 1;
      if outcome.Err? {
        return Err(outcome.error);
      }
      var d := outcome.value;
      var i := 0;
      while i < |options|
        invariant 0 <= i <= |options|
        invariant d == ApplyOptions(outcome.value, options[..i])
      {
        assert options[..i + 1][..i] == options[..i];
        d := ApplyOption(d, options[i].key, options[i].val);
        i := i + 1;
      }
      assert options[..i] == options;
      var j := 0;
      while j < |flags|
        invariant 0 <= j <= |flags|
        invariant d == ApplyFlags(ApplyOptions(outcome.value, options), flags[..j])
      {
        assert flags[..j + 1][..j] == flags[..j];
        d := ApplyFlag(d, flags[j].key, flags[j].val);
        j := j + 1;
      }
      assert flags[..j] == flags;
      cursor := Some(d);
      return Ok(d);
    }

    /** `next()`. */
    method Next() returns (r: Result<Value>)
      modifies this
      ensures old(Target()).Err? ==> r == Err(old(Target()).error) && cursor == old(cursor)
      ensures old(Target()).Ok? ==>
                r == Ok(Pull(old(Target()).value).0) && cursor == Some(Pull(old(Target()).value).1)
      ensures options == old(options) && flags == old(flags)
    {
      var c := GetCursor();
      if c.Err? {
        return Err(c.error);
      }
      var (doc, d') := Pull(c.value);
      cursor := Some(d');
      return Ok(doc);
    }

    /** `hasNext()`: false whenever the driver cursor reports closed. */
    method HasNext() returns (r: Result<bool>)
      modifies this
      ensures r.Err? <==> old(Target()).Err?
      ensures r.Ok? ==> r.value == (!old(Target()).value.closed && |old(Target()).value.docs| > 0)
      ensures cursor == (if r.Ok? then Some(old(Target()).value) else old(cursor))
      ensures options == old(options) && flags == old(flags)
    {
      var c := GetCursor();
      if c.Err? {
        return Err(c.error);
      }
      return Ok(!c.value.closed && |c.value.docs| > 0);
    }

    /** `count()` asks the driver to ignore skip and limit; `size()` below
        asks it to apply them. Both pass the queued options. */
    method Count() returns (r: Result<CountCall>)
      modifies this
      ensures r.Err? <==> old(Target()).Err?
      ensures r.Ok? ==> r.value == CountCall(false, options)
      ensures cursor == (if r.Ok? then Some(old(Target()).value) else old(cursor))
      ensures options == old(options) && flags == old(flags)
    {
      var c := GetCursor();
      if c.Err? {
        return Err(c.error);
      }
      return Ok(CountCall(false, options));
    }

    method Size() returns (r: Result<CountCall>)
      modifies this
      ensures r.Err? <==> old(Target()).Err?
      ensures r.Ok? ==> r.value == CountCall(true, options)
      ensures cursor == (if r.Ok? then Some(old(Target()).value) else old(cursor))
      ensures options == old(options) && flags == old(flags)
    {
      var c := GetCursor();
      if c.Err? {
        return Err(c.error);
      }
      return Ok(CountCall(true, options));
    }

    /** `close()`: closes (and so kills) the driver cursor. */
    method Close() returns (r: Result<Value>)
      modifies this
      ensures r.Err? <==> old(Target()).Err?
      ensures cursor == (if r.Ok? then Some(DriverClose(old(Target()).value)) else old(cursor))
      ensures options == old(options) && flags == old(flags)
    {
      var c := GetCursor();
      if c.Err? {
        return Err(c.error);
      }
      cursor := Some(DriverClose(c.value));
      return Ok(Undefined);
    }

    /** `destroy()` is `close()`. */
    method Destroy() returns (r: Result<Value>)
      modifies this
      ensures r.Err? <==> old(Target()).Err?
      ensures cursor == (if r.Ok? then Some(DriverClose(old(Target()).value)) else old(cursor))
      ensures options == old(options) && flags == old(flags)
    {
      r := Close();
    }

    /** `map(fn)`: `fn` applied to each document pulled before the first
        falsy one, in order. When `next` rejects, the returned promise never
        settles. */
    method Map(fn: Value -> Value) returns (r: Settlement<seq<Value>>)
      modifies this
      ensures old(Target()).Err? ==> r == Pending && cursor == old(cursor)
      ensures old(Target()).Ok? ==>
                && r == Resolved(Apply(fn, Drain(old(Target()).value).0))
                && cursor == Some(Drain(old(Target()).value).1)
      ensures options == old(options) && flags == old(flags)
    {
      ghost var d0 := Target();
      var result: seq<Value> := [];
      var doc := Next();
      if doc.Err? {
        return Pending;
      }
      ghost var pulled: seq<Value> := [];
      assert Drain(d0.value) == Continue(doc.value, cursor.value);
      assert pulled + Continue(doc.value, cursor.value).0 == Continue(doc.value, cursor.value).0;
      while Truthy(doc.value)
        invariant cursor.Some? && options == old(options) && flags == old(flags)
        invariant d0.Ok? && doc.Ok?
        invariant |result| == |pulled|
        invariant forall i :: 0 <= i < |pulled| ==> result[i] == fn(pulled[i])
        invariant Drain(d0.value) == (pulled + Continue(doc.value, cursor.value).0,
                                      Continue(doc.value, cursor.value).1)
        decreases |cursor.value.docs| + (if Truthy(doc.value) then 1 else 0)
      {
        DrainStep(d0.value, pulled, doc.value, cursor.value);
        result := result + [fn(doc.value)];
        pulled := pulled + [doc.value];
        doc := Next();
      }
      assert pulled + [] == pulled;
      assert result == Apply(fn, pulled);
      return Resolved(result);
    }

    /** `forEach(fn)`: resolves once the same documents `map` would pull
        have been handed to `fn`, in order; `visited` lists them. When `next`
        rejects, the returned promise never settles. */
    method ForEach() returns (r: Settlement<Value>, visited: seq<Value>)
      modifies this
      ensures old(Target()).Err? ==> r == Pending && visited == [] && cursor == old(cursor)
      ensures old(Target()).Ok? ==>
                && r == Resolved(Undefined)
                && visited == Drain(old(Target()).value).0
                && cursor == Some(Drain(old(Target()).value).1)
      ensures options == old(options) && flags == old(flags)
    {
      ghost var d0 := Target();
      visited := [];
      var doc := Next();
      if doc.Err? {
        return Pending, [];
      }
      assert Drain(d0.value) == Continue(doc.value, cursor.value);
      assert visited + Continue(doc.value, cursor.value).0 == Continue(doc.value, cursor.value).0;
      while Truthy(doc.value)
        invariant cursor.Some? && options == old(options) && flags == old(flags)
        invariant d0.Ok? && doc.Ok?
        invariant Drain(d0.value) == (visited + Continue(doc.value, cursor.value).0,
                                      Continue(doc.value, cursor.value).1)
        decreases |cursor.value.docs| + (if Truthy(doc.value) then 1 else 0)
      {
        DrainStep(d0.value, visited, doc.value, cursor.value);
        visited := visited + [doc.value];
        doc := Next();
      }
      assert visited + [] == visited;
      return Resolved(Undefined), visited;
    }

    /** The async iterator's `next`: `done` exactly when `next` yields a
        falsy document, whose place `value` then leaves undefined. */
    method IteratorNext() returns (r: Result<Value>)
      modifies this
      ensures old(Target()).Err? ==> r == Err(old(Target()).error) && cursor == old(cursor)
      ensures old(Target()).Ok? ==>
                var (doc, d') := Pull(old(Target()).value);
                r == Ok(IteratorResult(doc)) && cursor == Some(d')
      ensures options == old(options) && flags == old(flags)
    {
      var doc := Next();
      if doc.Err? {
        return Err(doc.error);
      }
      return Ok(IteratorResult(doc.value));
    }
  }

  /** Each setter writes its own key: a later call of the same setter
      overwrites, a call of another setter leaves the value alone. */
  lemma SetterLookup(options: seq<Prop>, op: CursorOption, data: Value, other: CursorOption)
    ensures Lookup(Put(options, OptionName(op), data), OptionName(other)) ==
            if other == op then data else Lookup(options, OptionName(other))
  {
    PutLookup(options, OptionName(op), data);
  }

  /** A closed cursor yields nothing more: `next` resolves to null without
      calling the driver, and `map`/`forEach` visit no document. */
  lemma ClosedYieldsNothing(d: Driver)
    ensures Pull(DriverClose(d)) == (Null, DriverClose(d))
    ensures Drain(DriverClose(d)) == ([], DriverClose(d))
  {
  }

  function Apply(fn: Value -> Value, s: seq<Value>): (r: seq<Value>)
    ensures |r| == |s|
    ensures forall i :: 0 <= i < |s| ==> r[i] == fn(s[i])
  {
    seq(|s|, i requires 0 <= i < |s| => fn(s[i]))
  }

}
