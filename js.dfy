/**
 * The JavaScript values the shim passes around: documents, options and
 * command objects. Objects are ORDERED lists of properties, because the
 * shim depends on insertion order in three places: `Object.keys` decides
 * the order in which queued cursor options are applied, the first key of
 * a command object names the command, and `Object.assign` overwrites an
 * existing key in place but appends a new one.
 */
module JsValues {

  datatype Option<T> = None | Some(value: T)

  /** Why an operation failed: a synchronous TypeError, or a rejected promise. */
  datatype Error = TypeError | Rejected(reason: Value)

  datatype Result<T> = Ok(value: T) | Err(error: Error)

  /** Numbers are modelled as integers; NaN and fractions do not occur in the model. */
  datatype Value =
    | Undefined
    | Null
    | Bool(b: bool)
    | Num(n: int)
    | Str(s: string)
    | ObjectId(id: nat)
    | Arr(items: seq<Value>)
    | Obj(props: seq<Prop>)

  datatype Prop = Prop(key: string, val: Value)

  /** JavaScript truthiness (`if (v)`, `!v`, `v || w`). */
  predicate Truthy(v: Value) {
    match v
    case Undefined => false
    case Null => false
    case Bool(b) => b
    case Num(n) => n != 0
    case Str(s) => s != ""
    case _ => true
  }

  /** The falsy values: `undefined`, `null`, `false`, `0` and `""` (NaN
      does not occur in the model); every object, array and ObjectId is
      truthy. */
  lemma FalsyValues(v: Value)
    ensures !Truthy(v) <==> v == Undefined || v == Null || v == Bool(false) || v == Num(0) || v == Str("")
    ensures v.Obj? || v.Arr? || v.ObjectId? ==> Truthy(v)
  {
  }

  /** `a || b`: the first operand when it is truthy, otherwise the second. */
  function Or(a: Value, b: Value): (r: Value)
    ensures Truthy(a) ==> r == a
    ensures !Truthy(a) ==> r == b
  {
    if Truthy(a) then a else b
  }

  // ---------------------------------------------------------------------
  // Ordered objects
  // ---------------------------------------------------------------------

  /** `Object.keys(o)`. */
  function KeysOf(ps: seq<Prop>): (ks: seq<string>)
    ensures |ks| == |ps|
    ensures forall i :: 0 <= i < |ps| ==> ks[i] == ps[i].key
  {
    if ps == [] then [] else [ps[0].key] + KeysOf(ps[1..])
  }

  predicate Has(ps: seq<Prop>, k: string) {
    k in KeysOf(ps)
  }

  /** Every key occurs once, as in every JavaScript object. */
  predicate Distinct(ps: seq<Prop>) {
    NoDuplicates(KeysOf(ps))
  }

  predicate NoDuplicates(ks: seq<string>) {
    forall i, j :: 0 <= i < j < |ks| ==> ks[i] != ks[j]
  }

  /** `o[k]`: the value stored under `k`, `undefined` when there is none. */
  function Lookup(ps: seq<Prop>, k: string): Value {
    if ps == [] then Undefined
    else if ps[0].key == k then ps[0].val
    else Lookup(ps[1..], k)
  }

  /** Property read on any value; only plain objects carry properties here. */
  function Get(v: Value, k: string): Value {
    if v.Obj? then Lookup(v.props, k) else Undefined
  }

  /** `o[k] = v`: overwrite in place when `k` exists, otherwise append. */
  function Put(ps: seq<Prop>, k: string, v: Value): seq<Prop> {
    if ps == [] then [Prop(k, v)]
    else if ps[0].key == k then [Prop(k, v)] + ps[1..]
    else [ps[0]] + Put(ps[1..], k, v)
  }

  /** `delete o[k]`. */
  function Delete(ps: seq<Prop>, k: string): seq<Prop> {
    if ps == [] then []
    else if ps[0].key == k then Delete(ps[1..], k)
    else [ps[0]] + Delete(ps[1..], k)
  }

  /** `Object.assign(target, source)` for an object source: each property of
      `source`, in order, is assigned onto `target`. */
  function AssignProps(target: seq<Prop>, source: seq<Prop>): seq<Prop>
    decreases |source|
  {
    if source == [] then target
    else AssignProps(Put(target, source[0].key, source[0].val), source[1..])
  }

  /** `Object.assign(target, source)`: a source that is not a plain object
      (undefined, null, a number, a boolean) contributes nothing. */
  function Assign(target: seq<Prop>, source: Value): seq<Prop> {
    if source.Obj? then AssignProps(target, source.props) else target
  }

  /** `doc._id = doc._id || oid()` on a document: an existing truthy `_id` is
      kept, otherwise the freshly generated one is stored. */
  function AssignId(doc: seq<Prop>, newId: Value): seq<Prop> {
    if Truthy(Lookup(doc, "_id")) then doc else Put(doc, "_id", newId)
  }

  // ---------------------------------------------------------------------
  // Strings
  // ---------------------------------------------------------------------

  /** `s.startsWith(p)`. */
  predicate StartsWith(s: string, p: string) {
    |p| <= |s| && s[..|p|] == p
  }

  /** `s.includes(t)`, equivalently `s.indexOf(t) >= 0`. */
  predicate Includes(s: string, t: string)
    decreases |s|
  {
    StartsWith(s, t) || (s != [] && Includes(s[1..], t))
  }

  /** A one-character search is a membership test. */
  lemma {:induction false} IncludesChar(s: string, c: char)
    ensures Includes(s, [c]) <==> c in s
  {
    if s != [] {
      IncludesChar(s[1..], c);
      assert s == [s[0]] + s[1..];
    }
  }

  /** Every character of a string found in `s` occurs in `s`. */
  lemma {:induction false} IncludesFirstChar(s: string, t: string)
    requires t != [] && Includes(s, t)
    ensures t[0] in s
  {
    if !StartsWith(s, t) {
      IncludesFirstChar(s[1..], t);
    } else {
      assert s[0] == t[0];
    }
  }

    /** `t` occurs in `s` starting at position `k`. */
  predicate OccursAt(s: string, t: string, k: nat) {
    k + |t| <= |s| && s[k..k + |t|] == t
  }

  /** Where `s.includes(t)` holds, `t` occurs at some position `k`. */
  lemma {:induction false} IncludesAt(s: string, t: string) returns (k: nat)
    requires Includes(s, t)
    ensures OccursAt(s, t, k)
  {
    if StartsWith(s, t) {
      k := 0;
    } else {
      var k' := IncludesAt(s[1..], t);
      k := k' + 1;
      assert s[k..k + |t|] == s[1..][k'..k' + |t|];
    }
  }

  /** `s.includes(t)` is false when `t` occurs at no position. */
  lemma NoOccurrence(s: string, t: string)
    requires forall k: nat :: !OccursAt(s, t, k)
    ensures !Includes(s, t)
  {
    if Includes(s, t) {
      var k := IncludesAt(s, t);
    }
  }

/** Prefixing keeps what was found. */
  lemma {:induction false} IncludesAfterPrefix(p: string, s: string, t: string)
    requires Includes(s, t)
    ensures Includes(p + s, t)
    decreases |p|
  {
    if p != [] {
      IncludesAfterPrefix(p[1..], s, t);
      assert (p + s)[1..] == p[1..] + s;
    } else {
      assert p + s == s;
    }
  }

  // ---------------------------------------------------------------------
  // Lemmas about ordered objects
  // ---------------------------------------------------------------------

  lemma {:induction false} LookupPresent(ps: seq<Prop>, i: nat)
    requires Distinct(ps) && i < |ps|
    ensures Lookup(ps, ps[i].key) == ps[i].val
  {
    if i > 0 {
      LookupPresent(ps[1..], i - 1);
    }
  }

  lemma {:induction false} LookupAbsent(ps: seq<Prop>, k: string)
    requires !Has(ps, k)
    ensures Lookup(ps, k) == Undefined
  {
    if ps != [] {
      assert KeysOf(ps) == [ps[0].key] + KeysOf(ps[1..]);
      LookupAbsent(ps[1..], k);
    }
  }

  /** Reading back after `o[k] = v`. */
  lemma {:induction false} PutLookup(ps: seq<Prop>, k: string, v: Value)
    ensures forall j :: Lookup(Put(ps, k, v), j) == if j == k then v else Lookup(ps, j)
  {
    if ps != [] {
      PutLookup(ps[1..], k, v);
    }
  }

  /** What `Object.keys` reports after `o[k] = v`: an existing key keeps its
      position, a new one comes last; so keys stay distinct. */
  lemma PutKeys(ps: seq<Prop>, k: string, v: Value)
    ensures KeysOf(Put(ps, k, v)) == if Has(ps, k) then KeysOf(ps) else KeysOf(ps) + [k]
    ensures Distinct(ps) ==> Distinct(Put(ps, k, v))
  {
    PutKeysOrder(ps, k, v);
  }

  lemma {:induction false} PutKeysOrder(ps: seq<Prop>, k: string, v: Value)
    ensures KeysOf(Put(ps, k, v)) == if Has(ps, k) then KeysOf(ps) else KeysOf(ps) + [k]
  {
    if ps != [] {
      PutKeysOrder(ps[1..], k, v);
      assert KeysOf(ps) == [ps[0].key] + KeysOf(ps[1..]);
      if ps[0].key != k {
        assert KeysOf(Put(ps, k, v)) == [ps[0].key] + KeysOf(Put(ps[1..], k, v));
      } else {
        assert KeysOf(Put(ps, k, v)) == [k] + KeysOf(ps[1..]);
      }
    }
  }

  lemma {:induction false} DeleteSpec(ps: seq<Prop>, k: string)
    ensures !Has(Delete(ps, k), k)
    ensures forall j :: j != k ==> Lookup(Delete(ps, k), j) == Lookup(ps, j)
    ensures forall j :: j != k ==> (Has(Delete(ps, k), j) <==> Has(ps, j))
    ensures ps != [] && ps[0].key != k ==> Delete(ps, k)[0] == ps[0]
  {
    if ps != [] {
      DeleteSpec(ps[1..], k);
      assert KeysOf(ps) == [ps[0].key] + KeysOf(ps[1..]);
      if ps[0].key != k {
        var r := Delete(ps, k);
        assert r == [ps[0]] + Delete(ps[1..], k);
        assert KeysOf(r) == [ps[0].key] + KeysOf(Delete(ps[1..], k));
        forall j | j != k ensures Has(r, j) <==> Has(ps, j) {
          assert Has(r, j) <==> j == ps[0].key || Has(Delete(ps[1..], k), j);
        }
      }
    }
  }

  /** `Object.assign`: the source wins on every key it has, every other key
      keeps the target's value. */
  lemma {:induction false} AssignPropsLookup(target: seq<Prop>, source: seq<Prop>)
    requires Distinct(source)
    ensures forall j :: Lookup(AssignProps(target, source), j)
                        == if Has(source, j) then Lookup(source, j) else Lookup(target, j)
    decreases |source|
  {
    if source != [] {
      PutLookup(target, source[0].key, source[0].val);
      assert KeysOf(source) == [source[0].key] + KeysOf(source[1..]);
      assert Distinct(source[1..]) && !Has(source[1..], source[0].key);
      AssignPropsLookup(Put(target, source[0].key, source[0].val), source[1..]);
    }
  }

  /** `Object.assign` keeps the target's keys in their positions and adds the
      source's new keys after them. */
  lemma AssignPropsKeys(target: seq<Prop>, source: seq<Prop>)
    ensures forall j :: Has(AssignProps(target, source), j) <==> Has(target, j) || Has(source, j)
    ensures |AssignProps(target, source)| >= |target|
    ensures KeysOf(AssignProps(target, source))[..|target|] == KeysOf(target)
    ensures Distinct(target) ==> Distinct(AssignProps(target, source))
  {
    AssignPropsOrder(target, source);
    if Distinct(target) {
      AssignPropsDistinct(target, source);
    }
  }

  lemma AssignPropsOrder(target: seq<Prop>, source: seq<Prop>)
    ensures forall j :: Has(AssignProps(target, source), j) <==> Has(target, j) || Has(source, j)
    ensures |AssignProps(target, source)| >= |target|
    ensures KeysOf(AssignProps(target, source))[..|target|] == KeysOf(target)
  {
    AssignPropsHas(target, source);
    AssignPropsPrefix(target, source);
  }

  lemma {:induction false} AssignPropsHas(target: seq<Prop>, source: seq<Prop>)
    ensures forall j :: Has(AssignProps(target, source), j) <==> Has(target, j) || Has(source, j)
    decreases |source|
  {
    if source != [] {
      var t' := Put(target, source[0].key, source[0].val);
      PutKeysOrder(target, source[0].key, source[0].val);
      assert forall j :: Has(t', j) <==> Has(target, j) || j == source[0].key;
      assert KeysOf(source) == [source[0].key] + KeysOf(source[1..]);
      assert forall j :: Has(source, j) <==> j == source[0].key || Has(source[1..], j);
      AssignPropsHas(t', source[1..]);
    }
  }

  lemma {:induction false} AssignPropsPrefix(target: seq<Prop>, source: seq<Prop>)
    ensures |AssignProps(target, source)| >= |target|
    ensures KeysOf(AssignProps(target, source))[..|target|] == KeysOf(target)
    decreases |source|
  {
    if source != [] {
      var t' := Put(target, source[0].key, source[0].val);
      PutKeysOrder(target, source[0].key, source[0].val);
      AssignPropsPrefix(t', source[1..]);
      assert KeysOf(t')[..|target|] == KeysOf(target);
      var r := AssignProps(t', source[1..]);
      assert KeysOf(r)[..|target|] == KeysOf(r)[..|t'|][..|target|];
    }
  }

  lemma {:induction false} AssignPropsDistinct(target: seq<Prop>, source: seq<Prop>)
    requires Distinct(target)
    ensures Distinct(AssignProps(target, source))
    decreases |source|
  {
    if source != [] {
      PutKeys(target, source[0].key, source[0].val);
      AssignPropsDistinct(Put(target, source[0].key, source[0].val), source[1..]);
    }
  }

  /** Where `Object.assign` puts keys, whatever the source. */
  lemma AssignKeys(target: seq<Prop>, source: Value)
    ensures forall j :: Has(Assign(target, source), j) <==> Has(target, j) || Has(Assign([], source), j)
    ensures |Assign(target, source)| >= |target|
    ensures KeysOf(Assign(target, source))[..|target|] == KeysOf(target)
    ensures Distinct(target) ==> Distinct(Assign(target, source))
    ensures source.Obj? ==> forall j :: Has(Assign([], source), j) <==> Has(source.props, j)
    ensures !source.Obj? ==> Assign(target, source) == target
  {
    if source.Obj? {
      AssignPropsKeys(target, source.props);
      AssignPropsKeys([], source.props);
    }
  }

  /** What `Object.assign` stores, for a source with distinct keys. */
  lemma AssignSpec(target: seq<Prop>, source: Value)
    requires source.Obj? ==> Distinct(source.props)
    ensures forall j :: Lookup(Assign(target, source), j) == if Has(Assign([], source), j) then Get(source, j) else Lookup(target, j)
    ensures forall j :: Has(Assign(target, source), j) <==> Has(target, j) || Has(Assign([], source), j)
    ensures |Assign(target, source)| >= |target|
    ensures KeysOf(Assign(target, source))[..|target|] == KeysOf(target)
    ensures Distinct(target) ==> Distinct(Assign(target, source))
  {
    AssignKeys(target, source);
    if source.Obj? {
      AssignPropsLookup(target, source.props);
    }
  }

  /** `Object.assign({}, o)` reads back exactly like `o`. */
  lemma CopyLookup(source: Value)
    requires source.Obj? ==> Distinct(source.props)
    ensures forall j :: Lookup(Assign([], source), j) == Get(source, j)
  {
    AssignSpec([], source);
    AssignKeys([], source);
    forall j | source.Obj? && !Has(source.props, j) ensures Get(source, j) == Undefined {
      LookupAbsent(source.props, j);
    }
  }

  /** Reading an object with distinct keys by position. */
  lemma LookupIndex(ps: seq<Prop>, k: string)
    requires Distinct(ps)
    ensures forall i :: 0 <= i < |ps| && ps[i].key == k ==> Lookup(ps, k) == ps[i].val
    ensures !Has(ps, k) ==> Lookup(ps, k) == Undefined
  {
    forall i | 0 <= i < |ps| && ps[i].key == k ensures Lookup(ps, k) == ps[i].val {
      LookupPresent(ps, i);
    }
    if !Has(ps, k) {
      LookupAbsent(ps, k);
    }
  }

  /** The `_id` rule: a truthy `_id` survives, a missing or falsy one is
      replaced by the fresh id; nothing else about the document changes. */
  lemma AssignIdSpec(doc: seq<Prop>, newId: Value)
    ensures Lookup(AssignId(doc, newId), "_id") == Or(Lookup(doc, "_id"), newId)
    ensures forall j :: j != "_id" ==> Lookup(AssignId(doc, newId), j) == Lookup(doc, j)
    ensures Truthy(Lookup(doc, "_id")) ==> AssignId(doc, newId) == doc
    ensures Distinct(doc) ==> Distinct(AssignId(doc, newId))
    ensures KeysOf(AssignId(doc, newId)) == if Has(doc, "_id") then KeysOf(doc) else KeysOf(doc) + ["_id"]
  {
    if Truthy(Lookup(doc, "_id")) {
      if !Has(doc, "_id") {
        LookupAbsent(doc, "_id");
      }
    } else {
      PutLookup(doc, "_id", newId);
      PutKeys(doc, "_id", newId);
    }
  }
}
