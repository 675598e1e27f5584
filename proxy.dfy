/**
 * index.js: the proxy the package returns in place of a database. A
 * property read on it answers a method of the database bound to it
 * (memoised per key), a collection for any other valid collection name,
 * and the database's own value otherwise.
 */
module DatabaseProxy {
  import opened JsValues

  /** A property key: a string, or a symbol (identified by a number). */
  datatype Key = Name(s: string) | Symbol(id: nat)

  /** `isValidCollectionName`: a non-empty string that includes neither `$`
      nor `\0` and does not start with `system.`. */
  predicate IsValidCollectionName(k: Key) {
    k.Name? && k.s != [] &&
    !(Includes(k.s, "$") || Includes(k.s, "\0") || StartsWith(k.s, "system."))
  }

  /** The same rule stated on the name's characters. */
  lemma ValidCollectionNameChars(k: Key)
    ensures IsValidCollectionName(k) <==>
              k.Name? && k.s != [] && '$' !in k.s && '\0' !in k.s && !StartsWith(k.s, "system.")
  {
    if k.Name? {
      IncludesChar(k.s, '$');
      IncludesChar(k.s, '\0');
    }
  }

  /** An ordinary name is a valid collection name. */
  lemma ValidCollectionNameExample()
    ensures IsValidCollectionName(Name("users"))
  {
    var s := "users";
    ValidCollectionNameChars(Name(s));
    assert '$' !in s && '\0' !in s;
    assert |s| < |"system."|;
  }

  /** Names the routing rejects: empty, with a `$`, in the `system.`
      namespace, and every symbol. */
  lemma InvalidCollectionNameExamples()
    ensures !IsValidCollectionName(Name(""))
    ensures !IsValidCollectionName(Name("a$b"))
    ensures !IsValidCollectionName(Name("system.indexes"))
    ensures forall id :: !IsValidCollectionName(Symbol(id))
  {
    ValidCollectionNameChars(Name("a$b"));
    assert "a$b"[1] == '$';
    assert "system.indexes"[..7] == "system.";
  }

  /** What a property of the database holds: a function (identified by a
      number) or any other value; a missing property reads `undefined`. */
  datatype Member = Method(fn: nat) | Data(v: Value)

  /** A function bound to the database; `id` tells apart the distinct
      function objects `bind` creates. */
  datatype Bound = Bound(fn: nat, id: nat)

  /** What a property read on the proxy answers. */
  datatype Answer = BoundMethod(b: Bound) | CollectionOf(name: string) | Raw(v: Value)

  /** The proxy's own state: the `dbMethods` memo and the next id `bind`
      will hand out. */
  datatype Memo = Memo(methods: map<Key, Bound>, nextId: nat)

  /** Every memoised function has an id already handed out, and no two
      keys share one. */
  predicate MemoValid(m: Memo) {
    && (forall k :: k in m.methods ==> m.methods[k].id < m.nextId)
    && (forall k1, k2 :: k1 in m.methods && k2 in m.methods && k1 != k2 ==>
          m.methods[k1].id != m.methods[k2].id)
  }

  /** The proxy's `get` for key `k` whose database property is `member`:
      the answer and the memo afterwards. */
  function Resolve(member: Member, k: Key, m: Memo): (r: (Answer, Memo))
    ensures member.Method? ==>
              && r.0.BoundMethod? && k in r.1.methods && r.1.methods[k] == r.0.b
              && (k in m.methods ==> r.1 == m && r.0.b == m.methods[k])
              && (k !in m.methods ==> r.0.b == Bound(member.fn, m.nextId)
                                       && r.1.methods == m.methods[k := r.0.b]
                                       && r.1.nextId == m.nextId + 1)
    ensures !member.Method? ==> r.1 == m
    ensures !member.Method? && IsValidCollectionName(k) ==> r.0 == CollectionOf(k.s)
    ensures !member.Method? && !IsValidCollectionName(k) ==> r.0 == Raw(member.v)
  {
    if member.Method? then
      var b := if k in m.methods then m.methods[k] else Bound(member.fn, m.nextId);
      var next := if k in m.methods then m.nextId else m.nextId + 1;
      (BoundMethod(b), Memo(m.methods[k := b], next))
    else if IsValidCollectionName(k) then (CollectionOf(k.s), m)
    else (Raw(member.v), m)
  }

  /** A lookup keeps the memo valid, and a function bound afresh differs
      from every function memoised under another key. */
  lemma ResolveKeepsValid(member: Member, k: Key, m: Memo)
    requires MemoValid(m)
    ensures MemoValid(Resolve(member, k, m).1)
    ensures var r := Resolve(member, k, m);
      r.0.BoundMethod? ==> forall k2 :: k2 in m.methods && k2 != k ==> m.methods[k2] != r.0.b
  {
  }

  /** Reading the same key twice answers the identical bound function (or
      the same collection or value), and the second read changes nothing. */
  lemma ResolveTwice(member: Member, k: Key, m: Memo)
    ensures var (a1, m1) := Resolve(member, k, m);
      Resolve(member, k, m1) == (a1, m1)
  {
  }

  /** A database function wins over collection routing, even under a
      valid collection name. */
  lemma MethodsBeforeCollections(fn: nat, name: string, m: Memo)
    requires IsValidCollectionName(Name(name))
    ensures Resolve(Method(fn), Name(name), m).0.BoundMethod?
  {
  }

  /** A data field of the database under a valid name yields a
      collection: `connection`, which the database defines as `null`,
      reads as the collection `connection`. */
  lemma DataFieldIsCollection(m: Memo)
    ensures Resolve(Data(Null), Name("connection"), m).0 == CollectionOf("connection")
  {
    var s := "connection";
    ValidCollectionNameChars(Name(s));
    assert s[..7][0] == 'c';
  }

  /** A symbol never names a collection: it reads the database's own
      property, bound when it is a function. */
  lemma SymbolsAreRaw(member: Member, id: nat, m: Memo)
    ensures !member.Method? ==> Resolve(member, Symbol(id), m).0 == Raw(member.v)
    ensures !Resolve(member, Symbol(id), m).0.CollectionOf?
  {
  }

  /** The proxy object over a database whose properties are `props`. */
  class Proxy {
    var props: map<Key, Member>
    var dbMethods: map<Key, Bound>
    var nextId: nat

    function State(): Memo
      reads this
    {
      Memo(dbMethods, nextId)
    }

    /** The database's property `k`; a missing one reads `undefined`. */
    function Property(k: Key): Member
      reads this
    {
      if k in props then props[k] else Data(Undefined)
    }

    predicate Valid()
      reads this
    {
      MemoValid(State())
    }

    constructor (props: map<Key, Member>)
      ensures this.props == props && dbMethods == map[] && Valid()
    {
      this.props := props;
      dbMethods := map[];
      nextId := 0;
    }

    /** The `get` trap. */
    method Get(k: Key) returns (a: Answer)
      requires Valid()
      modifies this
      ensures Valid() && props == old(props)
      ensures (a, State()) == Resolve(old(Property(k)), k, old(State()))
    {
      var member := Property(k);
      ResolveKeepsValid(member, k, State());
      match member {
        case Method(fn) =>
          if k !in dbMethods {
            dbMethods := dbMethods[k := Bound(fn, nextId)];
            nextId := nextId + 1;
          }
          return BoundMethod(dbMethods[k]);
        case Data(v) =>
          if IsValidCollectionName(k) {
            return CollectionOf(k.s);
          }
          return Raw(v);
      }
    }
  }
}
