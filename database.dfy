/**
 * lib/database.js: the connection-string normalisation of the constructor,
 * the command documents the database builds, the collection-info filter,
 * and the rule by which `connect` caches its connection.
 */
module Databases {
  import opened JsValues

  // ---------------------------------------------------------------------
  // Connection strings
  // ---------------------------------------------------------------------

  /** The constructor's shortcut expansion: a string without `/` is a bare
      database name and gets `localhost/` in front; then a string without
      `mongodb://` gets that scheme in front. */
  function NormaliseUrl(s: string): string {
    var withHost := if !Includes(s, "/") then "localhost/" + s else s;
    if !Includes(withHost, "mongodb://") then "mongodb://" + withHost else withHost
  }

  /** A normalised string has both a `/` and the scheme. */
  lemma NormaliseUrlComplete(s: string)
    ensures Includes(NormaliseUrl(s), "/") && Includes(NormaliseUrl(s), "mongodb://")
  {
    var withHost := if !Includes(s, "/") then "localhost/" + s else s;
    if !Includes(s, "/") {
      IncludesChar(withHost, '/');
      assert withHost[9] == '/';
    }
    if !Includes(withHost, "mongodb://") {
      var r := "mongodb://" + withHost;
      assert StartsWith(r, "mongodb://");
      IncludesAfterPrefix("mongodb://", withHost, "/");
    }
  }

  /** Normalisation changes a string exactly when it lacks `/` or the
      scheme, so normalising twice is normalising once. */
  lemma NormaliseUrlIdempotent(s: string)
    ensures NormaliseUrl(s) == s <==> Includes(s, "/") && Includes(s, "mongodb://")
    ensures NormaliseUrl(NormaliseUrl(s)) == NormaliseUrl(s)
  {
    NormaliseUrlComplete(s);
  }

  /** Without a `/`, the local host is put in front before the scheme
      test. */
  lemma NormaliseWithoutSlash(s: string, w: string)
    requires !Includes(s, "/") && w == "localhost/" + s && !Includes(w, "mongodb://")
    ensures NormaliseUrl(s) == "mongodb://" + w
  {
  }

  /** In `localhost/` followed by a name without `/`, the only `/` is the
      one after the host. */
  lemma LocalhostSlashes(name: string, j: nat)
    requires '/' !in name && j < 10 + |name|
    ensures ("localhost/" + name)[j] == '/' <==> j == 9
  {
    var w := "localhost/" + name;
    if j < 10 {
      assert w[j] == "localhost/"[j];
    } else {
      assert w[j] == name[j - 10];
    }
  }

  /** The scheme holds two `/` in a row, which `localhost/` followed by a
      name without `/` does not. */
  lemma LocalhostHasNoScheme(name: string)
    requires '/' !in name
    ensures !Includes("localhost/" + name, "mongodb://")
  {
    var w, t := "localhost/" + name, "mongodb://";
    forall k: nat
      ensures !OccursAt(w, t, k)
    {
      if k + |t| <= |w| {
        LocalhostSlashes(name, k + 8);
        LocalhostSlashes(name, k + 9);
        assert w[k..k + |t|][8] == w[k + 8] && w[k..k + |t|][9] == w[k + 9];
        assert t[8] == '/' && t[9] == '/';
      }
    }
    NoOccurrence(w, t);
  }

  /** A bare database name (no `/`) is expanded to a URL on the local
      host. */
  lemma NormaliseBareName(name: string)
    requires '/' !in name
    ensures NormaliseUrl(name) == "mongodb://localhost/" + name
  {
    IncludesChar(name, '/');
    var w := "localhost/" + name;
    LocalhostHasNoScheme(name);
    NormaliseWithoutSlash(name, w);
    assert ("mongodb://" + "localhost/") + name == "mongodb://" + w;
  }

  /** A host and database without the scheme only get the scheme. */
  lemma NormaliseHostAndName(s: string)
    requires '/' in s && !Includes(s, "mongodb://")
    ensures NormaliseUrl(s) == "mongodb://" + s
  {
    IncludesChar(s, '/');
  }

  /** The shortcut for a bare database name. */
  lemma NormaliseExampleName()
    ensures NormaliseUrl("test") == "mongodb://localhost/test"
  {
    var s := "test";
    assert '/' !in s;
    NormaliseBareName(s);
    assert "mongodb://localhost/" + s == "mongodb://localhost/test";
  }

  /** The same shortcut on a name holding the scheme's letters. */
  lemma NormaliseExampleAdmin()
    ensures NormaliseUrl("admin") == "mongodb://localhost/admin"
  {
    var s := "admin";
    assert '/' !in s;
    NormaliseBareName(s);
    assert "mongodb://localhost/" + s == "mongodb://localhost/admin";
  }

  /** What a database is built on: a connection string, a mongojs
      database (`_getConnection`), another mongoist database, or anything
      else. */
  datatype Target = Url(url: string) | Mongojs | Peer | Other(v: Value)

  /** The constructor's argument handling: strings are normalised, other
      targets kept as they are; options default to `{}`. */
  function ConstructorTarget(target: Target): (t: Target)
    ensures target.Url? ==> t == Url(NormaliseUrl(target.url))
    ensures !target.Url? ==> t == target
  {
    if target.Url? then Url(NormaliseUrl(target.url)) else target
  }

  function ConstructorOptions(options: Value): (o: Value)
    ensures Truthy(options) ==> o == options
    ensures !Truthy(options) ==> o == Obj([])
  {
    Or(options, Obj([]))
  }

  // ---------------------------------------------------------------------
  // Command documents
  // ---------------------------------------------------------------------

  /** `runCommand(opts)`: a command name becomes `{ [name]: 1 }`, anything
      else is sent as it is. */
  function CommandDocument(opts: Value): (cmd: Value)
    ensures opts.Str? ==> cmd == Obj([Prop(opts.s, Num(1))])
    ensures !opts.Str? ==> cmd == opts
  {
    if opts.Str? then Obj([Prop(opts.s, Num(1))]) else opts
  }

  /** `stats(scale)`. */
  function StatsCommand(scale: Value): (cmd: Value)
    ensures Get(cmd, "dbStats") == Num(1) && Get(cmd, "scale") == scale
    ensures cmd.Obj? && KeysOf(cmd.props) == ["dbStats", "scale"]
  {
    var ps := [Prop("dbStats", Num(1)), Prop("scale", scale)];
    assert KeysOf(ps) == ["dbStats", "scale"];
    LookupPresent(ps, 0);
    LookupPresent(ps, 1);
    Obj(ps)
  }

  /** `createCollection(name, opts)`: `{ create: name }` merged with the
      options. */
  function CreateCollectionCommand(name: Value, opts: Value): (cmd: seq<Prop>)
    ensures |cmd| >= 1 && cmd[0].key == "create"
  {
    AssignKeys([Prop("create", name)], opts);
    Assign([Prop("create", name)], opts)
  }

  /** `create` stays the first key; it holds `name` unless the options set
      `create` too; every other key reads as in the options. */
  lemma CreateCollectionSpec(name: Value, opts: Value)
    requires opts.Obj? ==> Distinct(opts.props)
    ensures var c := CreateCollectionCommand(name, opts);
      && Distinct(c)
      && KeysOf(c)[0] == "create"
      && Lookup(c, "create") == (if Has(Assign([], opts), "create") then Get(opts, "create") else name)
      && forall k :: k != "create" ==> Lookup(c, k) == Get(opts, k)
  {
    var t := [Prop("create", name)];
    AssignSpec(t, opts);
    CopyLookup(opts);
    assert KeysOf(t) == ["create"];
    forall k | k != "create"
      ensures Lookup(CreateCollectionCommand(name, opts), k) == Get(opts, k)
    {
      assert Lookup(t, k) == Undefined;
      if !Has(Assign([], opts), k) {
        LookupAbsent(Assign([], opts), k);
      }
    }
  }

  /** `createUser(usr)`: `{ createUser: usr.user }` merged with `usr`, then
      `user` deleted. Reading `user` of null or undefined throws. */
  function CreateUserCommand(usr: Value): (r: Result<seq<Prop>>)
    ensures (usr == Null || usr == Undefined) <==> r.Err?
  {
    if usr == Null || usr == Undefined then Err(TypeError)
    else Ok(Delete(Assign([Prop("createUser", Get(usr, "user"))], usr), "user"))
  }

  /** The command names the user under `createUser` (unless `usr` carries a
      `createUser` field itself, which then wins), first; has no `user`
      field; and copies every other field of `usr`. */
  lemma CreateUserSpec(usr: Value)
    requires usr.Obj? && Distinct(usr.props)
    ensures var cmd := CreateUserCommand(usr).value;
      && cmd != [] && cmd[0].key == "createUser"
      && !Has(cmd, "user")
      && Lookup(cmd, "createUser") ==
           (if Has(usr.props, "createUser") then Get(usr, "createUser") else Get(usr, "user"))
      && Distinct(cmd)
      && forall k :: k != "user" && k != "createUser" ==> Lookup(cmd, k) == Get(usr, k)
  {
    var t := [Prop("createUser", Get(usr, "user"))];
    var merged := Assign(t, usr);
    AssignSpec(t, usr);
    AssignKeys(t, usr);
    CopyLookup(usr);
    DeleteSpec(merged, "user");
    assert KeysOf(t) == ["createUser"];
    forall k | k != "user" && k != "createUser" ensures Lookup(merged, k) == Get(usr, k) {
      assert Lookup(t, k) == Undefined;
      if !Has(Assign([], usr), k) {
        LookupAbsent(usr.props, k);
      }
    }
    assert Distinct(Delete(merged, "user")) by {
      DeleteDistinct(merged, "user");
    }
  }

  /** Deleting a key keeps the remaining keys distinct. */
  lemma {:induction false} DeleteDistinct(ps: seq<Prop>, k: string)
    requires Distinct(ps)
    ensures Distinct(Delete(ps, k))
  {
    if ps != [] {
      assert KeysOf(ps) == [ps[0].key] + KeysOf(ps[1..]);
      assert Distinct(ps[1..]);
      DeleteDistinct(ps[1..], k);
      DeleteSpec(ps[1..], k);
      if ps[0].key != k {
        var r := Delete(ps, k);
        assert r == [ps[0]] + Delete(ps[1..], k);
        assert KeysOf(r) == [ps[0].key] + KeysOf(Delete(ps[1..], k));
        assert !Has(ps[1..], ps[0].key);
        assert !Has(Delete(ps[1..], k), ps[0].key);
      }
    }
  }

  // ---------------------------------------------------------------------
  // Collection infos
  // ---------------------------------------------------------------------

  /** The name of a collection-info entry starts with `system.`. */
  predicate IsSystem(info: Value)
    requires Get(info, "name").Str?
  {
    StartsWith(Get(info, "name").s, "system.")
  }

  /** `getCollectionInfos`: the entries whose name does not start with
      `system.`, in order. An entry without a string name makes
      `startsWith` throw. */
  function VisibleCollections(infos: seq<Value>): (r: Result<seq<Value>>)
    ensures r.Err? <==> exists i :: 0 <= i < |infos| && !Get(infos[i], "name").Str?
  {
    if infos == [] then Ok([])
    else
      var rest := VisibleCollections(infos[1..]);
      if !Get(infos[0], "name").Str? then Err(TypeError)
      else if rest.Err? then
        assert exists i :: 1 <= i < |infos| && !Get(infos[i], "name").Str? by {
          var i :| 0 <= i < |infos[1..]| && !Get(infos[1..][i], "name").Str?;
          assert infos[i + 1] == infos[1..][i];
        }
        rest
      else
        assert forall i :: 0 <= i < |infos| ==> Get(infos[i], "name").Str? by {
          forall i | 0 <= i < |infos| ensures Get(infos[i], "name").Str? {
            if i > 0 {
              assert infos[i] == infos[1..][i - 1];
            }
          }
        }
        if IsSystem(infos[0]) then rest else Ok([infos[0]] + rest.value)
  }

  /** An entry is kept exactly when it is not a system collection. */
  lemma {:induction false} VisibleCollectionsMembers(infos: seq<Value>)
    requires VisibleCollections(infos).Ok?
    ensures forall x :: x in VisibleCollections(infos).value <==>
                        x in infos && Get(x, "name").Str? && !IsSystem(x)
  {
    if infos != [] {
      VisibleCollectionsMembers(infos[1..]);
      assert infos == [infos[0]] + infos[1..];
      forall x | x in infos ensures Get(x, "name").Str? {
        var i :| 0 <= i < |infos| && infos[i] == x;
      }
    }
  }

  /** One step of the filter, once the first entry has a string name and
      the rest filters without error. */
  lemma VisibleCollectionsStep(s: seq<Value>)
    requires s != [] && Get(s[0], "name").Str? && VisibleCollections(s[1..]).Ok?
    ensures VisibleCollections(s) ==
              if IsSystem(s[0]) then VisibleCollections(s[1..])
              else Ok([s[0]] + VisibleCollections(s[1..]).value)
  {
  }

  /** Filtering a concatenation filters each part: the filter keeps the
      entries' order. */
  lemma {:induction false} VisibleCollectionsAppend(a: seq<Value>, b: seq<Value>)
    requires VisibleCollections(a).Ok? && VisibleCollections(b).Ok?
    ensures VisibleCollections(a + b) == Ok(VisibleCollections(a).value + VisibleCollections(b).value)
  {
    if a == [] {
      assert a + b == b;
      assert VisibleCollections(a).value == [];
      assert [] + VisibleCollections(b).value == VisibleCollections(b).value;
    } else {
      var ab := a + b;
      assert ab[1..] == a[1..] + b;
      assert ab[0] == a[0];
      assert VisibleCollections(a[1..]).Ok?;
      VisibleCollectionsAppend(a[1..], b);
      var x := VisibleCollections(a[1..]).value;
      var y := VisibleCollections(b).value;
      VisibleCollectionsStep(a);
      VisibleCollectionsStep(ab);
      if !IsSystem(a[0]) {
        assert [a[0]] + (x + y) == ([a[0]] + x) + y;
      }
    }
  }

  /** `getCollectionNames`: the names of the visible collections, in order. */
  function CollectionNames(infos: seq<Value>): (r: Result<seq<Value>>)
    ensures r.Ok? <==> VisibleCollections(infos).Ok?
    ensures r.Ok? ==> |r.value| == |VisibleCollections(infos).value|
    ensures r.Ok? ==> forall i :: 0 <= i < |r.value| ==>
              r.value[i] == Get(VisibleCollections(infos).value[i], "name")
  {
    var v := VisibleCollections(infos);
    if v.Err? then Err(v.error)
    else Ok(seq(|v.value|, i requires 0 <= i < |v.value| => Get(v.value[i], "name")))
  }

  /** Every name reported is a string that does not start with `system.`. */
  lemma CollectionNamesVisible(infos: seq<Value>)
    requires CollectionNames(infos).Ok?
    ensures forall n :: n in CollectionNames(infos).value ==> n.Str? && !StartsWith(n.s, "system.")
  {
    var v := VisibleCollections(infos).value;
    VisibleCollectionsMembers(infos);
    forall n | n in CollectionNames(infos).value ensures n.Str? && !StartsWith(n.s, "system.") {
      var i :| 0 <= i < |v| && CollectionNames(infos).value[i] == n;
      assert v[i] in v;
    }
  }

  // ---------------------------------------------------------------------
  // connect
  // ---------------------------------------------------------------------

  datatype Event = ConnectEvent | ErrorEvent(error: Error)

  /** The database's connection state: the cached connection and the
      events it has emitted. */
  class Database {
    const target: Target
    const options: Value
    /** `this.connection`; `null` until a connection attempt succeeds. */
    var connection: Value
    var events: seq<Event>
    /** How many connection attempts have been started. */
    ghost var attempts: nat

    constructor (target: Target, options: Value)
      ensures this.target == ConstructorTarget(target)
      ensures this.options == ConstructorOptions(options)
      ensures connection == Null && events == [] && attempts == 0
    {
      this.target := ConstructorTarget(target);
      this.options := ConstructorOptions(options);
      connection := Null;
      events := [];
      attempts := 0;
    }

    /** `connect()`. A truthy cached connection is returned at once, with no
        attempt. Otherwise `attempt` is the outcome of the attempt the
        target calls for (the driver's `MongoClient.connect` for a URL, the
        mongojs callback, the peer database's `connect`): success caches
        the connection, failure leaves it as it was. Only the URL branch
        emits `error`; the peer branch emits nothing. A `null` or
        `undefined` target throws a TypeError when its `_getConnection` is
        read; for any other target no promise is returned (`None`). */
    method Connect(attempt: Result<Value>) returns (r: Option<Result<Value>>)
      modifies this
      ensures Truthy(old(connection)) ==>
                r == Some(Ok(old(connection))) && connection == old(connection)
                && events == old(events) && attempts == old(attempts)
      ensures !Truthy(old(connection)) && target.Other? ==>
                && r == (if target.v.Null? || target.v.Undefined? then Some(Err(TypeError)) else None)
                && connection == old(connection) && events == old(events) && attempts == old(attempts)
      ensures !Truthy(old(connection)) && !target.Other? ==>
                && r == Some(attempt)
                && attempts == old(attempts) + 1
                && connection == (if attempt.Ok? then attempt.value else old(connection))
                && events == old(events) + (
                     if target.Peer? then []
                     else if attempt.Ok? then [ConnectEvent]
                     else if target.Url? then [ErrorEvent(attempt.error)]
                     else [])
    {
      if Truthy(connection) {
        return Some(Ok(connection));
      }
      if target.Other? {
        if target.v.Null? || target.v.Undefined? {
          return Some(Err(TypeError));
        }
        return None;
      }
      attempts := attempts + 1;
      match attempt {
        case Ok(c) =>
          connection := c;
          if !target.Peer? {
            events := events + [ConnectEvent];
          }
        case Err(e) =>
          if target.Url? {
            events := events + [ErrorEvent(e)];
          }
      }
      return Some(attempt);
    }
  }
}
