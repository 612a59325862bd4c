/** The query table of the Foundry module (`CONFIG.queries`): registering the module's handlers
    under `<module id>.<name>`, removing them again, listing and testing them, and dispatching a
    query by its full key. The table is shared with other modules, so it may hold entries that
    are not this module's and values that are not functions. */
module Registry {
  import opened Js
  import opened Strings
  import opened Ops
  import opened Validation
  import opened Handlers

  /** A value in the table: one of this module's handlers, a function of some other module
      (answering as given), or a value that is not a function. */
  datatype Entry = Handler(op: Op) | Foreign(answer: Outcome) | NotFunction(value: Value)

  predicate IsFunction(e: Entry) {
    !e.NotFunction?
  }

  /** `${modulePrefix}.${name}` */
  function Key(moduleId: string, name: string): (k: string)
    ensures StartsWith(k, moduleId) && StartsWith(k, moduleId + ".")
  {
    moduleId + "." + name
  }

  /** The assignments of `registerHandlers`, in order. */
  function Registrations(): (r: seq<(string, Op)>)
    ensures |r| == RegistrationCount && forall i | 0 <= i < RegistrationCount :: r[i] == Registration(i)
  {
    seq(RegistrationCount, i requires 0 <= i < RegistrationCount => Registration(i))
  }

  /** The table after the assignments `regs`, made in order (a later one overwrites an earlier
      one with the same key). */
  function Registered(base: map<string, Entry>, moduleId: string, regs: seq<(string, Op)>): map<string, Entry>
  {
    if regs == [] then base
    else
      var (name, op) := regs[|regs| - 1];
      Registered(base, moduleId, regs[..|regs| - 1])[Key(moduleId, name) := Handler(op)]
  }

  /** One more assignment extends the table by that key. */
  lemma RegisteredStep(base: map<string, Entry>, moduleId: string, regs: seq<(string, Op)>, i: nat)
    requires i < |regs|
    ensures Registered(base, moduleId, regs[..i + 1])
      == Registered(base, moduleId, regs[..i])[Key(moduleId, regs[i].0) := Handler(regs[i].1)]
  {
    assert regs[..i + 1][..i] == regs[..i];
  }

  /** The table without the keys that start with the module id. */
  function Unregistered(queries: map<string, Entry>, moduleId: string): (r: map<string, Entry>)
    ensures forall k | k in r :: !StartsWith(k, moduleId)
    ensures forall k | k in queries && !StartsWith(k, moduleId) :: k in r && r[k] == queries[k]
    ensures r.Keys <= queries.Keys
  {
    map k | k in queries && !StartsWith(k, moduleId) :: queries[k]
  }

  /** The names the assignments `regs` bind. */
  function Names(regs: seq<(string, Op)>): set<string> {
    set i | 0 <= i < |regs| :: regs[i].0
  }

  class QueryRegistry {
    const moduleId: string
    var queries: map<string, Entry>

    constructor (moduleId: string, queries: map<string, Entry>)
      ensures this.moduleId == moduleId && this.queries == queries
    {
      this.moduleId := moduleId;
      this.queries := queries;
    }

    /** `registerHandlers`: assign every listed key, in order. */
    method RegisterHandlers()
      modifies this
      ensures queries == Registered(old(queries), moduleId, Registrations())
    {
      var regs := Registrations();
      for i := 0 to |regs|
        invariant queries == Registered(old(queries), moduleId, regs[..i])
      {
        var (name, op) := regs[i];
        RegisteredStep(old(queries), moduleId, regs, i);
        queries := queries[Key(moduleId, name) := Handler(op)];
      }
      assert regs[..|regs|] == regs;
    }

    /** `unregisterHandlers`: collect the keys that start with the module id, then delete them
        one by one. */
    method UnregisterHandlers()
      modifies this
      ensures queries == Unregistered(old(queries), moduleId)
    {
      var toRemove := set k | k in queries && StartsWith(k, moduleId);
      var remaining := toRemove;
      while remaining != {}
        invariant remaining <= toRemove
        invariant queries == map k | k in old(queries) && k !in toRemove - remaining :: old(queries)[k]
        decreases |remaining|
      {
        var k :| k in remaining;
        queries := queries - {k};
        remaining := remaining - {k};
      }
      assert forall k :: k in toRemove <==> k in old(queries) && StartsWith(k, moduleId);
    }

    /** `getRegisteredMethods`: the keys that start with the module id, each with its first
        `<module id>.` removed (the listing order is not modelled). */
    function RegisteredMethods(): set<string>
      reads this
    {
      set k | k in queries && StartsWith(k, moduleId) :: ReplaceFirst(k, moduleId + ".", "")
    }

    /** `isMethodRegistered`: the key is present and holds a function. */
    predicate IsMethodRegistered(name: string)
      reads this
    {
      Key(moduleId, name) in queries && IsFunction(queries[Key(moduleId, name)])
    }

    /** `handleQuery`: dispatch by full key; a missing handler and every thrown error become
        `{ error, success: false }`, so the dispatcher itself never throws. The table is a
        plain object, so a name it does not hold itself can still find a method of
        `Object.prototype`, which is then called with the data. */
    function HandleQuery(queryName: string, host: Host, data: Value): (r: Value)
      reads this
      ensures (queryName !in queries && queryName !in PrototypeMethods)
              || (queryName in queries && !IsFunction(queries[queryName])) ==>
        r == ErrorReply(Str("Query handler not found: " + queryName))
      ensures queryName !in queries ==> r == Unowned(queryName, data)
    {
      if queryName in queries && IsFunction(queries[queryName]) then CallEntry(queries[queryName], host, data)
      else if queryName in queries then ErrorReply(Str("Query handler not found: " + queryName))
      else Unowned(queryName, data)
    }
  }

  /** `await handler(data)` for a function the table holds. */
  function CallEntry(e: Entry, host: Host, data: Value): Value
    requires IsFunction(e)
  {
    if e.Handler? then Answer(Run(e.op, host, data).outcome) else Answer(e.answer)
  }

  /** The lookup of a name the table does not hold itself: a method of `Object.prototype`,
      called with the data, or nothing, which gives the not-found reply. */
  function Unowned(queryName: string, data: Value): (r: Value)
    ensures queryName !in PrototypeMethods ==> r == ErrorReply(Str("Query handler not found: " + queryName))
  {
    if queryName in PrototypeMethods then Answer(PrototypeCall(queryName, data))
    else ErrorReply(Str("Query handler not found: " + queryName))
  }

  /** The methods of `Object.prototype` a property read on a plain object finds. (`__proto__`
      is found too, but it is an object and so takes the not-found path.) */
  const PrototypeMethods: set<string> := {
    "constructor", "hasOwnProperty", "isPrototypeOf", "propertyIsEnumerable", "toLocaleString",
    "toString", "valueOf", "__defineGetter__", "__defineSetter__", "__lookupGetter__", "__lookupSetter__"}

  /** The TypeError of converting the missing `this` of an unbound call to an object. */
  const ToObjectMessage := "Cannot convert undefined or null to object"

  /** `handler(data)` for an `Object.prototype` method, called without a receiver: `Object(data)`
      gives back an object argument and a fresh `{}` for null or undefined; `toString` reports
      `[object Undefined]`; `isPrototypeOf` answers false for an argument that is not an object;
      every other method, and `isPrototypeOf` with an object, throws a TypeError because its
      receiver is undefined. */
  function PrototypeCall(name: string, data: Value): Outcome
    requires name in PrototypeMethods
  {
    if name == "constructor" then Returned(if Nullish(data) then Obj(map[]) else data)
    else if name == "toString" then Returned(Str("[object Undefined]"))
    else if name == "isPrototypeOf" && !(data.Arr? || data.Obj?) then Returned(Bool(false))
    else Threw(Error(ToObjectMessage))
  }

  /** What `handleQuery` returns for its handler's outcome: the value, or the error's message. */
  function Answer(outcome: Outcome): Value {
    match outcome
    case Returned(v) => v
    case Threw(t) => ErrorReply(Str(MessageOf(t)))
  }

  // ----- Properties -----

  /** Registration adds a handler entry under the key of every assigned name; every other key
      keeps its entry, and every new key is the key of an assigned name. */
  lemma {:induction false} RegisteredKeys(base: map<string, Entry>, moduleId: string, regs: seq<(string, Op)>)
    ensures forall i | 0 <= i < |regs| :: (Key(moduleId, regs[i].0) in Registered(base, moduleId, regs)
      && Registered(base, moduleId, regs)[Key(moduleId, regs[i].0)].Handler?)
    ensures forall k | k in base && !StartsWith(k, moduleId + ".") ::
      k in Registered(base, moduleId, regs) && Registered(base, moduleId, regs)[k] == base[k]
    ensures base.Keys <= Registered(base, moduleId, regs).Keys
  {
    if regs != [] {
      var init := regs[..|regs| - 1];
      RegisteredKeys(base, moduleId, init);
      assert forall i | 0 <= i < |init| :: regs[i] == init[i];
    }
  }

  /** Every key registration adds is the key of an assigned name. */
  lemma {:induction false} RegisteredKeysAreListed(base: map<string, Entry>, moduleId: string, regs: seq<(string, Op)>, k: string)
    requires k in Registered(base, moduleId, regs) && k !in base
    ensures exists i | 0 <= i < |regs| :: k == Key(moduleId, regs[i].0)
  {
    if regs != [] && k != Key(moduleId, regs[|regs| - 1].0) {
      var init := regs[..|regs| - 1];
      RegisteredKeysAreListed(base, moduleId, init, k);
      var i :| 0 <= i < |init| && k == Key(moduleId, init[i].0);
      assert regs[i] == init[i];
    }
  }

  lemma KeyInjective(moduleId: string, a: string, b: string)
    ensures Key(moduleId, a) == Key(moduleId, b) <==> a == b
  {
    if Key(moduleId, a) == Key(moduleId, b) {
      assert a == Key(moduleId, a)[|moduleId| + 1..];
      assert b == Key(moduleId, b)[|moduleId| + 1..];
    }
  }

  /** A key holds the handler of its last assignment. */
  lemma {:induction false} LastRegistrationWins(base: map<string, Entry>, moduleId: string, regs: seq<(string, Op)>, i: nat)
    requires i < |regs|
    requires forall j | i < j < |regs| :: regs[j].0 != regs[i].0
    ensures Key(moduleId, regs[i].0) in Registered(base, moduleId, regs)
    ensures Registered(base, moduleId, regs)[Key(moduleId, regs[i].0)] == Handler(regs[i].1)
  {
    var n := |regs|;
    if n - 1 != i {
      var init := regs[..n - 1];
      assert init[i] == regs[i];
      LastRegistrationWins(base, moduleId, init, i);
      KeyInjective(moduleId, regs[n - 1].0, regs[i].0);
    }
  }

  /** After the assignments `regs`, every name they bind is registered. */
  lemma AllNamesRegistered(r: QueryRegistry, base: map<string, Entry>, regs: seq<(string, Op)>)
    requires r.queries == Registered(base, r.moduleId, regs)
    ensures forall name | name in Names(regs) :: r.IsMethodRegistered(name)
  {
    RegisteredKeys(base, r.moduleId, regs);
    forall name | name in Names(regs)
      ensures r.IsMethodRegistered(name)
    {
      var i :| 0 <= i < |regs| && regs[i].0 == name;
    }
  }

  /** After `registerHandlers`, both spellings of the token move, `moveToken` and `move-token`,
      are bound to the same handler. */
  lemma MoveTokenAliases(r: QueryRegistry, base: map<string, Entry>)
    requires r.queries == Registered(base, r.moduleId, Registrations())
    ensures Key(r.moduleId, "moveToken") in r.queries && Key(r.moduleId, "move-token") in r.queries
    ensures r.queries[Key(r.moduleId, "moveToken")] == Handler(MoveToken)
    ensures r.queries[Key(r.moduleId, "move-token")] == Handler(MoveToken)
  {
    var regs := Registrations();
    MoveTokenNamesLast();
    assert regs[29] == ("moveToken", MoveToken) && regs[60] == ("move-token", MoveToken);
    assert forall j | 29 < j < |regs| :: regs[j].0 != regs[29].0;
    assert forall j | 60 < j < |regs| :: regs[j].0 != regs[60].0;
    LastRegistrationWins(base, r.moduleId, regs, 29);
    LastRegistrationWins(base, r.moduleId, regs, 60);
  }

  /** On a table with no keys of the module, the listing after the assignments `regs` is
      exactly the names they bind; with `registerHandlers`' own assignments, every name it lists. */
  lemma MethodsAreNames(r: QueryRegistry, base: map<string, Entry>, regs: seq<(string, Op)>)
    requires forall k | k in base :: !StartsWith(k, r.moduleId)
    requires r.queries == Registered(base, r.moduleId, regs)
    ensures r.RegisteredMethods() == Names(regs)
  {
    RegisteredKeys(base, r.moduleId, regs);
    var prefix := r.moduleId + ".";
    forall m | m in r.RegisteredMethods()
      ensures m in Names(regs)
    {
      var k :| k in r.queries && StartsWith(k, r.moduleId) && ReplaceFirst(k, prefix, "") == m;
      RegisteredKeysAreListed(base, r.moduleId, regs, k);
      var i :| 0 <= i < |regs| && k == Key(r.moduleId, regs[i].0);
      ReplaceFirstAtStart(k, prefix, "");
      assert k[|prefix|..] == regs[i].0;
      assert m == regs[i].0;
    }
    forall m | m in Names(regs)
      ensures m in r.RegisteredMethods()
    {
      var i :| 0 <= i < |regs| && regs[i].0 == m;
      var k := Key(r.moduleId, regs[i].0);
      assert k in r.queries && StartsWith(k, r.moduleId);
      ReplaceFirstAtStart(k, prefix, "");
      assert k[|prefix|..] == m;
      assert ReplaceFirst(k, prefix, "") == m;
    }
  }

  /** Every name stored under its full key is listed by `getRegisteredMethods`, whether or not
      `isMethodRegistered` accepts it: a key holding a value that is not a function is listed
      but not registered. */
  lemma ListedWhenStored(r: QueryRegistry, name: string)
    ensures Key(r.moduleId, name) in r.queries ==> name in r.RegisteredMethods()
    ensures r.IsMethodRegistered(name) ==> name in r.RegisteredMethods()
    ensures Key(r.moduleId, name) in r.queries && r.queries[Key(r.moduleId, name)].NotFunction? ==>
      name in r.RegisteredMethods() && !r.IsMethodRegistered(name)
  {
    var k := Key(r.moduleId, name);
    var prefix := r.moduleId + ".";
    if k in r.queries {
      ReplaceFirstAtStart(k, prefix, "");
      assert k[|prefix|..] == name;
      assert ReplaceFirst(k, prefix, "") == name;
    }
  }

  /** Unregistering after registering gives back a table with no keys of the module. */
  lemma UnregisterUndoesRegister(base: map<string, Entry>, moduleId: string, regs: seq<(string, Op)>)
    requires forall k | k in base :: !StartsWith(k, moduleId)
    ensures Unregistered(Registered(base, moduleId, regs), moduleId) == base
  {
    var q := Registered(base, moduleId, regs);
    RegisteredKeys(base, moduleId, regs);
    forall k | k in q && k !in base
      ensures StartsWith(k, moduleId)
    {
      RegisteredKeysAreListed(base, moduleId, regs, k);
    }
  }

  /** `unregisterHandlers` tests the prefix without its dot, so it also removes the keys of any
      other module whose id extends this one (`foundry-mcp-bridge-extra.x` with module id
      `foundry-mcp-bridge`). */
  lemma LookalikeKeysRemoved(queries: map<string, Entry>, moduleId: string, suffix: string)
    requires suffix != "" && suffix[0] != '.'
    ensures moduleId + suffix !in Unregistered(queries, moduleId)
  {
    assert (moduleId + suffix)[..|moduleId|] == moduleId;
  }

  /** A key the table holds as a non-function, and a missing key that names no method of
      `Object.prototype`, give the not-found reply. */
  lemma MissingHandler(r: QueryRegistry, name: string, host: Host, data: Value)
    requires (name !in r.queries && name !in PrototypeMethods) || (name in r.queries && r.queries[name].NotFunction?)
    ensures r.HandleQuery(name, host, data) == ErrorReply(Str("Query handler not found: " + name))
  {
  }

  /** A missing key that names a method of `Object.prototype` is answered by that method:
      `constructor` echoes object data (and answers `{}` for null or undefined),
      `toString` answers `[object Undefined]`, `isPrototypeOf` answers false for data that is
      not an object, and every other method gives an error reply. */
  lemma InheritedNamesAnswer(r: QueryRegistry, name: string, host: Host, data: Value)
    requires name !in r.queries && name in PrototypeMethods
    ensures var reply := r.HandleQuery(name, host, data);
      (name == "constructor" ==> reply == (if Nullish(data) then Obj(map[]) else data))
      && (name == "toString" ==> reply == Str("[object Undefined]"))
      && (name == "isPrototypeOf" && !(data.Arr? || data.Obj?) ==> reply == Bool(false))
      && (name != "constructor" && name != "toString" && !(name == "isPrototypeOf" && !(data.Arr? || data.Obj?))
          ==> reply == ErrorReply(Str(ToObjectMessage)))
  {
    assert r.HandleQuery(name, host, data) == Unowned(name, data);
  }

  /** Through the dispatcher, a non-GM caller of a guarded handler gets the access-denied
      object, and the compendium update's refusal arrives as `{ error, success: false }`. */
  lemma DispatchRefusesNonGm(r: QueryRegistry, name: string, host: Host, data: Value)
    requires name in r.queries && r.queries[name].Handler?
    requires !host.isGM && Guarded(r.queries[name].op)
    requires !(r.queries[name].op.UploadGeneratedMap? && Nullish(data))
    ensures r.queries[name].op.UpdateCompendiumEntry? ==>
      r.HandleQuery(name, host, data) == ErrorReply(Str("Only GM can update compendium entries"))
    ensures !r.queries[name].op.UpdateCompendiumEntry? ==> r.HandleQuery(name, host, data) == AccessDenied()
  {
    var op := r.queries[name].op;
    if op.UpdateCompendiumEntry? {
      CompendiumUpdateGuard(host, data);
    } else {
      GuardBeforeEverything(op, host, data);
    }
  }

  /** Through the dispatcher, a failed field check of a GM call becomes
      `{ error: 'Failed to <operation>: <message>', success: false }`. */
  lemma DispatchReportsInvalid(r: QueryRegistry, name: string, host: Host, data: Value)
    requires name in r.queries && r.queries[name].Handler?
    requires var op := r.queries[name].op;
      host.isGM && Wrapped(op) && !op.UpdateCompendiumEntry? && Validate(op, data).Invalid?
      && (ChecksState(op) ==> host.respond(StateCheck).Returned?)
    ensures var op := r.queries[name].op;
      r.HandleQuery(name, host, data) ==
        ErrorReply(Str("Failed to " + Label(op) + ": " + Validate(op, data).message))
  {
    var op := r.queries[name].op;
    InvalidIsWrapped(op, host, data);
    var outcome := Run(op, host, data).outcome;
    assert r.HandleQuery(name, host, data) == Answer(outcome);
  }
}
