/** Cloner.Make of CloneCore (Clone.cs): the runtime entry point that clones an object through
    the Clone method generated for its class. Make keys a cache by the runtime type of its
    argument; on a miss it checks that the type implements IClone<T> for the static type T and
    declares a method named Clone, throws if not, and otherwise builds an expression tree that
    allocates a fresh instance of the runtime type and calls that Clone method on the source
    with the fresh instance as its argument. Building the tree throws when the type has no
    parameterless constructor or the Clone method cannot be called that way; otherwise the
    compiled routine is cached, run on the source and its result returned. Types are identified
    by their full names; reflection answers are fields of RuntimeType. */
module Clone {
  import opened Symbols

  /** A method as GetMethods reports it: its name, the full name of its declaring type, the full
      names of its parameter types (overloads share a name) and whether it is static. */
  datatype MethodInfo = MethodInfo(name: string, declaringType: string, parameterTypes: seq<string>, isStatic: bool)

  /** A runtime type: its full name, its base classes up to System.Object, every interface it
      implements (GetInterfaces), its public methods, inherited ones included (GetMethods), in
      reflection order, and whether it has a parameterless constructor. */
  datatype RuntimeType = RuntimeType(name: string, baseTypes: seq<string>, interfaces: seq<string>,
                                     methods: seq<MethodInfo>, hasDefaultConstructor: bool)

  /** The compiled Func<object, object> stored for a type: the type it instantiates and the Clone
      method it calls on the source. */
  datatype Routine = Routine(target: RuntimeType, cloneMethod: MethodInfo)

  /** An object handed to Make; its runtime type never changes. */
  class Instance {
    const runtimeType: RuntimeType

    constructor (runtimeType: RuntimeType)
      ensures this.runtimeType == runtimeType
    {
      this.runtimeType := runtimeType;
    }
  }

  /** Why a call of Make on a non-null argument fails: the check of the interface and the Clone
      method, Expression.New, or Expression.Call. */
  datatype MakeError = NotCloneable | NoParameterlessConstructor | CloneSignatureMismatch

  /** What a call of Make ends in: a returned value (null for a null argument), the exception Make
      throws itself, with its message, or an exception raised while the expression tree is built,
      whose message comes from the expression library. */
  datatype Outcome = Returned(value: Instance?) | Threw(message: string) | TreeFailed(error: MakeError)

  const CloneMethodName := "Clone"

  /** The full name of IClone<T> for the static type argument T. */
  function CloneInterface(staticType: string): string
  {
    "Clone.IClone<" + staticType + ">"
  }

  predicate IsOwnClone(m: MethodInfo, typeName: string)
  {
    m.declaringType == typeName && m.name == CloneMethodName
  }

  /** No method before position `k` is a Clone method of the type itself. */
  predicate NoOwnCloneBefore(ms: seq<MethodInfo>, k: nat, typeName: string)
    requires k <= |ms|
  {
    forall j | 0 <= j < k :: !IsOwnClone(ms[j], typeName)
  }

  /** FirstOrDefault over the methods: the first one named Clone that the type itself declares. */
  function FindCloneMethod(ms: seq<MethodInfo>, typeName: string): (r: Option<MethodInfo>)
    ensures r.None? <==> NoOwnCloneBefore(ms, |ms|, typeName)
    ensures r.Some? ==> exists k | 0 <= k < |ms| ::
      ms[k] == r.value && IsOwnClone(ms[k], typeName) && NoOwnCloneBefore(ms, k, typeName)
  {
    if ms == [] then None
    else if IsOwnClone(ms[0], typeName) then
      assert NoOwnCloneBefore(ms, 0, typeName);
      Some(ms[0])
    else
      var r := FindCloneMethod(ms[1..], typeName);
      assert forall k | 1 <= k <= |ms| :: NoOwnCloneBefore(ms, k, typeName) == NoOwnCloneBefore(ms[1..], k - 1, typeName);
      r
  }

  /** The check made on a cache miss: the type implements IClone<T> for the static T and declares
      its own Clone method. */
  predicate Cloneable(typ: RuntimeType, staticType: string)
  {
    CloneInterface(staticType) in typ.interfaces && FindCloneMethod(typ.methods, typ.name).Some?
  }

  function ErrorMessage(typ: RuntimeType): string
  {
    typ.name + " isn't cloneable object"
  }

  /** A value of runtime type `typ` can be passed for a parameter of type `paramType`. */
  predicate Accepts(paramType: string, typ: RuntimeType)
  {
    paramType == typ.name || paramType in typ.baseTypes || paramType in typ.interfaces
  }

  /** Expression.Call accepts `m` on an instance of `typ` with one argument of type `typ`: an
      instance method with exactly one parameter that takes a `typ`. */
  predicate CallFits(typ: RuntimeType, m: MethodInfo)
  {
    !m.isStatic && |m.parameterTypes| == 1 && Accepts(m.parameterTypes[0], typ)
  }

  /** The expression tree for `typ` and its Clone method `m` can be built: Expression.New needs a
      parameterless constructor, Expression.Call a fitting method. */
  predicate Compiles(typ: RuntimeType, m: MethodInfo)
  {
    typ.hasDefaultConstructor && CallFits(typ, m)
  }

  /** A call on a cache miss goes through: the check passes and the tree can be built. */
  predicate Accepted(typ: RuntimeType, staticType: string)
  {
    Cloneable(typ, staticType) && Compiles(typ, FindCloneMethod(typ.methods, typ.name).value)
  }

  /** The routine a call uses, or why it fails. */
  datatype Lookup = Use(routine: Routine) | Fail(error: MakeError)

  /** The cache lookup of one non-null call: its lookup result and the cache afterwards. */
  datatype Resolution = Resolution(lookup: Lookup, cache: map<RuntimeType, Routine>)

  /** One cache lookup of Make on a non-null argument; only a miss can fail, and a failure
      leaves the cache as it was. */
  function Resolve(cache: map<RuntimeType, Routine>, staticType: string, typ: RuntimeType): (r: Resolution)
    ensures r.lookup.Fail? ==> typ !in cache && r.cache == cache
  {
    if typ in cache then Resolution(Use(cache[typ]), cache)
    else if !Cloneable(typ, staticType) then Resolution(Fail(NotCloneable), cache)
    else
      var m := FindCloneMethod(typ.methods, typ.name).value;
      if !typ.hasDefaultConstructor then Resolution(Fail(NoParameterlessConstructor), cache)
      else if !CallFits(typ, m) then Resolution(Fail(CloneSignatureMismatch), cache)
      else Resolution(Use(Routine(typ, m)), cache[typ := Routine(typ, m)])
  }

  /** Every stored routine instantiates the type it is stored under and calls a Clone method that
      type declares and that the expression tree could call. */
  predicate CacheValid(cache: map<RuntimeType, Routine>)
  {
    forall typ | typ in cache ::
      && cache[typ].target == typ && IsOwnClone(cache[typ].cloneMethod, typ.name)
      && Compiles(typ, cache[typ].cloneMethod)
  }

  /** A call goes through exactly when its runtime type is cached already or passes the check
      and the tree can be built; a failure on a miss names the first step that fails, in the
      order Make takes them. */
  lemma ResolveSucceeds(cache: map<RuntimeType, Routine>, staticType: string, typ: RuntimeType)
    ensures Resolve(cache, staticType, typ).lookup.Use? <==> typ in cache || Accepted(typ, staticType)
    ensures typ !in cache ==>
      (Resolve(cache, staticType, typ).lookup == Fail(NotCloneable) <==> !Cloneable(typ, staticType))
    ensures typ !in cache && Cloneable(typ, staticType) ==>
      (Resolve(cache, staticType, typ).lookup == Fail(NoParameterlessConstructor) <==> !typ.hasDefaultConstructor)
    ensures typ !in cache && Cloneable(typ, staticType) && typ.hasDefaultConstructor ==>
      (Resolve(cache, staticType, typ).lookup == Fail(CloneSignatureMismatch)
       <==> !CallFits(typ, FindCloneMethod(typ.methods, typ.name).value))
  {
  }

  /** A cached type skips the check: whatever the static type, the stored routine is reused and
      the cache stays as it is. */
  lemma ResolveHit(cache: map<RuntimeType, Routine>, staticType: string, typ: RuntimeType)
    requires typ in cache
    ensures Resolve(cache, staticType, typ) == Resolution(Use(cache[typ]), cache)
  {
  }

  /** A failed call leaves the cache unchanged; a successful one leaves the type cached. */
  lemma ResolveCacheEffect(cache: map<RuntimeType, Routine>, staticType: string, typ: RuntimeType)
    ensures var r := Resolve(cache, staticType, typ);
      && (r.lookup.Fail? ==> r.cache == cache)
      && (r.lookup.Use? ==> typ in r.cache && r.cache[typ] == r.lookup.routine)
      && r.cache.Keys == cache.Keys + (if r.lookup.Use? then {typ} else {})
  {
  }

  /** No entry is ever overwritten or removed. */
  lemma ResolveKeepsEntries(cache: map<RuntimeType, Routine>, staticType: string, typ: RuntimeType)
    ensures forall k | k in cache ::
      (k in Resolve(cache, staticType, typ).cache && Resolve(cache, staticType, typ).cache[k] == cache[k])
  {
  }

  /** The cache stays valid, and the routine used instantiates the runtime type of the argument
      and calls a Clone method the tree can call, so the cast back to T is to the object's own
      type. */
  lemma ResolveKeepsValid(cache: map<RuntimeType, Routine>, staticType: string, typ: RuntimeType)
    requires CacheValid(cache)
    ensures CacheValid(Resolve(cache, staticType, typ).cache)
    ensures Resolve(cache, staticType, typ).lookup.Use? ==>
      && Resolve(cache, staticType, typ).lookup.routine.target == typ
      && Compiles(typ, Resolve(cache, staticType, typ).lookup.routine.cloneMethod)
  {
    if typ !in cache && Cloneable(typ, staticType) {
      var m := FindCloneMethod(typ.methods, typ.name).value;
      assert IsOwnClone(m, typ.name);
    }
  }

  /** The class the generator emits for `A`: its Clone method takes no parameter (it allocates
      and returns the copy itself), so even with IClone<A> implemented and a parameterless
      constructor, Make on an `A` fails at Expression.Call and caches nothing. */
  lemma GeneratedCloneIsRejected(cache: map<RuntimeType, Routine>)
    ensures var a := RuntimeType("A", ["System.Object"], [CloneInterface("A")],
                                 [MethodInfo("Clone", "A", [], false)], true);
      a !in cache ==> Resolve(cache, "A", a) == Resolution(Fail(CloneSignatureMismatch), cache)
  {
    var a := RuntimeType("A", ["System.Object"], [CloneInterface("A")], [MethodInfo("Clone", "A", [], false)], true);
    assert Cloneable(a, "A");
  }

  /** One call of Make: the static type argument and the runtime type of a non-null argument. */
  datatype Call = Call(staticType: string, typ: RuntimeType)

  /** The cache after a sequence of non-null calls, each starting from the previous one's cache. */
  function Run(cache: map<RuntimeType, Routine>, calls: seq<Call>): map<RuntimeType, Routine>
  {
    if calls == [] then cache
    else
      var last := calls[|calls| - 1];
      Resolve(Run(cache, calls[..|calls| - 1]), last.staticType, last.typ).cache
  }

  /** Along any sequence of calls the cache only grows. */
  lemma {:induction false} RunKeepsEntries(cache: map<RuntimeType, Routine>, calls: seq<Call>)
    ensures forall k | k in cache :: k in Run(cache, calls) && Run(cache, calls)[k] == cache[k]
  {
    if calls != [] {
      var last := calls[|calls| - 1];
      var before := Run(cache, calls[..|calls| - 1]);
      RunKeepsEntries(cache, calls[..|calls| - 1]);
      ResolveKeepsEntries(before, last.staticType, last.typ);
    }
  }

  /** A type ends up cached exactly when it was cached at the start or some call with it passed
      the check for that call's static type and its tree could be built. */
  lemma {:induction false} RunCachedTypes(cache: map<RuntimeType, Routine>, calls: seq<Call>, typ: RuntimeType)
    ensures typ in Run(cache, calls) <==>
      typ in cache || exists k | 0 <= k < |calls| :: calls[k].typ == typ && Accepted(typ, calls[k].staticType)
  {
    if calls != [] {
      var n := |calls| - 1;
      var init := calls[..n];
      RunCachedTypes(cache, init, typ);
      ResolveCacheEffect(Run(cache, init), calls[n].staticType, calls[n].typ);
      assert forall k | 0 <= k < n :: init[k] == calls[k];
    }
  }

  /** The outcome of a call depends on the calls before it, because the check uses the static
      type but the cache is keyed by the runtime type: an MChild passed as a Child is rejected on
      its own, yet accepted after an MChild passed as an MChild has been cached. */
  lemma CheckDependsOnHistory()
    ensures var mchild := RuntimeType("MChild", ["Child", "System.Object"], [CloneInterface("MChild")],
                                      [MethodInfo("Clone", "MChild", ["MChild"], false)], true);
      && Resolve(map[], "Child", mchild).lookup == Fail(NotCloneable)
      && Resolve(Run(map[], [Call("MChild", mchild)]), "Child", mchild).lookup.Use?
  {
    var mchild := RuntimeType("MChild", ["Child", "System.Object"], [CloneInterface("MChild")],
                              [MethodInfo("Clone", "MChild", ["MChild"], false)], true);
    assert CloneInterface("Child") != CloneInterface("MChild") by {
      assert CloneInterface("Child")[13] != CloneInterface("MChild")[13];
    }
    assert Cloneable(mchild, "MChild");
    assert [Call("MChild", mchild)][..0] == [];
  }

  /** Runs a compiled routine: allocates a fresh instance of the routine's type and returns it
      after the source's Clone method has been called with it. */
  method Invoke(routine: Routine, source: Instance) returns (target: Instance)
    ensures fresh(target) && target.runtimeType == routine.target
  {
    target := new Instance(routine.target);
  }

  /** The holder of the process-wide cache. */
  class Cloner {
    var cache: map<RuntimeType, Routine>

    constructor ()
      ensures cache == map[] && Valid()
    {
      cache := map[];
    }

    predicate Valid()
      reads this
    {
      CacheValid(cache)
    }

    /** Cloner.Make<T>: `staticType` is T. */
    method Make(staticType: string, t: Instance?) returns (r: Outcome)
      requires Valid()
      modifies this
      ensures Valid()
      ensures t == null ==> r == Returned(null) && cache == old(cache)
      ensures t != null ==>
        var s := Resolve(old(cache), staticType, t.runtimeType);
        && cache == s.cache
        && (s.lookup == Fail(NotCloneable) ==> r == Threw(ErrorMessage(t.runtimeType)))
        && (s.lookup.Fail? && s.lookup.error != NotCloneable ==> r == TreeFailed(s.lookup.error))
        && (s.lookup.Use? ==>
              r.Returned? && r.value != null && fresh(r.value) && r.value != t
              && r.value.runtimeType == t.runtimeType)
    {
      if t == null {
        return Returned(null);
      }
      var typ := t.runtimeType;
      ResolveKeepsValid(cache, staticType, typ);
      var routine: Routine;
      if typ in cache {
        routine := cache[typ];
      } else {
        var itf := CloneInterface(staticType) in typ.interfaces;
        var methodInfo := FindCloneMethod(typ.methods, typ.name);
        if !itf || methodInfo.None? {
          return Threw(ErrorMessage(typ));
        }
        if !typ.hasDefaultConstructor {
          return TreeFailed(NoParameterlessConstructor);
        }
        if !CallFits(typ, methodInfo.value) {
          return TreeFailed(CloneSignatureMismatch);
        }
        routine := Routine(typ, methodInfo.value);
        cache := cache[typ := routine];
      }
      var target := Invoke(routine, t);
      r := Returned(target);
    }
  }
}
