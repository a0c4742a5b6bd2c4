/** `getMethod`, `invokeMethod` and `invokeMethodQuietly`: finding a method by
    name (and optionally parameter types) in a class or its superclasses, and
    calling it, with reflective failure turned into an error or into null. */
module BeanMethods {
  import opened Results
  import opened BeanModel

  /** The first argument of `getMethod`: an object, or a `Class` object that
      names the class to search. */
  datatype Receiver = Instance(obj: Bean) | ClassObject(cls: BeanClass)

  /** The class searched for a receiver (`obj instanceof Class`). */
  function ClassOf(obj: Receiver): BeanClass
  {
    match obj
    case Instance(b) => b.cls
    case ClassObject(c) => c
  }

  /** The outcome of `Method.invoke`: a returned value, or a thrown exception. */
  datatype Invocation = Returned(v: Value) | Threw

  /** A method matching the search: its name, and its parameter types when given. */
  predicate Matches(m: MethodInfo, methodName: Name, paraTypes: Option<seq<TypeTag>>)
  {
    m.name == methodName && (paraTypes.None? || m.paramTypes == paraTypes.value)
  }

  /** The first matching method of a list. */
  function FirstMatch(ms: seq<MethodInfo>, methodName: Name, paraTypes: Option<seq<TypeTag>>): (r: Option<MethodInfo>)
    ensures r.None? <==> forall i :: 0 <= i < |ms| ==> !Matches(ms[i], methodName, paraTypes)
    ensures r.Some? ==> exists i :: && 0 <= i < |ms| && ms[i] == r.value && Matches(ms[i], methodName, paraTypes)
                                    && forall j :: 0 <= j < i ==> !Matches(ms[j], methodName, paraTypes)
  {
    if ms == [] then None
    else if Matches(ms[0], methodName, paraTypes) then Some(ms[0])
    else
      var r := FirstMatch(ms[1..], methodName, paraTypes);
      assert forall i :: 0 < i < |ms| ==> ms[i] == ms[1..][i - 1];
      assert r.Some? ==> exists i :: && 0 <= i < |ms| - 1 && ms[1..][i] == r.value
                                     && forall j :: 0 <= j < i ==> !Matches(ms[1..][j], methodName, paraTypes);
      r
  }

  /** The declared methods of a class and then of each superclass in turn. */
  function Chain(c: BeanClass): seq<MethodInfo>
    decreases c
  {
    c.declaredMethods + (if c.superclass.None? then [] else Chain(c.superclass.value))
  }

  /** The number of classes from `c` up to the root. */
  function Depth(c: BeanClass): nat
    decreases c
  {
    1 + (if c.superclass.None? then 0 else Depth(c.superclass.value))
  }

  /** The search of one class: `getDeclaredMethod(methodName, paraTypes)` when
      parameter types are given, otherwise the loop over `getDeclaredMethods()`
      that stops at the first method of that name. */
  method FindDeclared(clazz: BeanClass, methodName: Name, paraTypes: Option<seq<TypeTag>>)
    returns (m: Option<MethodInfo>)
    ensures m == FirstMatch(clazz.declaredMethods, methodName, paraTypes)
  {
    if paraTypes.Some? {
      return FirstMatch(clazz.declaredMethods, methodName, paraTypes);
    }
    m := None;
    var methods := clazz.declaredMethods;
    for i := 0 to |methods|
      invariant forall j :: 0 <= j < i ==> methods[j].name != methodName
    {
      if methods[i].name == methodName {
        m := Some(methods[i]);
        FirstMatchAt(methods, methodName, paraTypes, i);
        return;
      }
    }
  }

  /** `getMethod(obj, methodName, paraTypes)`: null for a null object or name;
      otherwise the first match in the class's own declared methods, else the
      result of searching the superclass, and null past the root. */
  method GetMethod(obj: Option<Receiver>, methodName: Option<Name>, paraTypes: Option<seq<TypeTag>>)
    returns (m: Option<MethodInfo>)
    ensures obj.None? || methodName.None? ==> m.None?
    ensures obj.Some? && methodName.Some? ==> m == FirstMatch(Chain(ClassOf(obj.value)), methodName.value, paraTypes)
    decreases if obj.None? then 0 else Depth(ClassOf(obj.value))
  {
    if obj.None? || methodName.None? {
      return None;
    }
    var clazz := ClassOf(obj.value);
    m := FindDeclared(clazz, methodName.value, paraTypes);
    FirstMatchAppend(clazz.declaredMethods, if clazz.superclass.None? then [] else Chain(clazz.superclass.value),
                     methodName.value, paraTypes);
    if m.None? {
      var superObj := if clazz.superclass.None? then None else Some(ClassObject(clazz.superclass.value));
      m := GetMethod(superObj, methodName, paraTypes);
    }
  }

  /** `getMethod(obj, methodName)`: the search by name alone. */
  method GetMethodByName(obj: Option<Receiver>, methodName: Option<Name>) returns (m: Option<MethodInfo>)
    ensures obj.None? || methodName.None? ==> m.None?
    ensures obj.Some? && methodName.Some? ==> m == FirstMatch(Chain(ClassOf(obj.value)), methodName.value, None)
  {
    m := GetMethod(obj, methodName, None);
  }

  /** `invokeMethod(obj, method, args)`: null for a null object or method,
      otherwise what the call returns; a failed or throwing call is an error. */
  function InvokeMethod(obj: Option<Receiver>, meth: Option<MethodInfo>, args: seq<Value>,
                        invoke: (Receiver, MethodInfo, seq<Value>) -> Invocation): (r: Result<Value, BeanError>)
    ensures r.Err? <==> obj.Some? && meth.Some? && invoke(obj.value, meth.value, args).Threw?
    ensures r.Err? ==> r.error == InvocationError
    ensures obj.None? || meth.None? ==> r == Ok(Null)
    ensures obj.Some? && meth.Some? && r.Ok? ==> invoke(obj.value, meth.value, args) == Returned(r.value)
  {
    if obj.None? || meth.None? then Ok(Null)
    else
      match invoke(obj.value, meth.value, args)
      case Returned(v) => Ok(v)
      case Threw => Err(InvocationError)
  }

  /** `invokeMethod(obj, methodName, args)`: null for a null object or name,
      an error when no method of that name is found, else the call. */
  method InvokeMethodByName(obj: Option<Receiver>, methodName: Option<Name>, args: seq<Value>,
                            invoke: (Receiver, MethodInfo, seq<Value>) -> Invocation)
    returns (r: Result<Value, BeanError>)
    ensures obj.None? || methodName.None? ==> r == Ok(Null)
    ensures obj.Some? && methodName.Some? ==>
              var found := FirstMatch(Chain(ClassOf(obj.value)), methodName.value, None);
              r == if found.None? then Err(NoSuchMethod(methodName.value)) else InvokeMethod(obj, found, args, invoke)
  {
    if obj.None? || methodName.None? {
      return Ok(Null);
    }
    var meth := GetMethodByName(obj, methodName);
    if meth.None? {
      return Err(NoSuchMethod(methodName.value));
    }
    r := InvokeMethod(obj, meth, args, invoke);
  }

  /** `invokeMethodQuietly(obj, method, args)`: every failure becomes null. */
  function InvokeMethodQuietly(obj: Option<Receiver>, meth: Option<MethodInfo>, args: seq<Value>,
                               invoke: (Receiver, MethodInfo, seq<Value>) -> Invocation): (r: Value)
    ensures InvokeMethod(obj, meth, args, invoke).Ok? ==> r == InvokeMethod(obj, meth, args, invoke).value
    ensures InvokeMethod(obj, meth, args, invoke).Err? ==> r == Null
  {
    match InvokeMethod(obj, meth, args, invoke)
    case Ok(v) => v
    case Err(_) => Null
  }

  /** `invokeMethodQuietly(obj, methodName, args)`: every failure, a missing
      method included, becomes null. */
  method InvokeMethodQuietlyByName(obj: Option<Receiver>, methodName: Option<Name>, args: seq<Value>,
                                   invoke: (Receiver, MethodInfo, seq<Value>) -> Invocation)
    returns (r: Value)
    ensures obj.Some? && methodName.Some? && FirstMatch(Chain(ClassOf(obj.value)), methodName.value, None).None? ==> r == Null
    ensures obj.Some? && methodName.Some? ==>
              var found := FirstMatch(Chain(ClassOf(obj.value)), methodName.value, None);
              found.Some? ==> r == InvokeMethodQuietly(obj, found, args, invoke)
    ensures obj.None? || methodName.None? ==> r == Null
  {
    var res := InvokeMethodByName(obj, methodName, args, invoke);
    r := if res.Ok? then res.value else Null;
  }

  // ---------------------------------------------------------------- properties

  lemma FirstMatchAt(ms: seq<MethodInfo>, methodName: Name, paraTypes: Option<seq<TypeTag>>, i: nat)
    requires i < |ms| && Matches(ms[i], methodName, paraTypes)
    requires forall j :: 0 <= j < i ==> !Matches(ms[j], methodName, paraTypes)
    ensures FirstMatch(ms, methodName, paraTypes) == Some(ms[i])
  {
  }

  /** Searching a concatenation searches the first part, then the second. */
  lemma {:induction false} FirstMatchAppend(a: seq<MethodInfo>, b: seq<MethodInfo>, methodName: Name,
                                            paraTypes: Option<seq<TypeTag>>)
    ensures FirstMatch(a + b, methodName, paraTypes)
            == if FirstMatch(a, methodName, paraTypes).Some? then FirstMatch(a, methodName, paraTypes)
               else FirstMatch(b, methodName, paraTypes)
  {
    if a != [] {
      assert (a + b)[1..] == a[1..] + b;
      FirstMatchAppend(a[1..], b, methodName, paraTypes);
    } else {
      assert a + b == b;
    }
  }

  /** A method the search finds is declared in the class or a superclass and
      matches. */
  lemma FoundMatches(c: BeanClass, methodName: Name, paraTypes: Option<seq<TypeTag>>)
    ensures var r := FirstMatch(Chain(c), methodName, paraTypes);
            r.Some? ==> r.value in Chain(c) && r.value.name == methodName
                        && (paraTypes.Some? ==> r.value.paramTypes == paraTypes.value)
  {
  }

  /** The class's own matching method wins over every superclass method. */
  lemma OwnMethodShadows(c: BeanClass, methodName: Name, paraTypes: Option<seq<TypeTag>>)
    requires FirstMatch(c.declaredMethods, methodName, paraTypes).Some?
    ensures FirstMatch(Chain(c), methodName, paraTypes) == FirstMatch(c.declaredMethods, methodName, paraTypes)
  {
    FirstMatchAppend(c.declaredMethods, if c.superclass.None? then [] else Chain(c.superclass.value), methodName, paraTypes);
  }

  /** Without an own match the search is the superclass's search, and a class
      without a superclass then finds nothing. */
  lemma InheritedFromSuperclass(c: BeanClass, methodName: Name, paraTypes: Option<seq<TypeTag>>)
    requires FirstMatch(c.declaredMethods, methodName, paraTypes).None?
    ensures c.superclass.None? ==> FirstMatch(Chain(c), methodName, paraTypes).None?
    ensures c.superclass.Some? ==>
              FirstMatch(Chain(c), methodName, paraTypes) == FirstMatch(Chain(c.superclass.value), methodName, paraTypes)
  {
    FirstMatchAppend(c.declaredMethods, if c.superclass.None? then [] else Chain(c.superclass.value), methodName, paraTypes);
  }

  /** Giving parameter types can only narrow the search: a method found with
      them has the name; when the name alone finds a method with exactly those
      parameter types, both searches agree. */
  lemma ParaTypesNarrow(ms: seq<MethodInfo>, methodName: Name, paraTypes: seq<TypeTag>)
    requires FirstMatch(ms, methodName, None).Some?
    requires FirstMatch(ms, methodName, None).value.paramTypes == paraTypes
    ensures FirstMatch(ms, methodName, Some(paraTypes)) == FirstMatch(ms, methodName, None)
  {
    var i :| && 0 <= i < |ms| && ms[i] == FirstMatch(ms, methodName, None).value && Matches(ms[i], methodName, None)
             && forall j :: 0 <= j < i ==> !Matches(ms[j], methodName, None);
    FirstMatchAt(ms, methodName, Some(paraTypes), i);
  }

  // ---------------------------------------------------------------- a worked example

  const TO_STRING: MethodInfo := MethodInfo("toString", [])
  const GET_ID: MethodInfo := MethodInfo("getId", [])
  const SET_ID_INT: MethodInfo := MethodInfo("setId", [TypeTag("int")])
  const SET_ID_LONG: MethodInfo := MethodInfo("setId", [TypeTag("long")])
  const GRANDPARENT: BeanClass := BeanClass("Base", [], [TO_STRING, SET_ID_LONG], None)
  const PARENT: BeanClass := BeanClass("Entity", [], [GET_ID], Some(GRANDPARENT))
  const CHILD: BeanClass := BeanClass("User", [], [SET_ID_INT], Some(PARENT))

  lemma ChildChain()
    ensures Chain(CHILD) == [SET_ID_INT, GET_ID, TO_STRING, SET_ID_LONG]
  {
    assert Chain(GRANDPARENT) == [TO_STRING, SET_ID_LONG];
    assert Chain(PARENT) == [GET_ID, TO_STRING, SET_ID_LONG];
  }

  /** Searching `User` for `toString` finds it two classes up. */
  lemma InheritedExample()
    ensures FirstMatch(Chain(CHILD), "toString", None) == Some(TO_STRING)
  {
    ChildChain();
    FirstMatchAt(Chain(CHILD), "toString", None, 2);
  }

  /** Searching for `setId(long)` skips the child's `setId(int)`, while the
      name alone finds the child's. */
  lemma ParaTypesExample()
    ensures FirstMatch(Chain(CHILD), "setId", Some([TypeTag("long")])) == Some(SET_ID_LONG)
    ensures FirstMatch(Chain(CHILD), "setId", None) == Some(SET_ID_INT)
  {
    ChildChain();
    FirstMatchAt(Chain(CHILD), "setId", Some([TypeTag("long")]), 3);
    FirstMatchAt(Chain(CHILD), "setId", None, 0);
  }

  /** A name no class in the chain declares finds nothing. */
  lemma MissingExample()
    ensures FirstMatch(Chain(CHILD), "missing", None).None?
  {
    ChildChain();
  }
}
