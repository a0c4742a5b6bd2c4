/** The reflective view of a Java bean that BeanUtil works on, with the
    descriptor table of a class and the queries over it.

    A class is given by what the JDK would discover about it: the property
    descriptors `Introspector` reports, the declared methods in declaration
    order, and the superclass. An object is an instance of a class whose
    property state is a store from name to value: a read accessor returns the
    stored value and a write accessor replaces it. An accessor either works or
    raises, which is all the model keeps of reflective invocation. */
module BeanModel {
  import opened Results

  type Name = string

  /** The pseudo-property every Java object has through `getClass()`. */
  const CLASS_PROPERTY: Name := "class"

  /** Property values; `Null` is Java's null. */
  /** The boxed class of an integral value: `equals` on two boxes of different
      classes is false even when their numbers agree. */
  datatype IntClass = JByte | JShort | JInteger | JLong | JBigInteger

  datatype Value = Null | IntValue(boxed: IntClass, i: int) | BoolValue(b: bool) | StringValue(s: string) | ObjectValue(id: nat)

  /** A declared Java type, identified by its name. */
  datatype TypeTag = TypeTag(typeName: string)

  /** A read or write accessor method; `raises` says its invocation throws. */
  datatype Accessor = Accessor(raises: bool)

  datatype PropertyDescriptor = PropertyDescriptor(
    name: Name,
    read: Option<Accessor>,
    write: Option<Accessor>,
    propertyType: TypeTag)

  /** A declared method: its name and parameter types. */
  datatype MethodInfo = MethodInfo(name: Name, paramTypes: seq<TypeTag>)

  datatype BeanClass = BeanClass(
    className: string,
    beanInfo: seq<PropertyDescriptor>,
    declaredMethods: seq<MethodInfo>,
    superclass: Option<BeanClass>)

  /** The errors BeanUtil raises (all are `RuntimeException`s in the source,
      told apart here by their message). */
  datatype BeanError =
    | ReadPropertyError(property: Name)   // "Read property value error, propName=…"
    | WritePropertyError(property: Name)  // "Write property value error, propName=…"
    | CompareError                        // a failed read while comparing two objects
    | NoSuchMethod(methodName: Name)      // "No such method, …"
    | InvocationError                     // a reflective call that failed or threw

  class Bean {
    const cls: BeanClass
    var store: map<Name, Value>

    constructor (cls: BeanClass, store: map<Name, Value>)
      ensures this.cls == cls && this.store == store
    {
      this.cls := cls;
      this.store := store;
    }

    /** What a working read accessor for `name` returns. */
    function Get(name: Name): Value
      reads this
    {
      Lookup(store, name)
    }

    /** What a working write accessor for `name` does. */
    method Put(name: Name, v: Value)
      modifies this
      ensures store == old(store)[name := v]
    {
      store := store[name := v];
    }
  }

  function Lookup(store: map<Name, Value>, name: Name): Value
  {
    if name in store then store[name] else Null
  }

  // ---------------------------------------------------------------- name arrays

  /** `ArrayUtil.contains`: a null array contains nothing. */
  predicate Contains(names: Option<seq<Name>>, name: Name)
  {
    names.Some? && name in names.value
  }

  /** `ArrayUtil.isNotEmpty`: non-null with at least one element. */
  predicate IsNotEmpty(names: Option<seq<Name>>)
  {
    names.Some? && |names.value| > 0
  }

  function NameSet(names: Option<seq<Name>>): set<Name>
  {
    if names.None? then {} else set n | n in names.value
  }

  // ---------------------------------------------------------------- descriptor table

  /** Descriptors in Introspector order put one after the other into a map,
      skipping the `class` pseudo-property; a later descriptor of the same name
      replaces an earlier one. */
  function DescriptorTable(pds: seq<PropertyDescriptor>): (m: map<Name, PropertyDescriptor>)
    ensures CLASS_PROPERTY !in m
    ensures forall n :: n in m ==> m[n].name == n && m[n] in pds
    ensures forall pd :: pd in pds && pd.name != CLASS_PROPERTY ==> pd.name in m
  {
    if pds == [] then map[]
    else
      var rest := DescriptorTable(pds[..|pds| - 1]);
      var pd := pds[|pds| - 1];
      assert forall q :: q in pds ==> q in pds[..|pds| - 1] || q == pd;
      if pd.name == CLASS_PROPERTY then rest else rest[pd.name := pd]
  }

  /** `getPropDescMap`: the descriptor table of a class. */
  function PropDescMap(c: BeanClass): (m: map<Name, PropertyDescriptor>)
    ensures CLASS_PROPERTY !in m
    ensures forall n :: n in m ==> m[n].name == n && m[n] in c.beanInfo
    ensures forall pd :: pd in c.beanInfo && pd.name != CLASS_PROPERTY ==> pd.name in m
  {
    DescriptorTable(c.beanInfo)
  }

  /** The table's names are exactly the reported property names except `class`. */
  lemma PropDescMapKeys(c: BeanClass)
    ensures PropDescMap(c).Keys == (set pd | pd in c.beanInfo :: pd.name) - {CLASS_PROPERTY}
  {
  }

  /** When Introspector reports every name once, each table entry is the
      reported descriptor of that name. */
  lemma PropDescMapOfUniqueNames(c: BeanClass, i: nat)
    requires forall j, k :: 0 <= j < k < |c.beanInfo| ==> c.beanInfo[j].name != c.beanInfo[k].name
    requires i < |c.beanInfo| && c.beanInfo[i].name != CLASS_PROPERTY
    ensures PropDescMap(c)[c.beanInfo[i].name] == c.beanInfo[i]
  {
    var pd := PropDescMap(c)[c.beanInfo[i].name];
    var j :| 0 <= j < |c.beanInfo| && c.beanInfo[j] == pd;
  }

  /** The properties of a table that have a read accessor. */
  function ReadableNames(descs: map<Name, PropertyDescriptor>): set<Name>
  {
    set n | n in descs && descs[n].read.Some?
  }

  /** `getReadMethod(clazz, propName)`: the read accessor of the property, or
      null for a null argument or an unknown property. */
  function GetReadMethod(clazz: Option<BeanClass>, propName: Option<Name>): (r: Option<Accessor>)
    ensures r.Some? <==> clazz.Some? && propName.Some? && propName.value in ReadableNames(PropDescMap(clazz.value))
    ensures r.Some? ==> exists pd :: pd in clazz.value.beanInfo && pd.name == propName.value && pd.read == r
    ensures propName == Some(CLASS_PROPERTY) ==> r.None?
  {
    if clazz.None? || propName.None? then None
    else
      var descs := PropDescMap(clazz.value);
      if propName.value in descs then descs[propName.value].read else None
  }

  /** `getWriteMethod(clazz, propName)`: the write accessor of the property, or
      null for a null argument or an unknown property. */
  function GetWriteMethod(clazz: Option<BeanClass>, propName: Option<Name>): (r: Option<Accessor>)
    ensures r.Some? <==> clazz.Some? && propName.Some? && propName.value in PropDescMap(clazz.value)
                            && PropDescMap(clazz.value)[propName.value].write.Some?
    ensures r.Some? ==> exists pd :: pd in clazz.value.beanInfo && pd.name == propName.value && pd.write == r
    ensures propName == Some(CLASS_PROPERTY) ==> r.None?
  {
    if clazz.None? || propName.None? then None
    else
      var descs := PropDescMap(clazz.value);
      if propName.value in descs then descs[propName.value].write else None
  }

  /** `getPropertyDescriptors(clazz, ignoredProps)`: a copy of the class's
      table from which each ignored name is removed. */
  method GetPropertyDescriptors(clazz: Option<BeanClass>, ignoredProps: Option<seq<Name>>)
    returns (r: Option<map<Name, PropertyDescriptor>>)
    ensures clazz.None? <==> r.None?
    ensures r.Some? ==> r.value.Keys == PropDescMap(clazz.value).Keys - NameSet(ignoredProps)
    ensures r.Some? ==> forall n :: n in r.value ==> r.value[n] == PropDescMap(clazz.value)[n]
  {
    if clazz.None? {
      return None;
    }
    var propDescMap := PropDescMap(clazz.value);
    if IsNotEmpty(ignoredProps) {
      var ignored := ignoredProps.value;
      for i := 0 to |ignored|
        invariant propDescMap.Keys == PropDescMap(clazz.value).Keys - set n | n in ignored[..i]
        invariant forall n :: n in propDescMap ==> propDescMap[n] == PropDescMap(clazz.value)[n]
      {
        assert forall n :: n in ignored[..i + 1] <==> n in ignored[..i] || n == ignored[i];
        propDescMap := propDescMap - {ignored[i]};
      }
      assert ignored[..|ignored|] == ignored;
    }
    r := Some(propDescMap);
  }

  /** `getPropertyNames(clazz, ignoredProps)`: the table's names that are not
      ignored, each once, in the table's (unspecified) iteration order. */
  method GetPropertyNames(clazz: Option<BeanClass>, ignoredProps: Option<seq<Name>>)
    returns (r: Option<seq<Name>>)
    ensures clazz.None? <==> r.None?
    ensures r.Some? ==> forall n :: n in r.value <==> n in PropDescMap(clazz.value) && !Contains(ignoredProps, n)
    ensures r.Some? ==> forall i, j :: 0 <= i < j < |r.value| ==> r.value[i] != r.value[j]
  {
    if clazz.None? {
      return None;
    }
    var propDescMap := PropDescMap(clazz.value);
    var propNames: seq<Name> := [];
    var todo := propDescMap.Keys;
    while todo != {}
      invariant todo <= propDescMap.Keys
      invariant forall n :: n in propNames <==> n in propDescMap && n !in todo && !Contains(ignoredProps, n)
      invariant forall i, j :: 0 <= i < j < |propNames| ==> propNames[i] != propNames[j]
      decreases todo
    {
      var key :| key in todo;
      todo := todo - {key};
      if !Contains(ignoredProps, key) {
        propNames := propNames + [key];
      }
    }
    r := Some(propNames);
  }
}
