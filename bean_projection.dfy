/** `asMap` and `asMapWithProps`: an object's readable properties as a map
    from name to value, keeping the names an exclude list does not name, or
    only the names an include list names. */
module BeanProjection {
  import opened Results
  import opened BeanModel

  /** Whether the property `name` passes the name filter: with an empty or
      null list every name passes; otherwise a listed name passes only in
      include mode and an unlisted name only in exclude mode. */
  predicate Selected(props: Option<seq<Name>>, excluded: bool, name: Name)
  {
    !IsNotEmpty(props) || Contains(props, name) != excluded
  }

  /** Whether the loop runs at all: an include list must be non-empty. */
  predicate Scans(props: Option<seq<Name>>, excluded: bool)
  {
    IsNotEmpty(props) || excluded
  }

  /** The properties whose value the projection reads. */
  predicate Projected(descs: map<Name, PropertyDescriptor>, props: Option<seq<Name>>, excluded: bool, name: Name)
  {
    Scans(props, excluded) && name in descs && Selected(props, excluded, name) && descs[name].read.Some?
  }

  /** The part of the projection contributed by the properties `names`. */
  function ProjectionOver(descs: map<Name, PropertyDescriptor>, store: map<Name, Value>,
                          props: Option<seq<Name>>, excluded: bool, names: set<Name>): map<Name, Value>
  {
    map n | n in names && n in descs && Projected(descs, props, excluded, n) :: Lookup(store, n)
  }

  /** The map the projection builds when no read accessor raises. */
  function Projection(descs: map<Name, PropertyDescriptor>, store: map<Name, Value>,
                      props: Option<seq<Name>>, excluded: bool): map<Name, Value>
  {
    ProjectionOver(descs, store, props, excluded, descs.Keys)
  }

  lemma ProjectionOverStep(descs: map<Name, PropertyDescriptor>, store: map<Name, Value>,
                           props: Option<seq<Name>>, excluded: bool, names: set<Name>, n: Name)
    requires n in descs && n !in names
    ensures ProjectionOver(descs, store, props, excluded, names + {n})
            == if Projected(descs, props, excluded, n)
               then ProjectionOver(descs, store, props, excluded, names)[n := Lookup(store, n)]
               else ProjectionOver(descs, store, props, excluded, names)
  {
  }

  /** Whether some read accessor the projection invokes raises. */
  predicate ProjectionRaises(descs: map<Name, PropertyDescriptor>, props: Option<seq<Name>>, excluded: bool)
  {
    exists n :: n in descs && Projected(descs, props, excluded, n) && descs[n].read.value.raises
  }

  /** The private `asMap(obj, props, excluded)`: null for a null object, an
      empty map for an include list that is null or empty, otherwise the
      selected readable properties with their values; a raising read accessor
      aborts with the name of its property. */
  method AsMapFiltered(obj: Bean?, props: Option<seq<Name>>, excluded: bool)
    returns (r: Result<Option<map<Name, Value>>, BeanError>)
    ensures obj == null ==> r == Ok(None)
    ensures obj != null && !Scans(props, excluded) ==> r == Ok(Some(map[]))
    ensures obj != null ==> (r.Err? <==> ProjectionRaises(PropDescMap(obj.cls), props, excluded))
    ensures obj != null && r.Ok? ==> r.value == Some(Projection(PropDescMap(obj.cls), obj.store, props, excluded))
    ensures obj != null && r.Err? ==>
              r.error.ReadPropertyError? && Projected(PropDescMap(obj.cls), props, excluded, r.error.property)
              && PropDescMap(obj.cls)[r.error.property].read.value.raises
  {
    if obj == null {
      return Ok(None);
    }
    var propMap: map<Name, Value> := map[];
    var filter := IsNotEmpty(props);
    if !filter && !excluded {
      assert ProjectionOver(PropDescMap(obj.cls), obj.store, props, excluded, PropDescMap(obj.cls).Keys) == map[];
      return Ok(Some(propMap));
    }
    var propDescMap := PropDescMap(obj.cls);
    ghost var store := obj.store;
    var todo := propDescMap.Keys;
    ghost var done: set<Name> := {};
    while todo != {}
      invariant todo <= propDescMap.Keys && done == propDescMap.Keys - todo
      invariant propMap == ProjectionOver(propDescMap, store, props, excluded, done)
      invariant forall n :: n in done && Projected(propDescMap, props, excluded, n) ==> !propDescMap[n].read.value.raises
      decreases todo
    {
      var key :| key in todo;
      ProjectionOverStep(propDescMap, store, props, excluded, done, key);
      todo := todo - {key};
      done := done + {key};
      if filter {
        var contains := Contains(props, key);
        if contains == excluded {
          continue;
        }
      }
      var readMethod := propDescMap[key].read;
      if readMethod.Some? {
        if readMethod.value.raises {
          return Err(ReadPropertyError(key));
        }
        propMap := propMap[key := obj.Get(key)];
      }
    }
    assert done == propDescMap.Keys;
    r := Ok(Some(propMap));
  }

  /** `asMap(obj, excludedProps)` (array and collection overloads). */
  method AsMap(obj: Bean?, excludedProps: Option<seq<Name>>) returns (r: Result<Option<map<Name, Value>>, BeanError>)
    ensures obj == null ==> r == Ok(None)
    ensures obj != null && r.Ok? ==> r.value == Some(Projection(PropDescMap(obj.cls), obj.store, excludedProps, true))
    ensures obj != null ==> (r.Err? <==> ProjectionRaises(PropDescMap(obj.cls), excludedProps, true))
    ensures obj != null && r.Err? ==>
              r.error.ReadPropertyError? && Projected(PropDescMap(obj.cls), excludedProps, true, r.error.property)
              && PropDescMap(obj.cls)[r.error.property].read.value.raises
  {
    r := AsMapFiltered(obj, excludedProps, true);
  }

  /** `asMapWithProps(obj, includedProps)` (array and collection overloads). */
  method AsMapWithProps(obj: Bean?, includedProps: Option<seq<Name>>) returns (r: Result<Option<map<Name, Value>>, BeanError>)
    ensures obj == null ==> r == Ok(None)
    ensures obj != null && !IsNotEmpty(includedProps) ==> r == Ok(Some(map[]))
    ensures obj != null && r.Ok? ==> r.value == Some(Projection(PropDescMap(obj.cls), obj.store, includedProps, false))
    ensures obj != null ==> (r.Err? <==> ProjectionRaises(PropDescMap(obj.cls), includedProps, false))
    ensures obj != null && r.Err? ==>
              r.error.ReadPropertyError? && Projected(PropDescMap(obj.cls), includedProps, false, r.error.property)
              && PropDescMap(obj.cls)[r.error.property].read.value.raises
  {
    r := AsMapFiltered(obj, includedProps, false);
  }

  // ---------------------------------------------------------------- properties

  /** The keys of `asMap(o, E)` are the readable properties not named in `E`;
      `E` null or empty gives every readable property. */
  lemma AsMapKeys(descs: map<Name, PropertyDescriptor>, store: map<Name, Value>, excludedProps: Option<seq<Name>>)
    ensures Projection(descs, store, excludedProps, true).Keys == ReadableNames(descs) - NameSet(excludedProps)
  {
  }

  /** The keys of `asMapWithProps(o, E)` are the readable properties named in `E`. */
  lemma AsMapWithPropsKeys(descs: map<Name, PropertyDescriptor>, store: map<Name, Value>, includedProps: Option<seq<Name>>)
    ensures Projection(descs, store, includedProps, false).Keys == ReadableNames(descs) * NameSet(includedProps)
  {
  }

  /** Exclusion and inclusion with the same list split the readable properties:
      disjoint keys whose union is every readable property, each with its value. */
  lemma AsMapPartition(descs: map<Name, PropertyDescriptor>, store: map<Name, Value>, props: Option<seq<Name>>)
    ensures Projection(descs, store, props, true).Keys !! Projection(descs, store, props, false).Keys
    ensures Projection(descs, store, props, true) + Projection(descs, store, props, false)
            == map n | n in ReadableNames(descs) :: Lookup(store, n)
  {
    AsMapKeys(descs, store, props);
    AsMapWithPropsKeys(descs, store, props);
  }

  /** No projection of an object has the key `class`. */
  lemma NoClassKey(c: BeanClass, store: map<Name, Value>, props: Option<seq<Name>>, excluded: bool)
    ensures CLASS_PROPERTY !in Projection(PropDescMap(c), store, props, excluded)
  {
  }
}
