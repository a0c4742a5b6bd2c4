/** `copyProperties`: writes property values from a source object or a map
    into a target object in place, under one of three modes.

    Both families are specified by one write plan. The source is seen as its
    entries, one per name it offers: for an object, each property with a read
    accessor, carrying the value that accessor returns and whether it raises;
    for a map, each key with its value (reading a map never raises). */
module BeanCopy {
  import opened Results
  import opened BeanModel
  import BeanProjection

  /** `CopyPropModes`: any other mode value copies as `STANDARD` does. */
  const STANDARD: int := 0
  const SOURCE_VALUE_NOT_NULL: int := 1
  const TARGET_VALUE_NOT_SET: int := 2

  datatype SourceEntry = SourceEntry(value: Value, raises: bool)

  /** The entries an object source offers. */
  function ObjectEntries(srcDescs: map<Name, PropertyDescriptor>, srcStore: map<Name, Value>): map<Name, SourceEntry>
  {
    map n | n in srcDescs && srcDescs[n].read.Some? :: SourceEntry(Lookup(srcStore, n), srcDescs[n].read.value.raises)
  }

  /** The entries a map source offers. */
  function MapEntries(source: map<Name, Value>): map<Name, SourceEntry>
  {
    map n | n in source :: SourceEntry(source[n], false)
  }

  /** Whether the property `n` gets past the checks before the mode is consulted:
      offered by the source, not ignored, and writable on the target. */
  predicate Copied(entries: map<Name, SourceEntry>, tgtDescs: map<Name, PropertyDescriptor>,
                   ignoredProps: Option<seq<Name>>, n: Name)
  {
    n in entries && !Contains(ignoredProps, n) && n in tgtDescs && tgtDescs[n].write.Some?
  }

  /** The `switch (mode)`: whether the source value is written. With
      `TARGET_VALUE_NOT_SET` a target without a read accessor is written. */
  predicate DoSet(mode: int, srcValue: Value, tgtDesc: PropertyDescriptor, tgtValue: Value, zero: TypeTag -> Value)
  {
    if mode == SOURCE_VALUE_NOT_NULL then srcValue != Null
    else if mode == TARGET_VALUE_NOT_SET then
      tgtDesc.read.None? || tgtValue == Null || tgtValue == zero(tgtDesc.propertyType)
    else true
  }

  predicate Writes(mode: int, entries: map<Name, SourceEntry>, tgtDescs: map<Name, PropertyDescriptor>,
                   tgtStore: map<Name, Value>, ignoredProps: Option<seq<Name>>, zero: TypeTag -> Value, n: Name)
  {
    Copied(entries, tgtDescs, ignoredProps, n) && DoSet(mode, entries[n].value, tgtDescs[n], Lookup(tgtStore, n), zero)
  }

  /** Whether copying `n` raises: the source read, then (with
      `TARGET_VALUE_NOT_SET`) the target read, then the write if it happens. */
  predicate Raises(mode: int, entries: map<Name, SourceEntry>, tgtDescs: map<Name, PropertyDescriptor>,
                   tgtStore: map<Name, Value>, ignoredProps: Option<seq<Name>>, zero: TypeTag -> Value, n: Name)
  {
    && Copied(entries, tgtDescs, ignoredProps, n)
    && (|| entries[n].raises
        || (mode == TARGET_VALUE_NOT_SET && tgtDescs[n].read.Some? && tgtDescs[n].read.value.raises)
        || (DoSet(mode, entries[n].value, tgtDescs[n], Lookup(tgtStore, n), zero) && tgtDescs[n].write.value.raises))
  }

  predicate CopyRaises(mode: int, entries: map<Name, SourceEntry>, tgtDescs: map<Name, PropertyDescriptor>,
                       tgtStore: map<Name, Value>, ignoredProps: Option<seq<Name>>, zero: TypeTag -> Value)
  {
    exists n :: n in entries && Raises(mode, entries, tgtDescs, tgtStore, ignoredProps, zero, n)
  }

  /** The writes a copy performs: the source value of every written property. */
  function Plan(mode: int, entries: map<Name, SourceEntry>, tgtDescs: map<Name, PropertyDescriptor>,
                tgtStore: map<Name, Value>, ignoredProps: Option<seq<Name>>, zero: TypeTag -> Value): map<Name, Value>
  {
    map n | n in entries && Writes(mode, entries, tgtDescs, tgtStore, ignoredProps, zero, n) :: entries[n].value
  }

  function Restrict(plan: map<Name, Value>, names: set<Name>): map<Name, Value>
  {
    map n | n in plan && n in names :: plan[n]
  }

  /** The target state after an aborted copy: some of the planned writes were
      applied, and nothing else changed. */
  ghost predicate PartiallyApplied(before: map<Name, Value>, after: map<Name, Value>, plan: map<Name, Value>)
  {
    exists done: set<Name> :: after == before + Restrict(plan, done)
  }

  lemma LookupUnwritten(before: map<Name, Value>, plan: map<Name, Value>, done: set<Name>, n: Name)
    requires n !in done
    ensures Lookup(before + Restrict(plan, done), n) == Lookup(before, n)
  {
  }

  lemma RestrictStep(before: map<Name, Value>, plan: map<Name, Value>, done: set<Name>, n: Name)
    ensures n in plan ==> before + Restrict(plan, done + {n}) == (before + Restrict(plan, done))[n := plan[n]]
    ensures n !in plan ==> Restrict(plan, done + {n}) == Restrict(plan, done)
  {
  }

  /** The `try` block both families share once the source value is in hand:
      consult the mode, then write. `ok` is false when an accessor raised. */
  method WriteEntry(mode: int, key: Name, srcValue: Value, target: Bean, targetPropDesc: PropertyDescriptor,
                    zero: TypeTag -> Value)
    returns (ok: bool)
    requires targetPropDesc.write.Some?
    modifies target
    ensures ok <==> !(|| (mode == TARGET_VALUE_NOT_SET && targetPropDesc.read.Some? && targetPropDesc.read.value.raises)
                      || (DoSet(mode, srcValue, targetPropDesc, old(target.Get(key)), zero) && targetPropDesc.write.value.raises))
    ensures target.store == if ok && DoSet(mode, srcValue, targetPropDesc, old(target.Get(key)), zero)
                            then old(target.store)[key := srcValue] else old(target.store)
  {
    var doSet := true;
    if mode == SOURCE_VALUE_NOT_NULL {
      doSet := srcValue != Null;
    } else if mode == TARGET_VALUE_NOT_SET {
      var targetReadMethod := targetPropDesc.read;
      if targetReadMethod.Some? {
        if targetReadMethod.value.raises {
          return false;
        }
        var targetValue := target.Get(key);
        doSet := targetValue == Null || targetValue == zero(targetPropDesc.propertyType);
      }
    }
    if doSet {
      if targetPropDesc.write.value.raises {
        return false;
      }
      target.Put(key, srcValue);
    }
    ok := true;
  }

  /** One pass of the object-source loop, for the property `key`: the checks
      that skip it, the source read, then the shared write step. On success the
      planned write for `key` (if any) has been applied; otherwise `key` raises
      and the target is as it was. */
  method CopyKey(mode: int, key: Name, source: Bean, target: Bean,
                 srcPropDescMap: map<Name, PropertyDescriptor>, targetPropDescMap: map<Name, PropertyDescriptor>,
                 ignoredProps: Option<seq<Name>>, zero: TypeTag -> Value,
                 ghost srcStore: map<Name, Value>, ghost tgtStore: map<Name, Value>, ghost done: set<Name>)
    returns (ok: bool)
    requires key in srcPropDescMap && key !in done
    requires target.store == tgtStore + Restrict(Plan(mode, ObjectEntries(srcPropDescMap, srcStore), targetPropDescMap, tgtStore, ignoredProps, zero), done)
    requires source != target ==> source.store == srcStore
    requires source == target ==> srcStore == tgtStore
    modifies target
    ensures var entries := ObjectEntries(srcPropDescMap, srcStore);
            var plan := Plan(mode, entries, targetPropDescMap, tgtStore, ignoredProps, zero);
            && (ok <==> !(key in entries && Raises(mode, entries, targetPropDescMap, tgtStore, ignoredProps, zero, key)))
            && target.store == tgtStore + Restrict(plan, if ok then done + {key} else done)
  {
    ghost var entries := ObjectEntries(srcPropDescMap, srcStore);
    ghost var plan := Plan(mode, entries, targetPropDescMap, tgtStore, ignoredProps, zero);
    RestrictStep(tgtStore, plan, done, key);
    LookupUnwritten(tgtStore, plan, done, key);
    if Contains(ignoredProps, key) {
      return true;
    }
    var readMethod := srcPropDescMap[key].read;
    if readMethod.None? {
      return true;
    }
    if key !in targetPropDescMap || targetPropDescMap[key].write.None? {
      return true;
    }
    assert Copied(entries, targetPropDescMap, ignoredProps, key);
    if readMethod.value.raises {
      return false;
    }
    var srcValue := source.Get(key);
    assert srcValue == entries[key].value;
    ok := WriteEntry(mode, key, srcValue, target, targetPropDescMap[key], zero);
  }

  /** `copyProperties(mode, source, target, ignoredProps)` with an object
      source. `zero` is the collaborator giving a declared type's default value. */
  method CopyProperties(mode: int, source: Bean?, target: Bean?, ignoredProps: Option<seq<Name>>, zero: TypeTag -> Value)
    returns (r: Result<Bean?, BeanError>)
    modifies target
    ensures source == null || target == null ==> r == Ok(target)
    ensures source == null && target != null ==> target.store == old(target.store)
    ensures source != null && target != null ==>
              var entries := ObjectEntries(PropDescMap(source.cls), old(source.store));
              var plan := Plan(mode, entries, PropDescMap(target.cls), old(target.store), ignoredProps, zero);
              && (r.Ok? <==> !CopyRaises(mode, entries, PropDescMap(target.cls), old(target.store), ignoredProps, zero))
              && (r.Ok? ==> r.value == target && target.store == old(target.store) + plan)
              && (r.Err? ==> r.error.WritePropertyError?
                             && Raises(mode, entries, PropDescMap(target.cls), old(target.store), ignoredProps, zero, r.error.property)
                             && PartiallyApplied(old(target.store), target.store, plan))
  {
    if source == null || target == null {
      return Ok(target);
    }
    var srcPropDescMap := PropDescMap(source.cls);
    var targetPropDescMap := PropDescMap(target.cls);
    ghost var srcStore, tgtStore := source.store, target.store;
    ghost var entries := ObjectEntries(srcPropDescMap, srcStore);
    ghost var plan := Plan(mode, entries, targetPropDescMap, tgtStore, ignoredProps, zero);
    var todo := srcPropDescMap.Keys;
    ghost var done: set<Name> := {};
    while todo != {}
      invariant todo <= srcPropDescMap.Keys && done == srcPropDescMap.Keys - todo
      invariant target.store == tgtStore + Restrict(plan, done)
      invariant source != target ==> source.store == srcStore
      invariant forall n :: n in done && n in entries ==> !Raises(mode, entries, targetPropDescMap, tgtStore, ignoredProps, zero, n)
      decreases todo
    {
      var key :| key in todo;
      var ok := CopyKey(mode, key, source, target, srcPropDescMap, targetPropDescMap, ignoredProps, zero,
                        srcStore, tgtStore, done);
      if !ok {
        return Err(WritePropertyError(key));
      }
      todo := todo - {key};
      done := done + {key};
    }
    assert Restrict(plan, done) == plan;
    r := Ok(target);
  }

  lemma EmptySourcePlan(mode: int, source: map<Name, Value>, tgtDescs: map<Name, PropertyDescriptor>,
                        tgtStore: map<Name, Value>, ignoredProps: Option<seq<Name>>, zero: TypeTag -> Value)
    requires |source| == 0
    ensures tgtStore + Plan(mode, MapEntries(source), tgtDescs, tgtStore, ignoredProps, zero) == tgtStore
    ensures !CopyRaises(mode, MapEntries(source), tgtDescs, tgtStore, ignoredProps, zero)
  {
    assert MapEntries(source) == map[];
  }

  /** One pass of the map-source loop, for the key `key`. */
  method CopyMapKey(mode: int, key: Name, data: map<Name, Value>, target: Bean,
                    propDescMap: map<Name, PropertyDescriptor>, ignoredProps: Option<seq<Name>>, zero: TypeTag -> Value,
                    ghost tgtStore: map<Name, Value>, ghost done: set<Name>)
    returns (ok: bool)
    requires key in data && key !in done
    requires target.store == tgtStore + Restrict(Plan(mode, MapEntries(data), propDescMap, tgtStore, ignoredProps, zero), done)
    modifies target
    ensures var entries := MapEntries(data);
            var plan := Plan(mode, entries, propDescMap, tgtStore, ignoredProps, zero);
            && (ok <==> !Raises(mode, entries, propDescMap, tgtStore, ignoredProps, zero, key))
            && target.store == tgtStore + Restrict(plan, if ok then done + {key} else done)
  {
    ghost var entries := MapEntries(data);
    ghost var plan := Plan(mode, entries, propDescMap, tgtStore, ignoredProps, zero);
    RestrictStep(tgtStore, plan, done, key);
    LookupUnwritten(tgtStore, plan, done, key);
    if Contains(ignoredProps, key) {
      return true;
    }
    if key !in propDescMap || propDescMap[key].write.None? {
      return true;
    }
    assert Copied(entries, propDescMap, ignoredProps, key);
    ok := WriteEntry(mode, key, data[key], target, propDescMap[key], zero);
  }

  /** `copyProperties(mode, Map source, target, ignoredProps)`: a null or empty
      map, or a null target, leaves the target as it is. */
  method CopyPropertiesFromMap(mode: int, source: Option<map<Name, Value>>, target: Bean?,
                               ignoredProps: Option<seq<Name>>, zero: TypeTag -> Value)
    returns (r: Result<Bean?, BeanError>)
    modifies target
    ensures source.None? || |source.value| == 0 || target == null ==> r == Ok(target)
    ensures (source.None? || |source.value| == 0) && target != null ==> target.store == old(target.store)
    ensures source.Some? && target != null ==>
              var entries := MapEntries(source.value);
              var plan := Plan(mode, entries, PropDescMap(target.cls), old(target.store), ignoredProps, zero);
              && (r.Ok? <==> !CopyRaises(mode, entries, PropDescMap(target.cls), old(target.store), ignoredProps, zero))
              && (r.Ok? ==> r.value == target && target.store == old(target.store) + plan)
              && (r.Err? ==> r.error.WritePropertyError?
                             && Raises(mode, entries, PropDescMap(target.cls), old(target.store), ignoredProps, zero, r.error.property)
                             && PartiallyApplied(old(target.store), target.store, plan))
  {
    if source.None? || |source.value| == 0 || target == null {
      if source.Some? && target != null {
        EmptySourcePlan(mode, source.value, PropDescMap(target.cls), target.store, ignoredProps, zero);
      }
      return Ok(target);
    }
    var data := source.value;
    var propDescMap := PropDescMap(target.cls);
    ghost var tgtStore := target.store;
    ghost var entries := MapEntries(data);
    ghost var plan := Plan(mode, entries, propDescMap, tgtStore, ignoredProps, zero);
    var todo := data.Keys;
    ghost var done: set<Name> := {};
    while todo != {}
      invariant todo <= data.Keys && done == data.Keys - todo
      invariant target.store == tgtStore + Restrict(plan, done)
      invariant forall n :: n in done && n in entries ==> !Raises(mode, entries, propDescMap, tgtStore, ignoredProps, zero, n)
      decreases todo
    {
      var key :| key in todo;
      var ok := CopyMapKey(mode, key, data, target, propDescMap, ignoredProps, zero, tgtStore, done);
      if !ok {
        return Err(WritePropertyError(key));
      }
      todo := todo - {key};
      done := done + {key};
    }
    assert Restrict(plan, done) == plan;
    r := Ok(target);
  }

  /** `copyProperties(source, target, ignoredProps)`: the `STANDARD` mode. */
  method CopyPropertiesStandard(source: Bean?, target: Bean?, ignoredProps: Option<seq<Name>>, zero: TypeTag -> Value)
    returns (r: Result<Bean?, BeanError>)
    modifies target
    ensures source == null || target == null ==> r == Ok(target)
    ensures source == null && target != null ==> target.store == old(target.store)
    ensures source != null && target != null ==>
              var entries := ObjectEntries(PropDescMap(source.cls), old(source.store));
              var plan := Plan(STANDARD, entries, PropDescMap(target.cls), old(target.store), ignoredProps, zero);
              && (r.Ok? <==> !CopyRaises(STANDARD, entries, PropDescMap(target.cls), old(target.store), ignoredProps, zero))
              && (r.Ok? ==> r.value == target && target.store == old(target.store) + plan)
              && (r.Err? ==> r.error.WritePropertyError?
                             && Raises(STANDARD, entries, PropDescMap(target.cls), old(target.store), ignoredProps, zero,
                                       r.error.property)
                             && PartiallyApplied(old(target.store), target.store, plan))
  {
    r := CopyProperties(STANDARD, source, target, ignoredProps, zero);
  }

  /** `copyProperties(Map source, target, ignoredProps)`: the `STANDARD` mode. */
  method CopyPropertiesFromMapStandard(source: Option<map<Name, Value>>, target: Bean?,
                                       ignoredProps: Option<seq<Name>>, zero: TypeTag -> Value)
    returns (r: Result<Bean?, BeanError>)
    modifies target
    ensures source.None? || |source.value| == 0 || target == null ==> r == Ok(target)
    ensures (source.None? || |source.value| == 0) && target != null ==> target.store == old(target.store)
    ensures source.Some? && target != null ==>
              var entries := MapEntries(source.value);
              var plan := Plan(STANDARD, entries, PropDescMap(target.cls), old(target.store), ignoredProps, zero);
              && (r.Ok? <==> !CopyRaises(STANDARD, entries, PropDescMap(target.cls), old(target.store), ignoredProps, zero))
              && (r.Ok? ==> r.value == target && target.store == old(target.store) + plan)
              && (r.Err? ==> r.error.WritePropertyError?
                             && Raises(STANDARD, entries, PropDescMap(target.cls), old(target.store), ignoredProps, zero,
                                       r.error.property)
                             && PartiallyApplied(old(target.store), target.store, plan))
  {
    r := CopyPropertiesFromMap(STANDARD, source, target, ignoredProps, zero);
  }

  // ---------------------------------------------------------------- properties

  /** A copy from an object writes only properties that are not ignored, have a
      write accessor on the target and a read accessor on the source, and it
      writes the source's value. Every other target property keeps its value. */
  lemma ObjectCopyWritesOnlyPermitted(mode: int, srcDescs: map<Name, PropertyDescriptor>, srcStore: map<Name, Value>,
                                      tgtDescs: map<Name, PropertyDescriptor>, tgtStore: map<Name, Value>,
                                      ignoredProps: Option<seq<Name>>, zero: TypeTag -> Value, n: Name)
    ensures var plan := Plan(mode, ObjectEntries(srcDescs, srcStore), tgtDescs, tgtStore, ignoredProps, zero);
            && (n in plan ==> && !Contains(ignoredProps, n) && n in tgtDescs && tgtDescs[n].write.Some?
                              && n in srcDescs && srcDescs[n].read.Some? && plan[n] == Lookup(srcStore, n))
            && (n !in plan ==> Lookup(tgtStore + plan, n) == Lookup(tgtStore, n))
  {
  }

  /** A copy from a map writes only keys of the map that are not ignored and
      are writable on the target, with the map's value. */
  lemma MapCopyWritesOnlyPermitted(mode: int, source: map<Name, Value>, tgtDescs: map<Name, PropertyDescriptor>,
                                   tgtStore: map<Name, Value>, ignoredProps: Option<seq<Name>>, zero: TypeTag -> Value, n: Name)
    ensures var plan := Plan(mode, MapEntries(source), tgtDescs, tgtStore, ignoredProps, zero);
            && (n in plan ==> && n in source && !Contains(ignoredProps, n) && n in tgtDescs
                              && tgtDescs[n].write.Some? && plan[n] == source[n])
            && (n !in plan ==> Lookup(tgtStore + plan, n) == Lookup(tgtStore, n))
  {
  }

  /** `STANDARD` writes every property that passes the checks. */
  lemma StandardWritesAllCopied(entries: map<Name, SourceEntry>, tgtDescs: map<Name, PropertyDescriptor>,
                                tgtStore: map<Name, Value>, ignoredProps: Option<seq<Name>>, zero: TypeTag -> Value)
    ensures Plan(STANDARD, entries, tgtDescs, tgtStore, ignoredProps, zero).Keys
            == set n | n in entries && Copied(entries, tgtDescs, ignoredProps, n)
  {
  }

  /** `SOURCE_VALUE_NOT_NULL` never writes a null, and writes every non-null
      value that passes the checks. */
  lemma SourceNotNullWrites(entries: map<Name, SourceEntry>, tgtDescs: map<Name, PropertyDescriptor>,
                            tgtStore: map<Name, Value>, ignoredProps: Option<seq<Name>>, zero: TypeTag -> Value, n: Name)
    ensures var plan := Plan(SOURCE_VALUE_NOT_NULL, entries, tgtDescs, tgtStore, ignoredProps, zero);
            && (n in plan ==> plan[n] != Null)
            && (n in plan <==> Copied(entries, tgtDescs, ignoredProps, n) && entries[n].value != Null)
  {
  }

  /** `TARGET_VALUE_NOT_SET` leaves every readable target property that holds a
      value other than null and its type's default, and writes every property
      passing the checks whose target value is unset or unreadable. */
  lemma TargetNotSetWrites(entries: map<Name, SourceEntry>, tgtDescs: map<Name, PropertyDescriptor>,
                           tgtStore: map<Name, Value>, ignoredProps: Option<seq<Name>>, zero: TypeTag -> Value, n: Name)
    ensures var plan := Plan(TARGET_VALUE_NOT_SET, entries, tgtDescs, tgtStore, ignoredProps, zero);
            n in plan <==> && Copied(entries, tgtDescs, ignoredProps, n)
                           && (|| tgtDescs[n].read.None? || Lookup(tgtStore, n) == Null
                               || Lookup(tgtStore, n) == zero(tgtDescs[n].propertyType))
  {
  }

  /** Every mode value other than 1 and 2 copies exactly as `STANDARD`. */
  lemma OtherModesAreStandard(mode: int, entries: map<Name, SourceEntry>, tgtDescs: map<Name, PropertyDescriptor>,
                              tgtStore: map<Name, Value>, ignoredProps: Option<seq<Name>>, zero: TypeTag -> Value)
    requires mode != SOURCE_VALUE_NOT_NULL && mode != TARGET_VALUE_NOT_SET
    ensures Plan(mode, entries, tgtDescs, tgtStore, ignoredProps, zero)
            == Plan(STANDARD, entries, tgtDescs, tgtStore, ignoredProps, zero)
    ensures CopyRaises(mode, entries, tgtDescs, tgtStore, ignoredProps, zero)
            == CopyRaises(STANDARD, entries, tgtDescs, tgtStore, ignoredProps, zero)
  {
    assert forall n :: Raises(mode, entries, tgtDescs, tgtStore, ignoredProps, zero, n)
                       == Raises(STANDARD, entries, tgtDescs, tgtStore, ignoredProps, zero, n);
  }

  /** A property the first copy did not write is still not written by a second
      copy from the same source. */
  lemma RewriteOnlyWritten(mode: int, entries: map<Name, SourceEntry>, tgtDescs: map<Name, PropertyDescriptor>,
                           tgtStore: map<Name, Value>, ignoredProps: Option<seq<Name>>, zero: TypeTag -> Value, n: Name)
    ensures var plan := Plan(mode, entries, tgtDescs, tgtStore, ignoredProps, zero);
            var after := tgtStore + plan;
            && (n !in plan ==> Lookup(after, n) == Lookup(tgtStore, n))
            && (Writes(mode, entries, tgtDescs, after, ignoredProps, zero, n) ==> n in plan)
  {
    var plan := Plan(mode, entries, tgtDescs, tgtStore, ignoredProps, zero);
    assert n !in plan ==> Lookup(tgtStore + plan, n) == Lookup(tgtStore, n);
  }

  /** Copying twice from an unchanged source in the same mode leaves the target
      as the first copy left it, and the second copy does not raise when the
      first did not. */
  lemma {:induction false} CopyIdempotent(mode: int, entries: map<Name, SourceEntry>, tgtDescs: map<Name, PropertyDescriptor>,
                                          tgtStore: map<Name, Value>, ignoredProps: Option<seq<Name>>, zero: TypeTag -> Value)
    ensures var after := tgtStore + Plan(mode, entries, tgtDescs, tgtStore, ignoredProps, zero);
            after + Plan(mode, entries, tgtDescs, after, ignoredProps, zero) == after
    ensures var after := tgtStore + Plan(mode, entries, tgtDescs, tgtStore, ignoredProps, zero);
            !CopyRaises(mode, entries, tgtDescs, tgtStore, ignoredProps, zero) ==>
              !CopyRaises(mode, entries, tgtDescs, after, ignoredProps, zero)
  {
    var plan := Plan(mode, entries, tgtDescs, tgtStore, ignoredProps, zero);
    var after := tgtStore + plan;
    var again := Plan(mode, entries, tgtDescs, after, ignoredProps, zero);
    forall n | n in again
      ensures n in after && after[n] == again[n]
    {
      RewriteOnlyWritten(mode, entries, tgtDescs, tgtStore, ignoredProps, zero, n);
    }
    assert after + again == after;
    if !CopyRaises(mode, entries, tgtDescs, tgtStore, ignoredProps, zero) {
      forall n | n in entries
        ensures !Raises(mode, entries, tgtDescs, after, ignoredProps, zero, n)
      {
        RewriteOnlyWritten(mode, entries, tgtDescs, tgtStore, ignoredProps, zero, n);
        assert !Raises(mode, entries, tgtDescs, tgtStore, ignoredProps, zero, n);
      }
    }
  }

  /** Copying from an object whose reads do not raise is copying from its
      `asMap` projection: the two families agree on the entries offered. */
  lemma ObjectSourceIsItsMap(srcDescs: map<Name, PropertyDescriptor>, srcStore: map<Name, Value>)
    requires !BeanProjection.ProjectionRaises(srcDescs, None, true)
    ensures ObjectEntries(srcDescs, srcStore) == MapEntries(BeanProjection.Projection(srcDescs, srcStore, None, true))
  {
    var proj := BeanProjection.Projection(srcDescs, srcStore, None, true);
    assert forall n :: n in proj <==> n in srcDescs && srcDescs[n].read.Some?;
    assert forall n :: n in srcDescs && srcDescs[n].read.Some? ==> !srcDescs[n].read.value.raises;
  }

  // ---------------------------------------------------------------- two worked examples

  const NAME_PROP: PropertyDescriptor :=
    PropertyDescriptor("name", Some(Accessor(false)), Some(Accessor(false)), TypeTag("java.lang.String"))
  const AGE_PROP: PropertyDescriptor :=
    PropertyDescriptor("age", Some(Accessor(false)), Some(Accessor(false)), TypeTag("java.lang.Integer"))
  const PERSON: BeanClass := BeanClass("Person", [NAME_PROP, AGE_PROP], [], None)

  /** A default-value provider: zero for `int`, null for every reference type. */
  function PrimitiveZero(t: TypeTag): Value
  {
    if t == TypeTag("int") then IntValue(JInteger, 0) else Null
  }

  lemma PersonTable()
    ensures PropDescMap(PERSON) == map["name" := NAME_PROP, "age" := AGE_PROP]
  {
    assert [NAME_PROP, AGE_PROP][..1] == [NAME_PROP];
    assert [NAME_PROP][..0] == [];
  }

  /** A = {name: "Alice", age: null}, B = {name: "", age: 30}: copying A into B
      with `SOURCE_VALUE_NOT_NULL` gives B = {name: "Alice", age: 30}. */
  lemma SourceNotNullExample()
    ensures var a := map["name" := StringValue("Alice"), "age" := Null];
            var b := map["name" := StringValue(""), "age" := IntValue(JInteger, 30)];
            var entries := ObjectEntries(PropDescMap(PERSON), a);
            && !CopyRaises(SOURCE_VALUE_NOT_NULL, entries, PropDescMap(PERSON), b, None, PrimitiveZero)
            && b + Plan(SOURCE_VALUE_NOT_NULL, entries, PropDescMap(PERSON), b, None, PrimitiveZero)
               == map["name" := StringValue("Alice"), "age" := IntValue(JInteger, 30)]
  {
    PersonTable();
    var a := map["name" := StringValue("Alice"), "age" := Null];
    var b := map["name" := StringValue(""), "age" := IntValue(JInteger, 30)];
    var entries := ObjectEntries(PropDescMap(PERSON), a);
    assert entries == map["name" := SourceEntry(StringValue("Alice"), false), "age" := SourceEntry(Null, false)];
    var plan := Plan(SOURCE_VALUE_NOT_NULL, entries, PropDescMap(PERSON), b, None, PrimitiveZero);
    assert plan == map["name" := StringValue("Alice")];
  }

  /** The same A copied into C = {name: null, age: 0} with
      `TARGET_VALUE_NOT_SET`, the age being an `Integer` whose default is null:
      C becomes {name: "Alice", age: 0}. */
  lemma TargetNotSetExample()
    ensures var a := map["name" := StringValue("Alice"), "age" := Null];
            var c := map["name" := Null, "age" := IntValue(JInteger, 0)];
            var entries := ObjectEntries(PropDescMap(PERSON), a);
            && !CopyRaises(TARGET_VALUE_NOT_SET, entries, PropDescMap(PERSON), c, None, PrimitiveZero)
            && c + Plan(TARGET_VALUE_NOT_SET, entries, PropDescMap(PERSON), c, None, PrimitiveZero)
               == map["name" := StringValue("Alice"), "age" := IntValue(JInteger, 0)]
  {
    PersonTable();
    var a := map["name" := StringValue("Alice"), "age" := Null];
    var c := map["name" := Null, "age" := IntValue(JInteger, 0)];
    var entries := ObjectEntries(PropDescMap(PERSON), a);
    assert entries == map["name" := SourceEntry(StringValue("Alice"), false), "age" := SourceEntry(Null, false)];
    var plan := Plan(TARGET_VALUE_NOT_SET, entries, PropDescMap(PERSON), c, None, PrimitiveZero);
    assert plan == map["name" := StringValue("Alice")];
  }
}
