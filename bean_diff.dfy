/** `getPropertyNamesWithDiffValue`: the names, among the candidates, of the
    properties two objects both can read and whose values differ. */
module BeanDiff {
  import opened Results
  import opened BeanModel

  /** Whether both tables have a read accessor for `n`; other candidates are skipped. */
  predicate Comparable(descs1: map<Name, PropertyDescriptor>, descs2: map<Name, PropertyDescriptor>, n: Name)
  {
    n in descs1 && descs1[n].read.Some? && n in descs2 && descs2[n].read.Some?
  }

  /** `ObjectUtil.isNotEqual` on the two values of a comparable property. */
  predicate Differs(descs1: map<Name, PropertyDescriptor>, store1: map<Name, Value>,
                    descs2: map<Name, PropertyDescriptor>, store2: map<Name, Value>, n: Name)
  {
    Comparable(descs1, descs2, n) && Lookup(store1, n) != Lookup(store2, n)
  }

  /** The candidates, in order, whose values differ. */
  function DiffOf(descs1: map<Name, PropertyDescriptor>, store1: map<Name, Value>,
                  descs2: map<Name, PropertyDescriptor>, store2: map<Name, Value>, cands: seq<Name>): seq<Name>
  {
    if cands == [] then []
    else
      var last := cands[|cands| - 1];
      DiffOf(descs1, store1, descs2, store2, cands[..|cands| - 1])
        + (if Differs(descs1, store1, descs2, store2, last) then [last] else [])
  }

  /** The names compared: the given ones, or every property of the first
      object when none are given. */
  function CandidateSet(descs1: map<Name, PropertyDescriptor>, propNamesToCompare: Option<seq<Name>>): set<Name>
  {
    if IsNotEmpty(propNamesToCompare) then NameSet(propNamesToCompare) else descs1.Keys
  }

  /** Whether some read the comparison invokes raises. */
  predicate DiffRaises(descs1: map<Name, PropertyDescriptor>, descs2: map<Name, PropertyDescriptor>, cands: set<Name>)
  {
    exists n :: n in cands && Comparable(descs1, descs2, n)
                && (descs1[n].read.value.raises || descs2[n].read.value.raises)
  }

  predicate Distinct(names: seq<Name>)
  {
    forall i, j :: 0 <= i < j < |names| ==> names[i] != names[j]
  }

  /** `keySet().toArray()`: the names of a set, each once, in an unspecified order. */
  method KeysToArray(keys: set<Name>) returns (names: seq<Name>)
    ensures forall n :: n in names <==> n in keys
    ensures Distinct(names)
  {
    names := [];
    var todo := keys;
    while todo != {}
      invariant todo <= keys
      invariant forall n :: n in names <==> n in keys && n !in todo
      invariant forall i, j :: 0 <= i < j < |names| ==> names[i] != names[j]
      decreases todo
    {
      var key :| key in todo;
      todo := todo - {key};
      names := names + [key];
    }
  }

  /** The source method. With names given, the result is the differing ones in
      the given order (repeats included); otherwise it is the differing
      properties of `obj1`, each once. A raising read accessor aborts the
      comparison with an error that names no property. */
  method GetPropertyNamesWithDiffValue(obj1: Bean?, obj2: Bean?, propNamesToCompare: Option<seq<Name>>)
    returns (r: Result<seq<Name>, BeanError>)
    ensures obj1 == null || obj2 == null || obj1 == obj2 ==> r == Ok([])
    ensures obj1 != null && obj2 != null && obj1 != obj2 ==>
              (r.Err? <==> DiffRaises(PropDescMap(obj1.cls), PropDescMap(obj2.cls), CandidateSet(PropDescMap(obj1.cls), propNamesToCompare)))
    ensures r.Err? ==> r.error == CompareError
    ensures obj1 != null && obj2 != null && obj1 != obj2 && r.Ok? ==>
              forall n :: n in r.value <==> n in CandidateSet(PropDescMap(obj1.cls), propNamesToCompare)
                                            && Differs(PropDescMap(obj1.cls), obj1.store, PropDescMap(obj2.cls), obj2.store, n)
    ensures obj1 != null && obj2 != null && obj1 != obj2 && r.Ok? && IsNotEmpty(propNamesToCompare) ==>
              r.value == DiffOf(PropDescMap(obj1.cls), obj1.store, PropDescMap(obj2.cls), obj2.store, propNamesToCompare.value)
    ensures r.Ok? && !IsNotEmpty(propNamesToCompare) ==> Distinct(r.value)
  {
    if obj1 == null || obj2 == null || obj1 == obj2 {
      return Ok([]);
    }
    var propDefMap1 := PropDescMap(obj1.cls);
    var propDefMap2 := propDefMap1;
    if obj1.cls != obj2.cls {
      propDefMap2 := PropDescMap(obj2.cls);
    }
    var cands: seq<Name>;
    if !IsNotEmpty(propNamesToCompare) {
      cands := KeysToArray(propDefMap1.Keys);
    } else {
      cands := propNamesToCompare.value;
    }
    assert forall n :: n in cands <==> n in CandidateSet(propDefMap1, propNamesToCompare);
    var propsNames: seq<Name> := [];
    for i := 0 to |cands|
      invariant propsNames == DiffOf(propDefMap1, obj1.store, propDefMap2, obj2.store, cands[..i])
      invariant forall k :: 0 <= k < i && Comparable(propDefMap1, propDefMap2, cands[k]) ==>
                  !propDefMap1[cands[k]].read.value.raises && !propDefMap2[cands[k]].read.value.raises
    {
      var propName := cands[i];
      assert cands[..i + 1][..i] == cands[..i];
      if !Comparable(propDefMap1, propDefMap2, propName) {
        continue;
      }
      var read1 := propDefMap1[propName].read.value;
      var read2 := propDefMap2[propName].read.value;
      if read1.raises || read2.raises {
        return Err(CompareError);
      }
      if obj1.Get(propName) != obj2.Get(propName) {
        propsNames := propsNames + [propName];
      }
    }
    assert cands[..|cands|] == cands;
    DiffOfMembers(propDefMap1, obj1.store, propDefMap2, obj2.store, cands);
    if !IsNotEmpty(propNamesToCompare) {
      DiffOfDistinct(propDefMap1, obj1.store, propDefMap2, obj2.store, cands);
    }
    r := Ok(propsNames);
  }

  // ---------------------------------------------------------------- properties

  /** A name is in the result exactly when it is a candidate whose values differ. */
  lemma {:induction false} DiffOfMembers(descs1: map<Name, PropertyDescriptor>, store1: map<Name, Value>,
                                         descs2: map<Name, PropertyDescriptor>, store2: map<Name, Value>, cands: seq<Name>)
    ensures forall n :: n in DiffOf(descs1, store1, descs2, store2, cands)
                        <==> n in cands && Differs(descs1, store1, descs2, store2, n)
  {
    if cands != [] {
      var init := cands[..|cands| - 1];
      DiffOfMembers(descs1, store1, descs2, store2, init);
      assert forall n :: n in cands <==> n in init || n == cands[|cands| - 1];
    }
  }

  /** The result keeps the candidates' order: it is a subsequence, so distinct
      candidates give distinct names. */
  lemma {:induction false} DiffOfDistinct(descs1: map<Name, PropertyDescriptor>, store1: map<Name, Value>,
                                          descs2: map<Name, PropertyDescriptor>, store2: map<Name, Value>, cands: seq<Name>)
    requires Distinct(cands)
    ensures Distinct(DiffOf(descs1, store1, descs2, store2, cands))
  {
    if cands != [] {
      var init := cands[..|cands| - 1];
      var last := cands[|cands| - 1];
      DiffOfDistinct(descs1, store1, descs2, store2, init);
      DiffOfMembers(descs1, store1, descs2, store2, init);
      assert forall k :: 0 <= k < |init| ==> init[k] == cands[k];
      assert last !in init;
      var d0 := DiffOf(descs1, store1, descs2, store2, init);
      assert last !in d0;
      if Differs(descs1, store1, descs2, store2, last) {
        var d := d0 + [last];
        assert DiffOf(descs1, store1, descs2, store2, cands) == d;
        forall i, j | 0 <= i < j < |d|
          ensures d[i] != d[j]
        {
          if j < |d0| {
            assert d[i] == d0[i] && d[j] == d0[j];
          } else {
            assert d[i] == d0[i] && d0[i] in d0;
          }
        }
      }
    }
  }

  /** Exchanging the two objects gives the same names. */
  lemma {:induction false} DiffOfSymmetric(descs1: map<Name, PropertyDescriptor>, store1: map<Name, Value>,
                                           descs2: map<Name, PropertyDescriptor>, store2: map<Name, Value>, cands: seq<Name>)
    ensures DiffOf(descs1, store1, descs2, store2, cands) == DiffOf(descs2, store2, descs1, store1, cands)
  {
    if cands != [] {
      DiffOfSymmetric(descs1, store1, descs2, store2, cands[..|cands| - 1]);
    }
  }

  /** Objects that agree on every candidate have no differing names. */
  lemma {:induction false} DiffOfAgreeing(descs1: map<Name, PropertyDescriptor>, store1: map<Name, Value>,
                                          descs2: map<Name, PropertyDescriptor>, store2: map<Name, Value>, cands: seq<Name>)
    requires forall k :: 0 <= k < |cands| ==> Lookup(store1, cands[k]) == Lookup(store2, cands[k])
    ensures DiffOf(descs1, store1, descs2, store2, cands) == []
  {
    if cands != [] {
      DiffOfAgreeing(descs1, store1, descs2, store2, cands[..|cands| - 1]);
    }
  }

  /** An `Integer` and a `Long` holding the same number are not `equals`, so
      the property is reported. */
  lemma BoxedClassesDiffer(descs1: map<Name, PropertyDescriptor>, descs2: map<Name, PropertyDescriptor>, n: Name)
    requires Comparable(descs1, descs2, n)
    ensures DiffOf(descs1, map[n := IntValue(JInteger, 1)], descs2, map[n := IntValue(JLong, 1)], [n]) == [n]
  {
    assert [n][..0] == [];
  }

  /** Every name reported is a property both objects can read. */
  lemma DiffOfReadable(descs1: map<Name, PropertyDescriptor>, store1: map<Name, Value>,
                       descs2: map<Name, PropertyDescriptor>, store2: map<Name, Value>, cands: seq<Name>, n: Name)
    requires n in DiffOf(descs1, store1, descs2, store2, cands)
    ensures n in ReadableNames(descs1) && n in ReadableNames(descs2)
  {
    DiffOfMembers(descs1, store1, descs2, store2, cands);
  }
}
