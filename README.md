# falsework-util core in Dafny

A model of four utility classes of `net.falsework.util`, with proofs of what
they promise:

- **BeanUtil**, the reflective property engine:
  - the descriptor table of a class, which drops the `class` pseudo-property;
  - `asMap` / `asMapWithProps`;
  - the two `copyProperties` families with the modes `STANDARD`, `SOURCE_VALUE_NOT_NULL` and `TARGET_VALUE_NOT_SET`;
  - `getReadMethod` / `getWriteMethod`;
  - `getPropertyDescriptors` / `getPropertyNames`;
  - `getPropertyNamesWithDiffValue`;
  - `getMethod` and its walk up the superclass chain;
  - `invokeMethod` / `invokeMethodQuietly`.
- **IdUtil**: the check character of a Chinese resident identity number (GB 11643-1999, whose check character is ISO 7064:1983 MOD 11-2), validation, and the 15-to-18 digit upgrade.
- **BitMapHelper**: a string of `'0'`/`'1'` feature flags, with a point query and a point update.
- **NumberUtil**, integer operations only:
  - `defaultNumber`;
  - the `int[]` and `long[]` sums with two's-complement wrap-around;
  - the exact sums over boxed numbers, which skip nulls;
  - `isDigits`;
  - `parseInteger` / `parseLong`.

A bean is modelled abstractly.

- **Class:** a `BeanClass` holds what `Introspector` reports: its property descriptors, its declared methods in the order `getDeclaredMethods` returns them, and its superclass.
- **Object:** an object is a `Bean`, a Dafny class with a fixed `BeanClass` and a mutable `store` from property name to value.
- **Accessors:** a working read accessor returns the stored value, and a working write accessor replaces it. Every accessor records whether its invocation raises.

Java's null is `None` (an `Option`) or `Value.Null`, and a thrown exception is an `Err` of a `Result`. The notes below describe loops whose order is unspecified in Java.

- **Order of the loops:** the loops over a `HashMap` take their keys in an unspecified order (`var key :| key in todo`). Their contracts therefore state maps and sets, not orders.
- **The copy plan:** both copy families are proved against one write plan, `BeanCopy.Plan`. This map holds the value each property receives.
  - A copy that does not raise leaves the target store equal to the old store overridden by the plan.
  - A copy that raises reports the property and leaves some part of the plan applied.

Files:

| file | module |
|---|---|
| results.dfy | `Results`: `Option`, `Result` |
| java_lang.dfy | `JavaLang`: Java integer widths, wrap-around, ASCII digits |
| bean_model.dfy | `BeanModel`: values, descriptors, classes, `Bean`, descriptor queries |
| bean_projection.dfy | `BeanProjection`: `asMap` |
| bean_copy.dfy | `BeanCopy`: `copyProperties` |
| bean_diff.dfy | `BeanDiff`: `getPropertyNamesWithDiffValue` |
| bean_methods.dfy | `BeanMethods`: `getMethod`, `invokeMethod*` |
| id_util.dfy | `IdUtil` |
| bitmap_helper.dfy | `BitMapHelper` |
| number_util.dfy | `NumberUtil` |

Points where the code behaves differently from what its documentation or a quick reading suggests; the model follows the code:

- **`getMethod` with parameter types:** it searches the superclass chain too, because the recursive call at line 491 passes `paraTypes` along.
- **The error from `getPropertyNamesWithDiffValue`:** a failed read wraps the exception without naming the property (`BeanError.CompareError`).
- **`TARGET_VALUE_NOT_SET` without a read accessor:** when the target has no read accessor, the property is written whatever its current value. `BeanCopy.TargetNotSetWrites` states this.
- **`asMapWithProps` with a null or empty list:** its documentation (lines 57 and 69) promises every property value; the code (lines 97-100) returns an empty map. `BeanProjection.AsMapWithProps` states the empty map.
- **Null values in `copyProperties`:** the Java `null` is a value like any other. In `STANDARD` mode a null source value is written.
- **The second worked example, `C = {name: null, age: 0}` copied with `TARGET_VALUE_NOT_SET`:**
  - With an `Integer` age, whose default is null, `0` counts as "set" and `age` stays 0, as `BeanCopy.TargetNotSetExample` shows.
  - With a primitive `int` age, `0` is the default, so the code writes the source's null. The JDK setter then rejects it, and the copy fails.

Two edge cases of BitMapHelper follow from the JDK rather than from the code's own checks:

- **A negative index in `setFunFlag`:** the index passes the length check, and the array store then throws `ArrayIndexOutOfBoundsException`. The model reports it as `IndexOutOfBounds`.
- **A negative index in `isFunEnable`:** `chatAt` falls back to `'0'`, so the result is false.

## Model

Paths are relative to the repository root.

| member | source | states |
|---|---|---|
| BeanModel.Bean.Put | src/main/java/net/falsework/util/BeanUtil.java:190 | a working write accessor replaces the property's value and nothing else |
| BeanModel.DescriptorTable | src/main/java/net/falsework/util/BeanUtil.java:415-421 | the table never holds `class`; each entry is a reported descriptor filed under its own name; every reported name other than `class` is present |
| BeanModel.PropDescMap | src/main/java/net/falsework/util/BeanUtil.java:409-428 | the table of a class never holds `class`; each entry is one of the class's reported descriptors filed under its own name; every other reported name is present |
| BeanModel.PropDescMapKeys | src/main/java/net/falsework/util/BeanUtil.java:415-421 | the table's names are exactly the reported names minus `class` |
| BeanModel.PropDescMapOfUniqueNames | src/main/java/net/falsework/util/BeanUtil.java:417-419 | with distinct reported names, the entry of each name is exactly its reported descriptor |
| BeanModel.GetReadMethod | src/main/java/net/falsework/util/BeanUtil.java:277-284 | a read accessor is returned iff class and name are non-null and the property is readable; it is the reported descriptor's; `class` gives null |
| BeanModel.GetWriteMethod | src/main/java/net/falsework/util/BeanUtil.java:293-300 | the same for the write accessor |
| BeanModel.GetPropertyDescriptors | src/main/java/net/falsework/util/BeanUtil.java:310-323 | null iff the class is null; otherwise the table restricted to the names not ignored, entries unchanged |
| BeanModel.GetPropertyNames | src/main/java/net/falsework/util/BeanUtil.java:333-348 | null iff the class is null; otherwise each table name not ignored, exactly once |
| BeanProjection.AsMapFiltered | src/main/java/net/falsework/util/BeanUtil.java:88-123 | null object gives null; include mode with no list gives an empty map; an error iff a selected readable property's read raises, naming that property; otherwise the selected readable properties with their values |
| BeanProjection.AsMap | src/main/java/net/falsework/util/BeanUtil.java:35-50 | null for a null object; otherwise the readable properties not excluded, with their values; an error iff a projected read raises, and then a read error naming that property |
| BeanProjection.AsMapWithProps | src/main/java/net/falsework/util/BeanUtil.java:60-75 | the include-mode projection; a null or empty include list gives an empty map; an error iff a projected read raises, and then a read error naming that property |
| BeanProjection.AsMapKeys | src/main/java/net/falsework/util/BeanUtil.java:102-116 | the keys of `asMap(o, E)` are the readable properties not in `E` |
| BeanProjection.AsMapWithPropsKeys | src/main/java/net/falsework/util/BeanUtil.java:102-116 | the keys of `asMapWithProps(o, E)` are the readable properties in `E` |
| BeanProjection.AsMapPartition | src/main/java/net/falsework/util/BeanUtil.java:102-116 | the two projections with the same list are disjoint and together are every readable property with its value |
| BeanProjection.NoClassKey | src/main/java/net/falsework/util/BeanUtil.java:418 | no projection has the key `class` |
| BeanCopy.WriteEntry | src/main/java/net/falsework/util/BeanUtil.java:170-191 | the mode switch: raises iff the target read (mode 2) or the performed write raises; writes the source value exactly when the mode says so |
| BeanCopy.CopyKey | src/main/java/net/falsework/util/BeanUtil.java:155-194 | one loop pass of the object copy applies that property's planned write, or reports that it raises with the target untouched |
| BeanCopy.CopyProperties | src/main/java/net/falsework/util/BeanUtil.java:148-198 | null source or target returns the target untouched; succeeds iff no copied property raises, and then the target is old store plus plan; on failure names a raising property and only planned writes were applied |
| BeanCopy.CopyMapKey | src/main/java/net/falsework/util/BeanUtil.java:229-264 | one loop pass of the map copy, as for objects |
| BeanCopy.EmptySourcePlan | src/main/java/net/falsework/util/BeanUtil.java:224-226 | an empty source map plans no write and cannot raise |
| BeanCopy.CopyPropertiesFromMap | src/main/java/net/falsework/util/BeanUtil.java:223-268 | a null or empty map or null target returns the target untouched; otherwise as for objects, over the map's keys |
| BeanCopy.CopyPropertiesStandard | src/main/java/net/falsework/util/BeanUtil.java:133-135 | the object copy in `STANDARD` mode, with the full contract of `CopyProperties`: a null source or target returns the target unchanged; success iff no planned write raises, and then the target is returned holding old store plus plan; an abort names a raising property and leaves a part of the plan applied |
| BeanCopy.CopyPropertiesFromMapStandard | src/main/java/net/falsework/util/BeanUtil.java:208-210 | the map copy in `STANDARD` mode, with the full contract of `CopyPropertiesFromMap`: a null or empty map or a null target returns the target unchanged; success iff no planned write raises, and then old store plus plan; an abort names a raising property and leaves a part of the plan applied |
| BeanCopy.ObjectCopyWritesOnlyPermitted | src/main/java/net/falsework/util/BeanUtil.java:155-168 | only non-ignored properties writable on the target and readable on the source are written, with the source value; every other property keeps its value |
| BeanCopy.MapCopyWritesOnlyPermitted | src/main/java/net/falsework/util/BeanUtil.java:229-237 | only non-ignored map keys writable on the target are written, with the map's value; every other property keeps its value |
| BeanCopy.StandardWritesAllCopied | src/main/java/net/falsework/util/BeanUtil.java:171-191 | `STANDARD` writes exactly the properties that pass the checks |
| BeanCopy.SourceNotNullWrites | src/main/java/net/falsework/util/BeanUtil.java:175-177 | `SOURCE_VALUE_NOT_NULL` never writes null, and writes exactly the non-null values that pass the checks |
| BeanCopy.TargetNotSetWrites | src/main/java/net/falsework/util/BeanUtil.java:179-186 | `TARGET_VALUE_NOT_SET` writes a property iff it passes the checks and the target has no read accessor or holds null or the type's default |
| BeanCopy.OtherModesAreStandard | src/main/java/net/falsework/util/BeanUtil.java:174-187 | any mode other than 1 and 2 plans and raises exactly as `STANDARD` |
| BeanCopy.RewriteOnlyWritten | src/main/java/net/falsework/util/BeanUtil.java:171-191 | after a copy, a second copy from the same source writes only properties the first wrote |
| BeanCopy.CopyIdempotent | src/main/java/net/falsework/util/BeanUtil.java:171-191 | in every mode a second copy from the same source changes nothing, and does not raise if the first did not |
| BeanCopy.ObjectSourceIsItsMap | src/main/java/net/falsework/util/BeanUtil.java:153-172 | with no raising read, copying from an object is copying from its `asMap` |
| BeanCopy.PersonTable | src/main/java/net/falsework/util/BeanUtil.java:415-421 | the descriptor table of the two-property example class |
| BeanCopy.SourceNotNullExample | src/main/java/net/falsework/util/BeanUtil.java:175-177 | {name:"Alice", age:null} into {name:"", age:30} gives {name:"Alice", age:30} |
| BeanCopy.TargetNotSetExample | src/main/java/net/falsework/util/BeanUtil.java:179-186 | the same source into {name:null, age:0} with an `Integer` age gives {name:"Alice", age:0} |
| BeanDiff.KeysToArray | src/main/java/net/falsework/util/BeanUtil.java:378 | `keySet().toArray()` lists every key once |
| BeanDiff.GetPropertyNamesWithDiffValue | src/main/java/net/falsework/util/BeanUtil.java:359-400 | empty for a null object or the same instance; an error iff a compared read raises; names exactly the candidates readable on both with unequal values, in candidate order when names are given, each once otherwise |
| BeanDiff.DiffOfMembers | src/main/java/net/falsework/util/BeanUtil.java:382-393 | a name is reported iff it is a candidate readable on both with different values |
| BeanDiff.DiffOfDistinct | src/main/java/net/falsework/util/BeanUtil.java:382-393 | distinct candidates give distinct names |
| BeanDiff.DiffOfSymmetric | src/main/java/net/falsework/util/BeanUtil.java:382-393 | exchanging the two objects gives the same names |
| BeanDiff.DiffOfAgreeing | src/main/java/net/falsework/util/BeanUtil.java:391-393 | objects agreeing on every candidate give no names |
| BeanDiff.BoxedClassesDiffer | src/main/java/net/falsework/util/BeanUtil.java:392 | an `Integer` 1 and a `Long` 1 under a comparable name are reported as differing |
| BeanDiff.DiffOfReadable | src/main/java/net/falsework/util/BeanUtil.java:386-388 | every reported name is readable on both objects |
| BeanMethods.FirstMatch | src/main/java/net/falsework/util/BeanUtil.java:476-487 | none iff no method matches; otherwise a matching method with no match before it |
| BeanMethods.FindDeclared | src/main/java/net/falsework/util/BeanUtil.java:475-488 | the search of one class is the first match among its declared methods |
| BeanMethods.GetMethod | src/main/java/net/falsework/util/BeanUtil.java:463-495 | null for a null object or name; otherwise the first match along the class's declared methods followed by each superclass's |
| BeanMethods.GetMethodByName | src/main/java/net/falsework/util/BeanUtil.java:451-453 | the same search without parameter types |
| BeanMethods.InvokeMethod | src/main/java/net/falsework/util/BeanUtil.java:576-596 | null object or method gives null; an error iff the call throws; otherwise what the call returns |
| BeanMethods.InvokeMethodByName | src/main/java/net/falsework/util/BeanUtil.java:554-565 | null object or name gives null; no method found gives a no-such-method error; otherwise the call of the method found |
| BeanMethods.InvokeMethodQuietly | src/main/java/net/falsework/util/BeanUtil.java:538-544 | the call's value, or null when it fails |
| BeanMethods.InvokeMethodQuietlyByName | src/main/java/net/falsework/util/BeanUtil.java:522-528 | null for a missing method or null arguments; otherwise the quiet call of the method found |
| BeanMethods.FirstMatchAt | src/main/java/net/falsework/util/BeanUtil.java:482-486 | a match preceded by no match is the one found |
| BeanMethods.FirstMatchAppend | src/main/java/net/falsework/util/BeanUtil.java:490-491 | searching a class then its ancestors is searching the class, falling back to the ancestors |
| BeanMethods.FoundMatches | src/main/java/net/falsework/util/BeanUtil.java:463-495 | a found method is in the chain, has the name, and has the parameter types when given |
| BeanMethods.OwnMethodShadows | src/main/java/net/falsework/util/BeanUtil.java:490-494 | a class's own match wins over its ancestors' |
| BeanMethods.InheritedFromSuperclass | src/main/java/net/falsework/util/BeanUtil.java:490-492 | without an own match the result is the superclass's, and null past the root |
| BeanMethods.ParaTypesNarrow | src/main/java/net/falsework/util/BeanUtil.java:476-487 | when the first method of the name has the given parameter types, both searches agree |
| BeanMethods.ChildChain | src/main/java/net/falsework/util/BeanUtil.java:490-491 | the methods searched for a three-level example class, in order |
| BeanMethods.InheritedExample | src/main/java/net/falsework/util/BeanUtil.java:463-495 | a method declared only on the grandparent is found there |
| BeanMethods.ParaTypesExample | src/main/java/net/falsework/util/BeanUtil.java:476-487 | `setId(long)` on the grandparent is found past the child's `setId(int)`; the name alone finds the child's |
| BeanMethods.MissingExample | src/main/java/net/falsework/util/BeanUtil.java:490-494 | `missing`, a name no class of the chain declares, finds nothing once the walk passes the root |
| IdUtil.WeightedSum | src/main/java/net/falsework/util/IdUtil.java:60-63 | the weighted digit sum is between 0 and 90 per digit, so the `int` accumulator never overflows |
| IdUtil.CalcCheckValue | src/main/java/net/falsework/util/IdUtil.java:55-66 | an illegal-argument error unless the input is 17 ASCII digits; otherwise the one-character table entry at the weighted sum modulo 11 |
| IdUtil.Id15Body | src/main/java/net/falsework/util/IdUtil.java:40-43 | the first 17 characters of the upgrade are 17 digits |
| IdUtil.Replace | src/main/java/net/falsework/util/IdUtil.java:82 | `replace('*', 'X')` changes every `*` and nothing else |
| IdUtil.ConvertId15To18 | src/main/java/net/falsework/util/IdUtil.java:35-47 | an error iff the input is not 15 digits; otherwise the first 6 digits, "19", the other 9 and the check value, 18 characters, and valid |
| IdUtil.IsValidIdCardNo | src/main/java/net/falsework/util/IdUtil.java:74-89 | a valid number is non-null and has 15 digits or 18 characters; every 15-digit number is valid |
| IdUtil.ValidIdCardNo | src/main/java/net/falsework/util/IdUtil.java:74-89 | valid iff 15 digits, or an 18-character match whose last character, upper-cased with `*` read as `X`, is the check value |
| IdUtil.NullIsInvalid | src/main/java/net/falsework/util/IdUtil.java:75-77 | null is invalid |
| IdUtil.ConvertedIsValid | src/main/java/net/falsework/util/IdUtil.java:35-46 | every upgraded 15-digit number has length 18 and is valid |
| IdUtil.WeightsArePowersOfTwo | src/main/java/net/falsework/util/IdUtil.java:12 | weight i is 2^(17-i) mod 11, as ISO 7064 MOD 11-2 requires |
| IdUtil.CheckValueIsMod11_2 | src/main/java/net/falsework/util/IdUtil.java:17 | the table gives the unique check character whose value makes the whole weighted sum 1 modulo 11 |
| IdUtil.Valid18IsMod11_2 | src/main/java/net/falsework/util/IdUtil.java:79-84 | an 18-character match is valid iff its full MOD 11-2 sum is 1 modulo 11 |
| BitMapHelper.CharAtOr | src/main/java/net/falsework/util/BitMapHelper.java:31 | `chatAt` gives the character at an in-range index and the default otherwise |
| BitMapHelper.IsFunEnable | src/main/java/net/falsework/util/BitMapHelper.java:24-34 | true iff the config is non-null, the index is in range and the flag there is '1' |
| BitMapHelper.SetFunFlag | src/main/java/net/falsework/util/BitMapHelper.java:44-57 | errors for a null config, an index not below the length, and a negative index; otherwise same length, the flag at the index, every other position unchanged, and `isFunEnable` sees the new flag there and the old ones elsewhere |
| JavaLang.Wrap32 | src/main/java/net/falsework/util/NumberUtil.java:122 | the `int` result is congruent to the exact value modulo 2^32 and equals it when in range |
| JavaLang.Wrap64 | src/main/java/net/falsework/util/NumberUtil.java:139 | the same for `long` and 2^64 |
| JavaLang.Wrap32AddLeft | src/main/java/net/falsework/util/NumberUtil.java:122 | wrapping each partial sum gives the wrapped total |
| JavaLang.Wrap64AddLeft | src/main/java/net/falsework/util/NumberUtil.java:139 | the same for `long` |
| JavaLang.DigitValue | src/main/java/net/falsework/util/IdUtil.java:62 | a digit's value is below 10 |
| JavaLang.DigitChar | src/main/java/net/falsework/util/NumberUtil.java:218 | the digit of a value below 10 reads back as that value |
| NumberUtil.DefaultNumber | src/main/java/net/falsework/util/NumberUtil.java:108-110 | the number when non-null, else the default |
| NumberUtil.DefaultByte | src/main/java/net/falsework/util/NumberUtil.java:20-22 | the number when non-null, else 0 |
| NumberUtil.DefaultShort | src/main/java/net/falsework/util/NumberUtil.java:31-33 | the number when non-null, else 0 |
| NumberUtil.DefaultInteger | src/main/java/net/falsework/util/NumberUtil.java:42-44 | the number when non-null, else 0 |
| NumberUtil.DefaultLong | src/main/java/net/falsework/util/NumberUtil.java:53-55 | the number when non-null, else 0 |
| NumberUtil.DefaultBigInteger | src/main/java/net/falsework/util/NumberUtil.java:97-99 | the number when non-null, else 0 |
| NumberUtil.SumInts | src/main/java/net/falsework/util/NumberUtil.java:118-127 | 0 for null; otherwise the element sum wrapped to 32 bits, congruent to the exact sum and equal to it when in range |
| NumberUtil.SumLongs | src/main/java/net/falsework/util/NumberUtil.java:135-144 | the same with 64 bits |
| NumberUtil.SumAppend | src/main/java/net/falsework/util/NumberUtil.java:121-123 | the sum grows by each element added |
| NumberUtil.NonNulls | src/main/java/net/falsework/util/NumberUtil.java:156 | a number is kept exactly when some element holds it |
| NumberUtil.NonNullsOfPresent | src/main/java/net/falsework/util/NumberUtil.java:156 | with no nulls, nothing is dropped |
| NumberUtil.SumNumbers | src/main/java/net/falsework/util/NumberUtil.java:152-182 | 0 for null; otherwise the exact sum of the non-null elements; all-null gives 0 |
| NumberUtil.SumWithoutNulls | src/main/java/net/falsework/util/NumberUtil.java:152-163 | with no nulls the result is the plain sum |
| NumberUtil.IsDigits | src/main/java/net/falsework/util/NumberUtil.java:190-192 | true only for a non-null string ending in a digit that has a signed decimal value |
| NumberUtil.IsDigitsShape | src/main/java/net/falsework/util/NumberUtil.java:190-192 | true exactly for a non-empty ASCII digit string, optionally preceded by '-' |
| NumberUtil.NatDigits | src/main/java/net/falsework/util/NumberUtil.java:216-222 | the decimal text of a natural number is a non-empty digit string |
| NumberUtil.NatDigitsValue | src/main/java/net/falsework/util/NumberUtil.java:216-222 | that text reads back as the number |
| NumberUtil.SignedDecimalOfDecimalString | src/main/java/net/falsework/util/NumberUtil.java:216-222 | the decimal text of any integer reads back as that integer |
| NumberUtil.ParseIntegerRoundTrip | src/main/java/net/falsework/util/NumberUtil.java:216-222 | every `int` printed in decimal parses back to itself, whatever the default |
| NumberUtil.ParseLongRoundTrip | src/main/java/net/falsework/util/NumberUtil.java:201-207 | every `long` printed in decimal parses back to itself |
| NumberUtil.ParseIntegerOverflow | src/main/java/net/falsework/util/NumberUtil.java:216-222 | a decimal outside the `int` range gives the default |
| NumberUtil.ParseLongOverflow | src/main/java/net/falsework/util/NumberUtil.java:201-207 | a decimal outside the `long` range gives the default |
| NumberUtil.DigitsParse | src/main/java/net/falsework/util/NumberUtil.java:190-222 | a string passing `isDigits` has a value, and gives the default only when it is out of range or equals the default |
| NumberUtil.NonCanonicalParses | src/main/java/net/falsework/util/NumberUtil.java:201-222 | "+5" and "007" parse as 5 and 7, and "-007" as -7 |
| NumberUtil.NoDigitsGivesDefault | src/main/java/net/falsework/util/NumberUtil.java:201-222 | text without digits gives the caller's default, whatever it is, in both `parseInteger` and `parseLong` |
| NumberUtil.ParseInteger | src/main/java/net/falsework/util/NumberUtil.java:216-222 | null or text that is no signed decimal gives the default; a signed decimal (such as "+5" or "007") gives its value when it is in the `int` range and the default otherwise |
| NumberUtil.ParseLong | src/main/java/net/falsework/util/NumberUtil.java:201-207 | null or text that is no signed decimal gives the default; a signed decimal gives its value when it is in the `long` range and the default otherwise |

## Left out

- The class cache (`classCache`, its `WeakReference`s and `getPropDescMapFromCache`) exists for memory reclamation and concurrent access. `getPropDescMap` is modelled as a pure function of the descriptor list.
- `Introspector.getBeanInfo` failure, the "Analyse property desc error", is not modelled: descriptor lists are given input.
- Reflective invocation is modelled abstractly:
  - accessor invocation is a stored value plus a fixed `raises` flag;
  - `Method.invoke` in `invokeMethod` is the parameter `invoke`;
  - `setAccessible` and the exception wrapping are not modelled beyond turning a throw into an error.
- An accessor failure that depends on the value, such as a primitive setter rejecting null, is not modelled: whether an accessor raises is fixed per descriptor.
- `getValue` is not modelled. It is reflective invocation with swallowed exceptions and sits outside the core.
- HashMap iteration order is unspecified. Results of loops over a map are stated as maps or sets, and which raising property an aborted copy or projection reports is left open.
- The collaborators are given the following meanings:
  - `ObjectUtil.defaultValue` is the parameter `zero`;
  - `ObjectUtil.isNotEqual` is structural inequality of `Value`s; an integral value carries its boxed class (`IntClass`), so an `Integer` and a `Long` holding the same number differ, as under `equals`;
  - `ArrayUtil.contains`, `ArrayUtil.isNotEmpty` and `ArrayUtil.isEmpty` treat a null array as empty;
  - `MapUtil.isEmpty` holds for a null or empty map;
  - `StringUtil.chatAt` returns the default when the index is out of range.
- The class structure and the names are modelled with these limits:
  - A class is compared by value, where the code compares `Class` identity.
  - A null name inside a name list is not modelled.
- NumberUtil's floating-point overloads are not modelled: `Float`, `Double` and `BigDecimal` in `defaultNumber`, `asInteger`/`asLong` narrowing, and `asBigDecimal` via `toString`.
- NumberUtil.SumNumbers: sums integer inputs only, as an exact integer. The Java result is a `BigDecimal`, and non-integer `Number`s are not modelled.
- NumberUtil.ParseInteger: accepts only ASCII digits. Java's `Integer.valueOf` also accepts other Unicode decimal digits.
- NumberUtil.ParseLong: accepts only ASCII digits, for the same reason.
- BeanMethods.GetMethod: the declared-method order is whatever order the `declaredMethods` sequence gives. The JDK leaves the order of `getDeclaredMethods` unspecified.
- String lengths and indices count Unicode scalar values, where Java counts UTF-16 code units. A character outside the Basic Multilingual Plane shifts every later index by one. For example, Java's `isFunEnable("😀1", 2)` is true, while the model's string has length 2 and gives false. This affects BitMapHelper's indices, the lengths IdUtil checks and NumberUtil's digit tests.
- The example class hierarchy in `BeanMethods` has its root at `Base`, which has no superclass. In Java every walk ends at `java.lang.Object`, which declares `hashCode`, `equals`, `toString` and others; the examples therefore use names that `Object` does not declare when they show a failed search.
- The generic cast `(T)` on invocation results is not modelled.
- The other classes of the package are not part of this model: `HostInfo`, `SystemUtil`, `CloseUtil`, the exception classes, `Assert`, `Task` and `TargetClassAware`.
