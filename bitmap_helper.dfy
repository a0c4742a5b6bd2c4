/** A feature bitmap kept as a string of '0'/'1' flags: read one flag, or
    return a copy with one flag overwritten. */
module BitMapHelper {
  import opened Results
  import opened JavaLang

  const FUN_ENABLE_FLAG: char := '1'
  const FUN_DISABLE_FLAG: char := '0'

  /** The exceptions `setFunFlag` raises: its two explicit checks, and the
      `ArrayIndexOutOfBoundsException` of the array store for a negative index. */
  datatype BitMapError = NullConfig | IndexNotBelowLength | IndexOutOfBounds

  /** `StringUtil.chatAt(s, index, def)`: the character at `index`, or `def`
      when `index` is outside the string. */
  function CharAtOr(s: string, index: int, def: char): (c: char)
    ensures 0 <= index < |s| ==> c == s[index]
    ensures !(0 <= index < |s|) ==> c == def
  {
    if 0 <= index < |s| then s[index] else def
  }

  /** `isFunEnable`: whether the flag at `index` is set. */
  function IsFunEnable(config: Option<string>, index: int32): (enabled: bool)
    ensures enabled <==> config.Some? && 0 <= index < |config.value| && config.value[index] == FUN_ENABLE_FLAG
  {
    if config.None? then false
    else if |config.value| <= index then false
    else CharAtOr(config.value, index, FUN_DISABLE_FLAG) == FUN_ENABLE_FLAG
  }

  /** `setFunFlag`: a copy of `config` whose position `index` holds `funFlag`. */
  method SetFunFlag(config: Option<string>, index: int32, funFlag: char) returns (r: Result<string, BitMapError>)
    ensures config.None? ==> r == Err(NullConfig)
    ensures config.Some? && |config.value| <= index ==> r == Err(IndexNotBelowLength)
    ensures config.Some? && index < 0 ==> r == Err(IndexOutOfBounds)
    ensures r.Ok? <==> config.Some? && 0 <= index < |config.value|
    ensures r.Ok? ==> |r.value| == |config.value| && r.value[index] == funFlag
    ensures r.Ok? ==> forall j :: 0 <= j < |r.value| && j != index ==> r.value[j] == config.value[j]
    ensures r.Ok? ==> IsFunEnable(Some(r.value), index) == (funFlag == FUN_ENABLE_FLAG)
    ensures r.Ok? ==> forall j: int32 :: j != index ==> IsFunEnable(Some(r.value), j) == IsFunEnable(config, j)
  {
    if config.None? {
      return Err(NullConfig);
    }
    var s := config.value;
    if |s| <= index {
      return Err(IndexNotBelowLength);
    }
    if index < 0 {
      return Err(IndexOutOfBounds);
    }
    var temp := new char[|s|](i requires 0 <= i < |s| => s[i]);
    temp[index] := funFlag;
    r := Ok(temp[..]);
  }
}
