/** Translation of the plugin's replies to two kinds of query: the parameter
    properties record (`getParameterProperties`) and a name written into a character
    buffer (`getStringData`). */
module PluginQueries {
  import opened Common

  /** `kVstParameterIsSwitch`. */
  const IsSwitchFlag: bv32 := 0x1
  /** `kVstParameterUsesIntegerMinMax`. */
  const UsesIntegerMinMaxFlag: bv32 := 0x10

  /** The host-side `ParamProperties`. */
  datatype ParamProperties = ParamProperties(isSwitch: bool, minValue: real, maxValue: real)

  /** What the `ParamProperties` constructor sets. */
  const DefaultParamProperties := ParamProperties(false, 0.0, 1.0)

  /** The part of the plugin's `VstParameterProperties` reply the host reads. */
  datatype VstParameterProperties = VstParameterProperties(flags: bv32, minInteger: int, maxInteger: int)

  /** `getParameterProperties`: `reply` is None when the plugin's dispatcher answers 0
      to the query, and the record it filled in otherwise. */
  function ParameterProperties(reply: Option<VstParameterProperties>): (pp: ParamProperties)
    ensures reply.None? ==> pp == DefaultParamProperties
    ensures reply.Some? ==> (pp.isSwitch <==> reply.value.flags & IsSwitchFlag != 0)
    ensures reply.Some? && reply.value.flags & UsesIntegerMinMaxFlag != 0 ==>
      pp.minValue == reply.value.minInteger as real && pp.maxValue == reply.value.maxInteger as real
    ensures (reply.None? || reply.value.flags & UsesIntegerMinMaxFlag == 0) ==>
      pp.minValue == 0.0 && pp.maxValue == 1.0
  {
    var pp := DefaultParamProperties;
    if reply.None? then pp
    else
      var vstpp := reply.value;
      var pp := pp.(isSwitch := vstpp.flags & IsSwitchFlag != 0);
      if vstpp.flags & UsesIntegerMinMaxFlag != 0 then
        pp.(maxValue := vstpp.maxInteger as real, minValue := vstpp.minInteger as real)
      else pp
  }

  /** Flag bits other than the two the host reads make no difference. */
  lemma ParameterPropertiesIgnoresOtherFlags(a: VstParameterProperties, flags: bv32)
    requires flags & (IsSwitchFlag | UsesIntegerMinMaxFlag) == a.flags & (IsSwitchFlag | UsesIntegerMinMaxFlag)
    ensures ParameterProperties(Some(a.(flags := flags))) == ParameterProperties(Some(a))
  {
    assert flags & IsSwitchFlag == a.flags & IsSwitchFlag;
    assert flags & UsesIntegerMinMaxFlag == a.flags & UsesIntegerMinMaxFlag;
  }

  /** `kVstMaxNameLen`. */
  const MaxNameLen: nat := 64
  /** The zeroed `std::array<char, kVstMaxNameLen + 1>` the plugin writes into. */
  const NameBufferSize: nat := MaxNameLen + 1

  /** The plugin's reply keeps to the buffer and leaves a terminator in it: it writes
      at most `NameBufferSize` characters, and a NUL among them when it fills it. */
  predicate ReplyFits(reply: seq<char>)
  {
    |reply| < NameBufferSize || (|reply| == NameBufferSize && Nul in reply)
  }

  /** The buffer after the plugin wrote `reply` over the zeros. */
  function NameBuffer(reply: seq<char>): (buf: seq<char>)
    requires |reply| <= NameBufferSize
    ensures |buf| == NameBufferSize
  {
    reply + seq(NameBufferSize - |reply|, _ => Nul)
  }

  /** `getStringData`: the string built from the buffer, that is the reply up to its
      first NUL. */
  function StringData(reply: seq<char>): (s: string)
    requires ReplyFits(reply)
    ensures Nul !in s && |s| <= MaxNameLen
    ensures |s| <= |reply| && s == reply[..|s|]
    ensures |s| < |reply| ==> reply[|s|] == Nul
    ensures Nul !in reply ==> s == reply
  {
    var buf := NameBuffer(reply);
    assert |reply| < NameBufferSize ==> buf[|reply|] == Nul;
    assert |reply| == NameBufferSize ==> buf == reply;
    var s := UntilNul(buf);
    assert reply[..|s|] == buf[..|s|];
    s
  }

  /** A name the plugin terminates reads back exactly. */
  lemma StringDataOfTerminatedName(name: string, rest: seq<char>)
    requires Nul !in name && |name| + 1 + |rest| <= NameBufferSize
    ensures StringData(name + [Nul] + rest) == name
  {
    var reply := name + [Nul] + rest;
    assert reply[|name|] == Nul;
    assert reply[..|name|] == name;
  }
}
