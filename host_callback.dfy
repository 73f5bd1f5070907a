/** The answers of the host callback (`Vst2x::hostCallback`): the opcodes a plugin may
    send, the fixed replies, the capability table, the opcodes reported as unsupported,
    and the bounded copy of the vendor and product strings. */
module HostReplies {
  import opened Common

  /** The `audioMaster` opcodes the switch names; `Unlisted` stands for every code that is
      none of them, so it never collides with a named case. */
  datatype HostOpcode =
    | Automate | Version | CurrentId | Idle | GetTime | ProcessEvents | IOChanged
    | SizeWindow | GetSampleRate | GetBlockSize | GetInputLatency | GetOutputLatency
    | GetCurrentProcessLevel | GetAutomationState | GetVendorString | GetProductString
    | GetVendorVersion | VendorSpecific | CanDo | GetLanguage | OfflineStart
    | OfflineRead | OfflineWrite | OfflineGetCurrentPass | OfflineGetCurrentMetaPass
    | UpdateDisplay | Unlisted

  /** The literal the switch answers the version query with. */
  const HostVersion: int := 2400
  /** `kVstVersion`, the answer of the callback wrapper. */
  const VstVersion: int := 2400
  /** `kVstProcessLevelUnknown`. */
  const ProcessLevelUnknown: int := 0
  /** `kVstAutomationUnsupported`. */
  const AutomationUnsupported: int := 0
  /** `kVstLangEnglish`. */
  const LangEnglish: int := 1
  /** `kVstMaxVendorStrLen`. */
  const MaxVendorStrLen: nat := 64
  /** `kVstMaxProductStrLen`. */
  const MaxProductStrLen: nat := 64

  const VendorString: string := "vendor string"
  const ProductString: string := "vst-fx-loader"

  /** A callback result: an integer, or the address of the handle's time-info record. */
  datatype Answer = Value(n: int) | TimeInfoAddress

  /** What the plugin passes as the data pointer: nothing the callback reads, a
      NUL-terminated string, or a character buffer for the callback to fill. */
  datatype HostData = NoData | Text(chars: string) | Buffer(buf: array<char>)

  /** The data pointer is what the opcode's case dereferences: a buffer of the bounded
      length for the string queries, a string for the capability query. */
  predicate DataFits(opcode: HostOpcode, data: HostData)
  {
    && (opcode == GetVendorString ==> data.Buffer? && data.buf.Length >= MaxVendorStrLen)
    && (opcode == GetProductString ==> data.Buffer? && data.buf.Length >= MaxProductStrLen)
    && (opcode == CanDo ==> data.Text?)
  }

  /** The `cando` table. */
  const CanDoTable: map<string, bool> := map[
    "sendVstEvents" := false,
    "sendVstMidiEvent" := false,
    "sendVstTimeInfo" := true,
    "receiveVstEvents" := false,
    "receiveVstMidiEvent" := false,
    "reportConnectionChanges" := false,
    "acceptIOChanges" := false,
    "sizeWindow" := false,
    "offline" := false,
    "openFileSelector" := false,
    "closeFileSelector" := false,
    "startStopProcess" := true,
    "shellCategory" := true,
    "sendVstMidiEventFlagIsRealtime" := false
  ]

  /** The capability query on a name: 0 for the empty name, the table's entry as 0 or
      1 for a listed name, 0 for any other. */
  function CanDoAnswer(name: string): (a: int)
    ensures a == 0 || a == 1
  {
    if name == "" then 0
    else if name in CanDoTable then (if CanDoTable[name] then 1 else 0)
    else 0
  }

  /** The capability query answers 1 for exactly three names and 0 for every other,
      the empty name and the names the table does not list included. */
  lemma CanDoAnswers(name: string)
    ensures CanDoAnswer(name) == 1 <==> name in {"sendVstTimeInfo", "startStopProcess", "shellCategory"}
    ensures CanDoAnswer(name) != 1 ==> CanDoAnswer(name) == 0
    ensures name == "" ==> CanDoAnswer(name) == 0
    ensures name !in CanDoTable ==> CanDoAnswer(name) == 0
  {
  }

  /** The names `unsupportedOpcode` is called with. */
  const LabelProcessEvents := "audioMasterProcessEvents"
  const LabelIOChanged := "audioMasterIOChanged"
  const LabelSizeWindow := "audioMasterSizeWindow"
  const LabelVendorSpecific := "audioMasterVendorSpecific"
  const LabelOfflineStart := "audioMasterOfflineStart"
  const LabelOfflineRead := "audioMasterOfflineRead"
  const LabelOfflineWrite := "audioMasterOfflineWrite"
  const LabelOfflineGetCurrentPass := "audioMasterOfflineGetCurrentPass"
  const LabelOfflineGetCurrentMetaPass := "audioMasterOfflineGetCurrentMetaPass"
  const LabelUnlisted := "dont care"

  /** The label an opcode is reported under when its case calls `unsupportedOpcode`. */
  function UnsupportedLabel(opcode: HostOpcode): Option<string>
  {
    match opcode
    case ProcessEvents => Some(LabelProcessEvents)
    case IOChanged => Some(LabelIOChanged)
    case SizeWindow => Some(LabelSizeWindow)
    case VendorSpecific => Some(LabelVendorSpecific)
    case OfflineStart => Some(LabelOfflineStart)
    case OfflineRead => Some(LabelOfflineRead)
    case OfflineWrite => Some(LabelOfflineWrite)
    case OfflineGetCurrentPass => Some(LabelOfflineGetCurrentPass)
    case OfflineGetCurrentMetaPass => Some(LabelOfflineGetCurrentMetaPass)
    case Unlisted => Some(LabelUnlisted)
    case _ => None
  }

  /** The message `unsupportedOpcode` pushes to the log. */
  function UnsupportedMessage(effectName: string, opcodeName: string): string
  {
    "[" + effectName + "] @callback unsupported opcode (" + opcodeName + ")"
  }

  /** The value the switch returns to a non-NULL effect. */
  function Reply(opcode: HostOpcode, uniqueID: int, sampleRate: nat, blockSize: nat, data: HostData): (r: Answer)
    requires DataFits(opcode, data)
    ensures r.TimeInfoAddress? <==> opcode == GetTime
    ensures opcode == CanDo ==> r == Value(0) || r == Value(1)
  {
    match opcode
    case Version => Value(HostVersion)
    case CurrentId => Value(uniqueID)
    case Idle => Value(1)
    case GetTime => TimeInfoAddress
    case GetSampleRate => Value(sampleRate)
    case GetBlockSize => Value(blockSize)
    case GetCurrentProcessLevel => Value(ProcessLevelUnknown)
    case GetAutomationState => Value(AutomationUnsupported)
    case GetVendorString => Value(1)
    case GetProductString => Value(1)
    case GetVendorVersion => Value(1)
    case CanDo => Value(CanDoAnswer(UntilNul(data.chars)))
    case GetLanguage => Value(LangEnglish)
    case _ => Value(0)
  }

  /** The fixed answers of the switch. */
  lemma FixedReplies(uniqueID: int, sampleRate: nat, blockSize: nat, data: HostData)
    ensures Reply(Version, uniqueID, sampleRate, blockSize, data) == Value(2400)
    ensures Reply(CurrentId, uniqueID, sampleRate, blockSize, data) == Value(uniqueID)
    ensures Reply(Idle, uniqueID, sampleRate, blockSize, data) == Value(1)
    ensures Reply(GetSampleRate, uniqueID, sampleRate, blockSize, data) == Value(sampleRate)
    ensures Reply(GetBlockSize, uniqueID, sampleRate, blockSize, data) == Value(blockSize)
    ensures Reply(GetVendorVersion, uniqueID, sampleRate, blockSize, data) == Value(1)
    ensures Reply(GetTime, uniqueID, sampleRate, blockSize, data) == TimeInfoAddress
  {
  }

  /** Every opcode reported as unsupported is answered with 0. */
  lemma UnsupportedRepliesZero(opcode: HostOpcode, uniqueID: int, sampleRate: nat, blockSize: nat, data: HostData)
    requires DataFits(opcode, data) && UnsupportedLabel(opcode).Some?
    ensures Reply(opcode, uniqueID, sampleRate, blockSize, data) == Value(0)
  {
  }

  /** Distinct opcodes reported as unsupported are reported under distinct labels. */
  lemma UnsupportedLabelsDistinct(a: HostOpcode, b: HostOpcode)
    requires UnsupportedLabel(a).Some? && UnsupportedLabel(b).Some? && a != b
    ensures UnsupportedLabel(a) != UnsupportedLabel(b)
  {
  }

  /** `strncpy(dst, src, n)` on the buffer's old contents: the text of `src` up to its
      terminator, cut at `n`, then NULs up to `n`; the rest of the buffer untouched. */
  function StrNCopied(dst: seq<char>, src: string, n: nat): (r: seq<char>)
    requires n <= |dst|
    ensures |r| == |dst|
    ensures forall i :: n <= i < |dst| ==> r[i] == dst[i]
  {
    var text := UntilNul(src);
    seq(|dst|, i requires 0 <= i < |dst| => if i >= n then dst[i] else if i < |text| then text[i] else Nul)
  }

  /** A string shorter than the bound is read back from the buffer exactly, as its
      terminator is written too. */
  lemma StrNCopiedReadsBack(dst: seq<char>, src: string, n: nat)
    requires n <= |dst| && |UntilNul(src)| < n
    ensures UntilNul(StrNCopied(dst, src, n)) == UntilNul(src)
  {
    var text := UntilNul(src);
    var r := StrNCopied(dst, src, n);
    assert r == text + [Nul] + r[|text| + 1..];
    UntilNulOfTerminated(text, r[|text| + 1..]);
  }

  /** The vendor and product literals fit their bounds, so the plugin reads them back
      whole. */
  lemma LiteralsReadBack(dst: seq<char>)
    requires MaxVendorStrLen <= |dst|
    ensures UntilNul(StrNCopied(dst, VendorString, MaxVendorStrLen)) == VendorString
    ensures UntilNul(StrNCopied(dst, ProductString, MaxProductStrLen)) == ProductString
  {
    assert Nul !in VendorString && Nul !in ProductString;
    StrNCopiedReadsBack(dst, VendorString, MaxVendorStrLen);
    StrNCopiedReadsBack(dst, ProductString, MaxProductStrLen);
  }

  method StrNCopy(dst: array<char>, src: string, n: nat)
    requires n <= dst.Length
    modifies dst
    ensures dst[..] == StrNCopied(old(dst[..]), src, n)
  {
    var text := UntilNul(src);
    var i := 0;
    while i < n && i < |text|
      invariant 0 <= i <= n && i <= |text|
      invariant forall k :: 0 <= k < i ==> dst[k] == text[k]
      invariant forall k :: i <= k < dst.Length ==> dst[k] == old(dst[k])
    {
      dst[i] := text[i];
      i := i + 1;
    }
    while i < n
      invariant 0 <= i <= n
      invariant forall k :: 0 <= k < i ==> dst[k] == if k < |text| then text[k] else Nul
      invariant forall k :: i <= k < dst.Length ==> dst[k] == old(dst[k])
    {
      dst[i] := Nul;
      i := i + 1;
    }
  }
}
