/** The plugin handle (class Vst2x): opening a plugin library, the entry-point
    handshake, the host callback and its wrapper, and the tempo update. The plugin is
    an `Effect` record whose answers are fixed data; the calls the handle makes into
    the plugin's dispatcher are recorded in order. */
module Vst2xHost {
  import opened Common
  import opened Logging
  import opened Loading
  import opened Speakers
  import opened Timing
  import opened PluginQueries
  import opened HostReplies

  /** `kEffectMagic`, the characters 'VstP'. */
  const EffectMagic: int := 0x56737450
  /** `kPlugCategEffect`. */
  const PlugCategEffect: int := 1

  /** The plugin's `AEffect` as the host sees it: its magic number, the pointer-sized
      value its dispatcher returns for the category query, its channel counts and id,
      the text its dispatcher writes for the effect-name query, and the `user` slot. */
  datatype Effect = Effect(
    magic: int, categoryReply: int, numInputs: int, numOutputs: int, uniqueID: int,
    nameReply: seq<char>, user: Vst2x?)

  /** The category `setAEffect` compares: the dispatcher's reply stored into an `int`. */
  function Category(e: Effect): int
  {
    ToInt32(e.categoryReply)
  }

  /** An exported entry function, by what it returns when called with the host callback
      (None is a NULL effect). */
  datatype EntryPoint = EntryPoint(result: Option<Effect>)

  /** A call the handle makes into the plugin's dispatcher. */
  datatype EffectCall =
    | GetPlugCategoryCall
    | OpenCall
    | SetSampleRateCall(rate: nat)
    | SetBlockSizeCall(size: nat)
    | SetSpeakerArrangementCall(inputs: Arrangement, outputs: Arrangement)
    | GetEffectNameCall

  /** The entry symbols, in the order they are tried. */
  const EntrySymbols: seq<string> := ["VSTPluginMain", "VSTPluginMain()", "main"]

  /** Position of the first of `names` the library exports, or `|names|`. */
  function FirstExported(lib: Library<EntryPoint>, names: seq<string>): (i: nat)
    ensures i <= |names|
    ensures forall j :: 0 <= j < i ==> names[j] !in lib.exports
    ensures i < |names| ==> names[i] in lib.exports
  {
    if names == [] then 0
    else if names[0] in lib.exports then 0
    else 1 + FirstExported(lib, names[1..])
  }

  /** The entry point the fallback chain finds. */
  function FindEntry(lib: Library<EntryPoint>): (r: Option<EntryPoint>)
  {
    var i := FirstExported(lib, EntrySymbols);
    if i < |EntrySymbols| then Some(lib.exports[EntrySymbols[i]]) else None
  }

  /** The fallback chain: the primary name when it is exported, else the second, else
      the third, else nothing. */
  lemma {:induction false} FindEntryOrder(lib: Library<EntryPoint>)
    ensures "VSTPluginMain" in lib.exports ==>
      FindEntry(lib) == Some(lib.exports["VSTPluginMain"])
    ensures "VSTPluginMain" !in lib.exports && "VSTPluginMain()" in lib.exports ==>
      FindEntry(lib) == Some(lib.exports["VSTPluginMain()"])
    ensures "VSTPluginMain" !in lib.exports && "VSTPluginMain()" !in lib.exports && "main" in lib.exports ==>
      FindEntry(lib) == Some(lib.exports["main"])
    ensures "VSTPluginMain" !in lib.exports && "VSTPluginMain()" !in lib.exports && "main" !in lib.exports ==>
      FindEntry(lib) == None
  {
    var i := FirstExported(lib, EntrySymbols);
    assert EntrySymbols[0] == "VSTPluginMain" && EntrySymbols[1] == "VSTPluginMain()" && EntrySymbols[2] == "main";
    if i == 3 {
      assert "VSTPluginMain" !in lib.exports && "VSTPluginMain()" !in lib.exports && "main" !in lib.exports;
    }
  }

  /** How `open` ends. */
  datatype OpenOutcome =
    | LoadFailed
    | EntryNotFound
    | EntryReturnedNull
    | BadMagic(effect: Effect)
    | NotAnEffect(effect: Effect)
    | Opened(effect: Effect)

  /** The checks `setAEffect` runs on a loaded library, in order. */
  function AfterLoad(lib: Library<EntryPoint>): (r: OpenOutcome)
    ensures !r.LoadFailed?
    ensures r.EntryNotFound? <==> FindEntry(lib).None?
    ensures r.EntryReturnedNull? <==> FindEntry(lib).Some? && FindEntry(lib).value.result.None?
  {
    match FindEntry(lib)
    case None => EntryNotFound
    case Some(entry) =>
      match entry.result
      case None => EntryReturnedNull
      case Some(e) => CheckedEffect(e)
  }

  /** The checks on the effect the entry point returned. */
  function CheckedEffect(e: Effect): (r: OpenOutcome)
    ensures (r.BadMagic? || r.NotAnEffect? || r.Opened?) && r.effect == e
    ensures r.BadMagic? <==> e.magic != EffectMagic
    ensures r.Opened? <==> e.magic == EffectMagic && Category(e) <= PlugCategEffect
  {
    if e.magic != EffectMagic then BadMagic(e)
    else if Category(e) > PlugCategEffect then NotAnEffect(e)
    else Opened(e)
  }

  /** The outcome of `open(path)` under the environment `env`. */
  function Handshake(env: OsEnv<EntryPoint>, path: string): (r: OpenOutcome)
    ensures r.LoadFailed? <==> path !in env.libraries
  {
    if path !in env.libraries then LoadFailed else AfterLoad(env.libraries[path])
  }

  /** `open` succeeds exactly when the path loads, an entry symbol is found, the entry
      returns an effect, its magic is right and its category is at most Effect. */
  lemma OpenedIff(env: OsEnv<EntryPoint>, path: string)
    ensures Handshake(env, path).Opened? <==>
      && path in env.libraries
      && FindEntry(env.libraries[path]).Some?
      && FindEntry(env.libraries[path]).value.result.Some?
      && FindEntry(env.libraries[path]).value.result.value.magic == EffectMagic
      && Category(FindEntry(env.libraries[path]).value.result.value) <= PlugCategEffect
  {
  }

  const CategoryMessagePrefix := "plugin category is not Effect."

  /** The message a failed check after loading pushes. */
  function HandshakeMessage(o: OpenOutcome): string
  {
    match o
    case EntryNotFound => "plugin entrypoint is not found."
    case EntryReturnedNull => "plugin entrypoint returns NULL."
    case BadMagic(_) => "plugin has bad magic number."
    case NotAnEffect(e) => CategoryMessagePrefix + IntToDecimal(Category(e))
    case _ => ""
  }

  /** The one message each failed `open` pushes: the system's error text when loading
      fails. */
  function FailureMessage(o: OpenOutcome, env: OsEnv<EntryPoint>): string
  {
    if o.LoadFailed? then GetLastSystemError(env.systemMessage) else HandshakeMessage(o)
  }

  /** A category reply that does not fit an `int` is compared after truncation: a
      reply of 2^32 + 1 is taken for category 1 and the plugin is accepted. */
  lemma WideCategoryReplyAccepted(e: Effect)
    requires e.magic == EffectMagic && e.categoryReply == 0x1_0000_0001
    ensures Category(e) == 1 && CheckedEffect(e).Opened?
  {
    assert (e.categoryReply + 0x8000_0000) % 0x1_0000_0000 == 0x8000_0001;
  }

  /** The failures after loading push four different messages, and the category message
      carries the category the plugin reported. */
  lemma FailureMessagesDistinct(e: Effect, env: OsEnv<EntryPoint>)
    requires Category(e) > PlugCategEffect
    ensures var msgs := [FailureMessage(EntryNotFound, env), FailureMessage(EntryReturnedNull, env),
                         FailureMessage(BadMagic(e), env), FailureMessage(NotAnEffect(e), env)];
      forall i, j :: 0 <= i < j < |msgs| ==> msgs[i] != msgs[j]
    ensures var msg := FailureMessage(NotAnEffect(e), env);
      |msg| > |CategoryMessagePrefix| &&
      msg[..|CategoryMessagePrefix|] == CategoryMessagePrefix &&
      DecimalValue(msg[|CategoryMessagePrefix|..]) == Category(e)
  {
    var msg := FailureMessage(NotAnEffect(e), env);
    assert msg[|CategoryMessagePrefix|..] == NatToDecimal(Category(e));
    DecimalRoundTrip(Category(e));
    assert msg[..|CategoryMessagePrefix|] == CategoryMessagePrefix;
    assert msg[7] == 'c';
  }

  /** The calls `open` makes into the plugin's dispatcher. */
  function InitCalls(o: OpenOutcome, sampleRate: nat, blockSize: nat): seq<EffectCall>
  {
    match o
    case NotAnEffect(_) => [GetPlugCategoryCall]
    case Opened(e) =>
      [GetPlugCategoryCall, OpenCall, SetSampleRateCall(sampleRate), SetBlockSizeCall(blockSize),
       SetSpeakerArrangementCall(ArrangementFor(e.numInputs), ArrangementFor(e.numOutputs))]
    case _ => []
  }

  /** A successful `open` queries the category, then sends open, the sample rate, the
      block size and the speaker arrangements for the plugin's clamped channel counts. */
  lemma InitCallsOnSuccess(e: Effect, sampleRate: nat, blockSize: nat)
    ensures var calls := InitCalls(Opened(e), sampleRate, blockSize);
      && |calls| == 5
      && calls[0] == GetPlugCategoryCall && calls[1] == OpenCall
      && calls[2] == SetSampleRateCall(sampleRate) && calls[3] == SetBlockSizeCall(blockSize)
      && calls[4].SetSpeakerArrangementCall?
      && calls[4].inputs.numChannels == ClampChannels(e.numInputs)
      && ChannelCount(calls[4].inputs.kind) == ClampChannels(e.numInputs)
      && calls[4].outputs.numChannels == ClampChannels(e.numOutputs)
      && ChannelCount(calls[4].outputs.kind) == ClampChannels(e.numOutputs)
  {
    ArrangementForNamesItsChannels(e.numInputs);
    ArrangementForNamesItsChannels(e.numOutputs);
  }

  /** What `mAEffect` holds after `open`: unchanged when loading or the entry lookup
      fails, the entry's result from then on, with `user` pointing at the handle once
      every check passed. */
  function EffectAfter(o: OpenOutcome, before: Option<Effect>, handle: Vst2x): Option<Effect>
  {
    match o
    case LoadFailed => before
    case EntryNotFound => before
    case EntryReturnedNull => None
    case BadMagic(e) => Some(e)
    case NotAnEffect(e) => Some(e)
    case Opened(e) => Some(e.(user := handle))
  }

  /** A plugin that fails the magic or the category check makes `open` return false,
      yet the handle then holds that effect, so `operator bool` is true. */
  lemma OpenFailsButHoldsEffect(o: OpenOutcome, before: Option<Effect>, handle: Vst2x)
    requires o.BadMagic? || o.NotAnEffect?
    ensures !o.Opened? && EffectAfter(o, before, handle) == Some(o.effect)
  {
  }

  /** The callback wrapper hands the call on to a handle. */
  predicate RoutesToUser(effect: Option<Effect>, opcode: HostOpcode)
  {
    opcode != Version && effect.Some? && effect.value.user != null
  }

  class Vst2x {
    /** `mSampleRate`. */
    const sampleRate: nat
    /** `mBlockSize`. */
    const blockSize: nat
    /** `*mTimeInfo`; allocated without initialisation, so its first contents are
        arbitrary. */
    var timeInfo: TimeInfo
    /** `mLibLoader`. */
    var loader: LibLoader?<EntryPoint>
    /** `mAEffect`. */
    var effect: Option<Effect>
    /** `mFilePath`. */
    var filePath: string
    /** `mLogger`. */
    const log: Logger
    /** The calls made into the plugin's dispatcher, oldest first. */
    var dispatched: seq<EffectCall>

    ghost predicate Valid()
      reads this, log
    {
      log.Valid()
    }

    constructor ()
      ensures Valid() && fresh(log)
      ensures sampleRate == 44100 && blockSize == 2048
      ensures effect == None && loader == null && filePath == ""
      ensures log.queue == [] && log.stream == "" && dispatched == []
    {
      sampleRate := 44100;
      blockSize := 2048;
      loader := null;
      effect := None;
      filePath := "";
      log := new Logger();
      dispatched := [];
    }

    /** `operator bool`. */
    predicate IsOpen()
      reads this
    {
      effect.Some?
    }

    /** `close` is an empty stub. */
    method Close()
      ensures unchanged(this)
    {
    }

    /** The effect name can be asked for: there is an effect and its reply keeps to
        the name buffer. */
    predicate NameAvailable()
      reads this
    {
      effect.Some? && ReplyFits(effect.value.nameReply)
    }

    /** `getEffectName`. */
    method GetEffectName() returns (name: string)
      requires NameAvailable()
      modifies this`dispatched
      ensures name == StringData(effect.value.nameReply)
      ensures dispatched == old(dispatched) + [GetEffectNameCall]
    {
      dispatched := dispatched + [GetEffectNameCall];
      name := StringData(effect.value.nameReply);
    }

    method Open(env: OsEnv<EntryPoint>, fileName: string) returns (ok: bool)
      requires Valid()
      modifies this`loader, this`effect, this`filePath, this`dispatched, log, loader
      ensures Valid()
      ensures ok == Handshake(env, fileName).Opened?
      ensures effect == EffectAfter(Handshake(env, fileName), old(effect), this)
      ensures log.queue == if ok then old(log.queue)
                           else Pushed(old(log.queue), FailureMessage(Handshake(env, fileName), env))
      ensures log.stream == old(log.stream)
      ensures dispatched == old(dispatched) + InitCalls(Handshake(env, fileName), sampleRate, blockSize)
      ensures filePath == if Handshake(env, fileName).LoadFailed? then old(filePath) else fileName
      ensures Handshake(env, fileName).LoadFailed? <==> loader == null
      ensures loader != null ==> fresh(loader) && loader.handle == Some(env.libraries[fileName])
      ensures old(loader) != null ==> !old(loader).IsLoaded()
      ensures ok ==> IsOpen()
      ensures Handshake(env, fileName).BadMagic? || Handshake(env, fileName).NotAnEffect? ==> !ok && IsOpen()
    {
      ghost var o := Handshake(env, fileName);
      Close();
      var loaded := ReplaceLoader(env, fileName);
      if !loaded {
        assert o == LoadFailed && FailureMessage(o, env) == GetLastSystemError(env.systemMessage);
        log.Push(GetLastSystemError(env.systemMessage));
        loader := null;
        return false;
      }
      assert o == AfterLoad(loader.handle.value) && !o.LoadFailed?;
      assert FailureMessage(o, env) == HandshakeMessage(o);
      filePath := fileName;
      ok := SetAEffect();
    }

    /** The loader assignment and load of `open`: the previous loader is destroyed, which
        frees its library, and a new one loads the path. */
    method ReplaceLoader(env: OsEnv<EntryPoint>, fileName: string) returns (loaded: bool)
      modifies this`loader, loader
      ensures loader != null && fresh(loader)
      ensures loaded == (fileName in env.libraries) == loader.IsLoaded()
      ensures loaded ==> loader.handle == Some(env.libraries[fileName])
      ensures old(loader) != null ==> !old(loader).IsLoaded()
    {
      if loader != null {
        loader.Free();
      }
      loader := new LibLoader<EntryPoint>();
      var r := loader.Load(env, fileName);
      loaded := r.value;
    }

    /** `setAEffect`: resolves the entry point, calls it, checks the effect and sends the
        initial configuration. */
    method SetAEffect() returns (ok: bool)
      requires Valid() && loader != null && loader.IsLoaded()
      modifies this`effect, this`dispatched, log
      ensures Valid()
      ensures ok == AfterLoad(loader.handle.value).Opened?
      ensures effect == EffectAfter(AfterLoad(loader.handle.value), old(effect), this)
      ensures log.queue == if ok then old(log.queue)
                           else Pushed(old(log.queue), HandshakeMessage(AfterLoad(loader.handle.value)))
      ensures log.stream == old(log.stream)
      ensures dispatched == old(dispatched) + InitCalls(AfterLoad(loader.handle.value), sampleRate, blockSize)
    {
      ghost var o := AfterLoad(loader.handle.value);
      var entryPoint := ResolveEntry();
      if entryPoint.None? {
        assert o == EntryNotFound;
        log.Push("plugin entrypoint is not found.");
        return false;
      }
      effect := entryPoint.value.result;
      if effect.None? {
        assert o == EntryReturnedNull;
        log.Push("plugin entrypoint returns NULL.");
        return false;
      }
      assert o == CheckedEffect(effect.value);
      ok := CheckEffect(effect.value);
    }

    /** The magic and category checks of `setAEffect` on the effect it holds, and the
        configuration sent when both pass. */
    method CheckEffect(e: Effect) returns (ok: bool)
      requires Valid() && effect == Some(e)
      modifies this`effect, this`dispatched, log
      ensures Valid()
      ensures ok == CheckedEffect(e).Opened?
      ensures effect == EffectAfter(CheckedEffect(e), old(effect), this)
      ensures log.queue == if ok then old(log.queue)
                           else Pushed(old(log.queue), HandshakeMessage(CheckedEffect(e)))
      ensures log.stream == old(log.stream)
      ensures dispatched == old(dispatched) + InitCalls(CheckedEffect(e), sampleRate, blockSize)
    {
      if e.magic != EffectMagic {
        log.Push("plugin has bad magic number.");
        return false;
      }
      dispatched := dispatched + [GetPlugCategoryCall];
      var categ := ToInt32(e.categoryReply);
      if categ > PlugCategEffect {
        log.Push(CategoryMessagePrefix + IntToDecimal(categ));
        return false;
      }
      effect := Some(e.(user := this));
      SendInitialConfiguration(e);
      ok := true;
    }

    /** The entry-symbol fallback chain. */
    method ResolveEntry() returns (entryPoint: Option<EntryPoint>)
      requires loader != null && loader.IsLoaded()
      ensures entryPoint == FindEntry(loader.handle.value)
    {
      FindEntryOrder(loader.handle.value);
      var found := loader.GetProcAddress("VSTPluginMain");
      entryPoint := found.value;
      if entryPoint.None? {
        found := loader.GetProcAddress("VSTPluginMain()");
        entryPoint := found.value;
      }
      if entryPoint.None? {
        found := loader.GetProcAddress("main");
        entryPoint := found.value;
      }
    }

    /** The opcodes sent once the effect passed every check. */
    method SendInitialConfiguration(e: Effect)
      modifies this`dispatched
      ensures dispatched == old(dispatched) + InitCalls(Opened(e), sampleRate, blockSize)[1..]
    {
      dispatched := dispatched + [OpenCall, SetSampleRateCall(sampleRate), SetBlockSizeCall(blockSize)];
      var inSpeakers := new SpeakerArrangement();
      SetSpeakers(inSpeakers, e.numInputs);
      var outSpeakers := new SpeakerArrangement();
      SetSpeakers(outSpeakers, e.numOutputs);
      dispatched := dispatched + [SetSpeakerArrangementCall(inSpeakers.Value(), outSpeakers.Value())];
    }

    /** `setTempo`. */
    method SetTempo(tempo: real)
      modifies this`timeInfo
      ensures timeInfo == WithTempo(old(timeInfo), sampleRate, tempo)
    {
      timeInfo := timeInfo.(sampleRate := sampleRate as real);
      timeInfo := timeInfo.(flags := timeInfo.flags | TransportPlaying);
      timeInfo := timeInfo.(tempo := tempo);
      timeInfo := timeInfo.(flags := timeInfo.flags | TempoValid);
    }

    /** The `unsupportedOpcode` lambda. */
    method UnsupportedOpcode(opcodeName: string)
      requires Valid() && NameAvailable()
      modifies log, this`dispatched
      ensures Valid()
      ensures log.queue == Pushed(old(log.queue), UnsupportedMessage(StringData(effect.value.nameReply), opcodeName))
      ensures log.stream == old(log.stream)
      ensures dispatched == old(dispatched) + [GetEffectNameCall]
    {
      var name := GetEffectName();
      log.Push(UnsupportedMessage(name, opcodeName));
    }

    /** The call reports the opcode as unsupported. */
    predicate Reports(aEffect: Option<Effect>, opcode: HostOpcode)
    {
      aEffect.Some? && UnsupportedLabel(opcode).Some?
    }

    /** What the switch does to the handle for an opcode: one log message and one
        effect-name query for exactly the opcodes it reports as unsupported, and every
        other field of the handle as it was. */
    twostate predicate Answered(opcode: HostOpcode)
      requires UnsupportedLabel(opcode).Some? ==> old(NameAvailable())
      reads this, log
    {
      && effect == old(effect)
      && timeInfo == old(timeInfo) && loader == old(loader) && filePath == old(filePath)
      && log.queue == (if UnsupportedLabel(opcode).Some?
                       then Pushed(old(log.queue), UnsupportedMessage(StringData(effect.value.nameReply), UnsupportedLabel(opcode).value))
                       else old(log.queue))
      && log.stream == old(log.stream)
      && dispatched == (if UnsupportedLabel(opcode).Some? then old(dispatched) + [GetEffectNameCall] else old(dispatched))
    }

    /** The cases of the switch that call `unsupportedOpcode`, with their labels. */
    method ReportUnsupported(opcode: HostOpcode)
      requires Valid() && (UnsupportedLabel(opcode).Some? ==> NameAvailable())
      modifies log, this`dispatched
      ensures Valid()
      ensures Answered(opcode)
    {
      var unsupported := UnsupportedLabel(opcode);
      if unsupported.Some? {
        UnsupportedOpcode(unsupported.value);
      }
    }

    /** The `switch` of `hostCallback`, reached by every call that has an effect. */
    method Switch(e: Effect, opcode: HostOpcode, data: HostData) returns (result: Answer)
      requires Valid() && DataFits(opcode, data)
      requires UnsupportedLabel(opcode).Some? ==> NameAvailable()
      modifies log, this`dispatched, if data.Buffer? then {data.buf} else {}
      ensures Valid()
      ensures result == Reply(opcode, e.uniqueID, sampleRate, blockSize, data)
      ensures Answered(opcode)
      ensures opcode == GetVendorString ==>
        data.buf[..] == StrNCopied(old(data.buf[..]), VendorString, MaxVendorStrLen)
      ensures opcode == GetProductString ==>
        data.buf[..] == StrNCopied(old(data.buf[..]), ProductString, MaxProductStrLen)
      ensures data.Buffer? && opcode != GetVendorString && opcode != GetProductString ==> unchanged(data.buf)
    {
      // the switch is split by what its cases do: the ones that call
      // `unsupportedOpcode` are the table UnsupportedLabel, the two string queries copy
      // into the plugin's buffer, and the value every case leaves is the function Reply;
      // no opcode is in more than one of these groups
      result := Reply(opcode, e.uniqueID, sampleRate, blockSize, data);
      ReportUnsupported(opcode);
      CopyStringReply(opcode, data);
    }

    /** `hostCallback`. */
    method HostCallback(aEffect: Option<Effect>, opcode: HostOpcode, data: HostData) returns (result: Answer)
      requires Valid() && (aEffect.Some? ==> DataFits(opcode, data))
      requires Reports(aEffect, opcode) ==> NameAvailable()
      modifies log, this`dispatched, if data.Buffer? then {data.buf} else {}
      ensures Valid()
      ensures result == if aEffect.None? then Value(0)
                        else Reply(opcode, aEffect.value.uniqueID, sampleRate, blockSize, data)
      ensures aEffect.Some? ==> Answered(opcode)
      ensures aEffect.None? ==> unchanged(this, log)
      ensures aEffect.Some? && opcode == GetVendorString ==>
        data.buf[..] == StrNCopied(old(data.buf[..]), VendorString, MaxVendorStrLen)
      ensures aEffect.Some? && opcode == GetProductString ==>
        data.buf[..] == StrNCopied(old(data.buf[..]), ProductString, MaxProductStrLen)
      ensures data.Buffer? && (aEffect.None? || (opcode != GetVendorString && opcode != GetProductString)) ==>
        unchanged(data.buf)
    {
      if aEffect.None? {
        return Value(0);
      }
      result := Switch(aEffect.value, opcode, data);
    }
  }

  /** The cases of the switch that copy a literal into the plugin's buffer. */
  method CopyStringReply(opcode: HostOpcode, data: HostData)
    requires DataFits(opcode, data)
    modifies if data.Buffer? then {data.buf} else {}
    ensures opcode == GetVendorString ==>
      data.buf[..] == StrNCopied(old(data.buf[..]), VendorString, MaxVendorStrLen)
    ensures opcode == GetProductString ==>
      data.buf[..] == StrNCopied(old(data.buf[..]), ProductString, MaxProductStrLen)
    ensures data.Buffer? && opcode != GetVendorString && opcode != GetProductString ==> unchanged(data.buf)
  {
    if opcode == GetVendorString {
      StrNCopy(data.buf, VendorString, MaxVendorStrLen);
    } else if opcode == GetProductString {
      StrNCopy(data.buf, ProductString, MaxProductStrLen);
    }
  }

  /** The callback function handed to the entry point: the version query is answered
      before anything else, an effect without a `user` handle gets 0, and every other
      call goes to the handle's `HostCallback`. */
  method HostTrampoline(aEffect: Option<Effect>, opcode: HostOpcode, data: HostData) returns (r: Answer)
    requires RoutesToUser(aEffect, opcode) ==>
      DataFits(opcode, data) &&
      aEffect.value.user.Valid() &&
      (UnsupportedLabel(opcode).Some? ==> aEffect.value.user.NameAvailable())
    modifies if RoutesToUser(aEffect, opcode) then {aEffect.value.user, aEffect.value.user.log} else {}
    modifies if data.Buffer? then {data.buf} else {}
    ensures opcode == Version ==> r == Value(VstVersion)
    ensures opcode != Version && !RoutesToUser(aEffect, opcode) ==> r == Value(0)
    ensures RoutesToUser(aEffect, opcode) ==>
      r == Reply(opcode, aEffect.value.uniqueID, aEffect.value.user.sampleRate, aEffect.value.user.blockSize, data)
    ensures !RoutesToUser(aEffect, opcode) && data.Buffer? ==> data.buf[..] == old(data.buf[..])
    ensures RoutesToUser(aEffect, opcode) ==> aEffect.value.user.Answered(opcode)
    ensures RoutesToUser(aEffect, opcode) && opcode == GetVendorString ==>
      data.buf[..] == StrNCopied(old(data.buf[..]), VendorString, MaxVendorStrLen)
    ensures RoutesToUser(aEffect, opcode) && opcode == GetProductString ==>
      data.buf[..] == StrNCopied(old(data.buf[..]), ProductString, MaxProductStrLen)
    ensures RoutesToUser(aEffect, opcode) && data.Buffer? && opcode != GetVendorString && opcode != GetProductString ==>
      data.buf[..] == old(data.buf[..])
  {
    if opcode == Version {
      return Value(VstVersion);
    }
    if aEffect.None? || aEffect.value.user == null {
      return Value(0);
    }
    var vst := aEffect.value.user;
    r := vst.HostCallback(aEffect, opcode, data);
  }
}
