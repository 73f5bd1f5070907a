# vst-fx-loader: a verified model of the host core

vst-fx-loader is a single-header C++ host for VST 2.x audio-effect plugins on Windows.
This project models its self-contained logic in Dafny:

- the diagnostic `Logger`: a bounded FIFO of messages and the text stream it drains into;
- the `LibLoader` state machine (Unloaded / Loaded) that owns a plugin library;
- the newline trim `GetLastSystemError` applies to the system's error text;
- the `Vst2x::open` / `setAEffect` handshake:
  - the entry-symbol fallback;
  - the ordered checks, each logging its own message;
  - the calls sent into the plugin once it is accepted;
- `setSpeakers`, which fills the speaker-arrangement records;
- `getStringData` and `getParameterProperties`, which read the plugin's replies;
- `setTempo`, which updates the time-info record;
- `hostCallback`, with its `canDo` table and its log of unsupported opcodes, and the trampoline lambda that routes plugin calls to it.

The operating system becomes an environment value, `OsEnv`, which gives:

- the libraries each path loads;
- the symbols each library exports;
- the raw text the system's message formatter returns.

The plugin becomes an `Effect` record whose dispatcher answers are fixed data. The calls the handle makes into the dispatcher are recorded, in order, in the `dispatched` trace of `Vst2x`.

Modules:

| module | file | models |
|---|---|---|
| `Common` | `common.dfy` | optional values, results of calls that may throw, reading a C string out of a buffer, decimal rendering |
| `Logging` | `logger.dfy` | `Logger`, `ResetStream` |
| `Loading` | `lib_loader.dfy` | `LibLoader`, the trim done by `GetLastSystemError` |
| `Speakers` | `speakers.dfy` | `setSpeakers`, `VstSpeakerArrangement` |
| `Timing` | `time_info.dfy` | `setTempo` as a function on the time-info record |
| `PluginQueries` | `plugin_queries.dfy` | `ParamProperties`, `getParameterProperties`, `getStringData` |
| `HostReplies` | `host_callback.dfy` | the opcodes, the replies of `hostCallback`'s switch, the `canDo` table, `strncpy` |
| `Vst2xHost` | `vst2x.dfy` | class `Vst2x`: `open`, `setAEffect`, `close`, `operator bool`, `getEffectName`, `setTempo`, `hostCallback`; the trampoline |

The numeric SDK constants are the values of the VST 2.4 SDK:

| constant | value |
|---|---|
| `kEffectMagic` | `'VstP'` (0x56737450) |
| `kPlugCategEffect` | 1 |
| `kVstVersion` | 2400 |
| `kVstTransportPlaying` | 0x2 |
| `kVstTempoValid` | 0x400 |
| `kVstParameterIsSwitch` | 0x1 |
| `kVstParameterUsesIntegerMinMax` | 0x10 |
| `kVstMaxNameLen`, `kVstMaxVendorStrLen`, `kVstMaxProductStrLen` | 64 |
| `kVstLangEnglish` | 1 |
| `kVstProcessLevelUnknown` | 0 |
| `kVstAutomationUnsupported` | 0 |

Four behaviours of the code are easy to misread, and the model keeps each as written:

- **Log bound.** `mMaxQueueSize` is 16 (vst_fx_loader.h:112), but the size check `size() > mMaxQueueSize` at vst_fx_loader.h:818 runs before `push_back`. So a queue of 16 still grows, and up to 17 messages are held. `SeventeenPushesKeepAll` and `EighteenthPushEvictsOldest` state this.
- **Opcodes that log nothing.** The `hostCallback` cases for `audioMasterAutomate` (vst_fx_loader.h:512), `audioMasterGetInputLatency` and `audioMasterGetOutputLatency` (552-557) and `audioMasterUpdateDisplay` (641) only `break`. Only the cases that call `unsupportedOpcode` log (533-646).
- **The trim.** `GetLastSystemError` replaces only the first `'\n'` by an empty string (vst_fx_loader.h:716-720). The `'\r'` of a `"\r\n"` ending stays (`TrimLeavesCarriageReturn`).
- **Failed open.** `setAEffect` assigns `mAEffect` from the entry point before checking it (vst_fx_loader.h:332). It never resets it when the magic check (351-354) or the category check (356-363) fails. `open` then returns false while `operator bool` (252-255) is true (`EffectAfter`, `OpenFailsButHoldsEffect`, and the last ensures of `Open`). When loading or the entry lookup fails, `mAEffect` keeps its earlier value.

## Model

| member | source | states |
|---|---|---|
| Common.UntilNul | vst_fx_loader.h:306 | the string built from a character buffer is the text before the first NUL: it holds no NUL, is a prefix of the buffer that stops at a NUL, and is the whole buffer when there is none |
| Common.UntilNulOfTerminated | vst_fx_loader.h:306 | a NUL-terminated text reads back as itself, whatever follows the terminator |
| Common.NatToDecimal | vst_fx_loader.h:358-361 | what `stringstream << categ` writes: a non-empty string of decimal digits without a leading zero |
| Common.DecimalRoundTrip | vst_fx_loader.h:358-361 | the rendered digits denote the number rendered |
| Common.IntToDecimal | vst_fx_loader.h:358-361 | what `ss << categ` writes for any `int`: a minus sign before the digits of a negative value; the digits are pinned down by `NatToDecimal` and `DecimalRoundTrip` |
| Common.ToInt32 | vst_fx_loader.h:356 | the conversion to `int`: a value in the 32-bit range; equal to the input when that is in range; congruent to it modulo 2^32 |
| Logging.Pushed | vst_fx_loader.h:815-824 | after `push` the new message is last; the oldest is dropped exactly when more than 16 were held; the rest keep their order |
| Logging.PushAll | vst_fx_loader.h:815-824 | the queue after pushing a sequence of messages one `push` at a time; `PushAllKeepsNewest` shows it is the newest 17 in order |
| Logging.PushStep | vst_fx_loader.h:815-824 | one push, then keeping the newest of the rest, keeps the newest of all |
| Logging.PushAllKeepsNewest | vst_fx_loader.h:815-824 | any sequence of pushes leaves the newest 17 messages (all when fewer) in push order |
| Logging.SeventeenPushesKeepAll | vst_fx_loader.h:815-824 | seventeen pushes into an empty log keep all seventeen |
| Logging.EighteenthPushEvictsOldest | vst_fx_loader.h:815-824 | the eighteenth push evicts the first message |
| Logging.LinesOfLine | vst_fx_loader.h:836 | a line without a newline, followed by `"\n"`, is split off as one line |
| Logging.Render | vst_fx_loader.h:831-841 | the text `toStream` writes: each message followed by `"\n"`; `LinesOfRender` shows it splits back into the queue, `RenderAppend` that it can be built piece by piece, and `ToStream` ensures the loop writes it |
| Logging.LinesOfRender | vst_fx_loader.h:831-841 | the drained text splits back into the queued messages, in order, when none contains a newline |
| Logging.RenderAppend | vst_fx_loader.h:834-839 | draining the queue piece by piece writes the same text as draining it at once |
| Logging.DrainStep | vst_fx_loader.h:834-839 | one more pass of the drain loop extends the text by the next message and a newline, which is the rendering of one more message (by `RenderAppend`) |
| Logging.Logger.constructor | vst_fx_loader.h:811-813 | empty queue and empty text |
| Logging.Logger.Push | vst_fx_loader.h:815-824 | the queue becomes `Pushed(old queue, message)`; the text is unchanged; at most 17 held |
| Logging.Logger.ResetStream | vst_fx_loader.h:802-808 | the stream's text is empty |
| Logging.Logger.ToStream | vst_fx_loader.h:831-841 | the stream is reset and then holds every queued message, oldest first, each followed by `"\n"`; the queue is empty; `toString` returns that text |
| Logging.Logger.Clear | vst_fx_loader.h:843-850 | both the queue and the text are empty |
| Logging.Logger.ToString | vst_fx_loader.h:826-829 | reads the stream's text without touching the queue: after `ToStream` it is the rendered queue, and `Push` leaves it unchanged (their ensures) |
| Loading.Resolve | vst_fx_loader.h:790 | a symbol resolves exactly when the library exports it, to what it exports |
| Loading.TrimFirstNewline | vst_fx_loader.h:715-720 | text without a newline is unchanged; otherwise exactly one `'\n'` is removed and every other character count is kept |
| Loading.TrimKeepsBothSides | vst_fx_loader.h:715-720 | the trim keeps everything before and after the first newline |
| Loading.TrimLeavesCarriageReturn | vst_fx_loader.h:715-720 | a `"\r\n"` ending becomes `"\r"` |
| Loading.GetLastSystemError | vst_fx_loader.h:701-722 | the system text up to its terminator with the first newline removed: holds no NUL; unchanged when there is no newline before the terminator; one character shorter otherwise |
| Loading.LibLoader.constructor | vst_fx_loader.h:729-731 | a new loader is Unloaded |
| Loading.LibLoader.IsLoaded | vst_fx_loader.h:754-757 | `operator bool`: true exactly while a library is held; `Load`, `Free` and `MoveFrom` state their results with it |
| Loading.LibLoader.Load | vst_fx_loader.h:759-774 | on a Loaded instance it throws "Reload LibLoader." and changes nothing; otherwise it returns whether the path loads, and is Loaded with that library exactly then |
| Loading.LibLoader.Free | vst_fx_loader.h:776-782 | afterwards Unloaded; on an Unloaded instance nothing changes |
| Loading.LibLoader.GetProcAddress | vst_fx_loader.h:784-791 | on an Unloaded instance it throws "getProcAddress() call empty LibLoader."; otherwise it returns the symbol's value or NULL |
| Loading.LibLoader.MoveFrom | vst_fx_loader.h:738-752 | self-assignment changes nothing; otherwise this instance takes the source's library and the source is Unloaded |
| Speakers.ClampChannels | vst_fx_loader.h:277 | `min(max(channels, 0), 8)` |
| Speakers.ArrangementFor | vst_fx_loader.h:273-300 | the record `setSpeakers` leaves for a channel count; `ArrangementForNamesItsChannels` pins down its count, type and speakers, and `SetSpeakers` ensures the record equals it |
| Speakers.ArrangementForNamesItsChannels | vst_fx_loader.h:277-299 | the count stored is the clamped count, the type taken from the table names that many speakers, and exactly the speakers below it are undefined |
| Speakers.SpeakerArrangement.constructor | vst_fx_loader.h:374-377 | a record with eight speaker slots and arbitrary contents |
| Speakers.SetSpeakers | vst_fx_loader.h:273-300 | count clamped; type `types[count]`; speakers below the count undefined with zero coordinates and an empty name; every other byte zero from the `memset` |
| Timing.WithTempo | vst_fx_loader.h:476-486 | tempo set, sample rate set, the playing and tempo-valid bits set, every other flag bit and field unchanged |
| Timing.WithTempoIdempotent | vst_fx_loader.h:476-486 | setting the same tempo twice equals setting it once |
| Timing.LaterTempoWins | vst_fx_loader.h:476-486 | after two calls only the second tempo is visible |
| PluginQueries.ParameterProperties | vst_fx_loader.h:389-401 | defaults false/0/1 when the plugin does not answer; `isSwitch` is exactly the switch bit; min/max come from the integers exactly when the integer bit is set |
| PluginQueries.ParameterPropertiesIgnoresOtherFlags | vst_fx_loader.h:393-398 | flag bits other than those two make no difference |
| PluginQueries.NameBuffer | vst_fx_loader.h:303-304 | the zeroed 65-character buffer after the plugin's write |
| PluginQueries.StringData | vst_fx_loader.h:302-307 | the name is the reply up to its first NUL: no NUL, at most 64 characters, a prefix of the reply |
| PluginQueries.StringDataOfTerminatedName | vst_fx_loader.h:302-307 | a name the plugin terminates reads back exactly |
| HostReplies.CanDoAnswers | vst_fx_loader.h:585-615 | `canDo` gives 1 for exactly "sendVstTimeInfo", "startStopProcess" and "shellCategory", and 0 otherwise, including the empty name and unlisted names |
| HostReplies.CanDoAnswer | vst_fx_loader.h:585-615 | the capability query answers 0 or 1 |
| HostReplies.Reply | vst_fx_loader.h:509-650 | the value the switch leaves: the time-info address exactly for `audioMasterGetTime`, 0 or 1 for `audioMasterCanDo` (the constants in `FixedReplies` and `UnsupportedRepliesZero`) |
| HostReplies.FixedReplies | vst_fx_loader.h:515-577 | version 2400, current id the effect's `uniqueID`, idle 1, sample rate and block size the handle's, vendor version 1, get-time the time-info record |
| HostReplies.UnsupportedRepliesZero | vst_fx_loader.h:532-647 | each opcode routed to `unsupportedOpcode` returns 0 |
| HostReplies.UnsupportedLabel | vst_fx_loader.h:532-647 | which cases of the switch call `unsupportedOpcode`, and the label each passes (`"dont care"` for an opcode the switch does not name); `UnsupportedLabelsDistinct` shows the named labels differ, `UnsupportedRepliesZero` that those cases answer 0 |
| HostReplies.UnsupportedMessage | vst_fx_loader.h:505 | the text the `sprintf` format gives for an effect name and a label; `UnsupportedOpcode` ensures it is what is pushed |
| HostReplies.UnsupportedLabelsDistinct | vst_fx_loader.h:532-647 | the named unsupported opcodes are logged under pairwise distinct labels |
| HostReplies.StrNCopied | vst_fx_loader.h:567-575 | `strncpy` leaves the buffer's length and everything from the bound on unchanged |
| HostReplies.StrNCopiedReadsBack | vst_fx_loader.h:567-575 | a string shorter than the bound reads back exactly, its terminator copied too |
| HostReplies.LiteralsReadBack | vst_fx_loader.h:567-575 | "vendor string" and "vst-fx-loader" read back whole from the 64-character buffers |
| HostReplies.StrNCopy | vst_fx_loader.h:567-575 | the array becomes `StrNCopied` of its old contents |
| Vst2xHost.FirstExported | vst_fx_loader.h:318-326 | the first name the library exports, none before it |
| Vst2xHost.FindEntry | vst_fx_loader.h:318-326 | the entry point the fallback chain finds; `FindEntryOrder` fixes which name wins, and `ResolveEntry` ensures the three `getProcAddress` calls find it |
| Vst2xHost.FindEntryOrder | vst_fx_loader.h:318-326 | "VSTPluginMain" when exported, else "VSTPluginMain()", else "main", else no entry |
| Vst2xHost.OpenedIff | vst_fx_loader.h:235-381 | `open` succeeds exactly when the path loads, an entry is found, it returns an effect, the magic is right and the category is at most Effect |
| Vst2xHost.Handshake | vst_fx_loader.h:235-246 | the outcome of `open`: `LoadFailed` exactly when the path does not load |
| Vst2xHost.AfterLoad | vst_fx_loader.h:316-363 | never `LoadFailed`; `EntryNotFound` exactly when no entry symbol is exported; `EntryReturnedNull` exactly when the entry found returns NULL |
| Vst2xHost.CheckedEffect | vst_fx_loader.h:346-363 | holds the effect checked; bad magic exactly when the magic is wrong; opened exactly when the magic is right and the category is at most Effect |
| Vst2xHost.Category | vst_fx_loader.h:356 | the category compared: the dispatcher's reply stored into an `int` (`ToInt32`); `WideCategoryReplyAccepted` shows what the truncation lets through |
| Vst2xHost.WideCategoryReplyAccepted | vst_fx_loader.h:356-357 | a category reply of 2^32 + 1 is read as category 1, so the plugin passes the check |
| Vst2xHost.FailureMessagesDistinct | vst_fx_loader.h:328-360 | the four failures after loading log four different messages; the category message ends with the category, as stored in `int`, in decimal |
| Vst2xHost.HandshakeMessage | vst_fx_loader.h:328-361 | the message each failed check after loading pushes; `FailureMessagesDistinct` shows the four differ and the category message carries the category |
| Vst2xHost.FailureMessage | vst_fx_loader.h:239-241 | the one message a failed `open` pushes: the system error text when loading fails, otherwise the check's message; `Open` ensures it is pushed exactly on failure |
| Vst2xHost.InitCalls | vst_fx_loader.h:356-378 | the dispatcher calls `open` makes for each outcome: none before the category query, only it after a wrong category, all five after success; `InitCallsOnSuccess` spells out the five |
| Vst2xHost.InitCallsOnSuccess | vst_fx_loader.h:362-379 | on success the category query is followed by open, sample rate, block size and the two arrangements built from the clamped channel counts |
| Vst2xHost.OpenFailsButHoldsEffect | vst_fx_loader.h:346-360 | after a bad magic or category `open` fails but the handle holds the effect |
| Vst2xHost.EffectAfter | vst_fx_loader.h:332-365 | what `mAEffect` holds after `open` for each outcome: the earlier value when loading or the entry lookup fails, NULL, the unchecked effect after a failed check, the effect with `user` set after success; `OpenFailsButHoldsEffect` draws the consequence |
| Vst2xHost.Vst2x.constructor | vst_fx_loader.h:222-228 | sample rate 44100, block size 2048, no effect, no loader, empty log |
| Vst2xHost.Vst2x.Close | vst_fx_loader.h:248-250 | changes nothing |
| Vst2xHost.Vst2x.GetEffectName | vst_fx_loader.h:384-387 | the effect-name query's reply read up to its first NUL; one dispatcher call recorded |
| Vst2xHost.Vst2x.IsOpen | vst_fx_loader.h:252-255 | `operator bool`: an effect is held; `Open` ensures it after a success and after a bad magic or category |
| Vst2xHost.Vst2x.Open | vst_fx_loader.h:235-246 | the outcome is `Handshake(env, path)`: returns true exactly on `Opened`; the effect, the log (one message on each failure, the system text when loading fails), the dispatch trace, the path kept and the new loader all follow that outcome; the old loader's library is freed; `operator bool` is true after a success and also after a bad magic or category |
| Vst2xHost.Vst2x.ReplaceLoader | vst_fx_loader.h:238-239 | the old loader is freed and a fresh one is Loaded exactly when the path loads |
| Vst2xHost.Vst2x.SetAEffect | vst_fx_loader.h:316-381 | the outcome is `AfterLoad(library)`; effect, log and dispatch trace follow it |
| Vst2xHost.Vst2x.ResolveEntry | vst_fx_loader.h:318-326 | the three-step `getProcAddress` fallback finds `FindEntry(library)` |
| Vst2xHost.Vst2x.CheckEffect | vst_fx_loader.h:346-379 | the magic check, then the category query and check, then `user` set to the handle and the configuration sent |
| Vst2xHost.Vst2x.SendInitialConfiguration | vst_fx_loader.h:366-379 | open, sample rate, block size, then the speaker arrangements of the effect's channel counts |
| Vst2xHost.Vst2x.SetTempo | vst_fx_loader.h:476-486 | the time-info record becomes `WithTempo` of the old one |
| Vst2xHost.Vst2x.UnsupportedOpcode | vst_fx_loader.h:502-507 | pushes "[name] @callback unsupported opcode (label)" with the effect's name |
| Vst2xHost.Vst2x.ReportUnsupported | vst_fx_loader.h:532-647 | `Answered`: the opcodes with a label log one message and make one effect-name query; no other opcode logs or queries, and no other field of the handle changes |
| Vst2xHost.Vst2x.Switch | vst_fx_loader.h:509-650 | the value the switch leaves is `Reply`; the handle changes as `Answered` says (one log message and one effect-name query for exactly the opcodes with a label, every other field as it was); the literal is copied for the two string queries and the buffer is untouched otherwise |
| Vst2xHost.Vst2x.HostCallback | vst_fx_loader.h:498-651 | a NULL effect gets 0 and changes neither the handle nor its log; otherwise the switch's `Reply`, the handle changed as `Answered` says, the literal copied for the two string queries and the buffer untouched otherwise |
| Vst2xHost.CopyStringReply | vst_fx_loader.h:567-575 | the two string queries copy their literal with `strncpy`; no other opcode touches the buffer |
| Vst2xHost.HostTrampoline | vst_fx_loader.h:332-344 | the version query gets `kVstVersion` before anything else; an effect without `user` gets 0 and changes nothing; every other call gets the handle's reply, leaves the handle's other fields alone and has the handle's effects: one log message and one effect-name query for exactly the unsupported opcodes, the literal copied for the two string queries, the buffer untouched otherwise |

## Left out

- The Windows API is replaced by `OsEnv`: `LoadLibraryExA`, `GetProcAddress`, `FreeLibrary`, `GetLastError` and `FormatMessageA`. The 2047-character limit of the formatted message is not modelled either. The environment also stands for an uninitialised buffer when formatting fails.
- `std::mutex` in `Logger`: the model is sequential.
- Forwarding to the plugin's function pointers is not modelled, because these calls only pass through:
  - `processReplacing`, `getParameter`, `setParameter`;
  - `numParams`, `numPrograms`;
  - `resume`, `suspend`;
  - `setProgram`, `getProgram`, `getProgramName`;
  - `getParamDisplay`, `getParamName`, `getParamLabel`, `getVendorString`;
  - the raw `dispatcher` wrapper.
- Float conversions are not modelled:
  - the sample rate sent with `effSetSampleRate`;
  - the integer-to-float min/max of `getParameterProperties`;
  - the coordinates of the speaker records.

  Tempo and min/max are exact reals.
- The SDK's numeric opcode values and structure layouts are not modelled: opcodes form a datatype, and `Unlisted` stands for every code the switch does not name.
- The `future` bytes of the speaker records are not modelled.
- The fields of `VstTimeInfo` that `setTempo` does not write are reduced to one field, `samplePos`.
- `Vst2x::operator=` (move assignment) is not modelled; `LibLoader`'s move assignment is.
- Calls the plugin makes back into the host from inside a call the host makes are not modelled. The entry function is a fixed result. The dispatcher calls are fixed answers: `effGetPlugCategory`, `effOpen`, `effSetSampleRate`, `effSetBlockSize`, `effSetSpeakerArrangement`, and the `effGetEffectName` inside `unsupportedOpcode`. Once `user` is set (vst_fx_loader.h:365), such a nested callback would reach `hostCallback`, which may push log messages and make more dispatcher calls. So the log and `dispatched` clauses of `Open`, `SetAEffect`, `CheckEffect`, `SendInitialConfiguration`, `GetEffectName`, `UnsupportedOpcode`, `ReportUnsupported`, `Switch` and `HostCallback` hold only for a plugin that does not call back during those calls.
- The plugin's `AEffect` is a value, `Effect`. The `user` write at vst_fx_loader.h:365 changes the plugin's own struct. In the model it reaches only the handle's `effect` field, not the record the entry point returns in `OsEnv`, so a second `open` of the same library sees `user` as it was before.
- The `index`, `value` and `opt` arguments of `hostCallback`: no modelled case reads them.
- The ownership leaks of `unique_ptr::release()` are not modelled; only the resulting Unloaded or NULL state is.
- Vst2xHost.Vst2x.GetEffectName: requires an effect whose reply fits the 65-character buffer (`NameAvailable()`). The C++ code dereferences `mAEffect` unchecked and would crash without an effect. `UnsupportedOpcode`, `ReportUnsupported`, `Switch` and `HostCallback` (for the logging cases) and `HostTrampoline` (for the routed logging cases) inherit this requirement, because `unsupportedOpcode` calls `getEffectName`.
- Vst2xHost.Vst2x.HostCallback: requires data that fits the opcode. For the string queries that is a buffer of at least 64 characters; for `canDo` it is a string. Only a call with an effect needs it: a NULL effect is answered 0 before the switch (vst_fx_loader.h:500), and the trampoline needs it only for the calls it routes, because it answers the version query and calls without `user` itself (334-340). Past those guards the C++ code reads or writes through the raw pointer unchecked.
- Vst2xHost.Vst2x.Switch: the switch is split into three parts, because no opcode belongs to more than one of them:
  1. the value table `Reply`;
  2. the logging cases;
  3. the two buffer copies.
- The `sprintf` into a 2048-byte buffer in `unsupportedOpcode` is modelled as string concatenation. The name it formats is at most 64 characters, so the buffer cannot overflow.
- The demo program `vs2015-example/vs2015-example/Source.cpp` is not part of this model.
