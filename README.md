# Fabric Canvas bridge for Modo: registry, channel adapter, log shaping

This project models the core of the SpliceModo plugin. The plugin hosts Fabric
Engine Canvas graphs inside Modo items. Three parts are modelled.

- **`BaseInterface`** (`base_interface.dfy`, `port_readers.dfy`): the bridge
  between one Modo item and its Canvas graph.
  - A process-wide registry maps instance ids to instances. Each new instance
    takes the next id from an unsigned 32-bit counter.
  - The shared runtime is the client, host, KL AST manager and command stack.
    The construction that finds the registry empty builds it, step by step,
    and an engine exception stops the setup at the step that throws. The
    destruction that leaves the registry empty tears it down.
  - `getJSON` and `setFromJSON` log engine exceptions instead of raising them.
  - The three port-event handlers turn graph port insertions, removals and
    renames into user-channel commands on the Modo item. Insertion goes
    through a closed table from Fabric type names to Modo channel types.
  - The typed port readers (`GetPortValueAs*`) read a port's value with strict
    or non-strict coercion. They return 0 (success), -1 (no viable conversion
    or empty type), -2 (invalid port), -3 (recognised but not implemented) or
    -4 (the engine threw).
- **`ModoTools`** (`modo_tools.dfy`, `channel_readers.dfy`): the host channel
  adapter.
  - `HasChannel` resolves a logical channel name with the suffix priority
    exact, `.X`, `.R`, `.U`.
  - `ExecuteCommand` runs one command string.
  - `CreateUserChannel`, `DeleteUserChannel` and `RenameUserChannel` check
    their arguments and the item's channels, then issue fixed command strings
    in order. They stop at the first failure.
  - The channel readers (`GetChannelValueAs*`) use the same result codes, with
    -3 meaning the host's read call failed. The vector, colour, quaternion and
    matrix readers are all-or-nothing.
- **`plugin`** (`plugin.dfy`): how log messages are shaped.
  - Messages over 1000 characters are cropped, with a notice appended.
  - A NULL message is replaced by `"s == NULL"`.
  - Each log function adds its own prefix and severity; `feLogError` also
    sends `"Error: "` and the message to the log widget.
  - `feLogDebug` appends `" number = %d"`.
  - The client-persistence flag is read from `FABRIC_DISABLE_CLIENT_PERSISTENCE`.

Supporting modules:
- `text.dfy`: C-string truncation, `%d` and `%f` formatting, and parsers that
  read their output back.
- `numerics.dfy`: the C++ `(int)` casts, from wider integers and from floating
  point.
- `wrappers.dfy`: `Option` and `Result`.

The engine and host are represented as follows:
- An engine exception is an explicit outcome: `SetupOutcome`, `JsonLoad`, the
  `Unavailable` port value, a typed getter that fails on a payload of another
  type, or an export oracle returning `Err`.
- The Modo item is its set of channel names and its unique name.
- The command service is a class with a command log and a parse oracle.
- A channel is its type and what the host's read call yields.

## Model

| member | source | states |
|---|---|---|
| Plugin.CropMessage | src/plugin.cpp:28-37 | a message of at most 1000 characters passes unchanged; a longer one becomes its first 1000 characters followed by the crop notice |
| Plugin.CropBound | src/plugin.cpp:30-36 | the host log never receives more than 1000 characters plus the notice, and only messages over 1000 characters grow |
| Plugin.CropIdempotent | src/plugin.cpp:30-36 | cropping an already cropped message changes nothing |
| Plugin.DccLogMessage | src/plugin.cpp:28-37 | the host log gets the caller's severity and prefix and the cropped text |
| Plugin.MessageText | src/plugin.cpp:40 | a NULL message is printed as "s == NULL", any other as its C string |
| Plugin.FeLog | src/plugin.cpp:38-43 | info severity, prefix "[FABRIC]", and the same text to the widget |
| Plugin.FeLogError | src/plugin.cpp:52-59 | failed severity, prefix "[FABRIC ERROR]", and "Error: " plus the text to the widget |
| Plugin.FeLogString | src/plugin.cpp:44-51 | the string overloads log the string's C string, never the NULL text; the string itself when it holds no NUL |
| Plugin.FeLogErrorString | src/plugin.cpp:60-67 | the string overloads of feLogError log the string's C string, never the NULL text, and send "Error: " plus the string to the widget when it holds no NUL |
| Plugin.ErrorMirrorsInfo | src/plugin.cpp:38-59 | an error and an info message for the same text differ only in severity, prefix and the widget's "Error: " marker |
| Plugin.NullMessages | src/plugin.cpp:38-59 | a NULL message is logged as "s == NULL" at both severities, and as "Error: s == NULL" on the widget |
| Plugin.DebugNumberReadable | src/plugin.cpp:80-85 | the widget text is `s`, then " number = ", then a decimal that parses back to `number` |
| Plugin.FeLogDebug | src/plugin.cpp:80-85 | the host log gets, at info severity with the "[FABRIC]" prefix, the cropped widget text; the widget gets the C string of `s` followed by " number = " and the decimal, which is only `s` when `s` holds a NUL |
| Plugin.PersistClient | src/plugin.cpp:100-101 | persistence is on exactly when the variable is unset or its C string is empty |
| Text.CStr | src/_class_BaseInterface.cpp:443 | a C string read of a string is its longest NUL-free prefix, cut at the first NUL |
| Text.Decimal | src/plugin.cpp:83 | `%d` output is non-empty and starts with a minus sign exactly for negative numbers |
| Text.DecimalRoundTrip | src/_class_ModoTools.cpp:294 | `%d` output of any integer parses back to that integer |
| Text.FormatFixed | src/_class_ModoTools.cpp:303 | `%f` output ends in a point and six digits, and starts with a minus sign exactly for negative values |
| Text.FormatFixedRoundTrip | src/_class_ModoTools.cpp:303 | `%f` output parses and denotes the value to within half a unit in the sixth decimal |
| Numerics.ToInt32 | src/_class_BaseInterface.cpp:349-357 | the `(int)` cast keeps the value modulo 2^32 and is the identity on values that fit |
| Numerics.Trunc | src/_class_ModoTools.cpp:231 | float to int truncates toward zero: never further from zero than the value, and within 1 of it |
| ModoTools.HasChannel | src/_class_ModoTools.cpp:27-67 | NULL item and empty name are rejected with their messages; otherwise the first of name, name.X, name.R, name.U that the item has, or not found with an empty error when none is present |
| ModoTools.HasChannelResolvesExisting | src/_class_ModoTools.cpp:69-73 | the verdict-only overload is true exactly when some candidate name exists on the item |
| ModoTools.ExecuteChain | src/_class_ModoTools.cpp:168-174 | a chain of commands runs a prefix of them, succeeds exactly when it runs all, and on failure reports the first command that is empty or does not parse |
| ModoTools.ChainOfTwo | src/_class_ModoTools.cpp:133-136 | select then delete: the second command runs only if the first did |
| ModoTools.ChainOfThree | src/_class_ModoTools.cpp:168-174 | select, name, username: each runs only if every earlier one did |
| ModoTools.CreatePlan | src/_class_ModoTools.cpp:75-107 | the checks in order (NULL item, empty name, empty dataType, already exists), and only otherwise the single command "channel.create name dataType structType item:uniqueName" |
| ModoTools.DeletePlan | src/_class_ModoTools.cpp:109-137 | nothing is issued unless the name resolves; then select of the resolved name followed by channel.delete |
| ModoTools.RenamePlan | src/_class_ModoTools.cpp:139-175 | both names non-empty, the old one resolving and the new one not, or the matching rejection; then select of the resolved old name, channel.name and channel.username with the new name |
| ModoTools.PerformIssuesPrefix | src/_class_ModoTools.cpp:133-136 | a rejected operation issues nothing; an issued one executes a prefix of its commands and succeeds exactly when it executes all |
| ModoTools.CommandService.ExecuteCommand | src/_class_ModoTools.cpp:3-25 | empty command: false and "empty command string"; unparsable: false and a message quoting it; otherwise true and the command is executed, whatever it does |
| ModoTools.CommandService.CreateUserChannel | src/_class_ModoTools.cpp:75-107 | result, error and executed commands are those of CreatePlan run through the command service |
| ModoTools.CommandService.DeleteUserChannel | src/_class_ModoTools.cpp:109-137 | result, error and executed commands are those of DeletePlan |
| ModoTools.CommandService.RenameUserChannel | src/_class_ModoTools.cpp:139-175 | result, error and executed commands are those of RenamePlan |
| ChannelReaders.GetChannelValueAsBoolean | src/_class_ModoTools.cpp:177-207 | false unless 0; -2 exactly for a negative index; integer channel: -3 on read failure, else the nonzero test; float channel: -1 when strict, else -3 on read failure or the nonzero test; any other channel: -1 |
| ChannelReaders.GetChannelValueAsInteger | src/_class_ModoTools.cpp:209-237 | 0 unless success; -2 exactly for a negative index; integer channel read as is, -3 on read failure; float channel: -1 when strict, else -3 on read failure or the value truncated toward zero; any other channel: -1 |
| ChannelReaders.GetChannelValueAsFloat | src/_class_ModoTools.cpp:239-267 | 0.0 unless success; -2 exactly for a negative index; float channel read as is, -3 on read failure; integer channel: -1 when strict, else -3 on read failure or the converted value; any other channel: -1 |
| ChannelReaders.GetChannelValueAsString | src/_class_ModoTools.cpp:269-311 | "" unless success; -2 exactly for a negative index; string channel read as is, -3 on read failure; integer and float channels: -1 when strict, else -3 on read failure or the `%d` / `%f` text; object and other channels: -1 |
| ChannelReaders.StrictReadsAgreeWithLoose | src/_class_ModoTools.cpp:177-311 | for all four scalar readers, a strict read that did not report -1 gives the same result without strict |
| ChannelReaders.StringReadDenotesNumber | src/_class_ModoTools.cpp:284-304 | a readable integer channel read as a string parses back to the integer; a float channel to within half a millionth |
| ChannelReaders.GetChannelValueAsFloats | src/_class_ModoTools.cpp:313-334 | on 0, exactly n values, each the float read of the consecutive index; otherwise empty output and the code of the first component that failed, all earlier ones having succeeded |
| ChannelReaders.GetChannelValueAsVector2 | src/_class_ModoTools.cpp:313-334 | two consecutive float reads: 0 with both values when both read; otherwise empty output and the code of the first component that failed |
| ChannelReaders.GetChannelValueAsVector3 | src/_class_ModoTools.cpp:336-357 | three consecutive float reads: 0 with the three values when all read; otherwise empty output and the code of the first component that failed |
| ChannelReaders.GetChannelValueAsColor | src/_class_ModoTools.cpp:359-362 | the RGBA reader: 0 with four values when all read; otherwise empty output and the code of the first component that failed |
| ChannelReaders.GetChannelValueAsRGB | src/_class_ModoTools.cpp:364-385 | three consecutive float reads: 0 with the three values when all read; otherwise empty output and the code of the first component that failed |
| ChannelReaders.GetChannelValueAsRGBA | src/_class_ModoTools.cpp:387-408 | four consecutive float reads: 0 with the four values when all read; otherwise empty output and the code of the first component that failed |
| ChannelReaders.GetChannelValueAsQuaternion | src/_class_ModoTools.cpp:410-440 | -2 for a negative index, -1 exactly for a non-object channel, 0 exactly when the quaternion reads, giving its four components; empty output on any failure |
| ChannelReaders.GetChannelValueAsMatrix44 | src/_class_ModoTools.cpp:442-473 | -2, -1, -3 as for the quaternion; on 0, 16 values with `out[4*j+i] == m[i][j]` (column by column) |
| PortReaders.GetPortValueAsBoolean | src/_class_BaseInterface.cpp:285-330 | false unless 0; -2 exactly for an invalid port; -4 when the value cannot be fetched; -1 for an empty type; a "Boolean" port reads its value, -4 when the getter throws; strict: -1 for every other type; without strict, float and integer types give the nonzero test, -4 when the getter throws; every other type -1 |
| PortReaders.GetPortValueAsInteger | src/_class_BaseInterface.cpp:332-377 | 0 unless success; -2 invalid, -4 unfetchable, -1 empty type; integer types read through the 32-bit cast, -4 when the getter throws; strict: -1 for every other type; without strict, Boolean as 0/1 and floats truncated, -4 when the getter throws; every other type -1 |
| PortReaders.GetPortValueAsFloat | src/_class_BaseInterface.cpp:379-424 | 0.0 unless success; -2 invalid, -4 unfetchable, -1 empty type; Float32/Float64 read as is, -4 when the getter throws; strict: -1 for every other type; without strict, Boolean as 0.0/1.0 and integers converted, -4 when the getter throws; every other type -1 |
| PortReaders.GetPortValueAsString | src/_class_BaseInterface.cpp:426-484 | -4 exactly when the value cannot be fetched or a "String" port's getter throws; a "String" port with a string reads as its C string with 0; strict: -1 for every other type; without strict, 0 exactly when one of the strict Boolean, integer and float readers succeeds, a Boolean giving "true" or "false" |
| PortReaders.GetPortValueAsQuaternion | src/_class_BaseInterface.cpp:486-516 | output always empty; -2 invalid, -4 unavailable, -3 exactly for "Quat", -1 for every other type |
| PortReaders.GetPortValueAsMatrix44 | src/_class_BaseInterface.cpp:518-558 | 0 exactly for a readable "Mat44" whose 16 cells read, giving them row by row as x, y, z, t; -4 keeps the cells read before the failing one; -1 for other types |
| PortReaders.StrictPortReadsAgreeWithLoose | src/_class_BaseInterface.cpp:285-484 | a strict port read that did not report -1 gives the same result without strict |
| PortReaders.LooseStringDenotesValue | src/_class_BaseInterface.cpp:446-472 | without strict, a Boolean port reads as exactly "true" or "false", an integer port as a decimal that parses back to its 32-bit cast, a float port to within half a millionth |
| BaseInterface.ChannelTypeFor | src/_class_BaseInterface.cpp:167-207 | empty type and unknown types give their error messages; results are only the six Modo channel types; a struct annotation only on float channels, and always for Vec2, Vec3, RGB and RGBA |
| BaseInterface.ScalarChannelTypes | src/_class_BaseInterface.cpp:170-190 | boolean exactly for "Boolean", integer exactly for "Integer" and the SInt/UInt types, float exactly for "Scalar", Float32 and Float64, string exactly for "String" |
| BaseInterface.StructuredChannelTypes | src/_class_BaseInterface.cpp:192-200 | quaternion exactly for "Quat", matrix exactly for "Mat44", and float with vecXY, vecXYZ, vecRGB, vecRGBA exactly for Vec2, Vec3, RGB, RGBA |
| BaseInterface.AliasedTypesUnreadable | src/_class_BaseInterface.cpp:176-188 | "Integer" and "Scalar" get a channel, yet every numeric port reader answers -1 for them |
| BaseInterface.PortInsertedEffect | src/_class_BaseInterface.cpp:158-211 | an invalid item logs the item error and issues nothing; an unmapped type logs its error; a mapped type with an empty name logs "empty channel name", with a name that resolves logs "the channel <name> already exists"; otherwise the channel.create command for the mapped type is executed when it parses, and its parse failure is logged when it does not |
| BaseInterface.PortRemovedEffect | src/_class_BaseInterface.cpp:213-224 | an invalid item logs the item error; an empty name logs "empty channel name"; a port without a channel logs an empty line; a resolved channel gets select of the resolved name and then channel.delete, stopping at and logging the first command that does not parse |
| BaseInterface.PortRenamedEffect | src/_class_BaseInterface.cpp:226-237 | an invalid item logs the item error; an empty old or new name, an unresolved old name and a taken new name each log their message and issue nothing; otherwise select of the resolved old name, channel.name and channel.username, stopping at and logging the first command that does not parse |
| BaseInterface.Delete | src/_class_BaseInterface.cpp:69-71 | deleting a dangling pointer is exactly a double delete; as written the pointer keeps its address, the corrected variant leaves it NULL |
| BaseInterface.SetupClient | src/_class_BaseInterface.cpp:26-30 | the client is created and then gets Math and Geometry, in that order, as far as the setup gets |
| BaseInterface.DoubleDeleteAsWritten | src/_class_BaseInterface.cpp:57-82 | one setup-and-teardown followed by a setup that throws before re-creating the host or manager ends in a double delete |
| BaseInterface.NulledNeverDoubleDeletes | src/_class_BaseInterface.cpp:57-82 | with the pointers reset after delete, no sequence of setups and teardowns deletes them twice |
| BaseInterface.Runtime.constructor | src/_class_BaseInterface.cpp:6-13 | the statics start empty: no instances, id counter 0 |
| BaseInterface.Runtime.GetFromId | src/_class_BaseInterface.cpp:89-95 | the instance registered under the id, which carries that id, or NULL when the id is unknown |
| BaseInterface.Runtime.Setup | src/_class_BaseInterface.cpp:21-51 | every step before the throwing one takes effect (client, extensions, host, binding, manager, view) and the exception is logged |
| BaseInterface.Runtime.Teardown | src/_class_BaseInterface.cpp:66-76 | the corrected teardown of the Findings row: stack cleared, manager and host deleted and reset to NULL, client reset |
| BaseInterface.ItemBridge.constructor | src/_class_BaseInterface.cpp:15-55 | id is the counter's old value, which then advances modulo 2^32; ids are 0, 1, 2, ... and none is reused before the counter wraps; setup (client and its Math and Geometry extensions as far as it gets) and a fresh binding only when the registry was empty; registered under its id unless that id is taken; one setup counted exactly when the registry was empty, no teardown |
| BaseInterface.ItemBridge.Dispose | src/_class_BaseInterface.cpp:57-82 | binding dropped, view and item kept; only the entry under its id is erased; teardown exactly when that erase empties the registry, with the corrected teardown of the Findings row; registry invariant kept |
| BaseInterface.ItemBridge.GetJSON | src/_class_BaseInterface.cpp:122-134 | the export, or "" with the exception logged |
| BaseInterface.ItemBridge.SetFromJSON | src/_class_BaseInterface.cpp:136-146 | the binding is replaced only once creation returns; the old binding and view stay when creation throws; any exception is logged |
| BaseInterface.ItemBridge.OnPortInserted | src/_class_BaseInterface.cpp:158-211 | the log and the executed commands grow by exactly PortInsertedEffect |
| BaseInterface.ItemBridge.OnPortRemoved | src/_class_BaseInterface.cpp:213-224 | the log and the executed commands grow by exactly PortRemovedEffect |
| BaseInterface.ItemBridge.OnPortRenamed | src/_class_BaseInterface.cpp:226-237 | the log and the executed commands grow by exactly PortRenamedEffect |

## Left out

- What the Modo commands do inside Modo. `ExecuteCommand` ignores the result of `Execute`, so the model only records which commands were executed. Two results therefore cannot be stated: that create followed by delete leaves the item unchanged, and that a Vec3 port becomes three channels `.X`, `.Y`, `.Z`.
- The JSON schema and the export/import round trip belong to the engine. `getJSON` takes an export oracle, and `setFromJSON` takes the outcome of `createBindingFromJSON` and `setGraph`.
- Floating point. Payloads are exact `real`s. `%f` is modelled as exact rounding of the real value to six decimals, with ties to even. Out-of-range float-to-int casts and inf/nan are not modelled; they are undefined behaviour in C++.
- GetChannelValueAsString, GetPortValueAsString, StringReadDenotesNumber, LooseStringDenotesValue: the source writes `%f` into a 64-byte buffer (src/_class_ModoTools.cpp:288 and :303, src/_class_BaseInterface.cpp:447 and :467). That buffer overflows when the text needs 64 characters or more: from about 1e56 for positive values and about -1e55 for negative ones. The overflow is undefined behaviour, and the model returns code 0 with the full text there.
- Numerics.Trunc: truncation is stated on reals. A result outside the 32-bit range, which is undefined behaviour in the source, is returned unwrapped.
- Characters are Dafny `char`s, where the source counts bytes. The 1000-character crop is therefore a crop at 1000 bytes in the source.
- `%ld` is passed an `int` in the source. The model formats it as `%d` would.
- Log sinks (`gLog.Message`, the log widget, `printf`) are left out. Each log function returns what it hands them. `logErrorFunc` is a log of messages, whichever sink is installed.
- Plugin command registration in `initialize` and the rest of the plugin (UI, sample code) are not part of this model.
- Teardown that throws. Its catch branch only logs, and the engine's destructors are not modelled.
- ChannelReaders.GetChannelValueAsQuaternion, ChannelReaders.GetChannelValueAsMatrix44: the `ObjectRO(...) && test()` condition and the getter's failure both give -3. They are folded into one "read fails" outcome.
- ChannelReaders.GetChannelValueAsVector2, Vector3, RGB, RGBA, Color: these readers ignore their own `strict` argument. They call the float reader with its default `strict`, which is declared in a header that is not part of this model. The default is the parameter `componentStrict`.
- GetChannelValueAsInteger, GetChannelValueAsFloat, GetChannelValueAsString: the source passes its output to the host's `GetInt`, `GetFlt` or `GetString` call, so after a failed read of a channel of the exact type the output holds whatever the host wrote. The model returns the reset default there.
- ItemBridge.SetFromJSON: requires a live host. An instance registered by a first construction whose setup threw before the host was created leaves the host NULL, and `setFromJSON` on it dereferences that NULL pointer, which is undefined behaviour and not modelled.
- Runtime.Teardown, ItemBridge.Dispose: model the corrected teardown that resets the manager and host pointers to NULL. The destructor as written leaves them dangling; that behaviour is modelled by `Delete(_, false)` and shown by DoubleDeleteAsWritten under "## Findings".
- The forwarding overloads of `feLogDebug` (src/plugin.cpp:68-79) call `feLog` with the same arguments, so FeLog and FeLogString describe them.
- ChannelReaders.ChanAt: an index past the last attribute is treated as a channel type no reader accepts. In the source it is whatever the host's `Type` returns.
- The command stack's own contents: nothing in this core pushes to it. Only its clear at teardown is modelled.
- The handlers pass `err.c_str()` to the error log. A message holding a NUL is logged whole here.
- `HasInputPort`/`HasOutputPort`, the getters (`getClient`, `getHost`, `getStack`, ...) and the log-function setters are plain accessors without rules. They are not modelled.

## Findings

| source | as written | input that shows it | evidently intended | confidence | as-written member | corrected member |
|---|---|---|---|---|---|---|
| src/_class_BaseInterface.cpp:69-71 | the last destruction deletes `s_manager` and `s_host` but leaves both pointers as they were | construct and destroy one instance; construct another whose setup throws at `loadExtension("Math")`; destroy it: the old manager and host are deleted again | reset both pointers to NULL after delete, so that a teardown after a failed setup deletes nothing twice | not executed | BaseInterface.DoubleDeleteAsWritten | BaseInterface.NulledNeverDoubleDeletes |
