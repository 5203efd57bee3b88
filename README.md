# Stability retention system: a verified model of the PLC gateway core

The gateway takes HTTP control requests for a stability retention rig
(support cylinders, two lift platforms, leveling, pump, heater, cooling),
queues them as tasks, and drives a Siemens PLC over Modbus TCP. It also
reads the controller's byte and word cells back into a readable device
state and polls the alarm byte. The repository has two revisions of the
controller and task code: the current one under `src/` and a legacy one at
the top level.

This project models that core in Dafny and proves what each part promises.

- **Register image** (`register_image.dfy`, module `RegisterImage`). The
  byte bank `vb_data[2000]` and the word bank `vw_data[200]` are a class
  over two arrays. The getters and setters read and write one cell, and
  `setBit` packs one flag into a byte. Each setter states the cell it
  writes and that every other cell is unchanged.
- **Current controller manager** (`plc_manager.dfy`, module `PlcManager`):
  - the control-byte flags;
  - the total `{1, 2, 4, 8}` cylinder and platform tables;
  - the alarm byte decoded by bit priority;
  - the merge of two 16-bit registers into one 32-bit word;
  - the operation-name → M-coil table (coils 177 to 186);
  - `read_plc_data` with its early returns;
  - the read / reconnect / re-read policy of `get_current_state`.
- **Legacy controller manager** (`legacy_plc_manager.dfy`, module
  `LegacyPlcManager`):
  - eight coil bits packed into a byte;
  - the two-valued tables;
  - the concatenated alarm text;
  - `write_plc_data`'s two-word command parsing and its code tables;
  - `execute_operation`'s 24 names, each mapped to a command line.
- **Alarm monitor** (`alarm_monitor.dfy`, module `AlarmMonitor`): the
  report-once memory of fault codes, cleared by the "no alarm" code 16;
  `start`, `stop` and `set_enabled`; and the polling loop.
- **Task pipeline** (`task_manager.dfy` and `legacy_task_manager.dfy`):
  - the FIFO queue;
  - the request-word → controller-command chain;
  - the routing of each task to one of three callbacks;
  - the `"error: "` path;
  - the legacy revision's `"已…（平台…）"` state phrase.
- **Configuration** (`config_manager.dfy`, module `ConfigManager`): the INI
  reader line by line (comments, sections, the split at the first `=`,
  trimming, the comma-separated `allowed_ips` list, the final-section rule)
  and `is_ip_allowed`.
- **Request handling** (`server.dfy`, module `Server`):
  - the validation of the control handlers;
  - the `?fields=` projection of `handle_device_state`;
  - the credential checks of `authenticate_request`;
  - the routes `init_routes` registers, which never call those checks (see
    "## Findings");
  - end-to-end lemmas from an HTTP body through the task worker to the coil
    the controller writes.
- **Shared text helpers** (`text.dfy`, module `Text`): `std::stoi`,
  `std::to_string`, `istringstream >>` word extraction, `getline` splitting
  and trimming, with their round-trip lemmas.

The environment is a parameter of the model, not part of it:
- every Modbus call is an oracle;
  - a read reply is `Option<value>`, with `None` for a failed call;
  - a write result is an integer, with -1 for failure;
  - connecting is two booleans;
- what `execute_operation` does inside the task worker (returned or threw,
  and the message) is an input of each step;
- callbacks are appended to an outbox sequence.

The current controller manager does not match its headers: it
keeps its control flags in one control byte (`VB_CONTROL_BYTE` with
`BIT_*` positions) and its analogue values in VD words. Neither is defined in
`include/common.h`. The model follows the code. The byte and its bit
positions are a `ControlLayout` parameter that must be well formed (seven
distinct bits below 8, a byte inside the bank). The VD words are six 32-bit
slots.

## Model

| member | source | states |
|---|---|---|
| RegisterImage.AddressesInBounds | include/common.h:39-72 | every named VB address lies below 2000 and every named VW address below 200, so no accessor on them leaves its bank |
| RegisterImage.TestBitIsBinaryDigit | include/common.h:136-138 | `v & (1 << b) != 0` holds exactly when binary digit `b` of the byte's value is 1 |
| RegisterImage.WithBitSetsBit | include/common.h:146-152 | after setting or clearing bit `b`, bit `b` reads back as the requested value |
| RegisterImage.WithBitKeepsOtherBits | include/common.h:146-152 | setting or clearing bit `b` leaves every other bit of the byte as it was |
| RegisterImage.WithBitIdempotent | include/common.h:146-152 | setting (or clearing) the same bit twice is the same as doing it once |
| RegisterImage.BitsDetermineByte | include/common.h:136-138 | two bytes that agree on all eight bit tests are equal |
| RegisterImage.RawData.constructor | include/common.h:70-73 | a fresh image has every VB and VW cell zero |
| RegisterImage.RawData.SetVB | include/common.h:117-119 | the written cell reads back the value; every other VB cell and the whole VW bank are unchanged |
| RegisterImage.RawData.SetVW | include/common.h:126-128 | the written cell reads back the value; every other VW cell and the whole VB bank are unchanged |
| RegisterImage.RawData.SetBit | include/common.h:146-152 | the chosen bit reads back as requested, the other seven bits keep their values, and no other cell of either bank changes |
| PlcManager.DefaultLayoutWellFormed | src/plc_manager.cpp:277-302 | the seven control flags at bits 0 to 6 of one byte inside the bank form a well-formed layout |
| PlcManager.ParseFlagText | src/plc_manager.cpp:277-302 | each flag's text is its set-label or clear-label according to its own bit of the control byte |
| PlcManager.FlagDependsOnOwnBit | src/plc_manager.cpp:277-302 | changing one bit of the control byte changes that flag's text and leaves every other flag's text unchanged |
| PlcManager.DecodeCylinder | src/plc_manager.cpp:305-312 | the label is "unknown state" exactly for bytes outside {1, 2, 4, 8}, and each known label reads back to its one code, so the four labels are distinct |
| PlcManager.DecodePlatform | src/plc_manager.cpp:315-332 | both platforms share one table: unknown exactly outside {1, 2, 4, 8}, and each known label names one code |
| PlcManager.LowestAlarmBit | src/plc_manager.cpp:339-346 | the result is a set bit with no lower set bit among those tested; None only when none of them is set |
| PlcManager.DecodeAlarm | src/plc_manager.cpp:335-349 | 0 gives "oil temperature low"; otherwise the lowest set bit of 0x01, 0x02, 0x04, 0x08 chooses the label, and with none of them set the text is "unknown alarm" |
| PlcManager.UnknownAlarmExactly | src/plc_manager.cpp:335-349 | "unknown alarm" is reported exactly for a non-zero byte whose low four bits are clear |
| PlcManager.CombineHalves | src/plc_manager.cpp:213-226 | the merged word's upper 16 bits are the first register and its lower 16 bits the second |
| PlcManager.HighHalfReadsBack | src/plc_manager.cpp:213-226 | the first register can be read back from the merged word |
| PlcManager.LowHalfReadsBack | src/plc_manager.cpp:213-226 | the second register can be read back from the merged word |
| PlcManager.SplitCombine | src/plc_manager.cpp:213-226 | splitting a merged word gives back the register pair |
| PlcManager.CombineSplit | src/plc_manager.cpp:213-226 | every 32-bit word is the merge of its own two halves |
| PlcManager.CoilFor | src/plc_manager.cpp:387-440 | a recognised name gives a coil between 177 and 186 and is one of that coil's two names |
| PlcManager.CoilCommandsReachCoil | src/plc_manager.cpp:387-436 | the first name of every coil from M22.1 to M23.2 reaches exactly that coil |
| PlcManager.CoilSynonymsReachCoil | src/plc_manager.cpp:397-436 | the second name of every coil reaches the same coil as its first name |
| PlcManager.SameCoilSameCommand | src/plc_manager.cpp:387-436 | two names reaching the same coil are both names of that coil, so distinct commands hit distinct coils |
| PlcManager.Answered | src/plc_manager.cpp:171-262 | the count of replies before the first failure: all counted replies succeeded and the next one failed |
| PlcManager.StorePrefix | src/plc_manager.cpp:169-203 | storing the answered byte replies keeps the size of the bank |
| PlcManager.StorePrefixStores | src/plc_manager.cpp:169-203 | after the early-returning byte reads, each answered address holds its reply and no other cell changes |
| PlcManager.WordPrefix | src/plc_manager.cpp:205-262 | merging the answered register pairs keeps the number of VD slots |
| PlcManager.WordPrefixStores | src/plc_manager.cpp:205-262 | each answered VD slot holds its merged pair and the later slots keep their earlier words |
| PlcManager.ByteAddressesDistinct | src/plc_manager.cpp:169-203 | the byte cells read lie inside the bank and are pairwise distinct |
| PlcManager.PlcManager.constructor | src/plc_manager.cpp:45-55 | the image starts zeroed, and the manager is connected exactly when the first connection attempt succeeds |
| PlcManager.PlcManager.Connect | src/plc_manager.cpp:70-117 | the result is true exactly when creating the context and connecting both succeed; the connected flag changes only once a context was created |
| PlcManager.PlcManager.Disconnect | src/plc_manager.cpp:122-132 | the context is gone afterwards; the connected flag is cleared only when there was a context to close |
| PlcManager.PlcManager.ReadPlcData | src/plc_manager.cpp:164-268 | false when the link is down or any read fails; it sends requests only up to the first failure, stores every earlier reply, and reparses the state only when all reads succeed |
| PlcManager.PlcManager.ReadBytes | src/plc_manager.cpp:169-203 | stores each byte reply at its address until the first failure and reports how many were stored |
| PlcManager.PlcManager.ReadWords | src/plc_manager.cpp:205-262 | merges each register pair into its VD slot until the first failure and reports how many were merged |
| PlcManager.PlcManager.ParseRawValues | src/plc_manager.cpp:274-368 | every readable field is recomputed from the current image |
| PlcManager.PlcManager.GetCurrentState | src/plc_manager.cpp:139-157 | at most one reconnect and at most two read passes, a reconnect exactly when the first pass fails, and the returned state is always parsed from the image; the byte bank and the VD words are those left by the first pass and, when the reconnect succeeds, by the second pass over them; the VW bank is untouched; the link flags are unchanged without a reconnect and are those `connect_plc` leaves after one |
| PlcManager.PlcManager.Refresh | src/plc_manager.cpp:143-151 | the reading half of the above: the same pass count, reconnect count, banks and link flags |
| PlcManager.PlcManager.Reconnect | src/plc_manager.cpp:146-150 | the retry: the link comes up exactly when both connection steps succeed, and only then is a second pass read into the banks |
| PlcManager.PlcManager.ExecuteOperation | src/plc_manager.cpp:376-449 | no write when disconnected or for a name outside the table; otherwise exactly the name's coil is written, always with the value 1 (ON), and the result is true exactly when that write did not return -1 |
| LegacyPlcManager.OrAddsPow2 | plc_manager.cpp:184-189 | OR-ing bit `i` into a byte below 2^i adds 2^i |
| LegacyPlcManager.PackBits | plc_manager.cpp:184-189 | bit `b` of the packed byte is set exactly when `b` is within the width and coil value `b` is non-zero; the byte equals the sum of 2^i over those bits and is below 2^width (below 32 for the five alarm bits) |
| LegacyPlcManager.BitSumBelow | plc_manager.cpp:243-248 | packing the first `n` coil values gives less than 2^n |
| LegacyPlcManager.StoreCoilPrefix | plc_manager.cpp:153-256 | storing the answered coil blocks keeps the size of the bank |
| LegacyPlcManager.StoreCoilPrefixStores | plc_manager.cpp:153-256 | each answered coil block's cell (VB1000 onward) holds its first coil value or its packed byte, and every other cell keeps its value |
| LegacyPlcManager.ToInt16 | plc_manager.cpp:266 | `static_cast<int16_t>` is negative exactly from 0x8000 up and agrees with the register modulo 2^16 |
| LegacyPlcManager.StoreRegisterPrefix | plc_manager.cpp:258-296 | storing the answered registers keeps the size of the word bank |
| LegacyPlcManager.StoreRegisterPrefixStores | plc_manager.cpp:258-296 | each answered register's cell (VW100, VW104, … VW116) holds its value read as signed 16-bit, and every other cell keeps its value |
| LegacyPlcManager.TwoValued | plc_manager.cpp:305-314 | 1 gives the first label, 2 the second, and every other value "unknown" |
| LegacyPlcManager.CylinderTableMergesFourAndEight | plc_manager.cpp:316-324 | the legacy cylinder table gives "rising stopped" exactly for 4 and 8, and "unknown state" exactly outside {1, 2, 4, 8} |
| LegacyPlcManager.AlarmWordsEmpty | plc_manager.cpp:354-360 | no alarm words are appended exactly when none of the tested alarm bits is set |
| LegacyPlcManager.AlarmWordsEndInSpace | plc_manager.cpp:357-360 | every non-empty alarm text ends in the space after its last label |
| LegacyPlcManager.AlarmTextNoAlarm | plc_manager.cpp:354-362 | the alarm text is "oil temperature low" exactly when the low four bits are clear |
| LegacyPlcManager.BuildAlarmText | plc_manager.cpp:354-362 | the text built by the `+=` steps and the fallback is the in-order label text |
| LegacyPlcManager.PlatformEncodeDecode | plc_manager.cpp:447-460 | decoding the code written for a platform action gives that action's label |
| LegacyPlcManager.PlatformDecodeEncode | plc_manager.cpp:327-334 | each known platform code is written by exactly one action word, whose label is the decoded text |
| LegacyPlcManager.TargetOfWords | plc_manager.cpp:405-502 | a recognised first word selects a cell from VB1000 to VB1009 and a code of at most 8 |
| LegacyPlcManager.CommandTargetOfWords | plc_manager.cpp:399-401 | a line of two space-free words separated by a space selects what its two words select |
| LegacyPlcManager.CommandLineParses | plc_manager.cpp:399-401 | a command line built from two words parses back into those words, so it selects their target |
| LegacyPlcManager.SetModeCodes | plc_manager.cpp:406-411 | `SET_MODE manual` writes 1 and any other mode word writes 2 to the mode cell |
| LegacyPlcManager.StartStopCommandCodes | plc_manager.cpp:418-498 | for the pump, heater, cooling and leveling cells, `start` gives code 2 and any other word gives 1 |
| LegacyPlcManager.StartAndStopLookAlike | plc_manager.cpp:418-498 | on those cells, start (2) and stop (1) both switch the coil ON on the wire, so they cannot be told apart |
| LegacyPlcManager.CylinderCommandCodes | plc_manager.cpp:424-442 | `CYLINDER` with an action word writes that action's code to the cylinder cell, and 0 for an unknown action |
| LegacyPlcManager.CylinderUpReadsAsRisingStopped | plc_manager.cpp:424-442 | "up" writes 8 and "up_stop" writes 4, and the legacy table reads both back as "rising stopped" |
| LegacyPlcManager.FindOperation | plc_manager.cpp:526-600 | the result is the first table entry from `k` on with that name; None when no entry from `k` has it |
| LegacyPlcManager.CommandFor | plc_manager.cpp:526-600 | a name has a command line exactly when it is in the table, and that line is its table entry |
| LegacyPlcManager.OperationsAreKnownCommands | plc_manager.cpp:526-597 | every command line in the table is two words whose first word selects a cell |
| LegacyPlcManager.CommandsParse | plc_manager.cpp:526-597 | every table command line parses to the target its two words select |
| LegacyPlcManager.LegacyPlcManager.constructor | plc_manager.cpp:28-39 | both banks start zeroed, and the link is up exactly when the one connection attempt succeeds; the outcome of `connect_plc` is given as its two steps' results |
| LegacyPlcManager.LegacyPlcManager.ReadPlcData | plc_manager.cpp:148-297 | false when the link is down or any read fails; every earlier coil block is stored packed, and registers are stored only when all coil reads succeeded |
| LegacyPlcManager.LegacyPlcManager.ReadCoils | plc_manager.cpp:153-256 | each coil block is stored, as its first value or packed, until the first failure; the word bank is unchanged |
| LegacyPlcManager.LegacyPlcManager.ReadRegisters | plc_manager.cpp:258-296 | each register is stored as a signed 16-bit value until the first failure; the byte bank is unchanged |
| LegacyPlcManager.LegacyPlcManager.ParseRawValues | plc_manager.cpp:303-382 | every readable field is recomputed from the image |
| LegacyPlcManager.LegacyPlcManager.WritePlcData | plc_manager.cpp:390-513 | nothing is sent when disconnected or for an unknown first word; otherwise the selected cell's coil is written, and the result is true exactly when the write and the following read-back succeed; after an accepted write both banks are those the read-back leaves (coil blocks up to the first failure, registers only after every coil read), and without one neither bank changes |
| LegacyPlcManager.LegacyPlcManager.ExecuteOperation | plc_manager.cpp:520-605 | a name outside the table sends nothing; a table name sends its command line's write, and succeeds exactly when that write and the read-back succeed; the banks change only through that read-back, exactly as for `write_plc_data`, so an unknown name leaves them unchanged |
| AlarmMonitor.ParseAlarmSignal | src/alarm_monitor.cpp:126-135 | codes in the table get their three-character label; any other code gets a longer generic description |
| AlarmMonitor.UnknownCodeReadsBack | src/alarm_monitor.cpp:133-134 | the generic description carries the code in decimal, and `stoi` reads it back |
| AlarmMonitor.ParseAlarmSignalInjective | src/alarm_monitor.cpp:126-135 | different codes are described differently |
| AlarmMonitor.ReadFailureIsUnknown | include/plc_manager.h:79-84 | the read-failure value 255 is not the no-alarm code, is not in the table, and is described as unknown code 255 |
| AlarmMonitor.PollsOnlyAppend | src/alarm_monitor.cpp:95-107 | polling only appends callbacks, at most one per poll |
| AlarmMonitor.RepeatedFaultSentOnce | src/alarm_monitor.cpp:137-146 | polling one fault any number of times sends one callback, or none if it was already reported, and leaves it marked |
| AlarmMonitor.ClearReportsAfresh | src/alarm_monitor.cpp:101-106 | after the no-alarm code, the same fault is reported again |
| AlarmMonitor.AlarmMonitor.constructor | src/alarm_monitor.cpp:23-35 | the monitor starts stopped, disabled, with a 1000 ms interval and nothing reported |
| AlarmMonitor.AlarmMonitor.Start | src/alarm_monitor.cpp:42-61 | it changes nothing while running; otherwise it sets the interval, running and enabled, and clears the reported codes |
| AlarmMonitor.AlarmMonitor.Stop | src/alarm_monitor.cpp:63-71 | the monitor ends stopped, and the thread is joined only on a running → stopped transition |
| AlarmMonitor.AlarmMonitor.SetEnabled | src/alarm_monitor.cpp:73-76 | the enabled flag takes the given value |
| AlarmMonitor.AlarmMonitor.ReportAlarm | src/alarm_monitor.cpp:137-158 | a code already reported sends nothing; otherwise it is marked before one callback is sent, and it is marked afterwards either way |
| AlarmMonitor.AlarmMonitor.MonitorStep | src/alarm_monitor.cpp:87-107 | a disabled monitor changes nothing; an enabled one performs one poll |
| AlarmMonitor.AlarmMonitor.MonitorLoop | src/alarm_monitor.cpp:82-118 | while running and enabled, the memory after the loop is the polls of the readings in order |
| TaskManager.UnknownOperationPassesThrough | src/task_manager.cpp:119-123 | a request word outside the chain reaches the controller unchanged |
| TaskManager.KnownOperationsAreTranslated | src/task_manager.cpp:83-118 | every known request word is translated into a different command |
| TaskManager.PlatformCommandNamesTarget | src/task_manager.cpp:89-94 | for up and down, different targets give different commands |
| TaskManager.CategoryOf | src/task_manager.cpp:133-175 | rigid and flexible go to the support callback, up and down to the height callback, level and level_reset to the horizontal callback, and everything else to none |
| TaskManager.ResultIsIgnored | src/task_manager.cpp:126-203 | the state is "success" whatever `execute_operation` returned; a throw gives "error: " plus the message through the same callback kind, and no callback for words without one |
| TaskManager.PlatformNumberOfTarget | src/task_manager.cpp:143-143 | an empty target reports platform 1, and a decimal target reports its number |
| TaskManager.Commands | src/task_manager.cpp:83-126 | one command per task |
| TaskManager.CommandsInOrder | src/task_manager.cpp:54-73 | the i-th command run is the translation of the i-th task submitted |
| TaskManager.Callbacks | src/task_manager.cpp:133-203 | at most one callback per task |
| TaskManager.SupportTasksAllAnswered | src/task_manager.cpp:133-140 | a run of support tasks gets one support callback each, in order, carrying its state text |
| TaskManager.TaskManager.constructor | src/task_manager.cpp:26-29 | the queue starts empty and the manager running |
| TaskManager.TaskManager.CreateTask | src/task_manager.cpp:50-58 | the task joins the back of the queue |
| TaskManager.TaskManager.Shutdown | src/task_manager.cpp:34-41 | the running flag is cleared |
| TaskManager.TaskManager.WorkerStep | src/task_manager.cpp:64-207 | only with a task waiting and the manager running is the front task removed, its command run and its callback (if any) sent; otherwise nothing changes |
| TaskManager.TaskManager.WorkerLoop | src/task_manager.cpp:64-207 | the first `n` tasks are run in submission order with their callbacks, and the rest stay queued |
| LegacyTaskManager.StatePhraseParts | task_manager.cpp:51-54 | the phrase is "已" plus the operation, followed by "（平台" + target + "）" exactly when the target is non-empty |
| LegacyTaskManager.StatePhraseNamesTarget | task_manager.cpp:51-54 | for one operation, the phrase determines the target |
| LegacyTaskManager.Callbacks | task_manager.cpp:45-65 | at most one callback per task |
| LegacyTaskManager.OneCallbackPerReturnedTask | task_manager.cpp:45-65 | exactly one callback per task that did not throw, and none for one that did |
| LegacyTaskManager.CallbacksFollowTasks | task_manager.cpp:47-61 | when nothing throws, the callbacks follow the tasks one for one, in order, each with its phrase |
| LegacyTaskManager.Operations | task_manager.cpp:47-47 | the operations run are the tasks' own names, in order |
| LegacyTaskManager.LegacyTaskManager.constructor | task_manager.cpp:12-15 | the queue starts empty and the manager running |
| LegacyTaskManager.LegacyTaskManager.CreateTask | task_manager.cpp:26-33 | the task joins the back of the queue |
| LegacyTaskManager.LegacyTaskManager.Shutdown | task_manager.cpp:17-24 | the running flag is cleared |
| LegacyTaskManager.LegacyTaskManager.WorkerStep | task_manager.cpp:38-65 | a waiting task is taken even after shutdown, its own name is run, and a callback with its phrase is sent unless the run threw |
| LegacyTaskManager.LegacyTaskManager.WorkerLoop | task_manager.cpp:35-68 | the first `n` tasks are run in submission order, with one phrase callback per run that did not throw |
| ConfigManager.ClassifyLine | src/config_manager.cpp:66-88 | empty and '#' lines are skipped; `[`…`]` lines name the untrimmed inner section; other lines split at the first '=', and lines without '=' are ignored |
| ConfigManager.PairLineAt | src/config_manager.cpp:79-88 | a line with its first '=' at `i` gives the blank-trimmed text on each side |
| ConfigManager.PairLineParses | src/config_manager.cpp:79-88 | a key and value padded with spaces and tabs around '=' parse back to exactly that key and value |
| ConfigManager.HeaderLineParses | src/config_manager.cpp:73-76 | `[name]` sets the section to `name` |
| ConfigManager.TrimmedItems | src/config_manager.cpp:112-119 | the items kept are no more than those read, and each is non-empty and space-trimmed |
| ConfigManager.TrimmedItemsOfTrimmed | src/config_manager.cpp:112-119 | already trimmed, non-empty items are kept as they are |
| ConfigManager.AllowedIpListOfJoin | src/config_manager.cpp:107-119 | a comma-joined list of trimmed, comma-free entries reads back as that list |
| ConfigManager.Assign | src/config_manager.cpp:91-121 | an unknown (section, key) leaves every setting unchanged; the assignment throws exactly for a server or plc port that `stoi` rejects |
| ConfigManager.AssignLastWins | src/config_manager.cpp:91-121 | assigning a key twice is the same as assigning it the second value |
| ConfigManager.SecurityFlags | src/config_manager.cpp:103-106 | `basic_auth` and `ip_whitelist` become true exactly for "true" or "1", and nothing else changes |
| ConfigManager.PortValues | src/config_manager.cpp:91-98 | a decimal port sets exactly that port, and an empty one throws |
| ConfigManager.Classify | src/config_manager.cpp:66-123 | each line is classified on its own |
| ConfigManager.ScanStopsAtThrow | src/config_manager.cpp:93-97 | once a port assignment throws, no later line changes anything |
| ConfigManager.IgnoredLinesChangeNothing | src/config_manager.cpp:68-70 | skipped lines and lines without '=' change neither the settings nor the section |
| ConfigManager.SectionIsLastHeader | src/config_manager.cpp:73-76 | the section in force is the one named by the last header line |
| ConfigManager.SecurityMustComeLast | src/config_manager.cpp:126-129 | when the file's last header is not `[security]`, both basic auth and the whitelist end disabled |
| ConfigManager.RepeatedKeyLastWins | src/config_manager.cpp:91-121 | a repeated key line overwrites the earlier one |
| ConfigManager.ConfigManager.constructor | include/config_manager.h:86-97 | the five declared settings start at their initialisers (host "0.0.0.0", port 8080, controller "192.168.1.10":502, log level "info"); the five security settings, which no header declares, are assumed to start false, "", "", false and empty |
| ConfigManager.ConfigManager.SetAllowedIps | src/config_manager.cpp:107-119 | the list becomes the comma-separated items of the value, space-trimmed, with empty ones dropped |
| ConfigManager.ConfigManager.SetPair | src/config_manager.cpp:90-121 | throws exactly when the assignment does; otherwise the settings become the assigned ones |
| ConfigManager.ConfigManager.ApplyLine | src/config_manager.cpp:66-122 | one loop pass performs exactly one step of the line scan |
| ConfigManager.ConfigManager.LoadConfig | src/config_manager.cpp:47-133 | the outcome and the new settings are exactly those of loading the file's lines in order and then applying the final-section rule |
| ConfigManager.ConfigManager.IsIpAllowed | src/config_manager.cpp:135-155 | allowed exactly when the whitelist is off or the address equals an entry without '/'; an address with '/' is allowed only when the whitelist is off |
| Server.SupportControl | src/server.cpp:165-221 | missing fields are rejected first; a task is queued exactly when the fields are present, have the right types and the state is rigid or flexible; it is queued with those values and an empty target |
| Server.PlatformControl | src/server.cpp:233-307 | a task is queued exactly when all four fields are present and typed, the platform is 1 or 2 and the state is one of the two allowed; the platform is checked before the state, and the target is the platform number in decimal |
| Server.Switch | src/server.cpp:402-450 | the operation runs exactly when the field is one of the two allowed words, and each word runs its own operation |
| Server.SupportRequestQueued | src/server.cpp:172-202 | a well-formed support request queues exactly its values |
| Server.SupportRequestReachesCoil | src/server.cpp:202-202 | an accepted support request reaches coil 177 (rigid) or 178 (flexible) through the task worker |
| Server.HeightRequestReachesCoil | src/server.cpp:282-287 | an accepted height request reaches coil 179, 180, 181 or 182 according to its platform and direction |
| Server.LevelingRequestsReachNoCoil | src/server.cpp:348-373 | an accepted leveling request reaches no coil, yet its task reports "success" through the horizontal callback |
| Server.DirectOperationsReachNoCoil | src/server.cpp:423-547 | the power, motor and mode operations are names the controller's coil table does not know |
| Server.Project | src/server.cpp:603-621 | the result keeps "msg", "timestamp" and the requested fields present in the state, each with its original value, and nothing else |
| Server.ProjectIdempotent | src/server.cpp:603-621 | filtering twice with the same fields gives the same result |
| Server.ProjectAllFields | src/server.cpp:603-621 | requesting every field gives back the whole state |
| Server.FilterFields | src/server.cpp:585-622 | the full state is returned without a non-empty `fields` query; otherwise exactly its projection on the requested fields |
| Server.Credentials | src/server.cpp:740-747 | a split exists exactly when the text has a ':'; the user name has no ':' and user + ":" + password rebuilds the text |
| Server.CredentialsOfJoined | src/server.cpp:740-747 | a ':'-free user name joined with any password splits back into the two |
| Server.AuthenticateExactly | src/server.cpp:711-756 | a request passes exactly when its address passes the whitelist and, with basic auth on, the header is "Basic " plus text decoding to user + ":" + password with a ':'-free user name |
| Server.RouteOf | src/server.cpp:57-113 | a GET or POST path selects its handler exactly when it is one of that method's registered paths, any other path is NotFound, any other method is MethodNotAllowed, and no route answers Unauthorized |
| Server.UnauthenticatedRequestsServed | src/server.cpp:57-113 | as registered, a POST to a control path reaches its handler even when `authenticate_request` would refuse the request |
| Server.MissingCredentialsStillControlSupports | src/server.cpp:78-84 | with Basic authentication on and no Authorization header, the request fails the checks yet reaches the support-control handler |
| Server.GuardedDispatch | src/server.cpp:763-773 | with the check in front, a request is answered Unauthorized exactly when `authenticate_request` refuses it, and is otherwise routed as registered |
| Server.GuardedDispatchRefuses | src/server.cpp:763-773 | with the check in front, a client missing from an active whitelist reaches no handler, whatever its method and path |

## Findings

| source | as written | input that shows it | evidently intended | confidence | as-written member | corrected member |
|---|---|---|---|---|---|---|
| src/server.cpp:57-113 | `init_routes` sends every GET and POST straight to its handler; `authenticate_request` is called only from `handle_request` (lines 763-773), which no route reaches, so the IP whitelist and Basic authentication are never enforced | `[security] basic_auth=true`, a POST to `/stability/support/control` with no Authorization header: it reaches the support-control handler | every request passes `authenticate_request` first and is answered Unauthorized when it fails | medium, not executed | Server.MissingCredentialsStillControlSupports | Server.GuardedDispatch |

## Left out

- The Modbus transport is an oracle. Every `modbus_*` call, `modbus_new_tcp` and `modbus_connect` is an input of the method that calls it. Write Single Coil carries only ON or OFF, so a written code is modelled as a computed value plus its ON/OFF on the wire.
- The `reinterpret_cast<uint16_t*>` reads into a one-byte variable are undefined behaviour in the source. The model takes each such read as one byte.
- Floating point is left out: the `memcpy` of the merged word into a `float`, and the `/100.0` and `/10.0` scaling in the legacy parser. The model stops at the 32-bit word or the signed 16-bit register.
- Threads, mutexes, condition variables, atomics and `sleep_for` are not modelled. Each worker and monitor loop is modelled as sequential passes, one per input (an outcome or a reading). The lock-free interleavings are not modelled.
- The 60-second re-report, the pulse reset, connect backoff, "clear" notifications and the connection alarm are not modelled. No implementation of them exists in the core.
- Outbound HTTP callbacks are appended to an outbox sequence. A callback send is taken never to throw, except where `stoi` throws before it.
- JSON replies, wall-clock timestamps, logging, the listener itself and the main programs are library wrappers and are not part of this model. Routing is modelled only as the handler that a method and path select (`RouteOf`).
- JSON values are numbers, strings or "other". JSON numbers are unbounded integers here, so a number outside the 32-bit range is accepted as it is: the source's conversion of `as_integer`'s result to a 32-bit `int` (truncation or wrap-around) is not modelled, nor are non-integral numbers. JSON null and bool are "other", which is "not convertible".
- ConfigManager.ConfigManager.constructor: `basic_auth_enabled_`, `username_`, `password_`, `ip_whitelist_enabled_` and `allowed_ips_` are assigned in src/config_manager.cpp and read in src/server.cpp, but include/config_manager.h does not declare them. The model assumes they start false, empty, empty, false and empty, as zero-initialisation of the static singleton would leave members without an initialiser. This matters for a file whose last section is `[security]` but which lacks one of those keys: the assumed default is kept.
- Base64 decoding is a function parameter of `Authenticate`. A decoder that throws is not modelled.
- Finding the configuration file (`get_executable_path`, the fallback path) is not modelled. `LoadConfig` takes the file's text, or None when it cannot be opened.
- The file is split at '\n' only. A '\r' left by Windows line endings is kept as part of the line, as in the source.
- `m_reported_alarms` maps codes to `true` only, so it is a set of codes. `AlarmReportStatus` and `force_report` are declared in the header but never used.
- The legacy `connect_plc`, `disconnect_plc` and `get_current_state` are the same as the current ones apart from the address constants, and are not modelled a second time.
- The current revision's control byte, flag bits and VD addresses are not defined in any header. They are a `ControlLayout` parameter, and the VD bank is six 32-bit slots.
- The unrolled read sequences of both `read_plc_data` versions are modelled as loops over their address tables. They make the same requests in the same order and have the same early returns.
- The legacy `execute_operation` if-chain is modelled as a table with a first-match search. The names and command lines are the same.
- StartStopCommandCodes: stated on the two words of the command rather than on the command line; `CommandLineParses` connects the two.
- StartAndStopLookAlike: stated on the two words of the command rather than on the command line; `CommandLineParses` connects the two.
- AlarmMonitor.ParseAlarmSignal: its own contract only separates table labels from generic descriptions by length. The code carried in a generic description and the injectivity are stated by `UnknownCodeReadsBack` and `ParseAlarmSignalInjective`.
