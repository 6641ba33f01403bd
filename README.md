# falcli core, modelled in Dafny

falcli is the command-line client of the Falcoria scanning platform. It
talks to two HTTP back ends: ScanLedger stores projects and their IPs, and
the tasker runs Nmap scans on workers. This project models the client's
local logic:

- the scan option records and how they turn into Nmap flags and command
  strings;
- how `scan start` picks its targets, in both generations of the command
  (`app/commands/scan.py` and `app/cli/scan.py` with
  `app/core/scan/services.py`);
- the status poller;
- the project memory file and the profile store, with the project list
  kept in a profile;
- typed field setting of `profile set`;
- the table printers;
- the retry loop every connector shares;
- the IP and port records and the worker list.

Each module follows one source file:

- `Common`: shared datatypes
- `Text`: the Python string operations used
- `Options`: order-keeping list filter
- `Schemas`: `app/schemas.py`
- `IoUtils`: `app/utils/io_utils.py`
- `Targets`: pieces shared by both `scan start` commands
- `ScanCommands`: `app/commands/scan.py`
- `ScanService`: `app/core/scan/services.py`
- `ScanCli`: `app/cli/scan.py`
- `ProjectMemory`: `app/memory.py`
- `ProfileService`: `app/core/profile/services.py` and `models.py`
- `ProjectService`: `app/core/project/services.py`
- `ProfileCli`: `app/cli/profile.py`
- `Printer`: `app/utils/printer.py`
- `Connector`: `app/connectors/base.py`
- `Ips`: `app/core/ips/models.py` and `services.py`
- `Workers`: `app/core/workers/models.py` and `services.py`

The world outside the process becomes parameters:

- Files are maps from path to contents: a list of lines for a hosts file
  (or a mark that the path is a directory), or a parsed record for a YAML
  configuration or profile.
- A scan request carries the set of fields explicitly set, which is what
  `model_dump(exclude_unset=True)` sends.
- An HTTP call is a `Reply`: either the connector raised (with its
  message), or it answered with a status and a body. The body is `None`
  when it does not parse.
- The attempts of the retry loop are a function from attempt number to
  outcome.
- The poller reads a sequence of status replies.
- Clock readings and time formatting are inputs.
- The newer scan commands receive the outcome of
  `ProfileService.get_saved_project_id()` as an input: the saved id or the
  load error of the active profile (`ScanCli.SavedProjectId` computes it
  from the profile directory). The commands consult it only when no
  project id is given.
- A command that prints an error and exits with status 1 returns an error
  value naming that message.

Code that updates state step by step is imperative here:

- `Memory`, the profile directory (`ProfileStore`) and `BaseConnector` are
  classes whose methods update their fields.
- The flag builders, the column-width loops, the poller, the retry loop,
  the missing-field check and the worker-list loop are methods with loops.

Each method is proved against a specification function, and the
properties are proved about those functions as lemmas.

## Model

| member | source | states |
|---|---|---|
| Schemas.Inherited | app/schemas.py:163-164 | service options are the open-ports options with `ports` forced to None |
| Schemas.DefaultRequestValid | app/schemas.py:95-110 | the default options, the 1200 s timeout and host names of at most 253 characters satisfy every declared bound |
| Schemas.NoCrossFieldCheck | app/schemas.py:98-105 | the bounds accept a minimum RTT above the maximum and a minimum rate above the maximum rate: no cross-field check exists |
| Schemas.OpenPortsSlots | app/schemas.py:112-160 | the ten flag positions in emission order, each holding the flag its field contributes or nothing |
| Schemas.ServiceSlots | app/schemas.py:173-187 | the fifteen positions: the ten inherited ones, then `-A`, `-sC`, `-O`, `--traceroute`, `-sV` |
| Schemas.OpenPortsArgsPresent | app/schemas.py:112-160 | the flag list is exactly the filled positions, in the fixed order `-Pn`, `-R`/`-n`, `-sU`, `--max-retries`, the three RTT flags, the two rates, `-p` |
| Schemas.ServiceArgsPresent | app/schemas.py:173-187 | the service flag list is exactly the filled service positions, in order |
| Schemas.ToNmapArgs | app/schemas.py:112-160 | the list built by successive appends equals the ordered flag list |
| Schemas.ServiceToNmapArgs | app/schemas.py:173-187 | the inherited list extended by the service switches and `-sV` equals the ordered service flag list |
| Schemas.ClassifyLiterals | app/schemas.py:115-125 | each literal flag belongs to exactly one position; the service switches belong to none of the ten |
| Schemas.NumericClassify | app/schemas.py:127-152 | a numeric flag text belongs to its own position and no other |
| Schemas.ClassifySlot | app/schemas.py:112-160 | the argument of a filled position belongs to that position |
| Schemas.ClassifyIff | app/schemas.py:112-160 | an argument of position k appears in the list if and only if position k is filled, so each field adds at most one flag |
| Schemas.DefaultArgs | app/schemas.py:95-116 | default open-ports options render exactly `["-Pn"]`, default service options `["-Pn", "-sV"]` |
| Schemas.SkipHostDiscoveryIff | app/schemas.py:115-116 | `-Pn` is present if and only if host discovery is skipped |
| Schemas.DnsFlagTriState | app/schemas.py:118-119 | `-R` appears exactly for True and `-n` exactly for False; None adds neither |
| Schemas.UdpFlagIff | app/schemas.py:124-125 | `-sU` appears if and only if the transport is UDP |
| Schemas.PortsFlagIff | app/schemas.py:157-158 | some `-p` argument appears if and only if `ports` is a non-empty list, and it is `-p ` and the ports joined by commas |
| Schemas.NumericFlags | app/schemas.py:127-152 | each set numeric option appears as its flag, a space and its value, the RTT ones with `ms` |
| Schemas.NumericValueParses | app/schemas.py:127-152 | the value in a numeric flag reads back as the option's integer |
| Schemas.ServiceArgsShape | app/schemas.py:173-187 | service flags are the inherited flags then the switches, and the last is always `-sV` |
| Schemas.ServiceArgsNoPorts | app/schemas.py:163-164 | the service flag list never holds a `-p` argument |
| Schemas.InheritedNoPorts | app/schemas.py:163-164 | the inherited part of the service flags holds no `-p` argument |
| Schemas.ServiceTailNoPorts | app/schemas.py:176-185 | the service switches hold no `-p` argument |
| Schemas.ServiceSlotOf | app/schemas.py:176-183 | each service switch can only come from its own position |
| Schemas.ServiceSwitchesIff | app/schemas.py:176-183 | `-A`, `-sC`, `-O` and `--traceroute` each appear if and only if their switch is on |
| Schemas.Command | app/schemas.py:234-235 | a command is `nmap `, the flags joined by spaces, a space, then the hosts joined by spaces, ending in exactly that host text |
| Schemas.ToNmapCommands | app/schemas.py:223-240 | both commands use the same host list (None read as empty) with the open-ports and the service flags |
| Schemas.DefaultCommands | app/schemas.py:223-240 | a default request gives `nmap -Pn <hosts>` and `nmap -Pn -sV <hosts>` |
| Schemas.NoHostsTrailingSpace | app/schemas.py:232-235 | with no hosts both commands end in a space |
| Schemas.NoHostsSameAsEmpty | app/schemas.py:232 | hosts None and hosts `[]` give the same commands |
| Options.PresentAppend | app/schemas.py:113-160 | filtering the filled positions distributes over concatenation, so appending flags one by one builds the filtered list |
| Options.PresentMember | app/schemas.py:113-160 | a value is in the filtered list if and only if some position holds it |
| Options.PresentCount | app/schemas.py:113-160 | the filtered list has one element per filled position |
| Options.PresentOrder | app/schemas.py:113-160 | filled positions keep their relative order in the filtered list |
| Text.Strip | app/utils/io_utils.py:24 | Python `str.strip`: the result is a slice of the input with no whitespace at either end, and only whitespace was removed |
| Text.StripEmptyIffAllSpace | app/utils/io_utils.py:24 | a line strips to nothing if and only if it is all whitespace |
| Text.StripUnchanged | app/utils/io_utils.py:24 | a text without surrounding whitespace strips to itself |
| Text.Split | app/cli/scan.py:54 | Python `str.split(sep)`: at least one part, none holding the separator |
| Text.JoinSplit | app/cli/scan.py:54 | joining the parts of a split with the separator gives the text back |
| Text.SplitJoin | app/cli/scan.py:54 | splitting a join of separator-free parts gives the parts back |
| Text.ParseIntToString | app/cli/profile.py:139 | the decimal text of every integer parses back to it |
| Text.LeftAlign | app/utils/printer.py:50 | `{:<w}`: the text followed by spaces up to width w, never cut |
| IoUtils.LoadLinesFromFile | app/utils/io_utils.py:20-24 | a path that does not exist is `FileNotFoundError`; one that names a directory passes the existence check and is `IsADirectoryError`; otherwise the stripped non-blank lines of the file |
| IoUtils.EmptyPathIsDirectory | app/utils/io_utils.py:20-24 | the empty path is `.`, which exists, so reading it always raises `IsADirectoryError` and never `FileNotFoundError` |
| IoUtils.StrippedNonBlankClean | app/utils/io_utils.py:24 | no returned line is empty or has surrounding whitespace |
| IoUtils.StrippedNonBlankExact | app/utils/io_utils.py:24 | the result is the stripped lines, in file order, keeping exactly those that are not blank |
| IoUtils.StrippedNonBlankCount | app/utils/io_utils.py:24 | the result has one line per non-blank line of the file |
| IoUtils.CleanLinesUnchanged | app/utils/io_utils.py:24 | lines that are already clean come back unchanged |
| IoUtils.StrippedNonBlankIdempotent | app/utils/io_utils.py:24 | filtering a filtered list changes nothing |
| IoUtils.SerializableData | app/utils/io_utils.py:4-9 | one entry per input entry |
| IoUtils.SerializableDataSpec | app/utils/io_utils.py:6-9 | every key is kept in order; Path values become their text and every other value is unchanged |
| IoUtils.SerializableDataIdempotent | app/utils/io_utils.py:6-9 | converting twice is converting once |
| Targets.HostsFromCsvClean | app/commands/scan.py:126 | every host of a `--hosts` list is trimmed, non-empty and free of commas |
| Targets.HostsFromCsvRoundTrip | app/commands/scan.py:126 | joining the host list with commas and reading it again gives the same list |
| Targets.HostsFromCsvJoin | app/cli/scan.py:54 | a list of clean comma-free host names reads back from its comma join |
| Targets.ConfigAt | app/commands/scan.py:33-40 | `Path(path)` as a configuration: the current directory, the empty path included, always exists and fails to read; any other path exists exactly when it is a configuration file |
| Targets.HostsValidator | app/schemas.py:216-220 | `validate_hosts` as written runs only when `hosts` is given, never refuses, and raises the uncaught `AttributeError` exactly when the given `hosts` is falsy |
| Targets.IntendedHostsValidator | app/schemas.py:216-220 | the validator its comment describes never crashes and refuses exactly a given falsy `hosts` with no hosts file |
| Targets.HostsValidatorsDiffer | app/schemas.py:216-220 | the two validators differ exactly on a given falsy `hosts`; there the written one crashes and the intended one accepts if and only if a hosts file is named |
| Targets.EmptyHostsWithFileCrashes | app/schemas.py:216-220 | `{hosts: [], hosts_file: "t.txt"}` crashes as written and is accepted as intended |
| Targets.ResolveProjectId | app/commands/scan.py:141 | `project_id or <remembered id>`: the explicit non-empty id, else the saved non-empty one, else the id-required error; never an empty id |
| ScanCommands.LoadTargetsFromFile | app/commands/scan.py:24-29 | a path that does not exist is the targets-file error naming it; a directory is the uncaught `IsADirectoryError`; otherwise the stripped non-blank lines, none empty or padded |
| ScanCommands.LoadScanYaml | app/commands/scan.py:32-61 | the step-by-step loader, reassigning the hosts, gives the specified configuration result, the hosts validator's uncaught error included; the current directory, which `-c ""` names, exists and is the read error |
| ScanCommands.LoadedConfigHosts | app/commands/scan.py:50-59 | a loaded request differs from the file's document at most in its hosts, which then come from the hosts file and are not empty; the fields set are the mapping's keys, with only the hosts possibly added |
| ScanCommands.IntendedLoadsHostsFile | app/commands/scan.py:43-59 | a configuration giving a falsy `hosts` and a hosts file ends in the uncaught validator error as written, and with the intended validator loads its hosts from the file |
| ScanCommands.IntendedRefusesNoHosts | app/commands/scan.py:43-47 | with the intended validator a given falsy `hosts` without a hosts file is the validation error, and a configuration without `hosts` loads as it does as written |
| ScanCommands.HostsFileIgnoredWhenHostsGiven | app/commands/scan.py:50 | a configuration that has hosts loads the same whatever the files hold |
| ScanCommands.EmptyConfigPathReadFails | app/commands/scan.py:33-40 | `-c ""` and `-c .` name the current directory, which exists: the read error, never the not-found one |
| ScanCommands.LoadedConfigErrors | app/commands/scan.py:33-59 | missing config (never the current directory), read failure, the hosts validator's uncaught error for a given falsy `hosts`, validation failure, missing hosts file, a hosts file that is a directory and an empty hosts file each give their own error |
| ScanCommands.GetProjectId | app/commands/scan.py:64-69 | the last project when it is a non-empty string, else the id-required error |
| ScanCommands.HostsOptionWins | app/commands/scan.py:125-126 | a non-empty `--hosts` decides the targets whatever the targets file, the files, the configuration and `--from-config` are |
| ScanCommands.TargetsFileWins | app/commands/scan.py:127-128 | without `--hosts`, any given `--targets-file`, the empty path included, decides the targets whatever the configuration and `--from-config` are |
| ScanCommands.NoHostOptionRefused | app/commands/scan.py:133-135 | with none of the three options the result is the no-hosts-provided error |
| ScanCommands.DispatchNeverEmpty | app/commands/scan.py:137-144 | a sent request has a non-empty host list and a non-empty project id, and differs from the configuration only in its hosts |
| ScanCommands.DispatchFieldsSent | app/commands/scan.py:125-144 | the request is sent as `model_dump(exclude_unset=True)`: every field but the hosts is sent exactly when the configuration's mapping holds it, so the client's defaults are not sent; the hosts are sent when the mapping holds them or they were assigned |
| ScanCommands.EmptyTargetsFileRaises | app/commands/scan.py:127-128 | `--targets-file ""` without `--hosts` opens the current directory and ends in the uncaught `IsADirectoryError`, sending nothing |
| ScanCommands.DispatchConfigFirst | app/commands/scan.py:122 | a configuration that fails to load ends the command with its error whatever the target options say |
| ScanCommands.StartScan | app/commands/scan.py:94-153 | the command sends the specified request, with the fields set that its dump keeps, once (or nothing when a step fails); a sent request always has hosts; the outcome follows the tasker reply |
| ScanCommands.FinishesIffNoneLeft | app/commands/scan.py:83-85 | the bar completes if and only if the reported count is at most zero, a missing count read as zero |
| ScanCommands.DisplayScanProgress | app/commands/scan.py:72-87 | the loop reads replies until the first one that finishes the bar or raises; a raise aborts with its message; it sleeps after every query except a raising one |
| ScanCommands.PollerStopsAtFirstZero | app/commands/scan.py:76-87 | if some reply reports nothing left, there is a first reply that stops the poller, and all before it keep polling |
| ScanService.LoadScanYaml | app/core/scan/services.py:51-69 | the loader, updating the parsed mapping in place, gives the specified result, the hosts validator's uncaught error included (never after a non-empty override); the current directory, which `-c ""` names, exists and is the read error |
| ScanService.EmptyConfigPathReadFails | app/core/scan/services.py:52-60 | `-c ""` and `-c .` name the current directory, which exists: the read error whatever the override |
| ScanService.OverrideReplacesHosts | app/core/scan/services.py:62-63 | a non-empty override becomes the request's hosts and a set field, and every other field is the configuration's |
| ScanService.EmptyOverrideIgnored | app/core/scan/services.py:62 | None and an empty override both leave the configuration unchanged, so a valid configuration that the hosts validator accepts loads as given |
| ScanService.OverrideValidated | app/core/scan/services.py:62-69 | the override is validated with the rest: a host name over 253 characters is refused, and valid overrides repair a configuration whose own hosts were invalid |
| ScanService.StartScan | app/core/scan/services.py:13-23 | a raise is passed on, a falsy response is the no-response error, an unparsable body the parse error; otherwise the parsed response |
| ScanService.StopScan | app/core/scan/services.py:26-38 | the parsed answer only on status 200; any other status is the stop-failed error, a raise passes its message on |
| ScanService.GetScanStatus | app/core/scan/services.py:41-48 | the summary only on status 200; any other status is the status error |
| ScanCli.SavedProjectId | app/core/profile/services.py:80-83 | the active profile's current project as a string or None, or the load error of the active profile |
| ScanCli.ProjectOrSaved | app/cli/scan.py:94-97 | the given non-empty id without consulting the profile; else the profile's `ValueError`, uncaught; else the saved non-empty id or the id-required error; never an empty id |
| ScanCli.ResolveOverride | app/cli/scan.py:52-63 | the first branch chain gives the specified override hosts or error; any given targets path is read, and one naming a directory ends in the uncaught `IsADirectoryError` |
| ScanCli.ReadTargets | app/cli/scan.py:56-60 | the file's lines; `FileNotFoundError` becomes the targets-file error, and a directory's `IsADirectoryError` is not caught |
| ScanCli.ReassignHosts | app/cli/scan.py:71-89 | the second branch chain assigns the hosts chosen by `--hosts` or `--targets-file` (marking them set) or keeps the loaded ones, as specified |
| ScanCli.PrepareStart | app/cli/scan.py:52-97 | the whole preparation gives the specified project and request, or the first error, the uncaught profile error included |
| ScanCli.StartScanCmd | app/cli/scan.py:20-110 | the service is called once with the prepared request and the fields set that its dump keeps, which always has hosts, or not at all; the result is the summary the service returned |
| ScanCli.NoHostOptionBeforeConfig | app/cli/scan.py:61-63 | with none of the three host options the no-hosts error comes before, and whatever, the configuration |
| ScanCli.StartRequestSent | app/cli/scan.py:71-92 | a sent request has hosts, takes them from `--hosts` when given, and keeps the configuration's mode unless `--mode` is given |
| ScanCli.StartFieldsSent | app/cli/scan.py:65-101 | the request is sent as `model_dump(exclude_unset=True)`: apart from the hosts and the mode a field is sent exactly when the mapping holds it; the hosts are sent when the mapping holds them or an option assigned them, the mode when the mapping holds it or `--mode` is given |
| ScanCli.EmptyTargetsFileRaises | app/cli/scan.py:55-60 | `--targets-file ""` without `--hosts` reads `.` and ends in the uncaught `IsADirectoryError` before the configuration is read, whatever `--from-config` says |
| ScanCli.MissingTargetsFile | app/cli/scan.py:55-60 | a targets path that does not exist stops the command with the targets-file error before the configuration is read |
| ScanCli.BlankHostsOptionRefused | app/cli/scan.py:53-89 | a `--hosts` text with no host in it loads the configuration unchanged and is still refused with the no-targets error |
| ScanCli.StopScanCmd | app/cli/scan.py:115-139 | without a project id a profile that does not load ends in its uncaught `ValueError` and no saved id in the id-required error; the project used is the given or the saved one; `stopped` reports the revoked count, any other status the no-tasks warning |
| ScanCli.ScanStatusCmd | app/cli/scan.py:143-162 | without a project id a profile that does not load ends in its uncaught `ValueError` and no saved id in the id-required error; otherwise the fetched summary, exactly when the reply is a 200 with a body |
| ScanCli.FreshInstallStopRaises | app/cli/scan.py:121 | on a fresh install `scan stop` without an id raises the not-found error of the `default` profile |
| ProjectMemory.Lookup | app/memory.py:45-46 | a name is found if and only if some entry holds it, and with distinct names it gives that entry's id |
| ProjectMemory.Put | app/memory.py:41 | assignment adds one entry exactly when the name is new |
| ProjectMemory.PutUnique | app/memory.py:41 | assignment keeps the names distinct |
| ProjectMemory.PutLookupSame | app/memory.py:41 | after assignment the name maps to the new id |
| ProjectMemory.PutLookupOther | app/memory.py:41 | after assignment every other name maps as before |
| ProjectMemory.PutOrder | app/memory.py:41 | an existing name keeps its place; a new one is added at the end |
| ProjectMemory.FirstWithId | app/memory.py:78-81 | the first entry holding the id, or none exactly when no entry holds it |
| ProjectMemory.RemoveAt | app/memory.py:84 | removing one entry shortens the list by one |
| ProjectMemory.RemoveNameAt | app/memory.py:84 | with distinct names, deleting an entry's name removes that entry |
| ProjectMemory.RemoveAtUnique | app/memory.py:84 | the other entries stay, in order, and names stay distinct |
| ProjectMemory.RemoveAtGone | app/memory.py:84 | the deleted name is no longer found |
| ProjectMemory.RemoveAtOther | app/memory.py:84 | every other name maps as before |
| ProjectMemory.ConvertShape | app/memory.py:103-111 | conversion keeps every dict and list shape, keys and lengths, and leaves no UUID |
| ProjectMemory.ConvertIdentity | app/memory.py:103-111 | a value without UUIDs converts to itself |
| ProjectMemory.ConvertIdempotent | app/memory.py:103-111 | converting twice is converting once |
| ProjectMemory.DataWrittenAsIs | app/memory.py:113-114 | data whose ids are all strings is written unchanged |
| ProjectMemory.DataWrittenAsText | app/memory.py:102-114 | the file holds the memory's data with every UUID id written as its text |
| ProjectMemory.UuidFoundOnlyAfterReload | app/memory.py:34-35 | a project saved under a UUID is not found by its text within the process, and is found once the file is loaded back |
| ProjectMemory.Memory.constructor | app/memory.py:21-31 | empty state, replaced by the file's data, whose ids are strings; a malformed file resets to empty and is saved |
| ProjectMemory.Memory.Save | app/memory.py:102-114 | the converted data is written |
| ProjectMemory.Memory.ProjectIdExists | app/memory.py:34-35 | true if and only if some project maps to an equal id; a UUID never equals a string |
| ProjectMemory.Memory.SaveProject | app/memory.py:39-43 | the name maps to the id, others unchanged, the id becomes the last project, and the data is saved |
| ProjectMemory.Memory.GetProjectId | app/memory.py:45-46 | the id of the name, or None when it is unknown |
| ProjectMemory.Memory.SetLastProject | app/memory.py:51-54 | the last project becomes the id, unchecked, and the data is saved |
| ProjectMemory.Memory.GetSavedProjectSummary | app/memory.py:56-70 | None without a last project; the first pair holding its id; the inconsistent-memory error when no pair holds it |
| ProjectMemory.Memory.DeleteProjectById | app/memory.py:74-89 | removes the first name holding the id when that name is non-empty, clears a matching last project and saves; otherwise changes and writes nothing |
| ProjectMemory.Memory.Clear | app/memory.py:91-94 | empty projects, no last project, saved |
| ProfileService.NewProfile | app/core/profile/models.py:4-9 | a new profile has no projects and no current project |
| ProfileService.ProfilePath | app/core/profile/services.py:13-14 | the path is the directory, `/`, the name and `.yaml` |
| ProfileService.ProfilePathInjective | app/core/profile/services.py:13-14 | distinct names have distinct files |
| ProfileService.ProfilePathNotActiveFile | app/core/profile/services.py:13-18 | no profile file is the active-profile file |
| ProfileService.ActiveName | app/core/profile/services.py:55-61 | "default" when the file is absent, otherwise its stripped contents |
| ProfileService.ActiveAfterRead | app/core/profile/services.py:58-60 | reading creates the file with "default" when absent, and reading again gives the same name |
| ProfileService.ActiveNameRoundTrip | app/core/profile/services.py:49-61 | a name without surrounding whitespace written as active reads back unchanged |
| ProfileService.ActiveNameEmptyIff | app/core/profile/services.py:55-61 | the name is empty if and only if the file exists and holds only whitespace |
| ProfileService.ProfileStore.LoadProfile | app/core/profile/services.py:26-34 | a missing file is the not-found error, a document outside the schema the load error; otherwise the stored conforming profile |
| ProfileService.ProfileStore.SaveProfile | app/core/profile/services.py:37-40 | the profile's file is overwritten; it loads back when it fits the schema; every other profile loads as before |
| ProfileService.ProfileStore.SetActiveProfile | app/core/profile/services.py:49-52 | the active file holds the name |
| ProfileService.ProfileStore.GetActiveProfileName | app/core/profile/services.py:55-61 | returns the active name and leaves the file as reading it does |
| ProfileService.ProfileStore.GetSavedProjectId | app/core/profile/services.py:80-83 | the active profile's current project, or the load error; the name is not checked first |
| ProfileService.MissingSlots | app/core/profile/services.py:65-75 | one position per required field, holding its name when missing |
| ProfileService.ValidateProfileData | app/core/profile/services.py:64-77 | the loop returns the specified missing-field list |
| ProfileService.MissingFieldsUnrolled | app/core/profile/services.py:71-77 | the list is each required field in turn, when missing |
| ProfileService.MissingFieldsExact | app/core/profile/services.py:72-75 | a field is reported if and only if it is required and None or whitespace only |
| ProfileService.MissingFieldsOrdered | app/core/profile/services.py:65-77 | the report follows the order `scanledger_base_url`, `tasker_base_url`, `token` and names no field twice |
| ProfileService.NothingMissingIff | app/core/profile/services.py:71-77 | nothing is reported if and only if all three fields hold non-blank text |
| ProfileService.NewProfileValid | app/core/profile/services.py:71-77 | a profile created from three non-blank values passes |
| ProfileService.ProjectExists | app/core/profile/services.py:86-93 | true exactly on an answer with status 200; a raise is false |
| ProjectService.ProjectOnStatus | app/core/project/services.py:15-26 | the project on the expected status, None on any other, a raise passed on |
| ProjectService.CreateProject | app/core/project/services.py:15-19 | a project only on 201, None on any other status |
| ProjectService.GetProject | app/core/project/services.py:22-26 | a project only on 200, None on any other status |
| ProjectService.KeepSlots | app/core/project/services.py:37-39 | one position per saved project |
| ProjectService.Pruned | app/core/project/services.py:37-43 | the edit fails exactly when an entry has no `project_id`; connection fields unchanged |
| ProjectService.PrunedProjects | app/core/project/services.py:37-39 | an entry is kept if and only if it was saved and its id differs |
| ProjectService.PrunedOrder | app/core/project/services.py:37-39 | kept entries stay in their saved order |
| ProjectService.PrunedCurrent | app/core/project/services.py:42-43 | the current project is cleared exactly when it has the id |
| ProjectService.PrunedOnLoadedProfile | app/core/project/services.py:37-43 | on a profile that loaded, the edit succeeds only with no saved projects and an absent or empty current project |
| ProjectService.DeleteProject | app/core/project/services.py:29-49 | on 204 the active profile is pruned and saved and the result is true; otherwise false and nothing touched |
| ProjectService.CurrentProjectId | app/core/project/services.py:57 | None for an absent or falsy current project, else its `project_id` |
| ProjectService.CurrentProjectIdOfLoadedProfile | app/core/project/services.py:57 | on a profile that loaded the read gives None, or fails for a non-empty bare id |
| ProjectService.GetSavedProjectId | app/core/project/services.py:52-57 | None without an active name, else the current project's id |
| ProjectService.WithSaved | app/core/project/services.py:65-67 | the project becomes the current one; connection fields unchanged |
| ProjectService.WithSavedCounts | app/core/project/services.py:65-66 | the project is saved once, every other entry keeps its count, and old entries keep their places |
| ProjectService.SavedRecordDoesNotReload | app/core/project/services.py:65-68 | a saved record does not fit the declared string schema, so the saved profile does not load again |
| ProjectService.WithSavedIdempotent | app/core/project/services.py:65-67 | saving the same project twice is saving it once |
| ProjectService.SaveProject | app/core/project/services.py:60-68 | with an active name, the loaded profile gets the project once as current and is saved |
| ProjectService.SetDefaultProject | app/core/project/services.py:71-81 | false and nothing saved when the project is not found; otherwise its record is saved as current |
| ProfileCli.FieldAnnotation | app/cli/profile.py:123-132 | a field has an annotation if and only if it is a model field |
| ProfileCli.StrippedParts | app/cli/profile.py:137 | one stripped item per comma-separated part, empty parts kept |
| ProfileCli.ConvertValue | app/cli/profile.py:133-148 | only an `int` parse fails; `str` and other annotations take the text, None gives None, lists one item per part, bool a flag |
| ProfileCli.ListRoundTrip | app/cli/profile.py:137 | clean comma-free items joined by commas convert back to the same list |
| ProfileCli.IntRoundTrip | app/cli/profile.py:138-139 | an integer's text converts back to the integer |
| ProfileCli.IntRejectsBlank | app/cli/profile.py:138-148 | blank text is not an integer |
| ProfileCli.BoolCaseInsensitive | app/cli/profile.py:140-141 | true exactly when the lowercased value is "true", "1" or "yes", whatever the case |
| ProfileCli.UpdatedProfile | app/cli/profile.py:122-150 | an unknown field is the invalid-field error; otherwise the converted value is assigned |
| ProfileCli.SetStringField | app/cli/profile.py:134-135 | a string field takes the text verbatim and nothing else changes |
| ProfileCli.SetProjectsField | app/cli/profile.py:136-137 | `projects` takes one stripped entry per part, empties kept, nothing else changes |
| ProfileCli.SetCurrentProjectField | app/cli/profile.py:144-145 | `current_project` takes the text verbatim |
| ProfileCli.UpdatedConforms | app/cli/profile.py:131-150 | every accepted set keeps a loaded profile loadable |
| ProfileCli.SetProfileField | app/cli/profile.py:110-152 | a failed load or unknown field exits with nothing saved; otherwise the updated profile is saved |
| ProfileCli.Ids | app/cli/profile.py:38-40 | the ids of the entries, in order |
| ProfileCli.Dump | app/cli/profile.py:38 | one dumped value per field, in declaration order |
| ProfileCli.Render | app/cli/profile.py:39-43 | a non-empty list renders as its items with ", " between them, so its length is theirs plus two per separator |
| ProfileCli.ProfileRows | app/cli/profile.py:37-43 | one row per field in order, each with its rendered value |
| ProfileCli.ProfileRowsValues | app/cli/profile.py:38-43 | connection fields verbatim, projects joined or "-", current project's id or "-" |
| ProfileCli.ShowProfile | app/cli/profile.py:24-49 | no active name exits, a failed load is reported, otherwise the rows of the loaded profile |
| ProfileCli.SetDefaultProject | app/cli/profile.py:87-107 | no active name or an unknown project exits without saving; otherwise the id becomes the current project |
| ProfileCli.DefaultProjectReloads | app/cli/profile.py:99-101 | the id set as current project is read back by the next load |
| ProfileCli.SetActive | app/cli/profile.py:77-84 | a profile that fails to load is reported and nothing changes; otherwise it becomes the active profile, read back and loadable by the next command |
| ProfileCli.ValidateProfile | app/cli/profile.py:164-187 | status 0 with the valid message exactly for a file that builds a profile with no blank required field; otherwise status 1, the missing file or the missing fields reported, always followed by the failed-to-load message |
| ProfileCli.CreatedProfileValidates | app/cli/profile.py:51-63 | a profile `create` writes passes `validate` exactly when its three connection values are non-blank |
| Printer.ColumnWidth | app/utils/printer.py:45-48 | a width is at least the header and every cell of its column, and equals one of them |
| Printer.Widths | app/utils/printer.py:45-48 | one width per column |
| Printer.Padded | app/utils/printer.py:50 | each cell left-aligned to its column's width |
| Printer.UpperAll | app/utils/printer.py:43 | each header uppercased |
| Printer.TableLines | app/utils/printer.py:50-56 | one header line and one line per row, formatted with the widths |
| Printer.RowLines | app/utils/printer.py:55-56 | one line per row, in order |
| Printer.ColumnTable | app/utils/printer.py:41-56 | the printed lines are the specified table |
| Printer.MeasureColumns | app/utils/printer.py:45-48 | the nested loop computes the specified widths |
| Printer.FormatRowAligned | app/utils/printer.py:50-56 | every cell starts at its column's offset, followed by spaces to the column's end |
| Printer.HeaderLineAligned | app/utils/printer.py:53 | each uppercased header starts at its column's offset after the grey code |
| Printer.HeadersFit | app/utils/printer.py:45-48 | every uppercased header fits its width |
| Printer.CellsFit | app/utils/printer.py:46-48 | every cell fits its width |
| Printer.HeaderAligned | app/utils/printer.py:41-56 | headers and cells of a column start at the same offset |
| Printer.CellText | app/utils/printer.py:79-84 | None renders "-", a one-element list its element |
| Printer.PrintModelTable | app/utils/printer.py:58-88 | "(No data)" for no objects, else the column table of the uppercased fields and rendered rows |
| Printer.RowText | app/utils/printer.py:76-85 | one rendered cell per field |
| Printer.ModelRows | app/utils/printer.py:74-85 | one row per object |
| Printer.UpperIdempotent | app/utils/printer.py:71 | uppercasing twice is uppercasing once |
| Printer.ModelTableHeaders | app/utils/printer.py:71-88 | headers uppercased before the table prints the same as raw headers |
| Printer.LongestKey | app/utils/printer.py:96 | the longest key length, reached by some key |
| Printer.Keys | app/utils/printer.py:96 | the keys in order |
| Printer.KeyValueLines | app/utils/printer.py:90-105 | no lines only for no data (where the source raises); one line per entry |
| Printer.KeyValueTable | app/utils/printer.py:90-105 | the loop prints the specified lines |
| Printer.KeyValueLineShape | app/utils/printer.py:104-105 | the key follows the indent and grey code; ": " stands at the colon column |
| Printer.KeyValueAligned | app/utils/printer.py:96-105 | all lines have their colon at the same column |
| Printer.ScanSummaryTable | app/utils/printer.py:136-171 | the printed lines are the specified summary |
| Printer.SummaryLineCount | app/utils/printer.py:153-171 | six lines, plus three when something was skipped, plus five when something was rejected |
| Printer.SummaryBreakdownsOmitted | app/utils/printer.py:142-171 | with non-negative counts, a breakdown is omitted if and only if all its reasons are zero |
| Printer.CountReads | app/utils/printer.py:146-150 | a shown count reads back as the number |
| Printer.SkippedTotalReads | app/utils/printer.py:142-148 | the shown skipped total is the sum of its two reasons |
| Printer.RejectedTotalReads | app/utils/printer.py:143-149 | the shown rejected total is the sum of its four reasons |
| Printer.TargetRows | app/utils/printer.py:193-204 | one row of five cells per running target |
| Printer.TaskSummaryTable | app/utils/printer.py:175-208 | the printed lines are the specified status summary |
| Printer.TaskCountsAddUp | app/utils/printer.py:179-183 | the shown running and queued counts add up to the shown total |
| Printer.ScanStartHeader | app/utils/printer.py:211-230 | the printed lines are the specified settings header |
| Printer.NotPerformedIff | app/utils/printer.py:216-220 | services show "not performed" if and only if they are not included |
| Printer.EndsInFlag | app/utils/printer.py:217-219 | service flags ending in `-sV` never read "not performed" |
| Connector.TrimEnd | app/connectors/base.py:13 | `rstrip(c)`: the longest prefix not ending in c, after which only c follows |
| Connector.TrimStart | app/connectors/base.py:30 | `lstrip(c)`: the longest suffix not starting with c, before which only c stands |
| Connector.TrimEndIdempotent | app/connectors/base.py:13 | stripping twice is stripping once |
| Connector.SlashesIgnored | app/connectors/base.py:13-30 | extra trailing slashes on the base and leading slashes on the endpoint do not change the URL |
| Connector.OneSlash | app/connectors/base.py:30 | the URL is the stripped base, one slash and the stripped endpoint |
| Connector.Settle | app/connectors/base.py:44-59 | an outcome that is not retried returns only for a success status, else fails |
| Connector.BaseConnector.constructor | app/connectors/base.py:12-16 | stored base URL without trailing slashes, the token, and the bearer header |
| Connector.BaseConnector.MakeRequest | app/connectors/base.py:18-59 | the loop requests the joined URL and gives the specified result and attempt count |
| Connector.RetriesPassOn | app/connectors/base.py:47-50 | retried attempts pass the decision on, one attempt each |
| Connector.FirstSettledDecides | app/connectors/base.py:44-59 | the first attempt that is not retried decides the result, and no attempt follows it |
| Connector.RetriesExhausted | app/connectors/base.py:47-49 | when every attempt fails to connect, the last one raises naming the retry count, after exactly `max_retries` attempts |
| Connector.AttemptsBounded | app/connectors/base.py:32 | at most `max_retries` attempts, and at least one when it is positive |
| Connector.NoneWithoutAttempts | app/connectors/base.py:32 | the result is None, without error, exactly when no attempt is made |
| Ips.ProtocolRoundTrip | app/core/ips/models.py:7-9 | a protocol's text parses back, and only its text parses to it |
| Ips.StateRoundTrip | app/core/ips/models.py:12-18 | each of the six states' text parses back, and only its text parses to it |
| Ips.ValidatePort | app/core/ips/models.py:21-29 | a port validates if and only if its number is in [0, 65535] and its protocol and state are known |
| Ips.NormalizeHostnames | app/core/ips/models.py:42-44 | None or absent hostnames become `[]`, a list is kept |
| Ips.ValidatePorts | app/core/ips/models.py:40 | a port list validates if and only if each port does, element by element |
| Ips.ValidateIpIff | app/core/ips/models.py:32-44 | an IP validates if and only if all its ports do; the address and normalised hostnames are kept; absent fields take their defaults |
| Ips.ValidateIps | app/core/ips/services.py:13 | a list validates if and only if each IP does, element by element |
| Ips.ListIps | app/core/ips/services.py:10-13 | the list only for a body that validates, whatever the status; it is the validated body, one IP per raw record |
| Ips.IpsOn | app/core/ips/services.py:16-29 | None on any status but the expected one; on that one the validated body, exactly when it validates |
| Ips.DownloadIps | app/core/ips/services.py:32-36 | the content only on 200 |
| Ips.GetIp | app/core/ips/services.py:61-65 | an IP only on 200 with a valid body, and then the validated body with its address; None on any other status |
| Ips.Deleted | app/core/ips/services.py:51-58 | true if and only if the status is 204 |
| Ips.OutputPath | app/core/ips/services.py:39-48 | the configuration-not-loaded error without one; `out` when given; else a file in the report directory |
| Ips.DefaultPathShape | app/core/ips/services.py:48 | the default path is in the report directory and ends with the format's extension; the formats never share a path |
| Workers.FromWorkerIp | app/core/workers/models.py:15-34 | the fields are copied; an unparsable time gives "unknown", else the age text |
| Workers.AgeBuckets | app/core/workers/models.py:20-25 | under 60 s seconds, under an hour whole minutes, else whole hours; each age in exactly one unit |
| Workers.AgoReads | app/core/workers/models.py:20-25 | the age text splits into the count, the unit and "ago", and the count parses back |
| Workers.EntryIp | app/core/workers/services.py:19-36 | hostname is the key, a missing ip "unknown", a missing or zero time "unknown", any other time its rendering |
| Workers.EntryIps | app/core/workers/services.py:23-36 | one worker per entry, in order |
| Workers.GetWorkersIps | app/core/workers/services.py:8-38 | a status that is not `ok` (400 to 599) or a body without workers is the failed-to-get-IPs error; otherwise one worker per entry, in order |

## Findings

| source | as written | input that shows it | evidently intended | confidence | as-written member | corrected member |
|---|---|---|---|---|---|---|
| app/schemas.py:216-220 | `validate_hosts` takes a third argument named `values` and calls `values.get("hosts_file")`; under pydantic v2 that argument is the validation info, which has no `get`, so a given falsy `hosts` raises `AttributeError`, which `load_scan_yaml` does not catch | a configuration `{hosts: [], hosts_file: "t.txt"}` (or `{hosts: []}` alone) | as its comment says: a falsy `hosts` is accepted when a hosts file is named, to be filled from the file later, and refused with a validation error otherwise | not executed | Targets.EmptyHostsWithFileCrashes | Targets.IntendedHostsValidator |

The rest of the model keeps the validator as written in the loaders (`ScanCommands.LoadedConfig`, `ScanService.LoadScanYaml`); `ScanCommands.LoadedConfigBy` takes the validator as a parameter, and `ScanCommands.IntendedLoadsHostsFile` and `ScanCommands.IntendedRefusesNoHosts` prove what the corrected validator gives.

## Left out

- YAML and JSON parsing and pydantic internals. Parsed documents and bodies are inputs, and validation is the declared bounds. A scan configuration is given as its record and the set of its top-level keys; the model does not check that the absent keys hold their defaults.
- An empty scan configuration file, or one whose document is not a mapping: `yaml.safe_load` then gives None or a list, and `RunNmapRequest(**yaml_data)` (app/commands/scan.py:43), like `yaml_data["hosts"] = …` and `RunNmapRequest(**yaml_data)` (app/core/scan/services.py:62-67), raises a `TypeError` that nothing catches. The model's configurations are always mappings, so this outcome is not modelled.
- The `validate_hosts` validator of `RunNmapRequest` (app/schemas.py:216-220) is modelled by its outcome only (`Targets.HostsValidator`): it runs when `hosts` is given, and for a falsy `hosts` its `values.get` on pydantic's validation info raises an `AttributeError` that the loaders do not catch (`Err(UncaughtHostsValidator)`). The traceback text is not modelled. The hosts and hosts-file rule itself is enforced where the callers do.
- app/core/scan/models.py is not part of this model. The newer scan code (`ScanService`, `ScanCli` and `Printer.ScanStartHeader`) imports its `RunNmapRequest` from there; in its place the model uses the `RunNmapRequest` of app/schemas.py, with its validation and flag builders (`Schemas.ValidRequest`, `Schemas.ToNmapArgs`), so the newer commands take the older schema's fields, defaults and bounds. The response records are shaped after their uses in the printer.
- Rich markup and colours. The grey escape codes of the column table and key/value table are kept, and the blank lines `print()` writes inside the printed blocks are empty lines of those blocks.
- Floating point of the progress bar percentage. Only the integer count and the completion condition are modelled.
- Sleeping, in the poller and between connector retries. Only the number of sleeps is modelled.
- `Connector.BaseConnector.MakeRequest`: the HTTP method, parameters, JSON body, files and timeout are passed through untouched, so they are not modelled.
- Clocks, time zones and `strftime`:
  - Start times and elapsed times in the task summary are given as text.
  - In the worker list, rendering a timestamp is a function parameter.
  - The worker age is the difference of two given second counts.
- `Workers.GetWorkersIps`: `last_seen` is formatted and then dropped by `WorkerIP`, so it is not modelled.
- `Workers.GetWorkersIps`: non-integer or null timestamps and a null `ip` make the source raise. The model takes integer timestamps and an optional address.
- Directory creation (`mkdir`) and path normalisation beyond the empty path, which names the current directory `.`. Paths are plain strings joined with "/".
- The message texts of `app/messages`. Each message is a constructor of an error datatype.
- `Printer.ScanStartHeader`: `get_display_path` is not part of this model, so the configuration path is shown as given.
- `print_active_project`: its `FalcoriaProject` type is not part of this model.
- `ScanCli.StartScanCmd`: as written, app/cli/scan.py:108 calls `scan_start_header` with two arguments for its three parameters, so every start that succeeds raises `TypeError` right after the success message, and neither the header nor the summary is printed. The model assumes the intended three-argument call, with the displayed path as an input, and its result is the summary that call goes on to print.
- `ScanCli.StartScanCmd`: `model_dump(exclude_unset=True)` is modelled for the top-level fields only. Inside the two option records pydantic also leaves out the keys the configuration did not give; the model sends those records whole.
- `ScanCommands.StartScan`: the same top-level-only reading of `model_dump(exclude_unset=True)` applies.
- Paths that name something other than a text file or a directory (devices, unreadable files) are not modelled.
- `Text.ParseInt` accepts the ASCII subset of `int()`: underscores between digits and non-ASCII decimal digits, which Python also accepts, are refused.
- `Text.Lower` and `Text.Upper` fold the ASCII letters only, where Python's `str.lower` and `str.upper` fold every Unicode letter; `ProfileCli.BoolCaseInsensitive` and `Printer.UpperAll` inherit this.
- The `list`, `create`, `delete` and `show-active` profile commands, `list_profiles`, `delete_profile` and `list_projects`. They only forward to the file system or the back end.
- `grouped_ip_table`, `preview_scan` and `show_scan_options`. They only print, with no computed property.
- `create_ips` and `import_ips` are modelled by `Ips.IpsOn` with their status (201 and 200).
- `delete_ip` and `delete_all_ips` are both `Ips.Deleted`.
- `ProfileService.ProfileStore.LoadProfile`: the declared schema types `projects` and `current_project` as strings, while the project service reads them as records. The model keeps both views: a saved record makes the profile fail to load again (`ProjectService.SavedRecordDoesNotReload`).
- `Connector.BaseConnector.MakeRequest`: a `max_retries` of zero or less makes no attempt and returns None, as the loop as written does.
- Integers are unbounded. The source's Python integers are unbounded too.
