# claude-extend (`cx`) in Dafny: the tool registry and the install/remove commands

`cx` manages MCP server connections for the `claude` command-line host. It keeps a
registry of tool descriptors: a name, a description, an executable and its arguments.
The descriptors come from a JSON configuration file or from three built-in defaults.
`cx` asks the host once per run which servers it already has (`claude mcp list`), and
runs `claude mcp add` or `claude mcp remove` for the tools the user names or ticks.

This project models that core in Dafny and proves what it promises:

- `Utils` (utils.py): the message renderer, the two environment checks, the
  configuration-file lookup and loader. Everything the operating system supplies is one
  value of type `Env`: environment variables, the home and working directories, which
  paths exist, what `json.load` makes of each file, which executables `shutil.which`
  finds, and whether standard input is a terminal.
- `Tools` (tools.py): the `Tool` descriptor, the placeholder substitution, the host
  commands, and two classes.
  - `Host` is the `claude` process. It has a fixed `mcp list` reply and an answer for
    each mutating command, which may depend on the commands issued before it. It keeps
    a log of every command issued.
  - `Registry` is `MCPToolRegistry`. It holds the loaded descriptors and the write-once
    cache of the host's listing.
- `Cli` (main.py): `list`, `add` (by name and interactive) and `remove`. Each command
  returns the status lines it reports, as `Event`s, and is proved against a function
  that states what it reports and which host commands it runs.
  - The user's answer to the checkbox prompt is a parameter: the ticked names, or None
    when the prompt is cancelled.
- `PyStr`, `Seqs` and `Options` hold the Python string operations (`in`,
  `str.replace`, `split`, `join`), sequence facts and `Optional`.

The code and its own documentation disagree in three places. The model follows the code:

- The `load_external_tools_config` docstring (utils.py:102-113) describes entries with
  `name`, `prerequisite`, `error_message` and `install_command`. The loader reads
  `description`, `command` and `args` (tools.py:84-89), keyed by the entry's name.
- A prerequisite is the tool's own `command` on the search path (tools.py:19-20). There
  is no logical group such as "npm or npx".
- Descriptors have no `error_message`, although main.py reads one. See "## Findings".

## Model

| member | source | states |
|---|---|---|
| Utils.UnknownLevelRendersAsInfo | src/claude_extend/utils.py:19-37 | a level other than info, success, warning and error renders exactly as info: blue, with the info icon |
| Utils.RenderFramesMessage | src/claude_extend/utils.py:37 | the printed line is the level's colour code, then its icon, two spaces, the unaltered message and the reset code |
| Utils.KnownLevelsHaveDistinctColors | src/claude_extend/utils.py:27-32 | the four known levels get four different colour codes |
| Utils.ValidateEnvironment | src/claude_extend/utils.py:40-54 | passes exactly when `claude` is on the search path; the first line reports the working directory exactly when one of the five project markers exists; the "not found" line appears exactly when it fails |
| Utils.ValidateInteractiveEnvironment | src/claude_extend/utils.py:57-66 | passes exactly when `claude` is on the search path and standard input is a terminal; the "requires interactive input" line appears only when the base check passed and standard input is not a terminal |
| Utils.FirstExisting | src/claude_extend/utils.py:92-96 | None exactly when no candidate exists; otherwise an existing candidate with no existing candidate before it |
| Utils.FirstExistingAt | src/claude_extend/utils.py:92-94 | when candidate i exists and none before it does, candidate i is the answer |
| Utils.GetConfigPath | src/claude_extend/utils.py:69-96 | returns the first existing path among the non-empty `CLAUDE_EXTEND_CONFIG` value and the two per-user locations, in that order |
| Utils.ConfigPathPriority | src/claude_extend/utils.py:79-96 | an existing path named by the variable wins; otherwise the first existing per-user location is used; the result is None exactly when no candidate exists |
| Utils.LoadExternalToolsConfig | src/claude_extend/utils.py:99-123 | yields a value exactly when the file is readable and decodes to an object; the value is the object's `tools` entry, or an empty object when that key is absent |
| PyStr.ReplaceIsJoinOfSplit | src/claude_extend/tools.py:44 | `s.replace(p, r)` equals `r.join(s.split(p))`, so every occurrence is replaced |
| PyStr.ReplaceWithoutOccurrence | src/claude_extend/tools.py:44 | a string without the pattern is unchanged by the replacement |
| PyStr.ReplaceAfterPlainPrefix | src/claude_extend/tools.py:44 | a pattern after a prefix that cannot start it is replaced in place; the prefix is kept and the rest is replaced independently |
| PyStr.ReplaceWholeToken | src/claude_extend/tools.py:44 | a token equal to the pattern becomes the replacement |
| Tools.SubstitutionShape | src/claude_extend/tools.py:44 | substitution keeps the number of arguments, leaves arguments without `{project_dir}` unchanged, and turns a bare `{project_dir}` into the directory |
| Tools.SubstitutionExamples | src/claude_extend/tools.py:44 | `["run","--dir","{project_dir}"]` with `/x/y` gives `["run","--dir","/x/y"]`; a placeholder inside a longer token is replaced too |
| Tools.InstallCommandRoundTrip | src/claude_extend/tools.py:44-46 | the `claude mcp add <name> -- <command> <args>` command parses back to exactly the tool's name, command and substituted arguments; a remove command never parses as an add |
| Tools.MarkedIsSubstringTest | src/claude_extend/tools.py:140-142 | a tool is installed exactly when `name:` occurs in the listing; the empty-output guard changes nothing |
| Tools.MarkerCollision | src/claude_extend/tools.py:128-142 | `memory` counts as installed when only `basic-memory:` is listed; a listing that exits non-zero is cached as "" and marks nothing |
| Tools.Host.List | src/claude_extend/tools.py:131 | `claude mcp list` returns the host's reply, counts one query and runs no mutating command |
| Tools.Host.Run | src/claude_extend/tools.py:27 | a mutating command is appended to the host's log; its success is the host's answer given the earlier commands |
| Tools.RunClaudeCommand | src/claude_extend/tools.py:25-32 | the command is run once; the result is true exactly when it exits with status 0 |
| Tools.PrerequisitesMet | src/claude_extend/tools.py:19-20 | a tool's prerequisites are met exactly when its command is on the search path |
| Tools.StringItems | src/claude_extend/tools.py:89 | a list converts exactly when every item is a string, and then gives the items' texts in order |
| Tools.EntryToolConverts | src/claude_extend/tools.py:84-89 | an entry converts exactly when it has a string `description` and `command` and a list of strings `args`; the descriptor is named after the key and carries the entry's three values |
| Tools.LoadSpec | src/claude_extend/tools.py:73-126 | the built-in set comes back exactly when there is no configuration path; any other result names the path that was found; whenever the configuration was not used, the result is the three defaults |
| Tools.ConfiguredToolsShape | src/claude_extend/tools.py:82-90 | converted entries give a registry with one descriptor per key, named after its key, in document order, each built from its own entry |
| Tools.ConfiguredToolsFailsOnBadEntry | src/claude_extend/tools.py:82-95 | any single entry that cannot be converted makes the whole configuration fail |
| Tools.DefaultsShape | src/claude_extend/tools.py:97-126 | the defaults are `serena`, `basic-memory` and `gemini-cli`, in that order, each named after its key |
| Tools.LoadOutcomes | src/claude_extend/tools.py:73-126 | with a configuration path, the configured entries are used exactly when the file reads, decodes to an object and every entry converts, and otherwise the origin is a fallback naming that path; the configured registry is in document order with each descriptor built from its entry; after any failure and without a path the result is the three defaults; the result always has the registry shape |
| Tools.EmptySectionGivesEmptyRegistry | src/claude_extend/tools.py:79-90 | a configuration whose `tools` is empty or absent gives an empty registry, not the defaults |
| Tools.LoadTools | src/claude_extend/tools.py:73-126 | the loading loop returns what `LoadOutcomes` describes |
| Tools.InstalledSplitMembers | src/claude_extend/tools.py:153-157 | a name is in the installed list exactly when the listing marks it, and in the available list exactly when it does not |
| Tools.InstalledSplitOrder | src/claude_extend/tools.py:153-157 | both lists keep the registry's order and together are as long as the registry |
| Tools.Registry.constructor | src/claude_extend/tools.py:68-70 | the registry holds what loading gives, with the cache empty |
| Tools.Registry.GetInstalledToolsOutput | src/claude_extend/tools.py:128-138 | the host is queried only when the cache is empty; the cache then holds the output on exit status 0 and "" otherwise, and never changes after that |
| Tools.Registry.IsToolInstalled | src/claude_extend/tools.py:140-142 | the answer is the marker test on the cached listing |
| Tools.Registry.GetTool | src/claude_extend/tools.py:144-145 | a descriptor is returned exactly for registered names, and it carries that name |
| Tools.Registry.GetInstalledTools | src/claude_extend/tools.py:153-154 | returns the registered names the listing marks, in registry order |
| Tools.Registry.GetAvailableTools | src/claude_extend/tools.py:156-157 | returns the registered names the listing does not mark, in registry order |
| Tools.RegistrySize | src/claude_extend/main.py:32 | `len(tools)` equals the number of names in the registry's order |
| Tools.Install | src/claude_extend/tools.py:34-47 | an installed tool succeeds without running anything; otherwise `claude mcp add` runs once with the placeholder filled (the working directory by default), and its success is the result |
| Tools.Remove | src/claude_extend/tools.py:49-57 | a tool that is not installed succeeds without running anything; otherwise `claude mcp remove <name>` runs once, and its success is the result |
| Cli.BatchSteps | src/claude_extend/main.py:49-65 | a batch reports exactly one line per requested name, in order, and never stops early; the host commands it runs are fixed by the names and the listing, not by the host's answers |
| Cli.ReportsEveryName | src/claude_extend/main.py:49-89 | each line concerns its name: unknown exactly when the name is unregistered; prerequisites missing exactly when adding a registered tool whose command is not on the search path; success without a command when there is nothing to do |
| Cli.AddInstallsOnlyReadyTools | src/claude_extend/main.py:49-65 | `add` runs at most one command per name, and only `claude mcp add` for a registered tool that has its prerequisites and is not listed |
| Cli.RemoveIgnoresPrerequisites | src/claude_extend/main.py:76-89 | what `remove` reports and runs does not depend on the search path |
| Cli.RemoveRunsOnlyListedTools | src/claude_extend/main.py:76-89 | `remove` runs at most one command per name, and only `claude mcp remove` for a registered tool the host lists |
| Cli.ChoicesCoverRegistry | src/claude_extend/main.py:96-106 | the checkbox offers every registered tool in order; installed tools are marked as such, and only tools that are not installed get the prerequisites mark |
| Cli.NamedCommandsExitEarly | src/claude_extend/main.py:42-74 | without names, `add` and `remove` only report an error; when the environment check fails, both report the check's notes, exit with status 1, run nothing and report on no name |
| Cli.InteractiveExits | src/claude_extend/main.py:157-173 | when the interactive check fails, the run reports the check's notes, exits with status 1 and runs nothing; nothing is installed when every tool is installed (and no prompt is shown), when the prompt is cancelled, or when the filtered selection is empty; otherwise the run ends with the completion line |
| Cli.InteractiveInstallsOnlyTickedAvailableTools | src/claude_extend/main.py:121-152 | the interactive path installs only ticked names that are not listed, are registered and have their prerequisites, with at most one command each |
| Cli.SkipsMatchDropped | src/claude_extend/main.py:123-128 | the filter prints one skip line for each ticked name it drops, in order |
| Cli.ListLinesAt | src/claude_extend/main.py:25-30 | `list` prints one line per tool, in order, carrying whether the tool is in the installed list and whether its prerequisites are met |
| Cli.ListLinesCount | src/claude_extend/main.py:32 | the installed count equals the number of lines marked installed |
| Cli.ListTotals | src/claude_extend/main.py:12-32 | `list` shows every registered tool once, in order, marked installed exactly when listed; the total is the registry's size and the installed count is the number of lines marked installed; an empty registry shows only the "no tools" line |
| Cli.CmdList | src/claude_extend/main.py:12-34 | reports what `ListCommand` states and runs no mutating command |
| Cli.AddRegistered | src/claude_extend/main.py:58-64 | one registered name: prerequisites missing reports without running anything; otherwise `install` runs, and its result decides success or failure |
| Cli.RemoveRegistered | src/claude_extend/main.py:85-88 | one registered name: `remove` runs, and its result decides success or failure, whatever the environment |
| Cli.AddEach | src/claude_extend/main.py:49-65 | the add loop reports and runs exactly the add batch |
| Cli.CmdAdd | src/claude_extend/main.py:37-65 | reports and runs exactly what `AddCommand` states for the arguments |
| Cli.RemoveEach | src/claude_extend/main.py:76-89 | the remove loop reports and runs exactly the remove batch |
| Cli.CmdRemove | src/claude_extend/main.py:67-89 | reports and runs exactly what `RemoveNamed` states |
| Cli.FilterSelection | src/claude_extend/main.py:116-130 | a cancelled prompt gives no names and one cancellation line; otherwise the ticked names that are not listed, in order, with a skip line for each one dropped; runs nothing |
| Cli.SelectionChoices | src/claude_extend/main.py:96-106 | builds the checkbox entries `ChoicesCoverRegistry` describes |
| Cli.GetUserToolSelection | src/claude_extend/main.py:91-134 | shows the choices, then returns the filtered selection; every returned name is registered |
| Cli.InstallSelectedTools | src/claude_extend/main.py:136-154 | a count line, the add batch over the selection, then the completion line |
| Cli.CmdAddInteractive | src/claude_extend/main.py:157-173 | reports and runs exactly what `AddInteractive` states |
| Cli.AsWrittenStopsAtMissingPrerequisite | src/claude_extend/main.py:58-60 | as written, a first name with missing prerequisites crashes the batch before later names; the corrected batch reports it and every later name |
| Cli.ListAsWrittenLosesTotals | src/claude_extend/main.py:28-29 | as written, one tool with missing prerequisites ends `list` with a crash and no totals line |
| Cli.AsWrittenBatchCrashes | src/claude_extend/main.py:141-147 | as written, any ticked name with missing prerequisites makes the interactive batch end with a crash at or before that name, with no completion line |
| Cli.InteractiveAsWrittenLosesCompletion | src/claude_extend/main.py:136-154 | as written, one ticked tool with missing prerequisites ends the interactive install with a crash and without the completion line; the corrected install reports that tool as missing prerequisites and ends with the completion line |

## Left out

- Console lines that decide nothing are not events:
  - the `Processing:` line per tool;
  - the `Available tools:` hint after an unknown name;
  - the lines `install`, `remove` and `_run_claude_command` print;
  - the header, blank and tip lines of `list`;
  - the lines `_load_tools` prints. `Origin` records which loading path was taken.
- `sys.exit(1)` is the event `Exited(1)`, which ends the command.
- The checkbox widget (questionary) is the `selection` parameter.
  - A `KeyboardInterrupt` during the prompt has the same effect as cancelling, so it is the None case.
  - Choice labels are modelled as a name, a description and a mark, not as the rendered text.
- A failure to launch `claude` is an `OSError` such as `FileNotFoundError`. Nothing catches it, so it ends the program with a traceback. The model's host always launches and answers.
  - `_run_claude_command` (tools.py:25-32) catches only `CalledProcessError`.
  - The `mcp list` query in `_get_installed_tools_output` (tools.py:131-137) catches only `SubprocessError`. `SubprocessFailed` stands for that caught case only.
  - `cmd_list` (main.py:12-35) never validates the environment. So `cx list` with a non-empty registry and no `claude` on the search path crashes in the source. The model instead lists every tool as available.
- The host's `mcp list` reply is fixed for a run. The registry caches the first reply and never asks again, so later changes would not be seen anyway.
- Paths are strings: `Path` normalisation, `~` expansion and symbolic links are not modelled. `JoinPath` stands for the `/` operator.
- `to_claude_desktop_format` (tools.py:59-63) is not used by any command and is not modelled.
- `list_tools` and `get_tool_names` return the registry's dict and its keys. These are the fields `tools` and `order` themselves.
- The argument parser and `main()` (main.py:176 onward) are not part of this model. Commands take their parsed arguments as parameters.
- Tools.EntryTool: accepts an entry only when `description` and `command` are JSON strings and `args` is a list of strings. The source copies whatever values are present, and a non-list `args` would later be iterated character by character. Such entries count as conversion failures here.
- Utils.LoadExternalToolsConfig: an unreadable or undecodable file, or a document that is not an object, gives None. The source raises, and its caller catches every exception.

## Findings

| source | as written | input that shows it | evidently intended | confidence | as-written member | corrected member |
|---|---|---|---|---|---|---|
| src/claude_extend/main.py:58-60 | on a missing prerequisite, the error line reads `tool.error_message`, which `MCPTool` (tools.py:13-17) never sets; the AttributeError ends the command | `cx add serena basic-memory` with `uvx` not on the search path: the run crashes at `serena` and `basic-memory` is never processed | report "Prerequisites not met" and "Failed to install" for that tool, then continue with the next name | not executed | Cli.AsWrittenStopsAtMissingPrerequisite | Cli.AddEach |
| src/claude_extend/main.py:145-147 | the interactive install reads `tool.error_message` in the same way; a ticked tool with missing prerequisites passes the selection filter, and the AttributeError ends the install before the completion line | `cx add --interactive` ticking `gemini-cli` with `npx` not on the search path: the run crashes at `gemini-cli`, later ticked tools are skipped and "MCP tool installation complete!" is never shown | report that tool as failed, go on, and finish with the completion line | not executed | Cli.InteractiveAsWrittenLosesCompletion | Cli.InstallSelectedTools |
| src/claude_extend/main.py:29 | the `list` warning for a tool with missing prerequisites reads `tool.error_message` too | `cx list` with the default registry, `uvx` and `basic-memory` on the search path and `npx` not: the `gemini-cli` line is followed by a crash, and no totals line is shown | print the warning and go on to the next tool and the totals | not executed | Cli.ListAsWrittenLosesTotals | Cli.ListTotals |
