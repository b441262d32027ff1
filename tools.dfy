/**
 * tools.py: the MCP tool descriptor (`MCPTool`), its install and remove
 * operations, and the registry (`MCPToolRegistry`) that owns the descriptors
 * and a write-once cache of the host's `claude mcp list` output.
 *
 * The `claude` host process is the class `Host`: a fixed reply to
 * `mcp list`, an answer (success or failure) for every mutating command
 * given the commands issued before it, and a log of what was issued.
 */
module Tools {
  import opened Options
  import opened Seqs
  import opened PyStr
  import opened Utils

  // ---------------------------------------------------------------------------
  // MCPTool
  // ---------------------------------------------------------------------------

  /** An MCP tool descriptor; it is never changed after it is built. */
  datatype Tool = Tool(name: string, description: string, command: string, args: seq<string>)

  const Placeholder := "{project_dir}"

  /** `check_prerequisites`: the tool's command resolves on the search path. */
  predicate PrerequisitesMet(tool: Tool, env: Env) {
    tool.command in env.onPath
  }

  /** The argument list with every occurrence of the placeholder replaced, token by token. */
  function SubstituteArgs(args: seq<string>, projectDir: string): seq<string> {
    seq(|args|, i requires 0 <= i < |args| => ReplaceAll(args[i], Placeholder, projectDir))
  }

  /**
   * Substitution keeps the number of arguments, leaves an argument without the
   * placeholder as it is, and turns a bare placeholder into the directory.
   */
  lemma SubstitutionShape(args: seq<string>, projectDir: string)
    ensures |SubstituteArgs(args, projectDir)| == |args|
    ensures forall i :: 0 <= i < |args| && !Contains(args[i], Placeholder) ==>
      SubstituteArgs(args, projectDir)[i] == args[i]
    ensures forall i :: 0 <= i < |args| && args[i] == Placeholder ==>
      SubstituteArgs(args, projectDir)[i] == projectDir
  {
    forall i | 0 <= i < |args| && !Contains(args[i], Placeholder)
      ensures SubstituteArgs(args, projectDir)[i] == args[i]
    {
      ReplaceWithoutOccurrence(args[i], Placeholder, projectDir);
    }
    ReplaceWholeToken(Placeholder, projectDir);
  }

  /** A whole-token placeholder, and one inside a longer token (`str.replace` is not token-based). */
  lemma SubstitutionExamples()
    ensures SubstituteArgs(["run", "--dir", Placeholder], "/x/y") == ["run", "--dir", "/x/y"]
    ensures SubstituteArgs(["--project=" + Placeholder + "/src"], "/w") == ["--project=/w/src"]
  {
    SubstitutionShape(["run", "--dir", Placeholder], "/x/y");
    var token := "--project=" + Placeholder + "/src";
    ReplaceAfterPlainPrefix("--project=", Placeholder, "/src", "/w");
    assert ReplaceAll("/src", Placeholder, "/w") == "/src";
    assert SubstituteArgs([token], "/w") == [ReplaceAll(token, Placeholder, "/w")];
    assert "--project=" + "/w" + "/src" == "--project=/w/src";
  }

  /** The host command `install` runs: `claude mcp add <name> -- <command> <args...>`. */
  function InstallCommand(tool: Tool, projectDir: string): seq<string> {
    ["claude", "mcp", "add", tool.name, "--", tool.command] + SubstituteArgs(tool.args, projectDir)
  }

  /** The host command `remove` runs. */
  function RemoveCommand(name: string): seq<string> {
    ["claude", "mcp", "remove", name]
  }

  /** Reads an `mcp add` command back into the name, the command and the arguments it installs. */
  function ParseAddCommand(command: seq<string>): Option<(string, string, seq<string>)> {
    if |command| >= 6 && command[..3] == ["claude", "mcp", "add"] && command[4] == "--"
    then Some((command[3], command[5], command[6..]))
    else None
  }

  /** The install command carries exactly the tool's name, its command and its substituted arguments. */
  lemma InstallCommandRoundTrip(tool: Tool, projectDir: string)
    ensures ParseAddCommand(InstallCommand(tool, projectDir))
         == Some((tool.name, tool.command, SubstituteArgs(tool.args, projectDir)))
    ensures |InstallCommand(tool, projectDir)| == 6 + |tool.args|
    ensures ParseAddCommand(RemoveCommand(tool.name)).None?
  {
    var c := InstallCommand(tool, projectDir);
    assert c[..3] == ["claude", "mcp", "add"];
    assert c[6..] == SubstituteArgs(tool.args, projectDir);
    SubstitutionShape(tool.args, projectDir);
  }

  // ---------------------------------------------------------------------------
  // The host process
  // ---------------------------------------------------------------------------

  /**
   * What `claude mcp list` gave: an exit status and its output, or a
   * `SubprocessError` that the query catches. A failure to launch `claude` at
   * all is an `OSError`, which the query does not catch; it has no reply here.
   */
  datatype ListReply = Completed(returnCode: int, stdout: string) | SubprocessFailed

  /** The text the registry caches for a reply: the output on exit status 0, otherwise "". */
  function ListText(reply: ListReply): string {
    if reply.Completed? && reply.returnCode == 0 then reply.stdout else ""
  }

  /** `is_tool_installed` on the cached text: a non-empty text containing `name:`. */
  predicate Marked(listing: string, name: string) {
    listing != "" && Contains(listing, name + ":")
  }

  /** The emptiness guard adds nothing: membership is exactly the substring test. */
  lemma MarkedIsSubstringTest(listing: string, name: string)
    ensures Marked(listing, name) <==> Contains(listing, name + ":")
  {
    if Contains(listing, name + ":") {
      var i :| 0 <= i <= |listing| && StartsWith(listing[i..], name + ":");
      assert |listing| >= 1;
    }
  }

  /**
   * The substring test confuses a name with the tail of a longer one, and a
   * failed query (cached as "") marks nothing.
   */
  lemma MarkerCollision()
    ensures Marked("basic-memory: basic-memory mcp", "memory")
    ensures !Marked(ListText(Completed(1, "serena: uvx serena")), "serena")
  {
    var listing := "basic-memory: basic-memory mcp";
    assert StartsWith(listing[6..], "memory:");
  }

  class Host {
    const listing: ListReply
    const accepts: (seq<seq<string>>, seq<string>) -> bool
    var issued: seq<seq<string>>
    var listQueries: nat

    constructor (listing: ListReply, accepts: (seq<seq<string>>, seq<string>) -> bool)
      ensures this.listing == listing && this.accepts == accepts
      ensures issued == [] && listQueries == 0
    {
      this.listing := listing;
      this.accepts := accepts;
      issued := [];
      listQueries := 0;
    }

    /** `claude mcp list`. */
    method List() returns (reply: ListReply)
      modifies this
      ensures reply == listing
      ensures issued == old(issued) && listQueries == old(listQueries) + 1
    {
      reply := listing;
      listQueries := listQueries + 1;
    }

    /** A mutating `claude mcp ...` command; true when it exits with status 0. */
    method Run(command: seq<string>) returns (ok: bool)
      modifies this
      ensures ok == accepts(old(issued), command)
      ensures issued == old(issued) + [command] && listQueries == old(listQueries)
    {
      ok := accepts(issued, command);
      issued := issued + [command];
    }
  }

  /** `_run_claude_command`: run the command; a non-zero exit reads as failure. */
  method RunClaudeCommand(host: Host, command: seq<string>) returns (ok: bool)
    modifies host
    ensures ok == host.accepts(old(host.issued), command)
    ensures host.issued == old(host.issued) + [command] && host.listQueries == old(host.listQueries)
  {
    ok := host.Run(command);
  }

  // ---------------------------------------------------------------------------
  // Loading the registry
  // ---------------------------------------------------------------------------

  const SerenaTool := Tool(
    "serena", "Semantic code analysis and intelligent IDE assistant", "uvx",
    ["--from", "git+https://github.com/oraios/serena", "serena", "start-mcp-server",
     "--context", "ide-assistant", "--project", Placeholder])
  const BasicMemoryTool := Tool("basic-memory", "Enhanced memory capabilities for Claude", "basic-memory", ["mcp"])
  const GeminiTool := Tool("gemini-cli", "Google Gemini integration tool", "npx", ["-y", "gemini-mcp-tool"])

  /** The built-in descriptors, in the order the registry lists them. */
  const DefaultTools := [SerenaTool, BasicMemoryTool, GeminiTool]

  function NamesOf(tools: seq<Tool>): seq<string>
    decreases |tools|
  {
    if tools == [] then [] else NamesOf(tools[..|tools| - 1]) + [tools[|tools| - 1].name]
  }

  function MapOf(tools: seq<Tool>): map<string, Tool>
    decreases |tools|
  {
    if tools == [] then map[] else MapOf(tools[..|tools| - 1])[tools[|tools| - 1].name := tools[|tools| - 1]]
  }

  /** Where the registry's descriptors came from. */
  datatype Origin = FromConfig(path: string) | FallbackAfterError(path: string) | BuiltIn

  datatype Loaded = Loaded(order: seq<string>, tools: map<string, Tool>, origin: Origin)

  /** The shape of a registry: distinct keys in order, one descriptor per key, named after its key. */
  ghost predicate RegistryShape(order: seq<string>, tools: map<string, Tool>) {
    && Distinct(order)
    && tools.Keys == set n | n in order
    && forall n :: n in tools ==> tools[n].name == n
  }

  /** The texts of a JSON list whose items are all strings. */
  function StringItems(items: seq<Json>): (texts: Option<seq<string>>)
    ensures texts.Some? <==> forall i :: 0 <= i < |items| ==> items[i].JString?
    ensures texts.Some? ==>
      |texts.value| == |items| && forall i :: 0 <= i < |items| ==> texts.value[i] == items[i].text
    decreases |items|
  {
    if items == [] then Some([])
    else if !items[0].JString? then None
    else
      var rest := StringItems(items[1..]);
      if rest.None? then None else Some([items[0].text] + rest.value)
  }

  /** An entry the loader can convert: an object with a string `description` and `command` and a list of strings `args`. */
  predicate ConvertibleEntry(entry: Json) {
    && entry.JObject?
    && "description" in entry.fields && entry.fields["description"].JString?
    && "command" in entry.fields && entry.fields["command"].JString?
    && "args" in entry.fields && entry.fields["args"].JArray?
    && forall i :: 0 <= i < |entry.fields["args"].items| ==> entry.fields["args"].items[i].JString?
  }

  /**
   * The descriptor for one configuration entry: its `description`, `command`
   * and `args`, named after the entry's key; None when the entry is not an
   * object or one of the three is missing.
   */
  function EntryTool(key: string, entry: Json): Option<Tool> {
    if !entry.JObject? then None
    else
      var f := entry.fields;
      if "description" in f && f["description"].JString?
         && "command" in f && f["command"].JString?
         && "args" in f && f["args"].JArray? && StringItems(f["args"].items).Some?
      then Some(Tool(key, f["description"].text, f["command"].text, StringItems(f["args"].items).value))
      else None
  }

  /**
   * An entry converts exactly when it is a `ConvertibleEntry`, and the
   * descriptor then carries the key as its name and the entry's three values.
   */
  lemma EntryToolConverts(key: string, entry: Json)
    ensures EntryTool(key, entry).Some? <==> ConvertibleEntry(entry)
    ensures EntryTool(key, entry).Some? ==>
      var tool, f := EntryTool(key, entry).value, entry.fields;
      && tool.name == key
      && tool.description == f["description"].text
      && tool.command == f["command"].text
      && |tool.args| == |f["args"].items|
      && forall i :: 0 <= i < |tool.args| ==> tool.args[i] == f["args"].items[i].text
  {
  }

  /** The descriptors for the entries `keys`, or None as soon as one entry has none. */
  function ConfiguredTools(keys: seq<string>, fields: map<string, Json>): Option<map<string, Tool>>
    decreases |keys|
  {
    if keys == [] then Some(map[])
    else
      var prior := ConfiguredTools(keys[..|keys| - 1], fields);
      var key := keys[|keys| - 1];
      var tool := EntryTool(key, if key in fields then fields[key] else JScalar);
      if prior.None? || tool.None? then None else Some(prior.value[key := tool.value])
  }

  /**
   * What `_load_tools` returns for an environment: the built-in set exactly
   * when there is no configuration path, and otherwise a result that names the
   * path that was found.
   */
  function LoadSpec(env: Env): (loaded: Loaded)
    ensures loaded.origin.BuiltIn? <==> ConfigPath(env).None?
    ensures !loaded.origin.BuiltIn? ==> ConfigPath(env) == Some(loaded.origin.path)
    ensures !loaded.origin.FromConfig? ==> loaded.order == NamesOf(DefaultTools) && loaded.tools == MapOf(DefaultTools)
  {
    var defaults := Loaded(NamesOf(DefaultTools), MapOf(DefaultTools), BuiltIn);
    match ConfigPath(env)
    case None => defaults
    case Some(path) =>
      var section := LoadExternalToolsConfig(env, path);
      if section.Some? && section.value.JObject?
         && ConfiguredTools(section.value.keys, section.value.fields).Some?
      then Loaded(section.value.keys, ConfiguredTools(section.value.keys, section.value.fields).value, FromConfig(path))
      else defaults.(origin := FallbackAfterError(path))
  }

  lemma {:induction false} ConfiguredToolsShape(keys: seq<string>, fields: map<string, Json>)
    requires Distinct(keys) && forall k :: k in keys ==> k in fields
    requires ConfiguredTools(keys, fields).Some?
    ensures RegistryShape(keys, ConfiguredTools(keys, fields).value)
    ensures forall k :: k in keys ==> EntryTool(k, fields[k]) == Some(ConfiguredTools(keys, fields).value[k])
    decreases |keys|
  {
    if keys != [] {
      var prefix := keys[..|keys| - 1];
      assert Distinct(prefix);
      ConfiguredToolsShape(prefix, fields);
      assert keys == prefix + [keys[|keys| - 1]];
    }
  }

  /** One entry without a descriptor makes the whole configuration fail. */
  lemma {:induction false} ConfiguredToolsFailsOnBadEntry(keys: seq<string>, fields: map<string, Json>, i: nat)
    requires i < |keys| && keys[i] in fields && EntryTool(keys[i], fields[keys[i]]).None?
    ensures ConfiguredTools(keys, fields).None?
    decreases |keys|
  {
    if i < |keys| - 1 {
      ConfiguredToolsFailsOnBadEntry(keys[..|keys| - 1], fields, i);
    }
  }

  lemma DefaultsShape()
    ensures NamesOf(DefaultTools) == ["serena", "basic-memory", "gemini-cli"]
    ensures RegistryShape(NamesOf(DefaultTools), MapOf(DefaultTools))
  {
    var two := [SerenaTool, BasicMemoryTool];
    assert DefaultTools[..2] == two && two[..1] == [SerenaTool] && [SerenaTool][..0] == [];
    assert NamesOf([SerenaTool]) == ["serena"];
    assert NamesOf(two) == ["serena", "basic-memory"];
    assert MapOf([SerenaTool]).Keys == {"serena"};
    assert MapOf(two).Keys == {"serena", "basic-memory"};
    assert MapOf(DefaultTools).Keys == {"serena", "basic-memory", "gemini-cli"};
  }

  /**
   * `_load_tools` has three outcomes: exactly the configured entries, named
   * after their keys; or, when a configuration path exists but reading,
   * decoding or converting any entry fails, exactly the three defaults; or,
   * with no configuration path, the same defaults.
   */
  lemma LoadOutcomes(env: Env)
    requires WellFormedDocuments(env)
    ensures var loaded := LoadSpec(env);
      && RegistryShape(loaded.order, loaded.tools)
      && (loaded.origin == BuiltIn <==> ConfigPath(env).None?)
      && (ConfigPath(env).Some? ==>
            var p := ConfigPath(env).value;
            var section := LoadExternalToolsConfig(env, p);
            && (loaded.origin == FromConfig(p) <==>
                  section.Some? && section.value.JObject?
                  && ConfiguredTools(section.value.keys, section.value.fields).Some?)
            && (!loaded.origin.FromConfig? ==> loaded.origin == FallbackAfterError(p)))
      && (loaded.origin.FromConfig? ==>
            var section := LoadExternalToolsConfig(env, loaded.origin.path).value;
            && ConfigPath(env) == Some(loaded.origin.path)
            && loaded.order == section.keys
            && forall k :: k in loaded.tools ==> EntryTool(k, section.fields[k]) == Some(loaded.tools[k]))
      && (!loaded.origin.FromConfig? ==>
            loaded.order == ["serena", "basic-memory", "gemini-cli"] && loaded.tools == MapOf(DefaultTools))
  {
    DefaultsShape();
    var path := ConfigPath(env);
    if path.Some? {
      var section := LoadExternalToolsConfig(env, path.value);
      if section.Some? && section.value.JObject? && ConfiguredTools(section.value.keys, section.value.fields).Some? {
        assert IsDict(section.value);
        ConfiguredToolsShape(section.value.keys, section.value.fields);
      }
    }
  }

  /** A configuration with an empty or absent `tools` object gives an empty registry, not the defaults. */
  lemma EmptySectionGivesEmptyRegistry(env: Env, path: string)
    requires ConfigPath(env) == Some(path)
    requires path in env.documents && env.documents[path].Document?
    requires env.documents[path].root.JObject?
    requires var fields := env.documents[path].root.fields;
      "tools" !in fields || fields["tools"] == JObject([], map[])
    ensures LoadSpec(env) == Loaded([], map[], FromConfig(path))
  {
  }

  /** `_load_tools`: the configured entries, or the built-in set after a failure or without a path. */
  method LoadTools(env: Env) returns (loaded: Loaded)
    requires WellFormedDocuments(env)
    ensures loaded == LoadSpec(env)
  {
    var path := GetConfigPath(env);
    var origin := BuiltIn;
    if path.Some? {
      var section := LoadExternalToolsConfig(env, path.value);
      if section.Some? && section.value.JObject? {
        var keys, fields := section.value.keys, section.value.fields;
        assert IsDict(section.value);
        var tools: map<string, Tool> := map[];
        var failed := false;
        var i := 0;
        while i < |keys| && !failed
          invariant 0 <= i <= |keys|
          invariant !failed ==> ConfiguredTools(keys[..i], fields) == Some(tools)
          invariant failed ==> i < |keys| && EntryTool(keys[i], fields[keys[i]]).None?
          decreases |keys| - i, if failed then 0 else 1
        {
          assert keys[i] in keys;
          var tool := EntryTool(keys[i], fields[keys[i]]);
          if tool.None? {
            failed := true;
          } else {
            tools := tools[keys[i] := tool.value];
            assert keys[..i + 1][..i] == keys[..i];
            i := i + 1;
          }
        }
        if !failed {
          assert keys[..i] == keys;
          return Loaded(keys, tools, FromConfig(path.value));
        }
        assert keys[i] in keys;
        ConfiguredToolsFailsOnBadEntry(keys, fields, i);
      }
      origin := FallbackAfterError(path.value);
    }
    var order: seq<string> := [];
    var tools: map<string, Tool> := map[];
    for i := 0 to |DefaultTools|
      invariant order == NamesOf(DefaultTools[..i]) && tools == MapOf(DefaultTools[..i])
    {
      assert DefaultTools[..i + 1][..i] == DefaultTools[..i];
      tools := tools[DefaultTools[i].name := DefaultTools[i]];
      order := order + [DefaultTools[i].name];
    }
    assert DefaultTools[..|DefaultTools|] == DefaultTools;
    loaded := Loaded(order, tools, origin);
  }

  // ---------------------------------------------------------------------------
  // The installed / available split
  // ---------------------------------------------------------------------------

  /** The names among `names` the listing marks as installed, in their order. */
  function InstalledAmong(names: seq<string>, listing: string): seq<string>
    decreases |names|
  {
    if names == [] then []
    else
      var last := names[|names| - 1];
      InstalledAmong(names[..|names| - 1], listing) + (if Marked(listing, last) then [last] else [])
  }

  /** The names among `names` the listing does not mark, in their order. */
  function NotInstalledAmong(names: seq<string>, listing: string): seq<string>
    decreases |names|
  {
    if names == [] then []
    else
      var last := names[|names| - 1];
      NotInstalledAmong(names[..|names| - 1], listing) + (if Marked(listing, last) then [] else [last])
  }

  /** A name lands in the installed list exactly when it is marked, and in the other exactly when not. */
  lemma {:induction false} InstalledSplitMembers(names: seq<string>, listing: string)
    ensures forall n :: n in InstalledAmong(names, listing) <==> n in names && Marked(listing, n)
    ensures forall n :: n in NotInstalledAmong(names, listing) <==> n in names && !Marked(listing, n)
    decreases |names|
  {
    if names != [] {
      var prefix := names[..|names| - 1];
      InstalledSplitMembers(prefix, listing);
      assert names == prefix + [names[|names| - 1]];
    }
  }

  /** Both lists keep the registry's order, and together they are as long as it. */
  lemma {:induction false} InstalledSplitOrder(names: seq<string>, listing: string)
    ensures IsSubsequence(InstalledAmong(names, listing), names)
    ensures IsSubsequence(NotInstalledAmong(names, listing), names)
    ensures |InstalledAmong(names, listing)| + |NotInstalledAmong(names, listing)| == |names|
    decreases |names|
  {
    if names != [] {
      var prefix, last := names[..|names| - 1], names[|names| - 1];
      InstalledSplitOrder(prefix, listing);
      var inst, rest := InstalledAmong(names, listing), NotInstalledAmong(names, listing);
      if Marked(listing, last) {
        assert inst[..|inst| - 1] == InstalledAmong(prefix, listing);
        assert rest == NotInstalledAmong(prefix, listing);
        assert rest == [] || IsSubsequence(rest, names[..|names| - 1]);
      } else {
        assert rest[..|rest| - 1] == NotInstalledAmong(prefix, listing);
        assert inst == InstalledAmong(prefix, listing);
        assert inst == [] || IsSubsequence(inst, names[..|names| - 1]);
      }
    }
  }

  // ---------------------------------------------------------------------------
  // MCPToolRegistry
  // ---------------------------------------------------------------------------

  class Registry {
    const order: seq<string>
    const tools: map<string, Tool>
    const origin: Origin
    const host: Host
    var cache: Option<string>
    /** How many times this registry has asked the host for `mcp list`. */
    ghost var queries: nat

    /** Built once; the cache, once filled, holds the host's reply and was paid for with one query. */
    ghost predicate Valid()
      reads this
    {
      && RegistryShape(order, tools)
      && queries == (if cache.Some? then 1 else 0)
      && (cache.Some? ==> cache.value == ListText(host.listing))
    }

    /** The text a query of the host gives, cached or not. */
    function ListingText(): string {
      ListText(host.listing)
    }

    /** A filled cache is never changed, and the host saw exactly the queries this registry counts. */
    twostate predicate CacheKept()
      reads this, host
    {
      && (old(cache).Some? ==> cache == old(cache))
      && queries >= old(queries)
      && host.listQueries == old(host.listQueries) + (queries - old(queries))
    }

    constructor (env: Env, host: Host)
      requires WellFormedDocuments(env)
      ensures Valid() && this.host == host && cache.None?
      ensures Loaded(order, tools, origin) == LoadSpec(env)
    {
      var loaded := LoadTools(env);
      LoadOutcomes(env);
      order, tools, origin := loaded.order, loaded.tools, loaded.origin;
      this.host := host;
      cache := None;
      queries := 0;
    }

    /** `_get_installed_tools_output`: ask the host at most once, then serve the cached text. */
    method GetInstalledToolsOutput() returns (output: string)
      requires Valid()
      modifies this, host
      ensures Valid() && CacheKept()
      ensures cache == Some(output) && output == ListingText()
      ensures old(cache).None? ==> host.listQueries == old(host.listQueries) + 1
      ensures host.issued == old(host.issued)
    {
      if cache.None? {
        var reply := host.List();
        if reply.Completed? && reply.returnCode == 0 {
          cache := Some(reply.stdout);
        } else {
          cache := Some("");
        }
        queries := queries + 1;
      }
      output := cache.value;
    }

    /** `is_tool_installed`. */
    method IsToolInstalled(name: string) returns (installed: bool)
      requires Valid()
      modifies this, host
      ensures Valid() && CacheKept() && cache.Some?
      ensures installed == Marked(ListingText(), name)
      ensures host.issued == old(host.issued)
    {
      var output := GetInstalledToolsOutput();
      installed := if output != "" then Contains(output, name + ":") else false;
    }

    /** `get_tool`: the descriptor registered under `name`, if any. */
    function GetTool(name: string): (tool: Option<Tool>)
      requires RegistryShape(order, tools)
      ensures tool.Some? <==> name in order
      ensures tool.Some? ==> tool.value == tools[name] && tool.value.name == name
    {
      if name in tools then Some(tools[name]) else None
    }

    /** `get_installed_tools`: the registry's names the host lists, in registry order. */
    method GetInstalledTools() returns (names: seq<string>)
      requires Valid()
      modifies this, host
      ensures Valid() && CacheKept()
      ensures names == InstalledAmong(order, ListingText())
      ensures cache.Some? <==> old(cache).Some? || order != []
      ensures host.issued == old(host.issued)
    {
      names := [];
      for i := 0 to |order|
        invariant Valid() && CacheKept()
        invariant names == InstalledAmong(order[..i], ListingText())
        invariant cache.Some? <==> old(cache).Some? || i > 0
        invariant host.issued == old(host.issued)
      {
        assert order[..i + 1][..i] == order[..i];
        var installed := IsToolInstalled(order[i]);
        if installed {
          names := names + [order[i]];
        }
      }
      assert order[..|order|] == order;
    }

    /** `get_available_tools`: the registry's names the host does not list, in registry order. */
    method GetAvailableTools() returns (names: seq<string>)
      requires Valid()
      modifies this, host
      ensures Valid() && CacheKept()
      ensures names == NotInstalledAmong(order, ListingText())
      ensures cache.Some? <==> old(cache).Some? || order != []
      ensures host.issued == old(host.issued)
    {
      names := [];
      for i := 0 to |order|
        invariant Valid() && CacheKept()
        invariant names == NotInstalledAmong(order[..i], ListingText())
        invariant cache.Some? <==> old(cache).Some? || i > 0
        invariant host.issued == old(host.issued)
      {
        assert order[..i + 1][..i] == order[..i];
        var installed := IsToolInstalled(order[i]);
        if !installed {
          names := names + [order[i]];
        }
      }
      assert order[..|order|] == order;
    }
  }

  /** The registry holds as many descriptors as it has names (`len(tools)`). */
  lemma RegistrySize(order: seq<string>, tools: map<string, Tool>)
    requires RegistryShape(order, tools)
    ensures |tools| == |order|
  {
    DistinctCardinality(order);
    assert tools.Keys == set n | n in order;
  }

  // ---------------------------------------------------------------------------
  // MCPTool.install, MCPTool.remove
  // ---------------------------------------------------------------------------

  /**
   * `install`: an already-installed tool succeeds without running anything;
   * otherwise the placeholder is filled with `projectDir` (the working
   * directory when it is None) and the result is the host command's success.
   */
  method Install(tool: Tool, registry: Registry, projectDir: Option<string>, env: Env) returns (ok: bool)
    requires registry.Valid()
    modifies registry, registry.host
    ensures registry.Valid() && registry.CacheKept() && registry.cache.Some?
    ensures var command := InstallCommand(tool, projectDir.GetOr(env.cwd));
      if Marked(registry.ListingText(), tool.name) then
        ok && registry.host.issued == old(registry.host.issued)
      else
        && registry.host.issued == old(registry.host.issued) + [command]
        && ok == registry.host.accepts(old(registry.host.issued), command)
  {
    var dir := if projectDir.None? then env.cwd else projectDir.value;
    var installed := registry.IsToolInstalled(tool.name);
    if installed {
      return true;
    }
    var processedArgs := SubstituteArgs(tool.args, dir);
    var command := ["claude", "mcp", "add", tool.name, "--", tool.command] + processedArgs;
    ok := RunClaudeCommand(registry.host, command);
  }

  /**
   * `remove`: a tool that is not installed succeeds without running anything;
   * otherwise `claude mcp remove <name>` runs and its success is the result.
   */
  method Remove(tool: Tool, registry: Registry) returns (ok: bool)
    requires registry.Valid()
    modifies registry, registry.host
    ensures registry.Valid() && registry.CacheKept() && registry.cache.Some?
    ensures var command := RemoveCommand(tool.name);
      if !Marked(registry.ListingText(), tool.name) then
        ok && registry.host.issued == old(registry.host.issued)
      else
        && registry.host.issued == old(registry.host.issued) + [command]
        && ok == registry.host.accepts(old(registry.host.issued), command)
  {
    var installed := registry.IsToolInstalled(tool.name);
    if !installed {
      return true;
    }
    ok := RunClaudeCommand(registry.host, ["claude", "mcp", "remove", tool.name]);
  }
}
