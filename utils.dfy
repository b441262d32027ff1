/**
 * utils.py: console message rendering, the environment checks made before a
 * command runs, and the lookup of the optional tools configuration file.
 *
 * Everything the module asks of the operating system (environment variables,
 * the home and working directories, which paths exist, what `json.load`
 * returns for a file, which executables are on the search path, whether
 * standard input is a terminal) is one value of type `Env`.
 */
module Utils {
  import opened Options
  import opened Seqs
  import opened PyStr

  // ---------------------------------------------------------------------------
  // print_message
  // ---------------------------------------------------------------------------

  const Red := "\U{1B}[0;31m"
  const Green := "\U{1B}[0;32m"
  const Yellow := "\U{1B}[1;33m"
  const Blue := "\U{1B}[0;34m"
  const NoColor := "\U{1B}[0m"

  const InfoIcon := "\U{2139}\U{FE0F}"
  const SuccessIcon := "\U{2705}"
  const WarningIcon := "\U{26A0}\U{FE0F}"
  const ErrorIcon := "\U{274C}"

  const KnownLevels := {"info", "success", "warning", "error"}

  /** The icon for a level; any other level gets the info icon. */
  function Icon(level: string): string {
    if level == "success" then SuccessIcon
    else if level == "warning" then WarningIcon
    else if level == "error" then ErrorIcon
    else InfoIcon
  }

  /** The colour for a level; any other level gets blue. */
  function Color(level: string): string {
    if level == "success" then Green
    else if level == "warning" then Yellow
    else if level == "error" then Red
    else Blue
  }

  /** The line `print_message(level, message)` writes to standard error. */
  function RenderMessage(level: string, message: string): string {
    Color(level) + Icon(level) + "  " + message + NoColor
  }

  /** A level outside the four known ones is rendered exactly as `info`. */
  lemma UnknownLevelRendersAsInfo(level: string, message: string)
    requires level !in KnownLevels
    ensures RenderMessage(level, message) == RenderMessage("info", message)
    ensures Color(level) == Blue && Icon(level) == InfoIcon
  {
  }

  /** The message sits unaltered between the level's colour and icon and the reset code. */
  lemma RenderFramesMessage(level: string, message: string)
    ensures var line := RenderMessage(level, message);
      var start := |Color(level)| + |Icon(level)| + 2;
      && |line| == start + |message| + |NoColor|
      && line[..|Color(level)|] == Color(level)
      && line[|Color(level)|..start] == Icon(level) + "  "
      && line[start..start + |message|] == message
      && line[start + |message|..] == NoColor
  {
    var line := RenderMessage(level, message);
    var head := Color(level) + Icon(level) + "  ";
    assert line == head + message + NoColor;
    assert line[..|Color(level)|] == Color(level) by {
      assert line == Color(level) + (Icon(level) + "  " + message + NoColor);
    }
    assert line[|Color(level)|..|head|] == Icon(level) + "  " by {
      assert line == Color(level) + (Icon(level) + "  ") + (message + NoColor);
    }
  }

  /** The four known levels get four different colours, so the level can be read off a line. */
  lemma KnownLevelsHaveDistinctColors(a: string, b: string)
    requires a in KnownLevels && b in KnownLevels && a != b
    ensures Color(a) != Color(b)
  {
    assert Red[5] == '1' && Green[5] == '2' && Yellow[5] == '3' && Blue[5] == '4';
    assert Color(a)[5] != Color(b)[5];
  }

  // ---------------------------------------------------------------------------
  // The environment the program runs in
  // ---------------------------------------------------------------------------

  /** The subset of JSON the configuration loader distinguishes. */
  datatype Json =
    | JString(text: string)
    | JArray(items: seq<Json>)
    /** An object: its keys in document order, and its fields. */
    | JObject(keys: seq<string>, fields: map<string, Json>)
    /** A number, a boolean or null. */
    | JScalar

  /** What `json.load` gives for a file: an exception or a document. */
  datatype Parse = Unparsable | Document(root: Json)

  datatype Env = Env(
    vars: map<string, string>,      // os.environ
    home: string,                   // Path.home()
    cwd: string,                    // os.getcwd()
    existing: set<string>,          // the paths for which Path.exists() holds
    documents: map<string, Parse>,  // the files open() can read, and what json.load makes of each
    onPath: set<string>,            // the names shutil.which resolves
    stdinIsTty: bool)               // sys.stdin.isatty()

  /** An object as `json.load` builds it: a dict whose keys are unique. */
  ghost predicate IsDict(j: Json) {
    j.JObject? && Distinct(j.keys) && j.fields.Keys == set k | k in j.keys
  }

  /**
   * The library's guarantee, at the two levels the loader iterates over: a
   * decoded object, and the object under its `tools` key, are dicts.
   */
  ghost predicate WellFormedDocuments(env: Env) {
    forall p :: p in env.documents && env.documents[p].Document? ==>
      var root := env.documents[p].root;
      root.JObject? ==>
        && IsDict(root)
        && ("tools" in root.fields && root.fields["tools"].JObject? ==> IsDict(root.fields["tools"]))
  }

  // ---------------------------------------------------------------------------
  // validate_environment, validate_interactive_environment
  // ---------------------------------------------------------------------------

  /** The status lines the two validators print. */
  datatype EnvNote = ProjectDetected(dir: string) | NoProjectDetected | ClaudeNotFound | NotInteractive

  const ProjectMarkers := ["package.json", "pyproject.toml", "Cargo.toml", ".git", "go.mod"]

  predicate InProjectDirectory(env: Env) {
    exists f :: f in ProjectMarkers && f in env.existing
  }

  /** The lines `validate_environment` prints. */
  function EnvironmentNotes(env: Env): seq<EnvNote> {
    [if InProjectDirectory(env) then ProjectDetected(env.cwd) else NoProjectDetected]
    + (if "claude" in env.onPath then [] else [ClaudeNotFound])
  }

  /**
   * `validate_environment`: passes exactly when `claude` is on the search path;
   * a missing project marker is only reported.
   */
  method ValidateEnvironment(env: Env) returns (ok: bool, notes: seq<EnvNote>)
    ensures ok <==> "claude" in env.onPath
    ensures notes == EnvironmentNotes(env)
    ensures notes[0] == (if InProjectDirectory(env) then ProjectDetected(env.cwd) else NoProjectDetected)
    ensures ClaudeNotFound in notes <==> !ok
  {
    var found := exists f :: f in ProjectMarkers && f in env.existing;
    if !found {
      notes := [NoProjectDetected];
    } else {
      notes := [ProjectDetected(env.cwd)];
    }
    if "claude" !in env.onPath {
      notes := notes + [ClaudeNotFound];
      return false, notes;
    }
    return true, notes;
  }

  /** The lines `validate_interactive_environment` prints. */
  function InteractiveNotes(env: Env): seq<EnvNote> {
    EnvironmentNotes(env) + (if "claude" in env.onPath && !env.stdinIsTty then [NotInteractive] else [])
  }

  /**
   * `validate_interactive_environment`: the base check first, and the terminal
   * check only when the base check passed.
   */
  method ValidateInteractiveEnvironment(env: Env) returns (ok: bool, notes: seq<EnvNote>)
    ensures ok <==> "claude" in env.onPath && env.stdinIsTty
    ensures notes == InteractiveNotes(env)
    ensures NotInteractive in notes <==> "claude" in env.onPath && !env.stdinIsTty
  {
    var base;
    base, notes := ValidateEnvironment(env);
    if !base {
      return false, notes;
    }
    if !env.stdinIsTty {
      notes := notes + [NotInteractive];
      return false, notes;
    }
    return true, notes;
  }

  // ---------------------------------------------------------------------------
  // get_config_path
  // ---------------------------------------------------------------------------

  const ConfigVariable := "CLAUDE_EXTEND_CONFIG"

  /** `Path(dir) / rel` for a relative `rel`. */
  function JoinPath(dir: string, rel: string): string {
    if dir != "" && dir[|dir| - 1] == '/' then dir + rel else dir + "/" + rel
  }

  function StandardConfigLocations(home: string): seq<string> {
    [JoinPath(home, ".config/claude-extend/tools.json"), JoinPath(home, ".claude-extend/tools.json")]
  }

  /** The variable's path when it is set to a non-empty string, then the two standard locations. */
  function ConfigCandidates(env: Env): seq<string> {
    (if ConfigVariable in env.vars && env.vars[ConfigVariable] != "" then [env.vars[ConfigVariable]] else [])
    + StandardConfigLocations(env.home)
  }

  /** The first candidate that exists. */
  function FirstExisting(candidates: seq<string>, existing: set<string>): (r: Option<string>)
    ensures r.None? <==> forall c :: c in candidates ==> c !in existing
    ensures r.Some? ==>
      && r.value in existing
      && exists i :: 0 <= i < |candidates| && candidates[i] == r.value
                     && forall j :: 0 <= j < i ==> candidates[j] !in existing
    decreases |candidates|
  {
    if candidates == [] then None
    else if candidates[0] in existing then Some(candidates[0])
    else
      var r := FirstExisting(candidates[1..], existing);
      if r.Some? then
        ghost var i :| 0 <= i < |candidates[1..]| && candidates[1..][i] == r.value
                       && forall j :: 0 <= j < i ==> candidates[1..][j] !in existing;
        assert candidates[i + 1] == r.value;
        assert forall j :: 0 <= j < i + 1 ==> candidates[j] !in existing by {
          forall j | 0 < j < i + 1 ensures candidates[j] !in existing {
            assert candidates[j] == candidates[1..][j - 1];
          }
        }
        r
      else
        assert forall c :: c in candidates ==> c == candidates[0] || c in candidates[1..];
        r
  }

  function ConfigPath(env: Env): Option<string> {
    FirstExisting(ConfigCandidates(env), env.existing)
  }

  lemma {:induction false} FirstExistingAt(candidates: seq<string>, existing: set<string>, i: nat)
    requires i < |candidates| && candidates[i] in existing
    requires forall j :: 0 <= j < i ==> candidates[j] !in existing
    ensures FirstExisting(candidates, existing) == Some(candidates[i])
    decreases i
  {
    if i > 0 {
      FirstExistingAt(candidates[1..], existing, i - 1);
    }
  }

  /** `get_config_path`: the environment variable's path, then the standard locations, in that order. */
  method GetConfigPath(env: Env) returns (path: Option<string>)
    ensures path == ConfigPath(env)
  {
    var candidates := ConfigCandidates(env);
    if ConfigVariable in env.vars && env.vars[ConfigVariable] != "" {
      var configPath := env.vars[ConfigVariable];
      if configPath in env.existing {
        FirstExistingAt(candidates, env.existing, 0);
        return Some(configPath);
      }
    }
    var offset := |candidates| - 2;
    var locations := StandardConfigLocations(env.home);
    assert candidates[offset..] == locations;
    for i := 0 to |locations|
      invariant forall j :: 0 <= j < offset + i ==> candidates[j] !in env.existing
    {
      if locations[i] in env.existing {
        FirstExistingAt(candidates, env.existing, offset + i);
        return Some(locations[i]);
      }
      assert candidates[offset + i] == locations[i];
    }
    return None;
  }

  /** The priority order of `get_config_path`. */
  lemma ConfigPathPriority(env: Env)
    ensures var set' := ConfigVariable in env.vars && env.vars[ConfigVariable] != "";
      && (set' && env.vars[ConfigVariable] in env.existing ==> ConfigPath(env) == Some(env.vars[ConfigVariable]))
      && (!(set' && env.vars[ConfigVariable] in env.existing) ==>
            ConfigPath(env) == FirstExisting(StandardConfigLocations(env.home), env.existing))
      && (ConfigPath(env).None? <==> forall c :: c in ConfigCandidates(env) ==> c !in env.existing)
  {
    var candidates := ConfigCandidates(env);
    if ConfigVariable in env.vars && env.vars[ConfigVariable] != "" {
      assert candidates[1..] == StandardConfigLocations(env.home);
    } else {
      assert candidates == StandardConfigLocations(env.home);
    }
  }

  // ---------------------------------------------------------------------------
  // load_external_tools_config
  // ---------------------------------------------------------------------------

  /**
   * `load_external_tools_config(path)`: the value under `tools`, an empty
   * object when the key is absent, and None when the file cannot be read or
   * decoded or its document is not an object (on which `.get` raises).
   */
  function LoadExternalToolsConfig(env: Env, path: string): (section: Option<Json>)
    ensures section.Some? <==>
      path in env.documents && env.documents[path].Document? && env.documents[path].root.JObject?
    ensures section.Some? ==>
      var fields := env.documents[path].root.fields;
      section.value == if "tools" in fields then fields["tools"] else JObject([], map[])
  {
    if path !in env.documents then None
    else match env.documents[path]
      case Unparsable => None
      case Document(root) =>
        if !root.JObject? then None
        else if "tools" in root.fields then Some(root.fields["tools"])
        else Some(JObject([], map[]))
  }
}
