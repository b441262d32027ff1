/**
 * main.py: the `list`, `add` and `remove` commands, the interactive
 * selection post-filter and the installation of a selection.
 *
 * Each command returns the sequence of status lines it reports, as `Event`s,
 * and acts on the host only through `Install` and `Remove`. The checkbox
 * widget is the parameter `selection`: the names ticked, or None when the
 * user cancels.
 */
module Cli {
  import opened Options
  import opened Seqs
  import opened Utils
  import opened Tools

  datatype Op = AddOp | RemoveOp

  /** How the selection checkbox marks a tool next to its name and description. */
  datatype ChoiceMark = Unmarked | AlreadyInstalledMark | PrerequisitesMissingMark

  /** One checkbox entry: its value is the tool's name. */
  datatype Choice = Choice(name: string, description: string, mark: ChoiceMark)

  /** The status lines the commands report. */
  datatype Event =
    | EnvChecked(notes: seq<EnvNote>)
    | Exited(code: int)
    | NoToolsSpecified(op: Op)
    | UnknownTool(name: string)
    | PrerequisitesMissing(name: string)
    | Succeeded(op: Op, name: string)
    | Failed(op: Op, name: string)
    | AllInstalled
    | SelectionPrompted(choices: seq<Choice>)
    | SelectionCancelled
    | SkippedInstalled(name: string)
    | InstallingCount(count: nat)
    | InstallComplete
    | NoToolsAvailable
    | ToolListed(name: string, installed: bool, prerequisitesMet: bool)
    | Totals(total: nat, installedCount: nat)
    /** The traceback of an uncaught exception while processing `name`. */
    | Crashed(name: string)

  /** Everything one run's outcome depends on; all of it is fixed for the run. */
  datatype Context = Context(
    order: seq<string>,
    tools: map<string, Tool>,
    listing: string,
    env: Env,
    accepts: (seq<seq<string>>, seq<string>) -> bool)

  function ContextOf(registry: Registry, env: Env): Context {
    Context(registry.order, registry.tools, registry.ListingText(), env, registry.host.accepts)
  }

  /** Every name of the registry's order has a descriptor. */
  predicate Resolves(ctx: Context) {
    forall n :: n in ctx.order ==> n in ctx.tools
  }

  // ---------------------------------------------------------------------------
  // The per-name batch shared by `add`, `remove` and the interactive install
  // ---------------------------------------------------------------------------

  /** The host command processing `name` runs, if any; it does not depend on the host's answers. */
  function Planned(op: Op, ctx: Context, name: string): seq<seq<string>> {
    if name !in ctx.tools then []
    else match op
      case AddOp =>
        if PrerequisitesMet(ctx.tools[name], ctx.env) && !Marked(ctx.listing, name)
        then [InstallCommand(ctx.tools[name], ctx.env.cwd)] else []
      case RemoveOp =>
        if Marked(ctx.listing, name) then [RemoveCommand(name)] else []
  }

  /** The line reported for `name` when the host has already received `issued`. */
  function StepEvent(op: Op, ctx: Context, name: string, issued: seq<seq<string>>): Event {
    if name !in ctx.tools then UnknownTool(name)
    else if op == AddOp && !PrerequisitesMet(ctx.tools[name], ctx.env) then PrerequisitesMissing(name)
    else if Planned(op, ctx, name) == [] || ctx.accepts(issued, Planned(op, ctx, name)[0]) then Succeeded(op, name)
    else Failed(op, name)
  }

  /** The lines a command reports and the host commands it runs. */
  datatype Outcome = Outcome(events: seq<Event>, issued: seq<seq<string>>)

  /** Processing `names` in order, one after the other, when the host has already received `before`. */
  function Batch(op: Op, ctx: Context, names: seq<string>, before: seq<seq<string>>): Outcome
    decreases |names|
  {
    if names == [] then Outcome([], [])
    else
      var prior := Batch(op, ctx, names[..|names| - 1], before);
      var name := names[|names| - 1];
      Outcome(prior.events + [StepEvent(op, ctx, name, before + prior.issued)],
              prior.issued + Planned(op, ctx, name))
  }

  function PlannedAll(op: Op, ctx: Context, names: seq<string>): seq<seq<string>>
    decreases |names|
  {
    if names == [] then [] else PlannedAll(op, ctx, names[..|names| - 1]) + Planned(op, ctx, names[|names| - 1])
  }

  /**
   * The batch never stops early: it reports one line per requested name, in
   * input order, each decided by that name alone and the commands run before
   * it, and the commands it runs are fixed by the names, not by the host's answers.
   */
  lemma {:induction false} BatchSteps(op: Op, ctx: Context, names: seq<string>, before: seq<seq<string>>)
    ensures var o := Batch(op, ctx, names, before);
      && o.issued == PlannedAll(op, ctx, names)
      && |o.events| == |names|
      && forall i :: 0 <= i < |names| ==>
           o.events[i] == StepEvent(op, ctx, names[i], before + PlannedAll(op, ctx, names[..i]))
    decreases |names|
  {
    if names != [] {
      var prefix, last := names[..|names| - 1], names[|names| - 1];
      BatchSteps(op, ctx, prefix, before);
      var o, p := Batch(op, ctx, names, before), Batch(op, ctx, prefix, before);
      assert o.events == p.events + [StepEvent(op, ctx, last, before + p.issued)];
      forall i | 0 <= i < |names|
        ensures o.events[i] == StepEvent(op, ctx, names[i], before + PlannedAll(op, ctx, names[..i]))
      {
        if i < |prefix| {
          assert prefix[..i] == names[..i];
          assert o.events[i] == p.events[i];
        } else {
          assert names[..i] == prefix;
        }
      }
    }
  }

  /** The line for `name` is about `name`, and of one of the four outcome kinds. */
  predicate ReportsOn(e: Event, op: Op, name: string) {
    e == UnknownTool(name) || e == PrerequisitesMissing(name) || e == Succeeded(op, name) || e == Failed(op, name)
  }

  /**
   * Every requested name gets its line: unknown exactly when it is not in the
   * registry, prerequisites missing exactly when adding a known tool whose
   * command is not on the search path, and success without a host command when
   * there is nothing to do (already installed for add, not installed for remove).
   */
  lemma ReportsEveryName(op: Op, ctx: Context, names: seq<string>, before: seq<seq<string>>)
    ensures var o := Batch(op, ctx, names, before);
      && |o.events| == |names|
      && forall i :: 0 <= i < |names| ==>
           && ReportsOn(o.events[i], op, names[i])
           && (o.events[i] == UnknownTool(names[i]) <==> names[i] !in ctx.tools)
           && (o.events[i] == PrerequisitesMissing(names[i]) <==>
                 op == AddOp && names[i] in ctx.tools && !PrerequisitesMet(ctx.tools[names[i]], ctx.env))
           && ((names[i] in ctx.tools && (op == RemoveOp || PrerequisitesMet(ctx.tools[names[i]], ctx.env))
                && Planned(op, ctx, names[i]) == []) ==> o.events[i] == Succeeded(op, names[i]))
  {
    BatchSteps(op, ctx, names, before);
  }

  lemma {:induction false} PlannedAllFrom(op: Op, ctx: Context, names: seq<string>)
    ensures |PlannedAll(op, ctx, names)| <= |names|
    ensures forall c :: c in PlannedAll(op, ctx, names) ==> exists n :: n in names && Planned(op, ctx, n) == [c]
    decreases |names|
  {
    if names != [] {
      var prefix, last := names[..|names| - 1], names[|names| - 1];
      PlannedAllFrom(op, ctx, prefix);
      forall c | c in PlannedAll(op, ctx, names) ensures exists n :: n in names && Planned(op, ctx, n) == [c] {
        if c in PlannedAll(op, ctx, prefix) {
          var n :| n in prefix && Planned(op, ctx, n) == [c];
          assert n in names;
        } else {
          assert c in Planned(op, ctx, last);
          assert last in names;
        }
      }
    }
  }

  /**
   * `add` runs at most one host command per requested name, and only
   * `claude mcp add` for a registered tool whose prerequisites are met and
   * which the host does not list.
   */
  lemma AddInstallsOnlyReadyTools(ctx: Context, names: seq<string>, before: seq<seq<string>>)
    ensures var issued := Batch(AddOp, ctx, names, before).issued;
      && |issued| <= |names|
      && forall c :: c in issued ==>
           exists n :: && n in names && n in ctx.tools
                       && PrerequisitesMet(ctx.tools[n], ctx.env) && !Marked(ctx.listing, n)
                       && c == InstallCommand(ctx.tools[n], ctx.env.cwd)
  {
    BatchSteps(AddOp, ctx, names, before);
    PlannedAllFrom(AddOp, ctx, names);
  }

  /** `remove` never looks at prerequisites: the search path does not change what it reports or runs. */
  lemma {:induction false} RemoveIgnoresPrerequisites(ctx: Context, names: seq<string>, before: seq<seq<string>>, onPath: set<string>)
    ensures Batch(RemoveOp, ctx, names, before) == Batch(RemoveOp, ctx.(env := ctx.env.(onPath := onPath)), names, before)
    decreases |names|
  {
    if names != [] {
      var other := ctx.(env := ctx.env.(onPath := onPath));
      var prefix, last := names[..|names| - 1], names[|names| - 1];
      RemoveIgnoresPrerequisites(ctx, prefix, before, onPath);
      var prior := Batch(RemoveOp, ctx, prefix, before);
      assert Planned(RemoveOp, ctx, last) == Planned(RemoveOp, other, last);
      assert StepEvent(RemoveOp, ctx, last, before + prior.issued) == StepEvent(RemoveOp, other, last, before + prior.issued);
    }
  }

  /**
   * `remove` runs at most one host command per requested name, and only
   * `claude mcp remove` for a registered tool the host lists.
   */
  lemma RemoveRunsOnlyListedTools(ctx: Context, names: seq<string>, before: seq<seq<string>>)
    ensures var issued := Batch(RemoveOp, ctx, names, before).issued;
      && |issued| <= |names|
      && forall c :: c in issued ==>
           exists n :: n in names && n in ctx.tools && Marked(ctx.listing, n) && c == RemoveCommand(n)
  {
    BatchSteps(RemoveOp, ctx, names, before);
    PlannedAllFrom(RemoveOp, ctx, names);
  }

  // ---------------------------------------------------------------------------
  // What each command does, as a function of its inputs
  // ---------------------------------------------------------------------------

  datatype AddArgs = AddArgs(names: seq<string>, interactive: bool)

  /** `cmd_add` with names and without `--interactive`. */
  function AddNamed(ctx: Context, names: seq<string>, before: seq<seq<string>>): Outcome {
    if names == [] then Outcome([NoToolsSpecified(AddOp)], [])
    else if "claude" !in ctx.env.onPath then Outcome([EnvChecked(EnvironmentNotes(ctx.env)), Exited(1)], [])
    else
      var b := Batch(AddOp, ctx, names, before);
      Outcome([EnvChecked(EnvironmentNotes(ctx.env))] + b.events, b.issued)
  }

  /** `cmd_remove`. */
  function RemoveNamed(ctx: Context, names: seq<string>, before: seq<seq<string>>): Outcome {
    if names == [] then Outcome([NoToolsSpecified(RemoveOp)], [])
    else if "claude" !in ctx.env.onPath then Outcome([EnvChecked(EnvironmentNotes(ctx.env)), Exited(1)], [])
    else
      var b := Batch(RemoveOp, ctx, names, before);
      Outcome([EnvChecked(EnvironmentNotes(ctx.env))] + b.events, b.issued)
  }

  /** The skip lines of the selection filter, one per ticked name the host already lists. */
  function Skips(names: seq<string>, listing: string): seq<Event>
    decreases |names|
  {
    if names == [] then []
    else
      var last := names[|names| - 1];
      Skips(names[..|names| - 1], listing) + (if Marked(listing, last) then [SkippedInstalled(last)] else [])
  }

  /** The checkbox entry of a registered tool. */
  function ChoiceFor(ctx: Context, name: string): Choice
    requires name in ctx.tools
  {
    var mark :=
      if Marked(ctx.listing, name) then AlreadyInstalledMark
      else if !PrerequisitesMet(ctx.tools[name], ctx.env) then PrerequisitesMissingMark
      else Unmarked;
    Choice(name, ctx.tools[name].description, mark)
  }

  /** The checkbox entries for `names`, in order. */
  function ChoiceList(ctx: Context, names: seq<string>): seq<Choice>
    requires forall n :: n in names ==> n in ctx.tools
    decreases |names|
  {
    if names == [] then [] else ChoiceList(ctx, names[..|names| - 1]) + [ChoiceFor(ctx, names[|names| - 1])]
  }

  /**
   * The checkbox offers every registered tool, installed or not, in registry
   * order; installed ones are marked as such, and the prerequisites mark
   * appears only on tools that are not installed.
   */
  lemma {:induction false} ChoicesCoverRegistry(ctx: Context, names: seq<string>)
    requires forall n :: n in names ==> n in ctx.tools
    ensures |ChoiceList(ctx, names)| == |names|
    ensures forall i :: 0 <= i < |names| ==>
      var c := ChoiceList(ctx, names)[i];
      && c.name == names[i] && c.description == ctx.tools[names[i]].description
      && (c.mark == AlreadyInstalledMark <==> Marked(ctx.listing, names[i]))
      && (c.mark == PrerequisitesMissingMark <==>
            !Marked(ctx.listing, names[i]) && !PrerequisitesMet(ctx.tools[names[i]], ctx.env))
    decreases |names|
  {
    if names != [] {
      var prefix := names[..|names| - 1];
      ChoicesCoverRegistry(ctx, prefix);
      var cs := ChoiceList(ctx, names);
      assert cs == ChoiceList(ctx, prefix) + [ChoiceFor(ctx, names[|names| - 1])];
    }
  }

  /** `_get_user_tool_selection`: the names it returns and the lines it shows. */
  function UserSelection(ctx: Context, selection: Option<seq<string>>): (seq<string>, seq<Event>)
    requires Resolves(ctx)
  {
    var prompt := SelectionPrompted(ChoiceList(ctx, ctx.order));
    match selection
      case None => ([], [prompt, SelectionCancelled])
      case Some(chosen) => (NotInstalledAmong(chosen, ctx.listing), [prompt] + Skips(chosen, ctx.listing))
  }

  /** `_install_selected_tools`: the add batch between its count line and its completion line. */
  function InstallSelected(ctx: Context, selected: seq<string>, before: seq<seq<string>>): Outcome {
    var b := Batch(AddOp, ctx, selected, before);
    Outcome([InstallingCount(|selected|)] + b.events + [InstallComplete], b.issued)
  }

  /** `cmd_add_interactive`. */
  function AddInteractive(ctx: Context, selection: Option<seq<string>>, before: seq<seq<string>>): Outcome
    requires Resolves(ctx)
  {
    var checked := EnvChecked(InteractiveNotes(ctx.env));
    if !("claude" in ctx.env.onPath && ctx.env.stdinIsTty) then Outcome([checked, Exited(1)], [])
    else if NotInstalledAmong(ctx.order, ctx.listing) == [] then Outcome([checked, AllInstalled], [])
    else
      var chosen := UserSelection(ctx, selection);
      if chosen.0 == [] then Outcome([checked] + chosen.1, [])
      else
        var installing := InstallSelected(ctx, chosen.0, before);
        Outcome([checked] + chosen.1 + installing.events, installing.issued)
  }

  /** `cmd_add`. */
  function AddCommand(ctx: Context, args: AddArgs, selection: Option<seq<string>>, before: seq<seq<string>>): Outcome
    requires Resolves(ctx)
  {
    if args.interactive then AddInteractive(ctx, selection, before) else AddNamed(ctx, args.names, before)
  }

  /**
   * The early exits of `add` and `remove`: no names reports an error without
   * validating or running anything; a failed validation exits before any name
   * is processed.
   */
  lemma NamedCommandsExitEarly(ctx: Context, names: seq<string>, before: seq<seq<string>>)
    ensures AddNamed(ctx, [], before) == Outcome([NoToolsSpecified(AddOp)], [])
    ensures RemoveNamed(ctx, [], before) == Outcome([NoToolsSpecified(RemoveOp)], [])
    ensures names != [] && "claude" !in ctx.env.onPath ==>
      && AddNamed(ctx, names, before).issued == [] && RemoveNamed(ctx, names, before).issued == []
      && AddNamed(ctx, names, before).events == [EnvChecked(EnvironmentNotes(ctx.env)), Exited(1)]
      && RemoveNamed(ctx, names, before).events == [EnvChecked(EnvironmentNotes(ctx.env)), Exited(1)]
      && forall e :: e in AddNamed(ctx, names, before).events + RemoveNamed(ctx, names, before).events ==>
           forall op, n :: !ReportsOn(e, op, n)
  {
  }

  /**
   * The interactive path runs nothing when validation fails, when every tool
   * is installed (and then it does not prompt), when the selection is
   * cancelled, or when the filtered selection is empty; otherwise it installs
   * the filtered selection and always ends with the completion line.
   */
  lemma InteractiveExits(ctx: Context, selection: Option<seq<string>>, before: seq<seq<string>>)
    requires Resolves(ctx)
    ensures var o := AddInteractive(ctx, selection, before);
      && (!("claude" in ctx.env.onPath && ctx.env.stdinIsTty) ==>
            o.issued == [] && o.events == [EnvChecked(InteractiveNotes(ctx.env)), Exited(1)])
      && (NotInstalledAmong(ctx.order, ctx.listing) == [] ==> o.issued == [] && forall e :: e in o.events ==> !e.SelectionPrompted?)
      && (selection.None? ==> o.issued == [])
      && (selection.Some? && NotInstalledAmong(selection.value, ctx.listing) == [] ==> o.issued == [])
      && ("claude" in ctx.env.onPath && ctx.env.stdinIsTty && NotInstalledAmong(ctx.order, ctx.listing) != []
          && selection.Some? && NotInstalledAmong(selection.value, ctx.listing) != [] ==>
            o.events[|o.events| - 1] == InstallComplete)
  {
  }

  /**
   * The interactive path installs only ticked names the host does not list,
   * registered and with their prerequisites met, at most one command each.
   */
  lemma InteractiveInstallsOnlyTickedAvailableTools(ctx: Context, chosen: seq<string>, before: seq<seq<string>>)
    requires Resolves(ctx)
    ensures var issued := AddInteractive(ctx, Some(chosen), before).issued;
      && |issued| <= |chosen|
      && forall c :: c in issued ==>
           exists n :: && n in chosen && n in ctx.tools && !Marked(ctx.listing, n)
                       && PrerequisitesMet(ctx.tools[n], ctx.env)
                       && c == InstallCommand(ctx.tools[n], ctx.env.cwd)
  {
    var kept := NotInstalledAmong(chosen, ctx.listing);
    InstalledSplitMembers(chosen, ctx.listing);
    InstalledSplitOrder(chosen, ctx.listing);
    AddInstallsOnlyReadyTools(ctx, kept, before);
    var issued := AddInteractive(ctx, Some(chosen), before).issued;
    assert issued == [] || issued == Batch(AddOp, ctx, kept, before).issued;
    forall c | c in issued
      ensures exists n :: && n in chosen && n in ctx.tools && !Marked(ctx.listing, n)
                          && PrerequisitesMet(ctx.tools[n], ctx.env)
                          && c == InstallCommand(ctx.tools[n], ctx.env.cwd)
    {
      var n :| && n in kept && n in ctx.tools
               && PrerequisitesMet(ctx.tools[n], ctx.env) && !Marked(ctx.listing, n)
               && c == InstallCommand(ctx.tools[n], ctx.env.cwd);
      assert n in chosen;
    }
  }

  /** The filter reports one skip line per ticked name it drops. */
  lemma {:induction false} SkipsMatchDropped(names: seq<string>, listing: string)
    ensures |Skips(names, listing)| == |InstalledAmong(names, listing)|
    ensures forall i :: 0 <= i < |Skips(names, listing)| ==>
      Skips(names, listing)[i] == SkippedInstalled(InstalledAmong(names, listing)[i])
    decreases |names|
  {
    if names != [] {
      SkipsMatchDropped(names[..|names| - 1], listing);
    }
  }

  // ---------------------------------------------------------------------------
  // cmd_list
  // ---------------------------------------------------------------------------

  /** One line per tool: its name, whether it is in the installed list, whether its prerequisites are met. */
  function ListLines(ctx: Context, names: seq<string>): seq<Event>
    requires forall n :: n in names ==> n in ctx.tools
    decreases |names|
  {
    if names == [] then []
    else
      var name := names[|names| - 1];
      ListLines(ctx, names[..|names| - 1])
      + [ToolListed(name, name in InstalledAmong(ctx.order, ctx.listing), PrerequisitesMet(ctx.tools[name], ctx.env))]
  }

  /** `cmd_list`. */
  function ListCommand(ctx: Context): seq<Event>
    requires Resolves(ctx)
  {
    if ctx.tools == map[] then [NoToolsAvailable]
    else ListLines(ctx, ctx.order) + [Totals(|ctx.tools|, |InstalledAmong(ctx.order, ctx.listing)|)]
  }

  function CountInstalledLines(events: seq<Event>): nat
    decreases |events|
  {
    if events == [] then 0
    else CountInstalledLines(events[..|events| - 1])
         + (if events[|events| - 1].ToolListed? && events[|events| - 1].installed then 1 else 0)
  }

  /** One line per name, in order, saying whether the name is in the installed list. */
  lemma {:induction false} ListLinesAt(ctx: Context, names: seq<string>)
    requires forall n :: n in names ==> n in ctx.tools
    ensures |ListLines(ctx, names)| == |names|
    ensures forall i :: 0 <= i < |names| ==>
      ListLines(ctx, names)[i]
        == ToolListed(names[i], names[i] in InstalledAmong(ctx.order, ctx.listing), PrerequisitesMet(ctx.tools[names[i]], ctx.env))
    decreases |names|
  {
    if names != [] {
      var prefix := names[..|names| - 1];
      assert forall n :: n in prefix ==> n in names;
      ListLinesAt(ctx, prefix);
      var lines := ListLines(ctx, names);
      forall i | 0 <= i < |prefix|
        ensures lines[i] == ListLines(ctx, prefix)[i] && names[i] == prefix[i]
      {
      }
    }
  }

  /** Over names of the registry, the lines marked installed are the installed names. */
  lemma {:induction false} ListLinesCount(ctx: Context, names: seq<string>)
    requires forall n :: n in names ==> n in ctx.tools && n in ctx.order
    ensures CountInstalledLines(ListLines(ctx, names)) == |InstalledAmong(names, ctx.listing)|
    decreases |names|
  {
    if names != [] {
      var prefix, last := names[..|names| - 1], names[|names| - 1];
      assert forall n :: n in prefix ==> n in names;
      ListLinesCount(ctx, prefix);
      InstalledSplitMembers(ctx.order, ctx.listing);
      var lines := ListLines(ctx, names);
      assert lines[..|lines| - 1] == ListLines(ctx, prefix);
      assert lines[|lines| - 1].installed == Marked(ctx.listing, last);
    }
  }

  /**
   * `list` shows every registered tool once, in registry order, marked
   * installed exactly when the host lists it; the total is the registry's
   * size and the installed count is the number of lines marked installed.
   */
  lemma ListTotals(ctx: Context)
    requires RegistryShape(ctx.order, ctx.tools)
    ensures var lines := ListCommand(ctx);
      && (ctx.order == [] <==> lines == [NoToolsAvailable])
      && (ctx.order != [] ==>
            && |lines| == |ctx.order| + 1
            && (forall i :: 0 <= i < |ctx.order| ==>
                  lines[i].ToolListed? && lines[i].name == ctx.order[i]
                  && lines[i].installed == Marked(ctx.listing, ctx.order[i]))
            && lines[|lines| - 1] == Totals(|ctx.order|, CountInstalledLines(lines[..|lines| - 1])))
  {
    RegistrySize(ctx.order, ctx.tools);
    var lines := ListCommand(ctx);
    if ctx.order != [] {
      assert ctx.order[0] in ctx.tools;
      var body := ListLines(ctx, ctx.order);
      ListLinesAt(ctx, ctx.order);
      ListLinesCount(ctx, ctx.order);
      InstalledSplitMembers(ctx.order, ctx.listing);
      assert lines == body + [Totals(|ctx.tools|, |InstalledAmong(ctx.order, ctx.listing)|)];
      assert lines[..|lines| - 1] == body;
      assert lines[|lines| - 1] == Totals(|ctx.order|, CountInstalledLines(body));
      forall i | 0 <= i < |ctx.order|
        ensures lines[i].ToolListed? && lines[i].name == ctx.order[i]
                && lines[i].installed == Marked(ctx.listing, ctx.order[i])
      {
        assert lines[i] == body[i];
      }
    } else {
      assert ctx.tools.Keys == {};
    }
  }

  // ---------------------------------------------------------------------------
  // The commands
  // ---------------------------------------------------------------------------

  /** `cmd_list`. */
  method CmdList(registry: Registry, env: Env) returns (events: seq<Event>)
    requires registry.Valid()
    modifies registry, registry.host
    ensures registry.Valid() && registry.CacheKept()
    ensures events == ListCommand(ContextOf(registry, env))
    ensures registry.host.issued == old(registry.host.issued)
  {
    ghost var ctx := ContextOf(registry, env);
    var installed := registry.GetInstalledTools();
    if registry.tools == map[] {
      return [NoToolsAvailable];
    }
    events := [];
    for i := 0 to |registry.order|
      invariant events == ListLines(ctx, registry.order[..i])
    {
      var name := registry.order[i];
      var tool := registry.tools[name];
      assert registry.order[..i + 1][..i] == registry.order[..i];
      events := events + [ToolListed(name, name in installed, PrerequisitesMet(tool, env))];
    }
    assert registry.order[..|registry.order|] == registry.order;
    events := events + [Totals(|registry.tools|, |installed|)];
  }

  /** One registered name of an add batch: the prerequisite check, then `install`. */
  method AddRegistered(name: string, registry: Registry, env: Env) returns (event: Event)
    requires registry.Valid() && name in registry.tools
    modifies registry, registry.host
    ensures registry.Valid() && registry.CacheKept()
    ensures event == StepEvent(AddOp, ContextOf(registry, env), name, old(registry.host.issued))
    ensures registry.host.issued == old(registry.host.issued) + Planned(AddOp, ContextOf(registry, env), name)
  {
    var tool := registry.tools[name];
    if !PrerequisitesMet(tool, env) {
      return PrerequisitesMissing(name);
    }
    var installed := Install(tool, registry, None, env);
    event := if installed then Succeeded(AddOp, name) else Failed(AddOp, name);
  }

  /** One registered name of a remove batch. */
  method RemoveRegistered(name: string, registry: Registry) returns (event: Event)
    requires registry.Valid() && name in registry.tools
    modifies registry, registry.host
    ensures registry.Valid() && registry.CacheKept()
    ensures forall env: Env :: event == StepEvent(RemoveOp, ContextOf(registry, env), name, old(registry.host.issued))
    ensures forall env: Env :: registry.host.issued == old(registry.host.issued) + Planned(RemoveOp, ContextOf(registry, env), name)
  {
    var removed := Remove(registry.tools[name], registry);
    event := if removed then Succeeded(RemoveOp, name) else Failed(RemoveOp, name);
  }

  /** The loop of `cmd_add` over the requested names. */
  method AddEach(names: seq<string>, registry: Registry, env: Env) returns (events: seq<Event>)
    requires registry.Valid()
    modifies registry, registry.host
    ensures registry.Valid() && registry.CacheKept()
    ensures var b := Batch(AddOp, ContextOf(registry, env), names, old(registry.host.issued));
      events == b.events && registry.host.issued == old(registry.host.issued) + b.issued
  {
    ghost var ctx, before := ContextOf(registry, env), registry.host.issued;
    events := [];
    for i := 0 to |names|
      invariant registry.Valid() && registry.CacheKept()
      invariant events == Batch(AddOp, ctx, names[..i], before).events
      invariant registry.host.issued == before + Batch(AddOp, ctx, names[..i], before).issued
    {
      var name := names[i];
      assert names[..i + 1][..i] == names[..i];
      var tool := registry.GetTool(name);
      var event;
      if tool.None? {
        event := UnknownTool(name);
      } else {
        event := AddRegistered(name, registry, env);
      }
      events := events + [event];
    }
    assert names[..|names|] == names;
  }

  /** `cmd_add`. */
  method CmdAdd(args: AddArgs, registry: Registry, env: Env, selection: Option<seq<string>>)
    returns (events: seq<Event>)
    requires registry.Valid()
    requires selection.Some? ==> forall n :: n in selection.value ==> n in registry.tools
    modifies registry, registry.host
    ensures registry.Valid() && registry.CacheKept()
    ensures var o := AddCommand(ContextOf(registry, env), args, selection, old(registry.host.issued));
      events == o.events && registry.host.issued == old(registry.host.issued) + o.issued
  {
    if args.interactive {
      events := CmdAddInteractive(registry, env, selection);
      return;
    }
    if args.names == [] {
      return [NoToolsSpecified(AddOp)];
    }
    var ok, notes := ValidateEnvironment(env);
    if !ok {
      return [EnvChecked(notes), Exited(1)];
    }
    var outcomes := AddEach(args.names, registry, env);
    events := [EnvChecked(notes)] + outcomes;
  }

  /** The loop of `cmd_remove` over the requested names. */
  method RemoveEach(names: seq<string>, registry: Registry, env: Env) returns (events: seq<Event>)
    requires registry.Valid()
    modifies registry, registry.host
    ensures registry.Valid() && registry.CacheKept()
    ensures var b := Batch(RemoveOp, ContextOf(registry, env), names, old(registry.host.issued));
      events == b.events && registry.host.issued == old(registry.host.issued) + b.issued
  {
    ghost var ctx, before := ContextOf(registry, env), registry.host.issued;
    events := [];
    for i := 0 to |names|
      invariant registry.Valid() && registry.CacheKept()
      invariant events == Batch(RemoveOp, ctx, names[..i], before).events
      invariant registry.host.issued == before + Batch(RemoveOp, ctx, names[..i], before).issued
    {
      var name := names[i];
      assert names[..i + 1][..i] == names[..i];
      var tool := registry.GetTool(name);
      var event;
      if tool.None? {
        event := UnknownTool(name);
      } else {
        event := RemoveRegistered(name, registry);
      }
      events := events + [event];
    }
    assert names[..|names|] == names;
  }

  /** `cmd_remove`. */
  method CmdRemove(names: seq<string>, registry: Registry, env: Env) returns (events: seq<Event>)
    requires registry.Valid()
    modifies registry, registry.host
    ensures registry.Valid() && registry.CacheKept()
    ensures var o := RemoveNamed(ContextOf(registry, env), names, old(registry.host.issued));
      events == o.events && registry.host.issued == old(registry.host.issued) + o.issued
  {
    if names == [] {
      return [NoToolsSpecified(RemoveOp)];
    }
    var ok, notes := ValidateEnvironment(env);
    if !ok {
      return [EnvChecked(notes), Exited(1)];
    }
    var outcomes := RemoveEach(names, registry, env);
    events := [EnvChecked(notes)] + outcomes;
  }

  /**
   * The post-filter of `_get_user_tool_selection`: a cancelled selection gives
   * nothing (without asking the host); otherwise the ticked names the host
   * does not list, in their order, with a skip line for each one dropped.
   */
  method FilterSelection(selection: Option<seq<string>>, registry: Registry)
    returns (kept: seq<string>, events: seq<Event>)
    requires registry.Valid()
    requires selection.Some? ==> forall n :: n in selection.value ==> n in registry.tools
    modifies registry, registry.host
    ensures registry.Valid() && registry.CacheKept()
    ensures registry.host.issued == old(registry.host.issued)
    ensures selection.None? ==> kept == [] && events == [SelectionCancelled] && registry.cache == old(registry.cache)
    ensures selection.Some? ==>
      kept == NotInstalledAmong(selection.value, registry.ListingText())
      && events == Skips(selection.value, registry.ListingText())
  {
    if selection.None? {
      return [], [SelectionCancelled];
    }
    var chosen := selection.value;
    kept, events := [], [];
    for i := 0 to |chosen|
      invariant registry.Valid() && registry.CacheKept()
      invariant registry.host.issued == old(registry.host.issued)
      invariant kept == NotInstalledAmong(chosen[..i], registry.ListingText())
      invariant events == Skips(chosen[..i], registry.ListingText())
    {
      var name := chosen[i];
      assert chosen[..i + 1][..i] == chosen[..i];
      var tool := registry.tools[name];
      var installed := registry.IsToolInstalled(tool.name);
      if installed {
        events := events + [SkippedInstalled(name)];
      } else {
        kept := kept + [name];
      }
    }
    assert chosen[..|chosen|] == chosen;
  }

  /** `_install_selected_tools`: the batch over registered names, closed by the completion line. */
  method InstallSelectedTools(selected: seq<string>, registry: Registry, env: Env) returns (events: seq<Event>)
    requires registry.Valid()
    requires forall n :: n in selected ==> n in registry.tools
    modifies registry, registry.host
    ensures registry.Valid() && registry.CacheKept()
    ensures var o := InstallSelected(ContextOf(registry, env), selected, old(registry.host.issued));
      events == o.events && registry.host.issued == old(registry.host.issued) + o.issued
  {
    ghost var ctx, before := ContextOf(registry, env), registry.host.issued;
    events := [InstallingCount(|selected|)];
    for i := 0 to |selected|
      invariant registry.Valid() && registry.CacheKept()
      invariant events == [InstallingCount(|selected|)] + Batch(AddOp, ctx, selected[..i], before).events
      invariant registry.host.issued == before + Batch(AddOp, ctx, selected[..i], before).issued
    {
      var name := selected[i];
      assert selected[..i + 1][..i] == selected[..i];
      var event := AddRegistered(name, registry, env);
      events := events + [event];
    }
    assert selected[..|selected|] == selected;
    events := events + [InstallComplete];
  }

  /** The choices `_get_user_tool_selection` builds before showing the checkbox. */
  method SelectionChoices(registry: Registry, env: Env) returns (choices: seq<Choice>)
    requires registry.Valid()
    modifies registry, registry.host
    ensures registry.Valid() && registry.CacheKept()
    ensures registry.host.issued == old(registry.host.issued)
    ensures choices == ChoiceList(ContextOf(registry, env), registry.order)
  {
    ghost var ctx := ContextOf(registry, env);
    choices := [];
    for i := 0 to |registry.order|
      invariant registry.Valid() && registry.CacheKept()
      invariant registry.host.issued == old(registry.host.issued)
      invariant choices == ChoiceList(ctx, registry.order[..i])
    {
      var name := registry.order[i];
      assert registry.order[..i + 1][..i] == registry.order[..i];
      var tool := registry.tools[name];
      var installed := registry.IsToolInstalled(tool.name);
      var mark := if installed then AlreadyInstalledMark
        else if !PrerequisitesMet(tool, env) then PrerequisitesMissingMark
        else Unmarked;
      choices := choices + [Choice(name, tool.description, mark)];
    }
    assert registry.order[..|registry.order|] == registry.order;
  }

  /**
   * `_get_user_tool_selection`: shows every registered tool as a choice, then
   * keeps the ticked names the host does not list; a cancelled prompt keeps nothing.
   */
  method GetUserToolSelection(registry: Registry, env: Env, selection: Option<seq<string>>)
    returns (kept: seq<string>, events: seq<Event>)
    requires registry.Valid()
    requires selection.Some? ==> forall n :: n in selection.value ==> n in registry.tools
    modifies registry, registry.host
    ensures registry.Valid() && registry.CacheKept()
    ensures registry.host.issued == old(registry.host.issued)
    ensures Resolves(ContextOf(registry, env))
    ensures (kept, events) == UserSelection(ContextOf(registry, env), selection)
    ensures forall n :: n in kept ==> n in registry.tools
  {
    var choices := SelectionChoices(registry, env);
    var filtered;
    kept, filtered := FilterSelection(selection, registry);
    events := [SelectionPrompted(choices)] + filtered;
    if selection.Some? {
      InstalledSplitMembers(selection.value, registry.ListingText());
    } else {
      assert events == [SelectionPrompted(choices), SelectionCancelled];
    }
  }

  /** `cmd_add_interactive`. */
  method CmdAddInteractive(registry: Registry, env: Env, selection: Option<seq<string>>) returns (events: seq<Event>)
    requires registry.Valid()
    requires selection.Some? ==> forall n :: n in selection.value ==> n in registry.tools
    modifies registry, registry.host
    ensures registry.Valid() && registry.CacheKept()
    ensures Resolves(ContextOf(registry, env))
    ensures var o := AddInteractive(ContextOf(registry, env), selection, old(registry.host.issued));
      events == o.events && registry.host.issued == old(registry.host.issued) + o.issued
  {
    ghost var ctx, before := ContextOf(registry, env), registry.host.issued;
    assert Resolves(ctx);
    var ok, notes := ValidateInteractiveEnvironment(env);
    if !ok {
      return [EnvChecked(notes), Exited(1)];
    }
    var available := registry.GetAvailableTools();
    if available == [] {
      return [EnvChecked(notes), AllInstalled];
    }
    var kept, shown := GetUserToolSelection(registry, env, selection);
    events := [EnvChecked(notes)] + shown;
    if kept == [] {
      return;
    }
    var installing := InstallSelectedTools(kept, registry, env);
    events := events + installing;
  }

  // ---------------------------------------------------------------------------
  // The batch as the source writes it
  // ---------------------------------------------------------------------------

  /**
   * The `add` batch as written: reporting a missing prerequisite reads
   * `tool.error_message`, which the descriptor class does not define, so the
   * AttributeError ends the command at the first such name.
   */
  function AddBatchAsWritten(ctx: Context, names: seq<string>, before: seq<seq<string>>): seq<Event>
    decreases |names|
  {
    if names == [] then []
    else
      var name := names[0];
      if name in ctx.tools && !PrerequisitesMet(ctx.tools[name], ctx.env) then [Crashed(name)]
      else [StepEvent(AddOp, ctx, name, before)]
           + AddBatchAsWritten(ctx, names[1..], before + Planned(AddOp, ctx, name))
  }

  /**
   * A first name whose prerequisites are missing ends the batch as written
   * before any later name is processed; the corrected batch reports it and
   * goes on to every later name.
   */
  lemma AsWrittenStopsAtMissingPrerequisite(ctx: Context, names: seq<string>, before: seq<seq<string>>)
    requires |names| >= 2 && names[0] in ctx.tools && !PrerequisitesMet(ctx.tools[names[0]], ctx.env)
    ensures AddBatchAsWritten(ctx, names, before) == [Crashed(names[0])]
    ensures |Batch(AddOp, ctx, names, before).events| == |names|
    ensures Batch(AddOp, ctx, names, before).events[0] == PrerequisitesMissing(names[0])
    ensures forall i :: 1 <= i < |names| ==> ReportsOn(Batch(AddOp, ctx, names, before).events[i], AddOp, names[i])
  {
    ReportsEveryName(AddOp, ctx, names, before);
  }

  /**
   * `_install_selected_tools` as written: the count line, then the add batch
   * as written, and the completion line only when the batch did not crash.
   */
  function InstallSelectedAsWritten(ctx: Context, selected: seq<string>, before: seq<seq<string>>): seq<Event> {
    var b := AddBatchAsWritten(ctx, selected, before);
    [InstallingCount(|selected|)] + b + (if b != [] && b[|b| - 1].Crashed? then [] else [InstallComplete])
  }

  /** Any name with missing prerequisites makes the batch as written end with a crash, at or before that name. */
  lemma {:induction false} AsWrittenBatchCrashes(ctx: Context, names: seq<string>, before: seq<seq<string>>, k: nat)
    requires k < |names| && names[k] in ctx.tools && !PrerequisitesMet(ctx.tools[names[k]], ctx.env)
    ensures var b := AddBatchAsWritten(ctx, names, before);
      && b != [] && b[|b| - 1].Crashed?
      && |b| <= k + 1
      && forall e :: e in b ==> !e.InstallComplete?
    decreases |names|
  {
    var name := names[0];
    if !(name in ctx.tools && !PrerequisitesMet(ctx.tools[name], ctx.env)) {
      assert k > 0;
      AsWrittenBatchCrashes(ctx, names[1..], before + Planned(AddOp, ctx, name), k - 1);
    }
  }

  /**
   * As written, ticking one tool whose prerequisites are missing ends the
   * interactive install with a crash and without the completion line; the
   * corrected install reports every ticked tool and then completes.
   */
  lemma InteractiveAsWrittenLosesCompletion(ctx: Context, selected: seq<string>, before: seq<seq<string>>, k: nat)
    requires k < |selected| && selected[k] in ctx.tools && !PrerequisitesMet(ctx.tools[selected[k]], ctx.env)
    ensures var lines := InstallSelectedAsWritten(ctx, selected, before);
      && lines[|lines| - 1].Crashed?
      && InstallComplete !in lines
    ensures var lines := InstallSelected(ctx, selected, before).events;
      && |lines| == |selected| + 2
      && lines[k + 1] == PrerequisitesMissing(selected[k])
      && lines[|lines| - 1] == InstallComplete
  {
    AsWrittenBatchCrashes(ctx, selected, before, k);
    ReportsEveryName(AddOp, ctx, selected, before);
  }

  /**
   * `cmd_list` as written: the warning for a tool with missing prerequisites
   * reads `tool.error_message` too, so the listing stops after that tool's
   * status line and the totals are never shown.
   */
  function ListAsWritten(ctx: Context, names: seq<string>): seq<Event>
    requires forall n :: n in names ==> n in ctx.tools
    decreases |names|
  {
    if names == [] then [Totals(|ctx.tools|, |InstalledAmong(ctx.order, ctx.listing)|)]
    else
      var name := names[0];
      var line := ToolListed(name, name in InstalledAmong(ctx.order, ctx.listing), PrerequisitesMet(ctx.tools[name], ctx.env));
      if !PrerequisitesMet(ctx.tools[name], ctx.env) then [line, Crashed(name)]
      else [line] + ListAsWritten(ctx, names[1..])
  }

  /**
   * As written, one registered tool whose command is not on the search path
   * ends `list` with a crash and no totals line; the corrected listing shows
   * every tool and ends with the totals.
   */
  lemma {:induction false} ListAsWrittenLosesTotals(ctx: Context, names: seq<string>, k: nat)
    requires forall n :: n in names ==> n in ctx.tools
    requires k < |names| && !PrerequisitesMet(ctx.tools[names[k]], ctx.env)
    ensures var lines := ListAsWritten(ctx, names);
      && lines[|lines| - 1].Crashed?
      && |lines| <= k + 2
      && forall e :: e in lines ==> !e.Totals?
    decreases |names|
  {
    if PrerequisitesMet(ctx.tools[names[0]], ctx.env) {
      assert k > 0;
      ListAsWrittenLosesTotals(ctx, names[1..], k - 1);
    }
  }
}
