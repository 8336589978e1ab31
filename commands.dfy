/** The shell's command interpreter (`handleCliCommand` in components/Terminal.tsx): a verb
    matched case-insensitively against a fixed table, each handler printing lines and `cd`
    alone changing the current directory. */
module Commands {
  import opened Strings
  import opened Types
  import opened Paths

  /** What the shell sends to the terminal: `writeln(text)`, `write(text)` and `clear()`. */
  datatype Output = Line(text: string) | Raw(text: string) | ClearScreen

  /** What one command printed and the current directory after it. */
  datatype Reply = Reply(output: seq<Output>, cwd: string)

  const Esc := "\U{1b}"

  /** An ANSI colour escape around `text`, reset afterwards. */
  function Color(code: string, text: string): string {
    Esc + "[" + code + "m" + text + Esc + "[0m"
  }

  function Red(text: string): string {
    Color("31", text)
  }

  /** The directory the shell starts in, and `cd`'s target when no argument is given. */
  const HomeDirectory := "/home/user"

  const Welcome := "Welcome to the CUAG Agent CLI. Type " + Color("32", "help") + " for commands."

  /** The text `prompt()` writes: a line break, then `CUAG:<cwd>> ` in cyan. */
  function PromptText(cwd: string): string {
    "\r\n" + Color("36", "CUAG:" + cwd + "> ")
  }

  predicate IsDir(node: Option<Node>) {
    node.Some? && node.value.Dir?
  }

  predicate IsFile(node: Option<Node>) {
    node.Some? && node.value.File?
  }

  /** `args[0]` interpolated into a template literal: a missing argument prints as `undefined`. */
  function ArgText(args: seq<string>): string {
    if args == [] then "undefined" else args[0]
  }

  // ----- help, clear, status -----

  function UsageLine(usage: string, padding: string, description: string): Output {
    Line("  " + Color("32", usage) + padding + "- " + description)
  }

  function HelpLines(): seq<Output> {
    [ Line(Color("33", "CUA Ecosystem Commands:")),
      UsageLine("task <agent> \"<prompt>\"", "     ", "Assign a task to an agent."),
      UsageLine("status", "                      ", "View active Custom Instructions."),
      UsageLine("clear", "                       ", "Clear the terminal screen."),
      UsageLine("ls [path]", "                     ", "List directory contents."),
      UsageLine("cat <file>", "                    ", "Display file content."),
      UsageLine("cd <directory>", "                ", "Change directory.") ]
  }

  /** `value || 'Default'`. */
  function OrDefault(value: string): string {
    if value == "" then "Default" else value
  }

  function StatusLines(instructions: CustomInstructions): seq<Output> {
    [ Line(Color("33", "Active Custom Instruction Nuances:")),
      Line("  " + Color("32", "SYSTEM:") + " " + OrDefault(instructions.system)),
      Line("  " + Color("32", "AI:") + "     " + OrDefault(instructions.ai)),
      Line("  " + Color("32", "USER:") + "   " + OrDefault(instructions.user)) ]
  }

  /** `o` is a line that ends with `value`, or with `Default` when `value` is empty. */
  predicate ShowsValue(o: Output, value: string) {
    var shown := if value == "" then "Default" else value;
    o.Line? && |shown| <= |o.text| && o.text[|o.text| - |shown|..] == shown
  }

  /** `status` prints a heading and then one line per instruction field, in the order system,
      AI, user, each ending with the field or with `Default` for an empty one. */
  lemma {:induction false} StatusShowsInstructions(instructions: CustomInstructions)
    ensures |StatusLines(instructions)| == 4
    ensures ShowsValue(StatusLines(instructions)[1], instructions.system)
    ensures ShowsValue(StatusLines(instructions)[2], instructions.ai)
    ensures ShowsValue(StatusLines(instructions)[3], instructions.user)
  {
  }

  // ----- ls, cd, cat -----

  /** One entry of an `ls` listing: a directory in blue with a trailing `/`, a file in green. */
  function EntryLabel(entry: (string, Node)): string {
    if entry.1.Dir? then Color("34", entry.0 + "/") else Color("32", entry.0)
  }

  function Labels(entries: seq<(string, Node)>): (labels: seq<string>)
    ensures |labels| == |entries|
    ensures forall i :: 0 <= i < |entries| ==> labels[i] == EntryLabel(entries[i])
  {
    seq(|entries|, i requires 0 <= i < |entries| => EntryLabel(entries[i]))
  }

  /** `Object.keys(contents).map(label).join('    ')`: the entries in stored order. */
  function Listing(entries: seq<(string, Node)>): string {
    Join(Labels(entries), "    ")
  }

  function LsError(target: string): string {
    Red("Error: ls: cannot access '" + target + "': No such directory")
  }

  function CdError(args: seq<string>): string {
    Red("Error: cd: " + ArgText(args) + ": Not a directory or does not exist")
  }

  function CatError(args: seq<string>): string {
    Red("Error: cat: " + ArgText(args) + ": No such file or is a directory")
  }

  /** `ls [path]`: one line, the listing of a directory or an error naming the argument (or `.`). */
  function Ls(root: Node, cwd: string, args: seq<string>): (out: seq<Output>)
    ensures var target := if args == [] then "." else args[0];
            var node := Lookup(root, Resolve(cwd, target));
            && |out| == 1
            && (IsDir(node) ==> out[0] == Line(Listing(node.value.entries)))
            && (!IsDir(node) ==> out[0] == Line(LsError(target)))
  {
    var target := if args == [] then "." else args[0];
    var node := Lookup(root, Resolve(cwd, target));
    if IsDir(node) then [Line(Listing(node.value.entries))] else [Line(LsError(target))]
  }

  /** `cd [path]`: moves to the resolved path exactly when it names a directory; otherwise one
      error line and the current directory stays as it was. */
  function Cd(root: Node, cwd: string, args: seq<string>): (r: Reply)
    ensures var target := Resolve(cwd, if args == [] then HomeDirectory else args[0]);
            if IsDir(Lookup(root, target)) then r == Reply([], target)
            else r == Reply([Line(CdError(args))], cwd)
  {
    var newPath := Resolve(cwd, if args == [] then HomeDirectory else args[0]);
    if IsDir(Lookup(root, newPath)) then Reply([], if newPath == "" then "/" else newPath)
    else Reply([Line(CdError(args))], cwd)
  }

  /** `cat <file>`: the content of a file as one write, otherwise one error line. A missing
      argument resolves the empty path, that is the current directory. */
  function Cat(root: Node, cwd: string, args: seq<string>): (out: seq<Output>)
    ensures var node := Lookup(root, Resolve(cwd, if args == [] then "" else args[0]));
            && |out| == 1
            && (IsFile(node) ==> out[0] == Line(node.value.content))
            && (!IsFile(node) ==> out[0] == Line(CatError(args)))
  {
    var node := Lookup(root, Resolve(cwd, if args == [] then "" else args[0]));
    if IsFile(node) then [Line(node.value.content)] else [Line(CatError(args))]
  }

  // ----- task -----

  /** `s[j..k]` could be the body of a lazy `"(.*?)"`: no quote and no line terminator. */
  predicate Clean(s: string, j: nat, k: nat)
    requires j <= k <= |s|
  {
    forall m :: j <= m < k ==> s[m] != '"' && !IsLineTerminator(s[m])
  }

  /** The quote that closes a `"(.*?)"` whose body starts at `j`, if one does. */
  function CloseQuote(s: string, j: nat): (r: Option<nat>)
    requires j <= |s|
    ensures r.Some? ==> j <= r.value < |s| && s[r.value] == '"' && Clean(s, j, r.value)
    ensures r.None? ==> forall k :: j <= k < |s| && s[k] == '"' ==> !Clean(s, j, k)
    decreases |s| - j
  {
    if j == |s| then None
    else if s[j] == '"' then Some(j)
    else if IsLineTerminator(s[j]) then None
    else CloseQuote(s, j + 1)
  }

  /** A match of `/"(.*?)"/` starts at `a`. */
  predicate Opens(s: string, a: nat)
    requires a < |s|
  {
    s[a] == '"' && CloseQuote(s, a + 1).Some?
  }

  /** The leftmost match of `/"(.*?)"/` at or after `i`, as its opening and closing quotes. */
  function QuoteMatch(s: string, i: nat): (r: Option<(nat, nat)>)
    requires i <= |s|
    ensures r.Some? ==> i <= r.value.0 < |s| && Opens(s, r.value.0)
    ensures r.Some? ==> r.value.1 == CloseQuote(s, r.value.0 + 1).value
    ensures r.Some? ==> forall a :: i <= a < r.value.0 ==> !Opens(s, a)
    ensures r.None? ==> forall a :: i <= a < |s| ==> !Opens(s, a)
    decreases |s| - i
  {
    if i == |s| then None
    else if Opens(s, i) then Some((i, CloseQuote(s, i + 1).value))
    else QuoteMatch(s, i + 1)
  }

  /** `command.match(/"(.*?)"/)?.[1]`: the body of the leftmost quoted span. */
  function FirstQuoted(command: string): (r: Option<string>)
    ensures r.None? <==> forall a :: 0 <= a < |command| ==> !Opens(command, a)
    ensures r.Some? ==> forall k :: 0 <= k < |r.value| ==> r.value[k] != '"' && !IsLineTerminator(r.value[k])
  {
    match QuoteMatch(command, 0)
    case None => None
    case Some((a, b)) => Some(command[a + 1..b])
  }

  /** `ai_family.find(a => a.name.toLowerCase() === name.toLowerCase())`. */
  function FindAgent(agents: seq<Agent>, name: string): (r: Option<Agent>)
    ensures r.Some? ==> r.value in agents && ToLower(r.value.name) == ToLower(name)
    ensures r.Some? ==> exists i :: 0 <= i < |agents| && agents[i] == r.value
                          && forall j :: 0 <= j < i ==> ToLower(agents[j].name) != ToLower(name)
    ensures r.None? <==> forall i :: 0 <= i < |agents| ==> ToLower(agents[i].name) != ToLower(name)
  {
    if agents == [] then None
    else if ToLower(agents[0].name) == ToLower(name) then Some(agents[0])
    else FindAgent(agents[1..], name)
  }

  const FormatError := Red("ERROR: Invalid format. Use: task <agent> \"<prompt>\"")

  function AgentNotFound(name: string): string {
    Red("ERROR: Agent '" + name + "' not found.")
  }

  const Executing := Color("33", "STATUS:") + " EXECUTING"

  /** The fixed JSON-like block a task prints; the prompt itself is never used. */
  function TaskReport(agent: Agent): string {
    "{\n  \"status\": \"SUCCESS\",\n  \"agent\": \"" + agent.name
    + "\",\n  \"response\": \"Task completed based on philosophy: '" + agent.philosophy + "'\"\n}"
  }

  /** A task is well formed when it names an agent and its first quoted span is not empty. */
  predicate WellFormedTask(command: string, args: seq<string>) {
    args != [] && FirstQuoted(command).Some? && FirstQuoted(command).value != ""
  }

  /** `task <agent> "<prompt>"`: a format error, an unknown-agent error, or the status line
      followed by the report of the agent found. */
  function Task(agents: seq<Agent>, command: string, args: seq<string>): (out: seq<Output>)
    ensures !WellFormedTask(command, args) ==> out == [Line(FormatError)]
    ensures WellFormedTask(command, args) && FindAgent(agents, args[0]).None? ==>
              out == [Line(AgentNotFound(args[0]))]
    ensures WellFormedTask(command, args) && FindAgent(agents, args[0]).Some? ==>
              out == [Line(Executing), Line(TaskReport(FindAgent(agents, args[0]).value))]
  {
    var taskPrompt := FirstQuoted(command);
    if args == [] || taskPrompt.None? || taskPrompt.value == "" then [Line(FormatError)]
    else match FindAgent(agents, args[0])
      case None => [Line(AgentNotFound(args[0]))]
      case Some(agent) => [Line(Executing), Line(TaskReport(agent))]
  }

  // ----- the dispatcher -----

  function NotFound(cmd: string): seq<Output> {
    if cmd == "" then [] else [Line(Red("Command not found: " + cmd))]
  }

  /** The cases of the `switch (cmd.toLowerCase())`. */
  datatype Verb = Help | ClearVerb | TaskVerb | StatusVerb | LsVerb | CdVerb | CatVerb | Unknown

  function VerbOf(cmd: string): Verb {
    Classify(ToLower(cmd))
  }

  function Classify(verb: string): Verb {
    if verb == "help" then Help
    else if verb == "clear" then ClearVerb
    else if verb == "task" then TaskVerb
    else if verb == "status" then StatusVerb
    else if verb == "ls" then LsVerb
    else if verb == "cd" then CdVerb
    else if verb == "cat" then CatVerb
    else Unknown
  }

  /** The seven verbs, in any ASCII case, are the only ones with a handler. */
  lemma {:induction false} UnknownVerbs(cmd: string)
    ensures VerbOf(cmd) == Unknown <==> ToLower(cmd) !in {"help", "clear", "task", "status", "ls", "cd", "cat"}
  {
  }

  /** The verbs as the help text spells them select their own handlers. */
  lemma {:induction false} VerbsByName()
    ensures VerbOf("help") == Help && VerbOf("clear") == ClearVerb && VerbOf("task") == TaskVerb
    ensures VerbOf("status") == StatusVerb && VerbOf("ls") == LsVerb && VerbOf("cd") == CdVerb
    ensures VerbOf("cat") == CatVerb
  {
    assert ToLower("help") == "help" && ToLower("clear") == "clear" && ToLower("task") == "task";
    assert ToLower("status") == "status" && ToLower("ls") == "ls" && ToLower("cd") == "cd";
    assert ToLower("cat") == "cat";
  }

  /** The handler chosen by the verb `cmd`, run with the arguments that follow it. */
  function Dispatch(root: Node, agents: seq<Agent>, instructions: CustomInstructions, cwd: string,
                    command: string, cmd: string, args: seq<string>): (r: Reply)
    ensures VerbOf(cmd) != CdVerb ==> r.cwd == cwd
    ensures VerbOf(cmd) == Unknown ==> r == Reply(NotFound(cmd), cwd)
    ensures VerbOf(cmd) == CdVerb ==> r == Cd(root, cwd, args)
  {
    match VerbOf(cmd)
    case Help => Reply(HelpLines(), cwd)
    case ClearVerb => Reply([ClearScreen], cwd)
    case TaskVerb => Reply(Task(agents, command, args), cwd)
    case StatusVerb => Reply(StatusLines(instructions), cwd)
    case LsVerb => Reply(Ls(root, cwd, args), cwd)
    case CdVerb => Cd(root, cwd, args)
    case CatVerb => Reply(Cat(root, cwd, args), cwd)
    case Unknown => Reply(NotFound(cmd), cwd)
  }

  /** `handleCliCommand(command)` up to the final prompt: the lines it prints and the current
      directory afterwards. `root` is the node stored under `'/'`. */
  function Execute(root: Node, agents: seq<Agent>, instructions: CustomInstructions, cwd: string, command: string): (r: Reply)
    ensures var words := Tokens(command);
            VerbOf(words[0]) != CdVerb ==> r.cwd == cwd
    ensures var words := Tokens(command);
            VerbOf(words[0]) == Unknown ==> r == Reply(NotFound(words[0]), cwd)
  {
    var words := Tokens(command);
    Dispatch(root, agents, instructions, cwd, command, words[0], words[1..])
  }

  // ----- lemmas -----

  lemma {:induction false} ExecuteTokens(root: Node, agents: seq<Agent>, instructions: CustomInstructions, cwd: string,
                      command: string, verb: string, args: seq<string>)
    requires Tokens(command) == [verb] + args
    ensures Execute(root, agents, instructions, cwd, command) == Dispatch(root, agents, instructions, cwd, command, verb, args)
  {
    assert ([verb] + args)[1..] == args;
  }

  lemma {:induction false} DispatchVerbs(root: Node, agents: seq<Agent>, instructions: CustomInstructions, cwd: string,
                      command: string, verb: string, args: seq<string>)
    requires verb != []
    ensures var r := Dispatch(root, agents, instructions, cwd, command, verb, args);
            && (ToLower(verb) == "ls" ==> r == Reply(Ls(root, cwd, args), cwd))
            && (ToLower(verb) == "cd" ==> r == Cd(root, cwd, args))
            && (ToLower(verb) == "cat" ==> r == Reply(Cat(root, cwd, args), cwd))
            && (ToLower(verb) == "task" ==> r == Reply(Task(agents, command, args), cwd))
            && (VerbOf(verb) == Unknown ==> r == Reply([Line(Red("Command not found: " + verb))], cwd))
  {
    var v := ToLower(verb);
    assert VerbOf(verb) == Classify(v);
    if v == "ls" {
      assert Classify(v) == LsVerb;
    } else if v == "cd" {
      assert Classify(v) == CdVerb;
    } else if v == "cat" {
      assert Classify(v) == CatVerb;
    } else if v == "task" {
      assert Classify(v) == TaskVerb;
    }
  }

  /** The command line `verb arg ...` reaches the handler of `verb` with exactly those arguments. */
  lemma {:induction false} ExecuteWords(root: Node, agents: seq<Agent>, instructions: CustomInstructions, cwd: string,
                     verb: string, args: seq<string>)
    requires verb != [] && NoSpace(verb)
    requires forall i :: 0 <= i < |args| ==> args[i] != [] && NoSpace(args[i])
    ensures var r := Execute(root, agents, instructions, cwd, Join([verb] + args, " "));
            && (ToLower(verb) == "ls" ==> r == Reply(Ls(root, cwd, args), cwd))
            && (ToLower(verb) == "cd" ==> r == Cd(root, cwd, args))
            && (ToLower(verb) == "cat" ==> r == Reply(Cat(root, cwd, args), cwd))
            && (ToLower(verb) == "task" ==> r == Reply(Task(agents, Join([verb] + args, " "), args), cwd))
            && (VerbOf(verb) == Unknown ==> r == Reply([Line(Red("Command not found: " + verb))], cwd))
  {
    var line := Join([verb] + args, " ");
    WordsOfLine(verb, args);
    ExecuteTokens(root, agents, instructions, cwd, line, verb, args);
    DispatchVerbs(root, agents, instructions, cwd, line, verb, args);
  }

  /** Verbs are matched without regard to ASCII case: `LS`, `Ls` and `ls` run the same handler. */
  lemma {:induction false} VerbIgnoresCase(root: Node, agents: seq<Agent>, instructions: CustomInstructions, cwd: string,
                        verb1: string, verb2: string, args: seq<string>)
    requires verb1 != [] && NoSpace(verb1) && verb2 != [] && NoSpace(verb2)
    requires ToLower(verb1) == ToLower(verb2) && VerbOf(verb1) != Unknown && VerbOf(verb1) != TaskVerb
    requires forall i :: 0 <= i < |args| ==> args[i] != [] && NoSpace(args[i])
    ensures Execute(root, agents, instructions, cwd, Join([verb1] + args, " "))
         == Execute(root, agents, instructions, cwd, Join([verb2] + args, " "))
  {
    var line1 := Join([verb1] + args, " ");
    var line2 := Join([verb2] + args, " ");
    WordsOfLine(verb1, args);
    WordsOfLine(verb2, args);
    ExecuteTokens(root, agents, instructions, cwd, line1, verb1, args);
    ExecuteTokens(root, agents, instructions, cwd, line2, verb2, args);
    DispatchIgnoresCase(root, agents, instructions, cwd, line1, line2, verb1, verb2, args);
  }

  lemma {:induction false} DispatchIgnoresCase(root: Node, agents: seq<Agent>, instructions: CustomInstructions, cwd: string,
                            command1: string, command2: string, verb1: string, verb2: string, args: seq<string>)
    requires ToLower(verb1) == ToLower(verb2) && VerbOf(verb1) != Unknown && VerbOf(verb1) != TaskVerb
    ensures Dispatch(root, agents, instructions, cwd, command1, verb1, args)
         == Dispatch(root, agents, instructions, cwd, command2, verb2, args)
  {
  }

  /** After any command the current directory is the old one or a directory of the tree. */
  lemma {:induction false} ExecuteMovesOnlyToDirectories(root: Node, agents: seq<Agent>, instructions: CustomInstructions,
                                      cwd: string, command: string)
    ensures var r := Execute(root, agents, instructions, cwd, command);
            r.cwd == cwd || (IsDir(Lookup(root, r.cwd)) && |r.cwd| >= 1 && r.cwd[0] == '/')
  {
    var words := Tokens(command);
    var r := Dispatch(root, agents, instructions, cwd, command, words[0], words[1..]);
    assert Execute(root, agents, instructions, cwd, command) == r;
  }

  /** Every failure of `ls`, `cd` or `cat` prints exactly one line and keeps the directory. */
  lemma {:induction false} FailuresPrintOneLine(root: Node, cwd: string, args: seq<string>)
    ensures var lsNode := Lookup(root, Resolve(cwd, if args == [] then "." else args[0]));
            !IsDir(lsNode) ==> Ls(root, cwd, args) == [Line(LsError(if args == [] then "." else args[0]))]
    ensures var cdNode := Lookup(root, Resolve(cwd, if args == [] then HomeDirectory else args[0]));
            !IsDir(cdNode) ==> Cd(root, cwd, args) == Reply([Line(CdError(args))], cwd)
    ensures var catNode := Lookup(root, Resolve(cwd, if args == [] then "" else args[0]));
            !IsFile(catNode) ==> Cat(root, cwd, args) == [Line(CatError(args))]
  {
  }

  /** `ls` without an argument lists the current directory. */
  lemma {:induction false} LsListsCurrentDirectory(root: Node, cwd: string)
    requires DirPath(cwd) && IsDir(Lookup(root, cwd))
    ensures Ls(root, cwd, []) == [Line(Listing(Lookup(root, cwd).value.entries))]
  {
    LookupSelf(root, cwd);
  }

  /** What `ls` lists can be used: for an entry of the current directory, `cd <name>` enters it
      exactly when it is a directory, `cat <name>` prints it exactly when it is a file, and
      `ls <name>` lists it exactly when it is a directory. */
  lemma {:induction false} ListedEntriesResolve(root: Node, cwd: string, entries: seq<(string, Node)>, i: nat)
    requires DirPath(cwd) && Lookup(root, cwd) == Some(Dir(entries))
    requires forall j, k :: 0 <= j < k < |entries| ==> entries[j].0 != entries[k].0
    requires i < |entries| && IsName(entries[i].0)
    ensures var (name, node) := entries[i];
            && Cd(root, cwd, [name]) == (if node.Dir? then Reply([], PathOf(Segments(cwd) + [name]))
                                         else Reply([Line(CdError([name]))], cwd))
            && Cat(root, cwd, [name]) == (if node.File? then [Line(node.content)] else [Line(CatError([name]))])
            && Ls(root, cwd, [name]) == (if node.Dir? then [Line(Listing(node.entries))] else [Line(LsError(name))])
  {
    var (name, node) := entries[i];
    ResolveThenLookup(root, cwd, name);
    FindDistinct(entries, i);
    ResolveName(cwd, name);
  }

  /** The parent of a directory: its path without the last segment. */
  function Parent(cwd: string): string
  {
    var segs := Segments(cwd);
    PathOf(if segs == [] then [] else segs[..|segs| - 1])
  }

  /** The parent of a directory of the tree is a directory of the tree. */
  lemma {:induction false} ParentIsDir(root: Node, cwd: string)
    requires DirPath(cwd) && IsDir(Lookup(root, cwd))
    ensures IsDir(Lookup(root, Parent(cwd)))
  {
    var segs := Segments(cwd);
    if segs != [] {
      var init := segs[..|segs| - 1];
      assert segs == init + [segs[|segs| - 1]];
      WalkAppend(root, init, [segs[|segs| - 1]]);
      assert AllNames(init) by {
        forall k | 0 <= k < |init|
          ensures IsName(init[k])
        {
          assert init[k] == segs[k];
        }
      }
      LookupPathOf(root, init);
    } else {
      LookupPathOf(root, []);
    }
  }

  /** `cd ..` from a directory of the tree moves to its parent, and at the root stays there. */
  lemma {:induction false} CdParent(root: Node, cwd: string)
    requires DirPath(cwd) && IsDir(Lookup(root, cwd))
    ensures Cd(root, cwd, [".."]) == Reply([], Parent(cwd))
  {
    ResolveParent(cwd);
    ParentIsDir(root, cwd);
  }

  /** With agent names distinct after lower-casing, `task` runs the one agent whose name
      matches the token in any ASCII case. */
  lemma {:induction false} FindAgentDistinct(agents: seq<Agent>, i: nat, name: string)
    requires i < |agents| && ToLower(agents[i].name) == ToLower(name)
    requires forall j, k :: 0 <= j < k < |agents| ==> ToLower(agents[j].name) != ToLower(agents[k].name)
    ensures FindAgent(agents, name) == Some(agents[i])
    decreases i
  {
    if i > 0 {
      FindAgentDistinct(agents[1..], i - 1, name);
    }
  }

  /** A well-formed task naming a registered agent prints the status line and that agent's report. */
  lemma {:induction false} TaskRunsNamedAgent(agents: seq<Agent>, command: string, args: seq<string>, i: nat)
    requires WellFormedTask(command, args)
    requires i < |agents| && ToLower(agents[i].name) == ToLower(args[0])
    requires forall j, k :: 0 <= j < k < |agents| ==> ToLower(agents[j].name) != ToLower(agents[k].name)
    ensures Task(agents, command, args) == [Line(Executing), Line(TaskReport(agents[i]))]
  {
    FindAgentDistinct(agents, i, args[0]);
  }

  /** The quoted span `task` reads is the one between the first `"` that has a closing `"` on
      the same line and that closing `"`. */
  lemma {:induction false} FirstQuotedOfPrefix(before: string, body: string, after: string)
    requires '"' !in before
    requires forall k :: 0 <= k < |body| ==> body[k] != '"' && !IsLineTerminator(body[k])
    ensures FirstQuoted(before + "\"" + body + "\"" + after) == Some(body)
  {
    var s := before + "\"" + body + "\"" + after;
    var a := |before|;
    var b := |before| + 1 + |body|;
    assert s[a] == '"' && s[b] == '"';
    assert forall m :: a + 1 <= m < b ==> s[m] == body[m - a - 1];
    CloseQuoteAt(s, a + 1, b);
    forall a' | 0 <= a' < a
      ensures !Opens(s, a')
    {
      assert s[a'] == before[a'];
    }
    QuoteMatchAt(s, 0, a);
    assert s[a + 1..b] == body;
  }

  lemma {:induction false} CloseQuoteAt(s: string, j: nat, b: nat)
    requires j <= b < |s| && s[b] == '"' && Clean(s, j, b)
    ensures CloseQuote(s, j) == Some(b)
    decreases b - j
  {
    if j < b {
      CloseQuoteAt(s, j + 1, b);
    }
  }

  lemma {:induction false} QuoteMatchAt(s: string, i: nat, a: nat)
    requires i <= a < |s| && Opens(s, a)
    requires forall a' :: i <= a' < a ==> !Opens(s, a')
    ensures QuoteMatch(s, i) == Some((a, CloseQuote(s, a + 1).value))
    decreases a - i
  {
    if i < a {
      QuoteMatchAt(s, i + 1, a);
    }
  }

  // ----- command lines -----

  /** A one-word `ls` or `cd` line reaches its handler with no arguments, whatever the tree. */
  lemma {:induction false} BareVerbs(root: Node, agents: seq<Agent>, instructions: CustomInstructions, cwd: string)
    ensures Execute(root, agents, instructions, cwd, "ls") == Reply(Ls(root, cwd, []), cwd)
    ensures Execute(root, agents, instructions, cwd, "cd") == Cd(root, cwd, [])
  {
    assert NoSpace("ls") && NoSpace("cd");
    assert ToLower("ls") == "ls" && ToLower("cd") == "cd";
    OneWord(root, agents, instructions, cwd, "ls");
    OneWord(root, agents, instructions, cwd, "cd");
    DispatchVerbs(root, agents, instructions, cwd, "ls", "ls", []);
    DispatchVerbs(root, agents, instructions, cwd, "cd", "cd", []);
  }

  /** A one-word line reaches the dispatcher with that word and no arguments. */
  lemma {:induction false} OneWord(root: Node, agents: seq<Agent>, instructions: CustomInstructions, cwd: string,
                                   verb: string)
    requires verb != [] && NoSpace(verb)
    ensures Execute(root, agents, instructions, cwd, verb) == Dispatch(root, agents, instructions, cwd, verb, verb, [])
  {
    assert [verb] + [] == [verb];
    assert Join([verb], " ") == verb;
    WordsOfLine(verb, []);
    ExecuteTokens(root, agents, instructions, cwd, verb, verb, []);
  }

  /** A two-word line `verb arg` reaches the dispatcher with `verb` and the single argument `arg`. */
  lemma {:induction false} OneArgument(root: Node, agents: seq<Agent>, instructions: CustomInstructions, cwd: string,
                    verb: string, arg: string)
    requires verb != [] && NoSpace(verb)
    requires arg != [] && NoSpace(arg)
    ensures Execute(root, agents, instructions, cwd, verb + " " + arg)
         == Dispatch(root, agents, instructions, cwd, verb + " " + arg, verb, [arg])
  {
    assert Join([verb] + [arg], " ") == verb + " " + arg;
    WordsOfLine(verb, [arg]);
    ExecuteTokens(root, agents, instructions, cwd, verb + " " + arg, verb, [arg]);
  }

  lemma {:induction false} LsWithArgument(root: Node, agents: seq<Agent>, instructions: CustomInstructions, cwd: string, arg: string)
    requires arg != [] && NoSpace(arg)
    ensures Execute(root, agents, instructions, cwd, "ls " + arg) == Reply(Ls(root, cwd, [arg]), cwd)
  {
    assert ToLower("ls") == "ls" && NoSpace("ls");
    assert "ls " + arg == "ls" + " " + arg;
    OneArgument(root, agents, instructions, cwd, "ls", arg);
    DispatchVerbs(root, agents, instructions, cwd, "ls " + arg, "ls", [arg]);
  }

  lemma {:induction false} CdWithArgument(root: Node, agents: seq<Agent>, instructions: CustomInstructions, cwd: string, arg: string)
    requires arg != [] && NoSpace(arg)
    ensures Execute(root, agents, instructions, cwd, "cd " + arg) == Cd(root, cwd, [arg])
  {
    assert ToLower("cd") == "cd" && NoSpace("cd");
    assert "cd " + arg == "cd" + " " + arg;
    OneArgument(root, agents, instructions, cwd, "cd", arg);
    DispatchVerbs(root, agents, instructions, cwd, "cd " + arg, "cd", [arg]);
  }

  lemma {:induction false} CatWithArgument(root: Node, agents: seq<Agent>, instructions: CustomInstructions, cwd: string, arg: string)
    requires arg != [] && NoSpace(arg)
    ensures Execute(root, agents, instructions, cwd, "cat " + arg) == Reply(Cat(root, cwd, [arg]), cwd)
  {
    assert ToLower("cat") == "cat" && NoSpace("cat");
    assert "cat " + arg == "cat" + " " + arg;
    OneArgument(root, agents, instructions, cwd, "cat", arg);
    DispatchVerbs(root, agents, instructions, cwd, "cat " + arg, "cat", [arg]);
  }

  /** `Object.keys(contents).map(label).join('    ')` on a directory of three entries. */
  lemma {:induction false} ListingOfThree(entries: seq<(string, Node)>)
    requires |entries| == 3
    ensures Listing(entries) == EntryLabel(entries[0]) + "    " + EntryLabel(entries[1]) + "    " + EntryLabel(entries[2])
  {
    var labels := Labels(entries);
    assert labels[1..][1..] == [labels[2]];
    assert Join(labels[1..], "    ") == labels[1] + "    " + labels[2];
  }

  lemma {:induction false} CommandLines()
    ensures "ls /" == "ls " + "/" && NoSpace("/")
    ensures "cat profile.txt" == "cat " + "profile.txt" && NoSpace("profile.txt")
    ensures "cd documents" == "cd " + "documents" && NoSpace("documents")
  {
  }

  // ----- the home directory -----

  lemma {:induction false} HomePath()
    ensures HomeDirectory == PathOf(["home", "user"]) && AllNames(["home", "user"])
    ensures Canonical(HomeDirectory) && CanonSegs(HomeDirectory) == ["home", "user"]
  {
    assert Join(["home", "user"], "/") == "home" + "/" + Join(["user"], "/");
    CanonicalPathOf(["home", "user"]);
  }

  lemma {:induction false} HomeDirPath()
    ensures DirPath(HomeDirectory) && Segments(HomeDirectory) == ["home", "user"]
  {
    HomePath();
    CanonicalDirPath(HomeDirectory);
  }

  lemma {:induction false} HomeTopPath()
    ensures "/home" == PathOf(["home"]) && AllNames(["home"])
  {
    assert Join(["home"], "/") == "home";
  }

  /** Below a `home` directory with no entries there is no `user`. */
  lemma {:induction false} EmptyHomeHasNoUser(etc: Node, usr: Node)
    ensures Lookup(Dir([("home", Dir([])), ("etc", etc), ("usr", usr)]), HomeDirectory) == None
  {
    var root := Dir([("home", Dir([])), ("etc", etc), ("usr", usr)]);
    HomePath();
    LookupPathOf(root, ["home", "user"]);
    assert Find(root.entries, "home") == Some(Dir([]));
    assert ["home", "user"][1..] == ["user"];
    assert Walk(root, ["home", "user"]) == Walk(Dir([]), ["user"]);
    WalkOne(Dir([]), "user");
  }
}
