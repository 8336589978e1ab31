/** The interactive side of the terminal component (components/Terminal.tsx): the key handler
    that edits the command line, records history and runs commands, first as a function on
    session values, then as the component itself, a class whose fields are its refs. */
module Shell {
  import opened Strings
  import opened Types
  import opened Paths
  import opened Commands

  /** What the key handler reads from a key press: the key's text and the DOM event's
      `keyCode` and modifier flags. */
  datatype KeyEvent = KeyEvent(key: string, keyCode: int, altKey: bool, ctrlKey: bool, metaKey: bool)

  const EnterCode := 13
  const BackspaceCode := 8

  /** What `xterm.write('\b \b')` sends to erase one character. */
  const Erase := "\U{8} \U{8}"

  /** The fixed inputs of a session: the tree under `'/'`, the agents and the instructions. */
  datatype Env = Env(root: Node, agents: seq<Agent>, instructions: CustomInstructions)

  /** The mutable part of the component: the current directory, the history and its index,
      the command line being typed, and how many columns were typed since the last prompt
      (the cursor's distance from the end of the prompt). */
  datatype Session = Session(cwd: string, history: seq<string>, commandIndex: int, buffer: string, column: nat)

  /** What one key press does: the new session and what is written to the terminal. */
  datatype Step = Step(session: Session, output: seq<Output>)

  predicate Printable(ev: KeyEvent) {
    !ev.altKey && !ev.ctrlKey && !ev.metaKey
  }

  /** A key press that types the single character `c`. */
  function TypeKey(c: char): KeyEvent {
    KeyEvent([c], c as int, false, false, false)
  }

  const EnterKey := KeyEvent("\r", EnterCode, false, false, false)
  const BackspaceKey := KeyEvent("\U{7f}", BackspaceCode, false, false, false)

  function StartSession(): Session {
    Session(HomeDirectory, [], -1, "", 0)
  }

  /** The welcome line, then the first prompt. */
  function StartOutput(): seq<Output> {
    [Line(Welcome), Raw(PromptText(HomeDirectory))]
  }

  /** Enter: a line that is not blank is recorded, run, and followed by a new prompt; a blank
      line only gets a new prompt and stays in the command line. */
  function Submit(env: Env, s: Session): Step {
    if !AllSpace(s.buffer) then
      var history := s.history + [s.buffer];
      var reply := Execute(env.root, env.agents, env.instructions, s.cwd, s.buffer);
      Step(Session(reply.cwd, history, |history|, "", 0),
           [Line("")] + reply.output + [Raw(PromptText(reply.cwd))])
    else
      Step(s.(column := 0), [Raw(PromptText(s.cwd))])
  }

  /** Backspace: erases one character unless the cursor stands at the end of the prompt. */
  function Rubout(s: Session): Step {
    if s.column > 0 then
      Step(s.(buffer := if s.buffer == [] then [] else s.buffer[..|s.buffer| - 1], column := s.column - 1),
           [Raw(Erase)])
    else
      Step(s, [])
  }

  /** Any other key: appended to the command line and echoed. */
  function Insert(s: Session, key: string): Step {
    Step(s.(buffer := s.buffer + key, column := s.column + |key|), [Raw(key)])
  }

  /** The `onKey` handler: Enter and Backspace are recognised by their key codes whatever the
      modifiers; any other key is typed only without Alt, Ctrl or Meta. */
  function KeyStep(env: Env, s: Session, ev: KeyEvent): Step {
    if ev.keyCode == EnterCode then Submit(env, s)
    else if ev.keyCode == BackspaceCode then Rubout(s)
    else if Printable(ev) then Insert(s, ev.key)
    else Step(s, [])
  }

  /** A run of key presses handled one after the other by `step`, with everything they write. */
  function Run(step: (Session, KeyEvent) -> Step, s: Session, events: seq<KeyEvent>): Step
    decreases |events|
  {
    if events == [] then Step(s, [])
    else
      var first := step(s, events[0]);
      var rest := Run(step, first.session, events[1..]);
      Step(rest.session, first.output + rest.output)
  }

  /** The handler installed by the component for the given environment. */
  function Handler(env: Env): (Session, KeyEvent) -> Step {
    (t, ev) => KeyStep(env, t, ev)
  }

  /** A run of key presses in a session of the component. */
  function Feed(env: Env, s: Session, events: seq<KeyEvent>): Step {
    Run(Handler(env), s, events)
  }

  function TypeKeys(line: string): (events: seq<KeyEvent>)
    ensures |events| == |line|
    ensures forall i :: 0 <= i < |line| ==> events[i] == TypeKey(line[i])
  {
    seq(|line|, i requires 0 <= i < |line| => TypeKey(line[i]))
  }

  function Echo(line: string): (out: seq<Output>)
    ensures |out| == |line|
    ensures forall i :: 0 <= i < |line| ==> out[i] == Raw([line[i]])
  {
    seq(|line|, i requires 0 <= i < |line| => Raw([line[i]]))
  }

  /** The relations a session keeps: the cursor never stands further from the prompt than the
      command line is long, the history index points past the last entry once there is one,
      and the current directory is the starting one or a directory of the tree. */
  predicate SessionValid(env: Env, s: Session) {
    && s.column <= |s.buffer|
    && (if s.history == [] then s.commandIndex == -1 else s.commandIndex == |s.history|)
    && (forall i :: 0 <= i < |s.history| ==> !AllSpace(s.history[i]))
    && |s.cwd| >= 1 && s.cwd[0] == '/'
    && (s.cwd == HomeDirectory || IsDir(Lookup(env.root, s.cwd)))
  }

  // ----- lemmas -----

  lemma {:induction false} StartValid(env: Env)
    ensures SessionValid(env, StartSession())
  {
  }

  /** In a well-formed tree the current directory of a valid session is a directory path, so
      `ls`, `cd <name>`, `cat <name>` and `cd ..` behave as the directory lemmas of the commands
      describe, whatever slashes the user typed to get there. */
  lemma {:induction false} SessionCwdIsDirPath(env: Env, s: Session)
    requires WellFormed(env.root) && SessionValid(env, s)
    ensures DirPath(s.cwd)
  {
    if s.cwd == HomeDirectory {
      HomeDirPath();
    } else {
      ReachedDirPath(env.root, s.cwd);
    }
  }

  /** Every key press keeps a valid session valid. */
  lemma {:induction false} KeyStepValid(env: Env, s: Session, ev: KeyEvent)
    requires SessionValid(env, s)
    ensures SessionValid(env, KeyStep(env, s, ev).session)
  {
    if ev.keyCode == EnterCode {
      SubmitValid(env, s);
    } else if ev.keyCode == BackspaceCode {
      assert KeyStep(env, s, ev) == Rubout(s);
    } else if Printable(ev) {
      assert KeyStep(env, s, ev) == Insert(s, ev.key);
    }
  }

  lemma {:induction false} SubmitValid(env: Env, s: Session)
    requires SessionValid(env, s)
    ensures SessionValid(env, Submit(env, s).session)
  {
    if !AllSpace(s.buffer) {
      var h := s.history + [s.buffer];
      forall i | 0 <= i < |h|
        ensures !AllSpace(h[i])
      {
        if i < |s.history| {
          assert h[i] == s.history[i];
        } else {
          assert h[i] == s.buffer;
        }
      }
      ExecuteMovesOnlyToDirectories(env.root, env.agents, env.instructions, s.cwd, s.buffer);
    }
  }

  lemma {:induction false} RunPreserves(step: (Session, KeyEvent) -> Step, inv: Session -> bool,
                                        s: Session, events: seq<KeyEvent>)
    requires forall t, ev :: inv(t) ==> inv(step(t, ev).session)
    requires inv(s)
    ensures inv(Run(step, s, events).session)
    decreases |events|
  {
    if events != [] {
      RunPreserves(step, inv, step(s, events[0]).session, events[1..]);
    }
  }

  /** Any run of key presses keeps a valid session valid. */
  lemma {:induction false} FeedValid(env: Env, s: Session, events: seq<KeyEvent>)
    requires SessionValid(env, s)
    ensures SessionValid(env, Feed(env, s, events).session)
  {
    var inv := (t: Session) => SessionValid(env, t);
    forall t, ev | inv(t)
      ensures inv(Handler(env)(t, ev).session)
    {
      KeyStepValid(env, t, ev);
    }
    RunPreserves(Handler(env), inv, s, events);
  }

  /** The history grows only on Enter, by exactly the line typed, and never records a blank line. */
  lemma {:induction false} HistoryRecordsCommands(env: Env, s: Session, ev: KeyEvent)
    ensures var r := KeyStep(env, s, ev).session;
            if ev.keyCode == EnterCode && !AllSpace(s.buffer)
            then r.history == s.history + [s.buffer] && r.commandIndex == |r.history| && r.buffer == ""
            else r.history == s.history && r.commandIndex == s.commandIndex
  {
  }

  /** A printable character other than the Enter and Backspace codes is typed. */
  lemma {:induction false} KeyTypes(env: Env, s: Session, c: char)
    requires c as int != EnterCode && c as int != BackspaceCode
    ensures KeyStep(env, s, TypeKey(c)) == Insert(s, [c])
  {
  }

  lemma {:induction false} TypeKeysCons(line: string)
    requires line != []
    ensures TypeKeys(line)[1..] == TypeKeys(line[1..])
  {
  }

  lemma {:induction false} TypedCons(buffer: string, line: string)
    requires line != []
    ensures buffer + [line[0]] + line[1..] == buffer + line
    ensures [Raw([line[0]])] + Echo(line[1..]) == Echo(line)
  {
    assert [line[0]] + line[1..] == line;
  }

  lemma {:induction false} RunTypes(step: (Session, KeyEvent) -> Step, s: Session, line: string)
    requires forall t, c :: c in line ==> step(t, TypeKey(c)) == Insert(t, [c])
    ensures Run(step, s, TypeKeys(line))
         == Step(s.(buffer := s.buffer + line, column := s.column + |line|), Echo(line))
    decreases |line|
  {
    if line != [] {
      var s1 := s.(buffer := s.buffer + [line[0]], column := s.column + 1);
      assert line[0] in line;
      assert step(s, TypeKey(line[0])) == Step(s1, [Raw([line[0]])]);
      TypeKeysCons(line);
      assert forall c :: c in line[1..] ==> c in line;
      RunTypes(step, s1, line[1..]);
      TypedCons(s.buffer, line);
    } else {
      assert s.buffer + line == s.buffer;
    }
  }

  /** Typing characters that are not Enter or Backspace appends them to the command line and
      echoes each of them, and the session is otherwise unchanged. */
  lemma {:induction false} TypingAppends(env: Env, s: Session, line: string)
    requires forall i :: 0 <= i < |line| ==> line[i] as int != EnterCode && line[i] as int != BackspaceCode
    ensures Feed(env, s, TypeKeys(line))
         == Step(s.(buffer := s.buffer + line, column := s.column + |line|), Echo(line))
  {
    forall t, c | c in line
      ensures Handler(env)(t, TypeKey(c)) == Insert(t, [c])
    {
      KeyTypes(env, t, c);
    }
    RunTypes(Handler(env), s, line);
  }

  lemma {:induction false} RunAppend(step: (Session, KeyEvent) -> Step, s: Session, a: seq<KeyEvent>, b: seq<KeyEvent>)
    ensures var r := Run(step, s, a);
            Run(step, s, a + b) == Step(Run(step, r.session, b).session, r.output + Run(step, r.session, b).output)
    decreases |a|
  {
    if a == [] {
      assert a + b == b;
    } else {
      assert (a + b)[0] == a[0] && (a + b)[1..] == a[1..] + b;
      var first := step(s, a[0]);
      var mid := Run(step, first.session, a[1..]);
      var last := Run(step, mid.session, b);
      RunAppend(step, first.session, a[1..], b);
      assert first.output + (mid.output + last.output) == (first.output + mid.output) + last.output;
    }
  }

  /** Typing a command at an empty prompt and pressing Enter runs exactly that command: it is
      recorded in the history, its output follows the echo and a blank line, and a fresh
      prompt for the new directory ends the output. */
  lemma {:induction false} TypeCommandThenEnter(env: Env, s: Session, line: string)
    requires s.buffer == "" && !AllSpace(line)
    requires forall i :: 0 <= i < |line| ==> line[i] as int != EnterCode && line[i] as int != BackspaceCode
    ensures var r := Feed(env, s, TypeKeys(line) + [EnterKey]);
            var reply := Execute(env.root, env.agents, env.instructions, s.cwd, line);
            && r.session == Session(reply.cwd, s.history + [line], |s.history| + 1, "", 0)
            && r.output == Echo(line) + [Line("")] + reply.output + [Raw(PromptText(reply.cwd))]
  {
    var typed := s.(buffer := line, column := s.column + |line|);
    TypingAppends(env, s, line);
    assert s.buffer + line == line;
    FeedThenEnter(env, s, TypeKeys(line), typed, Echo(line));
    SubmitRuns(env, typed);
    var reply := Execute(env.root, env.agents, env.instructions, s.cwd, line);
    Regroup(Echo(line), [Line("")], reply.output, [Raw(PromptText(reply.cwd))]);
  }

  lemma {:induction false} SubmitBlank(env: Env, t: Session)
    requires AllSpace(t.buffer)
    ensures Submit(env, t) == Step(t.(column := 0), [Raw(PromptText(t.cwd))])
  {
  }

  lemma {:induction false} Regroup(a: seq<Output>, b: seq<Output>, c: seq<Output>, d: seq<Output>)
    ensures a + (b + c + d) == a + b + c + d
  {
  }

  lemma {:induction false} EnterSubmits(env: Env, t: Session)
    ensures Run(Handler(env), t, [EnterKey]) == Step(Submit(env, t).session, Submit(env, t).output + [])
  {
    assert [EnterKey][1..] == [];
  }

  lemma {:induction false} FeedThenEnter(env: Env, s: Session, events: seq<KeyEvent>, typed: Session, echo: seq<Output>)
    requires Feed(env, s, events) == Step(typed, echo)
    ensures Feed(env, s, events + [EnterKey]) == Step(Submit(env, typed).session, echo + Submit(env, typed).output)
  {
    EnterSubmits(env, typed);
    RunAppend(Handler(env), s, events, [EnterKey]);
  }

  lemma {:induction false} SubmitRuns(env: Env, t: Session)
    requires !AllSpace(t.buffer)
    ensures var reply := Execute(env.root, env.agents, env.instructions, t.cwd, t.buffer);
            Submit(env, t) == Step(Session(reply.cwd, t.history + [t.buffer], |t.history| + 1, "", 0),
                                   [Line("")] + reply.output + [Raw(PromptText(reply.cwd))])
  {
  }

  /** Enter on a line that is not blank, as one regrouped piece of output after any screen. */
  lemma {:induction false} SubmitOutcome(env: Env, t: Session, reply: Reply, screen: seq<Output>)
    requires !AllSpace(t.buffer)
    requires reply == Execute(env.root, env.agents, env.instructions, t.cwd, t.buffer)
    ensures Submit(env, t).session == Session(reply.cwd, t.history + [t.buffer], |t.history| + 1, "", 0)
    ensures screen + Submit(env, t).output == screen + [Line("")] + reply.output + [Raw(PromptText(reply.cwd))]
  {
    SubmitRuns(env, t);
    Regroup(screen, [Line("")], reply.output, [Raw(PromptText(reply.cwd))]);
  }

  /** Backspace right after typing a character takes it back off the command line. */
  lemma {:induction false} BackspaceUndoesKey(env: Env, s: Session, c: char)
    requires c as int != EnterCode && c as int != BackspaceCode
    ensures var r := Feed(env, s, [TypeKey(c), BackspaceKey]);
            r.session == s && r.output == [Raw([c]), Raw(Erase)]
  {
    KeyTypes(env, s, c);
    var s1 := Insert(s, [c]).session;
    assert (s.buffer + [c])[..|s.buffer|] == s.buffer;
    assert Run(Handler(env), s1, [BackspaceKey]) == Step(Rubout(s1).session, Rubout(s1).output + []);
  }

  /** Backspace at the end of the prompt does nothing, even when a blank Enter left white
      space in the command line. */
  lemma {:induction false} BackspaceAtPrompt(env: Env, s: Session)
    requires s.column == 0
    ensures KeyStep(env, s, BackspaceKey) == Step(s, [])
  {
  }

  /** Enter on a blank line prompts again in the same directory; the history, the directory
      and the command line stay as they were. */
  lemma {:induction false} BlankEnterOnlyPrompts(env: Env, s: Session)
    requires AllSpace(s.buffer)
    ensures KeyStep(env, s, EnterKey) == Step(s.(column := 0), [Raw(PromptText(s.cwd))])
  {
  }

  /** Keys held with Alt, Ctrl or Meta are ignored, apart from Enter and Backspace. */
  lemma {:induction false} ModifiedKeysIgnored(env: Env, s: Session, ev: KeyEvent)
    requires ev.keyCode != EnterCode && ev.keyCode != BackspaceCode && !Printable(ev)
    ensures KeyStep(env, s, ev) == Step(s, [])
  {
  }

  // ----- the component -----

  /** The terminal component: the filesystem copy, the current directory, the history and
      its index are the component's refs; `buffer` and `column` are the handler's
      `currentCommand` and the cursor's distance from the prompt; `screen` is everything
      written to the terminal so far. The instructions are those the component was mounted
      with. */
  class Terminal {
    const fileSystem: map<string, Node>
    const agents: seq<Agent>
    const instructions: CustomInstructions
    var cwd: string
    var history: seq<string>
    var commandIndex: int
    var buffer: string
    var column: nat
    var screen: seq<Output>

    function Root(): Node
      requires "/" in fileSystem
    {
      fileSystem["/"]
    }

    function Environment(): Env
      requires "/" in fileSystem
    {
      Env(Root(), agents, instructions)
    }

    function State(): Session
      reads this
    {
      Session(cwd, history, commandIndex, buffer, column)
    }

    predicate Valid()
      reads this
    {
      "/" in fileSystem && SessionValid(Environment(), State())
    }

    /** Mounting: the welcome line and the first prompt, in the home directory. */
    constructor (fileSystem: map<string, Node>, agents: seq<Agent>, instructions: CustomInstructions)
      requires "/" in fileSystem
      ensures this.fileSystem == fileSystem && this.agents == agents && this.instructions == instructions
      ensures State() == StartSession() && screen == StartOutput()
      ensures Valid()
    {
      this.fileSystem := fileSystem;
      this.agents := agents;
      this.instructions := instructions;
      cwd := HomeDirectory;
      history := [];
      commandIndex := -1;
      buffer := "";
      column := 0;
      screen := [Line(Welcome)];
      new;
      Prompt();
    }

    /** `prompt()`: writes the prompt for the current directory; the cursor then stands at its end. */
    method Prompt()
      modifies this
      ensures screen == old(screen) + [Raw(PromptText(cwd))]
      ensures column == 0
      ensures cwd == old(cwd) && history == old(history) && commandIndex == old(commandIndex) && buffer == old(buffer)
    {
      screen := screen + [Raw(PromptText(cwd))];
      column := 0;
    }

    /** `handleCliCommand(command)`: runs the command's handler, then prompts. */
    method HandleCliCommand(command: string)
      requires "/" in fileSystem
      modifies this
      ensures cwd == Execute(Root(), agents, instructions, old(cwd), command).cwd
      ensures screen == old(screen) + Execute(Root(), agents, instructions, old(cwd), command).output
                        + [Raw(PromptText(cwd))]
      ensures column == 0
      ensures history == old(history) && commandIndex == old(commandIndex) && buffer == old(buffer)
    {
      var words := Tokens(command);
      var cmd := words[0];
      var args := words[1..];
      assert Execute(Root(), agents, instructions, cwd, command)
          == Dispatch(Root(), agents, instructions, cwd, command, cmd, args);
      RunVerb(command, cmd, args);
      Prompt();
    }

    /** The `switch (cmd.toLowerCase())` of `handleCliCommand`: writes what the verb's case writes. */
    method RunVerb(command: string, cmd: string, args: seq<string>)
      requires "/" in fileSystem
      modifies this
      ensures cwd == Dispatch(Root(), agents, instructions, old(cwd), command, cmd, args).cwd
      ensures screen == old(screen) + Dispatch(Root(), agents, instructions, old(cwd), command, cmd, args).output
      ensures history == old(history) && commandIndex == old(commandIndex)
      ensures buffer == old(buffer) && column == old(column)
    {
      ghost var expected := Dispatch(Root(), agents, instructions, cwd, command, cmd, args);
      match VerbOf(cmd) {
        case Help =>
          screen := screen + HelpLines();
          assert expected == Reply(HelpLines(), cwd);
        case ClearVerb =>
          screen := screen + [ClearScreen];
          assert expected == Reply([ClearScreen], cwd);
        case TaskVerb =>
          screen := screen + Task(agents, command, args);
          assert expected == Reply(Task(agents, command, args), cwd);
        case StatusVerb =>
          screen := screen + StatusLines(instructions);
          assert expected == Reply(StatusLines(instructions), cwd);
        case LsVerb =>
          assert expected == Reply(Ls(Root(), cwd, args), cwd);
          RunLs(args);
        case CdVerb =>
          assert expected == Cd(Root(), cwd, args);
          RunCd(args);
        case CatVerb =>
          assert expected == Reply(Cat(Root(), cwd, args), cwd);
          RunCat(args);
        case Unknown =>
          assert expected == Reply(NotFound(cmd), cwd);
          if cmd != "" {
            screen := screen + [Line(Red("Command not found: " + cmd))];
          }
      }
    }

    /** The `ls` case: lists the directory the argument (or `.`) resolves to. */
    method RunLs(args: seq<string>)
      requires "/" in fileSystem
      modifies this
      ensures screen == old(screen) + Ls(Root(), cwd, args)
      ensures State() == old(State())
    {
      var target := if args == [] then "." else args[0];
      var path := ResolvePath(cwd, target);
      var node := GetNode(Root(), path);
      if node.Some? && node.value.Dir? {
        screen := screen + [Line(Listing(node.value.entries))];
      } else {
        screen := screen + [Line(LsError(target))];
      }
    }

    /** The `cd` case: moves to the directory the argument (or the home directory) resolves to. */
    method RunCd(args: seq<string>)
      requires "/" in fileSystem
      modifies this
      ensures var reply := Cd(Root(), old(cwd), args);
              screen == old(screen) + reply.output && cwd == reply.cwd
      ensures history == old(history) && commandIndex == old(commandIndex)
      ensures buffer == old(buffer) && column == old(column)
    {
      var newPath := ResolvePath(cwd, if args == [] then HomeDirectory else args[0]);
      var node := GetNode(Root(), newPath);
      if node.Some? && node.value.Dir? {
        cwd := if newPath == "" then "/" else newPath;
      } else {
        screen := screen + [Line(CdError(args))];
      }
    }

    /** The `cat` case: prints the file the argument resolves to. */
    method RunCat(args: seq<string>)
      requires "/" in fileSystem
      modifies this
      ensures screen == old(screen) + Cat(Root(), cwd, args)
      ensures State() == old(State())
    {
      var path := ResolvePath(cwd, if args == [] then "" else args[0]);
      var node := GetNode(Root(), path);
      if node.Some? && node.value.File? {
        screen := screen + [Line(node.value.content)];
      } else {
        screen := screen + [Line(CatError(args))];
      }
    }

    /** The first half of Enter on a line that is not blank: a line break after the echo, and
        the line appended to the history with the index moved past it. */
    method RecordLine()
      modifies this
      ensures screen == old(screen) + [Line("")]
      ensures history == old(history) + [old(buffer)] && commandIndex == |history|
      ensures cwd == old(cwd) && buffer == old(buffer) && column == old(column)
    {
      screen := screen + [Line("")];
      history := history + [buffer];
      commandIndex := |history|;
    }

    /** Enter on a line that is not blank: the line is recorded, run as a command, and the
        command line emptied. */
    method RunLine()
      requires "/" in fileSystem
      modifies this
      ensures cwd == Execute(Root(), agents, instructions, old(cwd), old(buffer)).cwd
      ensures screen == old(screen) + [Line("")] + Execute(Root(), agents, instructions, old(cwd), old(buffer)).output
                        + [Raw(PromptText(cwd))]
      ensures history == old(history) + [old(buffer)] && commandIndex == |history|
      ensures buffer == "" && column == 0
    {
      var command := buffer;
      RecordLine();
      HandleCliCommand(command);
      buffer := "";
    }

    /** Enter, in place. */
    method SubmitLine()
      requires "/" in fileSystem
      modifies this
      ensures State() == Submit(Environment(), old(State())).session
      ensures screen == old(screen) + Submit(Environment(), old(State())).output
    {
      if !AllSpace(buffer) {
        SubmitOutcome(Environment(), State(), Execute(Root(), agents, instructions, cwd, buffer), screen);
        RunLine();
      } else {
        SubmitBlank(Environment(), State());
        Prompt();
      }
    }

    /** Backspace, in place. */
    method RuboutChar()
      modifies this
      ensures State() == Rubout(old(State())).session
      ensures screen == old(screen) + Rubout(old(State())).output
    {
      if column > 0 {
        buffer := if buffer == [] then [] else buffer[..|buffer| - 1];
        screen := screen + [Raw(Erase)];
        column := column - 1;
      }
    }

    /** A typed key, in place. */
    method InsertKey(key: string)
      modifies this
      ensures State() == Insert(old(State()), key).session
      ensures screen == old(screen) + Insert(old(State()), key).output
    {
      buffer := buffer + key;
      screen := screen + [Raw(key)];
      column := column + |key|;
    }

    /** The `onKey` handler, in place. */
    method OnKey(ev: KeyEvent)
      requires Valid()
      modifies this
      ensures State() == KeyStep(Environment(), old(State()), ev).session
      ensures screen == old(screen) + KeyStep(Environment(), old(State()), ev).output
      ensures Valid()
    {
      KeyStepValid(Environment(), State(), ev);
      if ev.keyCode == EnterCode {
        SubmitLine();
      } else if ev.keyCode == BackspaceCode {
        RuboutChar();
      } else if !ev.altKey && !ev.ctrlKey && !ev.metaKey {
        InsertKey(ev.key);
      }
    }
  }
}
