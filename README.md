# CUA Orchestration — a verified model of the agent terminal and the chat formatting

The application is a browser dashboard for a family of AI agents. This project models its
logic-bearing core in Dafny:

- **The agent command line** (`components/Terminal.tsx`). It covers:
  - the simulated filesystem: `getNode` walks the tree from the node stored under `'/'`, and
    `resolvePath` turns a relative path into an absolute one;
  - the command interpreter `handleCliCommand`, with the verbs `help`, `clear`, `task`,
    `status`, `ls`, `cd` and `cat`, and the "Command not found" fallback;
  - the `prompt` and the `onKey` handler, which edits the command line, records the history
    and runs commands on Enter.

  The interpreter is written as pure functions, as a specification. The component is a class
  whose methods change its fields in place: the current directory, the history and its index,
  the command line, the cursor column and the screen transcript. Each method is proved
  against those functions.
- **The chat pane's markdown converter** (`App.tsx`): `applyInlineFormatting` and
  `parseMarkdown`. The converter's loop state is a class whose methods mirror the
  `flushParagraph` and `flushList` closures and the branches of the loop. They are proved
  against a functional reading of the loop. That reading is proved to close every code block
  and every list it opens, and to place list items only inside lists. Inline tags produced
  by the formatting regular expressions can still cross, and text outside code blocks is not
  escaped.
- **The chat service** (`services/gemini.ts`): how the history becomes the request
  `contents`, how the custom instructions become the `systemInstruction` and the request
  `config`, and the two fallback replies of the error handler.
- **The seed data** (`constants.tsx`): the codex (agents, tools, chained bookmarks) and the
  initial filesystem, with the facts about them the terminal relies on.

Terminal output is modelled as a transcript of `writeln` lines, raw `write`s and `clear`
calls. The ANSI colour escapes are kept verbatim. JavaScript's `trim`, `split`, `join`,
`toLowerCase` and the few regular expressions the source uses are written out in the
`Strings` module and beside their users. `toLowerCase` is modelled on ASCII letters.

Modules: `Strings`, `Types`, `Paths`, `Commands`, `Shell`, `Seed`, `Codex`, `Grafting`,
`Startup`, `Markdown`, `Gemini`.

The model follows the code, including where it may surprise a reader:
- absolute arguments are returned by `resolvePath` as they are, with no normalisation;
- nothing stops a second command while `task` is waiting;
- a missing argument prints as `undefined` in the `cd` and `cat` errors;
- `status` prints the instructions the component was mounted with, because the key handler
  is installed once, at mount.

## Model

| member | source | states |
|---|---|---|
| Strings.SkipSpace | components/Terminal.tsx:52 | the index returned is the first at or after `i` that is not white space, everything skipped being white space |
| Strings.SkipSpaceBack | components/Terminal.tsx:52 | the index returned is just past the last character before `j` that is not white space, everything skipped being white space |
| Strings.Trim | components/Terminal.tsx:52 | `trim()` is empty exactly when the string is all white space, and otherwise neither starts nor ends with white space |
| Strings.TrimStripsSpace | components/Terminal.tsx:52 | `trim()` returns an infix of the string, and what it removes from each end is white space |
| Strings.TrimUnchanged | App.tsx:158 | a string that neither starts nor ends with white space is its own trim |
| Strings.WordLength | components/Terminal.tsx:52 | the length of the leading run of non-space characters, followed by a space or the end |
| Strings.Words | components/Terminal.tsx:52 | the maximal runs of non-space characters: each is non-empty and holds no white space |
| Strings.Tokens | components/Terminal.tsx:52 | `trim().split(/\s+/)` is never empty; its first token is empty exactly for a blank line, and every later token is a non-empty word (`TokensAreWords` says which words) |
| Strings.Split | components/Terminal.tsx:24 | `split` on one character gives at least one piece, and no piece holds the separator |
| Strings.ToLower | components/Terminal.tsx:56 | `toLowerCase` keeps the length, maps each character on its own and leaves no upper-case ASCII letter |
| Strings.JoinSplit | components/Terminal.tsx:47 | joining the pieces of a split on the same separator gives back the string |
| Strings.SplitNoSeparator | components/Terminal.tsx:38 | a string without the separator splits into itself alone |
| Strings.SplitCons | components/Terminal.tsx:38 | splitting `c + t`: the first character either ends the first piece or joins it |
| Strings.SplitAtSeparator | components/Terminal.tsx:38 | `split` on `a + sep + b` is the split of `a` followed by the split of `b` |
| Strings.SplitJoin | components/Terminal.tsx:38 | joining separator-free pieces and splitting again gives back the pieces |
| Strings.WordsJoin | components/Terminal.tsx:52 | words joined by single spaces are found again by the whitespace splitter |
| Strings.WordLengthOfWord | components/Terminal.tsx:52 | the leading run of a word followed by a space or the end is that word |
| Strings.JoinLast | App.tsx:127 | a join ends with the last character of its last part |
| Strings.JoinSnoc | App.tsx:127 | joining one more part appends the separator and that part |
| Strings.JoinEnds | components/Terminal.tsx:52 | a join starts with the first part's first character and ends with the last part's last character |
| Strings.TokensOfJoin | components/Terminal.tsx:52 | a line of words separated by single spaces tokenises back into exactly those words |
| Strings.WordsOfLine | components/Terminal.tsx:52 | a command line `verb arg ...` tokenises into the verb followed by the arguments |
| Strings.WordsOfWord | components/Terminal.tsx:52 | a non-empty string without white space is a single token |
| Strings.WordLengthAppend | components/Terminal.tsx:52 | a run of non-space characters ends at the first white space, whatever follows |
| Strings.WordsAtSpace | components/Terminal.tsx:52 | white space splits: the tokens of `a`, a space, then `b` are the tokens of `a` followed by those of `b`, so no token spans white space |
| Strings.WordsAfterWord | components/Terminal.tsx:52 | a string that starts with a whole word splits into that word followed by the words of the rest |
| Strings.WordsAfterSpace | components/Terminal.tsx:52 | leading white space adds no token |
| Strings.WordsBeforeSpace | components/Terminal.tsx:52 | trailing white space adds no token |
| Strings.WordsOfInfix | components/Terminal.tsx:52 | cutting white space from both ends of a string keeps its words |
| Strings.TokensAreWords | components/Terminal.tsx:52 | the tokens of a non-blank line are exactly its maximal runs of non-space characters, in order |
| Paths.NonEmpty | components/Terminal.tsx:24 | every piece `filter(p => p)` keeps is non-empty and one of the input's pieces |
| Paths.Segments | components/Terminal.tsx:24 | the pieces `getNode` walks are the non-empty pieces between slashes, none holding `/` |
| Paths.Find | components/Terminal.tsx:27 | `contents[part]` finds an entry of that name, and fails exactly when there is none |
| Paths.WalkOne | components/Terminal.tsx:26-31 | one step of the walk enters a directory's entry and fails below a file or a missing entry |
| Paths.GetNode | components/Terminal.tsx:23-34 | the loop of `getNode` returns the node the segment-by-segment walk from `'/'` reaches, or nothing when a segment is missing or stands below a file |
| Paths.Resolve | components/Terminal.tsx:36-48 | a path starting with `/` is returned as it is; otherwise the result is absolute and free of empty, `.` and `..` segments |
| Paths.ResolvePath | components/Terminal.tsx:36-48 | the iterative `resolvePath` returns the path `Resolve` specifies: the input itself when absolute, otherwise a canonical path |
| Paths.ResolveParts | components/Terminal.tsx:39-46 | the loop's stack ends as the normalisation of all the parts: `..` pops, empty and `.` pieces are dropped |
| Paths.NonEmptyCons | components/Terminal.tsx:24 | filtering works piece by piece from the front |
| Paths.NonEmptyAppend | components/Terminal.tsx:24 | filtering a concatenation concatenates the filtered halves |
| Paths.NonEmptyOfNames | components/Terminal.tsx:24 | a list of names passes the filter unchanged |
| Paths.NormalizeNames | components/Terminal.tsx:39-46 | the resolver's stack only ever holds names |
| Paths.NormalizeAppend | components/Terminal.tsx:40-46 | resolving `a + b` resolves `a`, then continues with `b` from that stack |
| Paths.NormalizeOfNames | components/Terminal.tsx:40-46 | names are pushed one by one, so normalising names appends them |
| Paths.CanonicalPathOf | components/Terminal.tsx:47 | `'/' + names.join('/')` is a canonical absolute path |
| Paths.SegmentsOfCanonical | components/Terminal.tsx:24 | the segments `getNode` walks on a canonical path are the path's own segments |
| Paths.PathOfCanonSegs | components/Terminal.tsx:47 | a canonical path is rebuilt from its segments |
| Paths.ResolveRelative | components/Terminal.tsx:38 | a relative path from a canonical directory resolves the directory's segments followed by the input's pieces |
| Paths.ResolveParent | components/Terminal.tsx:41-42 | `..` drops the last segment of any directory path the shell can stand in, and at the root stays at `/` |
| Paths.ResolveSelf | components/Terminal.tsx:43 | `.` and the empty path resolve to the canonical current directory itself |
| Paths.PathOfAppend | components/Terminal.tsx:47 | below a directory other than the root, an entry's path is the directory's path, `/`, then the name |
| Paths.ResolveName | components/Terminal.tsx:36-48 | a name resolves to the child path of any directory path the shell can stand in, slashes repeated or trailing included |
| Paths.SplitUps | components/Terminal.tsx:38 | `n` copies of `../` before a name split into `n` times `..`, then the name |
| Paths.NormalizeDotsAtRoot | components/Terminal.tsx:41-42 | popping the empty stack is a no-op, so any number of `..` at the root leaves it empty |
| Paths.ClampAtRoot | components/Terminal.tsx:41-42 | from `/`, any number of `../` before a name resolves to `/name` |
| Paths.DotDotClamps | components/Terminal.tsx:41-42 | from `/`, `../../../x` resolves to `/x` |
| Paths.ResolveIdempotent | components/Terminal.tsx:36-48 | resolving an already resolved path gives it back unchanged |
| Paths.WalkAppend | components/Terminal.tsx:26-32 | walking `a + b` is walking `a`, then `b` from there |
| Paths.LookupSlashesOnly | components/Terminal.tsx:24-25 | a path made of slashes only names the node under `'/'` |
| Paths.LookupAppend | components/Terminal.tsx:23-34 | appending `/name` to a path takes one more step, into the directory entry `name` |
| Paths.SegmentsOfChild | components/Terminal.tsx:36-48 | a name resolved against a directory path has the directory's segments followed by the name |
| Paths.ResolveThenLookup | components/Terminal.tsx:23-48 | an entry of a directory reached through any directory path is found again by resolving its name there |
| Paths.FindDistinct | components/Terminal.tsx:27 | with distinct names, `contents[name]` returns the node stored under that name |
| Paths.LookupPathOf | components/Terminal.tsx:23-34 | a path built from names leads where the walk through those names leads |
| Paths.NormalizeSkipsEmpty | components/Terminal.tsx:43 | empty pieces never change the stack: normalising sees only the non-empty pieces |
| Paths.NormalizeKept | components/Terminal.tsx:40-46 | pieces that are empty or names push exactly the names, in order |
| Paths.ResolveFrom | components/Terminal.tsx:36-48 | a relative path from a directory path resolves the directory's segments, with empty pieces dropped, followed by the input's pieces |
| Paths.CanonicalDirPath | components/Terminal.tsx:24 | every canonical path is a directory path whose segments are its own |
| Paths.WalkNames | components/Terminal.tsx:26-32 | every piece of a walk that reaches a node of a well-formed tree is a name |
| Paths.ReachedDirPath | components/Terminal.tsx:23-34 | every absolute path that reaches a node of a well-formed tree is a directory path |
| Paths.LookupSelf | components/Terminal.tsx:43 | `.` from a directory path reaches what the directory path reaches |
| Paths.Lookup | components/Terminal.tsx:23-34 | `getNode`: specified by `LookupPathOf`, `LookupAppend`, `LookupSlashesOnly` and `ResolveThenLookup` |
| Paths.Walk | components/Terminal.tsx:26-32 | the loop of `getNode`: specified by `WalkAppend`, `WalkOne` and `WalkNames` |
| Paths.Normalize | components/Terminal.tsx:40-46 | the loop of `resolvePath`: specified by `NormalizeAppend`, `NormalizeKept`, `NormalizeNames` and `ClampAtRoot` |
| Paths.Push | components/Terminal.tsx:41-45 | one step of that loop: `..` pops (nothing at the root), `.` and empty pieces are skipped, anything else is pushed; specified with `Normalize` |
| Commands.Labels | components/Terminal.tsx:94-96 | one label per entry, in stored order: a blue `name/` for a directory, a green name for a file |
| Commands.Ls | components/Terminal.tsx:91-101 | `ls` prints the listing of the resolved directory (argument or `.`), or one error line naming the argument |
| Commands.Cd | components/Terminal.tsx:102-110 | `cd` moves to the resolved path (argument or `/home/user`) exactly when it names a directory; otherwise it prints one error line and stays |
| Commands.Cat | components/Terminal.tsx:111-118 | `cat` prints one line: a file's content exactly when the resolved path names a file, otherwise the error line |
| Commands.CloseQuote | components/Terminal.tsx:71 | the lazy `(.*?)"` closes at the first quote not preceded by a line terminator, and fails when no such quote exists |
| Commands.QuoteMatch | components/Terminal.tsx:71 | the match of `/"(.*?)"/` is the leftmost quote that has a closing quote |
| Commands.FirstQuoted | components/Terminal.tsx:71 | the captured prompt is absent exactly when no quote opens a match; it holds no quote and no line terminator |
| Commands.FindAgent | components/Terminal.tsx:75 | `find` returns the first agent whose lower-cased name equals the lower-cased argument, and fails exactly when no agent matches |
| Commands.Task | components/Terminal.tsx:69-84 | a missing agent or empty prompt gives the format error; an unknown agent gives the not-found error; otherwise EXECUTING, then the agent's report |
| Commands.Dispatch | components/Terminal.tsx:56-121 | only `cd` changes the directory; an unknown verb prints "Command not found" unless it is empty |
| Commands.Execute | components/Terminal.tsx:51-121 | the command is tokenised and its first word selects the handler, which receives the remaining words |
| Commands.UnknownVerbs | components/Terminal.tsx:56-120 | a verb has no handler exactly when its lower-case form is not one of the seven verbs |
| Commands.VerbsByName | components/Terminal.tsx:57-111 | each of the seven verbs selects its own handler |
| Commands.ExecuteTokens | components/Terminal.tsx:52 | the tokens of the line reach the dispatcher as verb and arguments |
| Commands.DispatchVerbs | components/Terminal.tsx:57-118 | each verb's output, verb by verb |
| Commands.ExecuteWords | components/Terminal.tsx:51-121 | the line `verb arg ...` runs the handler of `verb` with exactly those arguments |
| Commands.VerbIgnoresCase | components/Terminal.tsx:56 | verbs other than `task` are matched without regard to ASCII case |
| Commands.DispatchIgnoresCase | components/Terminal.tsx:56 | two spellings of a verb that differ only in case dispatch alike |
| Commands.ExecuteMovesOnlyToDirectories | components/Terminal.tsx:102-110 | after any command the directory is the old one or a directory of the tree |
| Commands.FailuresPrintOneLine | components/Terminal.tsx:98-117 | a failing `ls`, `cd` or `cat` prints exactly one line and keeps the directory |
| Commands.LsListsCurrentDirectory | components/Terminal.tsx:92 | `ls` without an argument lists the current directory, for any directory path the shell can stand in |
| Commands.ListedEntriesResolve | components/Terminal.tsx:91-118 | from any directory path the shell can stand in, an entry `ls` lists is entered by `cd <name>` when it is a directory and printed by `cat <name>` when it is a file |
| Commands.ParentIsDir | components/Terminal.tsx:41-42 | the parent of a directory of the tree, reached through any directory path, is a directory of the tree |
| Commands.CdParent | components/Terminal.tsx:102-110 | `cd ..` from any directory path moves to the parent, and stays at the root |
| Commands.FindAgentDistinct | components/Terminal.tsx:75 | with names distinct after lower-casing, `find` returns the one agent that matches |
| Commands.TaskRunsNamedAgent | components/Terminal.tsx:69-84 | a well-formed task naming a registered agent prints EXECUTING and that agent's report |
| Commands.FirstQuotedOfPrefix | components/Terminal.tsx:71 | the prompt read is the text between the first two quotes, when no quote comes before |
| Commands.CloseQuoteAt | components/Terminal.tsx:71 | a quote after a clean body closes the match |
| Commands.QuoteMatchAt | components/Terminal.tsx:71 | the first opening quote at or after `i` is where the match starts |
| Commands.BareVerbs | components/Terminal.tsx:92-103 | `ls` and `cd` alone run their handlers with no argument |
| Commands.OneWord | components/Terminal.tsx:52 | a one-word line reaches the dispatcher with no arguments |
| Commands.OneArgument | components/Terminal.tsx:52 | a two-word line reaches the dispatcher with one argument |
| Commands.LsWithArgument | components/Terminal.tsx:91-101 | `ls arg` lists or fails on `arg` |
| Commands.CdWithArgument | components/Terminal.tsx:102-110 | `cd arg` moves to or fails on `arg` |
| Commands.CatWithArgument | components/Terminal.tsx:111-118 | `cat arg` prints or fails on `arg` |
| Commands.ListingOfThree | components/Terminal.tsx:94-96 | three entries are listed as their labels separated by four spaces |
| Commands.HomePath | components/Terminal.tsx:18 | `/home/user` is canonical with segments `home`, `user` |
| Commands.HomeDirPath | components/Terminal.tsx:18 | `/home/user` is a directory path with segments `home`, `user` |
| Commands.StatusShowsInstructions | components/Terminal.tsx:85-90 | `status` prints a heading, then the system, AI and user instructions in that order, each shown as `Default` when empty |
| Commands.HelpLines | components/Terminal.tsx:57-65 | the fixed help text; `VerbsByName` shows each verb it names selects its own handler |
| Commands.StatusLines | components/Terminal.tsx:85-90 | the `status` lines; specified by `StatusShowsInstructions` |
| Commands.NotFound | components/Terminal.tsx:119-120 | an unknown verb prints one error naming it, and an empty one prints nothing; used by `Dispatch`, `ExecuteWords` and `BlankEnterOnlyPrompts` |
| Commands.VerbOf | components/Terminal.tsx:56 | the `switch (cmd.toLowerCase())`: specified by `UnknownVerbs`, `VerbsByName` and `VerbIgnoresCase` |
| Commands.Classify | components/Terminal.tsx:57-119 | the cases of that switch; specified with `VerbOf` |
| Commands.EmptyHomeHasNoUser | components/Terminal.tsx:23-34 | below an empty `home` directory there is no `user` |
| Shell.TypeKeys | components/Terminal.tsx:168-170 | one key press per character of the typed text |
| Shell.Echo | components/Terminal.tsx:170 | one echoed write per typed character |
| Shell.StartValid | components/Terminal.tsx:146-149 | the session after mount keeps the session invariant |
| Shell.KeyStepValid | components/Terminal.tsx:150-172 | every key press keeps the invariant: the cursor stays within the command line, the index points past the last entry, no blank line is recorded, and the directory is the start one or a directory of the tree |
| Shell.SubmitValid | components/Terminal.tsx:153-162 | Enter keeps the invariant |
| Shell.RunPreserves | components/Terminal.tsx:150 | a run of key presses keeps any invariant each single press keeps |
| Shell.FeedValid | components/Terminal.tsx:150-172 | any run of key presses keeps a valid session valid |
| Shell.HistoryRecordsCommands | components/Terminal.tsx:154-157 | the history grows only on Enter, by exactly the typed line, never a blank one, and the index moves past it |
| Shell.KeyTypes | components/Terminal.tsx:168-170 | a printable key other than Enter and Backspace is typed |
| Shell.TypeKeysCons | components/Terminal.tsx:168-170 | typing `c + t` presses `c`, then types `t` |
| Shell.TypedCons | components/Terminal.tsx:169-170 | appending and echoing the first character, then the rest, appends and echoes the whole text |
| Shell.RunTypes | components/Terminal.tsx:168-170 | typing a text appends it to the command line and echoes it |
| Shell.TypingAppends | components/Terminal.tsx:168-170 | in the component, typing characters other than Enter and Backspace appends them and echoes each |
| Shell.RunAppend | components/Terminal.tsx:150 | two runs of key presses in a row act as one run of both |
| Shell.TypeCommandThenEnter | components/Terminal.tsx:150-170 | typing a non-blank command at an empty prompt and pressing Enter records it, runs exactly that command and prompts again |
| Shell.SubmitBlank | components/Terminal.tsx:160-162 | Enter on a blank line only prompts again |
| Shell.EnterSubmits | components/Terminal.tsx:153 | the Enter key code submits the line |
| Shell.FeedThenEnter | components/Terminal.tsx:153-162 | Enter after some key presses submits what they typed |
| Shell.SubmitRuns | components/Terminal.tsx:154-159 | Enter on a non-blank line writes a line break, the command's output and a prompt for the new directory, and empties the line |
| Shell.SubmitOutcome | components/Terminal.tsx:154-159 | the same, as the session after the key press and the screen after it |
| Shell.BackspaceUndoesKey | components/Terminal.tsx:163-170 | Backspace right after typing a character takes it back off the command line |
| Shell.BackspaceAtPrompt | components/Terminal.tsx:164 | Backspace at the end of the prompt does nothing |
| Shell.BlankEnterOnlyPrompts | components/Terminal.tsx:160-162 | Enter on a blank line prompts again; the history and directory are unchanged |
| Shell.ModifiedKeysIgnored | components/Terminal.tsx:151-171 | keys held with Alt, Ctrl or Meta are ignored, apart from Enter and Backspace |
| Shell.SessionCwdIsDirPath | components/Terminal.tsx:102-110 | in a well-formed tree the current directory of a valid session is a directory path, so the directory lemmas of the commands apply to every reachable session |
| Shell.SessionValid | components/Terminal.tsx:17-20 | the relations a session keeps; kept by `StartValid`, `KeyStepValid` and `FeedValid` |
| Shell.KeyStep | components/Terminal.tsx:150-172 | one key press; specified by `KeyStepValid`, `ModifiedKeysIgnored`, `KeyTypes` and `HistoryRecordsCommands` |
| Shell.Submit | components/Terminal.tsx:153-162 | Enter; specified by `SubmitValid`, `SubmitBlank`, `SubmitRuns` and `SubmitOutcome` |
| Shell.Rubout | components/Terminal.tsx:163-167 | Backspace; specified by `BackspaceUndoesKey` and `BackspaceAtPrompt` |
| Shell.Insert | components/Terminal.tsx:168-170 | a printable key; specified by `KeyTypes` and `TypingAppends` |
| Shell.Terminal.constructor | components/Terminal.tsx:17-20 | the component starts in `/home/user` with an empty history and index -1; mounting (lines 146-147) writes the welcome line and a prompt |
| Shell.Terminal.Prompt | components/Terminal.tsx:125-127 | `prompt()` writes `CUAG:<cwd>> ` after a line break and changes nothing else |
| Shell.Terminal.HandleCliCommand | components/Terminal.tsx:51-123 | the screen gains the command's output and a prompt for the new directory |
| Shell.Terminal.RunVerb | components/Terminal.tsx:56-121 | the screen gains what the verb's case writes; only `cd` moves |
| Shell.Terminal.RunLs | components/Terminal.tsx:91-101 | the screen gains the `ls` output; the state is unchanged |
| Shell.Terminal.RunCd | components/Terminal.tsx:102-110 | the directory and screen become those of `cd` |
| Shell.Terminal.RunCat | components/Terminal.tsx:111-118 | the screen gains the `cat` output; the state is unchanged |
| Shell.Terminal.RecordLine | components/Terminal.tsx:155-157 | a line break is written, the line is appended to the history and the index moves past it |
| Shell.Terminal.RunLine | components/Terminal.tsx:154-159 | the line is recorded, run as a command and cleared |
| Shell.Terminal.SubmitLine | components/Terminal.tsx:153-162 | Enter changes the state and the screen as the key-handler function says |
| Shell.Terminal.RuboutChar | components/Terminal.tsx:163-166 | Backspace changes the state and the screen as the key-handler function says |
| Shell.Terminal.InsertKey | components/Terminal.tsx:168-170 | a typed key changes the state and the screen as the key-handler function says |
| Shell.Terminal.OnKey | components/Terminal.tsx:150-172 | the handler follows the key-handler function and keeps the session invariant |
| Seed.SeedRootShape | constants.tsx:55-62 | the node under `'/'` holds exactly the empty directories `home`, `etc` and `usr` |
| Seed.LeavesWellFormed | constants.tsx:77-89 | the documents and workspace directories are well formed |
| Seed.UpperNodesWellFormed | constants.tsx:63-76 | the `/home` and `/home/user` nodes are well formed |
| Seed.SeedWellFormed | constants.tsx:54-90 | every node of the initial filesystem is well formed: distinct usable names in every directory |
| Seed.InitialFileSystem | constants.tsx:54-90 | the seed map; specified by `SeedRootShape`, `SeedWellFormed`, `SeedMapShape` and `NestedAgreesWithMap` |
| Codex.LowerKeepsUpperNamesApart | components/Terminal.tsx:75 | two different upper-case names stay different once lower-cased |
| Codex.AgentNames | constants.tsx:7-17 | one name per agent, in order |
| Codex.AgentNameList | constants.tsx:7-17 | the nine agents' names, in order |
| Codex.AgentNamesShape | constants.tsx:7-17 | the agents' names are upper-case and pairwise different |
| Codex.AgentNamesDistinct | constants.tsx:7-17 | the names differ pairwise even after lower-casing |
| Codex.TaskReachesEveryAgent | components/Terminal.tsx:69-84 | `task` with any agent's name, in any ASCII case, runs that agent |
| Codex.ToolNames | constants.tsx:18-26 | one name per tool, in order |
| Codex.ChainToolsExist | constants.tsx:27-51 | every step of every chained bookmark names a tool of the codex |
| Codex.ToolOwnersAreAgents | constants.tsx:18-26 | every tool's primary agent is an agent of the codex |
| Codex.AssociatedAgents | constants.tsx:27-51 | one associated agent (or none) per bookmark, in order |
| Codex.BookmarkAgentList | constants.tsx:27-51 | the bookmarks' associated agents are LYRA and MISTRESS |
| Codex.BookmarkAgentsAreAgents | constants.tsx:27-51 | every bookmark's associated agent is an agent of the codex |
| Codex.Agents | constants.tsx:7-17 | the nine agents; specified by `AgentNameList` and `AgentNamesDistinct` |
| Codex.Tools | constants.tsx:18-26 | the seven tools; specified by `ToolOwnersAreAgents` and `ChainToolsExist` |
| Codex.Bookmarks | constants.tsx:27-51 | the chained bookmarks; specified by `ChainToolsExist` and `BookmarkAgentsAreAgents` |
| Grafting.GraftRoot | components/Terminal.tsx:24-25 | `/` names the root of the grafted tree |
| Grafting.GraftTop | components/Terminal.tsx:23-34 | `/home` names the grafted `home` directory |
| Grafting.GraftHome | components/Terminal.tsx:23-34 | `/home/user` names the grafted home directory |
| Grafting.GraftChild | components/Terminal.tsx:23-34 | `/home/user/<name>` names the home's entry of that name |
| Grafting.HomeEntryNames | constants.tsx:72-74 | the home's entry names are usable names |
| Grafting.GraftNames | constants.tsx:55-76 | the grafted directories hold the entry names of the seed, in order |
| Grafting.HomeEntryPaths | constants.tsx:77-84 | the home's child paths are `/home/user/documents` and `/home/user/workspace` |
| Grafting.WellFormedHome | constants.tsx:69-76 | the home directory and the grafted tree are well formed |
| Grafting.GraftWellFormed | constants.tsx:55-68 | grafting a well-formed home gives a well-formed tree |
| Grafting.HomeLabels | components/Terminal.tsx:95 | the home's entries are labelled as two directories and a file |
| Grafting.GraftedHomeListing | components/Terminal.tsx:91-101 | `ls` in the grafted home lists its two directories and its file, in stored order |
| Grafting.DocumentsPath | components/Terminal.tsx:47 | the documents directory's resolved path is `/home/user/documents` |
| Grafting.HomeEntriesDistinct | constants.tsx:72-74 | the home's entry names are distinct |
| Grafting.GraftedEntry | components/Terminal.tsx:102-118 | `cd` and `cat` on an entry of the grafted home, by name |
| Grafting.GraftedHomeEntries | components/Terminal.tsx:102-118 | `cat profile.txt` prints the profile and `cd documents` enters the documents directory |
| Startup.HomeUnreachable | components/Terminal.tsx:18-25 | the seed declares `/home/user`, yet the walk from `'/'` cannot reach it |
| Startup.SeedHomeMissing | components/Terminal.tsx:91-110 | in the shipped tree, `ls` and `cd` in the home directory fail |
| Startup.StartupCommandsFail | components/Terminal.tsx:91-110 | so the first `ls` and a bare `cd` print errors |
| Startup.RootLabels | components/Terminal.tsx:95 | the root's entries are labelled as directories |
| Startup.SeedRootListing | components/Terminal.tsx:91-101 | `ls /` lists the three top-level directories |
| Startup.SeedListsRoot | components/Terminal.tsx:51-121 | typing `ls /` lists the three top-level directories, from any directory |
| Startup.CorrectedFileSystem | constants.tsx:54-90 | the corrected seed has the same keys, with the nested tree under `'/'` |
| Startup.NestedPaths | constants.tsx:54-90 | each key of the flat map names, in the nested tree, the node the map describes |
| Startup.SeedMapShape | constants.tsx:54-90 | the flat map's keys and each directory's entry names |
| Startup.NestedNames | constants.tsx:54-90 | the nested tree's directories have the map's entry names |
| Startup.AgreeOnKeys | constants.tsx:54-90 | agreement on each of the five keys is agreement on every key |
| Startup.NestedAgreesWithMap | constants.tsx:54-90 | in the nested tree every key of the flat map leads to a directory with the entries the map gives it |
| Startup.NestedHomeWorks | components/Terminal.tsx:91-118 | on the nested tree the first `ls` lists the home, `cat profile.txt` prints the profile and `cd documents` enters it |
| Markdown.CloseAt | App.tsx:112-114 | the closing delimiter found is the first at or after the minimum, with only body characters before it |
| Markdown.ReplaceSpansIdentity | App.tsx:112-114 | text in which no span can start passes through a replacement unchanged |
| Markdown.NoStartOfMissing | App.tsx:112-114 | text without the delimiter's first character starts no span |
| Markdown.InlineIdentity | App.tsx:110-116 | text with no `*` and no backquote is left exactly as it is |
| Markdown.PlainHasNoMarkup | App.tsx:110-116 | plain words hold no markup characters |
| Markdown.CloseFound | App.tsx:112-114 | the first delimiter after a clean body closes the span |
| Markdown.SpanOfPlain | App.tsx:112-114 | a span whose body has no markup is replaced by the tagged body |
| Markdown.StillNoMarkup | App.tsx:112-114 | wrapping markup-free text in markup-free tags adds no markup |
| Markdown.BoldSpan | App.tsx:112 | `**words**` becomes `<strong>words</strong>` |
| Markdown.ItalicSpan | App.tsx:113 | `*words*` becomes `<em>words</em>` when the words are not empty |
| Markdown.CodeSpan | App.tsx:114 | `` `words` `` becomes `<code>words</code>` when the words are not empty |
| Markdown.ReplaceChar | App.tsx:154 | replacing a character removes it, leaves text without it unchanged, and introduces nothing but the replacement |
| Markdown.EscapeRemovesBrackets | App.tsx:154 | an escaped code line holds no `<` or `>`, and a line without them is written as it is |
| Markdown.ReplaceCharOne | App.tsx:154 | on one character: a match becomes the replacement, anything else stays |
| Markdown.ReplaceCharAppend | App.tsx:154 | replacing in a concatenation is replacing in each part |
| Markdown.EscapeChar | App.tsx:154 | escaping one character: `<` becomes `&lt;`, `>` becomes `&gt;`, anything else stays |
| Markdown.EscapeAppend | App.tsx:154 | escaping works part by part, so with `EscapeChar` it is determined character by character |
| Markdown.Escape | App.tsx:154 | a code line as written out; specified by `EscapeChar`, `EscapeAppend` and `EscapeRemovesBrackets` |
| Markdown.RenderAppend | App.tsx:121 | `html +=` one more block appends its text |
| Markdown.LineText | App.tsx:159-160 | `(.*)` captures up to the first line terminator |
| Markdown.LineTextWhole | App.tsx:159-160 | a capture meeting no line terminator takes the whole rest |
| Markdown.DigitRun | App.tsx:160 | the leading run of digits |
| Markdown.ItemOf | App.tsx:159-160 | a list item starts with a marker or a digit, and it is a bullet item exactly when it does not start with a digit |
| Markdown.ItemExamples | App.tsx:159-160 | `- milk` opens a bullet item and `12. step` a numbered one |
| Markdown.NotItems | App.tsx:159-160 | `**bold**`, `-dash` and `3)x` open no item |
| Markdown.ItemsAreNotFences | App.tsx:140-160 | a list item line is not a code fence |
| Markdown.TraceAppend | App.tsx:118-194 | the context after one more block is the step from the context before it |
| Markdown.ParagraphFlushedConsistent | App.tsx:125-130 | `flushParagraph` keeps the loop invariant and empties the buffer |
| Markdown.ListFlushedConsistent | App.tsx:132-137 | `flushList` keeps the loop invariant and closes the list |
| Markdown.ItemAddedConsistent | App.tsx:162-177 | a list item keeps the invariant and leaves a list of its kind open |
| Markdown.ToggledConsistent | App.tsx:140-151 | a fence keeps the invariant |
| Markdown.TextLineAddedConsistent | App.tsx:158-184 | a line outside code keeps the invariant |
| Markdown.LineAddedConsistent | App.tsx:139-185 | each line keeps the invariant |
| Markdown.LinesAddedConsistent | App.tsx:139-185 | the loop keeps the invariant |
| Markdown.FinishedCloses | App.tsx:187-191 | the end of the conversion leaves nothing open |
| Markdown.BlocksWellNested | App.tsx:118-194 | whatever the text, every code block and list is closed and items appear only inside lists |
| Markdown.FenceToggles | App.tsx:140-151 | a fence flushes, then opens or closes a code block; any fence acts alike |
| Markdown.CodeLineVerbatim | App.tsx:153-156 | inside a code block a line is written escaped, with no inline formatting |
| Markdown.BlankLineFlushes | App.tsx:178-180 | a blank line outside code flushes and writes nothing else |
| Markdown.ItemLineAddsItem | App.tsx:162-177 | an item line adds that item |
| Markdown.ItemAddedBlocks | App.tsx:162-177 | the blocks written before an item and the item itself |
| Markdown.ItemLine | App.tsx:162-177 | consecutive items of one kind share a list; a change of kind closes the old list first |
| Markdown.PlainLine | App.tsx:181-184 | any other line closes an open list and is buffered untrimmed |
| Markdown.LinesAddedNext | App.tsx:139 | the loop feeds the lines in order |
| Markdown.ProseStep | App.tsx:181-184 | one prose line is buffered |
| Markdown.ProseBuffered | App.tsx:181-184 | prose lines are buffered in order |
| Markdown.ProseParagraph | App.tsx:118-194 | consecutive prose lines become one paragraph joined by `<br />` |
| Markdown.RenderParagraph | App.tsx:125-130 | a paragraph renders as `<p>` around the formatted, `<br />`-joined lines |
| Markdown.ApplyInlineFormatting | App.tsx:110-116 | specified by `InlineIdentity`, `BoldSpan`, `ItalicSpan` and `CodeSpan` |
| Markdown.ReplaceSpans | App.tsx:112-114 | one lazy global `replace`; specified by `ReplaceSpansIdentity` and `SpanOfPlain` |
| Markdown.Render | App.tsx:121-191 | the HTML of a block sequence; specified by `RenderAppend` |
| Markdown.LineAdded | App.tsx:139-185 | one pass of the loop; specified by `LineAddedConsistent`, `FenceToggles`, `CodeLineVerbatim`, `BlankLineFlushes`, `ItemLineAddsItem` and `PlainLine` |
| Markdown.TextLineAdded | App.tsx:158-184 | a line outside a code block; specified by `TextLineAddedConsistent` |
| Markdown.Blocks | App.tsx:118-194 | the functional reading of `parseMarkdown`; specified by `BlocksWellNested`, `ProseParagraph` and `ParseMarkdown` |
| Markdown.MarkdownWriter.Write | App.tsx:121 | `html +=` appends one block's text and changes nothing else |
| Markdown.MarkdownWriter.FlushParagraph | App.tsx:125-130 | the closure acts as the functional `flushParagraph` |
| Markdown.MarkdownWriter.FlushList | App.tsx:132-137 | the closure acts as the functional `flushList` |
| Markdown.MarkdownWriter.ToggleCode | App.tsx:140-151 | the fence branch acts as its functional reading |
| Markdown.MarkdownWriter.AddItem | App.tsx:162-177 | the item branches act as their functional reading |
| Markdown.MarkdownWriter.AddLine | App.tsx:139-185 | the loop body acts as its functional reading |
| Markdown.MarkdownWriter.AddLines | App.tsx:139-185 | the loop acts as its functional reading |
| Markdown.MarkdownWriter.Finish | App.tsx:187-191 | the tail flushes and closes as its functional reading |
| Markdown.ParseMarkdown | App.tsx:118-194 | `parseMarkdown` returns the rendering of the blocks of the text |
| Gemini.ApiRole | services/gemini.ts:8 | the role sent is never `system`: a system message is sent as `user`, and other roles are kept |
| Gemini.FormatChatHistoryForApi | services/gemini.ts:6-11 | one element per message, in order, with its API role and a single part holding its content |
| Gemini.FormatAppend | services/gemini.ts:7 | formatting works message by message |
| Gemini.FormatRoles | services/gemini.ts:8-9 | no message reaches the API with the system role: system messages are sent as `user` and other roles are kept |
| Gemini.BuildSystemInstruction | services/gemini.ts:17-20 | the three `+=` lines build the instruction text |
| Gemini.ConfigFor | services/gemini.ts:28 | `systemInstruction` is present exactly when the text is not blank, and then it is the trimmed text |
| Gemini.SystemInstructionStart | services/gemini.ts:17-20 | the instruction is empty exactly when all three fields are, and otherwise starts with the first non-empty field's label |
| Gemini.ConfigHasInstruction | services/gemini.ts:17-28 | the request carries a system instruction exactly when some field is non-empty |
| Gemini.ErrorReplies | services/gemini.ts:34-40 | a thrown `Error` is reported after a fixed prefix with its message; anything else gives a different fixed text |
| Gemini.GenerateResponse | services/gemini.ts:13-41 | the request's model, contents and config, and the reply for each outcome |
| Gemini.SystemInstruction | services/gemini.ts:17-20 | the built instruction; specified by `SystemInstructionStart` and `ConfigHasInstruction` |
| Gemini.Reply | services/gemini.ts:32-39 | the reply for each outcome; specified by `ErrorReplies` |

## Left out

- Terminal rendering (xterm, the fit add-on, resizing, colours as seen on screen): the screen is a transcript of `writeln`, `write` and `clear` calls.
- The 500 ms wait in `task` and the asynchrony of `handleCliCommand`: the task's two lines are written together, and a command is modelled as finishing before the next key press.
- Recalling history with the arrow keys is not in the source; `commandIndex` is recorded and never read.
- Shell.Terminal.RuboutChar: the source's guard compares xterm's cursor column with the prompt's length; the model keeps the number of characters typed since the prompt (`column`) instead.
- Regular expressions are modelled only for the patterns the source uses: `"(.*?)"`, `\*\*(.*?)\*\*`, `\*(.*?)\*`, `` `([^`]+)` ``, `^(?:[-*+]\s)(.*)`, `^(\d+\.\s)(.*)`, `/\s+/`, `/</g` and `/>/g`.
- Strings.ToLower: `toLowerCase` is modelled on ASCII letters only; other Unicode case mappings are not modelled.
- The Gemini API call, the API key, `response.text` and `console.error`: the call is replaced by its outcome, a parameter of `Gemini.GenerateResponse`.
- App.tsx apart from the two markdown functions: the chat state, the modals and the panels are not part of this model, nor are `components/AgentCard.tsx`, `components/Modal.tsx` and `components/RightPanel.tsx`.
- The codex's free-text fields (roles, philosophies, focus areas, descriptions) are kept as data, and no property is stated about their wording.

## Findings

| source | as written | input that shows it | evidently intended | confidence | as-written member | corrected member |
|---|---|---|---|---|---|---|
| constants.tsx:54-90 | `initialFileSystem` describes `/home`, `/home/user` and its children under their own keys, but `getNode` (components/Terminal.tsx line 25) walks only from the node under `'/'`, whose `home` directory is empty | mount the terminal and type `ls` (or a bare `cd`): the path `/home/user` resolves to nothing, so both print errors | the tree under `'/'` contains the directories the flat map declares, so the start directory and its files can be reached | not executed | Startup.HomeUnreachable, Startup.StartupCommandsFail | Startup.CorrectedFileSystem, Startup.NestedAgreesWithMap, Startup.NestedHomeWorks |
