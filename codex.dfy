/** The codex the application ships with (constants.tsx): the agents, tools and chained
    bookmarks of `codexData`. */
module Codex {
  import opened Strings
  import opened Types
  import opened Commands

  function Packaging(kind: string, description: string, utilityTool: string): PackagingInterrelation {
    PackagingInterrelation(kind, description, utilityTool)
  }

  /** `codexData.ai_family`, in order. */
  function Agents(): seq<Agent> {
    [ Agent("LYRA", "The Architect", "Clarity through structure.",
            ["Design patterns implementation", "Code maintainability", "Dependency management"],
            [Packaging(".zip", "Source code archives", "ArchiverCLI"),
             Packaging("Infrastructure as Code", "Defines the environment", "Terraform")]),
      Agent("KARA", "The Builder", "Efficiency in execution.",
            ["Performance optimization", "Code quality and best practices"],
            [Packaging(".exe", "Compiled binary executables", "GCC/MSVC"),
             Packaging(".msi", "Windows installers", "WiX Toolset")]),
      Agent("SOPHIA", "The Guardian", "Resilience by design.",
            ["Security considerations", "Testing coverage", "Error handling"],
            [Packaging("Code Signing", "Applies digital signatures", "SignTool.exe"),
             Packaging(".7zip", "Secure, encrypted archives", "7-Zip CLI")]),
      Agent("CECILIA", "The Documentarian", "Knowledge must be shared.",
            ["Documentation quality"],
            [Packaging("Docs Generation", "Packages API documentation", "Doxygen"),
             Packaging("README.md", "Ensures essential documentation", "MarkdownLint")]),
      Agent("DAN", "The Analyst", "Data-driven decisions.",
            ["Edge cases consideration", "Performance optimization"],
            [Packaging("Telemetry Hooks", "Integrates analytics libraries", "OpenTelemetry SDK")]),
      Agent("STAN", "The Traditionalist", "Proven patterns prevail.",
            ["Code quality and best practices", "Design patterns"],
            [Packaging("Static Analysis", "Runs checks checks before packaging", "SonarQube")]),
      Agent("DUDE", "The User Advocate", "The experience is everything.",
            ["Code maintainability", "UI/UX"],
            [Packaging("Asset Bundling", "Optimizes frontend assets", "Webpack")]),
      Agent("KARL", "The Innovator", "Challenge the status quo.",
            ["Performance optimization", "Dependency management"],
            [Packaging("Containerization", "Packages app into a container", "Docker")]),
      Agent("MISTRESS", "The Orchestrator", "Harmony in complexity.",
            ["Dependency management", "Workflow Automation"],
            [Packaging("CI/CD Pipeline", "Defines build/test workflow", "Jenkins")]) ]
  }

  /** `codexData.tools`. */
  function Tools(): seq<Tool> {
    [ Tool("analyze_requirements", "DAN"),
      Tool("design_architecture", "LYRA"),
      Tool("scaffold_component", "KARA"),
      Tool("review_security", "SOPHIA"),
      Tool("generate_test_cases", "SOPHIA"),
      Tool("generate_documentation", "CECILIA"),
      Tool("create_build_pipeline", "MISTRESS") ]
  }

  function Plain(tool: string, input: string): ChainStep {
    ChainStep(tool, input, None)
  }

  /** `codexData.chained_bookmarks`. */
  function Bookmarks(): seq<ChainedBookmark> {
    [ ChainedBookmark("Full-Stack Feature Genesis", Some("LYRA"),
        "From idea to documented, testable, and securable code.",
        [ Plain("analyze_requirements", "User-provided feature brief."),
          Plain("design_architecture", "output_of_analyze_requirements"),
          Plain("scaffold_component", "output_of_design_architecture"),
          Plain("review_security", "output_of_scaffold_component"),
          Plain("generate_test_cases", "output_of_scaffold_component"),
          Plain("generate_documentation", "output_of_scaffold_component") ]),
      ChainedBookmark("Interactive App Deployment", Some("MISTRESS"),
        "Generates, containerizes, and creates a deployment pipeline.",
        [ Plain("analyze_requirements", "User-provided feature brief."),
          Plain("design_architecture", "output_of_analyze_requirements"),
          ChainStep("scaffold_component", "output_of_design_architecture", Some([("language", "Node.js")])),
          Plain("generate_documentation", "output_of_scaffold_component"),
          ChainStep("create_build_pipeline", "output_of_design_architecture", Some([("target", "Docker")])) ]) ]
  }

  function Codex(): CodexData {
    CodexData("1.0", "CODEX System", "ANDOY AI", Agents(), Tools(), Bookmarks())
  }

  // ----- properties of the codex -----

  predicate UpperName(s: string) {
    forall i :: 0 <= i < |s| ==> 'A' <= s[i] <= 'Z'
  }

  /** Two different upper-case names stay different once lower-cased. */
  lemma {:induction false} LowerKeepsUpperNamesApart(a: string, b: string)
    requires UpperName(a) && UpperName(b) && a != b
    ensures ToLower(a) != ToLower(b)
  {
    if |a| == |b| {
      var i :| 0 <= i < |a| && a[i] != b[i];
      assert ToLower(a)[i] != ToLower(b)[i];
    }
  }

  function AgentNames(agents: seq<Agent>): (names: seq<string>)
    ensures |names| == |agents|
    ensures forall i :: 0 <= i < |agents| ==> names[i] == agents[i].name
  {
    seq(|agents|, i requires 0 <= i < |agents| => agents[i].name)
  }

  lemma {:induction false} AgentNameList()
    ensures AgentNames(Agents()) == ["LYRA", "KARA", "SOPHIA", "CECILIA", "DAN", "STAN", "DUDE", "KARL", "MISTRESS"]
  {
  }

  /** The names are upper-case and pairwise different. */
  lemma {:induction false} AgentNamesShape(agents: seq<Agent>)
    requires agents == Agents()
    ensures forall i :: 0 <= i < |agents| ==> UpperName(agents[i].name)
    ensures forall j, k :: 0 <= j < k < |agents| ==> agents[j].name != agents[k].name
  {
    AgentNameList();
    var names := AgentNames(agents);
    assert forall i :: 0 <= i < |names| ==> UpperName(names[i]);
  }

  /** The agents' names differ pairwise even after lower-casing, so `task` can find at most one. */
  lemma {:induction false} AgentNamesDistinct()
    ensures forall j, k :: 0 <= j < k < |Agents()| ==> ToLower(Agents()[j].name) != ToLower(Agents()[k].name)
  {
    var agents := Agents();
    AgentNamesShape(agents);
    forall j, k | 0 <= j < k < |agents|
      ensures ToLower(agents[j].name) != ToLower(agents[k].name)
    {
      LowerKeepsUpperNamesApart(agents[j].name, agents[k].name);
    }
  }

  /** `task <name> "<prompt>"` with any agent's name, in any ASCII case, runs that agent. */
  lemma {:induction false} TaskReachesEveryAgent(command: string, args: seq<string>, i: nat)
    requires WellFormedTask(command, args)
    requires i < |Agents()| && ToLower(args[0]) == ToLower(Agents()[i].name)
    ensures Task(Agents(), command, args) == [Line(Executing), Line(TaskReport(Agents()[i]))]
  {
    AgentNamesDistinct();
    TaskRunsNamedAgent(Agents(), command, args, i);
  }

  function ToolNames(tools: seq<Tool>): (names: seq<string>)
    ensures |names| == |tools|
    ensures forall i :: 0 <= i < |tools| ==> names[i] == tools[i].name
  {
    seq(|tools|, i requires 0 <= i < |tools| => tools[i].name)
  }

  /** Every step of every chained bookmark names a tool of the codex, so the lookup of a
      step's tool by name always succeeds. */
  lemma {:induction false} ChainToolsExist()
    ensures forall b, k :: 0 <= b < |Bookmarks()| && 0 <= k < |Bookmarks()[b].chain| ==>
              Bookmarks()[b].chain[k].tool in ToolNames(Tools())
  {
    var names := ToolNames(Tools());
    assert names == ["analyze_requirements", "design_architecture", "scaffold_component", "review_security",
                     "generate_test_cases", "generate_documentation", "create_build_pipeline"];
  }

  /** Every tool's primary agent is an agent of the codex. */
  lemma {:induction false} ToolOwnersAreAgents()
    ensures forall t :: 0 <= t < |Tools()| ==> Tools()[t].primaryAgent in AgentNames(Agents())
  {
    AgentNameList();
  }

  function AssociatedAgents(bookmarks: seq<ChainedBookmark>): (agents: seq<Option<string>>)
    ensures |agents| == |bookmarks|
    ensures forall i :: 0 <= i < |bookmarks| ==> agents[i] == bookmarks[i].associatedAgent
  {
    seq(|bookmarks|, i requires 0 <= i < |bookmarks| => bookmarks[i].associatedAgent)
  }

  lemma {:induction false} BookmarkAgentList()
    ensures AssociatedAgents(Bookmarks()) == [Some("LYRA"), Some("MISTRESS")]
  {
  }

  /** Every bookmark's associated agent is an agent of the codex. */
  lemma {:induction false} BookmarkAgentsAreAgents()
    ensures forall b :: 0 <= b < |Bookmarks()| && Bookmarks()[b].associatedAgent.Some? ==>
              Bookmarks()[b].associatedAgent.value in AgentNames(Agents())
  {
    AgentNameList();
    BookmarkAgentList();
  }
}
