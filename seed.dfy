/** The file tree the application ships with (constants.tsx): the `initialFileSystem` the
    terminal copies at mount, and what the terminal makes of it. */
module Seed {
  import opened Strings
  import opened Types
  import opened Paths
  import opened Commands

  const ProfileText := "Name: GUA-D-CUAG\nRole: Orchestration Engine\nStatus: Online"
  const ReportText := "This is a simulated report document.\nIt contains important findings and data."
  const NotesText := "# Project Notes\n- Initial setup complete\n- Review meeting scheduled"
  const ConfigText := "{\n  \"project\": \"CUA Engine\",\n  \"version\": \"1.0.0\",\n  \"status\": \"development\"\n}"

  function Documents(): Node {
    Dir([("report.txt", File(ReportText)), ("notes.md", File(NotesText))])
  }

  function Workspace(): Node {
    Dir([("project_config.json", File(ConfigText))])
  }

  /** `initialFileSystem`: a flat map from absolute paths to nodes, each with its own
      nested `contents`. */
  function InitialFileSystem(): map<string, Node> {
    map[
      "/" := Dir([("home", Dir([])), ("etc", Dir([])), ("usr", Dir([]))]),
      "/home" := Dir([("user", Dir([]))]),
      "/home/user" := Dir([("documents", Dir([])), ("workspace", Dir([])), ("profile.txt", File(ProfileText))]),
      "/home/user/documents" := Documents(),
      "/home/user/workspace" := Workspace()
    ]
  }

  /** The node `getNode` starts every walk from. */
  function SeedRoot(): Node {
    InitialFileSystem()["/"]
  }

  // ----- well-formedness of the data -----

  /** The `'/'` node is a directory holding exactly the empty directories `home`, `etc` and `usr`. */
  lemma {:induction false} SeedRootShape()
    ensures SeedRoot() == Dir([("home", Dir([])), ("etc", Dir([])), ("usr", Dir([]))])
    ensures WellFormed(SeedRoot())
  {
  }

  lemma {:induction false} LeavesWellFormed()
    ensures WellFormed(Documents()) && WellFormed(Workspace())
  {
  }

  lemma {:induction false} UpperNodesWellFormed()
    ensures WellFormed(Dir([("user", Dir([]))]))
    ensures WellFormed(Dir([("documents", Dir([])), ("workspace", Dir([])), ("profile.txt", File(ProfileText))]))
  {
  }

  /** Every node of the seed map is well formed. */
  lemma {:induction false} SeedWellFormed()
    ensures forall p :: p in InitialFileSystem() ==> WellFormed(InitialFileSystem()[p])
  {
    SeedRootShape();
    LeavesWellFormed();
    UpperNodesWellFormed();
  }
}
