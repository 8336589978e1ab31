/** What the terminal makes of the shipped tree. `getNode` walks from the node stored under
    `'/'` only, and that node's directories are empty, so the home directory the terminal
    starts in cannot be reached. The tree the flat map evidently describes, with every
    declared directory grafted in at its path, behaves as the shell's messages intend. */
module Startup {
  import opened Strings
  import opened Types
  import opened Paths
  import opened Commands
  import opened Seed
  import opened Grafting

  // ----- the shipped tree -----

  /** With the shipped seed, the home directory the terminal starts in does not exist: the
      walk from `'/'` finds `home` empty, and the `'/home/user'` key is never consulted. */
  lemma {:induction false} HomeUnreachable()
    ensures "/home/user" in InitialFileSystem() && InitialFileSystem()["/home/user"].Dir?
    ensures Lookup(SeedRoot(), HomeDirectory) == None
  {
    SeedRootShape();
    EmptyHomeHasNoUser(Dir([]), Dir([]));
  }

  lemma {:induction false} SeedHomeMissing()
    ensures Ls(SeedRoot(), HomeDirectory, []) == [Line(LsError("."))]
    ensures Cd(SeedRoot(), HomeDirectory, []) == Reply([Line(CdError([]))], HomeDirectory)
  {
    HomeUnreachable();
    HomePath();
    ResolveSelf(HomeDirectory);
    assert Resolve(HomeDirectory, HomeDirectory) == HomeDirectory by {
      assert StartsWith(HomeDirectory, "/");
    }
  }

  /** So the first `ls` typed after mount fails, and so does `cd` without an argument, whose
      error names the missing argument as `undefined` (see `ArgText`). */
  lemma {:induction false} StartupCommandsFail(agents: seq<Agent>, instructions: CustomInstructions)
    ensures Execute(SeedRoot(), agents, instructions, HomeDirectory, "ls")
         == Reply([Line(LsError("."))], HomeDirectory)
    ensures Execute(SeedRoot(), agents, instructions, HomeDirectory, "cd")
         == Reply([Line(CdError([]))], HomeDirectory)
  {
    SeedHomeMissing();
    BareVerbs(SeedRoot(), agents, instructions, HomeDirectory);
  }

  lemma {:induction false} RootLabels()
    ensures EntryLabel(("home", Dir([]))) == Color("34", "home/")
    ensures EntryLabel(("etc", Dir([]))) == Color("34", "etc/")
    ensures EntryLabel(("usr", Dir([]))) == Color("34", "usr/")
  {
  }

  lemma {:induction false} SeedRootListing(cwd: string)
    ensures Ls(SeedRoot(), cwd, ["/"]) == [Line(Color("34", "home/") + "    " + Color("34", "etc/") + "    " + Color("34", "usr/"))]
  {
    SeedRootShape();
    assert StartsWith("/", "/");
    LookupSlashesOnly(SeedRoot(), "/");
    ListingOfThree(SeedRoot().entries);
    RootLabels();
  }

  /** `ls /` lists the three top-level directories, from any directory. */
  lemma {:induction false} SeedListsRoot(agents: seq<Agent>, instructions: CustomInstructions, cwd: string)
    ensures Execute(SeedRoot(), agents, instructions, cwd, "ls /")
         == Reply([Line(Color("34", "home/") + "    " + Color("34", "etc/") + "    " + Color("34", "usr/"))], cwd)
  {
    SeedRootListing(cwd);
    CommandLines();
    LsWithArgument(SeedRoot(), agents, instructions, cwd, "/");
  }

  // ----- the tree the flat map describes -----

  function UserHome(): Node {
    HomeOf(Documents(), Workspace(), ProfileText)
  }

  /** The `'/'` node with every directory the flat map declares grafted in at its path. */
  function NestedRoot(): Node {
    Graft(UserHome())
  }

  /** The seed with `'/'` replaced by the nested tree. */
  function CorrectedFileSystem(): (fs: map<string, Node>)
    ensures fs.Keys == InitialFileSystem().Keys && fs["/"] == NestedRoot()
  {
    InitialFileSystem()["/" := NestedRoot()]
  }

  /** Each key of the flat map, looked up in the nested tree. */
  lemma {:induction false} NestedPaths()
    ensures Lookup(NestedRoot(), "/") == Some(NestedRoot())
    ensures Lookup(NestedRoot(), "/home") == Some(Dir([("user", UserHome())]))
    ensures Lookup(NestedRoot(), "/home/user") == Some(UserHome())
    ensures Lookup(NestedRoot(), "/home/user/documents") == Some(Documents())
    ensures Lookup(NestedRoot(), "/home/user/workspace") == Some(Workspace())
  {
    var home := UserHome();
    GraftRoot(home);
    GraftTop(home);
    GraftHome(home);
    HomeEntryNames();
    GraftChild(home, "documents");
    GraftChild(home, "workspace");
    assert Find(home.entries, "workspace") == Some(Workspace()) by {
      assert Find(home.entries[1..], "workspace") == Some(Workspace());
    }
    HomeEntryPaths();
  }

  lemma {:induction false} SeedMapShape()
    ensures InitialFileSystem().Keys == {"/", "/home", "/home/user", "/home/user/documents", "/home/user/workspace"}
    ensures Names(InitialFileSystem()["/"]) == ["home", "etc", "usr"]
    ensures Names(InitialFileSystem()["/home"]) == ["user"]
    ensures Names(InitialFileSystem()["/home/user"]) == ["documents", "workspace", "profile.txt"]
    ensures InitialFileSystem()["/home/user/documents"] == Documents()
    ensures InitialFileSystem()["/home/user/workspace"] == Workspace()
  {
  }

  lemma {:induction false} NestedNames()
    ensures Names(NestedRoot()) == Names(InitialFileSystem()["/"])
    ensures Names(Dir([("user", UserHome())])) == Names(InitialFileSystem()["/home"])
    ensures Names(UserHome()) == Names(InitialFileSystem()["/home/user"])
  {
    GraftNames(Documents(), Workspace(), ProfileText);
    SeedMapShape();
  }

  predicate Agrees(fs: map<string, Node>, root: Node, p: string)
    requires p in fs
  {
    Lookup(root, p).Some? && Names(Lookup(root, p).value) == Names(fs[p])
  }

  lemma {:induction false} AgreeOnKeys(fs: map<string, Node>, root: Node, a: string, b: string, c: string, d: string, e: string)
    requires fs.Keys == {a, b, c, d, e}
    requires Agrees(fs, root, a) && Agrees(fs, root, b) && Agrees(fs, root, c)
    requires Agrees(fs, root, d) && Agrees(fs, root, e)
    ensures forall p :: p in fs ==> Agrees(fs, root, p)
  {
  }

  /** In the nested tree every key of the flat map leads to a directory with the entries that
      key declares, and the two innermost directories are exactly the declared nodes. */
  lemma {:induction false} NestedAgreesWithMap()
    ensures WellFormed(NestedRoot())
    ensures forall p :: p in InitialFileSystem() ==> Agrees(InitialFileSystem(), NestedRoot(), p)
    ensures Lookup(NestedRoot(), "/home/user/documents") == Some(Documents())
    ensures Lookup(NestedRoot(), "/home/user/workspace") == Some(Workspace())
  {
    SeedWellFormed();
    WellFormedHome(Documents(), Workspace(), ProfileText);
    NestedPaths();
    NestedNames();
    SeedMapShape();
    AgreeOnKeys(InitialFileSystem(), NestedRoot(), "/", "/home", "/home/user", "/home/user/documents", "/home/user/workspace");
  }

  /** On the nested tree the terminal's first `ls` lists the home directory, `cat profile.txt`
      prints the profile, and `cd documents` enters the documents directory. */
  lemma {:induction false} NestedHomeWorks(agents: seq<Agent>, instructions: CustomInstructions)
    ensures Execute(NestedRoot(), agents, instructions, HomeDirectory, "ls")
         == Reply([Line(Color("34", "documents/") + "    " + Color("34", "workspace/") + "    " + Color("32", "profile.txt"))],
                  HomeDirectory)
    ensures Execute(NestedRoot(), agents, instructions, HomeDirectory, "cat profile.txt")
         == Reply([Line(ProfileText)], HomeDirectory)
    ensures Execute(NestedRoot(), agents, instructions, HomeDirectory, "cd documents")
         == Reply([], "/home/user/documents")
  {
    assert Documents().Dir? && Workspace().Dir?;
    GraftedHomeListing(Documents(), Workspace(), ProfileText);
    GraftedHomeEntries(Documents(), Workspace(), ProfileText);
    BareVerbs(NestedRoot(), agents, instructions, HomeDirectory);
    CommandLines();
    CatWithArgument(NestedRoot(), agents, instructions, HomeDirectory, "profile.txt");
    CdWithArgument(NestedRoot(), agents, instructions, HomeDirectory, "documents");
  }
}
