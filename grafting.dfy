/** A `'/'` node shaped like the shipped one, with a home directory grafted in at
    `/home/user`: how `getNode`, `ls`, `cd` and `cat` treat the tree the flat map describes. */
module Grafting {
  import opened Strings
  import opened Types
  import opened Paths
  import opened Commands

  /** A home directory shaped like the seed's `'/home/user'`. */
  function HomeOf(documents: Node, workspace: Node, profile: string): Node {
    Dir([("documents", documents), ("workspace", workspace), ("profile.txt", File(profile))])
  }

  /** A `'/'` node shaped like the seed's, with `home` grafted in at `/home/user`. */
  function Graft(home: Node): Node {
    Dir([("home", Dir([("user", home)])), ("etc", Dir([])), ("usr", Dir([]))])
  }

  function Names(node: Node): seq<string> {
    match node
    case File(_) => []
    case Dir(entries) => seq(|entries|, i requires 0 <= i < |entries| => entries[i].0)
  }

  lemma {:induction false} GraftRoot(home: Node)
    ensures Lookup(Graft(home), "/") == Some(Graft(home))
  {
    LookupSlashesOnly(Graft(home), "/");
  }

  lemma {:induction false} GraftTop(home: Node)
    ensures Lookup(Graft(home), "/home") == Some(Dir([("user", home)]))
  {
    var root := Graft(home);
    HomeTopPath();
    LookupPathOf(root, ["home"]);
    WalkOne(root, "home");
    assert Find(root.entries, "home") == Some(Dir([("user", home)]));
  }

  lemma {:induction false} GraftHome(home: Node)
    ensures Lookup(Graft(home), HomeDirectory) == Some(home)
  {
    HomePath();
    LookupPathOf(Graft(home), ["home", "user"]);
    assert ["home", "user"][1..] == ["user"];
    assert Walk(home, []) == Some(home);
    assert Walk(Dir([("user", home)]), ["user"]) == Some(home);
  }

  /** An entry of the grafted home directory is found at `/home/user/<name>`. */
  lemma {:induction false} GraftChild(home: Node, name: string)
    requires home.Dir? && IsSegment(name)
    ensures Lookup(Graft(home), HomeDirectory + "/" + name) == Find(home.entries, name)
  {
    GraftHome(home);
    LookupAppend(Graft(home), HomeDirectory, name);
  }

  lemma {:induction false} HomeEntryNames()
    ensures IsName("documents") && IsName("workspace") && IsName("profile.txt")
  {
  }

  lemma {:induction false} GraftNames(documents: Node, workspace: Node, profile: string)
    ensures Names(Graft(HomeOf(documents, workspace, profile))) == ["home", "etc", "usr"]
    ensures Names(Dir([("user", HomeOf(documents, workspace, profile))])) == ["user"]
    ensures Names(HomeOf(documents, workspace, profile)) == ["documents", "workspace", "profile.txt"]
  {
  }

  lemma {:induction false} HomeEntryPaths()
    ensures HomeDirectory + "/" + "documents" == "/home/user/documents"
    ensures HomeDirectory + "/" + "workspace" == "/home/user/workspace"
  {
  }

  lemma {:induction false} WellFormedHome(documents: Node, workspace: Node, profile: string)
    requires WellFormed(documents) && WellFormed(workspace)
    ensures WellFormed(HomeOf(documents, workspace, profile))
    ensures WellFormed(Graft(HomeOf(documents, workspace, profile)))
  {
    var home := HomeOf(documents, workspace, profile);
    HomeEntriesDistinct(documents, workspace, profile);
    forall j | 0 <= j < |home.entries| ensures WellFormed(home.entries[j].1) {
      if j == 2 {
        assert home.entries[j].1 == File(profile);
      }
    }
    assert WellFormed(home);
    GraftWellFormed(home);
  }

  lemma {:induction false} GraftWellFormed(home: Node)
    requires WellFormed(home)
    ensures WellFormed(Graft(home))
  {
    var user := Dir([("user", home)]);
    assert IsName("user");
    assert WellFormed(user);
    assert IsName("home") && IsName("etc") && IsName("usr");
    assert WellFormed(Dir([]));
  }

  lemma {:induction false} HomeLabels(documents: Node, workspace: Node, profile: string)
    requires documents.Dir? && workspace.Dir?
    ensures EntryLabel(("documents", documents)) == Color("34", "documents/")
    ensures EntryLabel(("workspace", workspace)) == Color("34", "workspace/")
    ensures EntryLabel(("profile.txt", File(profile))) == Color("32", "profile.txt")
  {
  }

  /** `ls` in the grafted home lists its two directories and its file, in stored order. */
  lemma {:induction false} GraftedHomeListing(documents: Node, workspace: Node, profile: string)
    requires documents.Dir? && workspace.Dir?
    ensures Ls(Graft(HomeOf(documents, workspace, profile)), HomeDirectory, [])
         == [Line(Color("34", "documents/") + "    " + Color("34", "workspace/") + "    " + Color("32", "profile.txt"))]
  {
    var home := HomeOf(documents, workspace, profile);
    GraftHome(home);
    HomeDirPath();
    LsListsCurrentDirectory(Graft(home), HomeDirectory);
    ListingOfThree(home.entries);
    HomeLabels(documents, workspace, profile);
  }

  lemma {:induction false} DocumentsPath()
    ensures PathOf(Segments(HomeDirectory) + ["documents"]) == "/home/user/documents"
  {
    HomePath();
    HomeDirPath();
    PathOfAppend(HomeDirectory, "documents");
    HomeEntryPaths();
  }

  lemma {:induction false} HomeEntriesDistinct(documents: Node, workspace: Node, profile: string)
    ensures var entries := HomeOf(documents, workspace, profile).entries;
            && (forall j, k :: 0 <= j < k < |entries| ==> entries[j].0 != entries[k].0)
            && (forall j :: 0 <= j < |entries| ==> IsName(entries[j].0))
  {
    HomeEntryNames();
  }

  /** `cd`, `cat` and `ls` on an entry of the grafted home, by its name. */
  lemma {:induction false} GraftedEntry(documents: Node, workspace: Node, profile: string, i: nat)
    requires i < 3
    ensures var home := HomeOf(documents, workspace, profile);
            var root := Graft(home);
            var (name, node) := home.entries[i];
            && Cd(root, HomeDirectory, [name]) == (if node.Dir? then Reply([], PathOf(Segments(HomeDirectory) + [name]))
                                                   else Reply([Line(CdError([name]))], HomeDirectory))
            && Cat(root, HomeDirectory, [name]) == (if node.File? then [Line(node.content)] else [Line(CatError([name]))])
  {
    var home := HomeOf(documents, workspace, profile);
    GraftHome(home);
    HomeDirPath();
    HomeEntriesDistinct(documents, workspace, profile);
    ListedEntriesResolve(Graft(home), HomeDirectory, home.entries, i);
  }

  /** `cat profile.txt` prints the profile and `cd documents` enters the documents directory. */
  lemma {:induction false} GraftedHomeEntries(documents: Node, workspace: Node, profile: string)
    requires documents.Dir?
    ensures Cat(Graft(HomeOf(documents, workspace, profile)), HomeDirectory, ["profile.txt"]) == [Line(profile)]
    ensures Cd(Graft(HomeOf(documents, workspace, profile)), HomeDirectory, ["documents"]) == Reply([], "/home/user/documents")
  {
    var home := HomeOf(documents, workspace, profile);
    HomeEntriesDistinct(documents, workspace, profile);
    GraftedEntry(documents, workspace, profile, 2);
    GraftedEntry(documents, workspace, profile, 0);
    DocumentsPath();
  }
}
