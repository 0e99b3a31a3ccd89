/** Model assets on disk (cfi_amd/resources.py): the repository-root search,
    the choice of the models directory, the unpacking of model archives and
    the download step that fetches only what is missing. The file system is
    a set of file paths and a set of directory paths; downloads and archive
    listings are parameters. */
module Resources {
  import opened Wrappers

  // ---------------------------------------------------------------- names and paths

  /** A path as its components from the root: `[]` is `/`. */
  type Path = seq<string>

  /** The index of the first occurrence of c in s, if any. */
  function IndexOf(s: string, c: char): (r: Option<nat>)
    ensures r.None? <==> c !in s
    ensures r.Some? ==> r.value < |s| && s[r.value] == c && c !in s[..r.value]
  {
    if s == [] then None
    else if s[0] == c then Some(0)
    else match IndexOf(s[1..], c)
      case None => None
      case Some(i) =>
        assert s[..i + 1] == [s[0]] + s[1..][..i];
        Some(i + 1)
  }

  /** `"/".join(parts)`. */
  function JoinSlash(parts: seq<string>): string
    requires |parts| > 0
  {
    if |parts| == 1 then parts[0] else parts[0] + "/" + JoinSlash(parts[1..])
  }

  /** `str.split("/")`: the pieces between the slashes, empty ones kept;
      joining them with `/` gives the string back. */
  function Split(s: string): (parts: seq<string>)
    ensures |parts| > 0
    ensures forall k :: 0 <= k < |parts| ==> '/' !in parts[k]
    ensures JoinSlash(parts) == s
    decreases |s|
  {
    match IndexOf(s, '/')
    case None => [s]
    case Some(i) =>
      var rest := Split(s[i + 1..]);
      assert ([s[..i]] + rest)[1..] == rest;
      assert s == s[..i] + "/" + s[i + 1..] by {
        assert s == s[..i] + [s[i]] + s[i + 1..];
      }
      [s[..i]] + rest
  }

  /** A piece that names a component: not empty, not `.`, and, when
      parents are dropped too, not `..`. */
  predicate Named(part: string, dropParent: bool) {
    part != "" && part != "." && (dropParent ==> part != "..")
  }

  /** The pieces that name components, in order. */
  function Keep(parts: seq<string>, dropParent: bool): (r: seq<string>)
    ensures forall k :: 0 <= k < |r| ==> r[k] in parts && Named(r[k], dropParent)
  {
    if parts == [] then []
    else
      var rest := Keep(parts[1..], dropParent);
      if Named(parts[0], dropParent) then [parts[0]] + rest else rest
  }

  /** Every named piece is kept, as often as it occurs; every other piece
      is dropped. */
  lemma {:induction false} KeepCounts(parts: seq<string>, dropParent: bool, x: string)
    ensures multiset(Keep(parts, dropParent))[x] == if Named(x, dropParent) then multiset(parts)[x] else 0
  {
    if parts != [] {
      KeepCounts(parts[1..], dropParent, x);
      assert parts == [parts[0]] + parts[1..];
    }
  }

  /** Keeping is done piece by piece: the kept pieces of a + b are those of
      a followed by those of b, so the order of the pieces is preserved. */
  lemma {:induction false} KeepConcat(a: seq<string>, b: seq<string>, dropParent: bool)
    ensures Keep(a + b, dropParent) == Keep(a, dropParent) + Keep(b, dropParent)
  {
    if a != [] {
      assert (a + b)[1..] == a[1..] + b;
      KeepConcat(a[1..], b, dropParent);
    } else {
      assert a + b == b;
    }
  }

  /** The components pathlib makes of a relative name: empty pieces and `.`
      are dropped. */
  function Components(name: string): Path {
    Keep(Split(name), false)
  }

  /** `base / name` in pathlib: an absolute name replaces the base. */
  function Join(base: Path, name: string): Path {
    if |name| > 0 && name[0] == '/' then Components(name) else base + Components(name)
  }

  /** The parent directory (the root is its own parent). */
  function Parent(p: Path): Path {
    if p == [] then [] else p[..|p| - 1]
  }

  /** name starts with `models/`. */
  predicate HasModelsPrefix(name: string) {
    |name| >= 7 && name[..7] == "models/"
  }

  /** name ends with `/`: a directory entry of an archive. */
  predicate IsDirEntry(name: string) {
    |name| > 0 && name[|name| - 1] == '/'
  }

  /** `strip_models_prefix(name)`: split at the first `/`; when there is one
      and the part before it is `models`, the part after it, else name. */
  function StripModelsPrefix(name: string): (r: string)
    ensures r == name || "models/" + r == name
  {
    match IndexOf(name, '/')
    case None => name
    case Some(i) => if name[..i] == "models" then name[i + 1..] else name
  }

  /** `strip_models_prefix` removes exactly one leading `models/` and leaves
      every other name unchanged; putting the prefix back gives the name. */
  lemma StripModelsPrefixExactly(name: string)
    ensures HasModelsPrefix(name) ==> StripModelsPrefix(name) == name[7..] && "models/" + StripModelsPrefix(name) == name
    ensures !HasModelsPrefix(name) ==> StripModelsPrefix(name) == name
  {
    var r := IndexOf(name, '/');
    if HasModelsPrefix(name) {
      assert name[..7][6] == '/';
      assert name[..6] == "models";
      IndexOfIs(name, '/', 6);
      assert name[..7] + name[7..] == name;
    } else if r.Some? {
      SlashAfterModels(name, r.value);
    }
  }

  /** The first occurrence of c is at i when s[i] is c and no c comes
      before it. */
  lemma {:induction false} IndexOfIs(s: string, c: char, i: nat)
    requires i < |s| && s[i] == c && c !in s[..i]
    ensures IndexOf(s, c) == Some(i)
  {
    if i > 0 {
      assert s[0] == s[..i][0];
      assert s[1..][..i - 1] == s[..i][1..];
      IndexOfIs(s[1..], c, i - 1);
    }
  }

  /** A name whose first slash follows `models` starts with `models/`. */
  lemma SlashAfterModels(name: string, i: nat)
    ensures i < |name| && name[i] == '/' && name[..i] == "models" ==> HasModelsPrefix(name)
  {
    if i < |name| && name[i] == '/' && name[..i] == "models" {
      assert name[..7] == name[..i] + [name[i]];
    }
  }

  /** zipfile's sanitised destination for `extractall`: the name's
      components under base, with empty pieces, `.` and `..` removed (a
      leading `/` thereby drops out). */
  function ExtractPath(base: Path, name: string): Path {
    base + Keep(Split(name), true)
  }

  /** Whatever the archive names, `extractall` places every entry under the
      target directory, with no `..` component. */
  lemma ExtractPathInside(base: Path, name: string)
    ensures var p := ExtractPath(base, name);
      |p| >= |base| && p[..|base|] == base && forall k :: |base| <= k < |p| ==> p[k] != ".." && p[k] != ""
  {
  }

  /** The stripping branch joins stripped names without sanitising them: a
      name such as `models//x` lands at `/x`, whatever the target. */
  lemma StrippedNameCanLeaveTarget(target: Path)
    ensures Join(target, StripModelsPrefix("models//x")) == ["x"]
  {
    StripModelsPrefixExactly("models//x");
    assert StripModelsPrefix("models//x") == "/x";
    RootedComponents();
  }

  lemma RootedComponents()
    ensures Components("/x") == ["x"]
  {
    assert IndexOf("x", '/') == None;
    assert Split("x") == ["x"];
    assert "/x"[1..] == "x";
    assert Split("/x") == ["", "x"];
    assert Named("x", false) by {
      assert "x"[0] != "."[0];
    }
    assert ["", "x"][1..] == ["x"] && ["x"][1..] == [];
  }

  // ---------------------------------------------------------------- the file system

  /** Files and directories present on disk. */
  datatype Tree = Tree(files: set<Path>, dirs: set<Path>)

  /** `p.exists()`. */
  predicate Exists(t: Tree, p: Path) {
    p in t.files || p in t.dirs
  }

  /** A real directory tree: the directories above every file and every
      directory exist. */
  predicate Valid(t: Tree) {
    && (forall p, k :: p in t.files && 0 <= k < |p| ==> p[..k] in t.dirs)
    && (forall p, k :: p in t.dirs && 0 <= k < |p| ==> p[..k] in t.dirs)
  }

  /** p and every directory above it. */
  function Prefixes(p: Path): set<Path> {
    set k | 0 <= k <= |p| :: p[..k]
  }

  /** `p.mkdir(parents=True, exist_ok=True)`. */
  function Mkdirs(t: Tree, p: Path): Tree {
    Tree(t.files, t.dirs + Prefixes(p))
  }

  /** Writing file p after `p.parent.mkdir(parents=True, exist_ok=True)`. */
  function WriteFile(t: Tree, p: Path): Tree {
    Tree(t.files + {p}, t.dirs + Prefixes(Parent(p)))
  }

  /** Every part of a tree is still there afterwards. */
  predicate Grows(t: Tree, t': Tree) {
    t.files <= t'.files && t.dirs <= t'.dirs
  }

  /** Making directories and writing files keep a tree a real tree. */
  lemma MkdirsWriteValid(t: Tree, p: Path)
    requires Valid(t)
    ensures Valid(Mkdirs(t, p)) && Valid(WriteFile(t, p))
  {
    var w := WriteFile(t, p);
    forall q, k | q in w.files && 0 <= k < |q|
      ensures q[..k] in w.dirs
    {
      if q == p {
        assert q[..k] == Parent(p)[..k];
      }
    }
    forall q, k | q in w.dirs && 0 <= k < |q|
      ensures q[..k] in w.dirs
    {
      if q !in t.dirs {
        var j :| 0 <= j <= |Parent(p)| && q == Parent(p)[..j];
        assert q[..k] == Parent(p)[..k];
      }
    }
    var m := Mkdirs(t, p);
    forall q, k | q in m.dirs && 0 <= k < |q|
      ensures q[..k] in m.dirs
    {
      if q !in t.dirs {
        var j :| 0 <= j <= |p| && q == p[..j];
        assert q[..k] == p[..k];
      }
    }
  }

  /** Making a directory that exists in a real tree changes nothing. */
  lemma MkdirsExisting(t: Tree, p: Path)
    requires Valid(t) && p in t.dirs
    ensures Mkdirs(t, p) == t
  {
    forall q | q in Prefixes(p)
      ensures q in t.dirs
    {
      var k :| 0 <= k <= |p| && q == p[..k];
      if k == |p| {
        assert q == p;
      }
    }
  }

  // ---------------------------------------------------------------- _unzip

  /** The stripping branch runs iff the archive lists at least one name and
      every name starts with `models/`. */
  predicate StripBranch(names: seq<string>) {
    |names| > 0 && forall k :: 0 <= k < |names| ==> HasModelsPrefix(names[k])
  }

  /** One entry of the stripping branch: an entry whose stripped name is
      empty is skipped; a directory entry makes its directory; any other
      entry is written as a file, after its parent directory. */
  function StripEntry(t: Tree, target: Path, member: string): (r: Tree)
    ensures Grows(t, r)
    ensures StripModelsPrefix(member) == "" ==> r == t
    ensures IsDirEntry(member) ==> r.files == t.files
  {
    var name := StripModelsPrefix(member);
    if name == "" then t
    else if IsDirEntry(member) then Mkdirs(t, Join(target, name))
    else WriteFile(t, Join(target, name))
  }

  /** One entry of `extractall`: a directory entry makes its directory, any
      other entry is written as a file; an entry whose sanitised name is
      empty adds nothing. */
  function ExtractEntry(t: Tree, target: Path, member: string): (r: Tree)
    ensures Grows(t, r)
    ensures IsDirEntry(member) ==> r.files == t.files
    ensures forall p :: p in r.files && p !in t.files ==> |p| > |target| && p[..|target|] == target
  {
    var dest := ExtractPath(target, member);
    if dest == target then t
    else if IsDirEntry(member) then Mkdirs(t, dest)
    else WriteFile(t, dest)
  }

  /** The entries names[..n] unpacked into target, branch by branch. */
  function UnzipEntries(t: Tree, target: Path, names: seq<string>, strip: bool): (r: Tree)
    ensures Grows(t, r)
  {
    if names == [] then t
    else
      var before := UnzipEntries(t, target, names[..|names| - 1], strip);
      if strip then StripEntry(before, target, names[|names| - 1]) else ExtractEntry(before, target, names[|names| - 1])
  }

  /** `_unzip(zip_path, target_dir)` for an archive listing names: the target
      directory is made, then the entries are unpacked in the branch the
      names decide. */
  function Unzip(t: Tree, target: Path, names: seq<string>): (r: Tree)
    ensures Grows(t, r) && target in r.dirs
  {
    assert target == target[..|target|];
    UnzipEntries(Mkdirs(t, target), target, names, StripBranch(names))
  }

  /** Unpacking only adds, and keeps a real tree real. */
  lemma {:induction false} UnzipEntriesGrows(t: Tree, target: Path, names: seq<string>, strip: bool)
    requires Valid(t)
    ensures Grows(t, UnzipEntries(t, target, names, strip)) && Valid(UnzipEntries(t, target, names, strip))
  {
    if names != [] {
      var before := UnzipEntries(t, target, names[..|names| - 1], strip);
      UnzipEntriesGrows(t, target, names[..|names| - 1], strip);
      var member := names[|names| - 1];
      MkdirsWriteValid(before, Join(target, StripModelsPrefix(member)));
      MkdirsWriteValid(before, ExtractPath(target, member));
    }
  }

  /** Unpacking adds the same entries whatever was on disk before: it is the
      union of the tree with what unpacking into an empty tree adds. */
  lemma {:induction false} UnzipEntriesAdds(t: Tree, target: Path, names: seq<string>, strip: bool)
    ensures var added := UnzipEntries(Tree({}, {}), target, names, strip);
      UnzipEntries(t, target, names, strip) == Tree(t.files + added.files, t.dirs + added.dirs)
  {
    if names != [] {
      var init := names[..|names| - 1];
      var member := names[|names| - 1];
      UnzipEntriesAdds(t, target, init, strip);
      EntryAdds(UnzipEntries(t, target, init, strip), target, member, strip);
      EntryAdds(UnzipEntries(Tree({}, {}), target, init, strip), target, member, strip);
    }
  }

  /** One entry adds the same files and directories whatever was on disk
      before. */
  lemma EntryAdds(t: Tree, target: Path, member: string, strip: bool)
    ensures var step := if strip then StripEntry(t, target, member) else ExtractEntry(t, target, member);
      var added := if strip then StripEntry(Tree({}, {}), target, member) else ExtractEntry(Tree({}, {}), target, member);
      step == Tree(t.files + added.files, t.dirs + added.dirs)
  {
  }

  /** `names and all(n.startswith("models/") for n in names)`. */
  method AllModelsPrefixed(names: seq<string>) returns (strip: bool)
    ensures strip == StripBranch(names)
  {
    strip := |names| > 0;
    for k := 0 to |names|
      invariant strip == (|names| > 0 && forall j :: 0 <= j < k ==> HasModelsPrefix(names[j]))
    {
      if !HasModelsPrefix(names[k]) {
        strip := false;
      }
    }
  }

  /** The class over the disk, whose operations are the ones above. */
  class FileSystem {
    var tree: Tree

    constructor (initial: Tree)
      ensures tree == initial
    {
      tree := initial;
    }

    /** `p.mkdir(parents=True, exist_ok=True)`. */
    method MakeDirs(p: Path)
      modifies this
      ensures tree == Mkdirs(old(tree), p)
    {
      tree := Tree(tree.files, tree.dirs + Prefixes(p));
    }

    /** Writing file p. */
    method Write(p: Path)
      modifies this
      ensures tree == Tree(old(tree).files + {p}, old(tree).dirs)
    {
      tree := Tree(tree.files + {p}, tree.dirs);
    }

    /** `_unzip(zip_path, target_dir)` for an archive listing names. */
    method UnzipArchive(target: Path, names: seq<string>)
      modifies this
      ensures tree == Unzip(old(tree), target, names)
    {
      MakeDirs(target);
      var strip := AllModelsPrefixed(names);
      ghost var start := tree;
      for i := 0 to |names|
        invariant tree == UnzipEntries(start, target, names[..i], strip)
      {
        assert names[..i + 1][..i] == names[..i];
        UnzipMember(target, names[i], strip);
      }
      assert names[..|names|] == names;
    }

    /** The body of either branch's loop of `_unzip` for one member. */
    method UnzipMember(target: Path, member: string, strip: bool)
      modifies this
      ensures tree == if strip then StripEntry(old(tree), target, member) else ExtractEntry(old(tree), target, member)
    {
      if strip {
        var name := StripModelsPrefix(member);
        if name == "" {
          return;
        }
        var dest := Join(target, name);
        if IsDirEntry(member) {
          MakeDirs(dest);
          return;
        }
        MakeDirs(Parent(dest));
        Write(dest);
      } else {
        var dest := ExtractPath(target, member);
        if dest == target {
          return;
        }
        if IsDirEntry(member) {
          MakeDirs(dest);
        } else {
          MakeDirs(Parent(dest));
          Write(dest);
        }
      }
    }

    /** `find_repo_root(start)`: start, then each of its parents towards the
        root; the first that holds any sentinel, or None. */
    method FindRepoRoot(start: Path) returns (root: Option<Path>)
      ensures root.Some? ==> (|root.value| <= |start| && root.value == start[..|root.value|]
        && HasSentinel(tree, root.value)
        && forall k :: |root.value| < k <= |start| ==> !HasSentinel(tree, start[..k]))
      ensures root.None? ==> forall k :: 0 <= k <= |start| ==> !HasSentinel(tree, start[..k])
    {
      var n := |start|;
      while true
        invariant 0 <= n <= |start|
        invariant forall k :: n < k <= |start| ==> !HasSentinel(tree, start[..k])
        decreases n
      {
        var parent := start[..n];
        var remaining := Sentinels;
        while remaining != {}
          invariant remaining <= Sentinels
          invariant forall s :: s in Sentinels && s !in remaining ==> !Exists(tree, parent + [s])
          decreases |remaining|
        {
          var sentinel :| sentinel in remaining;
          if Exists(tree, parent + [sentinel]) {
            return Some(parent);
          }
          remaining := remaining - {sentinel};
        }
        if n == 0 {
          return None;
        }
        n := n - 1;
      }
    }

    /** `ensure_models_downloaded(models_base_dir)`, with `download(url)`
        the names listed by the archive behind url. */
    method EnsureModelsDownloaded(base: Path, download: string -> seq<string>)
      modifies this
      ensures tree == EnsureDownloaded(old(tree), base, download)
    {
      MakeDirs(base);
      ghost var start := tree;
      for i := 0 to |Assets|
        invariant tree == Fetch(start, base, Assets[..i], download)
      {
        var asset := Assets[i];
        assert Assets[..i + 1][..i] == Assets[..i];
        var dest := base + [asset.target];
        if Exists(tree, dest) {
          continue;
        }
        if asset.isZip {
          UnzipArchive(base, download(asset.url));
        } else {
          MakeDirs(Parent(dest));
          Write(dest);
        }
      }
      assert Assets[..|Assets|] == Assets;
    }
  }

  // ---------------------------------------------------------------- find_repo_root, get_models_base_dir

  /** The files that mark a repository root (`SENTINELS`). */
  const Sentinels: set<string> := {".git", "pyproject.toml"}

  /** Directory p contains a sentinel. */
  predicate HasSentinel(t: Tree, p: Path) {
    exists s :: s in Sentinels && Exists(t, p + [s])
  }

  /** `get_models_base_dir(models_dir)`: the directory given, or the
      platform's default (a parameter) when none is. */
  function GetModelsBaseDir(modelsDir: Option<Path>, defaultDir: Path): (base: Path)
    ensures modelsDir.Some? ==> base == modelsDir.value
    ensures modelsDir.None? ==> base == defaultDir
  {
    match modelsDir
    case Some(dir) => dir
    case None => defaultDir
  }

  // ---------------------------------------------------------------- ensure_models_downloaded

  /** One entry of `ASSETS`. */
  datatype Asset = Asset(url: string, target: string, isZip: bool)

  /** `ASSETS`, in order: the two landmark networks as plain files, then
      the three segmentation ensembles as archives. */
  const Assets: seq<Asset> := [
    Asset("https://github.com/Eyened/cfi-amd/releases/download/v0.1-alpha/discedge_july24.pt", "discedge_july24.pt", false),
    Asset("https://github.com/Eyened/cfi-amd/releases/download/v0.1-alpha/fovea_july24.pt", "fovea_july24.pt", false),
    Asset("https://github.com/Eyened/cfi-amd/releases/download/v0.1-alpha/drusen.zip", "drusen", true),
    Asset("https://github.com/Eyened/cfi-amd/releases/download/v0.1-alpha/RPD.zip", "RPD", true),
    Asset("https://github.com/Eyened/cfi-amd/releases/download/v0.1-alpha/pigment.zip", "pigment", true)]

  /** One asset: skipped when `base/target` exists; otherwise a plain asset
      is downloaded to `base/target` and an archive is unpacked into `base`
      itself. */
  function FetchOne(t: Tree, base: Path, asset: Asset, download: string -> seq<string>): (r: Tree)
    ensures Grows(t, r)
    ensures Exists(t, base + [asset.target]) ==> r == t
    ensures !Exists(t, base + [asset.target]) && !asset.isZip ==> base + [asset.target] in r.files
  {
    if Exists(t, base + [asset.target]) then t
    else if asset.isZip then Unzip(t, base, download(asset.url))
    else WriteFile(t, base + [asset.target])
  }

  /** The assets handled in list order. */
  function Fetch(t: Tree, base: Path, assets: seq<Asset>, download: string -> seq<string>): (r: Tree)
    ensures Grows(t, r)
  {
    if assets == [] then t
    else FetchOne(Fetch(t, base, assets[..|assets| - 1], download), base, assets[|assets| - 1], download)
  }

  /** `ensure_models_downloaded`: make the base directory, then fetch every
      asset in order. */
  function EnsureDownloaded(t: Tree, base: Path, download: string -> seq<string>): (r: Tree)
    ensures Grows(t, r) && base in r.dirs
  {
    assert base == base[..|base|];
    Fetch(Mkdirs(t, base), base, Assets, download)
  }

  /** Every asset's target exists. */
  predicate TargetsExist(t: Tree, base: Path, assets: seq<Asset>) {
    forall k :: 0 <= k < |assets| ==> Exists(t, base + [assets[k].target])
  }

  /** Each archive puts its target directory under the base it is unpacked
      into (as the published archives do, with their `models/<target>/...`
      entries). */
  predicate ArchivesPlaceTargets(base: Path, assets: seq<Asset>, download: string -> seq<string>) {
    forall k :: 0 <= k < |assets| && assets[k].isZip ==>
      Exists(Unzip(Tree({}, {}), base, download(assets[k].url)), base + [assets[k].target])
  }

  /** Unpacking adds what it adds to the empty tree. */
  lemma UnzipAdds(t: Tree, target: Path, names: seq<string>)
    ensures var added := Unzip(Tree({}, {}), target, names);
      Unzip(t, target, names) == Tree(t.files + added.files, t.dirs + added.dirs)
  {
    var strip := StripBranch(names);
    UnzipEntriesAdds(Mkdirs(t, target), target, names, strip);
    UnzipEntriesAdds(Mkdirs(Tree({}, {}), target), target, names, strip);
    assert Mkdirs(Tree({}, {}), target) == Tree({}, Prefixes(target));
  }

  /** Fetching only adds, keeps a real tree real, and leaves a tree in which
      every target already exists exactly as it was. */
  lemma {:induction false} FetchGrows(t: Tree, base: Path, assets: seq<Asset>, download: string -> seq<string>)
    requires Valid(t)
    ensures Grows(t, Fetch(t, base, assets, download)) && Valid(Fetch(t, base, assets, download))
    ensures TargetsExist(t, base, assets) ==> Fetch(t, base, assets, download) == t
  {
    if assets != [] {
      var init := assets[..|assets| - 1];
      var asset := assets[|assets| - 1];
      FetchGrows(t, base, init, download);
      var before := Fetch(t, base, init, download);
      MkdirsWriteValid(before, base + [asset.target]);
      UnzipEntriesGrows(Mkdirs(before, base), base, download(asset.url), StripBranch(download(asset.url)));
      MkdirsWriteValid(before, base);
      if TargetsExist(t, base, assets) {
        assert TargetsExist(t, base, init);
        assert Exists(t, base + [asset.target]);
      }
    }
  }

  /** One asset's target exists after it is handled, provided an archive
      places its target. */
  lemma FetchOnePlaces(t: Tree, base: Path, asset: Asset, download: string -> seq<string>)
    requires asset.isZip ==> Exists(Unzip(Tree({}, {}), base, download(asset.url)), base + [asset.target])
    ensures Exists(FetchOne(t, base, asset, download), base + [asset.target])
  {
    if !Exists(t, base + [asset.target]) && asset.isZip {
      UnzipAdds(t, base, download(asset.url));
    }
  }

  /** After fetching, every asset's target exists, provided each archive
      places its target. */
  lemma {:induction false} FetchPlacesTargets(t: Tree, base: Path, assets: seq<Asset>, download: string -> seq<string>)
    requires ArchivesPlaceTargets(base, assets, download)
    ensures TargetsExist(Fetch(t, base, assets, download), base, assets)
  {
    if assets != [] {
      var init := assets[..|assets| - 1];
      var asset := assets[|assets| - 1];
      assert ArchivesPlaceTargets(base, init, download) by {
        forall k | 0 <= k < |init| && init[k].isZip
          ensures Exists(Unzip(Tree({}, {}), base, download(init[k].url)), base + [init[k].target])
        {
          assert init[k] == assets[k];
        }
      }
      FetchPlacesTargets(t, base, init, download);
      var before := Fetch(t, base, init, download);
      var after := Fetch(t, base, assets, download);
      FetchOnePlaces(before, base, asset, download);
      forall k | 0 <= k < |assets|
        ensures Exists(after, base + [assets[k].target])
      {
        if k < |init| {
          assert assets[k] == init[k];
          assert Exists(before, base + [init[k].target]);
        }
      }
    }
  }

  /** After `ensure_models_downloaded` every asset's target exists, nothing
      that was there has gone, and a second call changes nothing: the step
      is idempotent. */
  lemma EnsureDownloadedIdempotent(t: Tree, base: Path, download: string -> seq<string>)
    requires Valid(t) && ArchivesPlaceTargets(base, Assets, download)
    ensures var once := EnsureDownloaded(t, base, download);
      && Grows(t, once)
      && TargetsExist(once, base, Assets)
      && EnsureDownloaded(once, base, download) == once
  {
    var made := Mkdirs(t, base);
    MkdirsWriteValid(t, base);
    assert base in made.dirs by {
      assert base[..|base|] == base;
    }
    FetchGrows(made, base, Assets, download);
    FetchPlacesTargets(made, base, Assets, download);
    var once := EnsureDownloaded(t, base, download);
    MkdirsExisting(once, base);
    FetchGrows(once, base, Assets, download);
  }

  /** When every target is already present, `ensure_models_downloaded`
      downloads nothing and the tree keeps only the base directory it makes. */
  lemma EnsureDownloadedSkipsPresent(t: Tree, base: Path, download: string -> seq<string>)
    requires Valid(t) && TargetsExist(t, base, Assets)
    ensures EnsureDownloaded(t, base, download) == Mkdirs(t, base)
  {
    MkdirsWriteValid(t, base);
    assert TargetsExist(Mkdirs(t, base), base, Assets);
    FetchGrows(Mkdirs(t, base), base, Assets, download);
  }
}
