/** Lexical path handling (Go's path/filepath on Unix) and the worktree paths of internal/sync/build.go. */
module Paths {
  import opened Text

  // ----- filepath.Clean and filepath.Join -----

  /** One more path element, with `.`, `..` and empty elements resolved against the elements kept so far. */
  function Push(rooted: bool, kept: seq<string>, c: string): seq<string> {
    if c == "" || c == "." then kept
    else if c != ".." then kept + [c]
    else if kept != [] && kept[|kept| - 1] != ".." then kept[..|kept| - 1]
    else if rooted then kept
    else kept + [".."]
  }

  function Walk(rooted: bool, kept: seq<string>, parts: seq<string>): seq<string> {
    if parts == [] then kept
    else Push(rooted, Walk(rooted, kept, parts[..|parts| - 1]), parts[|parts| - 1])
  }

  predicate Rooted(path: string) {
    path != "" && path[0] == '/'
  }

  function Parts(path: string): seq<string> {
    Walk(Rooted(path), [], Split(path, '/'))
  }

  function Clean(path: string): string {
    var parts := Parts(path);
    if Rooted(path) then "/" + Joined(parts, '/')
    else if parts == [] then "." else Joined(parts, '/')
  }

  /** Leading empty elements are dropped; the rest is joined and cleaned. */
  function Join(elems: seq<string>): string {
    if elems == [] then ""
    else if elems[0] == "" then Join(elems[1..])
    else Clean(Joined(elems, '/'))
  }

  // ----- the paths of a repository -----

  const CONFLOWCI: string := "conflowci"
  const BUILD: string := "build"

  /** The build directory in a user's home. */
  function BuildPath(home: string): string {
    home + ['/'] + (CONFLOWCI + ['/'] + BUILD)
  }

  function RepoDir(home: string, name: string): string {
    Join([BuildPath(home), name])
  }

  /** The relative path handed to `git worktree add` and `git worktree remove`. */
  function WorktreeRelPath(name: string, branch: string): string {
    "../" + (name + "-" + branch)
  }

  /** The directory git resolves that path to, when run in the repository's directory. */
  function WorktreeDir(home: string, name: string, branch: string): string {
    Clean(RepoDir(home, name) + ['/'] + WorktreeRelPath(name, branch))
  }

  /** The directory the build changes into. */
  function BuildDir(home: string, name: string, branch: string): string {
    Join([RepoDir(home, name), Join(["..", name + "-" + branch])])
  }

  // ----- lemmas about walks -----

  lemma {:induction false} WalkConcat(rooted: bool, kept: seq<string>, a: seq<string>, b: seq<string>)
    ensures Walk(rooted, kept, a + b) == Walk(rooted, Walk(rooted, kept, a), b)
  {
    if b == [] {
      assert a + b == a;
    } else {
      WalkConcat(rooted, kept, a, b[..|b| - 1]);
      assert (a + b)[..|a + b| - 1] == a + b[..|b| - 1];
    }
  }

  /** What a walk keeps: real names and, in relative paths, leading `..` elements. */
  predicate Kept(parts: seq<string>) {
    forall i :: 0 <= i < |parts| ==> parts[i] != "" && parts[i] != "." && '/' !in parts[i]
  }

  lemma {:induction false} WalkKeeps(rooted: bool, kept: seq<string>, parts: seq<string>)
    requires Kept(kept) && forall i :: 0 <= i < |parts| ==> '/' !in parts[i]
    ensures Kept(Walk(rooted, kept, parts))
  {
    if parts != [] {
      WalkKeeps(rooted, kept, parts[..|parts| - 1]);
    }
  }

  /** Cleaning the relative part first makes no difference. */
  lemma {:induction false} WalkCleaned(rooted: bool, kept: seq<string>, parts: seq<string>)
    requires forall i :: 0 <= i < |parts| ==> '/' !in parts[i]
    ensures Walk(rooted, kept, Walk(false, [], parts)) == Walk(rooted, kept, parts)
  {
    if parts != [] {
      var front, c := parts[..|parts| - 1], parts[|parts| - 1];
      WalkCleaned(rooted, kept, front);
      WalkKeeps(false, [], front);
      PushCleaned(rooted, kept, Walk(false, [], front), c);
    }
  }

  lemma PushCleaned(rooted: bool, kept: seq<string>, clean: seq<string>, c: string)
    requires Kept(clean)
    ensures Walk(rooted, kept, Push(false, clean, c)) == Push(rooted, Walk(rooted, kept, clean), c)
  {
    if c == "" || c == "." {
    } else if c == ".." && clean != [] && clean[|clean| - 1] != ".." {
      var before := Walk(rooted, kept, clean[..|clean| - 1]);
      assert Walk(rooted, kept, clean) == before + [clean[|clean| - 1]];
    } else {
      assert (clean + [c])[..|clean|] == clean;
    }
  }

  /** The leading `..` of a relative path is never resolved away. */
  lemma {:induction false} KeepsUp(parts: seq<string>)
    requires parts != [] && parts[0] == ".."
    ensures var kept := Walk(false, [], parts); kept != [] && kept[0] == ".."
  {
    if |parts| == 1 {
      assert parts[..0] == [];
    } else {
      KeepsUp(parts[..|parts| - 1]);
    }
  }

  // ----- cleaning a joined path -----

  /** The elements of `dir/rel`, read off the elements of the two. */
  lemma PartsOfJoined(dir: string, rel: string)
    requires dir != ""
    ensures Rooted(dir + ['/'] + rel) == Rooted(dir)
    ensures Parts(dir + ['/'] + rel) == Walk(Rooted(dir), Parts(dir), Split(rel, '/'))
  {
    assert (dir + ['/'] + rel)[0] == dir[0];
    SplitConcat(dir, rel, '/');
    WalkConcat(Rooted(dir), [], Split(dir, '/'), Split(rel, '/'));
  }

  lemma SameParts(a: string, b: string)
    requires Rooted(a) == Rooted(b) && Parts(a) == Parts(b)
    ensures Clean(a) == Clean(b)
  {
  }

  lemma CleanNonEmpty(path: string)
    ensures Clean(path) != ""
  {
    WalkKeeps(Rooted(path), [], Split(path, '/'));
    var parts := Parts(path);
    if parts != [] {
      JoinedNonEmpty(parts);
    }
  }

  lemma JoinedNonEmpty(parts: seq<string>)
    requires parts != [] && parts[0] != ""
    ensures Joined(parts, '/') != "" && Joined(parts, '/')[0] == parts[0][0]
  {
  }

  /** A relative path that starts upwards cleans to the join of its elements. */
  lemma CleanUp(rel: string)
    requires Split(rel, '/')[0] == ".." && rel != "" && rel[0] == '.'
    ensures Split(Clean(rel), '/') == Walk(false, [], Split(rel, '/'))
  {
    var parts := Split(rel, '/');
    KeepsUp(parts);
    WalkKeeps(false, [], parts);
    SplitJoined(Walk(false, [], parts), '/');
  }

  /** Joining with an already cleaned upward path, or with the path itself, gives the same directory. */
  lemma JoinCleaned(dir: string, rel: string)
    requires dir != "" && rel != "" && rel[0] == '.' && Split(rel, '/')[0] == ".."
    ensures Clean(dir + ['/'] + Clean(rel)) == Clean(dir + ['/'] + rel)
  {
    CleanUp(rel);
    PartsOfJoined(dir, rel);
    PartsOfJoined(dir, Clean(rel));
    WalkCleaned(Rooted(dir), Parts(dir), Split(rel, '/'));
    SameParts(dir + ['/'] + Clean(rel), dir + ['/'] + rel);
  }

  lemma JoinTwo(a: string, b: string)
    requires a != ""
    ensures Join([a, b]) == Clean(a + ['/'] + b)
  {
    assert [a, b][1..] == [b];
    assert Joined([a, b], '/') == a + ['/'] + b;
  }

  /**
   * Worktree agreement: for all names and branches, the directory the build changes into is the one the
   * worktree was added at, and the one removal names.
   */
  lemma WorktreeAgreement(home: string, name: string, branch: string)
    ensures BuildDir(home, name, branch) == WorktreeDir(home, name, branch)
  {
    var dir, x, rel := RepoDir(home, name), name + "-" + branch, WorktreeRelPath(name, branch);
    JoinTwo(BuildPath(home), name);
    CleanNonEmpty(BuildPath(home) + ['/'] + name);
    JoinTwo("..", x);
    assert ".." + ['/'] + x == rel;
    SplitAt("..", x, '/');
    CleanNonEmpty(rel);
    JoinTwo(dir, Clean(rel));
    JoinCleaned(dir, rel);
  }

  // ----- cleaning twice -----

  /** Plain names: nothing to resolve. */
  predicate Plain(parts: seq<string>) {
    Kept(parts) && forall i :: 0 <= i < |parts| ==> parts[i] != ".."
  }

  lemma {:induction false} RootedWalkPlain(kept: seq<string>, parts: seq<string>)
    requires Plain(kept) && forall i :: 0 <= i < |parts| ==> '/' !in parts[i]
    ensures Plain(Walk(true, kept, parts))
  {
    if parts != [] {
      RootedWalkPlain(kept, parts[..|parts| - 1]);
    }
  }

  lemma {:induction false} PlainWalk(rooted: bool, kept: seq<string>, parts: seq<string>)
    requires Plain(parts)
    ensures Walk(rooted, kept, parts) == kept + parts
  {
    if parts != [] {
      PlainWalk(rooted, kept, parts[..|parts| - 1]);
    } else {
      assert kept + parts == kept;
    }
  }

  lemma PartsOfCleanRooted(path: string)
    requires Rooted(path)
    ensures Rooted(Clean(path)) && Parts(Clean(path)) == Parts(path)
  {
    var parts := Parts(path);
    RootedWalkPlain([], Split(path, '/'));
    var body := Joined(parts, '/');
    assert Clean(path) == [] + ['/'] + body;
    SplitAt([], body, '/');
    WalkConcat(true, [], [[]], Split(body, '/'));
    assert Walk(true, [], [""]) == [] by { assert [""][..0] == []; }
    if parts != [] {
      SplitJoined(parts, '/');
      PlainWalk(true, [], parts);
    } else {
      assert Split(body, '/') == [""];
    }
  }

  lemma PartsOfCleanRelative(path: string)
    requires !Rooted(path)
    ensures !Rooted(Clean(path)) && Parts(Clean(path)) == Parts(path)
  {
    var parts := Parts(path);
    WalkKeeps(false, [], Split(path, '/'));
    WalkCleaned(false, [], Split(path, '/'));
    if parts != [] {
      JoinedNonEmpty(parts);
      SplitJoined(parts, '/');
    } else {
      SplitOne(".", '/');
      assert ["."][..0] == [];
    }
  }

  lemma CleanTwice(path: string)
    ensures Clean(Clean(path)) == Clean(path)
  {
    if Rooted(path) { PartsOfCleanRooted(path); } else { PartsOfCleanRelative(path); }
    SameParts(Clean(path), path);
  }

  /** The cleaned path: its resolved elements, after an empty one if it is absolute; `.` if there are none. */
  lemma CleanForm(path: string)
    ensures Split(Clean(path), '/') ==
            if Rooted(path) then [""] + (if Parts(path) == [] then [""] else Parts(path))
            else if Parts(path) == [] then ["."] else Parts(path)
  {
    WalkKeeps(Rooted(path), [], Split(path, '/'));
    var body := Joined(Parts(path), '/');
    if Parts(path) != [] {
      SplitJoined(Parts(path), '/');
    } else {
      assert body == "" && Split(body, '/') == [""];
      SplitOne(".", '/');
    }
    if Rooted(path) {
      assert Clean(path) == [] + ['/'] + body;
      SplitAt([], body, '/');
    }
  }

  /** The elements of a path joined from a directory and two paths below it. */
  lemma PartsOfThree(dir: string, a: string, b: string)
    requires dir != ""
    ensures var path := Join([dir, a, b]);
            Rooted(path) == Rooted(dir) && Parts(path) == Walk(Rooted(dir), Parts(dir), Split(a, '/') + Split(b, '/'))
  {
    var below := a + ['/'] + b;
    assert [dir, a, b][1..] == [a, b] && [a, b][1..] == [b];
    assert Joined([a, b], '/') == below;
    assert Joined([dir, a, b], '/') == dir + ['/'] + below;
    PartsOfJoined(dir, below);
    SplitConcat(a, b, '/');
    if Rooted(dir) {
      PartsOfCleanRooted(dir + ['/'] + below);
    } else {
      PartsOfCleanRelative(dir + ['/'] + below);
    }
  }

  lemma TwoNames(a: string, b: string)
    requires '/' !in a && '/' !in b
    ensures Split(a + ['/'] + b, '/') == [a, b]
  {
    SplitOne(b, '/');
    SplitAt(a, b, '/');
  }

  lemma BuildNames()
    ensures '/' !in CONFLOWCI && '/' !in BUILD
  {
    assert forall i :: 0 <= i < |CONFLOWCI| ==> CONFLOWCI[i] != '/';
    assert forall i :: 0 <= i < |BUILD| ==> BUILD[i] != '/';
  }

  lemma BuildPathParts(home: string)
    requires Rooted(home)
    ensures Rooted(BuildPath(home)) && Parts(BuildPath(home)) == Parts(home) + [CONFLOWCI, BUILD]
  {
    BuildNames();
    PartsOfJoined(home, CONFLOWCI + ['/'] + BUILD);
    TwoNames(CONFLOWCI, BUILD);
    PlainWalk(true, Parts(home), [CONFLOWCI, BUILD]);
  }

  /** A repository lies in the build directory, under its name. */
  lemma RepoDirParts(home: string, name: string)
    requires Rooted(home) && Plain(Split(name, '/'))
    ensures Rooted(RepoDir(home, name))
    ensures Parts(RepoDir(home, name)) == Parts(home) + [CONFLOWCI, BUILD] + Split(name, '/')
  {
    BuildPathParts(home);
    PlainParts(BuildPath(home), name);
    JoinTwo(BuildPath(home), name);
    PartsOfCleanRooted(BuildPath(home) + ['/'] + name);
  }

  // ----- where the worktree lies -----

  predicate SimpleName(name: string) {
    name != "" && name != "." && name != ".." && '/' !in name
  }

  /** The worktree of a repository with a simple name lies beside it in the build directory. */
  lemma WorktreeBesideRepository(home: string, name: string, branch: string)
    requires SimpleName(name) && Rooted(home)
    ensures WorktreeDir(home, name, branch) == Join([BuildPath(home), name + "-" + branch])
  {
    var build, x := BuildPath(home), name + "-" + branch;
    var dir, rel := RepoDir(home, name), WorktreeRelPath(name, branch);
    JoinTwo(build, name);
    JoinTwo(build, x);
    CleanNonEmpty(build + ['/'] + name);
    PartsOfCleanRooted(build + ['/'] + name);
    PartsOfJoined(build, name);
    SplitOne(name, '/');
    RepoParts(build, name);
    PartsOfJoined(dir, rel);
    assert rel == ".." + ['/'] + x;
    SplitAt("..", x, '/');
    UpAndIn(Parts(build), name, Split(x, '/'));
    PartsOfJoined(build, x);
    SameParts(dir + ['/'] + rel, build + ['/'] + x);
  }

  lemma RepoParts(build: string, name: string)
    requires SimpleName(name) && Split(name, '/') == [name]
    ensures Walk(true, Parts(build), Split(name, '/')) == Parts(build) + [name]
  {
    assert [name][..0] == [];
  }

  lemma UpAndIn(kept: seq<string>, name: string, parts: seq<string>)
    requires SimpleName(name)
    ensures Walk(true, kept + [name], [".."] + parts) == Walk(true, kept, parts)
  {
    WalkConcat(true, kept + [name], [".."], parts);
    assert [".."][..0] == [];
    assert (kept + [name])[..|kept|] == kept;
  }

  /** So it does not identify repository and branch: the separator may be part of either name. */
  lemma WorktreesCollide(home: string, a: string, b: string, c: string)
    requires SimpleName(a) && SimpleName(a + "-" + b) && Rooted(home)
    ensures WorktreeDir(home, a + "-" + b, c) == WorktreeDir(home, a, b + "-" + c)
  {
    WorktreeBesideRepository(home, a + "-" + b, c);
    WorktreeBesideRepository(home, a, b + "-" + c);
    assert a + "-" + b + "-" + c == a + "-" + (b + "-" + c);
  }

  lemma PlainParts(build: string, x: string)
    requires Rooted(build) && Plain(Split(x, '/'))
    ensures Parts(Join([build, x])) == Parts(build) + Split(x, '/')
  {
    JoinTwo(build, x);
    PartsOfJoined(build, x);
    PartsOfCleanRooted(build + ['/'] + x);
    PlainWalk(true, Parts(build), Split(x, '/'));
  }

  lemma SameTail(front: seq<string>, a: seq<string>, b: seq<string>)
    requires front + a == front + b
    ensures a == b
  {
    assert (front + a)[|front|..] == a && (front + b)[|front|..] == b;
  }

  /** All elements of a name but the last: the directories a name with slashes leads into. */
  function Front(name: string): seq<string> {
    Split(name, '/')[..|Split(name, '/')| - 1]
  }

  /** The elements of a worktree's directory, for a name and a branch without empty, `.` or `..` elements. */
  lemma WorktreeParts(home: string, name: string, branch: string)
    requires Rooted(home) && Plain(Split(name, '/')) && Plain(Split(name + "-" + branch, '/'))
    ensures Rooted(WorktreeDir(home, name, branch))
    ensures Parts(WorktreeDir(home, name, branch))
         == Parts(BuildPath(home)) + (Front(name) + Split(name + "-" + branch, '/'))
  {
    var build, x := BuildPath(home), name + "-" + branch;
    var dir, rel := RepoDir(home, name), WorktreeRelPath(name, branch);
    PlainParts(build, name);
    JoinTwo(build, name);
    PartsOfCleanRooted(build + ['/'] + name);
    PartsOfJoined(dir, rel);
    assert rel == ".." + ['/'] + x;
    SplitAt("..", x, '/');
    UpFrom(Parts(build), Split(name, '/'), Split(x, '/'));
    PartsOfCleanRooted(dir + ['/'] + rel);
  }

  lemma UpFrom(kept: seq<string>, name: seq<string>, parts: seq<string>)
    requires Plain(name) && name != [] && Plain(parts)
    ensures Walk(true, kept + name, [".."] + parts) == kept + (name[..|name| - 1] + parts)
  {
    var last := |name| - 1;
    assert kept + name == kept + name[..last] + [name[last]];
    WalkConcat(true, kept + name, [".."], parts);
    assert [".."][..0] == [];
    assert (kept + name)[..|kept + name| - 1] == kept + name[..last];
    PlainWalk(true, kept + name[..last], parts);
    assert kept + name[..last] + parts == kept + (name[..last] + parts);
  }

  lemma SamePartsExactly(a: string, b: string)
    requires Rooted(a) && Rooted(b) && a == Clean(a) && b == Clean(b)
    ensures a == b <==> Parts(a) == Parts(b)
  {
  }

  /**
   * Two worktrees are the same exactly when the directories of the two build names, followed by the joined names, are.
   * No element may be empty, `.` or `..`, as none is in the name of a git branch.
   */
  lemma SameWorktreeExactly(home: string, name: string, branch: string, name': string, branch': string)
    requires Rooted(home) && Plain(Split(name, '/')) && Plain(Split(name', '/'))
    requires Plain(Split(name + "-" + branch, '/')) && Plain(Split(name' + "-" + branch', '/'))
    ensures WorktreeDir(home, name, branch) == WorktreeDir(home, name', branch')
       <==> Front(name) + Split(name + "-" + branch, '/') == Front(name') + Split(name' + "-" + branch', '/')
  {
    var dir, dir' := WorktreeDir(home, name, branch), WorktreeDir(home, name', branch');
    WorktreeParts(home, name, branch);
    WorktreeParts(home, name', branch');
    CleanTwice(RepoDir(home, name) + ['/'] + WorktreeRelPath(name, branch));
    CleanTwice(RepoDir(home, name') + ['/'] + WorktreeRelPath(name', branch'));
    SamePartsExactly(dir, dir');
    if dir == dir' {
      SameTail(Parts(BuildPath(home)),
               Front(name) + Split(name + "-" + branch, '/'), Front(name') + Split(name' + "-" + branch', '/'));
    }
  }

  /** For build names without slashes: exactly when the joined names are. */
  lemma SimpleWorktreeExactly(home: string, name: string, branch: string, name': string, branch': string)
    requires Rooted(home) && SimpleName(name) && SimpleName(name')
    requires Plain(Split(name + "-" + branch, '/')) && Plain(Split(name' + "-" + branch', '/'))
    ensures WorktreeDir(home, name, branch) == WorktreeDir(home, name', branch')
       <==> name + "-" + branch == name' + "-" + branch'
  {
    SplitOne(name, '/');
    SplitOne(name', '/');
    SameWorktreeExactly(home, name, branch, name', branch');
    assert Front(name) == [] && Front(name') == [];
    assert [] + Split(name + "-" + branch, '/') == Split(name + "-" + branch, '/');
    assert [] + Split(name' + "-" + branch', '/') == Split(name' + "-" + branch', '/');
    if Split(name + "-" + branch, '/') == Split(name' + "-" + branch', '/') {
      JoinedSplit(name + "-" + branch, '/');
      JoinedSplit(name' + "-" + branch', '/');
    }
  }

  /** With a slash in a build name, two worktrees may be the same although the joined names differ. */
  lemma NestedNamesCollide(home: string, a: string, v: string, t: string, g: string)
    requires Rooted(home) && SimpleName(a) && SimpleName(t) && '/' !in v && '/' !in g
    ensures WorktreeDir(home, a, v + ['/'] + (a + "-" + v + ['/'] + (t + "-" + g)))
         == WorktreeDir(home, a + "-" + v + ['/'] + t, g)
    ensures a + "-" + (v + ['/'] + (a + "-" + v + ['/'] + (t + "-" + g))) != a + "-" + v + ['/'] + t + "-" + g
  {
    var p, x := a + "-" + v, t + "-" + g;
    var branch, name := v + ['/'] + (p + ['/'] + x), p + ['/'] + t;
    assert p[|a|] == '-' && x[|t|] == '-';
    assert a + "-" + branch == p + ['/'] + (p + ['/'] + x);
    assert name + "-" + g == p + ['/'] + x;
    SplitOne(a, '/');
    SplitOne(t, '/');
    SplitOne(x, '/');
    SplitAt(p, t, '/');
    SplitAt(p, x, '/');
    SplitAt(p, p + ['/'] + x, '/');
    SameWorktreeExactly(home, a, branch, name, g);
    assert Front(a) == [] && Front(name) == [p];
  }

  // ----- characters of a cleaned path -----

  lemma {:induction false} WalkAvoids(rooted: bool, parts: seq<string>, c: char)
    requires c != '.' && forall i :: 0 <= i < |parts| ==> c !in parts[i]
    ensures forall i :: 0 <= i < |Walk(rooted, [], parts)| ==> c !in Walk(rooted, [], parts)[i]
  {
    if parts != [] {
      WalkAvoids(rooted, parts[..|parts| - 1], c);
    }
  }

  lemma {:induction false} SplitAvoids(s: string, sep: char, c: char)
    requires c !in s
    ensures forall i :: 0 <= i < |Split(s, sep)| ==> c !in Split(s, sep)[i]
  {
    if s != [] {
      SplitAvoids(s[1..], sep, c);
    }
  }

  lemma {:induction false} JoinedAvoids(parts: seq<string>, sep: char, c: char)
    requires c != sep && forall i :: 0 <= i < |parts| ==> c !in parts[i]
    ensures c !in Joined(parts, sep)
  {
    if |parts| > 1 {
      JoinedAvoids(parts[1..], sep, c);
    }
  }

  /** Cleaning brings in no character but separators and dots. */
  lemma CleanAvoids(path: string, c: char)
    requires c !in path && c != '/' && c != '.'
    ensures c !in Clean(path)
  {
    SplitAvoids(path, '/', c);
    WalkAvoids(Rooted(path), Split(path, '/'), c);
    JoinedAvoids(Parts(path), '/', c);
  }

  /** A path under an absolute directory is absolute, and brings in no new characters. */
  lemma JoinUnder(dir: string, rest: seq<string>, c: char)
    requires Rooted(dir) && c != '/' && c != '.'
    requires c !in dir && forall i :: 0 <= i < |rest| ==> c !in rest[i]
    ensures Rooted(Join([dir] + rest)) && c !in Join([dir] + rest)
  {
    var all := [dir] + rest;
    JoinedNonEmpty(all);
    JoinedAvoids(all, '/', c);
    CleanAvoids(Joined(all, '/'), c);
  }
}
