/** Path names (kernel/fs/namev.c): a path stands for its components, and finding it is looking
    them up one after the other. */
module Paths {
  type Node = nat

  datatype Errno = ENOENT | ENOTDIR | ENAMETOOLONG | EOTHER

  datatype Found<T> = Ok(value: T) | Err(error: Errno)

  /** The nodes that have a lookup operation, with their entries. */
  type Dirs = map<Node, map<string, Node>>

  // ----- Components -----

  /** How many characters come before the first slash. */
  function Span(s: string): (n: nat)
    ensures n <= |s| && (n < |s| ==> s[n] == '/')
    ensures '/' !in s[..n]
  {
    if s == "" || s[0] == '/' then 0
    else
      assert s[..1 + Span(s[1..])] == [s[0]] + s[1..][..Span(s[1..])];
      1 + Span(s[1..])
  }

  /** The pieces between slashes that are not empty. */
  function Components(s: string): seq<string>
    decreases |s|
  {
    if s == "" then []
    else if s[0] == '/' then Components(s[1..])
    else [s[..Span(s)]] + Components(s[Span(s)..])
  }

  predicate IsComponent(c: string) {
    c != "" && '/' !in c
  }

  function Join(cs: seq<string>): string {
    if cs == [] then "" else "/" + cs[0] + Join(cs[1..])
  }

  lemma {:induction false} ComponentsAre(s: string)
    ensures forall c | c in Components(s) :: IsComponent(c)
    decreases |s|
  {
    if s != "" {
      if s[0] == '/' {
        ComponentsAre(s[1..]);
      } else {
        ComponentsAre(s[Span(s)..]);
      }
    }
  }

  /** A component in front of a slash, or alone. */
  lemma ComponentFirst(c: string, s: string)
    requires IsComponent(c) && (s != "" ==> s[0] == '/')
    ensures Components(c + s) == [c] + Components(s)
  {
    SpanIs(c + s, |c|);
    assert (c + s)[..|c|] == c && (c + s)[|c|..] == s;
  }

  lemma {:induction false} SpanIs(s: string, n: nat)
    requires n <= |s| && '/' !in s[..n] && (n < |s| ==> s[n] == '/')
    ensures Span(s) == n
  {
    if n > 0 {
      assert s[0] in s[..n];
      assert s[1..][..n - 1] == s[..n][1..];
      SpanIs(s[1..], n - 1);
    }
  }

  /** Splitting undoes joining. */
  lemma {:induction false} SplitJoin(cs: seq<string>)
    requires forall c | c in cs :: IsComponent(c)
    ensures Components(Join(cs)) == cs
  {
    if cs != [] {
      hide Components;
      var rest := Join(cs[1..]);
      SplitJoin(cs[1..]);
      ComponentFirst(cs[0], rest);
      assert Join(cs) == "/" + (cs[0] + rest);
      SlashFirst(cs[0] + rest);
    }
  }

  /** Every path has the components of its normal form, one slash in front of each of them. */
  lemma JoinSplit(s: string)
    ensures Components(Join(Components(s))) == Components(s)
  {
    ComponentsAre(s);
    SplitJoin(Components(s));
  }

  lemma SlashFirst(s: string)
    ensures Components("/" + s) == Components(s)
  {
    assert ("/" + s)[1..] == s;
  }

  /** A slash separates. */
  lemma {:induction false} ComponentsSplit(s: string, r: string)
    requires r != "" ==> r[0] == '/'
    ensures Components(s + r) == Components(s) + Components(r)
    decreases |s|
  {
    if s == "" {
      assert s + r == r;
    } else if s[0] == '/' {
      assert (s + r)[1..] == s[1..] + r;
      ComponentsSplit(s[1..], r);
    } else {
      var n := Span(s);
      assert (s + r)[..n] == s[..n];
      SpanIs(s + r, n);
      assert (s + r)[n..] == s[n..] + r;
      ComponentsSplit(s[n..], r);
    }
  }

  // ----- The last component -----

  /** Everything behind the last slash starts here. */
  function NameStart(s: string): (n: nat)
    ensures n <= |s| && (n > 0 ==> s[n - 1] == '/') && '/' !in s[n..]
  {
    if s == "" || s[|s| - 1] == '/' then |s|
    else
      var n := NameStart(s[..|s| - 1]);
      assert s[n..] == s[..|s| - 1][n..] + [s[|s| - 1]];
      n
  }

  function Name(s: string): string {
    s[NameStart(s)..]
  }

  /** What comes before the last slash. */
  function DirPart(s: string): string {
    if NameStart(s) == 0 then "" else s[..NameStart(s) - 1]
  }

  lemma NameStartIs(s: string, n: nat)
    requires n <= |s| && (n > 0 ==> s[n - 1] == '/') && '/' !in s[n..]
    ensures NameStart(s) == n
  {
    var m := NameStart(s);
    hide NameStart;
    assert forall i | n <= i < |s| :: s[i] == s[n..][i - n];
    assert forall i | m <= i < |s| :: s[i] == s[m..][i - m];
  }

  /** The components of a path are those of its directory part and then the name, if it has one. */
  lemma DirAndName(s: string)
    ensures Components(s) == Components(DirPart(s)) + (if Name(s) == "" then [] else [Name(s)])
  {
    var n := NameStart(s);
    var name := Name(s);
    if name != "" {
      assert name + "" == name;
      ComponentFirst(name, "");
    }
    if n == 0 {
      assert s == name;
    } else {
      assert s == DirPart(s) + (['/'] + name);
      ComponentsSplit(DirPart(s), ['/'] + name);
      assert (['/'] + name)[1..] == name;
    }
  }

  // ----- Resolution -----

  /** Looking up components from node n on. */
  function Resolve(d: Dirs, n: Node, cs: seq<string>): Found<Node>
    decreases |cs|
  {
    if cs == [] then Ok(n)
    else if n !in d then Err(ENOTDIR)
    else if cs[0] !in d[n] then Err(ENOENT)
    else Resolve(d, d[n][cs[0]], cs[1..])
  }

  /** Every node that is searched has a lookup operation. */
  predicate Searchable(d: Dirs, n: Node, cs: seq<string>)
    decreases |cs|
  {
    cs != [] ==> n in d && (cs[0] in d[n] ==> Searchable(d, d[n][cs[0]], cs[1..]))
  }

  lemma ResolveOne(d: Dirs, n: Node, name: string)
    ensures Resolve(d, n, [name]) ==
            if n !in d then Err(ENOTDIR) else if name !in d[n] then Err(ENOENT) else Ok(d[n][name])
  {
    assert [name][1..] == [];
  }

  lemma {:induction false} ResolveSplit(d: Dirs, n: Node, a: seq<string>, b: seq<string>)
    ensures Resolve(d, n, a + b) == match Resolve(d, n, a) case Ok(m) => Resolve(d, m, b) case Err(e) => Err(e)
    decreases |a|
  {
    if a == [] {
      assert a + b == b;
    } else if n in d && a[0] in d[n] {
      assert (a + b)[1..] == a[1..] + b;
      ResolveSplit(d, d[n][a[0]], a[1..], b);
    }
  }

  /** A new entry under a name that was missing changes no path that could be resolved. */
  lemma {:induction false} ResolveKept(d: Dirs, n: Node, cs: seq<string>, dir: Node, name: string, file: Node)
    requires dir in d && name !in d[dir] && Resolve(d, n, cs).Ok?
    ensures Resolve(AddEntry(d, dir, name, file), n, cs) == Resolve(d, n, cs)
    decreases |cs|
  {
    if cs != [] {
      ResolveKept(d, d[n][cs[0]], cs[1..], dir, name, file);
    }
  }

  function AddEntry(d: Dirs, dir: Node, name: string, file: Node): Dirs
    requires dir in d
  {
    var entries: map<string, Node> := d[dir][name := file];
    d[dir := entries]
  }
}

/** Finding and creating files by name. */
module Namev {
  import opened Wrappers
  import opened Paths

  // The longest name of an entry.
  const NAME_LEN := 28

  datatype Parent = Parent(dir: Node, name: string)

  /** Where a path starts: at the root, at the base if there is one, or in the working directory. */
  function Start(root: Node, cwd: Node, base: Option<Node>, path: string): Node {
    if path != "" && path[0] == '/' then root else if base.Some? then base.value else cwd
  }

  /** What dir_namev finds. */
  function ParentOf(d: Dirs, start: Node, path: string): Found<Parent> {
    if |Name(path)| > NAME_LEN then Err(ENAMETOOLONG)
    else
      var cs := Components(DirPart(path));
      match Resolve(d, start, cs)
      case Err(e) => Err(e)
      case Ok(n) => if cs != [] && n !in d then Err(ENOTDIR) else Ok(Parent(n, Name(path)))
  }

  /** What open_namev finds without creating anything. */
  function Lookup(d: Dirs, start: Node, path: string): Found<Node> {
    match ParentOf(d, start, path)
    case Err(e) => Err(e)
    case Ok(x) => if x.name == "" then Ok(x.dir) else Resolve(d, x.dir, [x.name])
  }

  /** The directories after create, which fails or puts in a new file. */
  function Created(d: Dirs, dir: Node, name: string, create: Found<Node>): Dirs
    requires dir in d
  {
    if create.Ok? then AddEntry(d, dir, name, create.value) else d
  }

  // ----- Opening resolves all components -----

  /** A path that ends in a slash must lead to a directory. */
  predicate NeedsDir(path: string) {
    Name(path) == "" && Components(path) != []
  }

  /** What looking up all components of a path from start on comes to. */
  function Whole(d: Dirs, start: Node, path: string): Found<Node> {
    if |Name(path)| > NAME_LEN then Err(ENAMETOOLONG)
    else
      match Resolve(d, start, Components(path))
      case Err(e) => Err(e)
      case Ok(n) => if NeedsDir(path) && n !in d then Err(ENOTDIR) else Ok(n)
  }

  /** Opening is looking up every component of the whole path in turn, with the same errors, once
      the name is short enough. */
  lemma OpenResolves(d: Dirs, start: Node, path: string)
    ensures Lookup(d, start, path) == Whole(d, start, path)
  {
    var cs := Components(DirPart(path));
    DirAndName(path);
    if Name(path) == "" {
      assert cs + [] == cs;
    } else {
      ResolveSplit(d, start, cs, [Name(path)]);
    }
  }

  /** Opening a path from start on with result r and directories g afterwards: what is there is found;
      what is missing is created, if that is asked for and its directory is there. */
  predicate Opened(d: Dirs, start: Node, path: string, creat: bool, create: Found<Node>, r: Found<Node>, g: Dirs) {
    var up := Resolve(d, start, Components(DirPart(path)));
    match Whole(d, start, path)
    case Ok(n) => r == Ok(n) && g == d
    case Err(e) =>
      if creat && Name(path) != "" && |Name(path)| <= NAME_LEN && up.Ok? && up.value in d then
        r == create && g == if create.Ok? then AddEntry(d, up.value, Name(path), create.value) else d
      else r == Err(e) && g == d
  }

  lemma OpenedIs(d: Dirs, start: Node, path: string, creat: bool, create: Found<Node>, r: Found<Node>, g: Dirs)
    requires Name(path) != "" && |Name(path)| <= NAME_LEN ==> start in d
    requires var found := Lookup(d, start, path);
             if creat && ParentOf(d, start, path).Ok? && found.Err? then
               && ParentOf(d, start, path).value.dir in d
               && r == create && g == Created(d, ParentOf(d, start, path).value.dir, Name(path), create)
             else r == found && g == d
    ensures Opened(d, start, path, creat, create, r, g)
  {
    OpenResolves(d, start, path);
    hide Resolve, Components, NameStart;
  }

  /** dir_namev finds directory n and a name if and only if the path ends in that name, behind its last
      slash, the name is not too long, and looking up what comes before leads to n, a directory unless
      nothing came before. */
  lemma ParentExactly(d: Dirs, start: Node, path: string, n: Node, name: string)
    ensures ParentOf(d, start, path) == Ok(Parent(n, name)) <==>
            && |name| <= NAME_LEN && '/' !in name && |name| <= |path| && path[|path| - |name|..] == name
            && (|name| < |path| ==> path[|path| - |name| - 1] == '/')
            && var cs := Components(path[..|path| - |name|]);
               Resolve(d, start, cs) == Ok(n) && (cs != [] ==> n in d)
  {
    BeforeName(path);
    if '/' !in name && |name| <= |path| && path[|path| - |name|..] == name &&
       (|name| < |path| ==> path[|path| - |name| - 1] == '/') {
      NameStartIs(path, |path| - |name|);
    }
    hide Resolve, Components, NameStart;
  }

  lemma BeforeName(path: string)
    ensures Components(path[..NameStart(path)]) == Components(DirPart(path))
    ensures |Name(path)| == |path| - NameStart(path)
  {
    var n := NameStart(path);
    if n > 0 {
      assert path[..n] == DirPart(path) + "/";
      ComponentsSplit(DirPart(path), "/");
      assert Components("/") == [] by { SlashFirst(""); }
    }
  }

  /** Extra slashes make no difference, in front, behind or between, as long as the path starts and
      ends the same way. */
  lemma SlashesDoNotMatter(d: Dirs, start: Node, path: string, other: string)
    requires Components(path) == Components(other) && (Name(path) == "" <==> Name(other) == "")
    requires |Name(path)| <= NAME_LEN && |Name(other)| <= NAME_LEN
    ensures Lookup(d, start, path) == Lookup(d, start, other)
  {
    OpenResolves(d, start, path);
    OpenResolves(d, start, other);
  }

  /** Of all names in all directories, creating a file makes exactly the one refer to it. */
  lemma EntryAdded(d: Dirs, dir: Node, name: string, file: Node, n: Node, c: string)
    requires dir in d
    ensures Resolve(AddEntry(d, dir, name, file), n, [c]) ==
            if n == dir && c == name then Ok(file) else Resolve(d, n, [c])
  {
    ResolveOne(d, n, c);
    ResolveOne(AddEntry(d, dir, name, file), n, c);
  }

  /** A file that was created is found under the same path afterwards. */
  lemma CreatedIsFound(d: Dirs, start: Node, path: string, file: Node)
    requires ParentOf(d, start, path).Ok? && Name(path) != ""
    requires ParentOf(d, start, path).value.dir in d && Lookup(d, start, path) == Err(ENOENT)
    ensures Lookup(AddEntry(d, ParentOf(d, start, path).value.dir, Name(path), file), start, path) == Ok(file)
  {
    var x := ParentOf(d, start, path).value;
    ResolveOne(d, x.dir, x.name);
    ResolveKept(d, start, Components(DirPart(path)), x.dir, x.name, file);
    ResolveOne(AddEntry(d, x.dir, x.name, file), x.dir, x.name);
  }

  /** Creating a file changes no other path that led somewhere. */
  lemma CreateKeepsOthers(d: Dirs, dir: Node, name: string, file: Node, start: Node, path: string)
    requires dir in d && name !in d[dir] && Lookup(d, start, path).Ok?
    ensures Lookup(AddEntry(d, dir, name, file), start, path) == Lookup(d, start, path)
  {
    OpenResolves(d, start, path);
    ResolveKept(d, start, Components(path), dir, name, file);
    OpenResolves(AddEntry(d, dir, name, file), start, path);
  }

  // ----- The loops -----

  /** Where the loops stop: the last slash, or 0 when there is none. */
  lemma PartFrom(path: string, limit: int, i: nat)
    requires -1 <= limit < |path| && NameStart(path) == limit + 1 && i < limit
    ensures DirPart(path) == path[..limit] && |DirPart(path)| == limit
    ensures DirPart(path)[i] == path[i] && DirPart(path)[i..][0] == path[i]
    ensures DirPart(path)[i..][1..] == DirPart(path)[i + 1..]
  {
  }

  lemma SkipOne(path: string, limit: int, i: nat)
    requires -1 <= limit < |path| && NameStart(path) == limit + 1 && i < limit && path[i] == '/'
    ensures |DirPart(path)| == limit && Components(DirPart(path)[i..]) == Components(DirPart(path)[i + 1..])
  {
    PartFrom(path, limit, i);
  }

  /** The component that starts at i and ends before j. */
  lemma ComponentAt(s: string, i: nat, j: nat)
    requires i < j <= |s| && '/' !in s[i..j] && (j < |s| ==> s[j] == '/')
    ensures Components(s[i..]) == [s[i..j]] + Components(s[j..])
  {
    assert s[i..] == s[i..j] + s[j..];
    ComponentFirst(s[i..j], s[j..]);
  }

  /** The walk over all components stands at node with the rest to go; it holds node once it left
      the start. */
  ghost predicate Under(d: Dirs, start: Node, all: seq<string>, node: Node, held: bool, rest: seq<string>) {
    && Resolve(d, node, rest) == Resolve(d, start, all)
    && Searchable(d, node, rest)
    && |rest| <= |all| && (held <==> |rest| < |all|)
    && (!held ==> node == start)
  }

  function Holding(before: multiset<Node>, held: bool, node: Node): multiset<Node> {
    if held then before + multiset{node} else before
  }

  lemma UnderStart(d: Dirs, start: Node, all: seq<string>)
    requires Searchable(d, start, all)
    ensures Under(d, start, all, start, false, all)
  {
  }

  lemma UnderNext(d: Dirs, start: Node, all: seq<string>, node: Node, held: bool, c: string, rest: seq<string>)
    requires Under(d, start, all, node, held, [c] + rest)
    ensures node in d
    ensures Resolve(d, node, [c]).Ok? ==> Under(d, start, all, Resolve(d, node, [c]).value, true, rest)
    ensures Resolve(d, node, [c]).Err? ==> Resolve(d, start, all) == Resolve(d, node, [c])
  {
    ResolveOne(d, node, c);
    ResolveSplit(d, node, [c], rest);
    assert ([c] + rest)[1..] == rest;
  }

  lemma UnderEnd(d: Dirs, start: Node, all: seq<string>, node: Node, held: bool)
    requires Under(d, start, all, node, held, [])
    ensures Resolve(d, start, all) == Ok(node) && (held <==> all != [])
  {
  }

  /** Vnodes with their references; a vnode is in refs once per reference. */
  class Vfs {
    const root: Node
    var dirs: Dirs
    var refs: multiset<Node>

    method Ref(n: Node)
      modifies this`refs
      ensures refs == old(refs) + multiset{n}
    {
      refs := refs + multiset{n};
    }

    method Put(n: Node)
      requires n in refs
      modifies this`refs
      ensures refs == old(refs) - multiset{n}
    {
      refs := refs - multiset{n};
    }

    /** lookup of one name: on success the result has one more reference. */
    method LookupName(dir: Node, name: string) returns (r: Found<Node>)
      requires dir in dirs
      modifies this`refs
      ensures r == Resolve(dirs, dir, [name])
      ensures refs == if r.Ok? then old(refs) + multiset{r.value} else old(refs)
    {
      ResolveOne(dirs, dir, name);
      if name in dirs[dir] {
        Ref(dirs[dir][name]);
        return Ok(dirs[dir][name]);
      }
      return Err(ENOENT);
    }

    /** One more component: look it up, then let go of the directory. */
    method Advance(node: Node, held: bool, name: string, ghost before: multiset<Node>) returns (r: Found<Node>)
      requires node in dirs && refs == Holding(before, held, node)
      modifies this`refs
      ensures r == Resolve(dirs, node, [name])
      ensures refs == if r.Ok? then Holding(before, true, r.value) else before
    {
      hide Resolve;
      r := LookupName(node, name);
      if held {
        Put(node);
      }
    }

    /** The first position from i on, below limit, that has no slash. */
    method SkipSlashes(path: string, limit: int, i: nat) returns (j: nat)
      requires -1 <= limit < |path| && NameStart(path) == limit + 1 && i <= |DirPart(path)|
      ensures i <= j <= |DirPart(path)| && (j < limit ==> path[j] != '/')
      ensures Components(DirPart(path)[i..]) == Components(DirPart(path)[j..])
    {
      hide Components, NameStart, DirPart;
      j := i;
      while j < limit && path[j] == '/'
        invariant i <= j <= |DirPart(path)|
        invariant Components(DirPart(path)[i..]) == Components(DirPart(path)[j..])
      {
        SkipOne(path, limit, j);
        j := j + 1;
      }
    }

    /** The first position from i on, below limit, that has a slash. */
    method SkipName(path: string, limit: int, i: nat) returns (j: nat)
      requires -1 <= limit < |path| && NameStart(path) == limit + 1 && i < limit && path[i] != '/'
      ensures i < j <= limit && limit == |DirPart(path)|
      ensures Components(DirPart(path)[i..]) == [path[i..j]] + Components(DirPart(path)[j..])
    {
      PartFrom(path, limit, i);
      j := i;
      while j < limit && path[j] != '/'
        invariant i <= j <= limit && '/' !in path[i..j]
      {
        assert path[i..j + 1] == path[i..j] + [path[j]];
        j := j + 1;
      }
      assert DirPart(path)[i..j] == path[i..j];
      ComponentAt(DirPart(path), i, j);
    }

    /** dir_namev: one reference more on the result, and none on anything else. */
    method DirNamev(path: string, base: Option<Node>, cwd: Node) returns (r: Found<Parent>)
      requires |Name(path)| <= NAME_LEN ==> Searchable(dirs, Start(root, cwd, base, path), Components(DirPart(path)))
      modifies this`refs
      ensures path != "" && path[0] == '/' ==> r == ParentOf(dirs, root, path)
      ensures (path == "" || path[0] != '/') && base.Some? ==> r == ParentOf(dirs, base.value, path)
      ensures (path == "" || path[0] != '/') && base.None? ==> r == ParentOf(dirs, cwd, path)
      ensures refs == if r.Ok? then old(refs) + multiset{r.value.dir} else old(refs)
    {
      hide ParentOf, Searchable, Components, DirPart, NameStart, Resolve;
      var node := if base.Some? then base.value else cwd;
      if path != "" && path[0] == '/' {
        node := root;
      }
      var limit := FindLimit(path);
      var name := path[limit + 1..];
      if |name| > NAME_LEN {
        TooLong(dirs, node, path);
        return Err(ENAMETOOLONG);
      }
      r := Walk(path, limit, node);
    }

    /** The position of the last slash, or -1. */
    method FindLimit(path: string) returns (limit: int)
      ensures -1 <= limit < |path| && NameStart(path) == limit + 1
    {
      limit := |path| - 1;
      while limit >= 0 && path[limit] != '/'
        invariant -1 <= limit < |path| && '/' !in path[limit + 1..]
      {
        assert path[limit..] == [path[limit]] + path[limit + 1..];
        limit := limit - 1;
      }
      NameStartIs(path, limit + 1);
    }

    /** The walk of dir_namev from node on: every directory on the way is let go again. */
    method Walk(path: string, limit: int, start: Node) returns (r: Found<Parent>)
      requires -1 <= limit < |path| && NameStart(path) == limit + 1 && |Name(path)| <= NAME_LEN
      requires Searchable(dirs, start, Components(DirPart(path)))
      modifies this`refs
      ensures r == ParentOf(dirs, start, path)
      ensures refs == if r.Ok? then old(refs) + multiset{r.value.dir} else old(refs)
    {
      hide Components, Resolve, Searchable, NameStart, DirPart, Under;
      ghost var part := DirPart(path);
      ghost var all := Components(part);
      var node, held := start, false;
      assert part[0..] == part;
      UnderStart(dirs, start, all);
      var i := SkipSlashes(path, limit, 0);
      while i < limit
        invariant i <= |part| && (i < limit ==> path[i] != '/')
        invariant Under(dirs, start, all, node, held, Components(part[i..]))
        invariant refs == Holding(old(refs), held, node)
      {
        var j := SkipName(path, limit, i);
        UnderNext(dirs, start, all, node, held, path[i..j], Components(part[j..]));
        var next := Advance(node, held, path[i..j], old(refs));
        if next.Err? {
          return Err(next.error);
        }
        node, held := next.value, true;
        i := SkipSlashes(path, limit, j);
      }
      PartEnd(path, limit, i);
      UnderEnd(dirs, start, all, node, held);
      if held && node !in dirs {
        Put(node);
        return Err(ENOTDIR);
      }
      if !held {
        Ref(node);
      }
      return Ok(Parent(node, path[limit + 1..]));
    }

    /** open_namev. create is what the file system's create comes to. */
    method OpenNamev(path: string, creat: bool, base: Option<Node>, cwd: Node, create: Found<Node>)
      returns (r: Found<Node>)
      requires var start := Start(root, cwd, base, path);
               |Name(path)| <= NAME_LEN ==>
                 Searchable(dirs, start, Components(DirPart(path))) && (Name(path) != "" ==> start in dirs)
      modifies this`refs, this`dirs
      ensures path != "" && path[0] == '/' ==> Opened(old(dirs), root, path, creat, create, r, dirs)
      ensures (path == "" || path[0] != '/') && base.Some? ==>
                Opened(old(dirs), base.value, path, creat, create, r, dirs)
      ensures (path == "" || path[0] != '/') && base.None? ==> Opened(old(dirs), cwd, path, creat, create, r, dirs)
      ensures refs == if r.Ok? then old(refs) + multiset{r.value} else old(refs)
    {
      ghost var start := Start(root, cwd, base, path);
      hide ParentOf, Lookup, Resolve, Searchable, Components, DirPart, Name, Created, Opened;
      r := OpenFrom(path, creat, base, cwd, create, start);
      OpenedIs(old(dirs), start, path, creat, create, r, dirs);
    }

    /** The body of open_namev, told by its two steps. */
    method OpenFrom(path: string, creat: bool, base: Option<Node>, cwd: Node, create: Found<Node>, ghost start: Node)
      returns (r: Found<Node>)
      requires start == Start(root, cwd, base, path)
      requires |Name(path)| <= NAME_LEN ==>
                 Searchable(dirs, start, Components(DirPart(path))) && (Name(path) != "" ==> start in dirs)
      modifies this`refs, this`dirs
      ensures var found := Lookup(old(dirs), start, path);
              if creat && ParentOf(old(dirs), start, path).Ok? && found.Err? then
                && ParentOf(old(dirs), start, path).value.dir in old(dirs) && r == create
                && dirs == Created(old(dirs), ParentOf(old(dirs), start, path).value.dir, Name(path), create)
              else r == found && dirs == old(dirs)
      ensures refs == if r.Ok? then old(refs) + multiset{r.value} else old(refs)
    {
      hide ParentOf, Lookup, Resolve, Searchable, Components, DirPart, Name, Created;
      OpenCases(dirs, start, path);
      var p := DirNamev(path, base, cwd);
      if p.Err? {
        return Err(p.error);
      }
      var dir, name := p.value.dir, p.value.name;
      if name == "" {
        return Ok(dir);
      }
      r := OpenIn(dir, name, creat, create, old(refs));
    }

    /** The end of open_namev: look the name up, create it if it is missing, and let go of the directory. */
    method OpenIn(dir: Node, name: string, creat: bool, create: Found<Node>, ghost before: multiset<Node>)
        returns (r: Found<Node>)
      requires dir in dirs && refs == Holding(before, true, dir)
      modifies this`refs, this`dirs
      ensures if creat && Resolve(old(dirs), dir, [name]).Err? then
                r == create && dirs == Created(old(dirs), dir, name, create)
              else r == Resolve(old(dirs), dir, [name]) && dirs == old(dirs)
      ensures refs == if r.Ok? then before + multiset{r.value} else before
    {
      hide Resolve, Created;
      r := LookupName(dir, name);
      if r.Err? && creat {
        r := create;
        Create(dir, name, create);
      }
      LetGo(dir, r, before);
    }

    /** Drops the directory and keeps what was found. */
    method LetGo(dir: Node, r: Found<Node>, ghost before: multiset<Node>)
      requires refs == if r.Ok? then before + multiset{dir} + multiset{r.value} else before + multiset{dir}
      modifies this`refs
      ensures refs == if r.Ok? then before + multiset{r.value} else before
    {
      Put(dir);
    }

    /** The create operation of a directory: the new file comes with a reference. */
    method Create(dir: Node, name: string, create: Found<Node>)
      requires dir in dirs
      modifies this`refs, this`dirs
      ensures dirs == Created(old(dirs), dir, name, create)
      ensures refs == if create.Ok? then old(refs) + multiset{create.value} else old(refs)
    {
      hide AddEntry;
      if create.Ok? {
        dirs := AddEntry(dirs, dir, name, create.value);
        Ref(create.value);
      }
    }
  }

  lemma TooLong(d: Dirs, start: Node, path: string)
    requires |Name(path)| > NAME_LEN
    ensures ParentOf(d, start, path) == Err(ENAMETOOLONG)
  {
  }

  lemma OpenCases(d: Dirs, start: Node, path: string)
    requires Name(path) != "" && |Name(path)| <= NAME_LEN ==> start in d
    ensures ParentOf(d, start, path).Err? ==> Lookup(d, start, path) == Err(ParentOf(d, start, path).error)
    ensures ParentOf(d, start, path).Ok? ==>
              && ParentOf(d, start, path).value.name == Name(path)
              && (Name(path) == "" ==> Lookup(d, start, path) == Ok(ParentOf(d, start, path).value.dir))
              && (Name(path) != "" ==>
                    && ParentOf(d, start, path).value.dir in d
                    && Lookup(d, start, path) == Resolve(d, ParentOf(d, start, path).value.dir, [Name(path)]))
  {
  }

  lemma PartEnd(path: string, limit: int, i: nat)
    requires -1 <= limit < |path| && NameStart(path) == limit + 1 && limit <= i <= |DirPart(path)|
    ensures Components(DirPart(path)[i..]) == []
  {
    assert DirPart(path)[i..] == "";
  }
}
