/** What resolution guarantees, and exactly when a relative argument means what it says. */
module ResolverTheorems {
  import opened Common
  import opened Paths
  import opened Resolver

  // ---- normal forms ----

  function Kept(stack: seq<string>, climb: nat): seq<string> {
    if climb >= |stack| then [] else stack[..|stack| - climb]
  }

  lemma ApplySplit(stack: seq<string>, climb: nat, tail: seq<string>, c: string)
    ensures Apply(Kept(stack, climb) + tail, c) ==
            Kept(stack, if c == ".." && tail == [] then climb + 1 else climb) + Apply(tail, c)
  {
    var kept := Kept(stack, climb);
    if c == ".." {
      if tail != [] {
        assert (kept + tail)[..|kept + tail| - 1] == kept + tail[..|tail| - 1];
      } else {
        assert kept + tail == kept;
      }
    } else {
      assert kept + tail + [c] == kept + (tail + [c]);
    }
  }

  /** Applying an argument keeps what it does not climb out of, then adds what it leads to. */
  lemma {:induction false} NormSplit(stack: seq<string>, args: seq<string>)
    ensures Norm(stack, args) == Kept(stack, Climb(args)) + Norm([], args)
  {
    if args == [] {
      assert stack + [] == stack;
    } else {
      var init, c := args[..|args| - 1], args[|args| - 1];
      NormSplit(stack, init);
      ApplySplit(stack, Climb(init), Norm([], init), c);
    }
  }

  lemma {:induction false} NormNames(stack: seq<string>, args: seq<string>)
    requires Names(stack) && Segments(args)
    ensures Names(Norm(stack, args)) && Names(Walk(stack, args))
  {
    if args != [] {
      NormNames(stack, args[..|args| - 1]);
    }
  }

  lemma {:induction false} NormOfNames(names: seq<string>)
    requires Names(names)
    ensures Norm([], names) == names && Climb(names) == 0
  {
    if names != [] {
      NormOfNames(names[..|names| - 1]);
      assert names == names[..|names| - 1] + [names[|names| - 1]];
    }
  }

  /** Two starting points of which one is the end of the other lead to the same place exactly if
      the argument climbs out of both. */
  lemma SuffixStart(dropped: seq<string>, rest: seq<string>, args: seq<string>)
    requires dropped != []
    ensures Norm(rest, args) == Norm(dropped + rest, args) <==> Climb(args) >= |dropped + rest|
  {
    NormSplit(rest, args);
    NormSplit(dropped + rest, args);
    var climb, tail := Climb(args), Norm([], args);
    if climb < |dropped + rest| {
      assert |Kept(dropped + rest, climb) + tail| > |Kept(rest, climb) + tail|;
    }
  }

  // ---- the 512-entry stack ----

  /** No intermediate stack is deeper than 512. */
  ghost predicate Fits(stack: seq<string>, args: seq<string>) {
    |Norm(stack, args)| <= STACK && (args == [] || Fits(stack, args[..|args| - 1]))
  }

  lemma {:induction false} WalkFits(stack: seq<string>, args: seq<string>)
    requires Fits(stack, args)
    ensures Walk(stack, args) == Norm(stack, args)
  {
    if args != [] {
      WalkFits(stack, args[..|args| - 1]);
    }
  }

  /** Once a push has been skipped, the code's stack stays shorter. */
  lemma {:induction false} WalkShort(stack: seq<string>, args: seq<string>)
    requires |stack| <= STACK && |args| <= STACK && !Fits(stack, args)
    ensures |Walk(stack, args)| < |Norm(stack, args)| && |Norm(stack, args)| + |args| > STACK + 1
  {
    if args != [] {
      var init := args[..|args| - 1];
      WalkLimit(stack, init);
      if Fits(stack, init) {
        WalkFits(stack, init);
      } else {
        WalkShort(stack, init);
      }
    }
  }

  lemma {:induction false} WalkLimit(stack: seq<string>, args: seq<string>)
    requires |stack| <= STACK
    ensures |Walk(stack, args)| <= STACK
  {
    if args != [] {
      WalkLimit(stack, args[..|args| - 1]);
    }
  }

  /** The code's stack agrees with the unlimited one exactly if no prefix is deeper than 512. */
  lemma WalkExact(stack: seq<string>, args: seq<string>)
    requires |stack| <= STACK && |args| <= STACK
    ensures Walk(stack, args) == Norm(stack, args) <==> Fits(stack, args)
  {
    if Fits(stack, args) {
      WalkFits(stack, args);
    } else {
      WalkShort(stack, args);
    }
  }

  lemma {:induction false} DepthBound(stack: seq<string>, args: seq<string>)
    ensures |Norm(stack, args)| <= |stack| + |args|
  {
    if args != [] {
      DepthBound(stack, args[..|args| - 1]);
    }
  }

  lemma {:induction false} FitsIfShallow(stack: seq<string>, args: seq<string>)
    requires |stack| + |args| <= STACK
    ensures Fits(stack, args)
  {
    DepthBound(stack, args);
    if args != [] {
      FitsIfShallow(stack, args[..|args| - 1]);
    }
  }

  // ---- texts ----

  lemma {:induction false} BuildRender(rootNames: seq<string>, cs: seq<string>)
    requires Segments(rootNames) && Segments(cs)
    ensures Build(Render(rootNames), cs) == Render(rootNames + cs)
  {
    var root := Render(rootNames);
    if cs == [] {
      assert rootNames + cs == rootNames;
      if rootNames != [] {
        JoinedLast(rootNames);
      }
    } else {
      var init, c := cs[..|cs| - 1], cs[|cs| - 1];
      BuildRender(rootNames, init);
      var before := rootNames + init;
      assert rootNames + cs == before + [c];
      JoinedAppend(before, [c]);
      assert Joined([c]) == "/" + c;
      if before != [] {
        JoinedLast(before);
      }
    }
  }

  lemma CanonicalRender(cs: seq<string>)
    requires Names(cs)
    ensures Canonical(Render(cs)) && Components(Render(cs)) == cs
  {
    ComponentsRender(cs);
  }

  /** What the code answers, in components. */
  lemma ResolvedText(root: string, cwd: string, arg: string, outsz: nat)
    requires Canonical(root)
    ensures var base := Base(cwd, arg);
      var text := Render(Components(root) + Walk(Start(root, base), Split(arg, STACK)));
      Resolved(root, cwd, arg, outsz)
        == if |base| >= MAX_PATH || |text| + 1 > 2 * MAX_PATH || |text| + 1 > outsz then None else Some(text)
  {
    var base := Base(cwd, arg);
    var stack := Start(root, base);
    WalkSegments(stack, Split(arg, STACK));
    BuildRender(Components(root), Walk(stack, Split(arg, STACK)));
  }

  // ---- containment ----

  /** under_root of fs_rooted.c. */
  predicate UnderRoot(root: string, path: string) {
    root <= path && (if |root| == 1 then path[0] == '/' else |path| == |root| || path[|root|] == '/')
  }

  /** The textual test is containment of component lists. */
  lemma UnderRootMeaning(rootNames: seq<string>, names: seq<string>)
    requires Names(rootNames) && Names(names)
    ensures UnderRoot(Render(rootNames), Render(names)) <==> rootNames <= names
  {
    if rootNames == [] {
      if names != [] {
        JoinedLast(names);
      }
    } else {
      JoinedLast(rootNames);
      if names != [] {
        PrefixMeaning(rootNames, names);
      }
    }
  }

  lemma {:induction false} PrefixMeaning(a: seq<string>, b: seq<string>)
    requires Segments(a) && Segments(b)
    ensures (Joined(a) <= Joined(b) && (|Joined(a)| == |Joined(b)| || Joined(b)[|Joined(a)|] == '/')) <==> a <= b
  {
    var s, t := Joined(a), Joined(b);
    if a == [] {
      assert b != [] ==> t[0] == '/';
    } else if b != [] {
      var x, y := a[0] + Joined(a[1..]), b[0] + Joined(b[1..]);
      assert s == "/" + x && t == "/" + y;
      assert s[1..] == x && t[1..] == y;
      PrefixMeaning(a[1..], b[1..]);
      if a[0] == b[0] {
        HeadsEqual(a[0], Joined(a[1..]), Joined(b[1..]));
        assert a <= b <==> a[1..] <= b[1..] by {
          assert a == [a[0]] + a[1..] && b == [b[0]] + b[1..];
        }
      } else {
        HeadsDiffer(a[0], b[0], Joined(a[1..]), Joined(b[1..]));
      }
    }
  }

  lemma HeadsEqual(head: string, s: string, t: string)
    ensures "/" + (head + s) <= "/" + (head + t) <==> s <= t
    ensures |s| < |t| ==> ("/" + (head + t))[|"/" + (head + s)|] == t[|s|]
  {
    var u, v := "/" + (head + s), "/" + (head + t);
    assert u[|head| + 1..] == s && v[|head| + 1..] == t;
    if u <= v {
      assert v[..|u|] == u;
      assert s == v[|head| + 1..|u|];
    }
    if s <= t {
      assert t == s + t[|s|..];
      assert v == u + t[|s|..];
    }
  }

  lemma HeadsDiffer(h: string, k: string, s: string, t: string)
    requires Segment(h) && Segment(k) && h != k
    requires s == "" || s[0] == '/'
    requires t == "" || t[0] == '/'
    ensures var u, v := "/" + (h + s), "/" + (k + t); !(u <= v && (|u| == |v| || v[|u|] == '/'))
  {
    var u, v := "/" + (h + s), "/" + (k + t);
    assert forall i :: 0 <= i < |h| ==> u[i + 1] == h[i];
    assert forall i :: 0 <= i < |k| ==> v[i + 1] == k[i];
    if |h| < |k| {
      assert k[|h|] in k;
      assert v[|h| + 1] != '/';
      assert s != "" ==> u[|h| + 1] == '/';
    } else if |k| < |h| {
      assert h[|k|] in h;
      assert u[|k| + 1] != '/';
      assert t != "" ==> v[|k| + 1] == '/';
    } else {
      var i :| 0 <= i < |h| && h[i] != k[i];
      assert u[i + 1] != v[i + 1];
    }
  }

  /** path_is_under of commands.c. */
  predicate IsUnder(path: string, dir: string) {
    if dir == "/" then |path| > 1 && path[0] == '/' else dir <= path && |path| > |dir| && path[|dir|] == '/'
  }

  /** On canonical paths it means: strictly inside. */
  lemma IsUnderMeaning(names: seq<string>, dirNames: seq<string>)
    requires Names(names) && Names(dirNames)
    ensures IsUnder(Render(names), Render(dirNames)) <==> dirNames < names
  {
    UnderRootMeaning(dirNames, names);
    CanonicalRender(names);
    CanonicalRender(dirNames);
    if names != [] {
      JoinedLast(names);
    }
    var path, dir := Render(names), Render(dirNames);
    assert dirNames <= names && |dirNames| == |names| ==> dirNames == names;
    if dirNames != [] {
      JoinedLast(dirNames);
      assert dir <= path && |path| == |dir| ==> path == dir;
      assert UnderRoot(dir, path) && path != dir ==> IsUnder(path, dir);
      assert IsUnder(path, dir) ==> UnderRoot(dir, path);
    }
  }

  /** Every successful resolution yields a canonical path inside the root. */
  lemma Contained(root: string, cwd: string, arg: string, outsz: nat)
    requires Canonical(root) && Canonical(cwd)
    ensures var r := Resolved(root, cwd, arg, outsz);
      r.Some? ==> Canonical(r.value) && UnderRoot(root, r.value) && Components(root) <= Components(r.value)
  {
    ResolvedText(root, cwd, arg, outsz);
    var rootNames := Components(root);
    var start, args := Start(root, Base(cwd, arg)), Split(arg, STACK);
    WalkedNames(root, cwd, arg);
    var names := rootNames + Walk(start, args);
    CanonicalRender(names);
    UnderRootMeaning(rootNames, names);
  }

  lemma StartNames(root: string, cwd: string, arg: string)
    requires Canonical(cwd)
    ensures Names(Start(root, Base(cwd, arg))) && |Start(root, Base(cwd, arg))| <= STACK
  {
    CanonicalRender([]);
  }

  lemma WalkedNames(root: string, cwd: string, arg: string)
    requires Canonical(cwd)
    ensures Names(Walk(Start(root, Base(cwd, arg)), Split(arg, STACK)))
  {
    StartNames(root, cwd, arg);
    NormNames(Start(root, Base(cwd, arg)), Split(arg, STACK));
  }

  // ---- absolute arguments ----

  /** An absolute argument means root plus the clamped normal form of its components; the only
      refusals are for length. An argument of 1024 bytes or more means the root itself. */
  lemma AbsoluteArgument(root: string, cwd: string, arg: string, outsz: nat)
    requires Canonical(root) && arg != "" && arg[0] == '/'
    ensures var args := if |arg| < MAX_PATH then Components(arg) else [];
      var text := Render(Components(root) + Norm([], args));
      Resolved(root, cwd, arg, outsz)
        == if |text| + 1 > 2 * MAX_PATH || |text| + 1 > outsz then None else Some(text)
  {
    ResolvedText(root, cwd, arg, outsz);
    CanonicalRender([]);
    assert Start(root, "/") == [];
    var args := Split(arg, STACK);
    FitsIfShallow([], args);
    WalkExact([], args);
  }

  // ---- the stored working directory ----

  /** cmd_cwd's root-relative form of a resolved path. */
  function Visible(root: string, path: string): string
    requires |root| <= |path|
  {
    if path == root then "/" else if |root| > 1 then path[|root|..] else path
  }

  lemma VisibleText(rootNames: seq<string>, names: seq<string>)
    requires Names(rootNames) && Names(names)
    ensures var root, path := Render(rootNames), Render(rootNames + names);
      |root| <= |path| && Visible(root, path) == Render(names)
  {
    JoinedAppend(rootNames, names);
    if rootNames == [] {
      assert rootNames + names == names;
      if names != [] {
        JoinedLast(names);
      }
    } else {
      JoinedLast(rootNames);
      if names == [] {
        assert rootNames + names == rootNames;
      } else {
        JoinedLast(names);
      }
    }
  }

  /** The directory CWD shows, resolved again as an absolute argument, is the same path. */
  lemma VisibleRoundTrip(root: string, cwd: string, arg: string, later: string)
    requires Canonical(root) && Canonical(cwd)
    ensures var r := Resolved(root, cwd, arg, MAX_PATH);
      r.Some? ==>
        |root| <= |r.value| && Canonical(Visible(root, r.value)) && |Visible(root, r.value)| < MAX_PATH &&
        Resolved(root, later, Visible(root, r.value), MAX_PATH) == r
  {
    var r := Resolved(root, cwd, arg, MAX_PATH);
    if r.Some? {
      ResolvedText(root, cwd, arg, MAX_PATH);
      var rootNames := Components(root);
      var start, args := Start(root, Base(cwd, arg)), Split(arg, STACK);
      StartNames(root, cwd, arg);
      NormNames(start, args);
      var names := Walk(start, args);
      VisibleText(rootNames, names);
      CanonicalRender(names);
      var shown := Render(names);
      assert shown[0] == '/' by {
        if names != [] {
          JoinedLast(names);
        }
      }
      AbsoluteArgument(root, later, shown, MAX_PATH);
      NormOfNames(names);
    }
  }

  /** cmd_cwd: the new working directory, if the path resolves and `isDir` says it is a directory. */
  function ChangeDir(root: string, cwd: string, arg: string, isDir: string -> bool): string {
    var param := if arg == "" then cwd else arg;
    var r := Resolved(root, cwd, param, MAX_PATH);
    if r.Some? && isDir(r.value) && |root| <= |r.value| then Visible(root, r.value) else cwd
  }

  /** What one CWD does: if the argument resolves to a directory, the new working directory is the
      canonical text of its place under the root, which resolves back to it; otherwise nothing. */
  lemma ChangeDirMeaning(root: string, cwd: string, arg: string, isDir: string -> bool, later: string)
    requires Canonical(root) && Canonical(cwd)
    ensures var r := Resolved(root, cwd, if arg == "" then cwd else arg, MAX_PATH);
      var now := ChangeDir(root, cwd, arg, isDir);
      if r.Some? && isDir(r.value) then
        && Canonical(now) && |now| < MAX_PATH && Components(r.value) == Components(root) + Components(now)
        && Resolved(root, later, now, MAX_PATH) == r
      else now == cwd
  {
    var param := if arg == "" then cwd else arg;
    VisibleRoundTrip(root, cwd, param, later);
    if Resolved(root, cwd, param, MAX_PATH).Some? {
      VisibleComponents(root, cwd, param);
    }
  }

  lemma VisibleNames(rootNames: seq<string>, names: seq<string>)
    requires Names(rootNames) && Names(names)
    ensures var root, path := Render(rootNames), Render(rootNames + names);
      |root| <= |path| && Components(path) == rootNames + names && Components(Visible(root, path)) == names
  {
    VisibleText(rootNames, names);
    CanonicalRender(names);
    CanonicalRender(rootNames + names);
  }

  /** The names below the root that a resolution has arrived at. */
  lemma ResolvedNames(root: string, cwd: string, arg: string) returns (names: seq<string>)
    requires Canonical(root) && Canonical(cwd) && Resolved(root, cwd, arg, MAX_PATH).Some?
    ensures Names(names) && Resolved(root, cwd, arg, MAX_PATH).value == Render(Components(root) + names)
  {
    WalkedNames(root, cwd, arg);
    ResolvedText(root, cwd, arg, MAX_PATH);
    names := Walk(Start(root, Base(cwd, arg)), Split(arg, STACK));
  }

  lemma VisibleComponents(root: string, cwd: string, arg: string)
    requires Canonical(root) && Canonical(cwd) && Resolved(root, cwd, arg, MAX_PATH).Some?
    ensures var path := Resolved(root, cwd, arg, MAX_PATH).value;
      |root| <= |path| && Components(path) == Components(root) + Components(Visible(root, path))
  {
    var names := ResolvedNames(root, cwd, arg);
    var rootNames := Components(root);
    assert root == Render(rootNames) && Names(rootNames);
    VisibleNames(rootNames, names);
  }

  /** With an absolute argument it goes where the argument says, whatever the directory was. */
  lemma ChangeDirAbsolute(root: string, cwd: string, arg: string, isDir: string -> bool)
    requires Canonical(root) && Canonical(cwd) && arg != "" && arg[0] == '/' && |arg| < MAX_PATH
    ensures var names := Norm([], Components(arg));
      var path := Render(Components(root) + names);
      ChangeDir(root, cwd, arg, isDir) == if |path| < MAX_PATH && isDir(path) then Render(names) else cwd
  {
    AbsoluteArgument(root, cwd, arg, MAX_PATH);
    NormNames([], Components(arg));
    VisibleText(Components(root), Norm([], Components(arg)));
  }

  /** One CWD: its argument, and the directories there are at that moment. */
  datatype Cwd = Cwd(arg: string, isDir: string -> bool)

  function ChangeDirs(root: string, cmds: seq<Cwd>): string {
    if cmds == [] then "/"
    else
      var last := cmds[|cmds| - 1];
      ChangeDir(root, ChangeDirs(root, cmds[..|cmds| - 1]), last.arg, last.isDir)
  }

  /** `cwd` named a directory when the command was served. */
  predicate Reported(root: string, cwd: string, cmd: Cwd) {
    var r := Resolved(root, "/", cwd, MAX_PATH);
    r.Some? && cmd.isDir(r.value)
  }

  /** In every run of CWD commands the stored directory stays canonical and short enough, and it
      names a directory that existed: the root, or one the file system reported. */
  lemma {:induction false} WorkingDirectory(root: string, cmds: seq<Cwd>)
    requires Canonical(root) && |root| < MAX_PATH
    ensures var cwd := ChangeDirs(root, cmds);
      Canonical(cwd) && |cwd| < MAX_PATH &&
      (cwd == "/" || exists i :: 0 <= i < |cmds| && Reported(root, cwd, cmds[i]))
  {
    CanonicalRender([]);
    if cmds != [] {
      var init, last := cmds[..|cmds| - 1], cmds[|cmds| - 1];
      var was, cwd := ChangeDirs(root, init), ChangeDirs(root, cmds);
      WorkingDirectory(root, init);
      VisibleRoundTrip(root, was, if last.arg == "" then was else last.arg, "/");
      if cwd == was && cwd != "/" {
        var i :| 0 <= i < |init| && Reported(root, was, init[i]);
        assert Reported(root, cwd, cmds[i]);
      } else if cwd != "/" {
        assert Reported(root, cwd, cmds[|cmds| - 1]);
      }
    }
  }

  // ---- relative arguments ----

  lemma CwdStart(root: string, cwd: string)
    requires Canonical(cwd) && |cwd| < MAX_PATH
    ensures var here, rn := Components(cwd), |Split(root, ROOT_STACK)|;
      |here| <= STACK && Start(root, cwd) == if rn <= |here| then here[rn..] else here
  {
    if Components(cwd) != [] {
      JoinedLast(Components(cwd));
    }
  }

  /** Where a relative argument leads: the code's stack, told apart from any other by its text. */
  lemma Landing(root: string, cwd: string, arg: string, outsz: nat, meant: seq<string>)
    requires Canonical(root) && Canonical(cwd) && Names(meant)
    requires (arg == "" || arg[0] != '/') && |arg| < MAX_PATH && Resolved(root, cwd, arg, outsz).Some?
    ensures |Components(arg)| <= STACK
    ensures Resolved(root, cwd, arg, outsz) == Some(Render(Components(root) + meant))
      <==> Walk(Start(root, cwd), Components(arg)) == meant
  {
    var rootNames, args := Components(root), Components(arg);
    ResolvedText(root, cwd, arg, outsz);
    StartNames(root, cwd, arg);
    NormNames(Start(root, cwd), args);
    var names := Walk(Start(root, cwd), args);
    CanonicalRender(rootNames + names);
    CanonicalRender(rootNames + meant);
    assert (rootNames + names)[|rootNames|..] == names && (rootNames + meant)[|rootNames|..] == meant;
  }

  lemma DroppedStart(dropped: seq<string>, rest: seq<string>, args: seq<string>)
    requires dropped != [] && |rest| <= STACK && |args| <= STACK
    ensures Walk(rest, args) == Norm(dropped + rest, args)
      <==> Climb(args) >= |dropped + rest| && Fits(rest, args)
  {
    WalkExact(rest, args);
    if !Fits(rest, args) {
      WalkShort(rest, args);
    }
    SuffixStart(dropped, rest, args);
    NormSplit(rest, args);
    NormSplit(dropped + rest, args);
  }

  /** From the root-relative directory `cwd` that CWD stores, a relative argument leads where it
      says exactly if the root is "/", or the directory is shallower than the root, or the argument
      climbs out of it altogether (and the 512-entry stack suffices): otherwise the resolver drops
      leading components of `cwd` as if they were the root's. */
  lemma RelativeArgument(root: string, cwd: string, arg: string, outsz: nat)
    requires Canonical(root) && Canonical(cwd) && |cwd| < MAX_PATH
    requires (arg == "" || arg[0] != '/') && |arg| < MAX_PATH
    requires Resolved(root, cwd, arg, outsz).Some?
    ensures var rn := |Split(root, ROOT_STACK)|;
      var here, args := Components(cwd), Components(arg);
      var meant := Some(Render(Components(root) + Norm(here, args)));
      Resolved(root, cwd, arg, outsz) == meant
      <==> (rn == 0 || |here| < rn || Climb(args) >= |here|) && Fits(Start(root, cwd), args)
  {
    var rn := |Split(root, ROOT_STACK)|;
    var here, args := Components(cwd), Components(arg);
    var start := Start(root, cwd);
    CwdStart(root, cwd);
    NormNames(here, args);
    Landing(root, cwd, arg, outsz, Norm(here, args));
    if rn == 0 || |here| < rn {
      assert start == here;
      WalkExact(start, args);
    } else {
      assert here == here[..rn] + start;
      DroppedStart(here[..rn], start, args);
    }
  }

  lemma SplitShorter(path: string, cap: nat)
    ensures |Split(path, cap)| <= |Components(path)|
  {
  }

  lemma DropJoined(a: seq<string>, b: seq<string>, n: nat)
    requires n <= |a|
    ensures (a + b)[n..] == a[n..] + b
  {
  }

  lemma PrefixedStart(root: string, below: seq<string>)
    requires Canonical(root) && Names(below) && |Render(Components(root) + below)| < MAX_PATH
    ensures var cwd, rn := Render(Components(root) + below), |Split(root, ROOT_STACK)|;
      Canonical(cwd) && |Start(root, cwd)| <= STACK && Start(root, cwd) == Components(root)[rn..] + below
  {
    var rootNames, rn := Components(root), |Split(root, ROOT_STACK)|;
    var all := rootNames + below;
    CanonicalRender(all);
    CwdStart(root, Render(all));
    SplitShorter(root, ROOT_STACK);
    DropJoined(rootNames, below, rn);
    assert rn <= |all| && all[rn..] == rootNames[rn..] + below;
  }

  /** From a directory that contains the root, as the resolver expects, only the depth limits
      matter: 64 components of the root, 512 of the stack. */
  lemma PrefixedArgument(root: string, below: seq<string>, arg: string, outsz: nat)
    requires Canonical(root) && Names(below)
    requires var cwd := Render(Components(root) + below);
      |cwd| < MAX_PATH && (arg == "" || arg[0] != '/') && |arg| < MAX_PATH && Resolved(root, cwd, arg, outsz).Some?
    ensures var cwd, args := Render(Components(root) + below), Components(arg);
      var extra := |Components(root)| - |Split(root, ROOT_STACK)|;
      var meant := Some(Render(Components(root) + Norm(below, args)));
      (extra == 0 ==> (Resolved(root, cwd, arg, outsz) == meant <==> Fits(below, args))) &&
      (Fits(Start(root, cwd), args) ==>
        (Resolved(root, cwd, arg, outsz) == meant <==> extra == 0 || Climb(args) >= extra + |below|))
  {
    var rootNames, args := Components(root), Components(arg);
    var cwd := Render(rootNames + below);
    var rn := |Split(root, ROOT_STACK)|;
    PrefixedStart(root, below);
    var start := Start(root, cwd);
    NormNames(below, args);
    Landing(root, cwd, arg, outsz, Norm(below, args));
    WalkExact(start, args);
    if rn == |rootNames| {
      assert start == below;
    } else {
      SuffixStart(rootNames[rn..], below, args);
    }
  }

  lemma OneComponent(name: string)
    requires Name(name)
    ensures Components(name) == [name] && Components("/" + name) == [name] && Canonical("/" + name)
  {
    FirstSlashUnique(name, |name|);
    ComponentsStep(name, |name|);
    assert ("/" + name)[1..] == name;
    assert Joined([name]) == "/" + name;
  }

  lemma NamesWalk(names: seq<string>)
    requires Names(names) && |names| <= STACK
    ensures Walk([], names) == names
  {
    NormOfNames(names);
    FitsIfShallow([], names);
    WalkExact([], names);
  }

  /** Under root /r, in the directory shown as /a, the argument b leads to /r/b and not to /r/a/b. */
  lemma RelativeArgumentStrays(r: string, a: string, b: string)
    requires Name(r) && Name(a) && Name(b) && |r| + |a| + |b| < 1000
    ensures Resolved("/" + r, "/" + a, b, MAX_PATH) == Some(Joined([r, b]))
    ensures Components("/" + r) + Norm(Components("/" + a), Components(b)) == [r, a, b]
  {
    OneComponent(r);
    OneComponent(a);
    OneComponent(b);
    StraysText("/" + r, "/" + a, b);
    NormSplit([a], [b]);
    NormOfNames([b]);
  }

  lemma StraysText(root: string, cwd: string, b: string)
    requires Canonical(root) && Canonical(cwd) && |root| + |cwd| + |b| < 1002 && Name(b)
    requires |Components(root)| == |Components(cwd)| == 1 && Components(b) == [b]
    ensures Resolved(root, cwd, b, MAX_PATH) == Some(Joined([Components(root)[0], b]))
  {
    var r := Components(root)[0];
    assert Start(root, cwd) == [] by {
      CwdStart(root, cwd);
    }
    assert Walk([], [b]) == [b] by {
      NamesWalk([b]);
    }
    assert Joined([r, b]) == root + ("/" + b) by {
      assert [r] + [b] == [r, b] && Components(root) == [r];
      JoinedAppend([r], [b]);
      assert Joined([b]) == "/" + b;
    }
    assert Components(root) + [b] == [r, b];
    ResolvedText(root, cwd, b, MAX_PATH);
  }

  lemma LastSlashUnique(s: string, k: nat)
    requires k < |s| && s[k] == '/' && forall i :: k < i < |s| ==> s[i] != '/'
    ensures LastSlash(s) == k
  {
  }

  lemma LastSlashBefore(a: string, c: string)
    requires '/' !in c
    ensures var s := a + ("/" + c); LastSlash(s) == |a| && s[..|a|] == a
  {
    var s := a + ("/" + c);
    assert forall i :: |a| < i < |s| ==> s[i] == c[i - |a| - 1];
    LastSlashUnique(s, |a|);
  }

  /** A path ends in its last component. */
  lemma LastComponent(init: seq<string>, c: string)
    requires Segments(init) && Segment(c)
    ensures var path, k := Joined(init + [c]), |Joined(init)|;
      LastSlash(path) == k && path[..k] == Joined(init)
  {
    JoinedAppend(init, [c]);
    assert Joined([c]) == "/" + c;
    LastSlashBefore(Joined(init), c);
  }

  /** The parent of a canonical path has the same components but the last; "/" has none. */
  lemma ParentMeaning(names: seq<string>)
    requires Names(names)
    ensures ParentText(Render(names)) == if names == [] then "" else Render(names[..|names| - 1])
  {
    if names != [] {
      var init, c := names[..|names| - 1], names[|names| - 1];
      assert names == init + [c];
      LastComponent(init, c);
      JoinedLast(names);
      if init != [] {
        JoinedLast(init);
      }
    }
  }
}
