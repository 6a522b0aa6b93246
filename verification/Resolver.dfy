/** Lexical path resolution under a root (src/resolve.c), the stored working directory
    (src/commands.c) and the textual containment test (src/fs_rooted.c). */
module Resolver {
  import opened Common
  import opened Paths

  const MAX_PATH: nat := 1024
  const STACK: nat := 512
  const ROOT_STACK: nat := 64

  // ---- what an argument means ----

  /** One component applied to a stack without limit. */
  function Apply(stack: seq<string>, c: string): seq<string> {
    if c == "." then stack
    else if c == ".." then (if stack == [] then [] else stack[..|stack| - 1])
    else stack + [c]
  }

  /** The clamped normal form of `args` starting from `stack`. */
  function Norm(stack: seq<string>, args: seq<string>): seq<string> {
    if args == [] then stack else Apply(Norm(stack, args[..|args| - 1]), args[|args| - 1])
  }

  /** How many levels of its starting point `args` climbs out of. */
  function Climb(args: seq<string>): nat {
    if args == [] then 0
    else
      var init, c := args[..|args| - 1], args[|args| - 1];
      if c == ".." && Norm([], init) == [] then Climb(init) + 1 else Climb(init)
  }

  // ---- what the code computes ----

  function Split(path: string, cap: nat): seq<string> {
    if |path| + 1 > MAX_PATH then [] else Cut(Components(path), cap)
  }

  function Cut(cs: seq<string>, n: nat): seq<string> {
    if |cs| <= n then cs else cs[..n]
  }

  /** Apply with the 512-entry stack: pushes on a full stack are skipped. */
  function Push(stack: seq<string>, c: string): seq<string> {
    if c != "." && c != ".." && |stack| >= STACK then stack else Apply(stack, c)
  }

  function Walk(stack: seq<string>, args: seq<string>): seq<string> {
    if args == [] then stack else Push(Walk(stack, args[..|args| - 1]), args[|args| - 1])
  }

  function Base(cwd: string, arg: string): string {
    if arg != "" && arg[0] == '/' then "/" else cwd
  }

  /** The stack before the argument: the base without as many components as the root has. */
  function Start(root: string, base: string): seq<string> {
    var stack, rn := Split(base, STACK), |Split(root, ROOT_STACK)|;
    if base != "" && base[0] == '/' && rn <= |stack| then stack[rn..] else stack
  }

  function Extend(text: string, c: string): string {
    if text != "" && text[|text| - 1] == '/' then text + c else text + "/" + c
  }

  function Build(root: string, cs: seq<string>): string {
    if cs == [] then (if |root| > 1 then root else "/")
    else Extend(Build(root, cs[..|cs| - 1]), cs[|cs| - 1])
  }

  function Resolved(root: string, cwd: string, arg: string, outsz: nat): Option<string> {
    var base := Base(cwd, arg);
    if |base| >= MAX_PATH then None
    else
      var text := Build(root, Walk(Start(root, base), Split(arg, STACK)));
      if |text| + 1 > 2 * MAX_PATH || |text| + 1 > outsz then None else Some(text)
  }

  // ---- the code ----

  method SplitComponents(path: string, cap: nat) returns (stack: seq<string>)
    ensures stack == Split(path, cap)
  {
    if |path| + 1 > MAX_PATH {
      return [];
    }
    stack := [];
    ghost var found := [];
    var p := 0;
    NoneSplit(path);
    while p < |path|
      invariant 0 <= p <= |path| && SplitUpTo(path, p, found) && stack == Cut(found, cap)
    {
      if path[p] == '/' {
        SkipSlash(path, p, found);
        p := p + 1;
      } else {
        p, stack, found := SplitOne(path, p, cap, stack, found);
      }
    }
    AllSplit(path, found);
  }

  /** The component that starts at p. */
  method SplitOne(path: string, p: nat, cap: nat, stack: seq<string>, ghost found: seq<string>)
    returns (p': nat, stack': seq<string>, ghost found': seq<string>)
    requires p < |path| && path[p] != '/' && SplitUpTo(path, p, found) && stack == Cut(found, cap)
    ensures p < p' <= |path| && SplitUpTo(path, p', found') && stack' == Cut(found', cap)
  {
    var end := SegmentEnd(path, p);
    var c := path[p..end];
    TakeSegment(path, p, end, found);
    CutMore(found, cap, c);
    found' := found + [c];
    stack' := if |stack| < cap then stack + [c] else stack;
    p' := if end < |path| then end + 1 else end;
  }

  lemma CutMore(cs: seq<string>, cap: nat, c: string)
    ensures Cut(cs + [c], cap) == if |Cut(cs, cap)| < cap then Cut(cs, cap) + [c] else Cut(cs, cap)
  {
  }

  /** `found` are the components that begin before position p. */
  ghost predicate SplitUpTo(path: string, p: nat, found: seq<string>) {
    p <= |path| && forall k {:trigger Unfold(k)} :: Unfold(k) ==> found + Components(path[p..]) == Components(path)
  }

  lemma NoneSplit(path: string)
    ensures SplitUpTo(path, 0, [])
  {
    assert [] + Components(path[0..]) == Components(path) by {
      assert path[0..] == path;
    }
  }

  lemma AllSplit(path: string, found: seq<string>)
    requires SplitUpTo(path, |path|, found)
    ensures found == Components(path)
  {
    assert Unfold(0);
    assert found + [] == found;
  }

  lemma SkipSlash(path: string, p: nat, found: seq<string>)
    requires p < |path| && path[p] == '/' && SplitUpTo(path, p, found)
    ensures SplitUpTo(path, p + 1, found)
  {
    assert Unfold(0);
    assert path[p..][1..] == path[p + 1..];
  }

  lemma TakeSegment(path: string, start: nat, p: nat, found: seq<string>)
    requires start < p <= |path| && p - start == FirstSlash(path[start..]) && SplitUpTo(path, start, found)
    ensures SplitUpTo(path, if p < |path| then p + 1 else p, found + [path[start..p]])
  {
    var c, next := path[start..p], if p < |path| then p + 1 else p;
    SegmentStep(path, start, p);
    var tail := Components(path[next..]);
    assert found + ([c] + tail) == Components(path) by {
      assert Unfold(0);
    }
    assert (found + [c]) + tail == found + ([c] + tail);
  }

  lemma SegmentStep(path: string, start: nat, p: nat)
    requires start < p <= |path| && p - start == FirstSlash(path[start..])
    ensures Components(path[start..]) == [path[start..p]] + Components(path[if p < |path| then p + 1 else p..])
  {
    var t, k := path[start..], p - start;
    assert t[..k] == path[start..p];
    if p < |path| {
      assert t[k + 1..] == path[p + 1..];
    } else {
      assert path[p..] == "";
    }
    ComponentsStep(t, k);
  }

  method SegmentEnd(path: string, start: nat) returns (p: nat)
    requires start < |path| && path[start] != '/'
    ensures start < p <= |path| && p - start == FirstSlash(path[start..])
  {
    p := start;
    while p < |path| && path[p] != '/'
      invariant start <= p <= |path|
      invariant forall k :: start <= k < p ==> path[k] != '/'
    {
      p := p + 1;
    }
    FirstSlashUnique(path[start..], p - start);
  }

  method Resolve(root: string, cwd: string, arg: string, outsz: nat) returns (out: Option<string>, slash: bool)
    ensures out == Resolved(root, cwd, arg, outsz)
    ensures out.Some? ==> (slash <==> arg != "" && arg[|arg| - 1] == '/')
  {
    var base := if arg != "" && arg[0] == '/' then "/" else cwd;
    slash := arg != "" && arg[|arg| - 1] == '/';
    if |base| >= MAX_PATH {
      return None, slash;
    }
    var stack := new string[STACK];
    var n := FillBase(root, base, stack);
    var args := SplitComponents(arg, STACK);
    ghost var start := stack[..n];
    n := WalkArgs(args, stack, n);
    WalkSegments(start, args);
    var text := Rebuild(root, stack[..n]);
    if text.None? || |text.value| + 1 > outsz {
      return None, slash;
    }
    return text, slash;
  }

  method FillBase(root: string, base: string, stack: array<string>) returns (n: nat)
    requires stack.Length == STACK
    modifies stack
    ensures n <= STACK && stack[..n] == Start(root, base)
  {
    var cs := SplitComponents(base, STACK);
    n := |cs|;
    forall i | 0 <= i < n {
      stack[i] := cs[i];
    }
    assert stack[..n] == cs;
    if base != "" && base[0] == '/' {
      var rcs := SplitComponents(root, ROOT_STACK);
      var rn := |rcs|;
      if rn <= n {
        forall i | 0 <= i < n - rn {
          stack[i] := stack[rn + i];
        }
        n := n - rn;
        assert stack[..n] == cs[rn..];
      }
    }
  }

  method WalkArgs(args: seq<string>, stack: array<string>, n0: nat) returns (n: nat)
    requires stack.Length == STACK && n0 <= STACK
    modifies stack
    ensures n <= STACK && stack[..n] == Walk(old(stack[..n0]), args)
  {
    n := n0;
    var i := 0;
    while i < |args|
      invariant 0 <= i <= |args| && n <= STACK
      invariant stack[..n] == Walk(old(stack[..n0]), args[..i])
    {
      var c := args[i];
      assert args[..i + 1][..i] == args[..i];
      ghost var before := stack[..n];
      if c == "." {
      } else if c == ".." {
        if n > 0 {
          n := n - 1;
        }
        assert stack[..n] == Apply(before, c);
      } else if n < STACK {
        stack[n] := c;
        n := n + 1;
        assert stack[..n] == before + [c];
      }
      i := i + 1;
    }
    assert args[..i] == args;
  }

  /** The result buffer has 2048 bytes. */
  method Rebuild(root: string, cs: seq<string>) returns (text: Option<string>)
    requires Segments(cs)
    ensures text == var t := Build(root, cs); if |t| + 1 > 2 * MAX_PATH then None else Some(t)
  {
    BuildGrows(root, cs, 0);
    var result := "/";
    if |root| > 1 {
      if |root| + 1 > 2 * MAX_PATH {
        return None;
      }
      result := root;
    }
    var i := 0;
    while i < |cs|
      invariant 0 <= i <= |cs| && result == Build(root, cs[..i]) && 0 < |result| < 2 * MAX_PATH
    {
      assert cs[..i + 1][..i] == cs[..i];
      BuildGrows(root, cs, i + 1);
      if result[|result| - 1] != '/' {
        if |result| + 1 >= 2 * MAX_PATH {
          return None;
        }
        result := result + "/";
      }
      if |result| + |cs[i]| + 1 > 2 * MAX_PATH {
        return None;
      }
      result := result + cs[i];
      i := i + 1;
    }
    assert cs[..i] == cs;
    return Some(result);
  }

  lemma {:induction false} WalkSegments(stack: seq<string>, args: seq<string>)
    requires Segments(stack) && Segments(args)
    ensures Segments(Walk(stack, args))
  {
    if args != [] {
      WalkSegments(stack, args[..|args| - 1]);
    }
  }

  lemma {:induction false} BuildGrows(root: string, cs: seq<string>, i: nat)
    requires i <= |cs|
    ensures |Build(root, cs[..i])| <= |Build(root, cs)|
    decreases |cs|
  {
    if i == |cs| {
      assert cs[..i] == cs;
    } else {
      var init := cs[..|cs| - 1];
      BuildGrows(root, init, i);
      assert init[..i] == cs[..i];
    }
  }

  // ---- the parent of a path ----

  function Stripped(path: string): string {
    if |path| > 1 && path[|path| - 1] == '/' then Stripped(path[..|path| - 1]) else path
  }

  function LastSlash(s: string): (k: int)
    ensures -1 <= k < |s| && (k >= 0 ==> s[k] == '/') && forall i :: k < i < |s| ==> s[i] != '/'
  {
    if s == "" then -1 else if s[|s| - 1] == '/' then |s| - 1 else LastSlash(s[..|s| - 1])
  }

  function ParentText(path: string): string {
    var t := Stripped(path);
    var k := LastSlash(t);
    if |path| <= 1 || k < 0 then "" else if k == 0 then "/" else t[..k]
  }

  method Parent(path: string, outsz: nat) returns (out: Option<string>)
    ensures out == if |ParentText(path)| + 1 > outsz then None else Some(ParentText(path))
  {
    if |path| <= 1 {
      return if outsz < 1 then None else Some("");
    }
    var len := |path|;
    assert path[..len] == path;
    while len > 1 && path[len - 1] == '/'
      invariant 1 <= len <= |path| && Stripped(path[..len]) == Stripped(path)
    {
      assert path[..len][..len - 1] == path[..len - 1];
      len := len - 1;
    }
    var slash, i := -1, 0;
    while i < len
      invariant 0 <= i <= len && slash == LastSlash(path[..i])
    {
      assert path[..i + 1][..i] == path[..i];
      if path[i] == '/' {
        slash := i;
      }
      i := i + 1;
    }
    if slash < 0 {
      return if outsz < 1 then None else Some("");
    }
    assert path[..len][..slash] == path[..slash];
    var plen := if slash == 0 then 1 else slash;
    assert slash == 0 ==> path[..1] == "/";
    return if plen + 1 > outsz then None else Some(path[..plen]);
  }
}
