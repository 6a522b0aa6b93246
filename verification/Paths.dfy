/** Slash-separated path texts and their component lists. */
module Paths {
  /** A component as split_components yields it. */
  predicate Segment(c: string) {
    c != "" && '/' !in c
  }

  /** A component of a canonical path. */
  predicate Name(c: string) {
    Segment(c) && c != "." && c != ".."
  }

  predicate Names(cs: seq<string>) {
    forall i :: 0 <= i < |cs| ==> Name(cs[i])
  }

  predicate Segments(cs: seq<string>) {
    forall i :: 0 <= i < |cs| ==> Segment(cs[i])
  }

  /** Position of the first slash, or the length if there is none. */
  function FirstSlash(s: string): (k: nat)
    ensures k <= |s| && forall i :: 0 <= i < k ==> s[i] != '/'
    ensures k < |s| ==> s[k] == '/'
  {
    if s == "" || s[0] == '/' then 0 else FirstSlash(s[1..]) + 1
  }

  /** The non-empty segments between slashes. */
  function Components(s: string): (cs: seq<string>)
    ensures Segments(cs) && 2 * |cs| <= |s| + 1
    decreases |s|
  {
    if s == "" then []
    else if s[0] == '/' then Components(s[1..])
    else
      var k := FirstSlash(s);
      if k == |s| then [s] else [s[..k]] + Components(s[k + 1..])
  }

  function Joined(cs: seq<string>): string {
    if cs == [] then "" else "/" + cs[0] + Joined(cs[1..])
  }

  /** The canonical absolute path with these components. */
  function Render(cs: seq<string>): string {
    if cs == [] then "/" else Joined(cs)
  }

  predicate Canonical(path: string) {
    Names(Components(path)) && path == Render(Components(path))
  }

  lemma FirstSlashUnique(s: string, k: nat)
    requires k <= |s| && (forall i :: 0 <= i < k ==> s[i] != '/') && (k < |s| ==> s[k] == '/')
    ensures FirstSlash(s) == k
  {
  }

  /** Cutting one segment off the front. */
  lemma ComponentsStep(s: string, k: nat)
    requires 0 < k == FirstSlash(s)
    ensures Components(s) == [s[..k]] + (if k < |s| then Components(s[k + 1..]) else [])
  {
    assert s[..|s|] == s;
  }

  lemma {:induction false} ComponentsJoined(cs: seq<string>)
    requires Segments(cs)
    ensures Components(Joined(cs)) == cs
  {
    if cs != [] {
      var c, rest := cs[0], cs[1..];
      var t := c + Joined(rest);
      assert Joined(cs)[1..] == t;
      assert t[..|c|] == c;
      assert t[0] == c[0];
      FirstSlashUnique(t, |c|);
      ComponentsJoined(rest);
      if rest == [] {
        assert t == c;
      } else {
        assert t[|c| + 1..] == Joined(rest)[1..];
        assert Joined(rest)[0] == '/';
      }
    }
  }

  /** Reading a canonical path back gives its components, so Render is injective. */
  lemma ComponentsRender(cs: seq<string>)
    requires Segments(cs)
    ensures Components(Render(cs)) == cs
  {
    ComponentsJoined(cs);
  }

  lemma {:induction false} JoinedAppend(a: seq<string>, b: seq<string>)
    ensures Joined(a + b) == Joined(a) + Joined(b)
  {
    if a == [] {
      assert a + b == b;
    } else {
      assert (a + b)[1..] == a[1..] + b;
      JoinedAppend(a[1..], b);
    }
  }

  lemma JoinedLast(cs: seq<string>)
    requires Segments(cs) && cs != []
    ensures var t := Joined(cs); |t| > 1 && t[0] == '/' && t[|t| - 1] != '/'
  {
    var init, c := cs[..|cs| - 1], cs[|cs| - 1];
    assert cs == init + [c];
    JoinedAppend(init, [c]);
    assert Joined([c]) == "/" + c;
    assert c[|c| - 1] in c;
  }
}
