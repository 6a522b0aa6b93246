/** The UTF-8 validator (src/utf8.c) against sections 3 and 4 of RFC 3629. */
module Utf8 {
  import opened Common


  /** Unicode scalar values: code points up to U+10FFFF without the surrogates. */
  predicate Scalar(c: int) {
    0 <= c <= 0x10FFFF && !(0xD800 <= c <= 0xDFFF)
  }

  /** The table of section 3 of RFC 3629. */
  function Encode(c: int): (r: seq<Byte>)
    requires Scalar(c)
    ensures 1 <= |r| <= 4
  {
    if c < 0x80 then [c]
    else if c < 0x800 then [0xC0 + c / 64, 0x80 + c % 64]
    else if c < 0x10000 then [0xE0 + c / 4096, 0x80 + c / 64 % 64, 0x80 + c % 64]
    else [0xF0 + c / 262144, 0x80 + c / 4096 % 64, 0x80 + c / 64 % 64, 0x80 + c % 64]
  }

  ghost predicate Scalars(cs: seq<int>) {
    forall c :: c in cs ==> Scalar(c)
  }

  ghost function EncodeAll(cs: seq<int>): seq<Byte>
    requires Scalars(cs)
  {
    if cs == [] then [] else Encode(cs[0]) + EncodeAll(cs[1..])
  }

  ghost predicate WellFormed(s: seq<Byte>) {
    exists cs: seq<int> :: Scalars(cs) && EncodeAll(cs) == s
  }

  // ---- reading one sequence ----

  /** Bytes after the first: 0 for ASCII, -1 for a byte that cannot come first. The bit patterns
      110xxxxx, 1110xxxx, 11110xxx and 10xxxxxx the source masks for are ranges here, and masking the
      pattern away is subtracting it. */
  function Need(b: Byte): int {
    if b < 0x80 then 0
    else if 0xC0 <= b < 0xE0 then (if b == 0xC0 then -1 else 1)
    else if 0xE0 <= b < 0xF0 then 2
    else if 0xF0 <= b < 0xF8 then 3
    else -1
  }

  function Lead(b: Byte): int {
    if b < 0x80 then b else if b < 0xE0 then b - 0xC0 else if b < 0xF0 then b - 0xE0 else b - 0xF0
  }

  predicate Continuation(b: int) {
    0x80 <= b < 0xC0
  }

  /** Reading past the end meets the terminating NUL. */
  function ByteAt(s: seq<Byte>, p: nat): Byte {
    if p < |s| then s[p] else 0
  }

  /** The value gathered from a first byte and `k` continuation bytes. */
  function Gather(s: seq<Byte>, p: nat, k: nat): int {
    if k == 0 then Lead(ByteAt(s, p)) else Gather(s, p, k - 1) * 64 + (ByteAt(s, p + k) - 0x80)
  }

  predicate Tail(s: seq<Byte>, p: nat, k: nat) {
    && (k >= 1 ==> Continuation(ByteAt(s, p + 1)))
    && (k >= 2 ==> Continuation(ByteAt(s, p + 2)))
    && (k >= 3 ==> Continuation(ByteAt(s, p + 3)))
  }

  predicate Shortest(need: int, cp: int) {
    (need == 1 ==> cp >= 0x80) && (need == 2 ==> cp >= 0x800) && (need == 3 ==> cp >= 0x10000)
  }

  /** What the loop body checks at position `p`. */
  predicate SequenceOk(s: seq<Byte>, p: nat) {
    var need := Need(ByteAt(s, p));
    need >= 0 && Tail(s, p, need) && Shortest(need, Gather(s, p, need)) && Scalar(Gather(s, p, need))
  }

  /** Where the loop goes on, and that it ends at the end. */
  predicate Accepts(s: seq<Byte>, p: nat)
    decreases |s| - p
  {
    p >= |s| || (SequenceOk(s, p) && Accepts(s, p + Need(ByteAt(s, p)) + 1))
  }

  /** opftp_utf8_valid. A C string is its bytes before the NUL, so it holds no NUL. */
  method Validate(s: seq<Byte>) returns (ok: bool)
    requires 0 !in s
    ensures ok <==> WellFormed(s)
  {
    ok := Scan(s);
    AcceptsIffWellFormed(s);
  }

  /** The continuation bytes of the sequence at p. */
  method Continue(s: seq<Byte>, p: nat, need: nat, lead: int) returns (ok: bool, cp: int)
    requires need <= 3 && lead == Gather(s, p, 0)
    ensures ok <==> Tail(s, p, need)
    ensures ok ==> cp == Gather(s, p, need)
  {
    cp := lead;
    var i := 0;
    while i < need
      invariant 0 <= i <= need && Tail(s, p, i) && cp == Gather(s, p, i)
    {
      var b := ByteAt(s, p + i + 1);
      if !Continuation(b) {
        return false, cp;
      }
      cp := cp * 64 + (b - 0x80);
      i := i + 1;
    }
    return true, cp;
  }

  /** The loop itself. */
  method Scan(s: seq<Byte>) returns (ok: bool)
    ensures ok <==> Accepts(s, 0)
  {
    var p := 0;
    while p < |s|
      invariant Accepts(s, 0) <==> Accepts(s, p)
    {
      var c := s[p];
      if c < 0x80 {
        p := p + 1;
        continue;
      }
      var cp: int;
      var need: nat;
      if 0xC0 <= c < 0xE0 {
        cp, need := c - 0xC0, 1;
        if cp == 0 {
          return false;
        }
      } else if 0xE0 <= c < 0xF0 {
        cp, need := c - 0xE0, 2;
      } else if 0xF0 <= c < 0xF8 {
        cp, need := c - 0xF0, 3;
      } else {
        return false;
      }
      var whole;
      whole, cp := Continue(s, p, need, cp);
      if !whole {
        return false;
      }
      p := p + need + 1;
      if need == 1 && cp < 0x80 { return false; }
      if need == 2 && cp < 0x800 { return false; }
      if need == 3 && cp < 0x10000 { return false; }
      if 0xD800 <= cp <= 0xDFFF { return false; }
      if cp > 0x10FFFF { return false; }
    }
    ok := true;
  }

  // ---- one sequence is one encoded scalar ----

  lemma Two(b0: Byte, b1: Byte, c: int)
    requires 0xC0 <= b0 < 0xE0 && Continuation(b1) && c == (b0 - 0xC0) * 64 + (b1 - 0x80) && c >= 0x80
    ensures Encode(c) == [b0, b1]
  {
  }

  lemma Three(b0: Byte, b1: Byte, b2: Byte, c: int)
    requires 0xE0 <= b0 < 0xF0 && Continuation(b1) && Continuation(b2)
    requires c == ((b0 - 0xE0) * 64 + (b1 - 0x80)) * 64 + (b2 - 0x80) && c >= 0x800 && Scalar(c)
    ensures Encode(c) == [b0, b1, b2]
  {
    assert c / 64 == (b0 - 0xE0) * 64 + (b1 - 0x80);
    assert c / 4096 == b0 - 0xE0;
  }

  lemma Four(b0: Byte, b1: Byte, b2: Byte, b3: Byte, c: int)
    requires 0xF0 <= b0 < 0xF8 && Continuation(b1) && Continuation(b2) && Continuation(b3)
    requires c == (((b0 - 0xF0) * 64 + (b1 - 0x80)) * 64 + (b2 - 0x80)) * 64 + (b3 - 0x80)
    requires c >= 0x10000 && Scalar(c)
    ensures Encode(c) == [b0, b1, b2, b3]
  {
    var q1 := (b0 - 0xF0) * 64 + (b1 - 0x80);
    var q2 := q1 * 64 + (b2 - 0x80);
    Digit(c, q2, b3 - 0x80);
    Digit(q2, q1, b2 - 0x80);
    Digit(q1, b0 - 0xF0, b1 - 0x80);
    assert c / 4096 == q2 / 64 && c / 262144 == q1 / 64 by {
      Shift(c);
    }
  }

  lemma Digit(c: int, q: int, r: int)
    requires c == q * 64 + r && 0 <= r < 64
    ensures c / 64 == q && c % 64 == r
  {
  }

  lemma Shift(c: int)
    ensures c / 4096 == c / 64 / 64 && c / 262144 == c / 64 / 64 / 64
  {
  }

  lemma Gather1(s: seq<Byte>, p: nat)
    ensures Gather(s, p, 1) == Lead(ByteAt(s, p)) * 64 + (ByteAt(s, p + 1) - 0x80)
  {
    assert Gather(s, p, 1) == Gather(s, p, 0) * 64 + (ByteAt(s, p + 1) - 0x80);
  }

  lemma Gather2(s: seq<Byte>, p: nat)
    ensures Gather(s, p, 2) ==
            (Lead(ByteAt(s, p)) * 64 + (ByteAt(s, p + 1) - 0x80)) * 64 + (ByteAt(s, p + 2) - 0x80)
  {
    Gather1(s, p);
    assert Gather(s, p, 2) == Gather(s, p, 1) * 64 + (ByteAt(s, p + 2) - 0x80);
  }

  lemma Gather3(s: seq<Byte>, p: nat)
    ensures Gather(s, p, 3) ==
            ((Lead(ByteAt(s, p)) * 64 + (ByteAt(s, p + 1) - 0x80)) * 64 + (ByteAt(s, p + 2) - 0x80)) * 64
            + (ByteAt(s, p + 3) - 0x80)
  {
    Gather2(s, p);
    assert Gather(s, p, 3) == Gather(s, p, 2) * 64 + (ByteAt(s, p + 3) - 0x80);
  }

  /** The bytes from p on encode the value gathered from them. */
  ghost predicate EncodesAt(s: seq<Byte>, p: nat, need: nat)
    requires p + need < |s|
  {
    forall k {:trigger Unfold(k)} :: Unfold(k) ==>
      Scalar(Gather(s, p, need)) && Encode(Gather(s, p, need)) == s[p..p + need + 1]
  }

  lemma EncodesTwo(s: seq<Byte>, p: nat)
    requires p < |s| && SequenceOk(s, p) && Need(s[p]) == 1
    ensures p + 1 < |s| && EncodesAt(s, p, 1)
  {
    assert s[p..p + 2] == [s[p], s[p + 1]];
    Gather1(s, p);
    Two(s[p], s[p + 1], Gather(s, p, 1));
  }

  lemma EncodesThree(s: seq<Byte>, p: nat)
    requires p < |s| && SequenceOk(s, p) && Need(s[p]) == 2
    ensures p + 2 < |s| && EncodesAt(s, p, 2)
  {
    assert s[p..p + 3] == [s[p], s[p + 1], s[p + 2]];
    Gather2(s, p);
    Three(s[p], s[p + 1], s[p + 2], Gather(s, p, 2));
  }

  lemma EncodesFour(s: seq<Byte>, p: nat)
    requires p < |s| && SequenceOk(s, p) && Need(s[p]) == 3
    ensures p + 3 < |s| && EncodesAt(s, p, 3)
  {
    assert s[p..p + 4] == [s[p], s[p + 1], s[p + 2], s[p + 3]];
    Gather3(s, p);
    Four(s[p], s[p + 1], s[p + 2], s[p + 3], Gather(s, p, 3));
  }

  /** The bytes the loop consumes are those that encode the value it gathered. */
  lemma SequenceEncodes(s: seq<Byte>, p: nat)
    requires p < |s| && SequenceOk(s, p)
    ensures p + Need(s[p]) < |s| && EncodesAt(s, p, Need(s[p]))
  {
    var need := Need(s[p]);
    if need == 0 {
      assert s[p..p + 1] == [s[p]];
    } else if need == 1 {
      EncodesTwo(s, p);
    } else if need == 2 {
      EncodesThree(s, p);
    } else {
      EncodesFour(s, p);
    }
  }

  /** The first byte of an encoding announces its length, the others are continuations, and together
      they give the value back. */
  lemma EncodingShape(c: int)
    requires Scalar(c)
    ensures Need(Encode(c)[0]) == |Encode(c)| - 1
    ensures forall i :: 1 <= i < |Encode(c)| ==> Continuation(Encode(c)[i])
    ensures Gather(Encode(c), 0, |Encode(c)| - 1) == c
    ensures Shortest(|Encode(c)| - 1, c)
  {
    var e := Encode(c);
    Digits(c);
    if |e| == 2 {
      Gather1(e, 0);
    } else if |e| == 3 {
      Gather2(e, 0);
    } else if |e| == 4 {
      Gather3(e, 0);
    }
  }

  /** A scalar in base 64. */
  lemma Digits(c: int)
    requires Scalar(c)
    ensures c == c / 64 * 64 + c % 64
    ensures c / 64 == c / 4096 * 64 + c / 64 % 64
    ensures c / 4096 == c / 262144 * 64 + c / 4096 % 64
    ensures 0 <= c / 262144 < 5
    ensures c < 0x10000 ==> c / 4096 < 16
    ensures c < 0x800 ==> c / 64 < 32
    ensures c >= 0x80 ==> c / 64 >= 2
  {
  }

  lemma {:induction false} GatherShift(s: seq<Byte>, p: nat, e: seq<Byte>, k: nat)
    requires k < |e| && p + |e| <= |s| && s[p..p + |e|] == e
    ensures Gather(s, p, k) == Gather(e, 0, k)
  {
    assert forall i :: 0 <= i < |e| ==> e[i] == s[p + i];
    if k > 0 {
      GatherShift(s, p, e, k - 1);
    }
  }

  /** An encoded scalar passes every check, and is what the loop gathers. */
  lemma EncodedIsOk(s: seq<Byte>, p: nat, c: int)
    requires Scalar(c) && p + |Encode(c)| <= |s| && s[p..p + |Encode(c)|] == Encode(c)
    ensures SequenceOk(s, p) && Need(s[p]) == |Encode(c)| - 1 && Gather(s, p, Need(s[p])) == c
  {
    var e := Encode(c);
    assert forall i :: 0 <= i < |e| ==> e[i] == ByteAt(s, p + i);
    assert e[0] == s[p];
    assert |e| >= 2 ==> e[1] == ByteAt(s, p + 1);
    assert |e| >= 3 ==> e[2] == ByteAt(s, p + 2);
    assert |e| >= 4 ==> e[3] == ByteAt(s, p + 3);
    EncodingShape(c);
    GatherShift(s, p, e, |e| - 1);
  }

  // ---- whole strings ----

  lemma {:induction false} Decoding(s: seq<Byte>, p: nat) returns (cs: seq<int>)
    requires p <= |s| && Accepts(s, p)
    ensures Scalars(cs) && EncodeAll(cs) == s[p..]
    decreases |s| - p
  {
    if p == |s| {
      cs := [];
    } else {
      SequenceEncodes(s, p);
      var need := Need(s[p]);
      var rest := Decoding(s, p + need + 1);
      cs := [Gather(s, p, need)] + rest;
      DecodingStep(s, p, need, rest);
    }
  }

  lemma DecodingStep(s: seq<Byte>, p: nat, need: nat, rest: seq<int>)
    requires p + need < |s| && EncodesAt(s, p, need) && Scalars(rest) && EncodeAll(rest) == s[p + need + 1..]
    ensures var cs := [Gather(s, p, need)] + rest; Scalars(cs) && EncodeAll(cs) == s[p..]
  {
    assert Unfold(0);
    var c, q := Gather(s, p, need), p + need + 1;
    var cs := [c] + rest;
    assert cs[0] == c && cs[1..] == rest;
    assert s[p..q] + s[q..] == s[p..];
  }

  lemma FirstOf(t: seq<Byte>, e: seq<Byte>, rest: seq<Byte>)
    requires t == e + rest
    ensures |e| <= |t| && t[..|e|] == e && t[|e|..] == rest
  {
  }

  /** The loop's next step over an encoded string. */
  lemma FirstEncoding(s: seq<Byte>, p: nat, cs: seq<int>) returns (q: nat)
    requires Scalars(cs) && cs != [] && p <= |s| && s[p..] == EncodeAll(cs)
    ensures p < q <= |s| && SequenceOk(s, p) && q == p + Need(ByteAt(s, p)) + 1 && s[q..] == EncodeAll(cs[1..])
  {
    var e := Encode(cs[0]);
    q := p + |e|;
    FirstOf(s[p..], e, EncodeAll(cs[1..]));
    assert s[p..q] == s[p..][..|e|];
    assert s[q..] == s[p..][|e|..];
    EncodedIsOk(s, p, cs[0]);
  }

  lemma {:induction false} EncodedAccepted(s: seq<Byte>, p: nat, cs: seq<int>)
    requires Scalars(cs) && p <= |s| && s[p..] == EncodeAll(cs)
    ensures Accepts(s, p)
    decreases |cs|
  {
    if cs != [] {
      var q := FirstEncoding(s, p, cs);
      EncodedAccepted(s, q, cs[1..]);
    }
  }

  lemma AcceptsIffWellFormed(s: seq<Byte>)
    ensures Accepts(s, 0) <==> WellFormed(s)
  {
    assert s[0..] == s;
    if Accepts(s, 0) {
      var cs := Decoding(s, 0);
    }
    if WellFormed(s) {
      var cs: seq<int> :| Scalars(cs) && EncodeAll(cs) == s;
      EncodedAccepted(s, 0, cs);
    }
  }

  /** A string is the encoding of one sequence of scalars only. */
  lemma {:induction false} DecodingUnique(cs: seq<int>, ds: seq<int>)
    requires Scalars(cs) && Scalars(ds) && EncodeAll(cs) == EncodeAll(ds)
    ensures cs == ds
  {
    if cs != [] && ds != [] {
      FirstScalarUnique(cs[0], EncodeAll(cs[1..]), ds[0], EncodeAll(ds[1..]));
      DecodingUnique(cs[1..], ds[1..]);
      assert cs == [cs[0]] + cs[1..] && ds == [ds[0]] + ds[1..];
    }
  }

  lemma FirstScalarUnique(c: int, x: seq<Byte>, d: int, y: seq<Byte>)
    requires Scalar(c) && Scalar(d) && Encode(c) + x == Encode(d) + y
    ensures c == d && x == y
  {
    var s := Encode(c) + x;
    assert s[0..|Encode(c)|] == Encode(c);
    assert s[0..|Encode(d)|] == Encode(d) by {
      assert s == Encode(d) + y;
    }
    EncodedIsOk(s, 0, c);
    EncodedIsOk(s, 0, d);
    assert x == s[|Encode(c)|..] && y == (Encode(d) + y)[|Encode(d)|..];
  }
}
