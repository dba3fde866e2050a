/** Python's str.strip and substring search on strings of code points. */
module Text {

  /** The code points for which str.isspace holds. */
  predicate IsSpace(c: char) {
    var n := c as int;
    || 0x09 <= n <= 0x0d || 0x1c <= n <= 0x20 || n == 0x85 || n == 0xa0 || n == 0x1680
    || 0x2000 <= n <= 0x200a || n == 0x2028 || n == 0x2029 || n == 0x202f || n == 0x205f || n == 0x3000
  }

  function LStrip(s: string): string {
    if s != "" && IsSpace(s[0]) then LStrip(s[1..]) else s
  }

  function RStrip(s: string): string {
    if s != "" && IsSpace(s[|s| - 1]) then RStrip(s[..|s| - 1]) else s
  }

  function Strip(s: string): string { RStrip(LStrip(s)) }

  /** Non-empty, with no white space at either end. */
  predicate IsStripped(s: string) {
    s != "" && !IsSpace(s[0]) && !IsSpace(s[|s| - 1])
  }

  ghost predicate ContainsAt(t: string, u: string, i: int) {
    0 <= i <= |t| - |u| && t[i..i + |u|] == u
  }

  ghost predicate Contains(t: string, u: string) {
    exists i :: ContainsAt(t, u, i)
  }

  lemma {:induction false} LStripKeeps(t: string, u: string)
    requires IsStripped(u) && Contains(t, u)
    ensures Contains(LStrip(t), u)
    decreases |t|
  {
    if IsSpace(t[0]) {
      var i :| ContainsAt(t, u, i);
      assert t[i..i + |u|][0] == t[i];
      assert t[1..][i - 1..i - 1 + |u|] == t[i..i + |u|];
      assert ContainsAt(t[1..], u, i - 1);
      LStripKeeps(t[1..], u);
    }
  }

  lemma {:induction false} RStripKeeps(t: string, u: string)
    requires IsStripped(u) && Contains(t, u)
    ensures Contains(RStrip(t), u)
    decreases |t|
  {
    var last := |t| - 1;
    if t != "" && IsSpace(t[last]) {
      var i :| ContainsAt(t, u, i);
      assert t[i..i + |u|][|u| - 1] == t[i + |u| - 1];
      assert t[..last][i..i + |u|] == t[i..i + |u|];
      assert ContainsAt(t[..last], u, i);
      RStripKeeps(t[..last], u);
    }
  }

  /** Stripping never cuts into a stripped substring. */
  lemma StripKeeps(t: string, u: string)
    requires IsStripped(u) && Contains(t, u)
    ensures Contains(Strip(t), u)
  {
    LStripKeeps(t, u);
    RStripKeeps(LStrip(t), u);
  }

  lemma {:induction false} LStripResult(s: string)
    ensures |LStrip(s)| <= |s| && (LStrip(s) == "" || !IsSpace(LStrip(s)[0]))
    decreases |s|
  {
    if s != "" && IsSpace(s[0]) { LStripResult(s[1..]); }
  }

  lemma {:induction false} RStripResult(s: string)
    ensures |RStrip(s)| <= |s| && RStrip(s) == s[..|RStrip(s)|]
    ensures RStrip(s) == "" || !IsSpace(RStrip(s)[|RStrip(s)| - 1])
    decreases |s|
  {
    if s != "" && IsSpace(s[|s| - 1]) { RStripResult(s[..|s| - 1]); }
  }

  lemma StripResult(s: string)
    ensures |Strip(s)| <= |s|
    ensures Strip(s) == "" || IsStripped(Strip(s))
  {
    LStripResult(s);
    RStripResult(LStrip(s));
  }

  lemma ContainsInMiddle(a: string, u: string, b: string)
    ensures Contains(a + u + b, u)
  {
    assert ContainsAt(a + u + b, u, |a|);
  }

  lemma ContainsInPrefix(t: string, b: string, u: string)
    requires Contains(t, u)
    ensures Contains(t + b, u)
  {
    var i :| ContainsAt(t, u, i);
    assert (t + b)[i..i + |u|] == t[i..i + |u|];
    assert ContainsAt(t + b, u, i);
  }

  lemma {:induction false} LStripJoin(a: string, b: string)
    ensures LStrip(a + b) == if LStrip(a) == "" then LStrip(b) else LStrip(a) + b
    decreases |a|
  {
    if a == "" {
      assert a + b == b;
    } else {
      assert (a + b)[0] == a[0] && (a + b)[1..] == a[1..] + b;
      if IsSpace(a[0]) { LStripJoin(a[1..], b); }
    }
  }

  lemma StrippedStays(s: string)
    requires s != "" && !IsSpace(s[|s| - 1])
    ensures RStrip(s) == s
  {
  }

  lemma LStripSpaced(u: string)
    requires IsStripped(u)
    ensures LStrip(" " + u) == u
  {
    assert (" " + u)[1..] == u;
  }

  lemma EndsWith(a: string, u: string)
    requires IsStripped(u)
    ensures RStrip(a + u) == a + u
  {
    assert (a + u)[|a + u| - 1] == u[|u| - 1];
    StrippedStays(a + u);
  }

  lemma Associative(a: string, b: string, c: string)
    ensures (a + b) + c == a + (b + c)
  {
  }

  /** Joining with a space and stripping only ever removes the leading white space of the left part. */
  lemma StripJoin(c: string, u: string)
    requires IsStripped(u)
    ensures Strip(c + " " + u) == if LStrip(c) == "" then u else LStrip(c) + " " + u
  {
    Associative(c, " ", u);
    LStripJoin(c, " " + u);
    LStripSpaced(u);
    StrippedStays(u);
    Associative(LStrip(c), " ", u);
    EndsWith(LStrip(c) + " ", u);
  }

  ghost predicate AllSpace(s: string) { forall i :: 0 <= i < |s| ==> IsSpace(s[i]) }

  lemma {:induction false} LStripIs(s: string) returns (left: string)
    ensures s == left + LStrip(s) && AllSpace(left)
  {
    left := "";
    if s != "" && IsSpace(s[0]) {
      left := LStripIs(s[1..]);
      left := [s[0]] + left;
      assert s == [s[0]] + s[1..];
    }
  }

  lemma {:induction false} RStripIs(s: string) returns (right: string)
    ensures s == RStrip(s) + right && AllSpace(right)
    decreases |s|
  {
    right := "";
    if s != "" && IsSpace(s[|s| - 1]) {
      right := RStripIs(s[..|s| - 1]);
      right := right + [s[|s| - 1]];
      assert s == s[..|s| - 1] + [s[|s| - 1]];
    }
  }

  /** Stripping takes nothing but white space, from both ends. */
  lemma StripIs(s: string) returns (left: string, right: string)
    ensures s == left + Strip(s) + right && AllSpace(left) && AllSpace(right)
  {
    left := LStripIs(s);
    right := RStripIs(LStrip(s));
    Associative(left, Strip(s), right);
  }
}
