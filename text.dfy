/**
 * The string operations the app applies to form text: JavaScript's `\s`
 * character class and `trim()`, `toLowerCase()`, `includes()`, and
 * `replace(/\s+/g, "-")`.
 */
module Text {

  /** JavaScript's white space and line terminators: what `\s` matches and what `trim()` strips. */
  predicate IsSpace(c: char) {
    c == '\t' || c == '\n' || c == '\U{B}' || c == '\U{C}' || c == '\r' || c == ' '
    || c == '\U{A0}' || c == '\U{1680}' || ('\U{2000}' <= c <= '\U{200A}')
    || c == '\U{2028}' || c == '\U{2029}' || c == '\U{202F}' || c == '\U{205F}'
    || c == '\U{3000}' || c == '\U{FEFF}'
  }

  predicate AllSpace(s: string) {
    forall i :: 0 <= i < |s| ==> IsSpace(s[i])
  }

  predicate NoSpace(s: string) {
    forall i :: 0 <= i < |s| ==> !IsSpace(s[i])
  }

  /** `s.trimStart()`. */
  function TrimStart(s: string): string {
    if s == [] || !IsSpace(s[0]) then s else TrimStart(s[1..])
  }

  /** `s.trimEnd()`. */
  function TrimEnd(s: string): string {
    if s == [] || !IsSpace(s[|s| - 1]) then s else TrimEnd(s[..|s| - 1])
  }

  /** `s.trim()`. */
  function Trim(s: string): string {
    TrimEnd(TrimStart(s))
  }

  /** `trimStart()` keeps the longest suffix that does not start with white space. */
  lemma {:induction false} TrimStartDropsLeadingSpace(s: string)
    ensures var r := TrimStart(s);
      && |r| <= |s| && r == s[|s| - |r|..]
      && (r == [] || !IsSpace(r[0]))
      && AllSpace(s[..|s| - |r|])
  {
    if s != [] && IsSpace(s[0]) {
      TrimStartDropsLeadingSpace(s[1..]);
      var t := TrimStart(s[1..]);
      assert s[1..][..|s| - 1 - |t|] == s[1..|s| - |t|];
    }
  }

  /** `trimEnd()` keeps the longest prefix that does not end with white space. */
  lemma {:induction false} TrimEndDropsTrailingSpace(s: string)
    ensures var r := TrimEnd(s);
      && |r| <= |s| && r == s[..|r|]
      && (r == [] || !IsSpace(r[|r| - 1]))
      && AllSpace(s[|r|..])
  {
    if s != [] && IsSpace(s[|s| - 1]) {
      TrimEndDropsTrailingSpace(s[..|s| - 1]);
    }
  }

  /** `s.trim() === ""` exactly when every character of `s` is white space. */
  lemma {:induction false} TrimEmptyIffAllSpace(s: string)
    ensures Trim(s) == [] <==> AllSpace(s)
  {
    TrimStartDropsLeadingSpace(s);
    var t := TrimStart(s);
    TrimEndDropsTrailingSpace(t);
    var k := |s| - |t|;
    if Trim(s) == [] {
      assert t[0..] == t;
      assert t == [];
      assert s[..k] == s;
    }
  }

  /** `toLowerCase()` on one character; only the ASCII letters are mapped. */
  function LowerChar(c: char): (r: char)
    ensures !('A' <= r <= 'Z')
    ensures IsSpace(r) <==> IsSpace(c)
    ensures 'A' <= c <= 'Z' ==> r as int == c as int + 32
    ensures !('A' <= c <= 'Z') ==> r == c
  {
    if 'A' <= c <= 'Z' then (c as int + 32) as char else c
  }

  function ToLower(s: string): (r: string)
    ensures |r| == |s|
    ensures forall i :: 0 <= i < |r| ==> r[i] == LowerChar(s[i])
  {
    if s == [] then [] else [LowerChar(s[0])] + ToLower(s[1..])
  }

  predicate NoUpper(s: string) {
    forall i :: 0 <= i < |s| ==> !('A' <= s[i] <= 'Z')
  }

  lemma ToLowerIdentity(s: string)
    requires NoUpper(s)
    ensures ToLower(s) == s
  {
  }

  /** Lower-casing twice is lower-casing once. */
  lemma ToLowerIdempotent(s: string)
    ensures ToLower(ToLower(s)) == ToLower(s)
  {
    ToLowerIdentity(ToLower(s));
  }

  /** Text that neither starts nor ends with white space is its own `trim()`. */
  lemma TrimIdentity(s: string)
    requires s == [] || (!IsSpace(s[0]) && !IsSpace(s[|s| - 1]))
    ensures Trim(s) == s
  {
  }

  /** The window of `s` starting at `i` equals `t`. */
  predicate OccursAt(t: string, s: string, i: int) {
    0 <= i <= |s| - |t| && s[i..i + |t|] == t
  }

  /** `s.includes(t)`: some window of `s` equals `t`. */
  ghost predicate Occurs(t: string, s: string) {
    exists i :: OccursAt(t, s, i)
  }

  /** A window of `s` equals `t` either at the start or somewhere in `s[1..]`. */
  lemma OccursShift(t: string, s: string)
    requires s != []
    ensures Occurs(t, s) <==> OccursAt(t, s, 0) || Occurs(t, s[1..])
  {
    forall i | OccursAt(t, s, i) && i > 0 ensures OccursAt(t, s[1..], i - 1) {
      assert s[1..][i - 1..i - 1 + |t|] == s[i..i + |t|];
    }
    forall i | OccursAt(t, s[1..], i) ensures OccursAt(t, s, i + 1) {
      assert s[1..][i..i + |t|] == s[i + 1..i + 1 + |t|];
    }
  }

  /** `s.includes(t)`, decided by trying the start positions left to right. */
  function Includes(s: string, t: string): (r: bool)
    ensures r <==> Occurs(t, s)
    decreases |s|
  {
    if |s| < |t| then false
    else if s[..|t|] == t then
      assert OccursAt(t, s, 0) by { assert s[0..|t|] == s[..|t|]; }
      true
    else
      assert !OccursAt(t, s, 0) by { assert s[0..|t|] == s[..|t|]; }
      OccursShift(t, s);
      Includes(s[1..], t)
  }

  /** The leading run of white space of `s` removed; used for one `\s+` match. */
  function DropSpaces(s: string): (r: string)
    ensures |r| <= |s|
    ensures s != [] && IsSpace(s[0]) ==> |r| < |s|
    ensures r == [] || !IsSpace(r[0])
  {
    if s != [] && IsSpace(s[0]) then DropSpaces(s[1..]) else s
  }

  /** What one `\s+` match leaves is a suffix, and what it consumed is all white space. */
  lemma {:induction false} DropSpacesSuffix(s: string)
    ensures var r := DropSpaces(s); r == s[|s| - |r|..] && AllSpace(s[..|s| - |r|])
    decreases |s|
  {
    if s != [] && IsSpace(s[0]) {
      DropSpacesSuffix(s[1..]);
      var r := DropSpaces(s[1..]);
      assert s[1..][..|s| - 1 - |r|] == s[1..|s| - |r|];
    }
  }

  /** A `\s+` match that starts a run of white space ends exactly where the run does. */
  lemma {:induction false} DropSpacesRun(w: string, b: string)
    requires AllSpace(w)
    requires b == [] || !IsSpace(b[0])
    ensures DropSpaces(w + b) == b
    decreases |w|
  {
    if w == [] {
      assert w + b == b;
    } else {
      assert (w + b)[1..] == w[1..] + b;
      DropSpacesRun(w[1..], b);
    }
  }

  /** `s.replace(/\s+/g, "-")`: every maximal run of white space becomes one dash. */
  function DashSpaces(s: string): (r: string)
    ensures NoSpace(r)
    ensures s != [] ==> r != []
    ensures |s| == 1 ==> r == (if IsSpace(s[0]) then "-" else s)
    decreases |s|
  {
    if s == [] then []
    else if IsSpace(s[0]) then "-" + DashSpaces(DropSpaces(s))
    else [s[0]] + DashSpaces(s[1..])
  }

  /**
   * Text that is empty or ends in a character other than white space is
   * replaced on its own: no run of white space reaches across its end.
   */
  lemma {:induction false} DashSpacesAppend(a: string, t: string)
    requires a == [] || !IsSpace(a[|a| - 1])
    ensures DashSpaces(a + t) == DashSpaces(a) + DashSpaces(t)
    decreases |a|, 1
  {
    if a == [] {
      assert a + t == t;
    } else if !IsSpace(a[0]) {
      assert DashSpaces(a + t) == [a[0]] + DashSpaces(a[1..] + t) by {
        ConcatTail(a, t);
      }
      DashSpacesAppend(a[1..], t);
    } else {
      var d := DropSpaces(a);
      var w := a[..|a| - |d|];
      assert a == w + d && w != [] && AllSpace(w) && d != [] && !IsSpace(d[0]) && !IsSpace(d[|d| - 1]) by {
        DropSpacesSuffix(a);
        SplitAt(a, |a| - |d|);
      }
      DashSpacesAppendAfterRun(w, d, t);
    }
  }

  /** The case of `DashSpacesAppend` where the text opens with a run of white space `w`. */
  lemma {:induction false} DashSpacesAppendAfterRun(w: string, d: string, t: string)
    requires w != [] && AllSpace(w)
    requires d != [] && !IsSpace(d[0]) && !IsSpace(d[|d| - 1])
    ensures DashSpaces(w + d + t) == DashSpaces(w + d) + DashSpaces(t)
    decreases |w| + |d|, 0
  {
    ConcatAssociates(w, d, t);
    DashSpacesRunFirst(w, d + t);
    DashSpacesRunFirst(w, d);
    DashSpacesAppend(d, t);
    ConcatAssociates("-", DashSpaces(d), DashSpaces(t));
  }

  /** A non-empty run of white space between two other characters becomes exactly one dash. */
  lemma DashSpacesJoin(a: string, w: string, b: string)
    requires a == [] || !IsSpace(a[|a| - 1])
    requires w != [] && AllSpace(w)
    requires b == [] || !IsSpace(b[0])
    ensures DashSpaces(a + w + b) == DashSpaces(a) + "-" + DashSpaces(b)
  {
    ConcatAssociates(a, w, b);
    DashSpacesAppend(a, w + b);
    DashSpacesRunFirst(w, b);
    ConcatAssociates(DashSpaces(a), "-", DashSpaces(b));
  }

  lemma ConcatTail<T>(a: seq<T>, t: seq<T>)
    requires a != []
    ensures (a + t)[0] == a[0] && (a + t)[1..] == a[1..] + t
  {
  }

  lemma SplitAt<T>(a: seq<T>, k: nat)
    requires k <= |a|
    ensures a == a[..k] + a[k..]
  {
  }

  lemma ConcatAssociates<T>(a: seq<T>, b: seq<T>, c: seq<T>)
    ensures a + b + c == a + (b + c)
  {
  }

  lemma DashSpacesRunFirst(w: string, b: string)
    requires w != [] && AllSpace(w)
    requires b == [] || !IsSpace(b[0])
    ensures DashSpaces(w + b) == "-" + DashSpaces(b)
  {
    assert IsSpace((w + b)[0]);
    DropSpacesRun(w, b);
  }

  /** Text without white space passes through `replace(/\s+/g, "-")` unchanged. */
  lemma {:induction false} DashSpacesIdentity(s: string)
    requires NoSpace(s)
    ensures DashSpaces(s) == s
  {
    if s != [] {
      DashSpacesIdentity(s[1..]);
    }
  }
}
