/**
 * The three Python string operations the gateway relies on, stated on `seq<char>`:
 * `str.strip()` with no argument, the substring test `p in t`, and
 * `str.replace(p, "")` (delete every occurrence, scanning left to right).
 */
module Text {

  import opened Wrappers

  /** The closing (and bare opening) markdown code fence. */
  const Fence := "```"
  /** The language-tagged opening fence of a JSON code block. */
  const JsonFence := "```json"

  /** Python's `str.isspace` for one character: the Unicode whitespace set that `strip()` removes. */
  predicate IsSpace(c: char) {
    var n := c as int;
    || 0x09 <= n <= 0x0D || 0x1C <= n <= 0x20 || n == 0x85 || n == 0xA0
    || n == 0x1680 || 0x2000 <= n <= 0x200A || n == 0x2028 || n == 0x2029
    || n == 0x202F || n == 0x205F || n == 0x3000
  }

  /** Python truthiness of an optional string: present and not empty. */
  predicate Truthy(v: Option<string>) {
    v.Some? && v.value != ""
  }

  /** Neither end of `r` is whitespace. */
  predicate Unpadded(r: string) {
    r == [] || (!IsSpace(r[0]) && !IsSpace(r[|r| - 1]))
  }

  /** `r` sits in `s` at offset `a`, with only whitespace before and after it. */
  ghost predicate Framed(s: string, r: string, a: nat) {
    && a + |r| <= |s|
    && s[a..a + |r|] == r
    && (forall i :: 0 <= i < a ==> IsSpace(s[i]))
    && (forall i :: a + |r| <= i < |s| ==> IsSpace(s[i]))
  }

  /** `s` without its leading whitespace. */
  function TrimStart(s: string): (r: string)
    ensures |r| <= |s| && r == s[|s| - |r|..]
    ensures forall i :: 0 <= i < |s| - |r| ==> IsSpace(s[i])
    ensures r == [] || !IsSpace(r[0])
  {
    if s != [] && IsSpace(s[0]) then TrimStart(s[1..]) else s
  }

  /** `s` without its trailing whitespace. */
  function TrimEnd(s: string): (r: string)
    ensures |r| <= |s| && r == s[..|r|]
    ensures forall i :: |r| <= i < |s| ==> IsSpace(s[i])
    ensures r == [] || !IsSpace(r[|r| - 1])
  {
    if s != [] && IsSpace(s[|s| - 1]) then TrimEnd(s[..|s| - 1]) else s
  }

  /** Python's `s.strip()`: the middle of `s` once whitespace is removed from both ends. */
  function Strip(s: string): (r: string)
    ensures Unpadded(r)
    ensures exists a: nat :: Framed(s, r, a)
  {
    StripFramed(s);
    TrimEnd(TrimStart(s))
  }

  lemma StripFramed(s: string)
    ensures Framed(s, TrimEnd(TrimStart(s)), |s| - |TrimStart(s)|)
  {
    FramedByTrims(s, TrimStart(s), TrimEnd(TrimStart(s)));
  }

  /** A whitespace-only prefix removed, then a whitespace-only suffix: what remains is framed by whitespace. */
  lemma FramedByTrims(s: string, t: string, r: string)
    requires |t| <= |s| && t == s[|s| - |t|..] && forall i :: 0 <= i < |s| - |t| ==> IsSpace(s[i])
    requires |r| <= |t| && r == t[..|r|] && forall i :: |r| <= i < |t| ==> IsSpace(t[i])
    ensures Framed(s, r, |s| - |t|)
  {
  }

  /** Stripping has exactly one possible outcome: any unpadded, whitespace-framed slice of `s` is `Strip(s)`. */
  lemma StripUnique(s: string, r: string, a: nat)
    requires Unpadded(r) && Framed(s, r, a)
    ensures Strip(s) == r
  {
  }

  /** Stripping twice is stripping once. */
  lemma StripIdempotent(s: string)
    ensures Strip(Strip(s)) == Strip(s)
  {
  }

  /** A string with no whitespace at either end is its own strip. */
  lemma StripUnpadded(t: string)
    requires Unpadded(t)
    ensures Strip(t) == t
  {
  }

  /** `p` occurs in `t` starting at index `i`. */
  ghost predicate OccursAt(t: string, p: string, i: nat) {
    i + |p| <= |t| && t[i..i + |p|] == p
  }

  /** Python's `p in t` for strings. */
  function Contains(t: string, p: string): (found: bool)
    ensures found <==> exists i: nat :: OccursAt(t, p, i)
    decreases |t|
  {
    if |t| < |p| then false
    else if t[..|p|] == p then
      assert OccursAt(t, p, 0);
      true
    else
      assert OccursAt(t, p, 0) <==> t[..|p|] == p;
      assert forall i: nat :: OccursAt(t[1..], p, i) <==> OccursAt(t, p, i + 1) by {
        forall i: nat ensures OccursAt(t[1..], p, i) <==> OccursAt(t, p, i + 1) {
          if i + |p| <= |t| - 1 { assert t[1..][i..i + |p|] == t[i + 1..i + 1 + |p|]; }
        }
      }
      assert (exists i: nat :: OccursAt(t, p, i)) ==> t[..|p|] == p || exists i: nat :: OccursAt(t[1..], p, i) by {
        if exists i: nat :: OccursAt(t, p, i) {
          var i: nat :| OccursAt(t, p, i);
          if i > 0 { assert OccursAt(t[1..], p, i - 1); }
        }
      }
      Contains(t[1..], p)
  }

  /**
   * Python's `s.replace(p, "")`: scanning left to right, every occurrence of `p` that
   * does not overlap an earlier deleted one is removed; the text around it is not rescanned.
   */
  function DeleteAll(s: string, p: string): (r: string)
    requires |p| > 0
    ensures |r| <= |s|
    decreases |s|
  {
    if |s| < |p| then s
    else if s[..|p|] == p then DeleteAll(s[|p|..], p)
    else [s[0]] + DeleteAll(s[1..], p)
  }

  /**
   * Deletion changes the text exactly when the pattern occurs in it, and then removes at
   * least one whole occurrence.
   */
  lemma {:induction false} DeleteAllChanges(s: string, p: string)
    requires |p| > 0
    ensures DeleteAll(s, p) == s <==> !Contains(s, p)
    ensures Contains(s, p) ==> |DeleteAll(s, p)| <= |s| - |p|
    decreases |s|
  {
    if |s| >= |p| {
      if s[..|p|] == p {
        assert OccursAt(s, p, 0);
      } else {
        DeleteAllChanges(s[1..], p);
        assert s == [s[0]] + s[1..];
      }
    }
  }

  /** A prefix free of the pattern's first character passes through deletion untouched. */
  lemma {:induction false} DeleteAllPrefix(x: string, y: string, p: string)
    requires |p| > 0
    requires forall i :: 0 <= i < |x| ==> x[i] != p[0]
    ensures DeleteAll(x + y, p) == x + DeleteAll(y, p)
  {
    if x == [] {
      assert x + y == y;
    } else if |x + y| < |p| {
      assert DeleteAll(y, p) == y;
    } else {
      assert (x + y)[..|p|][0] == x[0];
      assert (x + y)[1..] == x[1..] + y;
      DeleteAllPrefix(x[1..], y, p);
      assert [x[0]] + x[1..] == x;
    }
  }

  /** A leading occurrence of the pattern is deleted and scanning resumes after it. */
  lemma DeleteAllLeading(p: string, y: string)
    requires |p| > 0
    ensures DeleteAll(p + y, p) == DeleteAll(y, p)
  {
  }

  /**
   * The scan deletes the leftmost occurrence: everything before it is kept as it is, even
   * when it starts like the pattern, and scanning resumes right after the occurrence.
   */
  lemma {:induction false} DeleteAllFirstOccurrence(x: string, p: string, y: string)
    requires |p| > 0
    requires forall i :: 0 <= i < |x| ==> !OccursAt(x + p + y, p, i)
    ensures DeleteAll(x + p + y, p) == x + DeleteAll(y, p)
  {
    var s := x + p + y;
    if x == [] {
      assert s == p + y;
      DeleteAllLeading(p, y);
    } else {
      var s' := x[1..] + p + y;
      assert s[1..] == s' && s[0] == x[0];
      assert s[..|p|] != p by { assert !OccursAt(s, p, 0); }
      forall i | 0 <= i < |x| - 1
        ensures !OccursAt(s', p, i)
      {
        assert !OccursAt(s, p, i + 1);
        assert s'[i..i + |p|] == s[i + 1..i + 1 + |p|];
      }
      calc {
        DeleteAll(s, p);
        [x[0]] + DeleteAll(s', p);
        { DeleteAllFirstOccurrence(x[1..], p, y); }
        [x[0]] + (x[1..] + DeleteAll(y, p));
        { assert [x[0]] + x[1..] == x; }
        x + DeleteAll(y, p);
      }
    }
  }

  /** The first index at which `p` occurs in `t`. */
  ghost function Leftmost(t: string, p: string): (k: nat)
    requires Contains(t, p)
    ensures OccursAt(t, p, k)
    ensures forall i :: 0 <= i < k ==> !OccursAt(t, p, i)
    decreases |t|
  {
    if t[..|p|] == p then 0
    else
      assert Contains(t[1..], p);
      var k := Leftmost(t[1..], p);
      assert t[1..][k..k + |p|] == t[k + 1..k + 1 + |p|];
      forall i | 0 < i < k + 1 ensures !OccursAt(t, p, i) {
        assert !OccursAt(t[1..], p, i - 1);
        if i + |p| <= |t| { assert t[1..][i - 1..i - 1 + |p|] == t[i..i + |p|]; }
      }
      k + 1
  }

  /**
   * The two lemmas above determine deletion completely: any function that leaves text without
   * `p` unchanged and deletes the leftmost occurrence of `p` computes `DeleteAll`.
   */
  lemma {:induction false} DeleteAllDetermined(f: string -> string, p: string, s: string)
    requires |p| > 0
    requires forall t :: !Contains(t, p) ==> f(t) == t
    requires forall x, y :: (forall i :: 0 <= i < |x| ==> !OccursAt(x + p + y, p, i)) ==> f(x + p + y) == x + f(y)
    ensures f(s) == DeleteAll(s, p)
    decreases |s|
  {
    if !Contains(s, p) {
      DeleteAllChanges(s, p);
    } else {
      var k := Leftmost(s, p);
      var x, y := s[..k], s[k + |p|..];
      assert s == x + p + y;
      DeleteAllFirstOccurrence(x, p, y);
      DeleteAllDetermined(f, p, y);
    }
  }

  /** A first character that cannot start the pattern is kept as the first character. */
  lemma KeepsHead(t: string, p: string)
    requires |p| > 0 && |t| > 0 && t[0] != p[0]
    ensures DeleteAll(t, p) == [t[0]] + DeleteAll(t[1..], p)
  {
  }

  /**
   * After `replace("```", "")` no fence is left: deleting a run of backticks three at a
   * time leaves fewer than three, and runs are never joined because only backticks are removed.
   */
  lemma {:induction false} NoFenceLeft(s: string)
    ensures !Contains(DeleteAll(s, Fence), Fence)
    decreases |s|
  {
    var r := DeleteAll(s, Fence);
    if |s| < 3 {
    } else if s[..3] == Fence {
      NoFenceLeft(s[3..]);
    } else {
      var r' := DeleteAll(s[1..], Fence);
      assert r == [s[0]] + r';
      NoFenceLeft(s[1..]);
      assert r[1..] == r';
      if |r| < 3 {
      } else if s[0] != '`' {
        assert r[..3][0] == s[0];
      } else if s[1] != '`' {
        KeepsHead(s[1..], Fence);
        assert r[..3][1] == s[1];
      } else if |s| == 3 {
        assert r == s;
      } else {
        assert s[2] != '`' by { assert s[..3] == [s[0], s[1], s[2]]; }
        assert s[1..][..3] != Fence by { assert s[1..][..3][1] == s[2]; }
        assert r' == [s[1]] + DeleteAll(s[2..], Fence) by { assert s[1..][1..] == s[2..]; }
        KeepsHead(s[2..], Fence);
        assert r[..3][2] == s[2];
      }
    }
  }
}
