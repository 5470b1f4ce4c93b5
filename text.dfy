/** String helpers: ASCII lower-casing, substring search, global removal of a pattern
    (JavaScript's `replace(/p/g, "")`) and whitespace trimming. */
module Text {

  function LowerChar(c: char): (r: char)
    ensures 'A' <= c <= 'Z' ==> r as int == c as int + 32
    ensures !('A' <= c <= 'Z') ==> r == c
  {
    if 'A' <= c <= 'Z' then (c as int + 32) as char else c
  }

  /** Lower-cases the ASCII letters of s (Python's `str.lower`, JavaScript's
      `toLowerCase`, restricted to ASCII). */
  function Lower(s: string): (r: string)
    ensures |r| == |s|
    ensures forall i :: 0 <= i < |s| ==> r[i] == LowerChar(s[i])
  {
    if s == [] then [] else [LowerChar(s[0])] + Lower(s[1..])
  }

  /** The decimal digits of n, as JavaScript writes a whole number in a string. */
  function Decimal(n: nat): (r: string)
    ensures |r| >= 1
    ensures forall i :: 0 <= i < |r| ==> '0' <= r[i] <= '9'
  {
    var d := [(48 + n % 10) as char];
    if n < 10 then d else Decimal(n / 10) + d
  }

  /** Lower-casing a lower-cased string changes nothing. */
  lemma LowerIdempotent(s: string)
    ensures Lower(Lower(s)) == Lower(s)
  {
  }

  /** sub occurs in s starting at position i. */
  predicate OccursAt(s: string, sub: string, i: int)
  {
    0 <= i <= |s| - |sub| && s[i..i + |sub|] == sub
  }

  /** True when sub occurs in s as a contiguous piece (Python's `in`, JavaScript's `includes`). */
  predicate Contains(s: string, sub: string)
  {
    exists i | 0 <= i <= |s| - |sub| :: OccursAt(s, sub, i)
  }

  /** Removes every non-overlapping occurrence of pat, scanning left to right; the pieces
      left behind are not scanned again. */
  function RemoveAll(s: string, pat: string): (r: string)
    requires pat != []
    ensures |r| <= |s|
    decreases |s|
  {
    if s == [] then []
    else if |pat| <= |s| && s[..|pat|] == pat then RemoveAll(s[|pat|..], pat)
    else [s[0]] + RemoveAll(s[1..], pat)
  }

  /** A string without the pattern is left unchanged by its removal. */
  lemma {:induction false} RemoveAllAbsent(s: string, pat: string)
    requires pat != [] && !Contains(s, pat)
    ensures RemoveAll(s, pat) == s
    decreases |s|
  {
    if s != [] {
      assert !OccursAt(s, pat, 0);
      forall i | 0 <= i <= |s[1..]| - |pat| && OccursAt(s[1..], pat, i)
        ensures OccursAt(s, pat, i + 1)
      {
        assert s[1..][i..i + |pat|] == s[i + 1..i + 1 + |pat|];
      }
      RemoveAllAbsent(s[1..], pat);
    }
  }

  const Fence: string := "```"

  /** Three consecutive backticks at some position of s. */
  predicate HasFence(s: string)
  {
    exists i | 0 <= i < |s| - 2 :: s[i] == '`' && s[i + 1] == '`' && s[i + 2] == '`'
  }

  /** A string of length three or more starts with a fence exactly when its first three
      characters are backticks. */
  lemma FenceAtStart(s: string)
    requires |s| >= 3
    ensures s[..3] == Fence <==> (s[0] == '`' && s[1] == '`' && s[2] == '`')
  {
    assert s[..3][0] == s[0] && s[..3][1] == s[1] && s[..3][2] == s[2];
    if s[0] == '`' && s[1] == '`' && s[2] == '`' {
      assert s[..3] == Fence;
    }
  }

  lemma ContainsFence(s: string)
    ensures Contains(s, Fence) <==> HasFence(s)
  {
    if Contains(s, Fence) {
      var i :| 0 <= i <= |s| - 3 && OccursAt(s, Fence, i);
      FenceAtStart(s[i..]);
      assert s[i..][..3] == s[i..i + 3];
    }
    if HasFence(s) {
      var i :| 0 <= i < |s| - 2 && s[i] == '`' && s[i + 1] == '`' && s[i + 2] == '`';
      FenceAtStart(s[i..]);
      assert s[i..][..3] == s[i..i + 3];
      assert OccursAt(s, Fence, i);
    }
  }

  /** A string holding a pattern that begins with a fence, such as "```json", holds a fence. */
  lemma ContainsPrefixedByFence(s: string, pat: string)
    requires |pat| >= 3 && pat[..3] == Fence && Contains(s, pat)
    ensures HasFence(s)
  {
    var i :| 0 <= i <= |s| - |pat| && OccursAt(s, pat, i);
    FenceAtStart(pat);
    assert s[i] == pat[0] && s[i + 1] == pat[1] && s[i + 2] == pat[2];
  }

  /** Removal from a string that does not open with a fence keeps its first character. */
  lemma RemoveFenceKeepsHead(s: string)
    requires s != [] && !(|s| >= 3 && s[0] == '`' && s[1] == '`' && s[2] == '`')
    ensures RemoveAll(s, Fence) == [s[0]] + RemoveAll(s[1..], Fence)
  {
    if |s| >= 3 {
      FenceAtStart(s);
    }
  }

  /** Removing every fence leaves no fence behind, even where the removal joins two pieces. */
  lemma {:induction false} RemoveFenceLeavesNone(s: string)
    ensures !HasFence(RemoveAll(s, Fence))
    decreases |s|
  {
    if s == [] {
    } else if |Fence| <= |s| && s[..|Fence|] == Fence {
      RemoveFenceLeavesNone(s[3..]);
    } else {
      var t := RemoveAll(s[1..], Fence);
      RemoveFenceLeavesNone(s[1..]);
      var r := RemoveAll(s, Fence);
      assert r == [s[0]] + t;
      forall k | 0 <= k < |r| - 2
        ensures !(r[k] == '`' && r[k + 1] == '`' && r[k + 2] == '`')
      {
        if k > 0 {
          assert r[k] == t[k - 1] && r[k + 1] == t[k] && r[k + 2] == t[k + 1];
        } else {
          FenceAtStart(s);
          if s[0] == '`' && s[1] == '`' {
            // s opens with exactly two backticks.
            RemoveFenceKeepsHead(s[1..]);
            RemoveFenceKeepsHead(s[2..]);
            assert r[2] == s[2];
          } else if s[0] == '`' {
            RemoveFenceKeepsHead(s[1..]);
            assert r[1] == s[1];
          }
        }
      }
    }
  }

  /** The characters trimmed by JavaScript's `trim` that the model knows about: space,
      tab, line feed, carriage return, form feed and vertical tab. */
  predicate IsSpace(c: char)
  {
    c == ' ' || c == '\t' || c == '\n' || c == '\r' || c == '\U{000C}' || c == '\U{000B}'
  }

  /** Drops leading white space. */
  function TrimStart(s: string): (r: string)
    ensures |r| <= |s| && r == s[|s| - |r|..]
    ensures r == [] || !IsSpace(r[0])
    ensures forall k :: 0 <= k < |s| - |r| ==> IsSpace(s[k])
  {
    if s != [] && IsSpace(s[0]) then TrimStart(s[1..]) else s
  }

  /** Drops trailing white space. */
  function TrimEnd(s: string): (r: string)
    ensures |r| <= |s| && r == s[..|r|]
    ensures r == [] || !IsSpace(r[|r| - 1])
    ensures forall k :: |r| <= k < |s| ==> IsSpace(s[k])
  {
    if s != [] && IsSpace(s[|s| - 1]) then TrimEnd(s[..|s| - 1]) else s
  }

  /** JavaScript's `String.prototype.trim`. */
  function Trim(s: string): string
  {
    TrimEnd(TrimStart(s))
  }

  /** Trimming a trimmed string changes nothing. */
  lemma TrimIdempotent(s: string)
    ensures Trim(Trim(s)) == Trim(s)
  {
    var t := Trim(s);
    assert TrimStart(t) == t;
    assert TrimEnd(t) == t;
  }

  /** A piece cut out of a string without a fence has no fence. */
  lemma SliceHasNoFence(s: string, i: int, j: int)
    requires 0 <= i <= j <= |s| && !HasFence(s)
    ensures !HasFence(s[i..j])
  {
    forall k | 0 <= k < |s[i..j]| - 2
      ensures !(s[i..j][k] == '`' && s[i..j][k + 1] == '`' && s[i..j][k + 2] == '`')
    {
      assert s[i..j][k] == s[i + k] && s[i..j][k + 1] == s[i + k + 1] && s[i..j][k + 2] == s[i + k + 2];
    }
  }

  /** Trimming cannot create a fence. */
  lemma TrimKeepsNoFence(s: string)
    requires !HasFence(s)
    ensures !HasFence(Trim(s))
  {
    var a := TrimStart(s);
    SliceHasNoFence(s, |s| - |a|, |s|);
    SliceHasNoFence(a, 0, |TrimEnd(a)|);
  }

  /** The lines joined with sep between them (Python's `sep.join(lines)`). */
  function Join(lines: seq<string>, sep: char): (r: string)
  {
    if |lines| == 0 then ""
    else if |lines| == 1 then lines[0]
    else lines[0] + [sep] + Join(lines[1..], sep)
  }

  /** The pieces of s between occurrences of sep (Python's `s.split(sep)`); the empty
      string gives one empty piece. */
  function Split(s: string, sep: char): (r: seq<string>)
    ensures |r| >= 1
  {
    if s == [] then [""]
    else
      var rest := Split(s[1..], sep);
      if s[0] == sep then [""] + rest else [[s[0]] + rest[0]] + rest[1..]
  }

  lemma {:induction false} SplitNoSeparator(s: string, sep: char)
    requires sep !in s
    ensures Split(s, sep) == [s]
  {
    if s != [] {
      SplitNoSeparator(s[1..], sep);
      assert [s[0]] + s[1..] == s;
    }
  }

  /** A text holding the separator splits into at least two pieces. */
  lemma {:induction false} SplitWithSeparator(s: string, sep: char)
    requires sep in s
    ensures |Split(s, sep)| >= 2
  {
    if s[0] != sep {
      assert sep in s[1..];
      SplitWithSeparator(s[1..], sep);
    }
  }

  lemma {:induction false} SplitAtFirst(a: string, b: string, sep: char)
    requires sep !in a
    ensures Split(a + [sep] + b, sep) == [a] + Split(b, sep)
  {
    if a == [] {
      assert a + [sep] + b == [sep] + b;
      assert ([sep] + b)[1..] == b;
    } else {
      var s := a + [sep] + b;
      assert s[1..] == a[1..] + [sep] + b;
      SplitAtFirst(a[1..], b, sep);
      assert [a[0]] + a[1..] == a;
    }
  }

  /** Splitting the joined lines gives the lines back when none contains the separator. */
  lemma {:induction false} SplitJoin(lines: seq<string>, sep: char)
    requires |lines| >= 1
    requires forall i :: 0 <= i < |lines| ==> sep !in lines[i]
    ensures Split(Join(lines, sep), sep) == lines
  {
    if |lines| == 1 {
      SplitNoSeparator(lines[0], sep);
    } else {
      SplitJoin(lines[1..], sep);
      SplitAtFirst(lines[0], Join(lines[1..], sep), sep);
      assert [lines[0]] + lines[1..] == lines;
    }
  }
}
