/** Text vocabulary shared by the model: occurrence of one string inside another,
    prefixes and suffixes, joining lines, and counting lines by their prefix. */
module Strings {

  /** `t` occurs in `s` starting at position `i`. */
  predicate OccursAt(s: string, t: string, i: nat) {
    i + |t| <= |s| && s[i..i + |t|] == t
  }

  /** `t` is a contiguous substring of `s`. */
  predicate Contains(s: string, t: string) {
    exists i: nat | i <= |s| :: OccursAt(s, t, i)
  }

  predicate StartsWith(s: string, p: string) {
    |p| <= |s| && s[..|p|] == p
  }

  predicate EndsWith(s: string, p: string) {
    |p| <= |s| && s[|s| - |p|..] == p
  }

  /** A string placed between two others occurs in the result. */
  lemma ContainsInfix(a: string, t: string, b: string)
    ensures Contains(a + t + b, t)
  {
    assert (a + t + b)[|a|..|a| + |t|] == t;
    assert OccursAt(a + t + b, t, |a|);
  }

  /** Occurrence is transitive: a substring of a substring is a substring. */
  lemma ContainsTransitive(s: string, u: string, t: string)
    requires Contains(s, u) && Contains(u, t)
    ensures Contains(s, t)
  {
    var i: nat :| i <= |s| && OccursAt(s, u, i);
    var j: nat :| j <= |u| && OccursAt(u, t, j);
    assert i + |u| <= |s| && j + |t| <= |u|;
    assert s[i..i + |u|] == u;
    forall k | 0 <= k < |t|
      ensures s[i + j + k] == t[k]
    {
      assert s[i..i + |u|][j + k] == u[j + k];
      assert u[j..j + |t|][k] == t[k];
    }
    assert s[i + j..i + j + |t|] == t;
    assert OccursAt(s, t, i + j);
  }

  /** A string can only occur where each of its characters occurs. */
  lemma MissingCharNotContained(s: string, t: string, c: char)
    requires c in t && c !in s
    ensures !Contains(s, t)
  {
  }

  lemma StartsWithConcat(p: string, x: string)
    ensures StartsWith(p + x, p)
    ensures (p + x)[|p|..] == x
  {
    assert (p + x)[..|p|] == p;
  }

  /** Strings that differ at a position both have do not share a prefix
      through that position. */
  lemma NotStartsWithAt(s: string, p: string, i: nat)
    requires i < |s| && i < |p| && s[i] != p[i]
    ensures !StartsWith(s, p)
  {
    if |p| <= |s| {
      assert s[..|p|][i] == s[i];
    }
  }

  lemma StartsWithExtend(s: string, p: string, x: string)
    requires StartsWith(s, p)
    ensures StartsWith(s + x, p)
  {
    assert (s + x)[..|p|] == s[..|p|];
  }

  lemma StartsWithTransitive(s: string, p: string, q: string)
    requires StartsWith(s, p) && StartsWith(p, q)
    ensures StartsWith(s, q)
  {
    assert s[..|q|] == s[..|p|][..|q|];
  }

  lemma StartsWithFirstChar(s: string, p: string)
    requires |p| > 0 && StartsWith(s, p)
    ensures |s| > 0 && s[0] == p[0]
  {
    assert s[0] == s[..|p|][0];
  }

  lemma PrefixContained(s: string, p: string)
    requires StartsWith(s, p)
    ensures Contains(s, p)
  {
    assert OccursAt(s, p, 0);
  }

  lemma ContainsPrepend(x: string, y: string, t: string)
    requires Contains(y, t)
    ensures Contains(x + y, t)
  {
    var i: nat :| i <= |y| && OccursAt(y, t, i);
    assert (x + y)[|x| + i..|x| + i + |t|] == y[i..i + |t|];
    assert OccursAt(x + y, t, |x| + i);
  }

  lemma EndsWithPrepend(x: string, y: string, p: string)
    requires EndsWith(y, p) || y == p
    ensures EndsWith(x + y, p)
  {
    assert (x + y)[|x + y| - |p|..] == y[|y| - |p|..];
  }

  /** The lines `lines` separated by `sep`: the text a multi-line string
      literal denotes when `sep` is a newline. */
  function Join(lines: seq<string>, sep: string): string
  {
    if |lines| == 0 then ""
    else if |lines| == 1 then lines[0]
    else lines[0] + sep + Join(lines[1..], sep)
  }

  /** Every line of a joined text occurs in it. */
  lemma {:induction false} JoinContainsLine(lines: seq<string>, sep: string, k: nat)
    requires k < |lines|
    ensures Contains(Join(lines, sep), lines[k])
  {
    if |lines| == 1 {
      ContainsInfix("", lines[0], "");
      assert "" + lines[0] + "" == lines[0];
    } else if k == 0 {
      ContainsInfix("", lines[0], sep + Join(lines[1..], sep));
      assert "" + lines[0] + (sep + Join(lines[1..], sep)) == Join(lines, sep);
    } else {
      JoinContainsLine(lines[1..], sep, k - 1);
      var rest := Join(lines[1..], sep);
      ContainsInfix(lines[0] + sep, rest, "");
      assert lines[0] + sep + rest + "" == Join(lines, sep);
      ContainsTransitive(Join(lines, sep), rest, lines[k]);
    }
  }

  /** Whatever occurs in one line occurs in the joined text. */
  lemma JoinContains(lines: seq<string>, sep: string, k: nat, t: string)
    requires k < |lines| && Contains(lines[k], t)
    ensures Contains(Join(lines, sep), t)
  {
    JoinContainsLine(lines, sep, k);
    ContainsTransitive(Join(lines, sep), lines[k], t);
  }

  /** A character absent from every line and from the separator is absent
      from the joined text. */
  lemma {:induction false} JoinAvoidsChar(lines: seq<string>, sep: string, c: char)
    requires forall k :: 0 <= k < |lines| ==> c !in lines[k]
    requires c !in sep
    ensures c !in Join(lines, sep)
  {
    if |lines| > 1 {
      JoinAvoidsChar(lines[1..], sep, c);
    }
  }

  /** A joined text starts with its first line. */
  lemma JoinStartsWithFirst(lines: seq<string>, sep: string)
    requires |lines| > 0
    ensures StartsWith(Join(lines, sep), lines[0])
  {
    if |lines| > 1 {
      StartsWithConcat(lines[0], sep + Join(lines[1..], sep));
      assert Join(lines, sep) == lines[0] + (sep + Join(lines[1..], sep));
    }
  }

  /** A joined text opens with the first character of its first line. */
  lemma JoinFirstChar(lines: seq<string>, sep: string)
    requires |lines| > 0 && |lines[0]| > 0
    ensures |Join(lines, sep)| > 0 && Join(lines, sep)[0] == lines[0][0]
  {
    JoinStartsWithFirst(lines, sep);
    assert Join(lines, sep)[0] == Join(lines, sep)[..|lines[0]|][0];
  }

  /** The number of lines that start with `p`. */
  function CountStartingWith(lines: seq<string>, p: string): (n: nat)
    ensures n <= |lines|
  {
    if |lines| == 0 then 0
    else (if StartsWith(lines[0], p) then 1 else 0) + CountStartingWith(lines[1..], p)
  }

  lemma {:induction false} CountStartingWithAppend(a: seq<string>, b: seq<string>, p: string)
    ensures CountStartingWith(a + b, p) == CountStartingWith(a, p) + CountStartingWith(b, p)
  {
    if |a| > 0 {
      assert (a + b)[1..] == a[1..] + b;
      CountStartingWithAppend(a[1..], b, p);
    } else {
      assert a + b == b;
    }
  }

  /** Counting a prefix over lines none of which has it. */
  lemma {:induction false} CountNone(lines: seq<string>, p: string)
    requires forall k :: 0 <= k < |lines| ==> !StartsWith(lines[k], p)
    ensures CountStartingWith(lines, p) == 0
  {
    if |lines| > 0 {
      CountNone(lines[1..], p);
    }
  }

  /** Counting a prefix over lines exactly one of which, line `i`, has it. */
  lemma {:induction false} CountOne(lines: seq<string>, p: string, i: nat)
    requires i < |lines| && StartsWith(lines[i], p)
    requires forall k :: 0 <= k < |lines| && k != i ==> !StartsWith(lines[k], p)
    ensures CountStartingWith(lines, p) == 1
  {
    if i == 0 {
      CountNone(lines[1..], p);
    } else {
      CountOne(lines[1..], p, i - 1);
    }
  }

  /** Counting a prefix over lines exactly two of which, lines `i` and `j`,
      have it. */
  lemma {:induction false} CountTwo(lines: seq<string>, p: string, i: nat, j: nat)
    requires i < j < |lines| && StartsWith(lines[i], p) && StartsWith(lines[j], p)
    requires forall k :: 0 <= k < |lines| && k != i && k != j ==> !StartsWith(lines[k], p)
    ensures CountStartingWith(lines, p) == 2
  {
    if i == 0 {
      CountOne(lines[1..], p, j - 1);
    } else {
      CountTwo(lines[1..], p, i - 1, j - 1);
    }
  }

  /** A line whose first character differs from that of `p` does not start
      with `p`. */
  lemma FirstCharDiffers(s: string, p: string)
    requires |s| > 0 && |p| > 0 && s[0] != p[0]
    ensures !StartsWith(s, p)
  {
    NotStartsWithAt(s, p, 0);
  }

  /** The lines of consecutive blocks, one block after another. */
  function Concat(blocks: seq<seq<string>>): seq<string>
  {
    if |blocks| == 0 then [] else blocks[0] + Concat(blocks[1..])
  }

  /** When every block has `k` lines, block `i` occupies lines `k * i` up to
      `k * i + k` of the concatenation. */
  lemma {:induction false} ConcatUniform(blocks: seq<seq<string>>, k: nat)
    requires forall i :: 0 <= i < |blocks| ==> |blocks[i]| == k
    ensures |Concat(blocks)| == k * |blocks|
    ensures forall i :: 0 <= i < |blocks| ==> k * i + k <= |Concat(blocks)| && Concat(blocks)[k * i..k * i + k] == blocks[i]
  {
    if |blocks| > 0 {
      ConcatUniform(blocks[1..], k);
      var c := Concat(blocks);
      var rest := Concat(blocks[1..]);
      assert c == blocks[0] + rest;
      assert k * |blocks| == k + k * (|blocks| - 1);
      assert c[..k] == blocks[0];
      forall i | 1 <= i < |blocks|
        ensures k * i + k <= |c| && c[k * i..k * i + k] == blocks[i]
      {
        assert k * i == k + k * (i - 1);
        assert blocks[1..][i - 1] == blocks[i];
        assert c[k * i..k * i + k] == rest[k * (i - 1)..k * (i - 1) + k];
      }
    }
  }

  /** The length of a concatenation of `k`-line blocks. */
  lemma ConcatLength(blocks: seq<seq<string>>, k: nat)
    requires forall j :: 0 <= j < |blocks| ==> |blocks[j]| == k
    ensures |Concat(blocks)| == k * |blocks|
  {
    ConcatUniform(blocks, k);
  }

  /** Block `i` of a concatenation of `k`-line blocks. */
  lemma ConcatBlock(blocks: seq<seq<string>>, k: nat, i: nat)
    requires forall j :: 0 <= j < |blocks| ==> |blocks[j]| == k
    requires i < |blocks|
    ensures |Concat(blocks)| == k * |blocks|
    ensures k * i + k <= |Concat(blocks)| && Concat(blocks)[k * i..k * i + k] == blocks[i]
  {
    ConcatUniform(blocks, k);
  }

  /** When every block has `c` lines starting with `p`, the concatenation
      has `c` such lines per block. */
  lemma {:induction false} ConcatCount(blocks: seq<seq<string>>, p: string, c: nat)
    requires forall i :: 0 <= i < |blocks| ==> CountStartingWith(blocks[i], p) == c
    ensures CountStartingWith(Concat(blocks), p) == c * |blocks|
  {
    if |blocks| > 0 {
      var rest := blocks[1..];
      ConcatCount(rest, p, c);
      CountStartingWithAppend(blocks[0], Concat(rest), p);
      var total := CountStartingWith(Concat(blocks), p);
      assert total == c + c * |rest|;
      MulSucc(c, |rest|);
    }
  }

  lemma MulSucc(c: nat, n: nat)
    ensures c * (n + 1) == c + c * n
  {
  }

  /** Concatenation distributes over appending blocks. */
  lemma {:induction false} ConcatAppend(x: seq<seq<string>>, y: seq<seq<string>>)
    ensures Concat(x + y) == Concat(x) + Concat(y)
  {
    if |x| > 0 {
      assert (x + y)[1..] == x[1..] + y;
      ConcatAppend(x[1..], y);
    } else {
      assert x + y == y;
    }
  }

  /** Block `k` follows the lines of the blocks before it. */
  lemma ConcatAt(blocks: seq<seq<string>>, k: nat)
    requires k < |blocks|
    ensures var start := |Concat(blocks[..k])|;
      && start + |blocks[k]| <= |Concat(blocks)|
      && Concat(blocks)[start..start + |blocks[k]|] == blocks[k]
  {
    assert blocks == blocks[..k] + blocks[k..];
    ConcatAppend(blocks[..k], blocks[k..]);
    assert Concat(blocks[k..]) == blocks[k] + Concat(blocks[k + 1..]);
    assert Concat(blocks) == Concat(blocks[..k]) + (blocks[k] + Concat(blocks[k + 1..]));
  }
}
