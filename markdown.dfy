/**
  The string pieces of the README's table of contents: the anchor key derived
  from a category title and the contents line that links to it.
 */
module Markdown {

  /** U+200C ZERO WIDTH NON-JOINER, common in Persian titles. */
  const Zwnj: char := '\U{200C}'

  /** `s.replace(from, to)` for single-character patterns: every `from` becomes `to`. */
  function ReplaceChar(s: string, from: char, to: char): (r: string)
    ensures |r| == |s|
    ensures forall i :: 0 <= i < |s| ==> r[i] == if s[i] == from then to else s[i]
  {
    if |s| == 0 then []
    else [if s[0] == from then to else s[0]] + ReplaceChar(s[1..], from, to)
  }

  /** `s.replace(c, "")`: every `c` dropped, the rest kept in order. */
  function RemoveChar(s: string, c: char): (r: string)
    ensures c !in r
    ensures |r| <= |s|
    ensures forall x :: x != c ==> multiset(r)[x] == multiset(s)[x]
  {
    if |s| == 0 then []
    else
      var rest := RemoveChar(s[1..], c);
      assert s == [s[0]] + s[1..];
      if s[0] == c then rest else [s[0]] + rest
  }

  lemma {:induction false} RemoveAbsentChar(s: string, c: char)
    requires c !in s
    ensures RemoveChar(s, c) == s
  {
    if |s| > 0 {
      RemoveAbsentChar(s[1..], c);
      assert s == [s[0]] + s[1..];
    }
  }

  lemma {:induction false} RemoveCharKeepsAbsent(s: string, c: char, d: char)
    requires d !in s
    ensures d !in RemoveChar(s, c)
  {
    if |s| > 0 {
      RemoveCharKeepsAbsent(s[1..], c, d);
    }
  }

  /** Removal works piece by piece: the kept characters stay in their order. */
  lemma {:induction false} RemoveCharConcat(a: string, b: string, c: char)
    ensures RemoveChar(a + b, c) == RemoveChar(a, c) + RemoveChar(b, c)
    decreases |a|
  {
    if |a| == 0 {
      assert a + b == b;
    } else {
      assert (a + b)[0] == a[0] && (a + b)[1..] == a[1..] + b;
      RemoveCharConcat(a[1..], b, c);
    }
  }

  /** A single character is dropped when it is `c` and kept otherwise. */
  lemma RemoveCharSingle(ch: char, c: char)
    ensures RemoveChar([ch], c) == if ch == c then [] else [ch]
  {
    assert [ch][1..] == [];
  }

  lemma {:induction false} ReplaceCharConcat(a: string, b: string, from: char, to: char)
    ensures ReplaceChar(a + b, from, to) == ReplaceChar(a, from, to) + ReplaceChar(b, from, to)
    decreases |a|
  {
    if |a| == 0 {
      assert a + b == b;
    } else {
      assert (a + b)[0] == a[0] && (a + b)[1..] == a[1..] + b;
      ReplaceCharConcat(a[1..], b, from, to);
    }
  }

  /** The anchor of a category title: spaces become `-`, then zero-width non-joiners are dropped. */
  function AnchorKey(title: string): (key: string)
    ensures ' ' !in key && Zwnj !in key
    ensures |key| <= |title|
  {
    var dashed := ReplaceChar(title, ' ', '-');
    assert ' ' !in dashed;
    RemoveCharKeepsAbsent(dashed, Zwnj, ' ');
    RemoveChar(dashed, Zwnj)
  }

  /**
    The anchor of a title is the anchors of its pieces, in order: the key is
    the title read left to right, character by character.
   */
  lemma AnchorKeyConcat(a: string, b: string)
    ensures AnchorKey(a + b) == AnchorKey(a) + AnchorKey(b)
  {
    ReplaceCharConcat(a, b, ' ', '-');
    RemoveCharConcat(ReplaceChar(a, ' ', '-'), ReplaceChar(b, ' ', '-'), Zwnj);
  }

  /** A space becomes a dash, a zero-width non-joiner disappears, any other character stays. */
  lemma AnchorKeySingle(ch: char)
    ensures AnchorKey([ch]) == if ch == ' ' then "-" else if ch == Zwnj then "" else [ch]
  {
    var dashed := ReplaceChar([ch], ' ', '-');
    assert dashed == [if ch == ' ' then '-' else ch];
    RemoveCharSingle(dashed[0], Zwnj);
  }

  /** A title with neither a space nor a zero-width non-joiner is its own anchor. */
  lemma AnchorKeyOfPlainTitle(title: string)
    requires ' ' !in title && Zwnj !in title
    ensures AnchorKey(title) == title
  {
    var dashed := ReplaceChar(title, ' ', '-');
    assert dashed == title;
    RemoveAbsentChar(title, Zwnj);
  }

  /** Deriving an anchor from an anchor changes nothing. */
  lemma AnchorKeyIdempotent(title: string)
    ensures AnchorKey(AnchorKey(title)) == AnchorKey(title)
  {
    AnchorKeyOfPlainTitle(AnchorKey(title));
  }

  /**
    Every character of the title other than a space, a dash or a zero-width
    non-joiner survives the same number of times, and every space turns into
    a dash.
   */
  lemma AnchorKeyCounts(title: string)
    ensures forall x :: x != ' ' && x != '-' && x != Zwnj ==>
      multiset(AnchorKey(title))[x] == multiset(title)[x]
    ensures multiset(AnchorKey(title))['-'] == multiset(title)['-'] + multiset(title)[' ']
  {
    forall x {
      ReplaceCharCount(title, ' ', '-', x);
    }
  }

  /** How often `x` occurs once every `from` in `s` has become `to`. */
  lemma {:induction false} ReplaceCharCount(s: string, from: char, to: char, x: char)
    requires from != to
    ensures multiset(ReplaceChar(s, from, to))[x] ==
      if x == from then 0
      else if x == to then multiset(s)[to] + multiset(s)[from]
      else multiset(s)[x]
  {
    if |s| > 0 {
      var r := ReplaceChar(s, from, to);
      ReplaceCharCount(s[1..], from, to, x);
      assert r[1..] == ReplaceChar(s[1..], from, to);
      HeadCount(s, x);
      HeadCount(s, from);
      HeadCount(s, to);
      HeadCount(r, x);
    }
  }

  /** A sequence counts its head once more than its tail does. */
  lemma HeadCount(s: string, x: char)
    requires |s| > 0
    ensures multiset(s)[x] == (if s[0] == x then 1 else 0) + multiset(s[1..])[x]
  {
    assert s == [s[0]] + s[1..];
  }

  /** `format!("- [{}](#{})\n", title, key)`: one entry of the table of contents. */
  function TocLine(title: string, key: string): (line: string)
    ensures |line| == |title| + |key| + 8
    ensures line[..3] == "- [" && line[|line| - 2..] == ")\n"
    ensures line[3..3 + |title|] == title
    ensures line[3 + |title|..5 + |title|] == "](" && line[5 + |title|] == '#'
    ensures line[6 + |title|..6 + |title| + |key|] == key
  {
    "- [" + title + "](#" + key + ")\n"
  }
}
