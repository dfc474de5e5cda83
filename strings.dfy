/** The two string operations of ECMAScript the core relies on:
    `Array.prototype.join`, which builds every command line and every
    diagnostic, and `String.prototype.split` with a one-character
    separator, the inverse used to state what `join` preserves. */
module Strings {

  /** `parts.join(sep)`: the parts in order, with `sep` between neighbours
      and nothing before the first or after the last; `[].join(sep)` is "". */
  function Join(sep: string, parts: seq<string>): string
    decreases |parts|
  {
    if |parts| == 0 then ""
    else if |parts| == 1 then parts[0]
    else parts[0] + sep + Join(sep, parts[1..])
  }

  /** The index at which `parts[i]` starts inside `Join(sep, parts)`. */
  function Offset(sep: string, parts: seq<string>, i: nat): nat
    requires i < |parts|
    decreases i
  {
    if i == 0 then 0 else |parts[0]| + |sep| + Offset(sep, parts[1..], i - 1)
  }

  /** `x` occurs in `s` starting at index `k`. */
  predicate OccursAt(x: string, s: string, k: nat)
  {
    k + |x| <= |s| && s[k..k + |x|] == x
  }

  /** Every part of a join occurs in it, at its offset. */
  lemma {:induction false} JoinAt(sep: string, parts: seq<string>, i: nat)
    requires i < |parts|
    ensures OccursAt(parts[i], Join(sep, parts), Offset(sep, parts, i))
    decreases i
  {
    if i > 0 {
      JoinAt(sep, parts[1..], i - 1);
      var rest := Join(sep, parts[1..]);
      var k := Offset(sep, parts[1..], i - 1);
      assert Join(sep, parts) == (parts[0] + sep) + rest;
      assert Join(sep, parts)[|parts[0]| + |sep| + k..|parts[0]| + |sep| + k + |parts[i]|]
          == rest[k..k + |parts[i]|];
    }
  }

  /** The last part of a join is a suffix of it. */
  lemma {:induction false} JoinEndsWithLast(sep: string, parts: seq<string>)
    requires |parts| > 0
    ensures |parts[|parts| - 1]| <= |Join(sep, parts)|
    ensures Join(sep, parts)[|Join(sep, parts)| - |parts[|parts| - 1]|..] == parts[|parts| - 1]
    decreases |parts|
  {
    if |parts| > 1 {
      JoinEndsWithLast(sep, parts[1..]);
      var rest := Join(sep, parts[1..]);
      assert Join(sep, parts) == (parts[0] + sep) + rest;
      assert Join(sep, parts)[|Join(sep, parts)| - |rest|..] == rest;
    }
  }

  /** `s.split(sep)` for a separator of one character: the maximal runs of
      characters other than `sep`, so that `"".split(sep)` is `[""]`. */
  function Split(sep: char, s: string): (r: seq<string>)
    ensures |r| >= 1
    decreases |s|
  {
    if |s| == 0 then [""]
    else
      var tail := Split(sep, s[1..]);
      if s[0] == sep then [""] + tail else [[s[0]] + tail[0]] + tail[1..]
  }

  /** A string without the separator splits into itself. */
  lemma {:induction false} SplitWithoutSeparator(sep: char, x: string)
    requires sep !in x
    ensures Split(sep, x) == [x]
    decreases |x|
  {
    if |x| > 0 {
      SplitWithoutSeparator(sep, x[1..]);
      assert [x[0]] + x[1..] == x;
    }
  }

  /** Splitting `x + sep + rest` cuts off exactly `x`, when `x` has no separator. */
  lemma {:induction false} SplitAfterPart(sep: char, x: string, rest: string)
    requires sep !in x
    ensures Split(sep, x + [sep] + rest) == [x] + Split(sep, rest)
    decreases |x|
  {
    var s := x + [sep] + rest;
    if |x| == 0 {
      assert s[1..] == rest;
    } else {
      assert s[1..] == x[1..] + [sep] + rest;
      SplitAfterPart(sep, x[1..], rest);
      assert [x[0]] + x[1..] == x;
    }
  }

  /** `split` undoes `join` when no part contains the separator. */
  lemma {:induction false} SplitJoin(sep: char, parts: seq<string>)
    requires |parts| > 0
    requires forall i :: 0 <= i < |parts| ==> sep !in parts[i]
    ensures Split(sep, Join([sep], parts)) == parts
    decreases |parts|
  {
    if |parts| == 1 {
      SplitWithoutSeparator(sep, parts[0]);
    } else {
      SplitAfterPart(sep, parts[0], Join([sep], parts[1..]));
      SplitJoin(sep, parts[1..]);
      assert [parts[0]] + parts[1..] == parts;
    }
  }

  // Generic facts about concatenation.  They carry no claim about the
  // source; proofs about lists of strings call them so that the verifier
  // does not compare the strings themselves character by character.

  /** Three one-element sequences concatenate to the sequence of the three. */
  lemma Triple<T>(x: T, y: T, z: T)
    ensures [x] + [y] + [z] == [x, y, z]
  {
  }

  /** An empty sequence in front of a concatenation changes nothing. */
  lemma AfterEmpty<T>(e: seq<T>, x: seq<T>, y: seq<T>)
    requires e == []
    ensures e + x + y == x + y
  {
    assert e + x == x;
  }

  /** An empty sequence at the end of a concatenation changes nothing. */
  lemma BeforeEmpty<T>(x: seq<T>)
    ensures x + [] == x
  {
  }

  /** An empty sequence in front of another changes nothing. */
  lemma EmptyBefore<T>(e: seq<T>, x: seq<T>)
    requires e == []
    ensures e + x == x
  {
  }

  /** Regrouping four concatenated sequences behind the first. */
  lemma Regroup<T>(a: seq<T>, b: seq<T>, c: seq<T>, d: seq<T>)
    ensures a + b + c + d == a + [] + (b + c + d)
  {
    assert a + [] == a;
  }

  /** Regrouping three concatenated sequences behind the first. */
  lemma Regroup3<T>(a: seq<T>, b: seq<T>, c: seq<T>)
    ensures a + b + c == a + [] + (b + c)
  {
    assert a + [] == a;
  }
}
