/** Strings assembled from parts with a separator, and taken apart again. */
module Text {

  /** Each part followed by `sep`, as a loop that writes a part and then the
      separator produces it. */
  function Terminated(parts: seq<string>, sep: string): string {
    if parts == [] then "" else parts[0] + sep + Terminated(parts[1..], sep)
  }

  /** The parts with `sep` between consecutive ones. */
  function Join(parts: seq<string>, sep: string): string {
    if |parts| == 0 then ""
    else if |parts| == 1 then parts[0]
    else parts[0] + sep + Join(parts[1..], sep)
  }

  lemma {:induction false} TerminatedSnoc(parts: seq<string>, x: string, sep: string)
    ensures Terminated(parts + [x], sep) == Terminated(parts, sep) + x + sep
  {
    if parts == [] {
      assert [x][1..] == [];
    } else {
      assert (parts + [x])[1..] == parts[1..] + [x];
      TerminatedSnoc(parts[1..], x, sep);
    }
  }

  /** Moving the parentheses of a five-part concatenation. */
  lemma Regroup(a: string, b: string, c: string, d: string, e: string)
    ensures a + (b + c + d) + e == a + b + c + d + e
  {
  }

  /** A non-empty sequence is its front followed by its last element. */
  lemma FrontLast<T>(s: seq<T>)
    requires s != []
    ensures s[..|s| - 1] + [s[|s| - 1]] == s
  {
  }

  /** The last character of `a + b` is the last of `b` when `b` is not empty. */
  lemma LastOf(a: string, b: string)
    requires b != []
    ensures (a + b)[|a + b| - 1] == b[|b| - 1]
  {
  }

  /** Terminating every part but the last and then writing the last is joining. */
  lemma {:induction false} TerminatedJoin(parts: seq<string>, last: string, sep: string)
    ensures Terminated(parts, sep) + last == Join(parts + [last], sep)
  {
    if parts != [] {
      assert (parts + [last])[1..] == parts[1..] + [last];
      TerminatedJoin(parts[1..], last, sep);
    }
  }

  /** With a one-character separator, terminated text is empty exactly when
      there are no parts, and otherwise ends with the separator. */
  lemma {:induction false} TerminatedEnd(parts: seq<string>, sep: char)
    ensures parts == [] <==> Terminated(parts, [sep]) == ""
    ensures parts != [] ==> Terminated(parts, [sep])[|Terminated(parts, [sep])| - 1] == sep
  {
    if parts != [] {
      TerminatedEnd(parts[1..], sep);
    }
  }

  /** The position of the first `c` in `s`. */
  function IndexOf(s: string, c: char): (k: nat)
    requires c in s
    ensures k < |s| && s[k] == c && c !in s[..k]
  {
    if s[0] == c then 0
    else
      assert c in s[1..] by {
        var j :| 0 <= j < |s| && s[j] == c;
        assert s[1..][j - 1] == c;
      }
      var k := 1 + IndexOf(s[1..], c);
      assert s[..k] == [s[0]] + s[1..][..k - 1];
      k
  }

  /** The first `c` after a `c`-free prefix is the one right after that prefix. */
  lemma IndexOfAfter(a: string, c: char, b: string)
    requires c !in a
    ensures c in a + [c] + b
    ensures IndexOf(a + [c] + b, c) == |a|
  {
    var s := a + [c] + b;
    assert s[|a|] == c;
    assert s[..|a|] == a;
  }

  /** `s` cut at every `sep`: the inverse of joining on `[sep]`. */
  function Split(s: string, sep: char): (r: seq<string>)
    ensures |r| >= 1
    decreases |s|
  {
    if sep !in s then [s]
    else
      var k := IndexOf(s, sep);
      [s[..k]] + Split(s[k + 1..], sep)
  }

  /** Splitting joined parts gives the parts back when no part holds the separator. */
  lemma {:induction false} SplitJoin(parts: seq<string>, sep: char)
    requires |parts| >= 1
    requires forall k | 0 <= k < |parts| :: sep !in parts[k]
    ensures Split(Join(parts, [sep]), sep) == parts
  {
    if |parts| == 1 {
      assert Join(parts, [sep]) == parts[0];
    } else {
      var rest := Join(parts[1..], [sep]);
      var s := parts[0] + [sep] + rest;
      assert Join(parts, [sep]) == s;
      IndexOfAfter(parts[0], sep, rest);
      var k := |parts[0]|;
      assert s[..k] == parts[0];
      assert s[k + 1..] == rest;
      assert Split(s, sep) == [parts[0]] + Split(rest, sep);
      SplitJoin(parts[1..], sep);
      assert parts == [parts[0]] + parts[1..];
    }
  }
}
