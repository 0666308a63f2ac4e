/** String helpers the renderer is built from: repetition of one character
    (`str::repeat` on a one-character string) and joining with a separator
    (`[String]::join`). */
module Strings {

  /** A string whose last character is a line feed. */
  predicate EndsWithNewline(s: string) {
    |s| > 0 && s[|s| - 1] == '\n'
  }

  /** `n` copies of the character `c`. */
  function RepeatChar(c: char, n: nat): (r: string)
    ensures |r| == n
    ensures forall i :: 0 <= i < |r| ==> r[i] == c
  {
    if n == 0 then "" else [c] + RepeatChar(c, n - 1)
  }

  /** The summed length of the parts. */
  function TotalLength(parts: seq<string>): nat {
    if |parts| == 0 then 0 else |parts[0]| + TotalLength(parts[1..])
  }

  /** The parts in order with `sep` between each neighbouring pair: the empty
      string for no parts, the part itself for one part. Its length is that of
      the parts plus one separator fewer than there are parts. */
  function Join(parts: seq<string>, sep: string): (r: string)
    ensures |parts| == 0 ==> r == ""
    ensures |parts| > 0 ==> |r| == TotalLength(parts) + (|parts| - 1) * |sep|
  {
    if |parts| == 0 then ""
    else if |parts| == 1 then parts[0]
    else parts[0] + sep + Join(parts[1..], sep)
  }

  /** Joining a concatenation puts one separator at the seam. */
  lemma {:induction false} JoinAppend(a: seq<string>, b: seq<string>, sep: string)
    requires |a| > 0 && |b| > 0
    ensures Join(a + b, sep) == Join(a, sep) + sep + Join(b, sep)
  {
    if |a| == 1 {
      assert (a + b)[1..] == b;
    } else {
      assert (a + b)[1..] == a[1..] + b;
      JoinAppend(a[1..], b, sep);
    }
  }

  /** A join ends with its last part. */
  lemma {:induction false} JoinEndsWithLast(parts: seq<string>, sep: string)
    requires |parts| > 0
    ensures var last := parts[|parts| - 1];
            var r := Join(parts, sep);
            |last| <= |r| && r[|r| - |last|..] == last
  {
    if |parts| > 1 {
      JoinEndsWithLast(parts[1..], sep);
    }
  }

  /** Joining `n` empty parts with a one-character separator leaves `n - 1`
      copies of that character. */
  lemma {:induction false} JoinOfEmpties(parts: seq<string>, c: char)
    requires |parts| > 0
    requires forall i :: 0 <= i < |parts| ==> parts[i] == ""
    ensures Join(parts, [c]) == RepeatChar(c, |parts| - 1)
  {
    if |parts| > 1 {
      JoinOfEmpties(parts[1..], c);
    }
  }
}
