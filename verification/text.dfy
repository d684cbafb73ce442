/** String helpers with the semantics of the JavaScript built-ins the handler uses. */
module Text {

  /** `s` contains no lower-case letter, so upper-casing it leaves it unchanged
      (ASCII letters only). */
  predicate IsUpperCase(s: string) {
    forall i | 0 <= i < |s| :: !('a' <= s[i] <= 'z')
  }

  /** The position of the first `sep` in `s`, or `|s|` when `sep` does not occur. */
  function IndexOf(s: string, sep: char): (i: nat)
    ensures i <= |s|
    ensures i < |s| ==> s[i] == sep
    ensures forall j | 0 <= j < i :: s[j] != sep
    ensures i == |s| <==> sep !in s
  {
    if s == [] then 0
    else if s[0] == sep then 0
    else 1 + IndexOf(s[1..], sep)
  }

  /** `s.split(sep)` for a one-character separator: the maximal runs of
      non-separator characters, including empty runs at either end. */
  function Split(s: string, sep: char): (parts: seq<string>)
    ensures |parts| >= 1
    ensures forall i | 0 <= i < |parts| :: sep !in parts[i]
    decreases |s|
  {
    if s == [] then [""]
    else
      var rest := Split(s[1..], sep);
      if s[0] == sep then [""] + rest
      else [[s[0]] + rest[0]] + rest[1..]
  }

  /** `parts.join(sep)`. */
  function Join(parts: seq<string>, sep: char): string
    decreases |parts|
  {
    if |parts| == 0 then ""
    else if |parts| == 1 then parts[0]
    else parts[0] + [sep] + Join(parts[1..], sep)
  }

  /** Joining the pieces of a split with the same separator gives the string back. */
  lemma {:induction false} JoinSplit(s: string, sep: char)
    ensures Join(Split(s, sep), sep) == s
    decreases |s|
  {
    if s != [] {
      var rest := Split(s[1..], sep);
      JoinSplit(s[1..], sep);
      if s[0] == sep {
        assert ([""] + rest)[1..] == rest;
      } else if |rest| > 1 {
        assert ([[s[0]] + rest[0]] + rest[1..])[1..] == rest[1..];
      }
    }
  }

  /** The first piece of a split is the text before the first separator, and
      the other pieces joined back are the text after it. */
  lemma {:induction false} SplitAtFirst(s: string, sep: char)
    ensures Split(s, sep)[0] == s[..IndexOf(s, sep)]
    ensures IndexOf(s, sep) < |s| ==> Join(Split(s, sep)[1..], sep) == s[IndexOf(s, sep) + 1..]
    ensures IndexOf(s, sep) == |s| ==> |Split(s, sep)| == 1
    decreases |s|
  {
    if s != [] {
      var rest := Split(s[1..], sep);
      if s[0] == sep {
        assert ([""] + rest)[1..] == rest;
        JoinSplit(s[1..], sep);
      } else {
        SplitAtFirst(s[1..], sep);
        assert s[..IndexOf(s, sep)] == [s[0]] + s[1..][..IndexOf(s[1..], sep)];
        assert ([[s[0]] + rest[0]] + rest[1..])[1..] == rest[1..];
      }
    }
  }
}
