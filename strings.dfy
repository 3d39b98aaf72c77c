/**
 * The handful of JavaScript string and array primitives the modelled code
 * relies on, with the semantics JavaScript gives them:
 * `String.prototype.startsWith`, `substring` with one argument, `split` on a
 * one-character separator, `Array.prototype.every`, and the truthiness of an
 * optional string as used by `||`.
 */
module Strings {
  import opened Wrappers

  /** `s.startsWith(prefix)`. */
  predicate StartsWith(s: string, prefix: string) {
    |prefix| <= |s| && s[..|prefix|] == prefix
  }

  /** A string built as `prefix + rest` starts with `prefix`. */
  lemma StartsWithConcat(prefix: string, rest: string)
    ensures StartsWith(prefix + rest, prefix)
  {
    assert (prefix + rest)[..|prefix|] == prefix;
  }

  /** `s.endsWith(suffix)`. */
  predicate EndsWith(s: string, suffix: string) {
    |suffix| <= |s| && s[|s| - |suffix|..] == suffix
  }

  /** A prefix that itself starts with `/` makes the whole string start with `/`. */
  lemma PrefixedShape(prefix: string, rest: string)
    requires StartsWith(prefix, "/")
    ensures StartsWith(prefix + rest, prefix) && StartsWith(prefix + rest, "/")
  {
    StartsWithConcat(prefix, rest);
    assert (prefix + rest)[..1] == prefix[..1];
  }

  /** A string starting with character `c` does not start with a prefix whose first character differs. */
  lemma NotStartsWithOtherHead(s: string, prefix: string)
    requires |s| > 0 && |prefix| > 0 && s[0] != prefix[0]
    ensures !StartsWith(s, prefix)
  {
  }

  /** JavaScript truthiness of a `string | undefined`: present and non-empty. */
  predicate Truthy(o: Option<string>) {
    o.Some? && o.value != ""
  }

  /** `o || fallback` for an optional string `o`. */
  function OrElse(o: Option<string>, fallback: string): (r: string)
    ensures Truthy(o) ==> r == o.value
    ensures !Truthy(o) ==> r == fallback
  {
    if o.Some? && o.value != "" then o.value else fallback
  }

  /**
   * `s.substring(start)` for a non-negative `start`: the text from `start`
   * on, or the empty string when `start` is past the end.
   */
  function Substring(s: string, start: nat): (r: string)
    ensures start <= |s| ==> s == s[..start] + r && |r| == |s| - start
    ensures |s| <= start ==> r == ""
  {
    if start <= |s| then s[start..] else ""
  }

  /** The index of the first occurrence of `c` in `s` (`s.indexOf(c)`, with -1 as None). */
  function IndexOf(s: string, c: char): (r: Option<nat>)
    ensures r.Some? ==> r.value < |s| && s[r.value] == c && c !in s[..r.value]
    ensures r.None? <==> c !in s
  {
    if s == [] then None
    else if s[0] == c then Some(0)
    else
      match IndexOf(s[1..], c)
      case None => None
      case Some(i) =>
        assert s[..i + 1] == [s[0]] + s[1..][..i];
        Some(i + 1)
  }

  /** The first occurrence of a separator that does not occur in `a` is right after `a`. */
  lemma IndexOfAfter(a: string, c: char, b: string)
    requires c !in a
    ensures IndexOf(a + [c] + b, c) == Some(|a|)
  {
    var s := a + [c] + b;
    assert s[|a|] == c;
    assert forall k :: 0 <= k < |a| ==> s[k] == a[k];
    assert forall k :: |a| < k <= |s| ==> s[..k][|a|] == c;
  }

  /**
   * `s.split(sep)` for a one-character separator: the maximal pieces of `s`
   * between separators, in order. There is always at least one piece
   * (`"".split("/")` is `[""]`).
   */
  function Split(s: string, sep: char): (r: seq<string>)
    ensures |r| >= 1
    ensures forall i :: 0 <= i < |r| ==> sep !in r[i]
    decreases |s|
  {
    match IndexOf(s, sep)
    case None => [s]
    case Some(i) => [s[..i]] + Split(s[i + 1..], sep)
  }

  /** `parts.join(sep)`. */
  function Join(parts: seq<string>, sep: char): string
    decreases |parts|
  {
    if parts == [] then ""
    else if |parts| == 1 then parts[0]
    else parts[0] + [sep] + Join(parts[1..], sep)
  }

  /** Joining a non-empty tail after a head puts one separator between them. */
  lemma JoinCons(head: string, rest: seq<string>, sep: char)
    requires rest != []
    ensures Join([head] + rest, sep) == head + [sep] + Join(rest, sep)
  {
    assert ([head] + rest)[1..] == rest;
  }

  /** Splitting and joining again on the same separator gives back the string. */
  lemma {:induction false} JoinSplit(s: string, sep: char)
    ensures Join(Split(s, sep), sep) == s
    decreases |s|
  {
    match IndexOf(s, sep)
    case None =>
    case Some(i) =>
      var tail := s[i + 1..];
      var rest := Split(tail, sep);
      JoinSplit(tail, sep);
      assert Split(s, sep) == [s[..i]] + rest;
      JoinCons(s[..i], rest, sep);
      assert s == s[..i] + [sep] + tail;
  }

  /** Splitting `a + sep + b`, where `a` holds no separator, yields `a` then the pieces of `b`. */
  lemma SplitAfter(a: string, sep: char, b: string)
    requires sep !in a
    ensures Split(a + [sep] + b, sep) == [a] + Split(b, sep)
  {
    var s := a + [sep] + b;
    IndexOfAfter(a, sep, b);
    assert s[..|a|] == a;
    assert s[|a| + 1..] == b;
  }

  /** The first piece of a split is a prefix of the string, ending at its end or at a separator. */
  lemma SplitHead(s: string, sep: char)
    ensures var h := Split(s, sep)[0]; |h| <= |s| && s[..|h|] == h && (|h| == |s| || s[|h|] == sep)
  {
  }

  /** Splitting a string without a separator yields the string alone. */
  lemma SplitNone(s: string, sep: char)
    requires sep !in s
    ensures Split(s, sep) == [s]
  {
  }

  /** `xs.every(p)`, evaluated left to right. */
  function Every<T>(xs: seq<T>, p: T -> bool): bool
    decreases |xs|
  {
    if xs == [] then true else p(xs[0]) && Every(xs[1..], p)
  }

  /** `every` holds exactly when the predicate holds of each element. */
  lemma {:induction false} EveryIff<T>(xs: seq<T>, p: T -> bool)
    ensures Every(xs, p) <==> forall i :: 0 <= i < |xs| ==> p(xs[i])
    decreases |xs|
  {
    if xs != [] {
      EveryIff(xs[1..], p);
      assert forall i :: 1 <= i < |xs| ==> xs[i] == xs[1..][i - 1];
    }
  }
}
