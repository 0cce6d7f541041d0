/**
 * The parts of Go's `strings` package the proxy relies on: `Split` with a
 * one-character separator, `Join`, `TrimSpace`, `Count`, `IndexByte` and
 * `LastIndexByte`. Go strings are modelled as sequences of characters.
 */
module GoStrings {

  /** Number of occurrences of `c` in `s` (`strings.Count` with a one-character separator). */
  function Count(s: string, c: char): (n: nat)
    ensures n <= |s|
    ensures n == 0 <==> c !in s
  {
    if s == [] then 0 else (if s[0] == c then 1 else 0) + Count(s[1..], c)
  }

  /**
   * `strings.Split(s, sep)` for a one-character separator: the pieces between
   * consecutive separators, in order. The empty string splits into `[""]`.
   */
  function Split(s: string, sep: char): (parts: seq<string>)
    ensures |parts| >= 1
    decreases |s|
  {
    if s == [] then [""]
    else
      var rest := Split(s[1..], sep);
      if s[0] == sep then [""] + rest
      else [[s[0]] + rest[0]] + rest[1..]
  }

  /** `strings.Join(parts, sep)`. */
  function Join(parts: seq<string>, sep: string): string
  {
    if |parts| == 0 then ""
    else if |parts| == 1 then parts[0]
    else parts[0] + sep + Join(parts[1..], sep)
  }

  /** There is one more piece than there are separators. */
  lemma {:induction false} SplitLength(s: string, sep: char)
    ensures |Split(s, sep)| == Count(s, sep) + 1
    decreases |s|
  {
    if s != [] {
      SplitLength(s[1..], sep);
    }
  }

  /** No piece contains the separator. */
  lemma {:induction false} SplitPiecesFree(s: string, sep: char)
    ensures forall i :: 0 <= i < |Split(s, sep)| ==> sep !in Split(s, sep)[i]
    decreases |s|
  {
    if s != [] {
      SplitPiecesFree(s[1..], sep);
      var rest := Split(s[1..], sep);
      if s[0] != sep {
        assert sep !in [s[0]] + rest[0];
      }
    }
  }

  /** Joining the pieces back with the separator gives the original string. */
  lemma {:induction false} JoinSplit(s: string, sep: char)
    ensures Join(Split(s, sep), [sep]) == s
    decreases |s|
  {
    if s != [] {
      JoinSplit(s[1..], sep);
      var rest := Split(s[1..], sep);
      if s[0] == sep {
        assert Split(s, sep) == [""] + rest;
        assert ([""] + rest)[1..] == rest;
      } else {
        var parts := [[s[0]] + rest[0]] + rest[1..];
        assert Split(s, sep) == parts;
        if |rest| == 1 {
          assert Join(rest, [sep]) == rest[0];
        } else {
          assert parts[1..] == rest[1..];
          assert Join(parts, [sep]) == [s[0]] + (rest[0] + [sep] + Join(rest[1..], [sep]));
        }
        assert s == [s[0]] + s[1..];
      }
    }
  }

  /** A prefix free of the separator is glued to the first piece of what follows it. */
  lemma {:induction false} SplitFreePrefix(a: string, t: string, sep: char)
    requires sep !in a
    ensures Split(a + t, sep) == [a + Split(t, sep)[0]] + Split(t, sep)[1..]
    decreases |a|
  {
    if a != [] {
      SplitFreePrefix(a[1..], t, sep);
      assert (a + t)[0] == a[0] && a[0] in a;
      assert (a + t)[1..] == a[1..] + t;
      var rest := Split(a[1..] + t, sep);
      assert Split(a + t, sep) == [[a[0]] + rest[0]] + rest[1..];
      assert rest[0] == a[1..] + Split(t, sep)[0];
      assert rest[1..] == Split(t, sep)[1..];
      assert [a[0]] + (a[1..] + Split(t, sep)[0]) == a + Split(t, sep)[0];
    } else {
      assert a + t == t && a + Split(t, sep)[0] == Split(t, sep)[0];
    }
  }

  /** Splitting a string that starts with a separator-free piece and a separator. */
  lemma SplitAtFirst(a: string, t: string, sep: char)
    requires sep !in a
    ensures Split(a + [sep] + t, sep) == [a] + Split(t, sep)
  {
    SplitFreePrefix(a, [sep] + t, sep);
    assert a + [sep] + t == a + ([sep] + t);
    assert ([sep] + t)[0] == sep && ([sep] + t)[1..] == t;
    assert Split([sep] + t, sep) == [""] + Split(t, sep);
    assert a + "" == a;
  }

  /** A string without the separator is a single piece. */
  lemma SplitFree(a: string, sep: char)
    requires sep !in a
    ensures Split(a, sep) == [a]
  {
    SplitFreePrefix(a, "", sep);
    assert a + "" == a;
  }

  /** Every piece of `parts`, white space trimmed. */
  function TrimAll(parts: seq<string>): (r: seq<string>)
    ensures |r| == |parts|
    ensures forall i :: 0 <= i < |parts| ==> r[i] == TrimSpace(parts[i])
  {
    seq(|parts|, i requires 0 <= i < |parts| => TrimSpace(parts[i]))
  }

  lemma TrimAllCons(x: string, rest: seq<string>)
    ensures TrimAll([x] + rest) == [TrimSpace(x)] + TrimAll(rest)
  {
    var l, r := TrimAll([x] + rest), [TrimSpace(x)] + TrimAll(rest);
    forall i | 0 <= i < |l| ensures l[i] == r[i] {
      if i > 0 {
        assert ([x] + rest)[i] == rest[i - 1];
      }
    }
  }

  /** A blank in front of a separator-free run only changes the first piece, and not its trim. */
  lemma TrimAllSplitLeadingBlank(x: string, sep: char)
    requires sep != ' '
    ensures TrimAll(Split(" " + x, sep)) == TrimAll(Split(x, sep))
  {
    var parts := Split(x, sep);
    SplitFreePrefix(" ", x, sep);
    TrimSpaceLeadingSpace(" ", parts[0]);
    TrimAllCons(" " + parts[0], parts[1..]);
    TrimAllCons(parts[0], parts[1..]);
    assert parts == [parts[0]] + parts[1..];
  }

  /**
   * Names free of the separator and of surrounding white space, joined with
   * the separator and a blank, split and trimmed back into the same names.
   */
  lemma {:induction false} TrimAllSplitJoin(names: seq<string>, sep: char)
    requires |names| >= 1 && sep != ' '
    requires forall i :: 0 <= i < |names| ==> sep !in names[i] && TrimSpace(names[i]) == names[i]
    ensures TrimAll(Split(Join(names, [sep, ' ']), sep)) == names
    decreases |names|
  {
    if |names| == 1 {
      SplitFree(names[0], sep);
    } else {
      var tail := Join(names[1..], [sep, ' ']);
      assert Join(names, [sep, ' ']) == names[0] + [sep] + (" " + tail) by {
        assert [sep, ' '] == [sep] + " ";
      }
      var rest := Split(" " + tail, sep);
      SplitAtFirst(names[0], " " + tail, sep);
      TrimAllSplitLeadingBlank(tail, sep);
      TrimAllSplitJoin(names[1..], sep);
      TrimAllCons(names[0], rest);
      assert names == [names[0]] + names[1..];
    }
  }

  /** White space as Go's `unicode.IsSpace` defines it. */
  predicate IsSpace(c: char)
  {
    || c == '\t' || c == '\n' || c == '\U{000B}' || c == '\U{000C}' || c == '\r' || c == ' '
    || c == '\U{0085}' || c == '\U{00A0}' || c == '\U{1680}'
    || ('\U{2000}' <= c <= '\U{200A}')
    || c == '\U{2028}' || c == '\U{2029}' || c == '\U{202F}' || c == '\U{205F}' || c == '\U{3000}'
  }

  /** Length of the run of white space at the start of `s`. */
  function LeadingSpaces(s: string): (n: nat)
    ensures n <= |s|
    ensures forall i :: 0 <= i < n ==> IsSpace(s[i])
    ensures n < |s| ==> !IsSpace(s[n])
    decreases |s|
  {
    if s != [] && IsSpace(s[0]) then 1 + LeadingSpaces(s[1..]) else 0
  }

  /** Length of the run of white space at the end of `s`. */
  function TrailingSpaces(s: string): (n: nat)
    ensures n <= |s|
    ensures forall i :: |s| - n <= i < |s| ==> IsSpace(s[i])
    ensures n < |s| ==> !IsSpace(s[|s| - n - 1])
    decreases |s|
  {
    if s != [] && IsSpace(s[|s| - 1]) then 1 + TrailingSpaces(s[..|s| - 1]) else 0
  }

  /** Drops leading white space. */
  function TrimLeftSpace(s: string): string
  {
    s[LeadingSpaces(s)..]
  }

  /** `strings.TrimSpace`: leading and trailing white space removed. */
  function TrimSpace(s: string): string
  {
    var l := TrimLeftSpace(s);
    l[..|l| - TrailingSpaces(l)]
  }

  /** A string with no white space at either end is its own trim. */
  lemma TrimSpaceOfTrimmed(s: string)
    requires s != [] ==> !IsSpace(s[0]) && !IsSpace(s[|s| - 1])
    ensures TrimSpace(s) == s
  {
  }

  /** Leading white space does not change the trim. */
  lemma TrimSpaceLeadingSpace(pad: string, s: string)
    requires forall k :: 0 <= k < |pad| ==> IsSpace(pad[k])
    ensures TrimSpace(pad + s) == TrimSpace(s)
  {
    TrimLeftPad(pad, s);
  }

  lemma {:induction false} TrimLeftPad(pad: string, s: string)
    requires forall k :: 0 <= k < |pad| ==> IsSpace(pad[k])
    ensures LeadingSpaces(pad + s) == |pad| + LeadingSpaces(s)
    ensures TrimLeftSpace(pad + s) == TrimLeftSpace(s)
    decreases |pad|
  {
    if pad != [] {
      assert (pad + s)[0] == pad[0] && IsSpace(pad[0]);
      assert (pad + s)[1..] == pad[1..] + s;
      TrimLeftPad(pad[1..], s);
    } else {
      assert pad + s == s;
    }
    assert (pad + s)[|pad| + LeadingSpaces(s)..] == s[LeadingSpaces(s)..];
  }

  /** `strings.IndexByte`: the first position of `c`, or -1. */
  function IndexOf(s: string, c: char): (i: int)
    ensures -1 <= i < |s|
    ensures i == -1 <==> c !in s
    ensures i >= 0 ==> s[i] == c && c !in s[..i]
    decreases |s|
  {
    if s == [] then -1
    else if s[0] == c then 0
    else
      var j := IndexOf(s[1..], c);
      if j == -1 then -1 else j + 1
  }

  /** `strings.LastIndexByte`: the last position of `c`, or -1. */
  function LastIndexOf(s: string, c: char): (i: int)
    ensures -1 <= i < |s|
    ensures i == -1 <==> c !in s
    ensures i >= 0 ==> s[i] == c && c !in s[i + 1..]
    decreases |s|
  {
    if s == [] then -1
    else if s[|s| - 1] == c then |s| - 1
    else LastIndexOf(s[..|s| - 1], c)
  }

  /** IndexOf finds the first occurrence. */
  lemma {:induction false} IndexOfIs(s: string, c: char, i: nat)
    requires i < |s| && s[i] == c && c !in s[..i]
    ensures IndexOf(s, c) == i
    decreases i
  {
    if i > 0 {
      assert s[0] in s[..i];
      assert s[1..][..i - 1] == s[..i][1..];
      IndexOfIs(s[1..], c, i - 1);
    }
  }

  /** LastIndexOf finds the last occurrence. */
  lemma {:induction false} LastIndexOfIs(s: string, c: char, i: nat)
    requires i < |s| && s[i] == c && c !in s[i + 1..]
    ensures LastIndexOf(s, c) == i
    decreases |s| - i
  {
    if i < |s| - 1 {
      assert s[|s| - 1] in s[i + 1..];
      assert s[..|s| - 1][i + 1..] == s[i + 1..|s| - 1];
      LastIndexOfIs(s[..|s| - 1], c, i);
    }
  }
}
