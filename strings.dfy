/** The Python string operations the card commands use: `lower`, `endswith`,
    `replace`, `split`, `join`, `%s` of an int, `*` of a str by an int, and `str` of
    a list of strings. Strings are sequences of code points, as in Python 3. */
module Strings {

  /** `str.lower` on one code point: ASCII and Latin-1 capitals map to their small forms. */
  function LowerChar(c: char): char
  {
    if 'A' <= c <= 'Z' || ('\U{C0}' <= c <= '\U{DE}' && c != '\U{D7}') then
      (c as int + 32) as char
    else
      c
  }

  function Lower(s: string): (r: string)
    ensures |r| == |s|
    ensures forall i :: 0 <= i < |s| ==> r[i] == LowerChar(s[i])
  {
    seq(|s|, i requires 0 <= i < |s| => LowerChar(s[i]))
  }

  predicate EndsWith(s: string, suffix: string)
  {
    |suffix| <= |s| && s[|s| - |suffix|..] == suffix
  }

  /** `pat` occurs in `s` at position `i`. */
  predicate OccursAt(s: string, pat: string, i: int)
  {
    0 <= i && i + |pat| <= |s| && s[i..i + |pat|] == pat
  }

  /** The first character of `pat` occurs nowhere else in it, so two occurrences of
      `pat` can never overlap. True of " ex", " gx" and " delta". */
  predicate LeadsAlone(pat: string)
  {
    |pat| > 0 && forall k :: 0 < k < |pat| ==> pat[k] != pat[0]
  }

  /** `s.replace(pat, rep)`: scans left to right and rewrites every non-overlapping
      occurrence of `pat`, not only a trailing one. */
  function ReplaceAll(s: string, pat: string, rep: string): string
    requires |pat| > 0
    decreases |s|
  {
    if |s| < |pat| then s
    else if s[..|pat|] == pat then rep + ReplaceAll(s[|pat|..], pat, rep)
    else [s[0]] + ReplaceAll(s[1..], pat, rep)
  }

  /** A string in which `pat` does not occur is left as it is. */
  lemma {:induction false} ReplaceAllWithoutMatch(s: string, pat: string, rep: string)
    requires |pat| > 0
    requires forall i :: !OccursAt(s, pat, i)
    ensures ReplaceAll(s, pat, rep) == s
    decreases |s|
  {
    if |s| >= |pat| {
      assert !OccursAt(s, pat, 0);
      forall i ensures !OccursAt(s[1..], pat, i) {
        assert !OccursAt(s, pat, i + 1);
        if 0 <= i && i + |pat| <= |s[1..]| {
          assert s[1..][i..i + |pat|] == s[i + 1..i + 1 + |pat|];
        }
      }
      ReplaceAllWithoutMatch(s[1..], pat, rep);
    }
  }

  /** A name that ends in `pat` ends in `rep` once every `pat` is replaced. */
  lemma {:induction false} ReplaceAllKeepsSuffix(s: string, pat: string, rep: string)
    requires LeadsAlone(pat) && EndsWith(s, pat)
    ensures EndsWith(ReplaceAll(s, pat, rep), rep)
    decreases |s|
  {
    if s[..|pat|] == pat {
      var t := s[|pat|..];
      if t != [] {
        // the occurrence at the front and the one at the end cannot overlap
        assert s[|s| - |pat|] == pat[0];
        assert forall k :: 0 < k < |pat| ==> s[k] == pat[k];
        assert |t| >= |pat|;
        assert t[|t| - |pat|..] == s[|s| - |pat|..];
        ReplaceAllKeepsSuffix(t, pat, rep);
      }
    } else {
      assert |s| > |pat|;
      assert s[1..][|s| - 1 - |pat|..] == s[|s| - |pat|..];
      ReplaceAllKeepsSuffix(s[1..], pat, rep);
    }
  }

  /** When `pat` occurs in `a + pat` only at the end, exactly that occurrence is rewritten. */
  lemma {:induction false} ReplaceAllLoneSuffix(a: string, pat: string, rep: string)
    requires LeadsAlone(pat)
    requires forall i :: !OccursAt(a, pat, i)
    ensures ReplaceAll(a + pat, pat, rep) == a + rep
    decreases |a|
  {
    var s := a + pat;
    if a == [] {
      assert s == pat;
      assert s[|pat|..] == [];
    } else {
      assert s[..|pat|] != pat by {
        if |a| >= |pat| {
          assert !OccursAt(a, pat, 0);
          assert s[..|pat|] == a[..|pat|];
        } else {
          assert s[|a|] == pat[0];
          assert s[..|pat|][|a|] == s[|a|];
        }
      }
      assert s[1..] == a[1..] + pat;
      forall i ensures !OccursAt(a[1..], pat, i) {
        assert !OccursAt(a, pat, i + 1);
        if 0 <= i && i + |pat| <= |a[1..]| {
          assert a[1..][i..i + |pat|] == a[i + 1..i + 1 + |pat|];
        }
      }
      ReplaceAllLoneSuffix(a[1..], pat, rep);
      assert [a[0]] + (a[1..] + rep) == a + rep;
    }
  }

  /** `replace` rewrites every occurrence, not only the last: the first occurrence, after
      the pattern-free text `a`, is rewritten and the scan goes on over the rest `b`. */
  lemma {:induction false} ReplaceAllAtFirst(a: string, pat: string, rep: string, b: string)
    requires |pat| > 0
    requires forall i :: !OccursAt(a + pat, pat, i) || i == |a|
    ensures ReplaceAll(a + pat + b, pat, rep) == a + rep + ReplaceAll(b, pat, rep)
    decreases |a|
  {
    var s := a + pat + b;
    if a == [] {
      assert s[..|pat|] == pat;
      assert s[|pat|..] == b;
    } else {
      assert !OccursAt(a + pat, pat, 0);
      assert s[..|pat|] == (a + pat)[..|pat|];
      assert s[1..] == a[1..] + pat + b;
      forall i ensures !OccursAt(a[1..] + pat, pat, i) || i == |a[1..]| {
        assert a[1..] + pat == (a + pat)[1..];
        assert !OccursAt(a + pat, pat, i + 1) || i + 1 == |a|;
        if 0 <= i && i + |pat| <= |a[1..] + pat| {
          assert (a[1..] + pat)[i..i + |pat|] == (a + pat)[i + 1..i + 1 + |pat|];
        }
      }
      ReplaceAllAtFirst(a[1..], pat, rep, b);
      assert [a[0]] + (a[1..] + rep + ReplaceAll(b, pat, rep)) == a + rep + ReplaceAll(b, pat, rep);
    }
  }

  /** `s.split(sep)` for a one-character separator. */
  function Split(s: string, sep: char): (parts: seq<string>)
    ensures |parts| >= 1
    decreases |s|
  {
    if s == [] then [""]
    else if s[0] == sep then [""] + Split(s[1..], sep)
    else
      var rest := Split(s[1..], sep);
      [[s[0]] + rest[0]] + rest[1..]
  }

  /** `sep.join(parts)`. */
  function Join(sep: string, parts: seq<string>): string
    decreases |parts|
  {
    if parts == [] then ""
    else if |parts| == 1 then parts[0]
    else parts[0] + sep + Join(sep, parts[1..])
  }

  lemma JoinConsFirst(sep: string, c: char, parts: seq<string>)
    requires |parts| >= 1
    ensures Join(sep, [[c] + parts[0]] + parts[1..]) == [c] + Join(sep, parts)
  {
    var ps := [[c] + parts[0]] + parts[1..];
    if |parts| > 1 {
      assert ps[1..] == parts[1..];
    }
  }

  /** Splitting and joining again with the same separator gives back the string. */
  lemma {:induction false} JoinSplit(s: string, sep: char)
    ensures Join([sep], Split(s, sep)) == s
    decreases |s|
  {
    if s != [] {
      JoinSplit(s[1..], sep);
      var rest := Split(s[1..], sep);
      if s[0] == sep {
        assert ([""] + rest)[1..] == rest;
      } else {
        JoinConsFirst([sep], s[0], rest);
      }
    }
  }

  lemma {:induction false} SplitWithoutSeparator(s: string, sep: char)
    requires sep !in s
    ensures Split(s, sep) == [s]
    decreases |s|
  {
    if s != [] {
      assert s[0] != sep && sep !in s[1..];
      SplitWithoutSeparator(s[1..], sep);
      assert [s[0]] + s[1..] == s;
    }
  }

  lemma {:induction false} SplitAtFirst(x: string, sep: char, y: string)
    requires sep !in x
    ensures Split(x + [sep] + y, sep) == [x] + Split(y, sep)
    decreases |x|
  {
    var s := x + [sep] + y;
    if x == [] {
      assert s[1..] == y;
    } else {
      assert s[1..] == x[1..] + [sep] + y;
      assert s[0] == x[0] != sep && sep !in x[1..];
      SplitAtFirst(x[1..], sep, y);
      assert [x[0]] + x[1..] == x;
    }
  }

  /** Joining pieces free of the separator and splitting again gives back the pieces. */
  lemma {:induction false} SplitJoin(parts: seq<string>, sep: char)
    requires |parts| >= 1
    requires forall i :: 0 <= i < |parts| ==> sep !in parts[i]
    ensures Split(Join([sep], parts), sep) == parts
    decreases |parts|
  {
    if |parts| == 1 {
      SplitWithoutSeparator(parts[0], sep);
    } else {
      SplitJoin(parts[1..], sep);
      SplitAtFirst(parts[0], sep, Join([sep], parts[1..]));
    }
  }

  /** The text the loops `for x in xs: s += "%s\n" % x` produce. */
  function Terminated(lines: seq<string>): string
    decreases |lines|
  {
    if lines == [] then "" else Terminated(lines[..|lines| - 1]) + lines[|lines| - 1] + "\n"
  }

  /** One more line adds that line and its newline. */
  lemma TerminatedSnoc(lines: seq<string>, x: string)
    ensures Terminated(lines + [x]) == Terminated(lines) + x + "\n"
  {
    assert (lines + [x])[..|lines|] == lines;
  }

  /** A first line comes first, with its newline. */
  lemma TerminatedCons(x: string, lines: seq<string>)
    ensures Terminated([x] + lines) == x + "\n" + Terminated(lines)
  {
    TerminatedAppend([x], lines);
    assert [x][..0] == [];
    assert Terminated([x]) == "" + x + "\n";
  }

  lemma {:induction false} TerminatedIsJoin(lines: seq<string>)
    ensures Terminated(lines) == Join("\n", lines + [""])
    decreases |lines|
  {
    if lines != [] {
      var init := lines[..|lines| - 1];
      TerminatedIsJoin(init);
      JoinSnoc("\n", init, lines[|lines| - 1]);
      assert init + [lines[|lines| - 1]] == lines;
    }
  }

  lemma {:induction false} JoinSnoc(sep: string, init: seq<string>, x: string)
    ensures Join(sep, init + [x] + [""]) == Join(sep, init + [""]) + x + sep
    decreases |init|
  {
    if init == [] {
      assert [x] + [""] == [x, ""];
    } else {
      assert (init + [x] + [""])[1..] == init[1..] + [x] + [""];
      assert (init + [""])[1..] == init[1..] + [""];
      JoinSnoc(sep, init[1..], x);
    }
  }

  /** Splitting newline-terminated lines at '\n' gives the lines back, then an empty
      remainder: one line per entry, in order. */
  lemma SplitTerminated(lines: seq<string>)
    requires forall i :: 0 <= i < |lines| ==> '\n' !in lines[i]
    ensures Split(Terminated(lines), '\n') == lines + [""]
  {
    TerminatedIsJoin(lines);
    SplitJoin(lines + [""], '\n');
  }

  /** Terminating two lists of lines one after the other is terminating their concatenation. */
  lemma {:induction false} TerminatedAppend(a: seq<string>, b: seq<string>)
    ensures Terminated(a + b) == Terminated(a) + Terminated(b)
    decreases |b|
  {
    if b == [] {
      assert a + b == a;
    } else {
      var b' := b[..|b| - 1];
      assert (a + b)[..|a + b| - 1] == a + b';
      TerminatedAppend(a, b');
    }
  }

  function DigitChar(d: nat): char
    requires d < 10
  {
    ('0' as int + d) as char
  }

  predicate IsDigit(c: char)
  {
    '0' <= c <= '9'
  }

  /** `"%s" % n` for a non-negative int. */
  function NatToString(n: nat): string
    decreases n
  {
    if n < 10 then [DigitChar(n)] else NatToString(n / 10) + [DigitChar(n % 10)]
  }

  /** The value of a string of decimal digits (`int(s)`). */
  function DigitsValue(s: string): nat
    requires forall i :: 0 <= i < |s| ==> IsDigit(s[i])
    decreases |s|
  {
    if s == [] then 0
    else
      assert IsDigit(s[|s| - 1]);
      DigitsValue(s[..|s| - 1]) * 10 + (s[|s| - 1] as int - '0' as int)
  }

  /** The decimal text of `n` is digits only, has no leading zero, and reads back as `n`. */
  lemma {:induction false} NatToStringRoundTrip(n: nat)
    ensures var s := NatToString(n);
      && |s| >= 1
      && (forall i :: 0 <= i < |s| ==> IsDigit(s[i]))
      && (|s| > 1 ==> s[0] != '0')
      && DigitsValue(s) == n
    decreases n
  {
    if n >= 10 {
      NatToStringRoundTrip(n / 10);
      var s := NatToString(n);
      assert s[..|s| - 1] == NatToString(n / 10);
    }
  }

  /** The decimal text of a number is one line. */
  lemma NatToStringSingleLine(n: nat)
    ensures '\n' !in NatToString(n)
  {
    NatToStringRoundTrip(n);
  }

  /** `s * n`. */
  function Repeat(s: string, n: nat): string
    decreases n
  {
    if n == 0 then "" else Repeat(s, n - 1) + s
  }

  /** `repr` of a str, for strings with no quote, backslash or unprintable character. */
  function Quote(s: string): string
  {
    "'" + s + "'"
  }

  /** `str` of a list of strings, as `"%s" % xs` prints it. */
  function ListRepr(xs: seq<string>): string
  {
    "[" + Join(", ", seq(|xs|, i requires 0 <= i < |xs| => Quote(xs[i]))) + "]"
  }
}
