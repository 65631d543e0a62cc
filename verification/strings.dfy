/** The JavaScript string operations the core relies on, defined on
    `seq<char>`: `split` on one character, `join`, `trim`, `includes`,
    and `length` (which counts UTF-16 code units, not characters). */
module Strings {

  /** `s.split(sep)`: the pieces between separators, never an empty list.
      Each character either ends the current piece (a separator) or joins
      the first piece of the rest. */
  function Split(s: string, sep: char): (parts: seq<string>)
    ensures |parts| >= 1
    ensures forall p :: p in parts ==> sep !in p
  {
    if s == [] then [[]]
    else
      var rest := Split(s[1..], sep);
      if s[0] == sep then [[]] + rest
      else
        assert rest[0] in rest;
        [[s[0]] + rest[0]] + rest[1..]
  }

  /** `parts.join(sep)`. */
  function Join(parts: seq<string>, sep: char): string
  {
    if |parts| == 0 then []
    else if |parts| == 1 then parts[0]
    else parts[0] + [sep] + Join(parts[1..], sep)
  }

  /** Joining a part in front of a non-empty list puts one separator between. */
  lemma JoinCons(first: string, rest: seq<string>, sep: char)
    requires rest != []
    ensures Join([first] + rest, sep) == first + [sep] + Join(rest, sep)
  {
    assert ([first] + rest)[1..] == rest;
  }

  /** A character in front of the first part goes in front of the join. */
  lemma JoinConsChar(c: char, parts: seq<string>, sep: char)
    requires parts != []
    ensures Join([[c] + parts[0]] + parts[1..], sep) == [c] + Join(parts, sep)
  {
    if |parts| > 1 {
      JoinCons([c] + parts[0], parts[1..], sep);
    }
  }

  lemma {:induction false} JoinSplit(s: string, sep: char)
    ensures Join(Split(s, sep), sep) == s
  {
    if s != [] {
      var rest := Split(s[1..], sep);
      JoinSplit(s[1..], sep);
      if s[0] == sep {
        JoinCons([], rest, sep);
      } else {
        JoinConsChar(s[0], rest, sep);
      }
      assert s == [s[0]] + s[1..];
    }
  }

  /** A string without the separator is a single piece. */
  lemma {:induction false} SplitWithout(s: string, sep: char)
    requires sep !in s
    ensures Split(s, sep) == [s]
  {
    if s != [] {
      SplitWithout(s[1..], sep);
      assert s == [s[0]] + s[1..];
    }
  }

  lemma {:induction false} SplitJoin(parts: seq<string>, sep: char)
    requires |parts| >= 1
    requires forall p :: p in parts ==> sep !in p
    ensures Split(Join(parts, sep), sep) == parts
  {
    assert parts[0] in parts;
    if |parts| == 1 {
      SplitWithout(parts[0], sep);
    } else {
      var tail := parts[1..];
      assert forall p :: p in tail ==> p in parts;
      SplitJoin(tail, sep);
      SplitConcat(parts[0], sep, Join(tail, sep));
      SplitWithout(parts[0], sep);
      assert parts == [parts[0]] + tail;
    }
  }

  /** A leading separator closes an empty first piece. */
  lemma SplitAtSep(t: string, sep: char)
    ensures Split([sep] + t, sep) == [[]] + Split(t, sep)
  {
    assert ([sep] + t)[1..] == t;
  }

  /** Any other leading character joins the first piece. */
  lemma SplitAtChar(c: char, t: string, sep: char)
    requires c != sep
    ensures Split([c] + t, sep) == [[c] + Split(t, sep)[0]] + Split(t, sep)[1..]
  {
    assert ([c] + t)[1..] == t;
  }

  /** Splitting at a separator splits the pieces on either side independently. */
  lemma {:induction false} SplitConcat(a: string, sep: char, b: string)
    ensures Split(a + [sep] + b, sep) == Split(a, sep) + Split(b, sep)
  {
    if a == [] {
      assert a + [sep] + b == [sep] + b;
      SplitAtSep(b, sep);
    } else {
      var c, rest := a[0], a[1..];
      assert a == [c] + rest;
      assert a + [sep] + b == [c] + (rest + [sep] + b);
      SplitConcat(rest, sep, b);
      if c == sep {
        SplitConcatStep(rest, sep, b);
      } else {
        SplitConcatCharStep(c, rest, sep, b);
      }
    }
  }

  /** The inductive step of `SplitConcat` when `a` starts with a separator. */
  lemma SplitConcatStep(rest: string, sep: char, b: string)
    requires Split(rest + [sep] + b, sep) == Split(rest, sep) + Split(b, sep)
    ensures Split([sep] + (rest + [sep] + b), sep) == Split([sep] + rest, sep) + Split(b, sep)
  {
    SplitAtSep(rest + [sep] + b, sep);
    SplitAtSep(rest, sep);
  }

  /** The inductive step of `SplitConcat` when `a` starts with another character. */
  lemma SplitConcatCharStep(c: char, rest: string, sep: char, b: string)
    requires c != sep
    requires Split(rest + [sep] + b, sep) == Split(rest, sep) + Split(b, sep)
    ensures Split([c] + (rest + [sep] + b), sep) == Split([c] + rest, sep) + Split(b, sep)
  {
    SplitAtChar(c, rest + [sep] + b, sep);
    SplitAtChar(c, rest, sep);
    ExtendFirst(c, Split(rest, sep), Split(b, sep));
  }

  /** Extending the first piece commutes with appending more pieces. */
  lemma ExtendFirst(c: char, r: seq<string>, q: seq<string>)
    requires r != []
    ensures [[c] + (r + q)[0]] + (r + q)[1..] == ([[c] + r[0]] + r[1..]) + q
  {
    assert (r + q)[0] == r[0];
    assert (r + q)[1..] == r[1..] + q;
  }

  /** The characters `String.prototype.trim` removes: ECMAScript white space
      (tab, vertical tab, form feed, space, no-break space, byte order mark
      and the Unicode space separators) and line terminators. */
  predicate IsWhiteSpace(c: char)
  {
    c == '\t' || c == '\n' || c == '\U{000B}' || c == '\U{000C}' || c == '\r' || c == ' ' ||
    c == '\U{00A0}' || c == '\U{1680}' || ('\U{2000}' <= c <= '\U{200A}') ||
    c == '\U{2028}' || c == '\U{2029}' || c == '\U{202F}' || c == '\U{205F}' ||
    c == '\U{3000}' || c == '\U{FEFF}'
  }

  /** The number of white-space characters `s` starts with. */
  function LeadingSpace(s: string): (n: nat)
    ensures n <= |s|
    ensures forall i :: 0 <= i < n ==> IsWhiteSpace(s[i])
    ensures n < |s| ==> !IsWhiteSpace(s[n])
  {
    if s != [] && IsWhiteSpace(s[0]) then 1 + LeadingSpace(s[1..]) else 0
  }

  /** The number of white-space characters `s` ends with. */
  function TrailingSpace(s: string): (n: nat)
    ensures n <= |s|
    ensures forall i :: |s| - n <= i < |s| ==> IsWhiteSpace(s[i])
    ensures n < |s| ==> !IsWhiteSpace(s[|s| - 1 - n])
  {
    if s != [] && IsWhiteSpace(s[|s| - 1]) then 1 + TrailingSpace(s[..|s| - 1]) else 0
  }

  /** `s.trim()`: drop the leading, then the trailing white space. What is
      left is the piece of `s` after its leading white space; everything
      after it is white space, and it starts and ends with a character that
      is not white space. */
  function Trim(s: string): (t: string)
    ensures OccursAt(s, t, LeadingSpace(s))
    ensures forall i :: LeadingSpace(s) + |t| <= i < |s| ==> IsWhiteSpace(s[i])
    ensures t != [] ==> !IsWhiteSpace(t[0]) && !IsWhiteSpace(t[|t| - 1])
  {
    var n := LeadingSpace(s);
    var u := s[n..];
    var m := |u| - TrailingSpace(u);
    assert forall i :: n + m <= i < |s| ==> IsWhiteSpace(s[i]) by {
      forall i | n + m <= i < |s| ensures IsWhiteSpace(s[i]) {
        assert s[i] == u[i - n];
      }
    }
    u[..m]
  }

  /** A string trims to nothing exactly when every character is white space. */
  lemma TrimEmptyIff(s: string)
    ensures Trim(s) == [] <==> forall i :: 0 <= i < |s| ==> IsWhiteSpace(s[i])
  {
    var n := LeadingSpace(s);
    var t := s[n..];
    if n < |s| {
      assert t[0] == s[n];
      assert TrailingSpace(t) < |t|;
    }
  }

  /** `s.includes(t)`, case-sensitive. */
  predicate Contains(s: string, t: string)
    decreases |s|
  {
    |t| <= |s| && (s[..|t|] == t || Contains(s[1..], t))
  }

  /** `t` occurs in `s` starting at offset `i`. */
  predicate OccursAt(s: string, t: string, i: int)
  {
    0 <= i && i + |t| <= |s| && s[i..i + |t|] == t
  }

  /** The recursive `Contains` agrees with "`t` occurs at some offset of `s`". */
  lemma {:induction false} ContainsIff(s: string, t: string)
    ensures Contains(s, t) <==> exists i :: OccursAt(s, t, i)
    decreases |s|
  {
    if |t| <= |s| {
      if s[..|t|] == t {
        assert OccursAt(s, t, 0);
      } else {
        ContainsIff(s[1..], t);
        if Contains(s[1..], t) {
          var i :| OccursAt(s[1..], t, i);
          assert OccursAt(s, t, i + 1);
        }
        if exists i :: OccursAt(s, t, i) {
          var i :| OccursAt(s, t, i);
          assert i > 0;
          assert OccursAt(s[1..], t, i - 1);
        }
      }
    }
  }

  /** An occurrence survives surrounding the string with more text. */
  lemma ContainsWithin(a: string, s: string, b: string, t: string)
    requires Contains(s, t)
    ensures Contains(a + s + b, t)
  {
    ContainsIff(s, t);
    var i :| OccursAt(s, t, i);
    var w := a + s + b;
    assert w[|a| + i..|a| + i + |t|] == s[i..i + |t|];
    assert OccursAt(w, t, |a| + i);
    ContainsIff(w, t);
  }

  /** `s.length`: one code unit per character of the basic multilingual
      plane, two for a character written as a surrogate pair. */
  function Utf16Length(s: string): (n: nat)
    ensures |s| <= n <= 2 * |s|
  {
    if s == [] then 0
    else CodeUnits(s[0]) + Utf16Length(s[1..])
  }

  /** The UTF-16 code units of one character. */
  function CodeUnits(c: char): nat
  {
    if c as int >= 0x1_0000 then 2 else 1
  }

  /** A single character counts one unit in the basic plane, two above it. */
  lemma Utf16LengthOfChar(c: char)
    ensures Utf16Length([c]) == if c as int >= 0x1_0000 then 2 else 1
  {
    assert [c][1..] == [];
  }

  /** The code units of a concatenation add up. */
  lemma {:induction false} Utf16LengthConcat(a: string, b: string)
    ensures Utf16Length(a + b) == Utf16Length(a) + Utf16Length(b)
  {
    if a != [] {
      assert (a + b)[1..] == a[1..] + b;
      Utf16LengthConcat(a[1..], b);
    } else {
      assert a + b == b;
    }
  }
}
