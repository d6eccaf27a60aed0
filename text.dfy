/**
 * The string primitives the dispatcher relies on, as Python defines them:
 * `str.split()` with no separator (runs of whitespace), `sep.join(parts)`,
 * `str.split('\n')`, `str(int)`, an ASCII view of `str.lower()` and Python's
 * code-point lexicographic order on strings.
 */
module Text {

  /** The characters Python's `str.isspace()` accepts; `str.split()` splits on runs of them. */
  predicate IsSpace(c: char)
  {
    c == ' ' || ('\t' <= c <= '\r') || ('\U{1c}' <= c <= '\U{1f}')
    || c == '\U{85}' || c == '\U{a0}' || c == '\U{1680}'
    || ('\U{2000}' <= c <= '\U{200a}') || c == '\U{2028}' || c == '\U{2029}'
    || c == '\U{202f}' || c == '\U{205f}' || c == '\U{3000}'
  }

  /** A whitespace-free, non-empty piece of text: what `str.split()` produces. */
  predicate IsToken(w: string)
  {
    |w| > 0 && forall i :: 0 <= i < |w| ==> !IsSpace(w[i])
  }

  /** Length of the longest whitespace-free prefix of `s`. */
  function TokenEnd(s: string): (n: nat)
    ensures n <= |s|
    ensures forall i :: 0 <= i < n ==> !IsSpace(s[i])
    ensures n < |s| ==> IsSpace(s[n])
  {
    if s == [] || IsSpace(s[0]) then 0 else 1 + TokenEnd(s[1..])
  }

  /** `s.split()`: the maximal whitespace-free runs of `s`, left to right. */
  function Words(s: string): (ws: seq<string>)
    ensures forall i :: 0 <= i < |ws| ==> IsToken(ws[i])
    decreases |s|
  {
    if s == [] then []
    else if IsSpace(s[0]) then Words(s[1..])
    else
      var n := TokenEnd(s);
      [s[..n]] + Words(s[n..])
  }

  /** `sep.join(parts)`. */
  function Join(sep: string, parts: seq<string>): string
  {
    if parts == [] then ""
    else if |parts| == 1 then parts[0]
    else parts[0] + sep + Join(sep, parts[1..])
  }

  /** `s.split(c)` for a one-character separator: always at least one (possibly empty) piece. */
  function SplitOn(c: char, s: string): (pieces: seq<string>)
    ensures |pieces| >= 1
    decreases |s|
  {
    if s == [] then [""]
    else
      var tail := SplitOn(c, s[1..]);
      if s[0] == c then [""] + tail else [[s[0]] + tail[0]] + tail[1..]
  }

  lemma {:induction false} TokenEndOfToken(w: string, s: string)
    requires IsToken(w)
    requires s == [] || IsSpace(s[0])
    ensures TokenEnd(w + s) == |w|
    decreases |w|
  {
    if |w| > 1 {
      assert (w + s)[1..] == w[1..] + s;
      TokenEndOfToken(w[1..], s);
    } else {
      assert (w + s)[1..] == s;
    }
  }

  /** Splitting a token followed by text that starts with whitespace (or nothing). */
  lemma {:induction false} WordsOfTokenThen(w: string, s: string)
    requires IsToken(w)
    requires s == [] || IsSpace(s[0])
    ensures Words(w + s) == [w] + Words(s)
  {
    TokenEndOfToken(w, s);
    assert (w + s)[..|w|] == w;
    assert (w + s)[|w|..] == s;
  }

  /** `" ".join(ws).split()` gives back `ws` when every element is a token. */
  lemma {:induction false} WordsOfJoin(ws: seq<string>)
    requires forall i :: 0 <= i < |ws| ==> IsToken(ws[i])
    ensures Words(Join(" ", ws)) == ws
    decreases |ws|
  {
    if |ws| == 1 {
      WordsOfTokenThen(ws[0], "");
      assert ws[0] + "" == ws[0];
    } else if |ws| > 1 {
      var rest := Join(" ", ws[1..]);
      assert Join(" ", ws) == ws[0] + (" " + rest);
      WordsOfTokenThen(ws[0], " " + rest);
      assert (" " + rest)[1..] == rest;
      WordsOfJoin(ws[1..]);
    }
  }

  /** The line `w + " " + " ".join(ws)` splits into `w` followed by `ws`. */
  lemma WordsOfPrefixedJoin(w: string, ws: seq<string>)
    requires IsToken(w)
    requires forall i :: 0 <= i < |ws| ==> IsToken(ws[i])
    ensures Words(w + " " + Join(" ", ws)) == [w] + ws
  {
    var rest := Join(" ", ws);
    assert w + " " + rest == w + (" " + rest);
    WordsOfTokenThen(w, " " + rest);
    assert (" " + rest)[1..] == rest;
    WordsOfJoin(ws);
  }

  /** Joining two non-empty lists is joining each and putting one separator between them. */
  lemma {:induction false} JoinConcat(sep: string, a: seq<string>, b: seq<string>)
    requires |a| >= 1 && |b| >= 1
    ensures Join(sep, a + b) == Join(sep, a) + sep + Join(sep, b)
    decreases |a|
  {
    if |a| > 1 {
      assert (a + b)[1..] == a[1..] + b;
      JoinConcat(sep, a[1..], b);
    } else {
      assert (a + b)[1..] == b;
    }
  }

  lemma {:induction false} SplitOnFree(c: char, p: string, s: string)
    requires c !in p
    ensures SplitOn(c, p + s) == [p + SplitOn(c, s)[0]] + SplitOn(c, s)[1..]
    decreases |p|
  {
    if p != [] {
      assert (p + s)[1..] == p[1..] + s;
      SplitOnFree(c, p[1..], s);
      assert [p[0]] + (p[1..] + SplitOn(c, s)[0]) == p + SplitOn(c, s)[0];
    } else {
      var t := SplitOn(c, s);
      assert p + s == s && p + t[0] == t[0] && t == [t[0]] + t[1..];
    }
  }

  /** `c.join(parts).split(c)` gives back `parts` when no part contains `c`. */
  lemma {:induction false} SplitOnJoin(c: char, parts: seq<string>)
    requires |parts| >= 1
    requires forall i :: 0 <= i < |parts| ==> c !in parts[i]
    ensures SplitOn(c, Join([c], parts)) == parts
    decreases |parts|
  {
    if |parts| == 1 {
      SplitOnFree(c, parts[0], "");
      assert parts[0] + "" == parts[0];
    } else {
      var rest := Join([c], parts[1..]);
      assert Join([c], parts) == parts[0] + ([c] + rest);
      SplitOnFree(c, parts[0], [c] + rest);
      assert ([c] + rest)[1..] == rest;
      assert SplitOn(c, [c] + rest) == [""] + SplitOn(c, rest);
      SplitOnJoin(c, parts[1..]);
      assert parts[0] + "" == parts[0];
      assert parts == [parts[0]] + parts[1..];
    }
  }

  /** A first line free of `c`, then `c`: splitting peels that line off. */
  lemma SplitOnLine(c: char, p: string, s: string)
    requires c !in p
    ensures SplitOn(c, p + [c] + s) == [p] + SplitOn(c, s)
  {
    assert p + [c] + s == p + ([c] + s);
    SplitOnFree(c, p, [c] + s);
    assert ([c] + s)[1..] == s;
    assert SplitOn(c, [c] + s) == [""] + SplitOn(c, s);
    assert p + "" == p;
  }

  function DigitChar(d: nat): char
    requires d < 10
  {
    "0123456789"[d]
  }

  /** `str(n)` for a natural number: decimal digits, most significant first. */
  function NatStr(n: nat): (s: string)
    ensures IsToken(s)
    decreases n
  {
    if n < 10 then [DigitChar(n)] else NatStr(n / 10) + [DigitChar(n % 10)]
  }

  /** `str(i)` for a Python int. */
  function IntStr(i: int): (s: string)
    ensures IsToken(s)
  {
    if i < 0 then "-" + NatStr(-i) else NatStr(i)
  }

  function LowerChar(c: char): char
  {
    if 'A' <= c <= 'Z' then (c as int + 32) as char else c
  }

  /** `s.lower()` restricted to ASCII letters. */
  function Lower(s: string): (r: string)
    ensures |r| == |s|
  {
    seq(|s|, i requires 0 <= i < |s| => LowerChar(s[i]))
  }

  /** Python's `a < b` on strings: code-point lexicographic order. */
  predicate StrLess(a: string, b: string)
  {
    if a == [] then b != []
    else if b == [] then false
    else if a[0] != b[0] then a[0] < b[0]
    else StrLess(a[1..], b[1..])
  }

  lemma {:induction false} StrLessIrreflexive(a: string)
    ensures !StrLess(a, a)
  {
    if a != [] { StrLessIrreflexive(a[1..]); }
  }

  lemma {:induction false} StrLessTransitive(a: string, b: string, c: string)
    requires StrLess(a, b) && StrLess(b, c)
    ensures StrLess(a, c)
  {
    if a != [] && b != [] && c != [] && a[0] == b[0] && b[0] == c[0] {
      StrLessTransitive(a[1..], b[1..], c[1..]);
    }
  }

  lemma {:induction false} StrLessTotal(a: string, b: string)
    requires a != b
    ensures StrLess(a, b) || StrLess(b, a)
  {
    if a != [] && b != [] && a[0] == b[0] {
      assert a == [a[0]] + a[1..] && b == [b[0]] + b[1..];
      StrLessTotal(a[1..], b[1..]);
    }
  }
}
