/**
 * The handful of Python `str` operations the analyzers use, over `string = seq<char>`:
 * `isspace`, `strip`/`lstrip`/`rstrip`, `startswith`, `in`, `count`, `split('\n')`
 * and `'\n'.join`, plus the decimal rendering of a line count in an f-string.
 */
module Text {

  /** `c.isspace()` for one code point; the regex class `\s` on `str` patterns matches the same set. */
  predicate IsSpace(c: char) {
    c == ' ' || c == '\t' || c == '\n' || c == '\r' || c == '\U{0B}' || c == '\U{0C}'
    || ('\U{1C}' <= c <= '\U{1F}') || c == '\U{85}' || c == '\U{A0}' || c == '\U{1680}'
    || ('\U{2000}' <= c <= '\U{200A}') || c == '\U{2028}' || c == '\U{2029}' || c == '\U{202F}'
    || c == '\U{205F}' || c == '\U{3000}'
  }

  /** `s.lstrip()`: what is left after the longest whitespace prefix. */
  function LStrip(s: string): (r: string)
    ensures |r| <= |s|
  {
    if s != [] && IsSpace(s[0]) then LStrip(s[1..]) else s
  }

  /** `lstrip` removes a prefix made of whitespace only, and stops at the first other character. */
  lemma {:induction false} LStripSpec(s: string)
    ensures LStrip(s) == s[|s| - |LStrip(s)|..]
    ensures LStrip(s) == [] || !IsSpace(LStrip(s)[0])
    ensures forall i :: 0 <= i < |s| - |LStrip(s)| ==> IsSpace(s[i])
  {
    if s != [] && IsSpace(s[0]) {
      LStripSpec(s[1..]);
      assert s[1..][|s| - 1 - |LStrip(s)|..] == s[|s| - |LStrip(s)|..];
      forall i | 1 <= i < |s| - |LStrip(s)| ensures IsSpace(s[i]) {
        assert s[i] == s[1..][i - 1];
      }
    }
  }

  /** `s.rstrip()`: what is left before the longest whitespace suffix. */
  function RStrip(s: string): (r: string)
    ensures |r| <= |s|
  {
    if s != [] && IsSpace(s[|s| - 1]) then RStrip(s[..|s| - 1]) else s
  }

  /** `rstrip` removes a suffix made of whitespace only, and stops at the last other character. */
  lemma {:induction false} RStripSpec(s: string)
    ensures RStrip(s) == s[..|RStrip(s)|]
    ensures RStrip(s) == [] || !IsSpace(RStrip(s)[|RStrip(s)| - 1])
    ensures forall i :: |RStrip(s)| <= i < |s| ==> IsSpace(s[i])
  {
    if s != [] && IsSpace(s[|s| - 1]) {
      var init := s[..|s| - 1];
      RStripSpec(init);
      assert init[..|RStrip(s)|] == s[..|RStrip(s)|];
      forall i | |RStrip(s)| <= i < |s| - 1 ensures IsSpace(s[i]) {
        assert s[i] == init[i];
      }
    }
  }

  /** `s.strip()`. */
  function Strip(s: string): string {
    RStrip(LStrip(s))
  }

  /** `s.strip()` is empty exactly when every character of `s` is whitespace. */
  lemma StripEmpty(s: string)
    ensures Strip(s) == [] <==> forall i :: 0 <= i < |s| ==> IsSpace(s[i])
  {
    var l := LStrip(s);
    LStripSpec(s);
    RStripSpec(l);
    if l != [] {
      assert !IsSpace(l[0]) && l[0] == s[|s| - |l|];
      assert RStrip(l) != [];
    }
  }

  /** `len(s) - len(s.lstrip())`: the width of the leading whitespace. */
  function Indent(s: string): (n: nat)
    ensures n <= |s|
  {
    |s| - |LStrip(s)|
  }

  /** The indentation is the whitespace run at the start of the line, and nothing more. */
  lemma IndentSpec(s: string)
    ensures forall i :: 0 <= i < Indent(s) ==> IsSpace(s[i])
    ensures Indent(s) == |s| || !IsSpace(s[Indent(s)])
  {
    LStripSpec(s);
    if Indent(s) < |s| {
      assert LStrip(s)[0] == s[Indent(s)];
    }
  }

  /** `len(s) - len(s.lstrip(' '))`: the number of leading blanks (spaces only). */
  function LeadingBlanks(s: string): (n: nat)
    ensures n <= |s|
    ensures forall i :: 0 <= i < n ==> s[i] == ' '
    ensures n == |s| || s[n] != ' '
  {
    if s != [] && s[0] == ' ' then 1 + LeadingBlanks(s[1..]) else 0
  }

  /** `s.startswith(p)`. */
  predicate StartsWith(s: string, p: string) {
    |p| <= |s| && s[..|p|] == p
  }

  /** `p` occurs in `s` starting at offset `i`. */
  predicate OccursAt(s: string, p: string, i: nat) {
    i + |p| <= |s| && s[i..i + |p|] == p
  }

  /** `p in s`. */
  predicate Contains(s: string, p: string) {
    exists i: nat :: i <= |s| && OccursAt(s, p, i)
  }

  /** `s.count(p)`: occurrences of `p`, scanned from the left without overlap. */
  function Count(s: string, p: string): (n: nat)
    requires p != []
    ensures n * |p| <= |s|
    decreases |s|
  {
    if |s| < |p| then 0
    else if OccursAt(s, p, 0) then 1 + Count(s[|p|..], p)
    else Count(s[1..], p)
  }

  /** `s.count(p) > 0` exactly when `p in s`. */
  lemma {:induction false} CountPositive(s: string, p: string)
    requires p != []
    ensures Count(s, p) > 0 <==> Contains(s, p)
    decreases |s|
  {
    if |s| >= |p| && !OccursAt(s, p, 0) {
      CountPositive(s[1..], p);
      if Contains(s, p) {
        var i: nat :| i <= |s| && OccursAt(s, p, i);
        assert i > 0;
        assert s[1..][i - 1..i - 1 + |p|] == s[i..i + |p|];
        assert OccursAt(s[1..], p, i - 1);
      }
      if Contains(s[1..], p) {
        var i: nat :| i <= |s| - 1 && OccursAt(s[1..], p, i);
        assert s[1..][i..i + |p|] == s[i + 1..i + 1 + |p|];
        assert OccursAt(s, p, i + 1);
      }
    } else if |s| >= |p| {
      assert OccursAt(s, p, 0);
    }
  }

  /** A prefix never holds more occurrences than the whole text. */
  lemma {:induction false} CountPrefix(s: string, k: nat, p: string)
    requires p != [] && k <= |s|
    ensures Count(s[..k], p) <= Count(s, p)
    decreases |s|
  {
    var t := s[..k];
    if |t| >= |p| {
      assert t[..|p|] == s[..|p|];
      if OccursAt(t, p, 0) {
        assert t[|p|..] == s[|p|..][..k - |p|];
        CountPrefix(s[|p|..], k - |p|, p);
      } else {
        assert t[1..] == s[1..][..k - 1];
        CountPrefix(s[1..], k - 1, p);
      }
    }
  }

  /** `s.split('\n')`: always at least one line, one more than the newlines, none holding a newline. */
  function Split(s: string): (lines: seq<string>)
    ensures |lines| >= 1
    decreases |s|
  {
    if s == [] then [""]
    else
      var rest := Split(s[1..]);
      if s[0] == '\n' then [""] + rest
      else [[s[0]] + rest[0]] + rest[1..]
  }

  /** There is one line more than there are newlines. */
  lemma {:induction false} SplitCount(s: string)
    ensures |Split(s)| == Count(s, "\n") + 1
    decreases |s|
  {
    if s != [] {
      SplitCount(s[1..]);
      assert OccursAt(s, "\n", 0) <==> s[0] == '\n';
    }
  }

  /** No line holds a newline. */
  lemma {:induction false} SplitLinesNewlineFree(s: string)
    ensures forall i :: 0 <= i < |Split(s)| ==> '\n' !in Split(s)[i]
    decreases |s|
  {
    if s != [] {
      SplitLinesNewlineFree(s[1..]);
    }
  }

  /** `'\n'.join(lines)`. */
  function Join(lines: seq<string>): string
  {
    if |lines| == 0 then ""
    else if |lines| == 1 then lines[0]
    else lines[0] + "\n" + Join(lines[1..])
  }

  /** The lines of `[c] + t` built from the lines of `t`: a newline opens a new first line,
      any other character extends the first line. */
  function ConsLine(c: char, lines: seq<string>): seq<string>
    requires |lines| >= 1
  {
    if c == '\n' then [""] + lines else [[c] + lines[0]] + lines[1..]
  }

  /** One character in front of a text either opens a new first line or extends it. */
  lemma SplitCons(c: char, t: string)
    ensures Split([c] + t) == ConsLine(c, Split(t))
  {
    assert ([c] + t)[1..] == t;
  }

  /** Putting a character in front touches only the first line. */
  lemma ConsLineAppend(c: char, r: seq<string>, rest: seq<string>)
    requires |r| >= 1
    ensures ConsLine(c, r + rest) == ConsLine(c, r) + rest
  {
    if c == '\n' {
      assert [""] + (r + rest) == ([""] + r) + rest;
    } else {
      assert (r + rest)[1..] == r[1..] + rest;
      assert [[c] + r[0]] + (r[1..] + rest) == ([[c] + r[0]] + r[1..]) + rest;
    }
  }

  /** A newline splits a text into the lines before it and the lines after it. */
  lemma {:induction false} SplitAtNewline(a: string, b: string)
    ensures Split(a + "\n" + b) == Split(a) + Split(b)
    decreases |a|
  {
    if a == [] {
      assert a + "\n" + b == ['\n'] + b;
      SplitCons('\n', b);
    } else {
      var c, rest := a[0], a[1..];
      var tail := rest + "\n" + b;
      assert Split(a + "\n" + b) == ConsLine(c, Split(tail)) by {
        assert a + "\n" + b == [c] + tail;
        SplitCons(c, tail);
      }
      assert Split(a) == ConsLine(c, Split(rest)) by {
        assert a == [c] + rest;
        SplitCons(c, rest);
      }
      SplitAtNewline(rest, b);
      ConsLineAppend(c, Split(rest), Split(b));
    }
  }

  /** Joining the lines of a text gives the text back. */
  lemma {:induction false} JoinSplit(s: string)
    ensures Join(Split(s)) == s
    decreases |s|
  {
    if s != [] {
      JoinSplit(s[1..]);
      var rest := Split(s[1..]);
      if s[0] == '\n' {
        assert Split(s) == [""] + rest;
        assert Join(Split(s)) == "" + "\n" + Join(rest);
      } else {
        var lines := Split(s);
        assert lines == [[s[0]] + rest[0]] + rest[1..];
        if |rest| == 1 {
          assert Join(lines) == [s[0]] + rest[0];
        } else {
          assert lines[1..] == rest[1..];
          assert Join(rest) == rest[0] + "\n" + Join(rest[1..]);
          assert Join(lines) == [s[0]] + rest[0] + "\n" + Join(rest[1..]);
        }
        assert s == [s[0]] + s[1..];
      }
    }
  }

  /** A newline-free prefix extends the first line of what follows it. */
  lemma {:induction false} SplitPrefix(a: string, t: string)
    requires '\n' !in a
    ensures Split(a + t) == [a + Split(t)[0]] + Split(t)[1..]
    decreases |a|
  {
    if a == [] {
      var rest := Split(t);
      assert a + t == t && a + rest[0] == rest[0];
      assert [rest[0]] + rest[1..] == rest;
    } else {
      assert (a + t)[0] == a[0];
      assert (a + t)[1..] == a[1..] + t;
      SplitPrefix(a[1..], t);
      assert [a[0]] + (a[1..] + Split(t)[0]) == a + Split(t)[0];
    }
  }

  /** Splitting joined newline-free lines gives the lines back. */
  lemma {:induction false} SplitJoin(lines: seq<string>)
    requires |lines| >= 1
    requires forall i :: 0 <= i < |lines| ==> '\n' !in lines[i]
    ensures Split(Join(lines)) == lines
    decreases |lines|
  {
    if |lines| == 1 {
      SplitPrefix(lines[0], "");
      assert lines[0] + "" == lines[0];
    } else {
      var tail := Join(lines[1..]);
      SplitJoin(lines[1..]);
      assert Join(lines) == lines[0] + ("\n" + tail);
      assert ("\n" + tail)[1..] == tail;
      assert Split("\n" + tail) == [""] + lines[1..];
      SplitPrefix(lines[0], "\n" + tail);
      assert lines[0] + "" == lines[0];
    }
  }

  /** The decimal digit for `d < 10`. */
  function DigitChar(d: nat): (c: char)
    requires d < 10
    ensures '0' <= c <= '9'
  {
    ['0', '1', '2', '3', '4', '5', '6', '7', '8', '9'][d]
  }

  /** The value of a string of decimal digits. */
  function DigitsValue(s: string): nat
    requires forall i :: 0 <= i < |s| ==> '0' <= s[i] <= '9'
  {
    if s == [] then 0 else 10 * DigitsValue(s[..|s| - 1]) + (s[|s| - 1] as int - '0' as int)
  }

  /** `str(n)`: the decimal rendering of `n`, as an f-string prints an int. */
  function Decimal(n: nat): (s: string)
    ensures s != [] && forall i :: 0 <= i < |s| ==> '0' <= s[i] <= '9'
    ensures |s| > 1 ==> s[0] != '0'
  {
    if n < 10 then [DigitChar(n)] else Decimal(n / 10) + [DigitChar(n % 10)]
  }

  /** Reading the rendering back gives the number: `int(str(n)) == n`. */
  lemma {:induction false} DecimalRoundTrip(n: nat)
    ensures DigitsValue(Decimal(n)) == n
  {
    if n >= 10 {
      DecimalRoundTrip(n / 10);
      var s := Decimal(n);
      assert s[..|s| - 1] == Decimal(n / 10);
    }
  }
}
