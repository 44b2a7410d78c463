/** String helpers standing in for the fixed regular expressions, strings.ToLower,
    strings.TrimSpace and strconv.ParseUint that the package applies to the
    output of external commands. */
module Text {
  import opened Errors

  predicate StartsWith(s: string, p: string)
  {
    |p| <= |s| && s[..|p|] == p
  }

  /** Index of the leftmost occurrence of `p` in `s`. */
  function Find(s: string, p: string): (r: Option<nat>)
    ensures r.Some? ==> r.value <= |s| && StartsWith(s[r.value..], p)
    ensures r.Some? ==> forall j :: 0 <= j < r.value ==> !StartsWith(s[j..], p)
    ensures r.None? ==> forall j :: 0 <= j <= |s| ==> !StartsWith(s[j..], p)
    decreases |s|
  {
    if StartsWith(s, p) then Some(0)
    else if |s| == 0 then None
    else
      assert forall j :: 1 <= j <= |s| ==> s[j..] == s[1..][j - 1..];
      match Find(s[1..], p)
      case None => None
      case Some(k) => Some(k + 1)
  }

  /** regexp.MatchString with a pattern free of metacharacters. */
  predicate Contains(s: string, p: string)
  {
    Find(s, p).Some?
  }

  lemma ContainsAt(s: string, p: string, i: nat)
    requires i <= |s| && StartsWith(s[i..], p)
    ensures Contains(s, p)
  {
  }

  /** Whatever stands between `a` and `b` occurs in the concatenation. */
  lemma ContainsInfix(a: string, t: string, b: string)
    ensures Contains(a + t + b, t)
  {
    var s := a + t + b;
    assert s[|a|..][..|t|] == t;
    ContainsAt(s, t, |a|);
  }

  /** The first of `words` that `s` starts with, or "" when none does: the
      alternatives of a regular expression `(w1|w2|...)` tried at one position. */
  function FirstAt(s: string, words: seq<string>): (r: string)
    ensures r == "" || (r in words && StartsWith(s, r))
    ensures r == "" ==> forall w :: w in words && w != "" ==> !StartsWith(s, w)
  {
    if |words| == 0 then ""
    else if words[0] != "" && StartsWith(s, words[0]) then words[0]
    else FirstAt(s, words[1..])
  }

  /** regexp.FindString for the pattern `(w1|w2|...)`: the alternative matched
      at the leftmost position where one matches, or "" when none occurs. */
  function Leftmost(s: string, words: seq<string>): (r: string)
    ensures r == "" || r in words
    ensures r != "" ==> Contains(s, r)
    ensures r == "" ==> forall w :: w in words && w != "" ==> !Contains(s, w)
    decreases |s|
  {
    var w := FirstAt(s, words);
    if w != "" then ContainsAt(s, w, 0); w
    else if |s| == 0 then ""
    else
      var r := Leftmost(s[1..], words);
      if r != "" then
        var k := Find(s[1..], r).value;
        assert s[1..][k..] == s[k + 1..];
        ContainsAt(s, r, k + 1);
        r
      else
        assert forall v :: v in words && v != "" ==> !StartsWith(s, v) && !Contains(s[1..], v);
        r
  }

  /** For two non-empty alternatives, Leftmost picks the one whose first
      occurrence comes first (the first alternative on a tie), and "" when
      neither occurs. */
  lemma {:induction false} LeftmostOfTwo(s: string, a: string, b: string)
    requires a != "" && b != ""
    ensures var fa, fb := Find(s, a), Find(s, b);
            Leftmost(s, [a, b]) ==
              if fa.Some? && (fb.None? || fa.value <= fb.value) then a
              else if fb.Some? then b
              else ""
    decreases |s|
  {
    if StartsWith(s, a) || StartsWith(s, b) {
    } else if |s| > 0 {
      LeftmostOfTwo(s[1..], a, b);
    }
  }

  /** The first of `words` that `s` starts with comes no later in the list
      than any other non-empty word that `s` starts with. */
  lemma {:induction false} FirstAtIsFirst(s: string, words: seq<string>, i: nat)
    requires i < |words| && words[i] != "" && StartsWith(s, words[i])
    ensures FirstAt(s, words) != "" && FirstAt(s, words) in words[..i + 1]
  {
    if words[0] != "" && StartsWith(s, words[0]) {
      assert words[..i + 1][0] == words[0];
    } else {
      FirstAtIsFirst(s, words[1..], i - 1);
      assert words[1..][..i] == words[..i + 1][1..];
    }
  }

  /** The alternative Leftmost picks occurs no later than any other, and
      among the words occurring at that same position it is the first
      listed: regexp's leftmost-first match. */
  lemma {:induction false} LeftmostIsLeftmost(s: string, words: seq<string>)
    ensures var r := Leftmost(s, words);
            r != "" ==> forall v :: v in words && v != "" && Contains(s, v) ==> Find(s, r).value <= Find(s, v).value
    ensures var r := Leftmost(s, words);
            r != "" ==> forall i :: 0 <= i < |words| && words[i] != "" && Find(s, words[i]) == Find(s, r) ==> r in words[..i + 1]
    decreases |s|
  {
    var r := Leftmost(s, words);
    if r == "" {
    } else if FirstAt(s, words) != "" {
      assert Find(s, r) == Some(0);
      forall i | 0 <= i < |words| && words[i] != "" && Find(s, words[i]) == Find(s, r)
        ensures r in words[..i + 1]
      {
        assert s[0..] == s;
        FirstAtIsFirst(s, words, i);
      }
    } else {
      LeftmostIsLeftmost(s[1..], words);
      forall v | v in words && v != "" && Contains(s, v)
        ensures Contains(s[1..], v) && Find(s, v).value == Find(s[1..], v).value + 1
      {
        FindShift(s, v);
      }
      forall i | 0 <= i < |words| && words[i] != "" && Find(s, words[i]) == Find(s, r)
        ensures r in words[..i + 1]
      {
        FindShift(s, words[i]);
      }
    }
  }

  /** A word that does not start `s` but occurs in it occurs one position
      further on in the rest of `s`. */
  lemma FindShift(s: string, v: string)
    requires |s| > 0 && !StartsWith(s, v)
    ensures Find(s, v) == if Find(s[1..], v).Some? then Some(Find(s[1..], v).value + 1) else None
  {
  }

  predicate IsDigit(c: char)
  {
    '0' <= c <= '9'
  }

  predicate AllDigits(s: string)
  {
    forall i :: 0 <= i < |s| ==> IsDigit(s[i])
  }

  /** The longest prefix of `s` made of decimal digits: `[0-9]+` taken greedily. */
  function DigitRun(s: string): (r: string)
    ensures StartsWith(s, r) && AllDigits(r)
    ensures |r| == |s| || !IsDigit(s[|r|])
  {
    if |s| > 0 && IsDigit(s[0]) then [s[0]] + DigitRun(s[1..]) else ""
  }

  lemma {:induction false} DigitRunOf(d: string, b: string)
    requires AllDigits(d)
    requires b == "" || !IsDigit(b[0])
    ensures DigitRun(d + b) == d
  {
    if d != [] {
      assert (d + b)[1..] == d[1..] + b;
      DigitRunOf(d[1..], b);
    }
  }

  /** Position `i` of `s` holds `p` followed by at least one digit. */
  predicate DigitsFollowAt(s: string, p: string, i: nat)
  {
    i + |p| < |s| && StartsWith(s[i..], p) && IsDigit(s[i + |p|])
  }

  /** Leftmost position where `p` is followed by a digit. */
  function FindDigitsAfter(s: string, p: string, from: nat): (r: Option<nat>)
    requires from <= |s|
    ensures r.Some? ==> from <= r.value && DigitsFollowAt(s, p, r.value)
    ensures r.Some? ==> forall j :: from <= j < r.value ==> !DigitsFollowAt(s, p, j)
    ensures r.None? ==> forall j :: from <= j <= |s| ==> !DigitsFollowAt(s, p, j)
    decreases |s| - from
  {
    if DigitsFollowAt(s, p, from) then Some(from)
    else if from == |s| then None
    else FindDigitsAfter(s, p, from + 1)
  }

  /** The capture group of regexp `<p>([0-9]+)` (FindStringSubmatch(s)[1]). */
  function DigitsAfter(s: string, p: string): (r: Option<string>)
    ensures r.Some? ==> r.value != "" && AllDigits(r.value) && Contains(s, p + r.value)
    ensures r.Some? ==> exists i :: 0 <= i < |s| && DigitsFollowAt(s, p, i)
                          && (forall j :: 0 <= j < i ==> !DigitsFollowAt(s, p, j))
                          && r.value == DigitRun(s[i + |p|..])
    ensures r.None? ==> forall j :: 0 <= j <= |s| ==> !DigitsFollowAt(s, p, j)
  {
    match FindDigitsAfter(s, p, 0)
    case None => None
    case Some(i) =>
      var d := DigitRun(s[i + |p|..]);
      DigitsAtContained(s, p, i);
      assert 0 <= i < |s| && DigitsFollowAt(s, p, i) && (forall j :: 0 <= j < i ==> !DigitsFollowAt(s, p, j));
      Some(d)
  }

  /** `p` followed by its digit run occurs at a position where `p` is
      followed by a digit. */
  lemma DigitsAtContained(s: string, p: string, i: nat)
    requires DigitsFollowAt(s, p, i)
    ensures var d := DigitRun(s[i + |p|..]); d != "" && Contains(s, p + d)
  {
    var d := DigitRun(s[i + |p|..]);
    assert s[i..][..|p| + |d|] == p + d;
    ContainsAt(s, p + d, i);
  }

  lemma FindDigitsAfterFirst(s: string, p: string, i: nat)
    requires DigitsFollowAt(s, p, i) && forall j :: 0 <= j < i ==> !DigitsFollowAt(s, p, j)
    ensures FindDigitsAfter(s, p, 0) == Some(i)
  {
  }

  /** In an output `a + p + d + b` where `a` holds no earlier `p` followed
      by a digit, the capture is exactly the digit run `d` (when `b` does not
      continue it). */
  lemma DigitsAfterPrefix(a: string, p: string, d: string, b: string)
    requires d != "" && AllDigits(d)
    requires b == "" || !IsDigit(b[0])
    requires forall j :: 0 <= j < |a| ==> !DigitsFollowAt(a + p + d + b, p, j)
    ensures DigitsAfter(a + p + d + b, p) == Some(d)
  {
    var s := a + p + d + b;
    DigitsFollowPrefix(a, p, d, b);
    FindDigitsAfterFirst(s, p, |a|);
    DigitRunOf(d, b);
    assert DigitsAfter(s, p) == Some(DigitRun(s[|a| + |p|..]));
  }

  lemma DigitsFollowPrefix(a: string, p: string, d: string, b: string)
    requires d != "" && AllDigits(d)
    ensures DigitsFollowAt(a + p + d + b, p, |a|)
    ensures (a + p + d + b)[|a| + |p|..] == d + b
  {
    var s := a + p + d + b;
    assert s[|a|..] == p + d + b;
    assert (p + d + b)[..|p|] == p;
    assert s[|a| + |p|] == d[0];
  }

  function LowerChar(c: char): char
  {
    if 'A' <= c <= 'Z' then (c as int - 'A' as int + 'a' as int) as char else c
  }

  /** strings.ToLower, for ASCII letters. */
  function ToLower(s: string): (r: string)
    ensures |r| == |s|
    ensures forall i :: 0 <= i < |s| ==> r[i] == LowerChar(s[i])
  {
    if s == [] then [] else [LowerChar(s[0])] + ToLower(s[1..])
  }

  /** The white-space characters of unicode.IsSpace, apart from the range
      U+2000..U+200A. */
  const SpaceChars: set<char> := {
    ' ', '\t', '\n', '\r', '\U{000B}', '\U{000C}', '\U{0085}', '\U{00A0}', '\U{1680}',
    '\U{2028}', '\U{2029}', '\U{202F}', '\U{205F}', '\U{3000}'
  }

  /** unicode.IsSpace. */
  predicate IsSpace(c: char)
  {
    c in SpaceChars || '\U{2000}' <= c <= '\U{200A}'
  }

  /** The number of white-space characters `s` starts with. */
  function SpaceBefore(s: string): (n: nat)
    ensures n <= |s|
    ensures forall k :: 0 <= k < n ==> IsSpace(s[k])
    ensures n == |s| || !IsSpace(s[n])
  {
    if |s| > 0 && IsSpace(s[0]) then 1 + SpaceBefore(s[1..]) else 0
  }

  /** The number of white-space characters `s` ends with. */
  function SpaceAfter(s: string): (n: nat)
    ensures n <= |s|
    ensures forall k :: |s| - n <= k < |s| ==> IsSpace(s[k])
    ensures n == |s| || !IsSpace(s[|s| - n - 1])
  {
    if |s| > 0 && IsSpace(s[|s| - 1]) then 1 + SpaceAfter(s[..|s| - 1]) else 0
  }

  /** strings.TrimSpace: the slice of `s` between its leading and its
      trailing white space. */
  function TrimSpace(s: string): (r: string)
    ensures var i := SpaceBefore(s);
            i + |r| <= |s| && r == s[i..i + |r|]
            && (forall k :: 0 <= k < i ==> IsSpace(s[k]))
            && (forall k :: i + |r| <= k < |s| ==> IsSpace(s[k]))
            && (r == [] || (!IsSpace(r[0]) && !IsSpace(r[|r| - 1])))
  {
    var i := SpaceBefore(s);
    if i == |s| then ""
    else
      var j := |s| - SpaceAfter(s);
      assert i < j;
      s[i..j]
  }

  function DigitValue(c: char): nat
    requires IsDigit(c)
  {
    c as int - '0' as int
  }

  /** The decimal value of a digit string, most significant digit first. */
  function Decimal(s: string): nat
    requires AllDigits(s)
  {
    if s == [] then 0 else Decimal(s[..|s| - 1]) * 10 + DigitValue(s[|s| - 1])
  }

  const MaxUint32: nat := 0xFFFF_FFFF

  /** The digit loop of strconv.ParseUint in base 10 with a 32-bit limit:
      each digit is appended to the value parsed so far, a non-digit is a
      syntax error and a value past the limit a range error. */
  function ParseDigits(s: string, n: nat): Option<nat>
  {
    if s == "" then Some(n)
    else if !IsDigit(s[0]) then None
    else
      var n1 := n * 10 + DigitValue(s[0]);
      if n1 > MaxUint32 then None else ParseDigits(s[1..], n1)
  }

  /** Appending digits never makes the value smaller. */
  lemma {:induction false} DecimalGrows(q: string, t: string)
    requires AllDigits(q + t)
    ensures AllDigits(q) && Decimal(q) <= Decimal(q + t)
  {
    assert forall i :: 0 <= i < |q| ==> q[i] == (q + t)[i];
    if t != [] {
      var u := q + t[..|t| - 1];
      assert (q + t)[..|q + t| - 1] == u;
      assert AllDigits(u);
      assert Decimal(q + t) == Decimal(u) * 10 + DigitValue((q + t)[|q + t| - 1]);
      DecimalGrows(q, t[..|t| - 1]);
    } else {
      assert q + t == q;
    }
  }

  /** Once the digits `q` are parsed, the loop over the rest `t` yields the
      value of `q + t` exactly when `t` is all digits and that value fits. */
  lemma {:induction false} ParseDigitsValue(q: string, t: string)
    requires AllDigits(q) && Decimal(q) <= MaxUint32
    ensures ParseDigits(t, Decimal(q)) ==
              if AllDigits(q + t) && Decimal(q + t) <= MaxUint32 then Some(Decimal(q + t)) else None
    decreases |t|
  {
    if t == [] {
      assert q + t == q;
    } else if IsDigit(t[0]) {
      var q1 := q + [t[0]];
      assert q1[..|q1| - 1] == q;
      assert q1 + t[1..] == q + t;
      assert AllDigits(q1);
      if Decimal(q1) > MaxUint32 {
        if AllDigits(q + t) {
          DecimalGrows(q1, t[1..]);
        }
      } else {
        ParseDigitsValue(q1, t[1..]);
      }
    } else {
      assert (q + t)[|q|] == t[0];
    }
  }

  /** strconv.ParseUint(s, 10, 32): a non-empty run of decimal digits whose
      value fits in 32 bits; anything else is a syntax or range error. */
  function ParseUint32(s: string): (r: Option<nat>)
    ensures r.Some? <==> s != "" && AllDigits(s) && Decimal(s) <= MaxUint32
    ensures r.Some? ==> r.value == Decimal(s)
  {
    if s == "" then None
    else
      assert "" + s == s;
      ParseDigitsValue("", s);
      ParseDigits(s, 0)
  }

  lemma {:induction false} DecimalZero(s: string)
    requires AllDigits(s)
    ensures Decimal(s) == 0 <==> forall i :: 0 <= i < |s| ==> s[i] == '0'
  {
    if s != [] {
      DecimalZero(s[..|s| - 1]);
      assert forall i :: 0 <= i < |s| - 1 ==> s[..|s| - 1][i] == s[i];
    }
  }

  /** Parsing yields 0 exactly for a non-empty string of zeros ("0", "000"). */
  lemma ParseZero(s: string)
    ensures ParseUint32(s) == Some(0) <==> s != "" && forall i :: 0 <= i < |s| ==> s[i] == '0'
  {
    if AllDigits(s) {
      DecimalZero(s);
    }
  }

  /** The lines joined with "\n" between them (a template's text). */
  function JoinLines(lines: seq<string>): string
  {
    if |lines| == 0 then ""
    else if |lines| == 1 then lines[0]
    else lines[0] + "\n" + JoinLines(lines[1..])
  }

  /** `line` occurs in `s` as a whole line, with a newline on each side. */
  predicate HasLine(s: string, line: string)
  {
    Contains(s, "\n" + line + "\n")
  }

  /** Every line strictly inside the list appears in the joined text as a
      whole line. */
  lemma {:induction false} LineInJoin(lines: seq<string>, i: nat)
    requires 0 < i < |lines| - 1
    ensures HasLine(JoinLines(lines), lines[i])
  {
    var rest := JoinLines(lines[1..]);
    if i == 1 {
      var tail := JoinLines(lines[2..]);
      assert rest == lines[1] + "\n" + tail;
      assert JoinLines(lines) == lines[0] + ("\n" + lines[1] + "\n") + tail;
      ContainsInfix(lines[0], "\n" + lines[1] + "\n", tail);
    } else {
      LineInJoin(lines[1..], i - 1);
      var k := Find(rest, "\n" + lines[i] + "\n").value;
      var pre := lines[0] + "\n";
      assert (pre + rest)[|pre| + k..] == rest[k..];
      ContainsAt(pre + rest, "\n" + lines[i] + "\n", |pre| + k);
    }
  }

  /** The joined text starts with the first line and its newline. */
  lemma FirstLineOfJoin(lines: seq<string>)
    requires |lines| > 1
    ensures StartsWith(JoinLines(lines), lines[0] + "\n")
  {
    var rest := JoinLines(lines[1..]);
    assert JoinLines(lines) == (lines[0] + "\n") + rest;
    assert (lines[0] + "\n" + rest)[..|lines[0] + "\n"|] == lines[0] + "\n";
  }
}
