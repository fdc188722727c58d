/** The host-side serial filter (`RotorRigCsvLogger`): it reassembles the
    monitor's text into lines, recognises the firmware's `OK LOG 1` /
    `OK LOG 0` markers as the start and end of a CSV session, and copies
    into the session's file only the lines that have the shape of a
    24-column CSV record.

    Files are modelled by their contents: `current` holds the lines of the
    open CSV file and `closed` those of the files already closed. The raw
    text log, file names, timestamps and `fsync` are not modelled.
    Character classes are the ASCII ones: `\s` and `str.strip` are the
    space, the characters 9 to 13 and 28 to 31; `\d` is `0`..`9`. */
module CsvLogger {
  import opened Common
  import Tokenizer
  import opened CsvRows

  predicate IsSpace(c: char) { c == ' ' || 9 <= c as int <= 13 || 28 <= c as int <= 31 }
  predicate IsDigit(c: char) { '0' <= c <= '9' }
  predicate IsSign(c: char) { c == '+' || c == '-' }

  predicate AllSpaces(s: string) { forall i :: 0 <= i < |s| ==> IsSpace(s[i]) }
  predicate AllDigits(s: string) { forall i :: 0 <= i < |s| ==> IsDigit(s[i]) }

  // ---- str.strip, str.lstrip, str.rstrip("\r") -------------------------

  function LStrip(s: string): (r: string)
    ensures |r| <= |s| && r == s[|s| - |r|..]
    ensures forall i :: 0 <= i < |s| - |r| ==> IsSpace(s[i])
    ensures |r| > 0 ==> !IsSpace(r[0])
    decreases |s|
  {
    if |s| > 0 && IsSpace(s[0]) then LStrip(s[1..]) else s
  }

  function RStrip(s: string): (r: string)
    ensures |r| <= |s| && r == s[..|r|]
    ensures forall i :: |r| <= i < |s| ==> IsSpace(s[i])
    ensures |r| > 0 ==> !IsSpace(r[|r| - 1])
    decreases |s|
  {
    if |s| > 0 && IsSpace(s[|s| - 1]) then RStrip(s[..|s| - 1]) else s
  }

  function Strip(s: string): (r: string)
    ensures |r| <= |s|
    ensures |r| > 0 ==> !IsSpace(r[0]) && !IsSpace(r[|r| - 1])
  {
    RStrip(LStrip(s))
  }

  /** `rstrip("\r")`: every trailing carriage return removed. */
  function RStripCR(s: string): (r: string)
    ensures |r| <= |s| && r == s[..|r|]
    ensures forall i :: |r| <= i < |s| ==> s[i] == '\r'
    ensures |r| > 0 ==> r[|r| - 1] != '\r'
    decreases |s|
  {
    if |s| > 0 && s[|s| - 1] == '\r' then RStripCR(s[..|s| - 1]) else s
  }

  lemma {:induction false} LStripOf(sp: string, t: string)
    requires AllSpaces(sp) && (|t| == 0 || !IsSpace(t[0]))
    ensures LStrip(sp + t) == t
    decreases |sp|
  {
    if |sp| > 0 {
      assert (sp + t)[1..] == sp[1..] + t;
      LStripOf(sp[1..], t);
    } else {
      assert sp + t == t;
    }
  }

  lemma {:induction false} RStripOf(t: string, sp: string)
    requires AllSpaces(sp) && (|t| == 0 || !IsSpace(t[|t| - 1]))
    ensures RStrip(t + sp) == t
    decreases |sp|
  {
    if |sp| > 0 {
      assert (t + sp)[..|t + sp| - 1] == t + sp[..|sp| - 1];
      RStripOf(t, sp[..|sp| - 1]);
    } else {
      assert t + sp == t;
    }
  }

  /** `strip` removes exactly the surrounding white space: a text that
      neither starts nor ends with a space comes back from any padding. */
  lemma {:induction false} StripOfPadded(sp1: string, t: string, sp2: string)
    requires AllSpaces(sp1) && AllSpaces(sp2)
    requires |t| == 0 || (!IsSpace(t[0]) && !IsSpace(t[|t| - 1]))
    ensures Strip(sp1 + t + sp2) == t
  {
    if |t| == 0 {
      assert sp1 + t + sp2 == sp1 + sp2;
      assert AllSpaces(sp1 + sp2);
      LStripOf(sp1 + sp2, []);
      assert sp1 + sp2 + [] == sp1 + sp2;
    } else {
      assert sp1 + t + sp2 == sp1 + (t + sp2);
      LStripOf(sp1, t + sp2);
      RStripOf(t, sp2);
    }
  }

  // ---- strip_prefix ----------------------------------------------------

  /** `\d{2}:\d{2}:\d{2}\.\d{3}`, the monitor's time stamp. */
  predicate IsStamp(t: string)
  {
    |t| == 12
    && IsDigit(t[0]) && IsDigit(t[1]) && t[2] == ':'
    && IsDigit(t[3]) && IsDigit(t[4]) && t[5] == ':'
    && IsDigit(t[6]) && IsDigit(t[7]) && t[8] == '.'
    && IsDigit(t[9]) && IsDigit(t[10]) && IsDigit(t[11])
  }

  function SkipSpaces(s: string, i: nat): (j: nat)
    requires i <= |s|
    ensures i <= j <= |s|
    ensures forall k :: i <= k < j ==> IsSpace(s[k])
    ensures j == |s| || !IsSpace(s[j])
    decreases |s| - i
  {
    if i < |s| && IsSpace(s[i]) then SkipSpaces(s, i + 1) else i
  }

  /** The length of the match of `^stamp\s*>\s*`, 0 when there is none
      (the `>` is not white space, so the greedy match is the only one). */
  function StampPrefixLen(line: string): (n: nat)
    ensures n <= |line|
  {
    if |line| >= 12 && IsStamp(line[..12]) then
      var j := SkipSpaces(line, 12);
      if j < |line| && line[j] == '>' then SkipSpaces(line, j + 1) else 0
    else 0
  }

  /** `strip_prefix`: what is left is always a suffix of the line. */
  function StripPrefix(line: string): (r: string)
    ensures |r| <= |line| && r == line[|line| - |r|..]
  {
    var l := line[StampPrefixLen(line)..];
    if |l| > 0 && l[0] == '>' then LStrip(l[1..]) else l
  }

  /** One stamp with its `>` is removed, and with it the padding around
      the `>`. */
  lemma {:induction false} StripPrefixStamped(stamp: string, sp1: string, sp2: string, rest: string)
    requires IsStamp(stamp) && AllSpaces(sp1) && AllSpaces(sp2)
    requires |rest| == 0 || (!IsSpace(rest[0]) && rest[0] != '>')
    ensures StripPrefix(stamp + sp1 + ">" + sp2 + rest) == rest
  {
    var line := stamp + sp1 + ">" + sp2 + rest;
    StampPrefixLenOf(stamp, sp1, sp2, rest);
    assert line[|stamp + sp1 + ">" + sp2|..] == rest;
  }

  /** The match of `^stamp\s*>\s*` on such a line ends where `rest` starts. */
  lemma {:induction false} StampPrefixLenOf(stamp: string, sp1: string, sp2: string, rest: string)
    requires IsStamp(stamp) && AllSpaces(sp1) && AllSpaces(sp2)
    requires |rest| == 0 || !IsSpace(rest[0])
    ensures StampPrefixLen(stamp + sp1 + ">" + sp2 + rest) == |stamp + sp1 + ">" + sp2|
  {
    var line := stamp + sp1 + ">" + sp2 + rest;
    assert line[..12] == stamp;
    var j := 12 + |sp1|;
    assert forall k :: 12 <= k < j ==> line[k] == sp1[k - 12];
    assert line[j] == '>';
    SkipSpacesThrough(line, 12, j);
    var e := j + 1 + |sp2|;
    assert forall k :: j + 1 <= k < e ==> line[k] == sp2[k - j - 1];
    assert e < |line| ==> line[e] == rest[0];
    SkipSpacesThrough(line, j + 1, e);
  }

  /** Without a stamp, a single leading `>` and the white space after it go. */
  lemma {:induction false} StripPrefixArrow(sp: string, rest: string)
    requires AllSpaces(sp)
    requires |rest| == 0 || !IsSpace(rest[0])
    ensures StripPrefix(">" + sp + rest) == rest
  {
    var line := ">" + sp + rest;
    assert StampPrefixLen(line) == 0 by {
      assert |line| >= 12 ==> line[..12][0] == '>';
    }
    assert line[0..] == line;
    assert line[1..] == sp + rest;
    LStripOf(sp, rest);
  }

  lemma {:induction false} SkipSpacesThrough(s: string, i: nat, j: nat)
    requires i <= j <= |s|
    requires forall k :: i <= k < j ==> IsSpace(s[k])
    requires j == |s| || !IsSpace(s[j])
    ensures SkipSpaces(s, i) == j
    decreases j - i
  {
    if i < j {
      SkipSpacesThrough(s, i + 1, j);
    }
  }

  // ---- the token grammars ----------------------------------------------

  /** `^[+-]?\d+$` of `is_int_token`, after `strip`. */
  predicate IntSyntax(t: string)
  {
    var b := if |t| > 0 && IsSign(t[0]) then 1 else 0;
    |t| > b && AllDigits(t[b..])
  }

  predicate IsIntToken(s: string)
  {
    IntSyntax(Strip(s))
  }

  /** The end of the run of digits from `i`. */
  function DigitsEnd(t: string, i: nat): (j: nat)
    requires i <= |t|
    ensures i <= j <= |t|
    ensures forall k :: i <= k < j ==> IsDigit(t[k])
    ensures j == |t| || !IsDigit(t[j])
    decreases |t| - i
  {
    if i < |t| && IsDigit(t[i]) then DigitsEnd(t, i + 1) else i
  }

  function SignEnd(t: string, i: nat): (j: nat)
    requires i <= |t|
    ensures i <= j <= |t|
  {
    if i < |t| && IsSign(t[i]) then i + 1 else i
  }

  /** Where `\d+(\.\d*)?|\.\d+` ends when it starts at `i`; a digit run is
      maximal in any match, so the scan is greedy. */
  function MantissaEnd(t: string, i: nat): (e: Option<nat>)
    requires i <= |t|
    ensures e.Some? ==> i < e.value <= |t|
  {
    var j := DigitsEnd(t, i);
    if j > i then
      if j < |t| && t[j] == '.' then Some(DigitsEnd(t, j + 1)) else Some(j)
    else if j < |t| && t[j] == '.' && DigitsEnd(t, j + 1) > j + 1 then Some(DigitsEnd(t, j + 1))
    else None
  }

  /** `(?:[eE][+-]?\d+)?$` from `k`. */
  predicate ExponentFrom(t: string, k: nat)
    requires k <= |t|
  {
    k == |t|
    || ((t[k] == 'e' || t[k] == 'E')
        && var m := SignEnd(t, k + 1); DigitsEnd(t, m) > m && DigitsEnd(t, m) == |t|)
  }

  /** `_FLOAT_RE`, as a scan. */
  predicate FloatSyntax(t: string)
  {
    match MantissaEnd(t, SignEnd(t, 0))
    case None => false
    case Some(k) => ExponentFrom(t, k)
  }

  /** The same language written as the regular expression reads:
      sign? mantissa exponent?. */
  predicate SignPart(p: string) { |p| == 0 || (|p| == 1 && IsSign(p[0])) }

  predicate MantissaPart(m: string)
  {
    (|m| > 0 && AllDigits(m))
    || (exists k :: 0 <= k < |m| && m[k] == '.' && AllDigits(m[..k]) && AllDigits(m[k + 1..])
                    && (k > 0 || k + 1 < |m|))
  }

  predicate SignedDigits(x: string)
  {
    var b := if |x| > 0 && IsSign(x[0]) then 1 else 0;
    |x| > b && AllDigits(x[b..])
  }

  predicate ExponentPart(e: string)
  {
    |e| == 0 || ((e[0] == 'e' || e[0] == 'E') && SignedDigits(e[1..]))
  }

  predicate FloatGrammar(t: string)
  {
    exists a, b :: 0 <= a <= b <= |t| && SignPart(t[..a]) && MantissaPart(t[a..b]) && ExponentPart(t[b..])
  }

  const SPECIALS: set<string> :=
    {"nan", "+nan", "-nan", "inf", "+inf", "-inf", "infinity", "+infinity", "-infinity"}

  /** `is_float_or_special`. */
  predicate IsFloatOrSpecial(s: string)
  {
    var t := Strip(s);
    |t| > 0 && (Tokenizer.Lower(t) in SPECIALS || FloatSyntax(t))
  }

  lemma {:induction false} DigitsEndAt(t: string, i: nat, j: nat)
    requires i <= j <= |t|
    requires forall k :: i <= k < j ==> IsDigit(t[k])
    requires j == |t| || !IsDigit(t[j])
    ensures DigitsEnd(t, i) == j
    decreases j - i
  {
    if i < j {
      DigitsEndAt(t, i + 1, j);
    }
  }

  /** A run of digits, read as a slice. */
  lemma {:induction false} SliceDigits(t: string, i: nat, j: nat)
    requires i <= j <= |t|
    requires forall k :: i <= k < j ==> IsDigit(t[k])
    ensures AllDigits(t[i..j])
  {
    var d := t[i..j];
    forall x | 0 <= x < |d| ensures IsDigit(d[x]) {
      assert d[x] == t[i + x];
    }
  }

  lemma {:induction false} MantissaScanned(t: string, a: nat)
    requires a <= |t| && MantissaEnd(t, a).Some?
    ensures MantissaPart(t[a..MantissaEnd(t, a).value])
  {
    var b := MantissaEnd(t, a).value;
    var m := t[a..b];
    var j := DigitsEnd(t, a);
    if j > a && !(j < |t| && t[j] == '.') {
      assert b == j;
      SliceDigits(t, a, b);
    } else {
      assert j < |t| && t[j] == '.';
      assert b == DigitsEnd(t, j + 1);
      var k := j - a;
      assert m[k] == t[j];
      SliceDigits(t, a, j);
      assert m[..k] == t[a..j];
      SliceDigits(t, j + 1, b);
      assert m[k + 1..] == t[j + 1..b];
      assert MantissaPart(m);
    }
  }

  lemma {:induction false} ExponentScanned(t: string, b: nat)
    requires b <= |t| && ExponentFrom(t, b)
    ensures ExponentPart(t[b..])
  {
    if b < |t| {
      var x := t[b..][1..];
      assert x == t[b + 1..];
      var c := SignEnd(t, b + 1);
      var o := if |x| > 0 && IsSign(x[0]) then 1 else 0;
      assert c == b + 1 + o;
      SliceDigits(t, c, |t|);
      assert x[o..] == t[c..|t|];
    }
  }

  lemma {:induction false} ScanIsGrammar(t: string)
    requires FloatSyntax(t)
    ensures FloatGrammar(t)
  {
    var a := SignEnd(t, 0);
    var b := MantissaEnd(t, a).value;
    assert SignPart(t[..a]);
    MantissaScanned(t, a);
    ExponentScanned(t, b);
  }

  lemma {:induction false} DigitRunScans(t: string, a: nat, b: nat)
    requires a < b <= |t|
    requires forall x :: a <= x < b ==> IsDigit(t[x])
    requires b == |t| || t[b] == 'e' || t[b] == 'E'
    ensures MantissaEnd(t, a) == Some(b)
  {
    DigitsEndAt(t, a, b);
  }

  lemma {:induction false} PointRunScans(t: string, a: nat, p: nat, b: nat)
    requires a <= p < b <= |t| && t[p] == '.' && (p > a || p + 1 < b)
    requires forall x :: a <= x < p ==> IsDigit(t[x])
    requires forall x :: p < x < b ==> IsDigit(t[x])
    requires b == |t| || t[b] == 'e' || t[b] == 'E'
    ensures MantissaEnd(t, a) == Some(b)
  {
    DigitsEndAt(t, a, p);
    DigitsEndAt(t, p + 1, b);
  }

  lemma {:induction false} MantissaScans(t: string, a: nat, b: nat)
    requires a <= b <= |t| && MantissaPart(t[a..b])
    requires b == |t| || t[b] == 'e' || t[b] == 'E'
    ensures MantissaEnd(t, a) == Some(b)
  {
    var m := t[a..b];
    if |m| > 0 && AllDigits(m) {
      forall x | a <= x < b ensures IsDigit(t[x]) {
        assert t[x] == m[x - a];
      }
      DigitRunScans(t, a, b);
    } else {
      var k :| 0 <= k < |m| && m[k] == '.' && AllDigits(m[..k]) && AllDigits(m[k + 1..]) && (k > 0 || k + 1 < |m|);
      var lo, hi := m[..k], m[k + 1..];
      forall x | a <= x < a + k ensures IsDigit(t[x]) {
        assert t[x] == lo[x - a];
      }
      forall x | a + k < x < b ensures IsDigit(t[x]) {
        assert t[x] == hi[x - a - k - 1];
      }
      assert t[a + k] == m[k];
      PointRunScans(t, a, a + k, b);
    }
  }

  lemma {:induction false} ExponentScans(t: string, b: nat)
    requires b <= |t| && ExponentPart(t[b..])
    ensures ExponentFrom(t, b)
  {
    if b < |t| {
      var x := t[b..][1..];
      assert x == t[b + 1..];
      var o := if |x| > 0 && IsSign(x[0]) then 1 else 0;
      var c := SignEnd(t, b + 1);
      assert c == b + 1 + o;
      var ds := x[o..];
      assert forall y :: c <= y < |t| ==> t[y] == ds[y - c];
      DigitsEndAt(t, c, |t|);
    }
  }

  lemma {:induction false} GrammarIsScan(t: string, a: nat, b: nat)
    requires 0 <= a <= b <= |t| && SignPart(t[..a]) && MantissaPart(t[a..b]) && ExponentPart(t[b..])
    ensures FloatSyntax(t)
  {
    var m := t[a..b];
    assert m[0] == t[a];
    assert SignEnd(t, 0) == a by {
      if a == 1 {
        assert t[..a][0] == t[0];
      }
    }
    assert b == |t| || t[b] == 'e' || t[b] == 'E' by {
      if b < |t| {
        assert t[b..][0] == t[b];
      }
    }
    MantissaScans(t, a, b);
    ExponentScans(t, b);
  }

  /** The scan accepts exactly the language of `_FLOAT_RE`. */
  lemma {:induction false} FloatSyntaxIsRegex(t: string)
    ensures FloatSyntax(t) <==> FloatGrammar(t)
  {
    if FloatSyntax(t) {
      ScanIsGrammar(t);
    }
    if FloatGrammar(t) {
      var a, b :| 0 <= a <= b <= |t| && SignPart(t[..a]) && MantissaPart(t[a..b]) && ExponentPart(t[b..]);
      GrammarIsScan(t, a, b);
    }
  }

  /** Every integer token is also a float token. */
  lemma {:induction false} IntIsFloat(s: string)
    requires IsIntToken(s)
    ensures IsFloatOrSpecial(s)
  {
    IntSyntaxIsFloat(Strip(s));
  }

  /** `[+-]?\d+` is the float grammar with a digit-run mantissa and no exponent. */
  lemma {:induction false} IntSyntaxIsFloat(t: string)
    requires IntSyntax(t)
    ensures FloatSyntax(t)
  {
    var a := SignEnd(t, 0);
    assert forall x :: a <= x < |t| ==> IsDigit(t[x]) by {
      forall x | a <= x < |t| ensures IsDigit(t[x]) {
        assert t[x] == t[a..][x - a];
      }
    }
    DigitRunScans(t, a, |t|);
  }

  /** `is_float_or_special` holds exactly for a non-empty stripped token
      that is one of the nine spellings of NaN and infinity, in any case,
      or a word of the float grammar. */
  lemma {:induction false} FloatOrSpecialMeans(s: string)
    ensures IsFloatOrSpecial(s) <==>
      |Strip(s)| > 0 && (Tokenizer.Lower(Strip(s)) in SPECIALS || FloatGrammar(Strip(s)))
  {
    FloatSyntaxIsRegex(Strip(s));
  }

  // ---- decimal text ----------------------------------------------------

  function DigitChar(d: nat): (c: char)
    requires d < 10
    ensures IsDigit(c)
  {
    ('0' as int + d) as char
  }

  /** `str(n)` for a natural number. */
  function NatToString(n: nat): (s: string)
    ensures |s| > 0 && AllDigits(s)
  {
    if n < 10 then [DigitChar(n)] else NatToString(n / 10) + [DigitChar(n % 10)]
  }

  function IntToString(i: int): string
  {
    if i < 0 then "-" + NatToString(-i) else NatToString(i)
  }

  /** A text without surrounding white space is its own `strip`. */
  lemma {:induction false} StripUnpadded(t: string)
    requires |t| == 0 || (!IsSpace(t[0]) && !IsSpace(t[|t| - 1]))
    ensures Strip(t) == t
  {
    assert [] + t + [] == t;
    StripOfPadded([], t, []);
  }

  /** What the firmware prints for an integer column is an integer token. */
  lemma {:induction false} DecimalIsIntToken(i: int)
    ensures IsIntToken(IntToString(i))
  {
    var s := IntToString(i);
    if i < 0 {
      var d := NatToString(-i);
      assert s == "-" + d;
      assert s[1..] == d;
      assert s[|s| - 1] == d[|d| - 1];
      StripUnpadded(s);
    } else {
      assert s[0..] == s;
      StripUnpadded(s);
    }
  }

  // ---- split and join --------------------------------------------------

  /** The first index of `c` in `s`, or `|s|`. */
  function IndexOf(s: string, c: char): (k: nat)
    ensures k <= |s|
    ensures forall i :: 0 <= i < k ==> s[i] != c
    ensures k < |s| ==> s[k] == c
    decreases |s|
  {
    if |s| == 0 then 0 else if s[0] == c then 0 else 1 + IndexOf(s[1..], c)
  }

  /** `str.split(d)` with a one-character separator. */
  function Split(s: string, d: char): (parts: seq<string>)
    ensures |parts| >= 1
    decreases |s|
  {
    var k := IndexOf(s, d);
    if k == |s| then [s] else [s[..k]] + Split(s[k + 1..], d)
  }

  /** `d.join(parts)`. */
  function Join(parts: seq<string>, d: char): string
  {
    if |parts| == 0 then []
    else if |parts| == 1 then parts[0]
    else parts[0] + [d] + Join(parts[1..], d)
  }

  /** Splitting and joining are inverse: joining the parts gives the
      text back, no part holds the separator, and parts without it split
      back from their join. */
  lemma {:induction false} SplitJoin(s: string, d: char)
    ensures Join(Split(s, d), d) == s
    ensures forall i :: 0 <= i < |Split(s, d)| ==> d !in Split(s, d)[i]
    decreases |s|
  {
    var k := IndexOf(s, d);
    if k < |s| {
      SplitJoin(s[k + 1..], d);
      assert s == s[..k] + [d] + s[k + 1..];
      var ps := Split(s, d);
      forall i | 0 <= i < |ps| ensures d !in ps[i] {
        if i > 0 {
          assert ps[i] == Split(s[k + 1..], d)[i - 1];
        }
      }
    }
  }

  lemma {:induction false} JoinSplit(parts: seq<string>, d: char)
    requires |parts| >= 1
    requires forall i :: 0 <= i < |parts| ==> d !in parts[i]
    ensures Split(Join(parts, d), d) == parts
    decreases |parts|
  {
    var s := Join(parts, d);
    if |parts| == 1 {
      IndexOfAbsent(s, d);
    } else {
      var p := parts[0];
      var tail := Join(parts[1..], d);
      assert s == p + [d] + tail;
      IndexOfFirst(p, d, tail);
      assert s[..|p|] == p;
      assert s[|p| + 1..] == tail;
      JoinSplit(parts[1..], d);
    }
  }

  lemma {:induction false} IndexOfAbsent(s: string, d: char)
    requires d !in s
    ensures IndexOf(s, d) == |s|
  {
  }

  lemma {:induction false} IndexOfFirst(p: string, d: char, tail: string)
    requires d !in p
    ensures IndexOf(p + [d] + tail, d) == |p|
    decreases |p|
  {
    if |p| > 0 {
      assert (p + [d] + tail)[1..] == p[1..] + [d] + tail;
      IndexOfFirst(p[1..], d, tail);
    }
  }

  function StripAll(ps: seq<string>): (r: seq<string>)
    ensures |r| == |ps|
    ensures forall i :: 0 <= i < |ps| ==> r[i] == Strip(ps[i])
  {
    seq(|ps|, i requires 0 <= i < |ps| => Strip(ps[i]))
  }

  // ---- _looks_like_csv -------------------------------------------------

  const CSV_HEADER: seq<string> := [
    "t_ms", "test_id", "motor_id", "kv", "prop", "battery_s", "esc_fw",
    "pole_pairs", "step_id", "throttle_pct", "step_time_s", "is_steady",
    "eRPM", "RPM", "V_bus_V", "I_A", "P_in_W", "thrust_N", "thrust_g",
    "eff_g_per_W", "eff_N_per_W", "eff_g_per_A", "bdshot_err_pct", "notes"]

  function Upper(s: string): (r: string)
    ensures |r| == |s|
  {
    seq(|s|, i requires 0 <= i < |s| => if 'a' <= s[i] <= 'z' then (s[i] as int - 32) as char else s[i])
  }

  /** The test `_looks_like_csv` applies to a cell of each type: an integer
      token, `NA` in any case or a float token, any non-empty text. */
  predicate CellOk(kind: ColKind, cell: string)
  {
    match kind
    case IntCol => IsIntToken(cell)
    case FloatCol => Upper(cell) == "NA" || IsFloatOrSpecial(cell)
    case TextCol => cell != []
  }

  /** The stripped cells of a line; a split has at least one. */
  function Cells(line: string, delim: char): (parts: seq<string>)
    ensures |parts| >= 1
  {
    StripAll(Split(Strip(StripPrefix(line)), delim))
  }

  function LooksLikeCsv(line: string, fields: int, delim: char): Verdict
  {
    if |Strip(StripPrefix(line))| == 0 then Reject else RowVerdict(Cells(line, delim), fields, CellOk)
  }

  /** With the configured 24 fields `_looks_like_csv` never raises, and it
      accepts exactly a non-blank line of 24 cells each of its column's
      type. */
  lemma {:induction false} LooksLikeCsvMeans(line: string, delim: char)
    ensures LooksLikeCsv(line, CSV_FIELDS, delim) != IndexError
    ensures LooksLikeCsv(line, CSV_FIELDS, delim) == Accept <==>
      |Strip(StripPrefix(line))| > 0 && |Cells(line, delim)| == CSV_FIELDS
      && forall i :: 0 <= i < CSV_FIELDS ==> CellOk(KindOf(i), Cells(line, delim)[i])
  {
    RowVerdictMeans(Cells(line, delim), CellOk);
  }

  /** With `fields` set to 1, 2 or 3, a line of that many cells starting
      with an integer makes the check index past the cells and raise. */
  lemma {:induction false} FewFieldsRaise(line: string, fields: int, delim: char)
    requires 1 <= fields <= 3
    requires |Strip(StripPrefix(line))| > 0 && |Cells(line, delim)| == fields
    requires IsIntToken(Cells(line, delim)[0])
    ensures LooksLikeCsv(line, fields, delim) == IndexError
  {
    ShortRowRaises(Cells(line, delim), fields, CellOk);
  }

  // ---- the header ------------------------------------------------------

  /** `_write_csv_header`'s names: `CSV_HEADER`, or `col0`.. when the
      configured field count differs from its 24 names. */
  function HeaderFor(fields: int): seq<string>
  {
    if |CSV_HEADER| == fields then CSV_HEADER
    else seq(if fields < 0 then 0 else fields, i requires 0 <= i => "col" + NatToString(i))
  }

  lemma {:induction false} HeaderFallback(fields: int)
    ensures |HeaderFor(fields)| == (if fields < 0 then 0 else fields)
    ensures fields == CSV_FIELDS ==> HeaderFor(fields) == CSV_HEADER
    ensures fields != CSV_FIELDS ==>
      forall i :: 0 <= i < |HeaderFor(fields)| ==> HeaderFor(fields)[i] == "col" + NatToString(i)
  {
  }

  /** Joined, a header line starts with `t` or `c`, or is empty. */
  lemma {:induction false} HeaderStart(fields: int, delim: char)
    ensures var h := Join(HeaderFor(fields), delim);
      |h| == 0 || h[0] == 't' || h[0] == 'c'
  {
    var hs := HeaderFor(fields);
    if |hs| > 0 {
      assert |hs[0]| > 0 && (hs[0][0] == 't' || hs[0][0] == 'c');
      JoinStart(hs, delim);
    }
  }

  lemma {:induction false} JoinStart(ps: seq<string>, d: char)
    requires |ps| > 0 && |ps[0]| > 0
    ensures |Join(ps, d)| > 0 && Join(ps, d)[0] == ps[0][0]
  {
  }

  // ---- the filter state ------------------------------------------------

  datatype Config = Config(fields: int, delim: char, writeHeader: bool)

  /** The session state of the filter; `current` is meaningful while a CSV
      file is open. */
  datatype LogState = LogState(
    logging: bool,
    csvOpen: bool,
    csvLines: int,
    sessionIdx: int,
    current: seq<string>,
    closed: seq<seq<string>>)

  const MARK_ON: string := "OK LOG 1"
  const MARK_OFF: string := "OK LOG 0"

  /** A line that `rx` treats as a session marker, once its prefix and
      padding are removed. */
  predicate IsMarker(line: string)
  {
    Strip(StripPrefix(line)) == MARK_ON || Strip(StripPrefix(line)) == MARK_OFF
  }

  predicate NoMarkers(lines: seq<string>)
  {
    forall i :: 0 <= i < |lines| ==> lines[i] != MARK_ON && lines[i] != MARK_OFF
  }

  function HeaderLines(cfg: Config): nat
  {
    if cfg.writeHeader then 1 else 0
  }

  /** Logging exactly while a file is open; the open file holds its
      header and the `csvLines` records written since it was opened; one
      session per file; and no file ever holds a marker line. */
  predicate Inv(cfg: Config, st: LogState)
  {
    st.logging == st.csvOpen
    && (st.csvOpen ==> |st.current| == st.csvLines + HeaderLines(cfg))
    && (!st.csvOpen ==> st.current == [])
    && st.sessionIdx == |st.closed| + (if st.csvOpen then 1 else 0)
    && NoMarkers(st.current)
    && (forall j :: 0 <= j < |st.closed| ==> NoMarkers(st.closed[j]))
  }

  function Initial(): LogState
  {
    LogState(false, false, 0, 0, [], [])
  }

  lemma InitialInv(cfg: Config)
    ensures Inv(cfg, Initial())
  {
  }

  /** `_csv_stop`. */
  function AfterCsvStop(st: LogState): LogState
  {
    if st.csvOpen then st.(logging := false, csvOpen := false, closed := st.closed + [st.current], current := [])
    else st.(logging := false)
  }

  /** `_csv_start`: close what is open, open the next session's file and
      write the header into it. */
  function AfterCsvStart(cfg: Config, st: LogState): LogState
  {
    AfterCsvStop(st).(sessionIdx := st.sessionIdx + 1, csvOpen := true, csvLines := 0, logging := true,
                      current := if cfg.writeHeader then [Join(HeaderFor(cfg.fields), cfg.delim)] else [])
  }

  /** `_write_csv`. */
  function AfterWriteCsv(st: LogState, line: string): LogState
  {
    if !(st.logging && st.csvOpen) then st
    else st.(current := st.current + [Strip(StripPrefix(line))], csvLines := st.csvLines + 1)
  }

  datatype Handled = Handled(st: LogState, raised: bool)

  /** The body of the loop of `rx` for one complete line, given what
      `_looks_like_csv` says of it; the verdict matters only for a line
      that is not a marker. */
  function LineStep(cfg: Config, st: LogState, raw: string, v: Verdict): Handled
  {
    var line := RStripCR(raw);
    var s := Strip(StripPrefix(line));
    if s == MARK_ON then Handled(AfterCsvStart(cfg, st), false)
    else if s == MARK_OFF then Handled(AfterCsvStop(st), false)
    else match v
      case Accept => Handled(AfterWriteCsv(st, line), false)
      case Reject => Handled(st, false)
      case IndexError => Handled(st, true)
  }

  /** `_looks_like_csv` of a raw line, after `rstrip("\r")`. */
  function LineVerdict(cfg: Config, raw: string): Verdict
  {
    LooksLikeCsv(RStripCR(raw), cfg.fields, cfg.delim)
  }

  /** The same check as a value, the form the logger keeps it in. */
  function RecordCheck(cfg: Config): string -> Verdict
  {
    raw => LineVerdict(cfg, raw)
  }

  /** The body of the loop of `rx` as a value, for the record check `look`. */
  function StepOf(cfg: Config, look: string -> Verdict): (LogState, string) -> Handled
  {
    (st, raw) => LineStep(cfg, st, raw, look(raw))
  }

  lemma {:induction false} StopKeepsInv(cfg: Config, st: LogState)
    requires Inv(cfg, st)
    ensures Inv(cfg, AfterCsvStop(st)) && !AfterCsvStop(st).logging && !AfterCsvStop(st).csvOpen
    ensures AfterCsvStop(st).closed == st.closed + (if st.csvOpen then [st.current] else [])
  {
    var r := AfterCsvStop(st);
    if st.csvOpen {
      forall j | 0 <= j < |r.closed| ensures NoMarkers(r.closed[j]) {
        if j < |st.closed| {
          assert r.closed[j] == st.closed[j];
        }
      }
    }
  }

  lemma {:induction false} StartKeepsInv(cfg: Config, st: LogState)
    requires Inv(cfg, st)
    ensures Inv(cfg, AfterCsvStart(cfg, st))
    ensures AfterCsvStart(cfg, st).logging && AfterCsvStart(cfg, st).csvOpen && AfterCsvStart(cfg, st).csvLines == 0
    ensures AfterCsvStart(cfg, st).sessionIdx == st.sessionIdx + 1
    ensures |AfterCsvStart(cfg, st).current| == HeaderLines(cfg)
  {
    StopKeepsInv(cfg, st);
    HeaderStart(cfg.fields, cfg.delim);
  }

  /** `_write_csv` writes only while logging, and then exactly one line,
      the stripped record, counting it. */
  lemma {:induction false} WriteCsvCounts(cfg: Config, st: LogState, line: string)
    requires Inv(cfg, st)
    requires Strip(StripPrefix(line)) != MARK_ON && Strip(StripPrefix(line)) != MARK_OFF
    ensures var r := AfterWriteCsv(st, line);
      Inv(cfg, r)
      && (st.logging ==> r.csvLines == st.csvLines + 1
                         && r.current == st.current + [Strip(StripPrefix(line))]
                         && r.closed == st.closed && r.logging)
      && (!st.logging ==> r == st)
  {
    if st.logging {
      var l := Strip(StripPrefix(line));
      var r := AfterWriteCsv(st, line);
      assert r == st.(current := st.current + [l], csvLines := st.csvLines + 1);
      NoMarkersAppend(st.current, l);
    }
  }

  /** Writing a line that is not a marker keeps the invariant. */
  lemma WriteKeepsInv(cfg: Config, st: LogState, line: string)
    requires Inv(cfg, st) && !IsMarker(line)
    ensures Inv(cfg, AfterWriteCsv(st, line))
  {
    WriteCsvCounts(cfg, st, line);
  }

  lemma NoMarkersAppend(lines: seq<string>, l: string)
    requires NoMarkers(lines) && l != MARK_ON && l != MARK_OFF
    ensures NoMarkers(lines + [l])
  {
    assert forall i :: 0 <= i < |lines| ==> (lines + [l])[i] == lines[i];
  }

  /** A line other than a marker changes at most the open file, by
      `_write_csv`, or raises and changes nothing. */
  lemma {:induction false} RecordLine(cfg: Config, st: LogState, raw: string, v: Verdict)
    requires Strip(StripPrefix(RStripCR(raw))) != MARK_ON && Strip(StripPrefix(RStripCR(raw))) != MARK_OFF
    ensures LineStep(cfg, st, raw, v).st == (if v == Accept then AfterWriteCsv(st, RStripCR(raw)) else st)
    ensures LineStep(cfg, st, raw, v).raised <==> v == IndexError
  {
  }

  /** The three outcomes of a line, for any verdict. */
  lemma {:induction false} LineStepCases(cfg: Config, st: LogState, raw: string, v: Verdict)
    ensures var s := Strip(StripPrefix(RStripCR(raw)));
      LineStep(cfg, st, raw, v) ==
        if s == MARK_ON then Handled(AfterCsvStart(cfg, st), false)
        else if s == MARK_OFF then Handled(AfterCsvStop(st), false)
        else Handled(if v == Accept then AfterWriteCsv(st, RStripCR(raw)) else st, v == IndexError)
  {
  }

  /** One line keeps the invariant, whatever the record check says; in
      particular neither marker line is ever written, and a line that
      raises changes nothing. */
  lemma {:induction false} LineKeepsInv(cfg: Config, st: LogState, raw: string, v: Verdict)
    requires Inv(cfg, st)
    ensures Inv(cfg, LineStep(cfg, st, raw, v).st)
    ensures LineStep(cfg, st, raw, v).raised ==> LineStep(cfg, st, raw, v).st == st
  {
    var line := RStripCR(raw);
    var s := Strip(StripPrefix(line));
    if s == MARK_ON {
      StartKeepsInv(cfg, st);
    } else if s == MARK_OFF {
      StopKeepsInv(cfg, st);
    } else {
      RecordLine(cfg, st, raw, v);
      WriteCsvCounts(cfg, st, line);
    }
  }

  /** `OK LOG 1` opens the next session's fresh file with logging on;
      `OK LOG 0` closes the open one with logging off. */
  lemma {:induction false} MarkerLines(cfg: Config, st: LogState, raw: string, v: Verdict)
    requires Inv(cfg, st)
    ensures var h := LineStep(cfg, st, raw, v);
      var s := Strip(StripPrefix(RStripCR(raw)));
      (s == MARK_ON ==>
         !h.raised && h.st.logging && h.st.csvOpen && h.st.csvLines == 0
         && h.st.sessionIdx == st.sessionIdx + 1 && |h.st.current| == HeaderLines(cfg))
      && (s == MARK_OFF ==>
         !h.raised && !h.st.logging && !h.st.csvOpen
         && h.st.closed == st.closed + (if st.csvOpen then [st.current] else []))
  {
    var s := Strip(StripPrefix(RStripCR(raw)));
    if s == MARK_ON {
      StartKeepsInv(cfg, st);
    } else if s == MARK_OFF {
      StopKeepsInv(cfg, st);
    }
  }

  // ---- the loop of rx ---------------------------------------------------

  datatype Drained = Drained(st: LogState, rest: string, raised: bool)

  /** The loop of `rx` on the buffer `buf`, for any body `step`: split off
      and handle the first line while a line end remains; stop when a line
      raises. */
  function DrainWith(st: LogState, buf: string, step: (LogState, string) -> Handled): Drained
    decreases |buf|
  {
    var k := IndexOf(buf, '\n');
    if k == |buf| then Drained(st, buf, false)
    else
      var h := step(st, buf[..k]);
      if h.raised then Drained(h.st, buf[k + 1..], true)
      else DrainWith(h.st, buf[k + 1..], step)
  }

  /** One turn of the loop, and its end. */
  lemma {:induction false} DrainStep(st: LogState, buf: string, step: (LogState, string) -> Handled)
    ensures var k := IndexOf(buf, '\n');
      DrainWith(st, buf, step) ==
        if k == |buf| then Drained(st, buf, false)
        else
          var h := step(st, buf[..k]);
          if h.raised then Drained(h.st, buf[k + 1..], true) else DrainWith(h.st, buf[k + 1..], step)
  {
  }

  /** A turn of the loop that handled the first line of `buf` leaves the
      rest of the buffer to be drained from the state it reached. */
  lemma {:induction false} DrainAdvance(st0: LogState, buf: string, k: nat, line: string, rest: string,
                                        st1: LogState, raised: bool, step: (LogState, string) -> Handled)
    requires k == IndexOf(buf, '\n') && k < |buf|
    requires line == buf[..k] && rest == buf[k + 1..]
    requires Handled(st1, raised) == step(st0, line)
    ensures raised ==> DrainWith(st0, buf, step) == Drained(st1, rest, true)
    ensures !raised ==> DrainWith(st0, buf, step) == DrainWith(st1, rest, step)
  {
    DrainStep(st0, buf, step);
    assert step(st0, buf[..k]) == Handled(st1, raised);
  }

  /** The complete lines of `buf` and what follows the last line end. */
  function LinesOf(buf: string): seq<string>
    decreases |buf|
  {
    var k := IndexOf(buf, '\n');
    if k == |buf| then [] else [buf[..k]] + LinesOf(buf[k + 1..])
  }

  function TailOf(buf: string): string
    decreases |buf|
  {
    var k := IndexOf(buf, '\n');
    if k == |buf| then buf else TailOf(buf[k + 1..])
  }

  function JoinLines(lines: seq<string>): string
  {
    if |lines| == 0 then [] else lines[0] + "\n" + JoinLines(lines[1..])
  }

  /** The lines, in order, stopping at the first that raises. */
  function HandleAll(st: LogState, lines: seq<string>, step: (LogState, string) -> Handled): Handled
    decreases |lines|
  {
    if |lines| == 0 then Handled(st, false)
    else
      var h := step(st, lines[0]);
      if h.raised then h else HandleAll(h.st, lines[1..], step)
  }

  /** The buffer around its first line end. */
  lemma {:induction false} FirstLine(buf: string)
    requires IndexOf(buf, '\n') < |buf|
    ensures var k := IndexOf(buf, '\n');
      buf == buf[..k] + "\n" + buf[k + 1..]
      && '\n' !in buf[..k]
      && LinesOf(buf) == [buf[..k]] + LinesOf(buf[k + 1..])
      && TailOf(buf) == TailOf(buf[k + 1..])
  {
    var k := IndexOf(buf, '\n');
    assert buf == buf[..k] + [buf[k]] + buf[k + 1..];
    assert forall j :: 0 <= j < k ==> buf[..k][j] == buf[j];
  }

  lemma {:induction false} JoinLinesCons(l: string, ls: seq<string>)
    ensures JoinLines([l] + ls) == l + "\n" + JoinLines(ls)
  {
    assert ([l] + ls)[1..] == ls;
  }

  /** The buffer is its complete lines, each ended by `\n`, followed by
      the tail. */
  lemma {:induction false} LinesRebuild(buf: string)
    ensures JoinLines(LinesOf(buf)) + TailOf(buf) == buf
    decreases |buf|
  {
    var k := IndexOf(buf, '\n');
    if k < |buf| {
      var rest := buf[k + 1..];
      FirstLine(buf);
      LinesRebuild(rest);
      JoinLinesCons(buf[..k], LinesOf(rest));
      var j := JoinLines(LinesOf(rest));
      calc {
        JoinLines(LinesOf(buf)) + TailOf(buf);
        (buf[..k] + "\n" + j) + TailOf(rest);
        buf[..k] + "\n" + (j + TailOf(rest));
      }
    }
  }

  /** Neither the tail nor any complete line holds a line end. */
  lemma {:induction false} TailHasNoNewline(buf: string)
    ensures '\n' !in TailOf(buf)
    decreases |buf|
  {
    var k := IndexOf(buf, '\n');
    if k < |buf| {
      TailHasNoNewline(buf[k + 1..]);
    } else {
      assert forall i :: 0 <= i < |buf| ==> buf[i] != '\n';
    }
  }

  lemma {:induction false} LinesHaveNoNewline(buf: string)
    ensures forall i :: 0 <= i < |LinesOf(buf)| ==> '\n' !in LinesOf(buf)[i]
    decreases |buf|
  {
    var k := IndexOf(buf, '\n');
    if k < |buf| {
      var rest := buf[k + 1..];
      FirstLine(buf);
      LinesHaveNoNewline(rest);
      var ls := LinesOf(buf);
      forall i | 0 <= i < |ls| ensures '\n' !in ls[i] {
        if i > 0 {
          assert ls[i] == LinesOf(rest)[i - 1];
        }
      }
    }
  }

  /** `rx` handles every complete line of the buffer exactly once, in
      order, and keeps the unfinished tail for the next call; when a line
      raises, `rx` stops there, exactly when handling the lines one by one
      raises. */
  lemma {:induction false} DrainHandlesLines(st: LogState, buf: string, step: (LogState, string) -> Handled)
    ensures DrainWith(st, buf, step).raised == HandleAll(st, LinesOf(buf), step).raised
    ensures DrainWith(st, buf, step).st == HandleAll(st, LinesOf(buf), step).st
    ensures !DrainWith(st, buf, step).raised ==> DrainWith(st, buf, step).rest == TailOf(buf)
    decreases |buf|
  {
    var k := IndexOf(buf, '\n');
    if k < |buf| {
      FirstLine(buf);
      var ls := LinesOf(buf);
      assert ls[0] == buf[..k] && ls[1..] == LinesOf(buf[k + 1..]);
      var h := step(st, buf[..k]);
      if !h.raised {
        DrainHandlesLines(h.st, buf[k + 1..], step);
      }
    }
  }

  /** After a call that does not raise, the buffer holds no line end. */
  lemma {:induction false} DrainLeavesNoNewline(st: LogState, buf: string, step: (LogState, string) -> Handled)
    ensures !DrainWith(st, buf, step).raised ==> '\n' !in DrainWith(st, buf, step).rest
  {
    DrainHandlesLines(st, buf, step);
    TailHasNoNewline(buf);
  }

  /** `step` keeps the invariant. */
  ghost predicate KeepsInv(cfg: Config, step: (LogState, string) -> Handled)
  {
    forall st, raw :: Inv(cfg, st) ==> Inv(cfg, step(st, raw).st)
  }

  /** The body of the loop keeps the invariant, whatever the record check. */
  lemma {:induction false} StepKeepsInv(cfg: Config, look: string -> Verdict)
    ensures KeepsInv(cfg, StepOf(cfg, look))
  {
    forall st, raw | Inv(cfg, st)
      ensures Inv(cfg, StepOf(cfg, look)(st, raw).st)
    {
      LineKeepsInv(cfg, st, raw, look(raw));
    }
  }

  /** The loop keeps the invariant, up to the line that raises included. */
  lemma {:induction false} DrainKeepsInv(cfg: Config, st: LogState, buf: string, step: (LogState, string) -> Handled)
    requires Inv(cfg, st) && KeepsInv(cfg, step)
    ensures Inv(cfg, DrainWith(st, buf, step).st)
    decreases |buf|
  {
    var k := IndexOf(buf, '\n');
    if k < |buf| {
      var h := step(st, buf[..k]);
      if !h.raised {
        DrainKeepsInv(cfg, h.st, buf[k + 1..], step);
      }
    }
  }

  // ---- the class -------------------------------------------------------

  class RotorRigCsvLogger {
    const fields: int
    const delim: char
    const writeHeader: bool
    /** `_looks_like_csv` bound to the settings, fixed at construction. */
    const check: string -> Verdict
    var rxBuf: string
    var logging: bool
    var csvOpen: bool
    var csvLines: int
    var sessionIdx: int
    var current: seq<string>
    var closed: seq<seq<string>>

    function Cfg(): Config
    {
      Config(fields, delim, writeHeader)
    }

    function Model(): LogState
      reads this
    {
      LogState(logging, csvOpen, csvLines, sessionIdx, current, closed)
    }

    ghost predicate Valid()
      reads this
    {
      Inv(Cfg(), Model())
    }

    /** `__init__`, with the settings read from the environment as
      parameters. */
    constructor (fields0: int, delim0: char, writeHeader0: bool)
      ensures Valid() && Model() == Initial() && rxBuf == []
      ensures Cfg() == Config(fields0, delim0, writeHeader0)
      ensures check == RecordCheck(Config(fields0, delim0, writeHeader0))
    {
      fields, delim, writeHeader := fields0, delim0, writeHeader0;
      check := RecordCheck(Config(fields0, delim0, writeHeader0));
      rxBuf := [];
      logging, csvOpen := false, false;
      csvLines, sessionIdx := 0, 0;
      current, closed := [], [];
    }

    method CsvStop()
      modifies this
      ensures old(Valid()) ==> Valid()
      ensures Model() == AfterCsvStop(old(Model())) && rxBuf == old(rxBuf)
    {
      if Valid() {
        StopKeepsInv(Cfg(), Model());
      }
      logging := false;
      if csvOpen {
        closed := closed + [current];
        current := [];
        csvOpen := false;
      }
    }

    method CsvStart()
      requires Valid()
      modifies this
      ensures Valid()
      ensures Model() == AfterCsvStart(Cfg(), old(Model())) && rxBuf == old(rxBuf)
    {
      StartKeepsInv(Cfg(), Model());
      sessionIdx := sessionIdx + 1;
      CsvStop();
      csvOpen := true;
      current := [];
      csvLines := 0;
      logging := true;
      WriteCsvHeader();
    }

    method WriteCsvHeader()
      modifies this
      ensures Model() == old(Model()).(current := old(current) +
        (if writeHeader && csvOpen then [Join(HeaderFor(fields), delim)] else []))
      ensures rxBuf == old(rxBuf)
    {
      if !(writeHeader && csvOpen) {
        return;
      }
      var header := CSV_HEADER;
      if |header| != fields {
        header := seq(if fields < 0 then 0 else fields, i requires 0 <= i => "col" + NatToString(i));
      }
      current := current + [Join(header, delim)];
    }

    /** Only a line that is not a marker keeps the session invariant: `rx`
        never passes a marker here. */
    method WriteCsv(line: string)
      modifies this
      ensures old(Valid()) && !IsMarker(line) ==> Valid()
      ensures Model() == AfterWriteCsv(old(Model()), line) && rxBuf == old(rxBuf)
    {
      ghost var m := Model();
      ghost var m' := AfterWriteCsv(m, line);
      if Valid() && !IsMarker(line) {
        WriteKeepsInv(Cfg(), m, line);
      }
      if logging && csvOpen {
        var l := Strip(StripPrefix(line));
        current := current + [l];
        csvLines := csvLines + 1;
      }
      assert Model() == m';
    }

    /** The body of the loop of `rx` for one complete line; `raised`
        stands for the `IndexError` that can escape `_looks_like_csv`. */
    method RxLine(raw: string) returns (raised: bool)
      requires Valid()
      modifies this
      ensures Valid()
      ensures Handled(Model(), raised) == LineStep(Cfg(), old(Model()), raw, check(raw))
      ensures rxBuf == old(rxBuf)
    {
      LineStepCases(Cfg(), Model(), raw, check(raw));
      LineKeepsInv(Cfg(), Model(), raw, check(raw));
      var line := RStripCR(raw);
      var s := Strip(StripPrefix(line));
      raised := false;
      if s == MARK_ON {
        CsvStart();
        return;
      }
      if s == MARK_OFF {
        CsvStop();
        return;
      }
      var v := check(raw);
      if v == IndexError {
        raised := true;
        return;
      }
      if v == Accept {
        WriteCsv(line);
      }
    }

    /** `rx`: the text is returned for display unchanged; `raised` says
        the record check raised and the loop was left at that line. */
    method Rx(text: string) returns (shown: string, raised: bool)
      requires Valid()
      modifies this
      ensures Valid()
      ensures Drained(Model(), rxBuf, raised) == DrainWith(old(Model()), old(rxBuf) + text, StepOf(Cfg(), check))
      ensures !raised ==> shown == text
    {
      rxBuf := rxBuf + text;
      ghost var goal := DrainWith(Model(), rxBuf, StepOf(Cfg(), check));
      raised := false;
      shown := text;
      while !raised && IndexOf(rxBuf, '\n') < |rxBuf|
        invariant Valid()
        invariant raised ==> Drained(Model(), rxBuf, true) == goal
        invariant !raised ==> DrainWith(Model(), rxBuf, StepOf(Cfg(), check)) == goal
        decreases |rxBuf|, if raised then 0 else 1
      {
        ghost var st0, buf := Model(), rxBuf;
        var k := IndexOf(rxBuf, '\n');
        var line := rxBuf[..k];
        rxBuf := rxBuf[k + 1..];
        raised := RxLine(line);
        DrainAdvance(st0, buf, k, line, rxBuf, Model(), raised, StepOf(Cfg(), check));
      }
      if !raised {
        DrainStep(Model(), rxBuf, StepOf(Cfg(), check));
      }
    }
  }
}
