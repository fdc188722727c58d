/** The command tokenizer of `CLI::handleLine`: a line is cut at spaces into
    at most 16 tokens, runs of spaces separating them; and the ASCII
    lower-casing applied to the command word. */
module Tokenizer {
  const MAX_TOKENS: nat := 16

  /** The end of the run of non-space characters that starts at `j`. */
  function WordEnd(s: string, j: nat): (e: nat)
    requires j <= |s|
    ensures j <= e <= |s|
    ensures forall k :: j <= k < e ==> s[k] != ' '
    ensures e == |s| || s[e] == ' '
    decreases |s| - j
  {
    if j == |s| || s[j] == ' ' then j else WordEnd(s, j + 1)
  }

  /** The words of `s[i..]`: its maximal runs of non-space characters, in order. */
  function WordsFrom(s: string, i: nat): seq<string>
    requires i <= |s|
    decreases |s| - i
  {
    if i == |s| then []
    else if s[i] == ' ' then WordsFrom(s, i + 1)
    else [s[i..WordEnd(s, i)]] + WordsFrom(s, WordEnd(s, i))
  }

  function Words(s: string): seq<string>
  {
    WordsFrom(s, 0)
  }

  /** What the loop of `handleLine` keeps: the first 16 words. */
  function Tokens(s: string): (t: seq<string>)
    ensures |t| <= MAX_TOKENS
    ensures |t| <= |Words(s)| && t == Words(s)[..|t|]
    ensures |t| < MAX_TOKENS ==> t == Words(s)
  {
    var w := Words(s);
    if |w| <= MAX_TOKENS then w else w[..MAX_TOKENS]
  }

  /** `s` with its spaces deleted: the independent reference for the split. */
  function NoSpaces(s: string): string
  {
    if |s| == 0 then []
    else (if s[0] == ' ' then [] else [s[0]]) + NoSpaces(s[1..])
  }

  function Concat(ws: seq<string>): string
  {
    if |ws| == 0 then [] else ws[0] + Concat(ws[1..])
  }

  /** Every word is non-empty and holds no space. */
  lemma {:induction false} WordsShape(s: string, i: nat)
    requires i <= |s|
    ensures forall k :: 0 <= k < |WordsFrom(s, i)| ==>
      |WordsFrom(s, i)[k]| > 0 && ' ' !in WordsFrom(s, i)[k]
    decreases |s| - i
  {
    if i < |s| {
      if s[i] == ' ' {
        WordsShape(s, i + 1);
      } else {
        var e := WordEnd(s, i);
        WordsShape(s, e);
        var w := s[i..e];
        assert forall m :: 0 <= m < |w| ==> w[m] == s[i + m];
        var ws := WordsFrom(s, i);
        assert ws == [w] + WordsFrom(s, e);
        forall k | 0 <= k < |ws|
          ensures |ws[k]| > 0 && ' ' !in ws[k]
        {
          if k > 0 {
            assert ws[k] == WordsFrom(s, e)[k - 1];
          }
        }
      }
    }
  }

  lemma {:induction false} NoSpacesAppend(a: string, b: string)
    ensures NoSpaces(a + b) == NoSpaces(a) + NoSpaces(b)
    decreases |a|
  {
    if |a| > 0 {
      assert (a + b)[1..] == a[1..] + b;
      NoSpacesAppend(a[1..], b);
    } else {
      assert a + b == b;
    }
  }

  lemma {:induction false} NoSpacesOfWord(w: string)
    requires ' ' !in w
    ensures NoSpaces(w) == w
    decreases |w|
  {
    if |w| > 0 {
      assert ' ' !in w[1..] by {
        forall m | 0 <= m < |w[1..]| ensures w[1..][m] != ' ' {
          assert w[1..][m] == w[m + 1];
        }
      }
      NoSpacesOfWord(w[1..]);
      assert w == [w[0]] + w[1..];
    }
  }

  /** Joining the words gives back the line without its spaces. */
  lemma {:induction false} WordsConcat(s: string, i: nat)
    requires i <= |s|
    ensures Concat(WordsFrom(s, i)) == NoSpaces(s[i..])
    decreases |s| - i
  {
    if i == |s| {
    } else if s[i] == ' ' {
      WordsConcat(s, i + 1);
      assert s[i..][1..] == s[i + 1..];
    } else {
      var e := WordEnd(s, i);
      WordsConcat(s, e);
      var w := s[i..e];
      assert ' ' !in w by {
        forall m | 0 <= m < |w| ensures w[m] != ' ' {
          assert w[m] == s[i + m];
        }
      }
      var ws := WordsFrom(s, i);
      assert ws == [w] + WordsFrom(s, e);
      assert ws[1..] == WordsFrom(s, e);
      assert s[i..] == w + s[e..];
      NoSpacesAppend(w, s[e..]);
      NoSpacesOfWord(w);
    }
  }

  /** No word at all exactly when the rest of the line is all spaces. */
  lemma {:induction false} NoWordsIffBlank(s: string, i: nat)
    requires i <= |s|
    ensures WordsFrom(s, i) == [] <==> forall k :: i <= k < |s| ==> s[k] == ' '
    decreases |s| - i
  {
    if i < |s| && s[i] == ' ' {
      NoWordsIffBlank(s, i + 1);
    }
  }

  /** The tokens of `handleLine` are the words of the line, cut at 16: each
      non-empty and without spaces, joining into a prefix of the line's
      non-space text, all of it when fewer than 16; a line of spaces only
      has none. */
  lemma {:induction false} TokensShape(s: string)
    ensures var t := Tokens(s);
      |t| <= MAX_TOKENS
      && (forall k :: 0 <= k < |t| ==> |t[k]| > 0 && ' ' !in t[k])
      && (|t| < MAX_TOKENS ==> Concat(t) == NoSpaces(s))
      && (t == [] <==> forall k :: 0 <= k < |s| ==> s[k] == ' ')
  {
    WordsShape(s, 0);
    WordsConcat(s, 0);
    NoWordsIffBlank(s, 0);
    assert s[0..] == s;
    var t := Tokens(s);
    if |Words(s)| > 0 {
      assert t[0] == Words(s)[0];
    }
  }

  /** The loop of `handleLine`: skip spaces, take the run up to the next
      space, stop after 16 tokens. */
  method Tokenize(line: string) returns (tok: seq<string>)
    ensures tok == Tokens(line)
  {
    var toks := new string[MAX_TOKENS](_ => "");
    var n := 0;
    var i := 0;
    while i < |line| && n < MAX_TOKENS
      invariant 0 <= i <= |line| && 0 <= n <= MAX_TOKENS
      invariant n <= |Words(line)|
      invariant toks[..n] == Words(line)[..n]
      invariant WordsFrom(line, i) == Words(line)[n..]
    {
      while i < |line| && line[i] == ' '
        invariant 0 <= i <= |line|
        invariant WordsFrom(line, i) == Words(line)[n..]
      {
        i := i + 1;
      }
      if i >= |line| {
        break;
      }
      var j := i;
      while j < |line| && line[j] != ' '
        invariant i <= j <= |line|
        invariant WordEnd(line, j) == WordEnd(line, i)
      {
        j := j + 1;
      }
      assert WordsFrom(line, i) == [line[i..j]] + WordsFrom(line, j);
      NextWord(Words(line), n, line[i..j], WordsFrom(line, j));
      ghost var pre := toks[..];
      toks[n] := line[i..j];
      assert toks[..] == pre[n := line[i..j]];
      PrefixGrows(pre, n, line[i..j], Words(line));
      n := n + 1;
      i := j;
    }
    if n < MAX_TOKENS {
      assert WordsFrom(line, |line|) == [];
      assert Words(line) == Words(line)[..n];
    }
    tok := toks[..n];
  }

  /** The words still to come start with `w`, followed by `rest`. */
  lemma NextWord(ws: seq<string>, n: nat, w: string, rest: seq<string>)
    requires n <= |ws| && ws[n..] == [w] + rest
    ensures n < |ws| && ws[n] == w && ws[n + 1..] == rest
  {
    assert ws[n..][0] == ws[n];
    assert ws[n..][1..] == ws[n + 1..];
  }

  /** Storing the next word extends the stored prefix by one. */
  lemma PrefixGrows(pre: seq<string>, n: nat, w: string, ws: seq<string>)
    requires n < |pre| && n < |ws| && pre[..n] == ws[..n] && ws[n] == w
    ensures pre[n := w][..n + 1] == ws[..n + 1]
  {
    assert forall k :: 0 <= k < n ==> pre[k] == ws[k] by {
      forall k | 0 <= k < n ensures pre[k] == ws[k] {
        assert pre[..n][k] == ws[..n][k];
      }
    }
  }

  function LowerChar(c: char): char
  {
    if 'A' <= c <= 'Z' then (c as int + 32) as char else c
  }

  /** `String::toLowerCase` on ASCII text. */
  function Lower(s: string): (r: string)
    ensures |r| == |s|
    ensures forall i :: 0 <= i < |s| ==> !('A' <= r[i] <= 'Z')
    ensures forall i :: 0 <= i < |s| ==> !('A' <= s[i] <= 'Z') ==> r[i] == s[i]
    ensures forall i :: 0 <= i < |s| && 'A' <= s[i] <= 'Z' ==> r[i] as int == s[i] as int + 32
  {
    seq(|s|, i requires 0 <= i < |s| => LowerChar(s[i]))
  }
}
