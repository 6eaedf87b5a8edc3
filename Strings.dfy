/** The few Python string operations the control protocol relies on:
    `str.isspace` on one character, `rstrip()`, `lstrip()`, `strip()`,
    `split()` with no separator, and `split(sep, 1)`. */
module Strings {
  import opened Wrappers

  /** The characters Python's `str.isspace` accepts (the same set that
      `strip()`, `rstrip()` and `split()` with no argument treat as blanks). */
  predicate IsSpace(c: char) {
    if c <= ' ' then
      c == ' ' || ('\t' <= c <= '\r') || ('\U{1c}' <= c <= '\U{1f}')
    else if c < '\U{85}' then false
    else
      || c == '\U{85}'
      || c == '\U{a0}'
      || c == '\U{1680}'
      || ('\U{2000}' <= c <= '\U{200a}')
      || c == '\U{2028}'
      || c == '\U{2029}'
      || c == '\U{202f}'
      || c == '\U{205f}'
      || c == '\U{3000}'
  }

  predicate AllSpace(s: string) {
    forall i :: 0 <= i < |s| ==> IsSpace(s[i])
  }

  /** A token produced by `split()`: non-empty, with no blank inside. */
  predicate IsWord(w: string) {
    w != [] && forall i :: 0 <= i < |w| ==> !IsSpace(w[i])
  }

  /** `s.rstrip()`: the longest prefix of `s` that does not end in a blank. */
  function RStrip(s: string): (r: string)
    ensures r == [] || !IsSpace(r[|r| - 1])
  {
    if s == [] || !IsSpace(s[|s| - 1]) then s else RStrip(s[..|s| - 1])
  }

  /** What `rstrip()` removes is a run of blanks at the end, and nothing
      else. */
  lemma {:induction false} RStripSpec(s: string)
    ensures |RStrip(s)| <= |s| && RStrip(s) == s[..|RStrip(s)|]
    ensures AllSpace(s[|RStrip(s)|..])
  {
    if s != [] && IsSpace(s[|s| - 1]) {
      var t := s[..|s| - 1];
      RStripSpec(t);
      assert t[..|RStrip(t)|] == s[..|RStrip(t)|];
      assert forall i :: |RStrip(t)| <= i < |s| ==> IsSpace(s[i]) by {
        forall i | |RStrip(t)| <= i < |s| ensures IsSpace(s[i]) {
          if i < |t| {
            assert t[|RStrip(t)|..][i - |RStrip(t)|] == s[i];
          }
        }
      }
    }
  }

  /** `s.lstrip()`: the longest suffix of `s` that does not start with a blank. */
  function LStrip(s: string): (r: string)
    ensures r == [] || !IsSpace(r[0])
  {
    if s == [] || !IsSpace(s[0]) then s else LStrip(s[1..])
  }

  /** What `lstrip()` removes is a run of blanks at the start, and nothing
      else. */
  lemma {:induction false} LStripSpec(s: string)
    ensures |LStrip(s)| <= |s| && LStrip(s) == s[|s| - |LStrip(s)|..]
    ensures AllSpace(s[..|s| - |LStrip(s)|])
  {
    if s != [] && IsSpace(s[0]) {
      LStripSpec(s[1..]);
      var k := |s| - |LStrip(s)|;
      assert s[1..][..k - 1] == s[1..k];
      assert forall i :: 1 <= i < k ==> s[1..k][i - 1] == s[i];
    }
  }

  /** `s.strip()`. */
  function Strip(s: string): string {
    LStrip(RStrip(s))
  }

  /** `strip()` keeps one slice of its input: only blanks lie outside it, and
      the slice neither starts nor ends with a blank. */
  lemma StripSpec(s: string)
    ensures exists i, j ::
      0 <= i <= j <= |s| && Strip(s) == s[i..j] && AllSpace(s[..i]) && AllSpace(s[j..])
    ensures Strip(s) == [] || (!IsSpace(Strip(s)[0]) && !IsSpace(Strip(s)[|Strip(s)| - 1]))
  {
    var r := RStrip(s);
    RStripSpec(s);
    LStripSpec(r);
    var j := |r|;
    var i := |r| - |LStrip(r)|;
    assert s[i..j] == r[i..];
    assert s[..i] == r[..i];
    var t := LStrip(r);
    if t != [] {
      assert t[|t| - 1] == r[|r| - 1];
    }
  }

  /** The length of the run of non-blank characters that starts `s`. */
  function WordLen(s: string): (n: nat)
    ensures n <= |s|
    ensures forall i :: 0 <= i < n ==> !IsSpace(s[i])
    ensures n == |s| || IsSpace(s[n])
  {
    if s == [] || IsSpace(s[0]) then 0 else 1 + WordLen(s[1..])
  }

  /** `s.split()`: the maximal runs of non-blank characters, in order. */
  function Words(s: string): seq<string>
    decreases |s|
  {
    if s == [] then []
    else if IsSpace(s[0]) then Words(s[1..])
    else
      var n := WordLen(s);
      [s[..n]] + Words(s[n..])
  }

  /** Every piece `split()` returns is a word. */
  lemma {:induction false} WordsAreWords(s: string)
    ensures forall k :: 0 <= k < |Words(s)| ==> IsWord(Words(s)[k])
    decreases |s|
  {
    if s != [] {
      if IsSpace(s[0]) {
        WordsAreWords(s[1..]);
      } else {
        WordsAreWords(s[WordLen(s)..]);
      }
    }
  }

  /** `s.split(sep, 1)`: the text before the first `sep`, and the text after
      it when there is one. */
  function SplitFirst(s: string, sep: char): (r: (string, Option<string>))
    ensures r.1.Some? <==> sep in s
  {
    if s == [] then (s, None)
    else if s[0] == sep then ([], Some(s[1..]))
    else
      var (h, t) := SplitFirst(s[1..], sep);
      assert sep in s <==> sep in s[1..] by {
        assert s == [s[0]] + s[1..];
      }
      ([s[0]] + h, t)
  }

  /** The first part holds no separator; without a separator it is the whole
      string, with one the string is the first part, the separator and the
      rest. */
  lemma {:induction false} SplitFirstSpec(s: string, sep: char)
    ensures sep !in SplitFirst(s, sep).0
    ensures SplitFirst(s, sep).1.None? ==> SplitFirst(s, sep).0 == s
    ensures SplitFirst(s, sep).1.Some? ==>
      s == SplitFirst(s, sep).0 + [sep] + SplitFirst(s, sep).1.value
  {
    if s != [] && s[0] != sep {
      SplitFirstSpec(s[1..], sep);
      var (h, t) := SplitFirst(s[1..], sep);
      assert t.Some? ==> s == [s[0]] + h + [sep] + t.value;
    }
  }

  /** Splitting on the first separator undoes joining with a separator, as
      long as the first part holds none; what follows may hold any number. */
  lemma {:induction false} SplitFirstJoin(a: string, sep: char, b: string)
    requires sep !in a
    ensures SplitFirst(a + [sep] + b, sep) == (a, Some(b))
  {
    if a == [] {
      assert a + [sep] + b == [sep] + b;
    } else {
      var s := a + [sep] + b;
      SplitFirstJoin(a[1..], sep, b);
      assert s[0] == a[0] != sep;
      assert s[1..] == a[1..] + [sep] + b;
      assert [a[0]] + a[1..] == a;
    }
  }

  /** `rstrip()` leaves a string that does not end in a blank as it is, so
      stripping twice is stripping once. */
  lemma RStripIdempotent(s: string)
    ensures RStrip(RStrip(s)) == RStrip(s)
  {
  }

  /** Trailing blanks do not change what `rstrip()` returns. */
  lemma {:induction false} RStripAppendSpace(s: string, t: string)
    requires AllSpace(t)
    ensures RStrip(s + t) == RStrip(s)
  {
    if t != [] {
      assert (s + t)[..|s + t| - 1] == s + t[..|t| - 1];
      RStripAppendSpace(s, t[..|t| - 1]);
    } else {
      assert s + t == s;
    }
  }

  /** `split()` finds no word exactly when the string is all blanks. */
  lemma {:induction false} WordsEmptyIff(s: string)
    ensures Words(s) == [] <==> AllSpace(s)
    decreases |s|
  {
    if s != [] && IsSpace(s[0]) {
      WordsEmptyIff(s[1..]);
      assert forall i :: 1 <= i < |s| ==> s[1..][i - 1] == s[i];
    }
  }

  /** A string that does not end in a blank and is not empty has a word; this
      is why `args.split()[0]` is safe on the output of `rstrip()`. */
  lemma StrippedHasWord(s: string)
    requires s != [] && !IsSpace(s[|s| - 1])
    ensures Words(s) != []
  {
    WordsEmptyIff(s);
  }

  /** A word followed by a blank (or by nothing) is the first result of
      `split()`, and the rest is split independently. */
  lemma {:induction false} WordsCons(w: string, rest: string)
    requires IsWord(w)
    requires rest == [] || IsSpace(rest[0])
    ensures Words(w + rest) == [w] + Words(rest)
  {
    var s := w + rest;
    var n := WordLen(s);
    assert forall i :: 0 <= i < |w| ==> s[i] == w[i];
    assert rest != [] ==> s[|w|] == rest[0];
    assert n == |w|;
    assert s[..n] == w;
    assert s[n..] == rest;
  }

  /** `split()` of one word is that word alone. */
  lemma WordsSingle(w: string)
    requires IsWord(w)
    ensures Words(w) == [w]
  {
    WordsCons(w, []);
    assert w + [] == w;
  }

  /** A word, one space and any text split into that word followed by the
      words of the text. */
  lemma WordsJoin(w: string, s: string)
    requires IsWord(w)
    ensures Words(w + " " + s) == [w] + Words(s)
  {
    var r := " " + s;
    assert w + " " + s == w + r;
    assert IsSpace(r[0]);
    WordsCons(w, r);
    assert r[1..] == s;
  }

  /** `split()` of two words joined by one space gives back both words. */
  lemma WordsPair(a: string, b: string)
    requires IsWord(a) && IsWord(b)
    ensures Words(a + " " + b) == [a, b]
  {
    WordsJoin(a, b);
    WordsSingle(b);
  }

  /** A blank in front changes nothing that `split()` returns. */
  lemma WordsSkipBlank(c: char, s: string)
    requires IsSpace(c)
    ensures Words([c] + s) == Words(s)
  {
    assert ([c] + s)[1..] == s;
  }

  /** Words joined by single spaces, as `' '.join(ws)`. */
  function Unwords(ws: seq<string>): string {
    if ws == [] then []
    else if |ws| == 1 then ws[0]
    else ws[0] + " " + Unwords(ws[1..])
  }

  /** `split()` undoes joining any sequence of words with single spaces. */
  lemma {:induction false} WordsUnwords(ws: seq<string>)
    requires forall k :: 0 <= k < |ws| ==> IsWord(ws[k])
    ensures Words(Unwords(ws)) == ws
  {
    if |ws| == 1 {
      WordsSingle(ws[0]);
    } else if |ws| > 1 {
      WordsUnwords(ws[1..]);
      WordsJoin(ws[0], Unwords(ws[1..]));
      assert [ws[0]] + ws[1..] == ws;
    }
  }

  /** `split()` of three words joined by single spaces gives back all three. */
  lemma WordsTriple(a: string, b: string, c: string)
    requires IsWord(a) && IsWord(b) && IsWord(c)
    ensures Words(a + " " + b + " " + c) == [a, b, c]
  {
    assert a + " " + b + " " + c == a + " " + (b + " " + c);
    WordsJoin(a, b + " " + c);
    WordsPair(b, c);
  }
}
