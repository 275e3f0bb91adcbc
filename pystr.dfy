/** The handful of Python `str` and slice operations the router relies on:
    lower-casing, substring membership, whitespace splitting, stripping,
    joining and slicing with Python's index normalisation. */
module PyStr {

  /** `c.isspace()` in Python. */
  predicate IsSpace(c: char) {
    c == ' ' || ('\t' <= c <= '\r') || ('\U{1C}' <= c <= '\U{1F}')
    || c == '\U{85}' || c == '\U{A0}' || c == '\U{1680}'
    || ('\U{2000}' <= c <= '\U{200A}') || c == '\U{2028}' || c == '\U{2029}'
    || c == '\U{202F}' || c == '\U{205F}' || c == '\U{3000}'
  }

  /** `c.lower()` for the ASCII and Latin-1 letters (the alphabet of Portuguese). */
  function LowerChar(c: char): (d: char)
    ensures 'A' <= c <= 'Z' ==> d != c && 'a' <= d <= 'z'
    ensures !('A' <= c <= 'Z') && !('\U{C0}' <= c <= '\U{DE}') ==> d == c
  {
    if 'A' <= c <= 'Z' then (c as int + 32) as char
    else if '\U{C0}' <= c <= '\U{DE}' && c != '\U{D7}' then (c as int + 32) as char
    else c
  }

  /** `s.lower()`. */
  function Lower(s: string): (r: string)
    ensures |r| == |s|
    ensures forall i :: 0 <= i < |s| ==> r[i] == LowerChar(s[i])
  {
    seq(|s|, i requires 0 <= i < |s| => LowerChar(s[i]))
  }

  predicate StartsWith(s: string, p: string) {
    |p| <= |s| && s[..|p|] == p
  }

  /** `sub in s`: some position of `s` starts with `sub`. */
  predicate Contains(s: string, sub: string)
    decreases |s|
  {
    StartsWith(s, sub) || (|s| > 0 && Contains(s[1..], sub))
  }

  /** `c in s` for a one-character string is membership of the character. */
  lemma {:induction false} ContainsChar(s: string, c: char)
    ensures Contains(s, [c]) <==> c in s
    decreases |s|
  {
    if |s| > 0 {
      ContainsChar(s[1..], c);
      assert StartsWith(s, [c]) <==> s[0] == c;
      assert c in s <==> s[0] == c || c in s[1..];
    }
  }

  /** `sub` occurs in `s` starting at position `i`. */
  predicate OccursAt(s: string, sub: string, i: int) {
    0 <= i <= |s| - |sub| && s[i..i + |sub|] == sub
  }

  /** `Contains` is Python's `in`: some position of `s` holds `sub`. */
  lemma {:induction false} ContainsAt(s: string, sub: string)
    ensures Contains(s, sub) <==> exists i :: OccursAt(s, sub, i)
    decreases |s|
  {
    if StartsWith(s, sub) {
      assert OccursAt(s, sub, 0);
    }
    if |s| > 0 {
      ContainsAt(s[1..], sub);
      if Contains(s[1..], sub) {
        var i :| OccursAt(s[1..], sub, i);
        assert s[i + 1..i + 1 + |sub|] == s[1..][i..i + |sub|];
        assert OccursAt(s, sub, i + 1);
      }
      if exists i :: OccursAt(s, sub, i) {
        var i :| OccursAt(s, sub, i);
        if i > 0 {
          assert s[1..][i - 1..i - 1 + |sub|] == s[i..i + |sub|];
          assert OccursAt(s[1..], sub, i - 1);
        } else {
          assert StartsWith(s, sub);
        }
      }
    } else {
      if exists i :: OccursAt(s, sub, i) {
        var i :| OccursAt(s, sub, i);
        assert i == 0 && sub == s[0..0] == s;
        assert StartsWith(s, sub);
      }
    }
  }

  /** Python's whitespace-delimited token: non-empty, no whitespace in it. */
  predicate IsWord(w: string) {
    |w| > 0 && forall i :: 0 <= i < |w| ==> !IsSpace(w[i])
  }

  /** Length of the run of non-whitespace characters that starts `s`. */
  function TokenLen(s: string): (n: nat)
    ensures n <= |s|
    ensures forall i :: 0 <= i < n ==> !IsSpace(s[i])
    ensures n < |s| ==> IsSpace(s[n])
    decreases |s|
  {
    if |s| == 0 || IsSpace(s[0]) then 0 else 1 + TokenLen(s[1..])
  }

  /** `s.split()` with no separator: the maximal runs of non-whitespace. */
  function Words(s: string): (ws: seq<string>)
    ensures forall k :: 0 <= k < |ws| ==> IsWord(ws[k])
    decreases |s|
  {
    if |s| == 0 then []
    else if IsSpace(s[0]) then Words(s[1..])
    else
      var n := TokenLen(s);
      [s[..n]] + Words(s[n..])
  }

  /** `s.split()` is empty exactly when `s` is all whitespace. */
  lemma {:induction false} WordsEmpty(s: string)
    ensures Words(s) == [] <==> forall i :: 0 <= i < |s| ==> IsSpace(s[i])
    decreases |s|
  {
    if |s| > 0 && IsSpace(s[0]) {
      WordsEmpty(s[1..]);
      assert forall i :: 1 <= i < |s| ==> s[i] == s[1..][i - 1];
    }
  }

  /** `sep.join(parts)`. */
  function Join(sep: string, parts: seq<string>): string
    decreases |parts|
  {
    if |parts| == 0 then ""
    else if |parts| == 1 then parts[0]
    else parts[0] + sep + Join(sep, parts[1..])
  }

  lemma WordsAfterWord(w: string, rest: string)
    requires IsWord(w)
    requires |rest| > 0 && IsSpace(rest[0])
    ensures Words(w + rest) == [w] + Words(rest)
  {
    var s := w + rest;
    TokenLenOfWord(w, rest);
    assert s[..|w|] == w;
    assert s[|w|..] == rest;
  }

  lemma {:induction false} TokenLenOfWord(w: string, rest: string)
    requires forall i :: 0 <= i < |w| ==> !IsSpace(w[i])
    requires |rest| == 0 || IsSpace(rest[0])
    ensures TokenLen(w + rest) == |w|
    decreases |w|
  {
    if |w| > 0 {
      assert (w + rest)[1..] == w[1..] + rest;
      TokenLenOfWord(w[1..], rest);
    }
  }

  /** Splitting the single-space join of tokens gives the tokens back. */
  lemma {:induction false} WordsOfJoin(ws: seq<string>)
    requires forall k :: 0 <= k < |ws| ==> IsWord(ws[k])
    ensures Words(Join(" ", ws)) == ws
    decreases |ws|
  {
    if |ws| == 1 {
      TokenLenOfWord(ws[0], "");
      assert ws[0] + "" == ws[0];
      assert ws[0][..|ws[0]|] == ws[0];
      assert ws[0][|ws[0]|..] == "";
    } else if |ws| > 1 {
      WordsOfJoin(ws[1..]);
      var tail := Join(" ", ws[1..]);
      assert Join(" ", ws) == ws[0] + (" " + tail);
      WordsAfterWord(ws[0], " " + tail);
      WordsAfterSpace(tail);
    }
  }

  /** A leading space adds no word. */
  lemma WordsAfterSpace(s: string)
    ensures Words(" " + s) == Words(s)
  {
    assert (" " + s)[1..] == s;
  }

  /** `s.split(sep)` for a one-character separator: always at least one piece. */
  function SplitOn(s: string, sep: char): (parts: seq<string>)
    ensures |parts| >= 1
    decreases |s|
  {
    if |s| == 0 then [""]
    else
      var rest := SplitOn(s[1..], sep);
      if s[0] == sep then [""] + rest else [[s[0]] + rest[0]] + rest[1..]
  }

  /** The first piece of `s.split(sep)`: everything before the first `sep`. */
  lemma {:induction false} SplitOnHead(s: string, sep: char)
    ensures sep !in s ==> SplitOn(s, sep) == [s]
    ensures forall i :: 0 <= i < |s| && s[i] == sep && sep !in s[..i] ==> SplitOn(s, sep)[0] == s[..i]
    decreases |s|
  {
    if |s| > 0 {
      SplitOnHead(s[1..], sep);
      forall i | 0 <= i < |s| && s[i] == sep && sep !in s[..i]
        ensures SplitOn(s, sep)[0] == s[..i]
      {
        if i > 0 {
          assert s[1..][i - 1] == sep;
          assert s[1..][..i - 1] == s[1..i];
          assert sep !in s[1..i];
          assert s[..i] == [s[0]] + s[1..i];
        }
      }
      if sep !in s {
        assert sep !in s[1..];
        assert s == [s[0]] + s[1..];
      }
    }
  }

  function LStrip(s: string): string
    decreases |s|
  {
    if |s| > 0 && IsSpace(s[0]) then LStrip(s[1..]) else s
  }

  function RStrip(s: string): string
    decreases |s|
  {
    if |s| > 0 && IsSpace(s[|s| - 1]) then RStrip(s[..|s| - 1]) else s
  }

  /** `s.strip()`. */
  function Strip(s: string): string {
    RStrip(LStrip(s))
  }

  /** `s.replace(c, "")` for a single character `c`. */
  function RemoveAll(s: string, c: char): (r: string)
    ensures c !in r
    ensures |r| <= |s|
    decreases |s|
  {
    if |s| == 0 then ""
    else if s[0] == c then RemoveAll(s[1..], c)
    else [s[0]] + RemoveAll(s[1..], c)
  }

  /** Removing a character the string does not hold leaves it unchanged. */
  lemma {:induction false} RemoveAbsent(s: string, c: char)
    requires c !in s
    ensures RemoveAll(s, c) == s
    decreases |s|
  {
    if |s| > 0 {
      assert c !in s[1..];
      RemoveAbsent(s[1..], c);
      assert s == [s[0]] + s[1..];
    }
  }

  /** Python's normalisation of a slice bound against a length `n`. */
  function SliceBound(i: int, n: nat): (b: nat)
    ensures b <= n
  {
    if i < 0 then (if i + n < 0 then 0 else i + n)
    else if i > n then n
    else i
  }

  /** `s[start:stop]` in Python, with negative and out-of-range bounds. */
  function PySlice<T>(s: seq<T>, start: int, stop: int): (r: seq<T>)
    ensures |r| <= |s|
  {
    var a := SliceBound(start, |s|);
    var b := SliceBound(stop, |s|);
    if a < b then s[a..b] else []
  }

  /** The last `n` elements of `s`: the list trimmed with `s[-n:]` when
      `len(s) > n`. */
  function Last<T>(s: seq<T>, n: nat): (r: seq<T>)
    ensures |r| == if |s| <= n then |s| else n
    ensures r == s[|s| - |r|..]
  {
    if |s| <= n then s else s[|s| - n..]
  }

  /** Number of characters of `s` that belong to `cs` (`len(re.findall("[...]", s))`). */
  function CountChars(s: string, cs: set<char>): (n: nat)
    ensures n <= |s|
    decreases |s|
  {
    if |s| == 0 then 0 else (if s[0] in cs then 1 else 0) + CountChars(s[1..], cs)
  }

  function DigitChar(d: nat): char
    requires d < 10
  {
    ('0' as int + d) as char
  }

  /** `str(n)` for a natural number. */
  function NatToString(n: nat): (s: string)
    ensures |s| > 0
    decreases n
  {
    if n < 10 then [DigitChar(n)] else NatToString(n / 10) + [DigitChar(n % 10)]
  }

  /** No entry of `s` occurs twice. */
  predicate NoRepeats<T(==)>(s: seq<T>)
    decreases |s|
  {
    |s| == 0 || (s[0] !in s[1..] && NoRepeats(s[1..]))
  }

  /** The keywords of `kws` that occur in `text` as substrings. */
  function Present(text: string, kws: seq<string>): set<string> {
    set k | k in kws && Contains(text, k)
  }

  /** `any(k in text for k in kws)`. */
  predicate AnyIn(text: string, kws: seq<string>) {
    exists i :: 0 <= i < |kws| && Contains(text, kws[i])
  }

  /** `sum(1 for k in kws if k in text)`: entries of the list that occur. */
  function CountIn(text: string, kws: seq<string>): (n: nat)
    ensures n <= |kws|
    ensures n > 0 <==> AnyIn(text, kws)
    decreases |kws|
  {
    if |kws| == 0 then 0
    else
      var rest := CountIn(text, kws[1..]);
      assert AnyIn(text, kws[1..]) ==> AnyIn(text, kws) by {
        if AnyIn(text, kws[1..]) {
          var i :| 0 <= i < |kws[1..]| && Contains(text, kws[1..][i]);
          assert kws[i + 1] == kws[1..][i];
        }
      }
      assert AnyIn(text, kws) && !Contains(text, kws[0]) ==> AnyIn(text, kws[1..]) by {
        if AnyIn(text, kws) && !Contains(text, kws[0]) {
          var i :| 0 <= i < |kws| && Contains(text, kws[i]);
          assert i > 0 && kws[1..][i - 1] == kws[i];
        }
      }
      (if Contains(text, kws[0]) then 1 else 0) + rest
  }

  /** For a list without repeats the count is the number of distinct keywords present. */
  lemma {:induction false} CountInPresent(text: string, kws: seq<string>)
    requires NoRepeats(kws)
    ensures CountIn(text, kws) == |Present(text, kws)|
    decreases |kws|
  {
    if |kws| > 0 {
      CountInPresent(text, kws[1..]);
      var k := kws[0];
      var rest := Present(text, kws[1..]);
      assert k !in rest;
      if Contains(text, k) {
        assert Present(text, kws) == rest + {k};
      } else {
        assert Present(text, kws) == rest;
      }
    } else {
      assert Present(text, kws) == {};
    }
  }
}
