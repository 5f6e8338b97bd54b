/** Shared vocabulary of the model: optional values, file paths, and the few
    string operations of Python's `str` that the pipeline relies on
    (`in` on strings, `lower`, `strip`, `startswith`, decimal formatting). */
module Common {

  datatype Option<+T> = None | Some(value: T) {
    function GetOr(default: T): T {
      match this
      case Some(v) => v
      case None => default
    }
  }

  /** A file-system path, as Python passes it around: a plain string. */
  type Path = string

  /** One entry of `VideoProcessor.captions`, the dictionary built per Whisper
      segment: start and end in integer milliseconds, the stripped text, and the
      segment's `avg_logprob` as its confidence. */
  datatype Caption = Caption(start: nat, end: nat, text: string, confidence: real)

  /** Python truthiness of an `Optional[str]` field: `None` and `""` are both falsy. */
  predicate Present(p: Option<Path>) {
    p.Some? && p.value != ""
  }

  /** Python's `a or b` on optional paths: one of the two, usable exactly
      when either is, and never the second while the first is usable. */
  function OrElse(a: Option<Path>, b: Option<Path>): (r: Option<Path>)
    ensures r == a || r == b
    ensures Present(r) <==> Present(a) || Present(b)
    ensures Present(a) ==> r == a
  {
    if Present(a) then a else b
  }

  // ---------------------------------------------------------------------
  // Substrings

  /** Python's `w in text` for strings: `w` occurs somewhere in `text`. */
  predicate Contains(text: string, w: string)
    decreases |text|
  {
    |w| <= |text| && (text[..|w|] == w || Contains(text[1..], w))
  }

  /** An occurrence of `w` at index `i` is enough to make `w in text` true. */
  lemma {:induction false} ContainsAt(text: string, w: string, i: nat)
    requires i + |w| <= |text| && text[i..i + |w|] == w
    ensures Contains(text, w)
    decreases i
  {
    if i > 0 {
      assert text[1..][i - 1..i - 1 + |w|] == text[i..i + |w|];
      ContainsAt(text[1..], w, i - 1);
    }
  }

  /** Conversely, `w in text` gives an index where `w` occurs. */
  lemma {:induction false} ContainsWitness(text: string, w: string) returns (i: nat)
    requires Contains(text, w)
    ensures i + |w| <= |text| && text[i..i + |w|] == w
    decreases |text|
  {
    if text[..|w|] == w {
      i := 0;
    } else {
      var j := ContainsWitness(text[1..], w);
      assert text[1..][j..j + |w|] == text[j + 1..j + 1 + |w|];
      i := j + 1;
    }
  }

  /** Index of the first `ch` in `s`. */
  function FirstIndexOf(s: string, ch: char): (r: Option<nat>)
    ensures r.Some? ==> r.value < |s| && s[r.value] == ch && forall k :: 0 <= k < r.value ==> s[k] != ch
    ensures r.None? ==> ch !in s
  {
    if s == [] then None
    else if s[0] == ch then Some(0)
    else match FirstIndexOf(s[1..], ch)
      case None => None
      case Some(i) => Some(i + 1)
  }

  /** Index of the last `ch` in `s`. */
  function LastIndexOf(s: string, ch: char): (r: Option<nat>)
    ensures r.Some? ==> r.value < |s| && s[r.value] == ch && forall k :: r.value < k < |s| ==> s[k] != ch
    ensures r.None? ==> ch !in s
  {
    if s == [] then None
    else if s[|s| - 1] == ch then Some(|s| - 1)
    else LastIndexOf(s[..|s| - 1], ch)
  }

  /** Python's `s.startswith(p)`. */
  predicate StartsWith(s: string, p: string) {
    |p| <= |s| && s[..|p|] == p
  }

  /** Python's `next((e for e in xs if e.startswith(p)), None)`: the first
      element of `xs` that starts with `p`. */
  function FirstWithPrefix(xs: seq<string>, p: string): Option<string>
  {
    if xs == [] then None
    else if StartsWith(xs[0], p) then Some(xs[0])
    else FirstWithPrefix(xs[1..], p)
  }

  /** `None` exactly when no element starts with `p`; otherwise the element
      at the first index that does. */
  lemma {:induction false} FirstWithPrefixSpec(xs: seq<string>, p: string) returns (k: nat)
    ensures FirstWithPrefix(xs, p).None? <==> (forall j :: 0 <= j < |xs| ==> !StartsWith(xs[j], p))
    ensures FirstWithPrefix(xs, p).Some? ==>
      k < |xs| && xs[k] == FirstWithPrefix(xs, p).value && StartsWith(xs[k], p) &&
      forall j :: 0 <= j < k ==> !StartsWith(xs[j], p)
  {
    if xs == [] {
      k := 0;
    } else if StartsWith(xs[0], p) {
      k := 0;
    } else {
      var k' := FirstWithPrefixSpec(xs[1..], p);
      assert forall j :: 1 <= j < |xs| ==> xs[j] == xs[1..][j - 1];
      k := k' + 1;
    }
  }

  /** Number of occurrences of `ch` in `s`. */
  function Count(s: string, ch: char): nat
  {
    if s == [] then 0 else Count(s[..|s| - 1], ch) + (if s[|s| - 1] == ch then 1 else 0)
  }

  /** `s.replace(ch, rep)` for a one-character pattern. */
  function Replace(s: string, ch: char, rep: string): string
  {
    if s == [] then [] else Replace(s[..|s| - 1], ch, rep) + (if s[|s| - 1] == ch then rep else [s[|s| - 1]])
  }

  /** Replacing `ch` by `rep` changes the length by `|rep| - 1` per occurrence. */
  lemma {:induction false} ReplaceLength(s: string, ch: char, rep: string)
    ensures |Replace(s, ch, rep)| == |s| - Count(s, ch) + |rep| * Count(s, ch)
  {
    if s != [] {
      var init := s[..|s| - 1];
      ReplaceLength(init, ch, rep);
      if s[|s| - 1] == ch {
        assert Count(s, ch) == Count(init, ch) + 1;
        assert |rep| * Count(s, ch) == |rep| * Count(init, ch) + |rep|;
      }
    }
  }

  /** Removing `ch` leaves no `ch` and keeps every other character. */
  lemma {:induction false} RemoveAll(s: string, ch: char)
    ensures ch !in Replace(s, ch, "")
    ensures forall c :: c != ch ==> (c in s <==> c in Replace(s, ch, ""))
  {
    if s != [] {
      RemoveAll(s[..|s| - 1], ch);
      assert s == s[..|s| - 1] + [s[|s| - 1]];
    }
  }

  /** Replacing one character by a string free of another character leaves the other's count alone. */
  lemma {:induction false} ReplaceCountOther(s: string, ch: char, rep: string, other: char)
    requires other != ch && other !in rep
    ensures Count(Replace(s, ch, rep), other) == Count(s, other)
  {
    if s != [] {
      ReplaceCountOther(s[..|s| - 1], ch, rep, other);
      CountAppend(Replace(s[..|s| - 1], ch, rep), if s[|s| - 1] == ch then rep else [s[|s| - 1]], other);
      CountAbsent(rep, other);
      assert Count([s[|s| - 1]], other) == if s[|s| - 1] == other then 1 else 0 by {
        assert [s[|s| - 1]][..0] == [];
      }
    }
  }

  lemma {:induction false} CountAbsent(s: string, ch: char)
    requires ch !in s
    ensures Count(s, ch) == 0
  {
    if s != [] {
      CountAbsent(s[..|s| - 1], ch);
    }
  }

  lemma {:induction false} CountAppend(a: string, b: string, ch: char)
    ensures Count(a + b, ch) == Count(a, ch) + Count(b, ch)
    decreases |b|
  {
    if b != [] {
      assert (a + b)[..|a + b| - 1] == a + b[..|b| - 1];
      CountAppend(a, b[..|b| - 1], ch);
    } else {
      assert a + b == a;
    }
  }

  // ---------------------------------------------------------------------
  // Case and white space

  /** `str.lower()` on one character; only the ASCII letters are mapped. */
  function LowerChar(c: char): char {
    if 'A' <= c <= 'Z' then (c as int - 'A' as int + 'a' as int) as char else c
  }

  function Lower(s: string): (r: string)
    ensures |r| == |s|
    ensures forall k :: 0 <= k < |s| ==> r[k] == LowerChar(s[k])
  {
    seq(|s|, k requires 0 <= k < |s| => LowerChar(s[k]))
  }

  /** After `lower()` no capital letter is left and lowering again changes
      nothing; characters other than letters come through unchanged. */
  lemma LowerNormalises(s: string)
    ensures forall k :: 0 <= k < |Lower(s)| ==> !('A' <= Lower(s)[k] <= 'Z')
    ensures Lower(Lower(s)) == Lower(s)
    ensures forall k :: 0 <= k < |s| && !('A' <= s[k] <= 'Z') ==> Lower(s)[k] == s[k]
  {
  }

  /** The characters for which Python's `str.isspace()` holds, the ones
      `str.strip()` removes: the Unicode white space and the four ASCII
      separators U+001C..U+001F. */
  predicate IsSpace(c: char) {
    c == ' ' || '\t' <= c <= '\r' || '\U{1C}' <= c <= '\U{1F}' || c == '\U{85}' || c == '\U{A0}' ||
    c == '\U{1680}' || '\U{2000}' <= c <= '\U{200A}' || c == '\U{2028}' || c == '\U{2029}' ||
    c == '\U{202F}' || c == '\U{205F}' || c == '\U{3000}'
  }

  function StripLeft(s: string): (r: string)
    ensures |r| <= |s|
  {
    if s != [] && IsSpace(s[0]) then StripLeft(s[1..]) else s
  }

  function StripRight(s: string): (r: string)
    ensures |r| <= |s|
  {
    if s != [] && IsSpace(s[|s| - 1]) then StripRight(s[..|s| - 1]) else s
  }

  /** `str.strip()`: drop leading and trailing white space. */
  function Strip(s: string): (r: string)
  {
    StripRight(StripLeft(s))
  }

  /** `lstrip` keeps a suffix that does not start with white space and drops only white space. */
  lemma {:induction false} StripLeftSuffix(s: string)
    ensures var r := StripLeft(s);
      r == s[|s| - |r|..] && (r == [] || !IsSpace(r[0])) && forall k :: 0 <= k < |s| - |r| ==> IsSpace(s[k])
  {
    if s != [] && IsSpace(s[0]) {
      var t := s[1..];
      StripLeftSuffix(t);
      assert s[|s| - |StripLeft(t)|..] == t[|t| - |StripLeft(t)|..];
      forall k | 1 <= k < |s| - |StripLeft(t)|
        ensures IsSpace(s[k])
      {
        assert s[k] == t[k - 1];
      }
    }
  }

  /** `rstrip` keeps a prefix that does not end with white space and drops only white space. */
  lemma {:induction false} StripRightPrefix(s: string)
    ensures var r := StripRight(s);
      r == s[..|r|] && (r == [] || !IsSpace(r[|r| - 1])) && forall k :: |r| <= k < |s| ==> IsSpace(s[k])
  {
    if s != [] && IsSpace(s[|s| - 1]) {
      var t := s[..|s| - 1];
      StripRightPrefix(t);
      assert s[..|StripRight(t)|] == t[..|StripRight(t)|];
      forall k | |StripRight(t)| <= k < |t|
        ensures IsSpace(s[k])
      {
        assert s[k] == t[k];
      }
    }
  }

  /** What `strip` promises: the result is a slice of the input that neither
      starts nor ends with white space, and everything cut off is white space. */
  lemma StripIsTrimmedSlice(s: string) returns (i: nat)
    ensures i + |Strip(s)| <= |s| && Strip(s) == s[i..i + |Strip(s)|]
    ensures forall k :: 0 <= k < i ==> IsSpace(s[k])
    ensures forall k :: i + |Strip(s)| <= k < |s| ==> IsSpace(s[k])
    ensures Strip(s) == [] || (!IsSpace(Strip(s)[0]) && !IsSpace(Strip(s)[|Strip(s)| - 1]))
  {
    var l := StripLeft(s);
    var r := StripRight(l);
    StripLeftSuffix(s);
    StripRightPrefix(l);
    i := |s| - |l|;
    assert r == s[i..i + |r|];
    forall k | i + |r| <= k < |s|
      ensures IsSpace(s[k])
    {
      assert s[k] == l[k - i];
    }
    if r != [] {
      assert r[0] == l[0];
    }
  }

  // ---------------------------------------------------------------------
  // Decimal numerals

  function DigitChar(d: nat): (c: char)
    requires d < 10
    ensures '0' <= c <= '9'
  {
    ('0' as int + d) as char
  }

  predicate IsDigit(c: char) { '0' <= c <= '9' }

  function DigitValue(c: char): nat
    requires IsDigit(c)
  {
    c as int - '0' as int
  }

  /** Python's `str(n)` / `f"{n}"` for a natural number. */
  function Decimal(n: nat): (s: string)
    ensures |s| >= 1
    ensures forall k :: 0 <= k < |s| ==> IsDigit(s[k])
    ensures n >= 10 ==> |s| >= 2
  {
    if n < 10 then [DigitChar(n)] else Decimal(n / 10) + [DigitChar(n % 10)]
  }

  /** Reads a string of digits as a natural number. */
  function ParseDecimal(s: string): nat
    requires forall k :: 0 <= k < |s| ==> IsDigit(s[k])
  {
    if s == [] then 0 else ParseDecimal(s[..|s| - 1]) * 10 + DigitValue(s[|s| - 1])
  }

  lemma {:induction false} DecimalRoundTrip(n: nat)
    ensures ParseDecimal(Decimal(n)) == n
  {
    if n >= 10 {
      var s := Decimal(n);
      assert s[..|s| - 1] == Decimal(n / 10);
      DecimalRoundTrip(n / 10);
    }
  }

  /** Name of the `n`-th temporary file an object asks `tempfile.mkstemp(suffix)` for. */
  function TempPath(n: nat, suffix: string): Path
  {
    "/tmp/tmp" + Decimal(n) + suffix
  }

  /** A suffix such as ".mp4": it cannot be mistaken for more digits. */
  predicate IsSuffix(suffix: string) {
    suffix != [] && !IsDigit(suffix[0])
  }

  /** A digit string followed by a suffix splits back into the two. */
  lemma DigitsThenSuffix(a: string, s: string, b: string, t: string)
    requires forall k :: 0 <= k < |a| ==> IsDigit(a[k])
    requires forall k :: 0 <= k < |b| ==> IsDigit(b[k])
    requires IsSuffix(s) && IsSuffix(t) && a + s == b + t
    ensures a == b && s == t
  {
    var k := if |a| < |b| then |a| else |b|;
    assert IsDigit((a + s)[k]) <==> k < |a|;
    assert IsDigit((b + t)[k]) <==> k < |b|;
    assert |a| == |b|;
    assert a == (a + s)[..|a|] && b == (b + t)[..|b|];
    assert s == (a + s)[|a|..] && t == (b + t)[|b|..];
  }

  /** Distinct counters, or distinct suffixes, give distinct names. */
  lemma TempPathInjective(n: nat, s: string, m: nat, t: string)
    requires IsSuffix(s) && IsSuffix(t)
    ensures TempPath(n, s) == TempPath(m, t) <==> n == m && s == t
  {
    if TempPath(n, s) == TempPath(m, t) {
      var pre := "/tmp/tmp";
      assert TempPath(n, s) == pre + (Decimal(n) + s) && TempPath(m, t) == pre + (Decimal(m) + t);
      assert Decimal(n) + s == TempPath(n, s)[|pre|..] == TempPath(m, t)[|pre|..] == Decimal(m) + t;
      DigitsThenSuffix(Decimal(n), s, Decimal(m), t);
      DecimalRoundTrip(n);
      DecimalRoundTrip(m);
    }
  }

  /** `os.path.exists` filter applied by every `cleanup` loop: the temporary
      files that are actually removed. */
  function Existing(paths: seq<Path>, onDisk: Path -> bool): (r: seq<Path>)
    ensures |r| <= |paths|
    ensures forall p :: p in r <==> p in paths && onDisk(p)
  {
    if paths == [] then []
    else Existing(paths[..|paths| - 1], onDisk) + (if onDisk(paths[|paths| - 1]) then [paths[|paths| - 1]] else [])
  }
}
