/** The string operations of Python's `str` that the core relies on: `lower`, `strip`,
    `split`, `join`, `in`, `replace` of one character, `title`, and the leftmost match of
    the pattern `\d+\.?\d*` with `float()` of the matched text. Letters and digits are
    those of ASCII. */
module Text {

  import opened Base

  predicate IsUpper(c: char) { 'A' <= c <= 'Z' }
  predicate IsLower(c: char) { 'a' <= c <= 'z' }
  /** A cased character in the sense of `str.title`. */
  predicate IsLetter(c: char) { IsUpper(c) || IsLower(c) }
  predicate IsDigit(c: char) { '0' <= c <= '9' }

  /** The characters `str.isspace` accepts. */
  predicate IsSpace(c: char)
  {
    c == ' ' || '\t' <= c <= '\r' || '\U{1C}' <= c <= '\U{1F}' || c == '\U{85}' || c == '\U{A0}'
    || c == '\U{1680}' || '\U{2000}' <= c <= '\U{200A}' || c == '\U{2028}' || c == '\U{2029}'
    || c == '\U{202F}' || c == '\U{205F}' || c == '\U{3000}'
  }

  function LowerChar(c: char): (r: char)
    ensures IsSpace(r) <==> IsSpace(c)
    ensures IsDigit(r) <==> IsDigit(c)
    ensures !IsUpper(r)
  {
    if IsUpper(c) then (c as int + 32) as char else c
  }

  function UpperChar(c: char): char
  {
    if IsLower(c) then (c as int - 32) as char else c
  }

  /** `s.lower()`. */
  function Lower(s: string): (r: string)
    ensures |r| == |s|
  {
    seq(|s|, i requires 0 <= i < |s| => LowerChar(s[i]))
  }

  lemma LowerConcat(a: string, b: string)
    ensures Lower(a + b) == Lower(a) + Lower(b)
  {
  }

  /** `s.strip()`: drops leading and trailing whitespace. */
  function Strip(s: string): (r: string)
    ensures |r| <= |s| && forall k :: 0 <= k < |r| ==> r[k] in s
    ensures r != [] ==> !IsSpace(r[0]) && !IsSpace(r[|r| - 1])
  {
    var a := TrimStart(s);
    var r := TrimEnd(a);
    assert r == s[|s| - |a|..][..|r|];
    SliceChars(s, |s| - |a|, |s| - |a| + |r|);
    r
  }

  /** Every character of a slice is a character of the whole. */
  lemma SliceChars(s: string, i: nat, j: nat)
    requires i <= j <= |s|
    ensures forall k :: 0 <= k < j - i ==> s[i..j][k] in s
  {
    forall k | 0 <= k < j - i ensures s[i..j][k] in s {
      assert s[i..j][k] == s[i + k];
    }
  }

  /** `s.lstrip()`: a suffix of `s` that does not start with whitespace. */
  function TrimStart(s: string): (r: string)
    ensures |r| <= |s| && r == s[|s| - |r|..]
    ensures forall k :: 0 <= k < |s| - |r| ==> IsSpace(s[k])
    ensures r != [] ==> !IsSpace(r[0])
  {
    if s != [] && IsSpace(s[0]) then TrimStart(s[1..]) else s
  }

  /** `s.rstrip()`: a prefix of `s` that does not end with whitespace. */
  function TrimEnd(s: string): (r: string)
    ensures |r| <= |s| && r == s[..|r|]
    ensures forall k :: |r| <= k < |s| ==> IsSpace(s[k])
    ensures r != [] ==> !IsSpace(r[|r| - 1])
  {
    if s != [] && IsSpace(s[|s| - 1]) then TrimEnd(s[..|s| - 1]) else s
  }

  /** Stripping twice strips nothing more. */
  lemma StripIdempotent(s: string)
    ensures Strip(Strip(s)) == Strip(s)
  {
    var t := Strip(s);
    assert TrimStart(t) == t;
    assert TrimEnd(t) == t;
  }

  lemma LowerIdempotent(s: string)
    ensures Lower(Lower(s)) == Lower(s)
  {
  }

  /** `strip` and `lower` can be applied in either order. */
  lemma StripLower(s: string)
    ensures Strip(Lower(s)) == Lower(Strip(s))
  {
    TrimStartLower(s);
    TrimEndLower(TrimStart(s));
  }

  lemma {:induction false} TrimStartLower(s: string)
    ensures TrimStart(Lower(s)) == Lower(TrimStart(s))
  {
    if s != [] && IsSpace(s[0]) {
      assert Lower(s)[1..] == Lower(s[1..]);
      TrimStartLower(s[1..]);
    }
  }

  lemma {:induction false} TrimEndLower(s: string)
    ensures TrimEnd(Lower(s)) == Lower(TrimEnd(s))
  {
    if s != [] && IsSpace(s[|s| - 1]) {
      assert Lower(s)[..|s| - 1] == Lower(s[..|s| - 1]);
      TrimEndLower(s[..|s| - 1]);
    }
  }

  /** `s.startswith(p)`. */
  predicate StartsWith(s: string, p: string)
  {
    |p| <= |s| && s[..|p|] == p
  }

  /** `s.find(sub)`: the leftmost position where `sub` occurs in `s`. */
  function IndexOf(s: string, sub: string): (r: Option<nat>)
    ensures r.Some? ==> r.value + |sub| <= |s| && s[r.value..r.value + |sub|] == sub
    ensures forall i :: 0 <= i && i + |sub| <= |s| && (r.None? || i < r.value)
                        ==> !StartsWith(s[i..], sub)
    decreases |s|
  {
    if |s| < |sub| then None
    else if StartsWith(s, sub) then Some(0)
    else
      assert forall k :: 1 <= k <= |s| ==> s[k..] == s[1..][k - 1..];
      match IndexOf(s[1..], sub)
      case None => None
      case Some(i) =>
        assert s[1..][i..i + |sub|] == s[i + 1..i + 1 + |sub|];
        Some(i + 1)
  }

  /** `sub in s`. */
  predicate Contains(s: string, sub: string)
  {
    IndexOf(s, sub).Some?
  }

  /** Python's `in` for a one-character string is membership. */
  lemma ContainsChar(s: string, c: char)
    ensures Contains(s, [c]) <==> c in s
  {
    var r := IndexOf(s, [c]);
    if r.Some? {
      assert s[r.value] == s[r.value..r.value + 1][0];
    }
    if c in s {
      var k :| 0 <= k < |s| && s[k] == c;
      assert StartsWith(s[k..], [c]);
    }
  }

  /** An occurrence with none before it is the one `find` reports. */
  lemma IndexOfAt(s: string, sub: string, i: nat)
    requires i + |sub| <= |s| && s[i..i + |sub|] == sub
    requires forall j :: 0 <= j < i ==> !StartsWith(s[j..], sub)
    ensures IndexOf(s, sub) == Some(i)
  {
    var r := IndexOf(s, sub);
    StartsWithAt(s, sub, i);
    assert r.Some? && r.value <= i;
    StartsWithAt(s, sub, r.value);
  }

  /** A text without the first character of `sub` does not contain `sub`. */
  lemma {:induction false} IndexOfNone(s: string, sub: string)
    requires sub != [] && sub[0] !in s
    ensures IndexOf(s, sub) == None
    decreases |s|
  {
    if |s| >= |sub| {
      assert s[..|sub|][0] == s[0];
      IndexOfNone(s[1..], sub);
    }
  }

  /** A text where `sub` starts at no position does not contain it. */
  lemma {:induction false} IndexOfNoneAt(s: string, sub: string)
    requires sub != []
    requires forall j :: 0 <= j && j + |sub| <= |s| ==> !StartsWith(s[j..], sub)
    ensures IndexOf(s, sub) == None
    decreases |s|
  {
    if |s| >= |sub| {
      assert s[0..] == s;
      forall j | 0 <= j && j + |sub| <= |s[1..]| ensures !StartsWith(s[1..][j..], sub) {
        assert s[1..][j..] == s[j + 1..];
      }
      IndexOfNoneAt(s[1..], sub);
    }
  }

  /** `sub` right after a prefix free of its first character is found there. */
  lemma IndexOfAfter(p: string, t: string, sub: string)
    requires sub != [] && sub[0] !in p && StartsWith(t, sub)
    ensures IndexOf(p + t, sub) == Some(|p|)
  {
    var s := p + t;
    assert s[|p|..] == t;
    assert s[|p|..|p| + |sub|] == t[..|sub|];
    forall j | 0 <= j < |p| ensures !StartsWith(s[j..], sub) {
      assert s[j..][0] == p[j];
    }
    IndexOfAt(s, sub, |p|);
  }

  lemma StartsWithAt(s: string, sub: string, i: nat)
    requires i + |sub| <= |s| && s[i..i + |sub|] == sub
    ensures StartsWith(s[i..], sub)
  {
    assert s[i..][..|sub|] == s[i..i + |sub|];
  }

  /** `s.split(sep)` for a non-empty separator: the pieces between the leftmost
      non-overlapping occurrences of `sep`. */
  function Split(s: string, sep: string): (parts: seq<string>)
    requires sep != []
    ensures |parts| >= 1
    decreases |s|
  {
    match IndexOf(s, sep)
    case None => [s]
    case Some(i) => [s[..i]] + Split(s[i + |sep|..], sep)
  }

  /** `sep.join(parts)`. */
  function Join(parts: seq<string>, sep: string): string
  {
    if parts == [] then ""
    else if |parts| == 1 then parts[0]
    else parts[0] + sep + Join(parts[1..], sep)
  }

  /** Joining the pieces of a split with the same separator restores the string. */
  lemma {:induction false} JoinSplit(s: string, sep: string)
    requires sep != []
    ensures Join(Split(s, sep), sep) == s
    decreases |s|
  {
    var r := IndexOf(s, sep);
    if r.Some? {
      var i := r.value;
      var rest := s[i + |sep|..];
      JoinSplit(rest, sep);
      JoinCons(s[..i], Split(rest, sep), sep);
      SplitAround(s, sep, i);
    }
  }

  /** Joining a piece in front of non-empty pieces puts the separator between. */
  lemma JoinCons(head: string, tail: seq<string>, sep: string)
    requires tail != []
    ensures Join([head] + tail, sep) == head + sep + Join(tail, sep)
  {
    assert ([head] + tail)[1..] == tail;
  }

  /** A string is the part before an occurrence of `sep`, `sep`, and the part after. */
  lemma SplitAround(s: string, sep: string, i: nat)
    requires i + |sep| <= |s| && s[i..i + |sep|] == sep
    ensures s == s[..i] + sep + s[i + |sep|..]
  {
    assert s == s[..i] + s[i..i + |sep|] + s[i + |sep|..];
  }

  /** Splitting the join of pieces that do not contain a one-character separator gives
      the pieces back. */
  lemma {:induction false} SplitJoin(parts: seq<string>, c: char)
    requires parts != []
    requires forall k :: 0 <= k < |parts| ==> c !in parts[k]
    ensures Split(Join(parts, [c]), [c]) == parts
    decreases |parts|
  {
    if |parts| == 1 {
      ContainsChar(parts[0], c);
    } else {
      var p, rest := parts[0], Join(parts[1..], [c]);
      var s := p + [c] + rest;
      assert Join(parts, [c]) == s;
      assert s[|p|..|p| + 1] == [c];
      forall j | 0 <= j < |p| ensures !StartsWith(s[j..], [c]) {
        assert s[j..][0] == p[j];
      }
      IndexOfAt(s, [c], |p|);
      assert s[|p| + 1..] == rest;
      assert s[..|p|] == p;
      SplitJoin(parts[1..], c);
      assert Split(s, [c]) == [p] + Split(rest, [c]);
    }
  }

  /** `s.replace(c, "")` for a single character `c`. */
  function Remove(s: string, c: char): (r: string)
    ensures c !in r
    ensures forall x :: x in r <==> x in s && x != c
    ensures |r| <= |s|
  {
    if s == [] then []
    else if s[0] == c then Remove(s[1..], c)
    else [s[0]] + Remove(s[1..], c)
  }

  /** `s.title()` continuing after a character that was cased (`afterCased`) or not. */
  function TitleFrom(s: string, afterCased: bool): (r: string)
    ensures Lower(r) == Lower(s)
    ensures forall i :: 0 <= i < |s| && !IsLetter(s[i]) ==> r[i] == s[i]
  {
    if s == [] then []
    else
      var c := if afterCased then LowerChar(s[0]) else UpperChar(s[0]);
      var rest := TitleFrom(s[1..], IsLetter(s[0]));
      LowerConcat([c], rest);
      LowerConcat([s[0]], s[1..]);
      assert [s[0]] + s[1..] == s;
      assert LowerChar(c) == LowerChar(s[0]);
      var r := [c] + rest;
      assert forall i :: 1 <= i < |s| ==> r[i] == rest[i - 1] && s[i] == s[1..][i - 1];
      r
  }

  /** `s.title()`: upper-cases each letter that follows a non-letter and lower-cases the
      others, so only the case of letters changes. */
  function Title(s: string): (r: string)
    ensures Lower(r) == Lower(s)
    ensures |r| == |s| && forall i :: 0 <= i < |s| && !IsLetter(s[i]) ==> r[i] == s[i]
  {
    TitleFrom(s, false)
  }

  predicate HasDigit(s: string)
  {
    exists i :: 0 <= i < |s| && IsDigit(s[i])
  }

  /** Length of the run of digits at the start of `s`. */
  function DigitRun(s: string): (n: nat)
    ensures n <= |s| && forall k :: 0 <= k < n ==> IsDigit(s[k])
    ensures n < |s| ==> !IsDigit(s[n])
  {
    if s != [] && IsDigit(s[0]) then 1 + DigitRun(s[1..]) else 0
  }

  /** The text `\d+\.?\d*` matches at the start of `s`, which begins with a digit: the
      digits, then a point and the digits after it if a point follows. */
  function NumberAt(s: string): (t: string)
    requires s != [] && IsDigit(s[0])
    ensures 0 < |t| <= |s| && t == s[..|t|] && IsDigit(t[0])
    ensures forall k :: 0 <= k < |t| ==> IsDigit(t[k]) || t[k] == '.'
    ensures forall i :: 0 <= i < |t| && t[i] == '.' ==> '.' !in t[i + 1..]
    ensures |t| < |s| ==> !IsDigit(s[|t|]) && (s[|t|] == '.' ==> '.' in t)
  {
    var n := DigitRun(s);
    if n < |s| && s[n] == '.' then
      var m := DigitRun(s[n + 1..]);
      var t := s[..n + 1 + m];
      assert forall k :: n < k < |t| ==> t[k] == s[n + 1..][k - n - 1];
      assert t[n] == '.';
      t
    else s[..n]
  }

  /** `re.search(r'(\d+\.?\d*)', s).group(1)`: the leftmost match, absent when `s` has
      no digit. */
  function NumberToken(s: string): (r: Option<string>)
    ensures r.Some? <==> HasDigit(s)
    ensures r.Some? ==> r.value != [] && IsDigit(r.value[0])
                        && forall k :: 0 <= k < |r.value| ==> IsDigit(r.value[k]) || r.value[k] == '.'
    ensures r.Some? ==> LeftmostNumber(s, r.value)
  {
    if s == [] then None
    else if IsDigit(s[0]) then
      assert s[0..] == s;
      assert LeftmostNumber(s, NumberAt(s));
      Some(NumberAt(s))
    else
      assert HasDigit(s) <==> HasDigit(s[1..]) by {
        if HasDigit(s) {
          var i :| 0 <= i < |s| && IsDigit(s[i]);
          assert s[1..][i - 1] == s[i];
        }
        if HasDigit(s[1..]) {
          var i :| 0 <= i < |s[1..]| && IsDigit(s[1..][i]);
          assert s[i + 1] == s[1..][i];
        }
      }
      var r := NumberToken(s[1..]);
      if r.Some? then
        LeftmostShift(s, r.value);
        r
      else r
  }

  /** `t` is the match of `\d+\.?\d*` that starts at the first digit of `s`. */
  ghost predicate LeftmostNumber(s: string, t: string)
  {
    exists i :: 0 <= i < |s| && IsDigit(s[i]) && (forall k :: 0 <= k < i ==> !IsDigit(s[k]))
                && t == NumberAt(s[i..])
  }

  /** A leading non-digit moves the first number one place right. */
  lemma LeftmostShift(s: string, t: string)
    requires s != [] && !IsDigit(s[0]) && LeftmostNumber(s[1..], t)
    ensures LeftmostNumber(s, t)
  {
    var i :| 0 <= i < |s[1..]| && IsDigit(s[1..][i]) && (forall k :: 0 <= k < i ==> !IsDigit(s[1..][k]))
             && t == NumberAt(s[1..][i..]);
    assert s[1..][i..] == s[i + 1..];
    assert forall k :: 1 <= k < i + 1 ==> s[k] == s[1..][k - 1];
  }

  /** A prefix without digits does not change the first number. */
  lemma NumberTokenAfter(p: string, t: string)
    requires forall k :: 0 <= k < |p| ==> !IsDigit(p[k])
    ensures NumberToken(p + t) == NumberToken(t)
  {
    var s := p + t;
    assert forall k :: 0 <= k < |p| ==> s[k] == p[k];
    NumberTokenFrom(s, |p|);
    assert s[|p|..] == t;
  }

  lemma {:induction false} NumberTokenFrom(s: string, i: nat)
    requires i <= |s| && forall k :: 0 <= k < i ==> !IsDigit(s[k])
    ensures NumberToken(s) == NumberToken(s[i..])
  {
    if i > 0 {
      assert NumberToken(s) == NumberToken(s[1..]);
      NumberTokenFrom(s[1..], i - 1);
      assert s[1..][i - 1..] == s[i..];
    } else {
      assert s[0..] == s;
    }
  }

  function DigitValue(c: char): nat
  {
    if IsDigit(c) then c as nat - '0' as nat else 0
  }

  /** The value of a run of decimal digits. */
  function DigitsValue(ds: string): nat
  {
    if ds == [] then 0 else 10 * DigitsValue(ds[..|ds| - 1]) + DigitValue(ds[|ds| - 1])
  }

  function Pow10(n: nat): (p: nat)
    ensures p >= 1
  {
    if n == 0 then 1 else 10 * Pow10(n - 1)
  }

  /** `float(t)` for a token `digits[.digits]`, taken as the exact decimal it denotes. */
  function DecimalValue(t: string): (v: real)
    ensures v >= 0.0
  {
    var n := DigitRun(t);
    if n < |t| && t[n] == '.' then
      var frac := t[n + 1..];
      DigitsValue(t[..n]) as real + DigitsValue(frac) as real / Pow10(|frac|) as real
    else DigitsValue(t) as real
  }

  lemma DecimalZeroParts(a: nat, b: nat, d: nat)
    requires d >= 1
    ensures a as real + b as real / d as real == 0.0 <==> a == 0 && b == 0
  {
  }

  predicate AllZeros(ds: string)
  {
    forall k :: 0 <= k < |ds| ==> ds[k] == '0'
  }

  /** A run of digits is worth nothing exactly when every digit is `0`. */
  lemma {:induction false} DigitsValueZero(ds: string)
    requires forall k :: 0 <= k < |ds| ==> IsDigit(ds[k])
    ensures DigitsValue(ds) == 0 <==> AllZeros(ds)
  {
    if ds != [] {
      var init := ds[..|ds| - 1];
      DigitsValueZero(init);
      if AllZeros(ds) {
        assert AllZeros(init);
      }
      if DigitsValue(ds) == 0 {
        assert AllZeros(init);
        forall k | 0 <= k < |ds| ensures ds[k] == '0' {
          if k < |ds| - 1 { assert ds[k] == init[k]; }
        }
      }
    }
  }

  /** Every digit of the text is `0`. */
  predicate ZeroDigits(t: string)
  {
    forall k :: 0 <= k < |t| ==> t[k] == '0' || t[k] == '.'
  }

  /** A number token reads as zero exactly when all of its digits are `0`. */
  lemma DecimalValueZero(t: string)
    requires forall k :: 0 <= k < |t| ==> IsDigit(t[k]) || t[k] == '.'
    requires forall k :: DigitRun(t) < k < |t| ==> IsDigit(t[k])
    ensures DecimalValue(t) == 0.0 <==> ZeroDigits(t)
  {
    var n := DigitRun(t);
    var whole := t[..n];
    DigitsValueZero(whole);
    if n < |t| && t[n] == '.' {
      var frac := t[n + 1..];
      DigitsValueZero(frac);
      DecimalZeroParts(DigitsValue(whole), DigitsValue(frac), Pow10(|frac|));
      ZeroDigitsSplit(t, n);
    } else {
      assert t == whole;
      assert ZeroDigits(t) <==> AllZeros(whole);
    }
  }

  lemma ZeroDigitsSplit(t: string, n: nat)
    requires n < |t| && t[n] == '.'
    requires forall k :: 0 <= k < |t| && k != n ==> IsDigit(t[k])
    ensures ZeroDigits(t) <==> AllZeros(t[..n]) && AllZeros(t[n + 1..])
  {
    var whole, frac := t[..n], t[n + 1..];
    if AllZeros(whole) && AllZeros(frac) {
      forall k | 0 <= k < |t| ensures t[k] == '0' || t[k] == '.' {
        if k < n { assert t[k] == whole[k]; }
        else if k > n { assert t[k] == frac[k - n - 1]; }
      }
    }
    if ZeroDigits(t) {
      forall k | 0 <= k < |whole| ensures whole[k] == '0' { assert whole[k] == t[k]; }
      forall k | 0 <= k < |frac| ensures frac[k] == '0' { assert frac[k] == t[k + n + 1]; }
    }
  }

  /** No piece of a split contains a one-character separator. */
  lemma {:induction false} SplitPiecesFree(s: string, c: char)
    ensures forall k :: 0 <= k < |Split(s, [c])| ==> c !in Split(s, [c])[k]
    decreases |s|
  {
    var r := IndexOf(s, [c]);
    if r.None? {
      ContainsChar(s, c);
    } else {
      var i := r.value;
      var head := s[..i];
      forall k | 0 <= k < i ensures s[k] != c {
        assert !StartsWith(s[k..], [c]);
        assert s[k..][..1] == [s[k]];
      }
      assert c !in head;
      SplitPiecesFree(s[i + 1..], c);
    }
  }

  /** Removing a character the word does not use keeps the word inside the string. */
  lemma {:induction false} ContainsRemove(s: string, w: string, c: char)
    requires Contains(s, w) && c !in w
    ensures Contains(Remove(s, c), w)
  {
    var i := IndexOf(s, w).value;
    var a, b := s[..i], s[i + |w|..];
    assert s == a + (w + b);
    RemoveConcat(a, w + b, c);
    RemoveConcat(w, b, c);
    RemoveAbsent(w, c);
    var r := Remove(a, c) + w + Remove(b, c);
    calc {
      Remove(s, c);
      Remove(a + (w + b), c);
      Remove(a, c) + Remove(w + b, c);
      Remove(a, c) + (w + Remove(b, c));
      r;
    }
    assert StartsWith(r[|Remove(a, c)|..], w);
  }

  lemma {:induction false} RemoveConcat(a: string, b: string, c: char)
    ensures Remove(a + b, c) == Remove(a, c) + Remove(b, c)
  {
    if a != [] {
      assert (a + b)[1..] == a[1..] + b;
      RemoveConcat(a[1..], b, c);
    } else {
      assert a + b == b;
    }
  }

  lemma {:induction false} RemoveAbsent(s: string, c: char)
    requires c !in s
    ensures Remove(s, c) == s
  {
    if s != [] {
      RemoveAbsent(s[1..], c);
    }
  }

  /** A string that contains a word is at least as long as it. */
  lemma ContainsLength(s: string, w: string)
    requires Contains(s, w)
    ensures |w| <= |s|
  {
  }

  /** Removing a character keeps every other character, digits among them. */
  lemma RemoveKeepsDigits(s: string, c: char)
    requires HasDigit(s) && !IsDigit(c)
    ensures HasDigit(Remove(s, c))
  {
    var i :| 0 <= i < |s| && IsDigit(s[i]);
    assert s[i] in Remove(s, c);
    var j :| 0 <= j < |Remove(s, c)| && Remove(s, c)[j] == s[i];
  }

  /** `title` keeps digits where they are. */
  lemma TitleKeepsDigits(s: string)
    requires HasDigit(s)
    ensures HasDigit(Title(s))
  {
    var i :| 0 <= i < |s| && IsDigit(s[i]);
    assert Title(s)[i] == s[i];
  }

  function DigitChar(d: nat): char
    requires d < 10
  {
    ('0' as int + d) as char
  }

  /** `str(n)` for a natural number. */
  function NatToString(n: nat): (r: string)
    ensures r != [] && forall k :: 0 <= k < |r| ==> IsDigit(r[k])
  {
    if n < 10 then [DigitChar(n)] else NatToString(n / 10) + [DigitChar(n % 10)]
  }

  /** `str(i)` for an integer. */
  function IntToString(i: int): string
  {
    if i < 0 then "-" + NatToString(-i) else NatToString(i)
  }
}
