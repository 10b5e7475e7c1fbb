/**
 * The parts of Python's `str` and `list` behaviour that both scripts rely on:
 * `strip()`, `split()`, `split(sep)`, `sep.join(...)`, `int(...)`, `str(n)`,
 * `sub in s`, `list.index`, `list.remove` and slicing with a possibly
 * negative end. Whitespace is the ASCII whitespace Python recognises.
 */
module PyText {
  import opened Wrappers

  // ---------------------------------------------------------------- whitespace

  /** The ASCII characters for which Python's `str.isspace()` holds. */
  predicate IsSpace(c: char) {
    // '\t', '\n', '\v', '\f', '\r', then the separators 0x1C-0x1F and ' '
    9 <= c as int <= 13 || 28 <= c as int <= 32
  }

  predicate NoSpace(s: string) {
    forall i :: 0 <= i < |s| ==> !IsSpace(s[i])
  }

  function LStrip(s: string): (r: string)
    ensures |r| <= |s|
    ensures r == [] || !IsSpace(r[0])
  {
    if s != [] && IsSpace(s[0]) then LStrip(s[1..]) else s
  }

  function RStrip(s: string): (r: string)
    ensures |r| <= |s|
    ensures r == [] || !IsSpace(r[|r| - 1])
  {
    if s != [] && IsSpace(s[|s| - 1]) then RStrip(s[..|s| - 1]) else s
  }

  /** `lstrip()` removes a prefix. */
  lemma {:induction false} LStripSuffix(s: string)
    ensures LStrip(s) == s[|s| - |LStrip(s)|..]
    decreases |s|
  {
    if s != [] && IsSpace(s[0]) {
      LStripSuffix(s[1..]);
    }
  }

  /** `rstrip()` removes a suffix. */
  lemma {:induction false} RStripPrefix(s: string)
    ensures RStrip(s) == s[..|RStrip(s)|]
    decreases |s|
  {
    if s != [] && IsSpace(s[|s| - 1]) {
      RStripPrefix(s[..|s| - 1]);
    }
  }

  /** Python's `s.strip()`: the longest slice with no whitespace at either end. */
  function Strip(s: string): (r: string)
    ensures exists i :: OccursAt(s, r, i)
    ensures r == [] || (!IsSpace(r[0]) && !IsSpace(r[|r| - 1]))
  {
    var l := LStrip(s);
    var r := RStrip(l);
    var a := |s| - |l|;
    LStripSuffix(s);
    RStripPrefix(l);
    assert r == s[a..a + |r|] by {
      forall k | 0 <= k < |r| ensures r[k] == s[a + k] {
        assert r[k] == l[k] == s[a..][k];
      }
    }
    assert OccursAt(s, r, a);
    r
  }

  lemma {:induction false} StripNoSpace(s: string)
    requires NoSpace(s)
    ensures Strip(s) == s
  {
    if s != [] {
      assert !IsSpace(s[0]) && !IsSpace(s[|s| - 1]);
    }
  }

  /** `strip()` leaves a string alone when neither end is whitespace. */
  lemma StripTrimmed(s: string)
    requires s == [] || (!IsSpace(s[0]) && !IsSpace(s[|s| - 1]))
    ensures Strip(s) == s
  {
  }

  // ---------------------------------------------------------------- split()

  /** Length of the run of non-whitespace characters at the front of `s`. */
  function WordLen(s: string): (n: nat)
    ensures n <= |s| && NoSpace(s[..n])
    ensures n < |s| ==> IsSpace(s[n])
  {
    if s == [] || IsSpace(s[0]) then 0 else 1 + WordLen(s[1..])
  }

  /** Python's `s.split()`: the maximal runs of non-whitespace characters, in order. */
  function SplitWs(s: string): (r: seq<string>)
    ensures forall k :: 0 <= k < |r| ==> r[k] != [] && NoSpace(r[k])
    decreases |s|
  {
    if s == [] then []
    else if IsSpace(s[0]) then SplitWs(s[1..])
    else
      var n := WordLen(s);
      [s[..n]] + SplitWs(s[n..])
  }

  /** A line of the kind the scripts read: strip it, then split it on whitespace. */
  function Tokens(line: string): seq<string> {
    SplitWs(Strip(line))
  }

  lemma {:induction false} WordLenOfWord(w: string, rest: string)
    requires w != [] && NoSpace(w)
    requires rest == [] || IsSpace(rest[0])
    ensures WordLen(w + rest) == |w|
  {
    if |w| > 1 {
      assert (w + rest)[1..] == w[1..] + rest;
      WordLenOfWord(w[1..], rest);
    } else {
      assert (w + rest)[1..] == rest;
    }
  }

  /** `split()` undoes `' '.join(...)` of words that hold no whitespace. */
  lemma {:induction false} SplitWsJoin(words: seq<string>)
    requires forall k :: 0 <= k < |words| ==> words[k] != [] && NoSpace(words[k])
    ensures SplitWs(Join(" ", words)) == words
  {
    if |words| == 0 {
    } else if |words| == 1 {
      var w := words[0];
      WordLenOfWord(w, []);
      assert w + [] == w;
      assert w[|w|..] == [];
    } else {
      var w := words[0];
      var rest := Join(" ", words[1..]);
      var s := Join(" ", words);
      assert s == w + (" " + rest);
      WordLenOfWord(w, " " + rest);
      assert s[..|w|] == w;
      assert s[|w|..] == " " + rest;
      assert (" " + rest)[1..] == rest;
      SplitWsJoin(words[1..]);
      assert words == [w] + words[1..];
    }
  }

  /** The tokens of two words with a space between them. */
  lemma TwoWordTokens(a: string, b: string)
    requires a != [] && NoSpace(a) && b != [] && NoSpace(b)
    ensures Tokens(a + " " + b) == [a, b]
  {
    var s := a + " " + b;
    assert s[0] == a[0] && s[|s| - 1] == b[|b| - 1];
    StripTrimmed(s);
    assert Join(" ", [a, b]) == s by {
      assert [a, b][1..] == [b];
    }
    SplitWsJoin([a, b]);
  }

  // ---------------------------------------------------------------- split(sep) and join

  /** Index of the first `c` in `s`, or `|s|` when there is none. */
  function Find(s: string, c: char): (i: nat)
    ensures i <= |s|
    ensures forall k :: 0 <= k < i ==> s[k] != c
    ensures i < |s| ==> s[i] == c
  {
    if s == [] || s[0] == c then 0 else 1 + Find(s[1..], c)
  }

  /** Python's `s.split(c)` for a one-character separator: never empty; pieces may be empty. */
  function SplitOn(s: string, c: char): (r: seq<string>)
    ensures |r| >= 1
    decreases |s|
  {
    var i := Find(s, c);
    if i == |s| then [s] else [s[..i]] + SplitOn(s[i + 1..], c)
  }

  /** No piece of `s.split(c)` holds `c`. */
  lemma {:induction false} SplitOnAvoids(s: string, c: char)
    ensures forall k :: 0 <= k < |SplitOn(s, c)| ==> c !in SplitOn(s, c)[k]
    decreases |s|
  {
    var i := Find(s, c);
    if i < |s| {
      SplitOnAvoids(s[i + 1..], c);
      var tail := SplitOn(s[i + 1..], c);
      assert SplitOn(s, c) == [s[..i]] + tail;
    }
  }

  /** Python's `sep.join(parts)`. */
  function Join(sep: string, parts: seq<string>): string
  {
    if |parts| == 0 then ""
    else if |parts| == 1 then parts[0]
    else parts[0] + sep + Join(sep, parts[1..])
  }

  /** Appending a part to a joined list adds the separator and the part. */
  lemma {:induction false} JoinSnoc(sep: string, parts: seq<string>, p: string)
    requires parts != []
    ensures Join(sep, parts + [p]) == Join(sep, parts) + sep + p
  {
    if |parts| > 1 {
      assert (parts + [p])[1..] == parts[1..] + [p];
      JoinSnoc(sep, parts[1..], p);
    }
  }

  /** A character that is in no part and not in the separator is not in the joined text. */
  lemma {:induction false} JoinAvoids(sep: string, parts: seq<string>, c: char)
    requires c !in sep && forall k :: 0 <= k < |parts| ==> c !in parts[k]
    ensures c !in Join(sep, parts)
  {
    if |parts| > 1 {
      JoinAvoids(sep, parts[1..], c);
    }
  }

  /** Joining parts free of whitespace with a separator free of whitespace gives text free of
      whitespace. */
  lemma {:induction false} JoinNoSpace(sep: string, parts: seq<string>)
    requires NoSpace(sep) && forall k :: 0 <= k < |parts| ==> NoSpace(parts[k])
    ensures NoSpace(Join(sep, parts))
  {
    if |parts| > 1 {
      JoinNoSpace(sep, parts[1..]);
      var rest := Join(sep, parts[1..]);
      assert Join(sep, parts) == parts[0] + sep + rest;
    }
  }

  /** Joining the pieces of `s.split(c)` with `c` gives `s` back. */
  lemma {:induction false} JoinSplitOn(s: string, c: char)
    ensures Join([c], SplitOn(s, c)) == s
    decreases |s|
  {
    var i := Find(s, c);
    if i < |s| {
      var rest := s[i + 1..];
      var tail := SplitOn(rest, c);
      JoinSplitOn(rest, c);
      var parts := [s[..i]] + tail;
      assert SplitOn(s, c) == parts;
      assert |parts| >= 2 && parts[0] == s[..i] && parts[1..] == tail;
      assert Join([c], parts) == s[..i] + [c] + rest;
      assert s == s[..i] + [c] + rest;
    }
  }

  /** Splitting `c.join(parts)` on `c` gives the parts back when none contains `c`. */
  lemma {:induction false} SplitOnJoin(parts: seq<string>, c: char)
    requires |parts| >= 1
    requires forall k :: 0 <= k < |parts| ==> c !in parts[k]
    ensures SplitOn(Join([c], parts), c) == parts
  {
    var p := parts[0];
    if |parts| == 1 {
      SplitOnOne(p, c);
    } else {
      var tail := parts[1..];
      SplitOnJoin(tail, c);
      JoinCons(p, c, tail);
      SplitOnCons(p, c, Join([c], tail));
      assert parts == [p] + tail;
    }
  }

  lemma SplitOnOne(p: string, c: char)
    requires c !in p
    ensures SplitOn(Join([c], [p]), c) == [p]
  {
    FindAbsent(p, c);
  }

  lemma JoinCons(p: string, c: char, tail: seq<string>)
    requires tail != []
    ensures Join([c], [p] + tail) == p + [c] + Join([c], tail)
  {
    assert ([p] + tail)[1..] == tail;
  }

  /** Splitting text that starts with a piece free of `c`, then `c`. */
  lemma SplitOnCons(p: string, c: char, rest: string)
    requires c !in p
    ensures SplitOn(p + [c] + rest, c) == [p] + SplitOn(rest, c)
  {
    var s := p + [c] + rest;
    FindAfter(p, c, rest);
    assert s[..|p|] == p && s[|p| + 1..] == rest;
  }

  lemma {:induction false} FindAbsent(s: string, c: char)
    requires c !in s
    ensures Find(s, c) == |s|
  {
    if s != [] {
      assert c !in s[1..];
      FindAbsent(s[1..], c);
    }
  }

  lemma {:induction false} FindAfter(p: string, c: char, rest: string)
    requires c !in p
    ensures Find(p + [c] + rest, c) == |p|
  {
    if p != [] {
      assert (p + [c] + rest)[1..] == p[1..] + [c] + rest;
      assert c !in p[1..];
      FindAfter(p[1..], c, rest);
    }
  }

  /** The text after the first `c`, i.e. `s.split(c, 1)[1]`; `None` when `s` holds no `c`
      (Python then raises IndexError). */
  function AfterFirst(s: string, c: char): (r: Option<string>)
    ensures r.None? <==> c !in s
    ensures r.Some? ==> exists i :: 0 <= i < |s| && s[i] == c && c !in s[..i] && r.value == s[i + 1..]
  {
    var i := Find(s, c);
    if i == |s| then None else Some(s[i + 1..])
  }

  lemma {:induction false} AfterFirstOf(head: string, c: char, tail: string)
    requires c !in head
    ensures AfterFirst(head + [c] + tail, c) == Some(tail)
  {
    FindAfter(head, c, tail);
    var s := head + [c] + tail;
    assert s[|head| + 1..] == tail;
  }

  // ---------------------------------------------------------------- prefixes and substrings

  /** `s[0:|p|] == p` in Python. */
  predicate StartsWith(s: string, p: string) {
    |p| <= |s| && s[..|p|] == p
  }

  /** `sub` stands in `s` at position `i`. */
  predicate OccursAt(s: string, sub: string, i: int) {
    0 <= i <= |s| - |sub| && s[i..i + |sub|] == sub
  }

  /** Python's `sub in s` on strings. */
  predicate Contains(s: string, sub: string) {
    exists i | 0 <= i <= |s| - |sub| :: OccursAt(s, sub, i)
  }

  /** `ls[0:2] == [a, b]` in Python. */
  predicate HeadIs(ls: seq<string>, a: string, b: string) {
    |ls| >= 2 && ls[0] == a && ls[1] == b
  }

  // ---------------------------------------------------------------- lists

  /** Python's `s.index(x)`: the first position of `x`. */
  function IndexOf<T(==)>(s: seq<T>, x: T): (i: nat)
    requires x in s
    ensures i < |s| && s[i] == x && x !in s[..i]
  {
    if s[0] == x then 0 else 1 + IndexOf(s[1..], x)
  }

  /** Python's `s.remove(x)`: drop the first occurrence of `x`. */
  function RemoveFirst<T(==)>(s: seq<T>, x: T): (r: seq<T>)
    requires x in s
    ensures r == s[..IndexOf(s, x)] + s[IndexOf(s, x) + 1..]
    ensures |r| == |s| - 1
  {
    if s[0] == x then s[1..] else [s[0]] + RemoveFirst(s[1..], x)
  }

  /** Python's slice bound normalisation for a sequence of length `n`. */
  function ClampIndex(k: int, n: nat): (r: nat)
    ensures r <= n
    ensures 0 <= k <= n ==> r == k
    ensures k > n ==> r == n
    ensures k < 0 ==> r == (if k + n >= 0 then k + n else 0)
  {
    if k < 0 then (if k + n >= 0 then k + n else 0) else if k > n then n else k
  }

  /** Python's `s[a:b]`, negative bounds counting from the end. */
  function PySlice<T>(s: seq<T>, a: int, b: int): (r: seq<T>)
    ensures 0 <= a <= b <= |s| ==> r == s[a..b]
    ensures |r| <= |s|
  {
    var i := ClampIndex(a, |s|);
    var j := ClampIndex(b, |s|);
    if i < j then s[i..j] else []
  }

  /** What `s.remove(x)` leaves was in `s`. */
  lemma RemoveFirstSubset<T>(s: seq<T>, x: T, y: T)
    requires x in s && y in RemoveFirst(s, x)
    ensures y in s
  {
    var i := IndexOf(s, x);
    var a, b := s[..i], s[i + 1..];
    assert RemoveFirst(s, x) == a + b;
    if y in a {
      var k :| 0 <= k < |a| && a[k] == y;
      assert s[k] == y;
    } else {
      assert y in b;
      var k :| 0 <= k < |b| && b[k] == y;
      assert s[i + 1 + k] == y;
    }
  }

  // ---------------------------------------------------------------- paths

  /** The index just after the last '/' of `p`, 0 when there is none. */
  function AfterLastSlash(p: string): (i: nat)
    ensures i <= |p| && '/' !in p[i..]
    ensures i > 0 ==> p[i - 1] == '/'
  {
    if p == [] then 0
    else if p[|p| - 1] == '/' then |p|
    else
      var i := AfterLastSlash(p[..|p| - 1]);
      assert p[i..] == p[..|p| - 1][i..] + [p[|p| - 1]];
      i
  }

  /** `s.rstrip('/')`. */
  function RStripSlashes(s: string): (r: string)
    ensures |r| <= |s| && r == s[..|r|]
    ensures r == [] || r[|r| - 1] != '/'
    ensures forall i :: |r| <= i < |s| ==> s[i] == '/'
  {
    if s != [] && s[|s| - 1] == '/' then RStripSlashes(s[..|s| - 1]) else s
  }

  /** Python's `os.path.split(p)` on a POSIX system: the directory part, without trailing
      slashes unless it is nothing but slashes, and the last component. */
  function PathSplit(p: string): (r: (string, string))
    ensures '/' !in r.1 && |r.1| <= |p| && p == p[..|p| - |r.1|] + r.1
  {
    var i := AfterLastSlash(p);
    var head := p[..i];
    assert p == head + p[i..];
    (if exists k :: 0 <= k < |head| && head[k] != '/' then RStripSlashes(head) else head, p[i..])
  }

  /** Splitting `dir + "/" + name` gives `dir` and `name` back. */
  lemma PathSplitJoin(dir: string, name: string)
    requires dir != [] && dir[|dir| - 1] != '/' && '/' !in name
    ensures PathSplit(dir + "/" + name) == (dir, name)
  {
    var p := dir + "/" + name;
    var head := dir + "/";
    AfterSlash(head, name);
    assert p[..|head|] == head && p[|head|..] == name;
    assert head[|dir| - 1] != '/';
    assert head[..|head| - 1] == dir;
    assert RStripSlashes(head) == RStripSlashes(dir) == dir;
  }

  lemma {:induction false} AfterSlash(head: string, name: string)
    requires head != [] && head[|head| - 1] == '/' && '/' !in name
    ensures AfterLastSlash(head + name) == |head|
    decreases |name|
  {
    if name != [] {
      var p := head + name;
      assert p[..|p| - 1] == head + name[..|name| - 1];
      AfterSlash(head, name[..|name| - 1]);
    } else {
      assert head + name == head;
    }
  }

  // ---------------------------------------------------------------- int(...) and str(...)

  predicate IsDigit(c: char) {
    '0' <= c <= '9'
  }

  function DigitValue(c: char): (d: nat)
    requires IsDigit(c)
    ensures d < 10
  {
    (c as int - '0' as int) as nat
  }

  function DigitChar(d: nat): (c: char)
    requires d < 10
    ensures IsDigit(c) && DigitValue(c) == d
  {
    ('0' as int + d) as char
  }

  /** The value of a string of decimal digits, most significant first. */
  function DigitsValue(ds: string): nat
    requires forall i :: 0 <= i < |ds| ==> IsDigit(ds[i])
  {
    if ds == [] then 0 else 10 * DigitsValue(ds[..|ds| - 1]) + DigitValue(ds[|ds| - 1])
  }

  /** The decimal digits of `n` with no leading zero. */
  function NatDigits(n: nat): (ds: string)
    ensures ds != [] && forall i :: 0 <= i < |ds| ==> IsDigit(ds[i])
    ensures NoSpace(ds)
  {
    if n < 10 then [DigitChar(n)] else NatDigits(n / 10) + [DigitChar(n % 10)]
  }

  /** Python's `str(n)` for an int. */
  function IntToString(n: int): (s: string)
    ensures s != [] && NoSpace(s)
  {
    if n < 0 then "-" + NatDigits(-n) else NatDigits(n)
  }

  /** `str(n)` holds only digits and perhaps a minus sign. */
  lemma IntToStringAvoids(n: int, c: char)
    requires c != '-' && !IsDigit(c)
    ensures c !in IntToString(n)
  {
    var s := IntToString(n);
    if n < 0 {
      assert s == "-" + NatDigits(-n);
      forall i | 0 <= i < |s| ensures s[i] != c {
        if i > 0 {
          assert s[i] == NatDigits(-n)[i - 1];
        }
      }
    }
  }

  /** Python's `int(s)` on decimal text: surrounding whitespace, an optional sign and one
      or more ASCII digits; anything else is `None` (Python raises ValueError). */
  function ParseInt(s: string): Option<int>
  {
    var t := Strip(s);
    if t != [] && (t[0] == '-' || t[0] == '+') then
      var ds := t[1..];
      if ds != [] && forall i :: 0 <= i < |ds| ==> IsDigit(ds[i]) then
        Some(if t[0] == '-' then -(DigitsValue(ds) as int) else DigitsValue(ds) as int)
      else None
    else if t != [] && forall i :: 0 <= i < |t| ==> IsDigit(t[i]) then Some(DigitsValue(t))
    else None
  }

  /** Trailing whitespace is what `rstrip()` removes. */
  lemma {:induction false} RStripSpaces(s: string, rest: string)
    requires s == [] || !IsSpace(s[|s| - 1])
    requires forall i :: 0 <= i < |rest| ==> IsSpace(rest[i])
    ensures RStrip(s + rest) == s
  {
    if rest == [] {
      assert s + rest == s;
    } else {
      var shorter := rest[..|rest| - 1];
      assert (s + rest)[..|s + rest| - 1] == s + shorter;
      RStripSpaces(s, shorter);
    }
  }

  /** `int()` ignores whitespace after the number, such as the line's newline. */
  lemma {:induction false} ParseIntTrailingSpace(s: string, rest: string)
    requires s != [] && NoSpace(s)
    requires forall i :: 0 <= i < |rest| ==> IsSpace(rest[i])
    ensures ParseInt(s + rest) == ParseInt(s)
  {
    assert (s + rest)[0] == s[0];
    assert LStrip(s + rest) == s + rest;
    RStripSpaces(s, rest);
    StripNoSpace(s);
  }

  lemma {:induction false} DigitsRoundTrip(n: nat)
    ensures DigitsValue(NatDigits(n)) == n
  {
    if n >= 10 {
      var ds := NatDigits(n);
      assert ds[..|ds| - 1] == NatDigits(n / 10);
      DigitsRoundTrip(n / 10);
    }
  }

  /** `int(str(n)) == n`. */
  lemma {:induction false} ParseIntToString(n: int)
    ensures ParseInt(IntToString(n)) == Some(n)
  {
    if n < 0 {
      DigitsRoundTrip(-n);
      ParseIntSigned(NatDigits(-n));
    } else {
      DigitsRoundTrip(n);
      ParseIntDigits(NatDigits(n));
    }
  }

  /** `int()` of a string of digits is their value. */
  lemma ParseIntDigits(ds: string)
    requires ds != [] && forall i :: 0 <= i < |ds| ==> IsDigit(ds[i])
    ensures ParseInt(ds) == Some(DigitsValue(ds))
  {
    StripNoSpace(ds);
  }

  /** `int()` of a minus sign and digits is the negated value of the digits. */
  lemma ParseIntSigned(ds: string)
    requires ds != [] && forall i :: 0 <= i < |ds| ==> IsDigit(ds[i])
    ensures ParseInt("-" + ds) == Some(-(DigitsValue(ds) as int))
  {
    var s := "-" + ds;
    assert s[0] == '-' && s[1..] == ds;
    forall i | 0 <= i < |s| ensures !IsSpace(s[i]) {
      if i > 0 {
        assert s[i] == ds[i - 1];
      }
    }
    StripNoSpace(s);
  }

  /** Distinct ints print differently, so `str(i_jobID)` is a faithful key. */
  lemma IntToStringInjective(a: int, b: int)
    requires IntToString(a) == IntToString(b)
    ensures a == b
  {
    ParseIntToString(a);
    ParseIntToString(b);
  }
}
