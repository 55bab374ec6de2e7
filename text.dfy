/**
 * The Python string operations the pipeline relies on: `lower`, `upper`,
 * `strip`, `split(sep, 1)`, `', '.join` and the slash split of a URL path.
 * Case mapping and whitespace are those of ASCII.
 */
module Text {
  import opened Common

  predicate IsUpperAscii(c: char) { 'A' <= c <= 'Z' }
  predicate IsLowerAscii(c: char) { 'a' <= c <= 'z' }

  function LowerChar(c: char): (d: char)
    ensures !IsUpperAscii(d)
    ensures IsUpperAscii(c) ==> d as int == c as int + 32
    ensures !IsUpperAscii(c) ==> d == c
  {
    if IsUpperAscii(c) then (c as int + 32) as char else c
  }

  function UpperChar(c: char): (d: char)
    ensures !IsLowerAscii(d)
    ensures IsLowerAscii(c) ==> d as int == c as int - 32
    ensures !IsLowerAscii(c) ==> d == c
  {
    if IsLowerAscii(c) then (c as int - 32) as char else c
  }

  /** `s.lower()` */
  function Lower(s: string): (r: string)
    ensures |r| == |s|
    ensures forall i :: 0 <= i < |s| ==> r[i] == LowerChar(s[i])
  {
    seq(|s|, i requires 0 <= i < |s| => LowerChar(s[i]))
  }

  /** `s.upper()` */
  function Upper(s: string): (r: string)
    ensures |r| == |s|
    ensures forall i :: 0 <= i < |s| ==> r[i] == UpperChar(s[i])
  {
    seq(|s|, i requires 0 <= i < |s| => UpperChar(s[i]))
  }

  /** Upper-casing first does not change what lower-casing gives. */
  lemma LowerOfUpper(s: string)
    ensures Lower(Upper(s)) == Lower(s)
  {
    forall i | 0 <= i < |s|
      ensures Lower(Upper(s))[i] == Lower(s)[i]
    {
      var c := s[i];
      if IsLowerAscii(c) {
        assert UpperChar(c) as int == c as int - 32;
      }
    }
  }

  /** Lower-casing twice is lower-casing once. */
  lemma LowerIdempotent(s: string)
    ensures Lower(Lower(s)) == Lower(s)
  {
  }

  /**
   * Lower-casing `s` gives the lower-case word `t` exactly when `s` spells
   * `t` with any mixture of upper- and lower-case letters.
   */
  lemma LowerEqualsIgnoringCase(s: string, t: string)
    requires forall i :: 0 <= i < |t| ==> !IsUpperAscii(t[i])
    ensures Lower(s) == t <==>
      |s| == |t| && forall i :: 0 <= i < |t| ==> s[i] == t[i] || s[i] == UpperChar(t[i])
  {
    if Lower(s) == t {
      forall i | 0 <= i < |t|
        ensures s[i] == t[i] || s[i] == UpperChar(t[i])
      {
        assert LowerChar(s[i]) == t[i];
        if IsUpperAscii(s[i]) {
          assert t[i] as int == s[i] as int + 32;
          assert IsLowerAscii(t[i]);
        }
      }
    }
    if |s| == |t| && forall i :: 0 <= i < |t| ==> s[i] == t[i] || s[i] == UpperChar(t[i]) {
      forall i | 0 <= i < |t|
        ensures Lower(s)[i] == t[i]
      {
        if s[i] != t[i] {
          assert s[i] == UpperChar(t[i]);
          if IsLowerAscii(t[i]) {
            assert IsUpperAscii(s[i]);
          }
        }
      }
    }
  }

  /** The whitespace that `str.strip()` removes (ASCII part). */
  predicate IsSpace(c: char) {
    c == ' ' || c == '\t' || c == '\n' || c == '\r' || c as int == 11 || c as int == 12
  }

  function StripLeft(s: string): (r: string)
    ensures |r| <= |s| && r == s[|s| - |r|..]
    ensures forall k :: 0 <= k < |s| - |r| ==> IsSpace(s[k])
    ensures r == [] || !IsSpace(r[0])
  {
    if |s| > 0 && IsSpace(s[0]) then StripLeft(s[1..]) else s
  }

  function StripRight(s: string): (r: string)
    ensures |r| <= |s| && r == s[..|r|]
    ensures forall k :: |r| <= k < |s| ==> IsSpace(s[k])
    ensures r == [] || !IsSpace(r[|r| - 1])
  {
    if |s| > 0 && IsSpace(s[|s| - 1]) then StripRight(s[..|s| - 1]) else s
  }

  /** `s.strip()`: `s` without its leading and trailing whitespace. */
  function Strip(s: string): (r: string)
    ensures r == [] || (!IsSpace(r[0]) && !IsSpace(r[|r| - 1]))
  {
    StripRight(StripLeft(s))
  }

  /** A string with no whitespace at either end is its own `strip()`. */
  lemma StripUnpadded(s: string)
    requires s == [] || (!IsSpace(s[0]) && !IsSpace(s[|s| - 1]))
    ensures Strip(s) == s
  {
  }

  /** Position of the first `c` in `s`. */
  function IndexOf(s: string, c: char): (i: nat)
    requires c in s
    ensures i < |s| && s[i] == c && c !in s[..i]
  {
    if s[0] == c then 0 else 1 + IndexOf(s[1..], c)
  }

  /**
   * `head, tail = s.split(sep, 1)`: None when the unpacking fails because
   * `sep` does not occur; otherwise the text before and after the first `sep`.
   */
  function SplitOnce(s: string, sep: char): (r: Option<(string, string)>)
    ensures r.None? <==> sep !in s
    ensures r.Some? ==> s == r.value.0 + [sep] + r.value.1 && sep !in r.value.0
  {
    if sep !in s then None
    else
      var i := IndexOf(s, sep);
      assert s == s[..i] + [sep] + s[i + 1..];
      Some((s[..i], s[i + 1..]))
  }

  lemma {:induction false} IndexOfFirst(head: string, sep: char, tail: string)
    requires sep !in head
    ensures sep in head + [sep] + tail
    ensures IndexOf(head + [sep] + tail, sep) == |head|
  {
    var s := head + [sep] + tail;
    assert s[|head|] == sep;
    if head != [] {
      assert s[0] == head[0] != sep;
      assert s[1..] == head[1..] + [sep] + tail;
      IndexOfFirst(head[1..], sep, tail);
    }
  }

  /** A split at the first separator is the only one whose head lacks the separator. */
  lemma SplitOnceUnique(s: string, sep: char, head: string, tail: string)
    requires s == head + [sep] + tail && sep !in head
    ensures SplitOnce(s, sep) == Some((head, tail))
  {
    IndexOfFirst(head, sep, tail);
    assert s[..|head|] == head && s[|head| + 1..] == tail;
  }

  /** `needle in haystack` for two strings: `needle` occurs somewhere in `haystack`. */
  predicate Occurs(needle: string, haystack: string)
    decreases |haystack|
  {
    |needle| <= |haystack| &&
    (haystack[..|needle|] == needle || (|haystack| > 0 && Occurs(needle, haystack[1..])))
  }

  /** `sep.join(parts)` */
  function Join(parts: seq<string>, sep: string): string {
    if |parts| == 0 then ""
    else if |parts| == 1 then parts[0]
    else parts[0] + sep + Join(parts[1..], sep)
  }

  function UpperAll(names: seq<string>): (r: seq<string>)
    ensures |r| == |names| && forall i :: 0 <= i < |names| ==> r[i] == Upper(names[i])
  {
    seq(|names|, i requires 0 <= i < |names| => Upper(names[i]))
  }

  /** A text that is not empty and has no whitespace at either end. */
  predicate Unpadded(s: string) {
    s != [] && !IsSpace(s[0]) && !IsSpace(s[|s| - 1])
  }

  lemma UpperUnpadded(s: string)
    requires Unpadded(s)
    ensures Unpadded(Upper(s))
  {
  }

  /** Joining unpadded parts gives an unpadded text, so `strip()` leaves it alone. */
  lemma {:induction false} JoinUnpadded(parts: seq<string>, sep: string)
    requires forall i :: 0 <= i < |parts| ==> Unpadded(parts[i])
    ensures parts != [] ==> Unpadded(Join(parts, sep))
    decreases |parts|
  {
    if |parts| > 1 {
      JoinUnpadded(parts[1..], sep);
      var rest := Join(parts[1..], sep);
      var joined := parts[0] + sep + rest;
      assert joined[0] == parts[0][0];
      assert joined[|joined| - 1] == rest[|rest| - 1];
    }
  }

  /** `s` with every occurrence of `c` removed. */
  function Without(s: string, c: char): string {
    if s == [] then [] else (if s[0] == c then [] else [s[0]]) + Without(s[1..], c)
  }

  function Concat(parts: seq<string>): string {
    if parts == [] then [] else parts[0] + Concat(parts[1..])
  }

  /** `[x for x in path.split('/') if x]` */
  function Segments(path: string): (r: seq<string>)
    ensures forall k :: 0 <= k < |r| ==> r[k] != "" && '/' !in r[k]
    decreases |path|
  {
    match SplitOnce(path, '/')
    case None => if path == "" then [] else [path]
    case Some((head, tail)) => (if head == "" then [] else [head]) + Segments(tail)
  }

  /** A path without slashes is a single segment, or none when it is empty. */
  lemma SegmentsSlashFree(path: string)
    requires '/' !in path
    ensures Segments(path) == if path == "" then [] else [path]
  {
  }

  /**
   * A slash separates segments: the segments of `a/b` are those of `a`
   * followed by those of `b`.  With `SegmentsSlashFree` this fixes the
   * segments of every path.
   */
  lemma {:induction false} SegmentsAtSlash(a: string, b: string)
    ensures Segments(a + ['/'] + b) == Segments(a) + Segments(b)
    decreases |a|
  {
    var sp := SplitOnce(a, '/');
    if sp.Some? {
      var h, t := sp.value.0, sp.value.1;
      var rest := t + ['/'] + b;
      AssocSlash(a, h, t, b);
      SegmentsFirst(a + ['/'] + b, h, rest);
      SegmentsFirst(a, h, t);
      SegmentsAtSlash(t, b);
      ConcatAssoc(if h == "" then [] else [h], Segments(t), Segments(b));
    } else {
      SegmentsFirst(a + ['/'] + b, a, b);
      SegmentsSlashFree(a);
    }
  }

  lemma ConcatAssoc(p: seq<string>, q: seq<string>, r: seq<string>)
    ensures p + (q + r) == p + q + r
  {
  }

  lemma AssocSlash(a: string, h: string, t: string, b: string)
    requires a == h + ['/'] + t
    ensures a + ['/'] + b == h + ['/'] + (t + ['/'] + b)
  {
  }

  /** The segments of a path that starts with the slash-free `head` and a slash. */
  lemma SegmentsFirst(s: string, head: string, tail: string)
    requires s == head + ['/'] + tail && '/' !in head
    ensures Segments(s) == (if head == "" then [] else [head]) + Segments(tail)
  {
    SplitOnceUnique(s, '/', head, tail);
  }

  lemma WithoutAppend(a: string, b: string, c: char)
    ensures Without(a + b, c) == Without(a, c) + Without(b, c)
  {
    if a != [] {
      assert (a + b)[0] == a[0] && (a + b)[1..] == a[1..] + b;
      WithoutAppend(a[1..], b, c);
    } else {
      assert a + b == b;
    }
  }

  lemma WithoutAbsent(s: string, c: char)
    requires c !in s
    ensures Without(s, c) == s
  {
    if s != [] {
      WithoutAbsent(s[1..], c);
    }
  }

  /** The segments, read in order, spell the path with its slashes taken out. */
  lemma {:induction false} SegmentsSpellPath(path: string)
    ensures Concat(Segments(path)) == Without(path, '/')
    decreases |path|
  {
    var split := SplitOnce(path, '/');
    if split.None? {
      WithoutAbsent(path, '/');
      if path != "" {
        assert Concat([path]) == path + Concat([]);
      }
    } else {
      var head, tail := split.value.0, split.value.1;
      var rest := Segments(tail);
      SegmentsSpellPath(tail);
      WithoutSlashSplit(head, tail);
      if head == "" {
        assert Segments(path) == [] + rest;
        assert [] + rest == rest;
      } else {
        assert Segments(path) == [head] + rest;
        ConcatAppend([head], rest);
        assert Concat([head]) == head + Concat([]);
      }
    }
  }

  lemma WithoutSlashSplit(head: string, tail: string)
    requires '/' !in head
    ensures Without(head + ['/'] + tail, '/') == head + Without(tail, '/')
  {
    var rest := ['/'] + tail;
    assert head + ['/'] + tail == head + rest;
    assert rest[0] == '/' && rest[1..] == tail;
    assert Without(rest, '/') == Without(tail, '/');
    WithoutAppend(head, rest, '/');
    WithoutAbsent(head, '/');
  }

  lemma ConcatAppend(a: seq<string>, b: seq<string>)
    ensures Concat(a + b) == Concat(a) + Concat(b)
  {
    if a != [] {
      assert (a + b)[0] == a[0] && (a + b)[1..] == a[1..] + b;
      ConcatAppend(a[1..], b);
    } else {
      assert a + b == b;
    }
  }
}
