/**
 The three JavaScript string operations the creation form relies on:
 `String.prototype.split` with a one-character separator, `trim` and
 `toUpperCase`, over an ASCII character model. Whitespace is space, tab,
 carriage return and line feed; upper-casing maps `a`-`z` and nothing else.
 `Join` (`Array.prototype.join`) is the inverse of `Split` and is used to
 characterise it.
 */
module JsString {

  type String = seq<char>

  predicate IsWhitespace(c: char) {
    c == ' ' || c == '\t' || c == '\r' || c == '\n'
  }

  predicate IsLower(c: char) {
    'a' <= c <= 'z'
  }

  predicate AllWhitespace(s: String) {
    forall k :: 0 <= k < |s| ==> IsWhitespace(s[k])
  }

  /** No leading and no trailing whitespace: what `trim` leaves behind. */
  predicate IsTrimmed(s: String) {
    s == [] || (!IsWhitespace(s[0]) && !IsWhitespace(s[|s| - 1]))
  }

  /** No lower-case letter: what `toUpperCase` leaves behind. */
  predicate IsUpper(s: String) {
    forall k :: 0 <= k < |s| ==> !IsLower(s[k])
  }

  // ---------------------------------------------------------------------
  // toUpperCase

  /** Upper-cases one character: letters `a`-`z` move to `A`-`Z`, every
      other character is kept. */
  function UpperChar(c: char): (d: char)
    ensures !IsLower(d)
    ensures !IsLower(c) ==> d == c
    ensures IsLower(c) ==> 'A' <= d <= 'Z' && d as int + 32 == c as int
    ensures IsWhitespace(d) <==> IsWhitespace(c)
    ensures d == ',' <==> c == ','
  {
    if IsLower(c) then (c as int - 32) as char else c
  }

  /** `s.toUpperCase()`: every character upper-cased in place. */
  function ToUpperCase(s: String): (r: String)
    ensures |r| == |s|
    ensures forall k :: 0 <= k < |s| ==> r[k] == UpperChar(s[k])
  {
    seq(|s|, k requires 0 <= k < |s| => UpperChar(s[k]))
  }

  /** No lower-case letter survives `toUpperCase`. */
  lemma ToUpperCaseIsUpper(s: String)
    ensures IsUpper(ToUpperCase(s))
  {
    var r := ToUpperCase(s);
    forall k | 0 <= k < |r| ensures !IsLower(r[k]) {
      assert r[k] == UpperChar(s[k]);
    }
  }

  /** Upper-casing twice is upper-casing once. */
  lemma ToUpperCaseIdempotent(s: String)
    ensures ToUpperCase(ToUpperCase(s)) == ToUpperCase(s)
  {
    var u := ToUpperCase(s);
    var uu := ToUpperCase(u);
    assert forall k :: 0 <= k < |u| ==> uu[k] == u[k];
  }

  /** An already upper-case string is left alone. */
  lemma ToUpperCaseOfUpper(s: String)
    requires IsUpper(s)
    ensures ToUpperCase(s) == s
  {
    var u := ToUpperCase(s);
    assert forall k :: 0 <= k < |s| ==> u[k] == s[k];
  }

  /** Upper-casing neither adds nor removes surrounding whitespace. */
  lemma ToUpperCaseKeepsTrimmed(s: String)
    requires IsTrimmed(s)
    ensures IsTrimmed(ToUpperCase(s))
  {
  }

  // ---------------------------------------------------------------------
  // trim

  /** `s.trimStart()`: drops the leading run of whitespace. */
  function TrimStart(s: String): (r: String)
    ensures |r| <= |s|
    ensures r == [] || !IsWhitespace(r[0])
  {
    if s != [] && IsWhitespace(s[0]) then TrimStart(s[1..]) else s
  }

  /** What `trimStart` drops is whitespace, and what it keeps is the rest. */
  lemma {:induction false} TrimStartSuffix(s: String)
    ensures var n := |s| - |TrimStart(s)|;
      TrimStart(s) == s[n..] && AllWhitespace(s[..n])
  {
    if s != [] && IsWhitespace(s[0]) {
      TrimStartSuffix(s[1..]);
      var n := |s| - |TrimStart(s)|;
      assert s[1..][n - 1..] == s[n..];
      assert s[..n] == [s[0]] + s[1..][..n - 1];
    }
  }

  /** `s.trimEnd()`: drops the trailing run of whitespace. */
  function TrimEnd(s: String): (r: String)
    ensures |r| <= |s|
    ensures r == [] || !IsWhitespace(r[|r| - 1])
  {
    if s != [] && IsWhitespace(s[|s| - 1]) then TrimEnd(s[..|s| - 1]) else s
  }

  /** What `trimEnd` drops is whitespace, and what it keeps is the rest. */
  lemma {:induction false} TrimEndPrefix(s: String)
    ensures var n := |TrimEnd(s)|;
      TrimEnd(s) == s[..n] && AllWhitespace(s[n..])
  {
    if s != [] && IsWhitespace(s[|s| - 1]) {
      var m := |s| - 1;
      TrimEndPrefix(s[..m]);
      var n := |TrimEnd(s)|;
      assert s[..m][..n] == s[..n];
      assert s[n..] == s[..m][n..] + [s[m]];
    }
  }

  /** Trimming at either end keeps every character that is not whitespace. */
  lemma {:induction false} TrimStartKeeps(s: String, c: char)
    requires !IsWhitespace(c)
    ensures c in TrimStart(s) <==> c in s
  {
    if s != [] && IsWhitespace(s[0]) {
      TrimStartKeeps(s[1..], c);
      assert s == [s[0]] + s[1..];
    }
  }

  lemma {:induction false} TrimEndKeeps(s: String, c: char)
    requires !IsWhitespace(c)
    ensures c in TrimEnd(s) <==> c in s
  {
    if s != [] && IsWhitespace(s[|s| - 1]) {
      var n := |s| - 1;
      TrimEndKeeps(s[..n], c);
      assert s == s[..n] + [s[n]];
    }
  }

  lemma TrimKeeps(s: String, c: char)
    requires !IsWhitespace(c)
    ensures c in Trim(s) <==> c in s
  {
    TrimStartKeeps(s, c);
    TrimEndKeeps(TrimStart(s), c);
  }

  /** `s.trim()`: drops the whitespace at both ends. */
  function Trim(s: String): (r: String)
    ensures IsTrimmed(r)
  {
    var t := TrimStart(s);
    var r := TrimEnd(t);
    TrimEndPrefix(t);
    assert r == [] || r[0] == t[0];
    r
  }

  /** `trim` returns a middle part of `s` with only whitespace before and
      after it: `s` is whitespace, then the result, then whitespace. */
  lemma TrimDecomposes(s: String)
    ensures var r, i := Trim(s), |s| - |TrimStart(s)|;
      i + |r| <= |s| && r == s[i..i + |r|] &&
      AllWhitespace(s[..i]) && AllWhitespace(s[i + |r|..])
  {
    var t := TrimStart(s);
    var r := TrimEnd(t);
    var i := |s| - |t|;
    var j := i + |r|;
    TrimStartSuffix(s);
    TrimEndPrefix(t);
    assert r == s[i..j] by {
      forall k | 0 <= k < |r| ensures r[k] == s[i + k] {
        assert r[k] == t[k] == s[i + k];
      }
    }
    assert AllWhitespace(s[j..]) by {
      forall k | 0 <= k < |s| - j ensures IsWhitespace(s[j..][k]) {
        assert s[j..][k] == t[|r|..][k];
      }
    }
  }

  /** The decomposition of `TrimDecomposes` is unique: whatever whitespace
      surrounds a trimmed string, `trim` recovers exactly that string. */
  lemma {:induction false} TrimUnique(lead: String, m: String, trail: String)
    requires AllWhitespace(lead) && AllWhitespace(trail) && IsTrimmed(m)
    ensures Trim(lead + m + trail) == m
  {
    var s := lead + m + trail;
    if m == [] {
      assert s == lead + trail + [];
      assert AllWhitespace(lead + trail);
      TrimStartOfLead(lead + trail, []);
    } else {
      assert s == lead + (m + trail);
      TrimStartOfLead(lead, m + trail);
      TrimEndOfTrail(m, trail);
    }
  }

  lemma {:induction false} TrimStartOfLead(lead: String, t: String)
    requires AllWhitespace(lead)
    requires t == [] || !IsWhitespace(t[0])
    ensures TrimStart(lead + t) == t
  {
    if lead != [] {
      assert (lead + t)[1..] == lead[1..] + t;
      TrimStartOfLead(lead[1..], t);
    }
  }

  lemma {:induction false} TrimEndOfTrail(t: String, trail: String)
    requires AllWhitespace(trail)
    requires t == [] || !IsWhitespace(t[|t| - 1])
    ensures TrimEnd(t + trail) == t
  {
    if trail != [] {
      var n := |trail| - 1;
      assert (t + trail)[..|t + trail| - 1] == t + trail[..n];
      TrimEndOfTrail(t, trail[..n]);
    }
  }

  /** A string with no surrounding whitespace is its own trim; in particular
      `trim` is idempotent. */
  lemma TrimOfTrimmed(s: String)
    requires IsTrimmed(s)
    ensures Trim(s) == s
  {
    assert [] + s + [] == s;
    TrimUnique([], s, []);
  }

  // ---------------------------------------------------------------------
  // split and join

  /** Number of occurrences of `c` in `s`. */
  function Count(s: String, c: char): (n: nat)
    ensures n <= |s|
    ensures n == 0 <==> c !in s
  {
    if s == [] then 0 else (if s[0] == c then 1 else 0) + Count(s[1..], c)
  }

  /** `s.split(sep)` for a one-character separator: the segments between
      separators, in order, with empty segments kept; the empty string
      splits into one empty segment. */
  function Split(s: String, sep: char): (parts: seq<String>)
    ensures |parts| == Count(s, sep) + 1
  {
    if s == [] then [[]]
    else
      var rest := Split(s[1..], sep);
      if s[0] == sep then [[]] + rest
      else [[s[0]] + rest[0]] + rest[1..]
  }

  /** No segment contains the separator. */
  lemma {:induction false} SplitNoSeparator(s: String, sep: char)
    ensures forall i :: 0 <= i < |Split(s, sep)| ==> sep !in Split(s, sep)[i]
  {
    if s != [] {
      SplitNoSeparator(s[1..], sep);
      var rest := Split(s[1..], sep);
      if s[0] != sep {
        assert sep !in rest[0];
        assert sep !in [s[0]] + rest[0];
      }
    }
  }

  /** `parts.join(sep)`. */
  function Join(parts: seq<String>, sep: char): String {
    if parts == [] then []
    else if |parts| == 1 then parts[0]
    else parts[0] + [sep] + Join(parts[1..], sep)
  }

  /** Joining the segments back with the separator gives the original string. */
  lemma {:induction false} JoinSplit(s: String, sep: char)
    ensures Join(Split(s, sep), sep) == s
  {
    if s != [] {
      var rest := Split(s[1..], sep);
      JoinSplit(s[1..], sep);
      if s[0] == sep {
        assert Split(s, sep) == [[]] + rest;
        assert ([[]] + rest)[1..] == rest;
      } else {
        var parts := Split(s, sep);
        assert parts[0] == [s[0]] + rest[0] && parts[1..] == rest[1..];
        if |rest| == 1 {
          assert Join(parts, sep) == [s[0]] + rest[0];
        } else {
          assert Join(parts, sep) == ([s[0]] + rest[0]) + [sep] + Join(rest[1..], sep);
          assert Join(rest, sep) == rest[0] + [sep] + Join(rest[1..], sep);
        }
        assert s == [s[0]] + s[1..];
      }
    }
  }

  /** Splitting a segment free of separators, followed by anything, puts that
      segment at the front of the first piece. */
  lemma {:induction false} SplitPrefix(p: String, t: String, sep: char)
    requires sep !in p
    ensures var st := Split(t, sep);
      Split(p + t, sep) == [p + st[0]] + st[1..]
  {
    if p != [] {
      var pt, p', st := p + t, p[1..], Split(t, sep);
      assert p[0] in p;
      assert pt != [] && pt[0] == p[0] != sep && pt[1..] == p' + t;
      assert sep !in p' by {
        forall k | 0 <= k < |p'| ensures p'[k] != sep { assert p'[k] == p[k + 1]; }
      }
      SplitPrefix(p', t, sep);
      var r := Split(p' + t, sep);
      assert Split(pt, sep) == [[p[0]] + r[0]] + r[1..];
      assert [p[0]] + (p' + st[0]) == p + st[0];
    } else {
      var st := Split(t, sep);
      assert p + t == t && p + st[0] == st[0];
      assert st == [st[0]] + st[1..];
    }
  }

  /** Splitting the join of separator-free segments gives the segments back;
      with `JoinSplit`, `Split` is the unique inverse of `Join`. */
  lemma {:induction false} SplitJoin(parts: seq<String>, sep: char)
    requires |parts| >= 1
    requires forall i :: 0 <= i < |parts| ==> sep !in parts[i]
    ensures Split(Join(parts, sep), sep) == parts
  {
    if |parts| == 1 {
      SplitPrefix(parts[0], [], sep);
      assert parts[0] + [] == parts[0];
    } else {
      var j := Join(parts[1..], sep);
      SplitJoin(parts[1..], sep);
      assert Join(parts, sep) == parts[0] + ([sep] + j);
      SplitPrefix(parts[0], [sep] + j, sep);
      assert ([sep] + j)[1..] == j;
      assert Split([sep] + j, sep) == [[]] + parts[1..];
      assert parts[0] + [] == parts[0];
    }
  }

  /** `Join` with one more part appends the separator and that part. */
  lemma {:induction false} JoinSnoc(parts: seq<String>, x: String, sep: char)
    requires |parts| >= 1
    ensures Join(parts + [x], sep) == Join(parts, sep) + [sep] + x
  {
    if |parts| > 1 {
      JoinSnoc(parts[1..], x, sep);
      assert (parts + [x])[1..] == parts[1..] + [x];
    }
  }

  /** A trailing separator adds one empty segment at the end. */
  lemma SplitTrailingSeparator(s: String, sep: char)
    ensures Split(s + [sep], sep) == Split(s, sep) + [[]]
  {
    var parts := Split(s, sep);
    JoinSplit(s, sep);
    JoinSnoc(parts, [], sep);
    assert Join(parts + [[]], sep) == s + [sep];
    SplitNoSeparator(s, sep);
    assert forall i :: 0 <= i < |parts + [[]]| ==> sep !in (parts + [[]])[i];
    SplitJoin(parts + [[]], sep);
  }
}
