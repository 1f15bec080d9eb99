/** The string and path primitives the service relies on: the str methods
    startswith, endswith, split, join, replace, strip and split() on
    whitespace, and posixpath.join, basename, dirname and commonprefix.
    Each is written out to behave as the Python one does. */
module Paths {

  predicate StartsWith(s: string, prefix: string) {
    prefix <= s
  }

  predicate EndsWith(s: string, suffix: string) {
    |suffix| <= |s| && s[|s| - |suffix|..] == suffix
  }

  /** The test the command generators use to call a token a path:
      it contains a forward or a backward slash. */
  predicate HasSeparator(s: string) {
    '/' in s || '\\' in s
  }

  /** s.split(c) for a one-character separator. */
  function Split(s: string, c: char): (parts: seq<string>)
    ensures |parts| >= 1
    ensures forall k :: 0 <= k < |parts| ==> c !in parts[k]
    decreases |s|
  {
    if |s| == 0 then [""]
    else
      var rest := Split(s[1..], c);
      if s[0] == c then [""] + rest else [[s[0]] + rest[0]] + rest[1..]
  }

  /** [c].join(parts) */
  function JoinWith(parts: seq<string>, c: char): string
    decreases |parts|
  {
    if |parts| == 0 then ""
    else if |parts| == 1 then parts[0]
    else parts[0] + [c] + JoinWith(parts[1..], c)
  }

  /** Joining the pieces of a split with the separator restores the string. */
  lemma {:induction false} SplitJoin(s: string, c: char)
    ensures JoinWith(Split(s, c), c) == s
    decreases |s|
  {
    if |s| > 0 {
      SplitJoin(s[1..], c);
      var rest := Split(s[1..], c);
      if s[0] == c {
        assert Split(s, c) == [""] + rest;
        assert ([""] + rest)[1..] == rest;
      } else {
        var parts := Split(s, c);
        assert parts == [[s[0]] + rest[0]] + rest[1..];
        if |rest| > 1 {
          assert parts[1..] == rest[1..];
          assert JoinWith(rest, c) == rest[0] + [c] + JoinWith(rest[1..], c);
        }
      }
    }
  }

  /** The element count of a split is one more than the separator count. */
  function Count(s: string, c: char): nat
    decreases |s|
  {
    if |s| == 0 then 0 else (if s[0] == c then 1 else 0) + Count(s[1..], c)
  }

  lemma {:induction false} SplitLength(s: string, c: char)
    ensures |Split(s, c)| == Count(s, c) + 1
    decreases |s|
  {
    if |s| > 0 {
      SplitLength(s[1..], c);
    }
  }

  /** A string splits into one piece exactly when it has no separator. */
  lemma {:induction false} SplitSingle(s: string, c: char)
    ensures (|Split(s, c)| == 1) == (c !in s)
    ensures c !in s ==> Split(s, c) == [s]
    decreases |s|
  {
    if |s| > 0 {
      SplitSingle(s[1..], c);
      assert s == [s[0]] + s[1..];
    }
  }

  /** The last piece of a split is what follows the last separator. */
  lemma {:induction false} SplitLast(s: string, c: char)
    ensures var parts := Split(s, c);
      |parts[|parts| - 1]| <= |s| && s[|s| - |parts[|parts| - 1]|..] == parts[|parts| - 1]
    ensures var parts := Split(s, c);
      |parts[|parts| - 1]| < |s| ==> s[|s| - |parts[|parts| - 1]| - 1] == c
    decreases |s|
  {
    if |s| > 0 {
      SplitLast(s[1..], c);
      SplitLastStep(s, c);
      var rest := Split(s[1..], c);
      var x := rest[|rest| - 1];
      SuffixOfTail(s, |x|);
      if s[0] != c && |rest| == 1 {
        SplitSingle(s[1..], c);
        assert [s[0]] + s[1..] == s;
      } else if s[0] != c {
        SplitSingle(s[1..], c);
        assert |x| < |s| - 1;
      }
    }
  }

  /** The last piece of a split, in terms of the split of the tail. */
  lemma {:induction false} SplitLastStep(s: string, c: char)
    requires |s| > 0
    ensures var rest := Split(s[1..], c);
      var parts := Split(s, c);
      parts[|parts| - 1] ==
        if s[0] != c && |rest| == 1 then [s[0]] + rest[0] else rest[|rest| - 1]
  {
  }

  /** A suffix of the tail is a suffix of the string. */
  lemma {:induction false} SuffixOfTail(s: string, n: nat)
    requires n < |s|
    ensures s[1..][|s| - 1 - n..] == s[|s| - n..]
    ensures n < |s| - 1 ==> s[1..][|s| - 1 - n - 1] == s[|s| - n - 1]
  {
  }

  /** Two '/'-free suffixes of s that are each the whole of s or preceded
      by a '/' are the same string. */
  lemma {:induction false} SlashFreeSuffixUnique(s: string, x: string, y: string)
    requires '/' !in x && '/' !in y
    requires EndsWith(s, x) && EndsWith(s, y)
    requires |x| < |s| ==> s[|s| - |x| - 1] == '/'
    requires |y| < |s| ==> s[|s| - |y| - 1] == '/'
    ensures x == y
  {
    if |x| < |y| {
      assert false;
    } else if |y| < |x| {
      assert false;
    }
  }

  /** The last piece of a split on '/' is the basename. */
  lemma {:induction false} SplitLastIsBasename(s: string)
    ensures var parts := Split(s, '/'); parts[|parts| - 1] == Basename(s)
  {
    SplitLast(s, '/');
    var parts := Split(s, '/');
    SlashFreeSuffixUnique(s, parts[|parts| - 1], Basename(s));
  }

  /** posixpath.join(a, b) */
  function PathJoin(a: string, b: string): string {
    if StartsWith(b, "/") then b
    else if a == "" || EndsWith(a, "/") then a + b
    else a + "/" + b
  }

  /** posixpath.join folded over parts from the left, as the mappers'
      loops `temp = os.path.join(temp, part)` do. */
  function JoinAll(a: string, parts: seq<string>): string
    decreases |parts|
  {
    if |parts| == 0 then a
    else PathJoin(JoinAll(a, parts[..|parts| - 1]), parts[|parts| - 1])
  }

  /** The index of the last '/' in p, or -1 when p has none. */
  function LastSlash(p: string): (k: int)
    ensures -1 <= k < |p|
    ensures k >= 0 ==> p[k] == '/'
    ensures forall j :: k < j < |p| ==> p[j] != '/'
    decreases |p|
  {
    if |p| == 0 then -1
    else if p[|p| - 1] == '/' then |p| - 1
    else LastSlash(p[..|p| - 1])
  }

  /** posixpath.basename(p): what follows the last '/'. */
  function Basename(p: string): (b: string)
    ensures '/' !in b
    ensures |b| <= |p| && p[|p| - |b|..] == b
    ensures |b| < |p| ==> p[|p| - |b| - 1] == '/'
  {
    p[LastSlash(p) + 1..]
  }

  /** The basename of a string that has no '/' is the string itself. */
  lemma {:induction false} BasenameOfPlain(p: string)
    requires '/' !in p
    ensures Basename(p) == p
  {
  }

  /** After a directory part that is empty or ends with '/', the basename
      is the appended '/'-free name. */
  lemma {:induction false} BasenameAfterSlash(dir: string, name: string)
    requires dir == "" || EndsWith(dir, "/")
    requires '/' !in name
    ensures Basename(dir + name) == name
    decreases |name|
  {
    if |name| > 0 {
      var p := dir + name;
      assert p[..|p| - 1] == dir + name[..|name| - 1];
      assert name[|name| - 1] in name;
      BasenameAfterSlash(dir, name[..|name| - 1]);
      assert name == name[..|name| - 1] + [name[|name| - 1]];
    } else {
      assert dir + name == dir;
    }
  }

  /** Joining a non-empty '/'-free name onto any directory part yields a
      path whose basename is that name. */
  lemma {:induction false} PathJoinBasename(a: string, name: string)
    requires '/' !in name && name != ""
    ensures Basename(PathJoin(a, name)) == name
    ensures StartsWith(PathJoin(a, name), a)
  {
    assert !StartsWith(name, "/") by { assert name[0] in name; }
    if a == "" || EndsWith(a, "/") {
      BasenameAfterSlash(a, name);
      assert (a + name)[..|a|] == a;
    } else {
      assert a + "/" + name == (a + "/") + name;
      BasenameAfterSlash(a + "/", name);
      assert (a + "/" + name)[..|a|] == a;
    }
  }

  /** The part of p up to and including its last '/'. */
  function Head(p: string): string {
    p[..LastSlash(p) + 1]
  }

  predicate AllSlashes(s: string) {
    forall k :: 0 <= k < |s| ==> s[k] == '/'
  }

  /** s.rstrip('/') */
  function RStripSlashes(s: string): (r: string)
    ensures r <= s
    ensures r == "" || r[|r| - 1] != '/'
    ensures AllSlashes(s[|r|..])
    decreases |s|
  {
    if |s| > 0 && s[|s| - 1] == '/' then RStripSlashes(s[..|s| - 1]) else s
  }

  /** posixpath.dirname(p) */
  function Dirname(p: string): (d: string)
    ensures d <= p
  {
    var head := Head(p);
    if head != "" && !AllSlashes(head) then RStripSlashes(head) else head
  }

  /** The reversed string, written s[::-1] in Python. */
  function Reverse(s: string): (r: string)
    ensures |r| == |s|
    decreases |s|
  {
    if |s| == 0 then "" else Reverse(s[1..]) + [s[0]]
  }

  /** Character k of the reversed string is character |s| - 1 - k. */
  lemma {:induction false} ReverseAt(s: string, k: nat)
    requires k < |s|
    ensures Reverse(s)[k] == s[|s| - 1 - k]
    decreases |s|
  {
    if k < |s| - 1 {
      ReverseAt(s[1..], k);
    }
  }

  /** os.path.commonprefix of two strings: their longest common prefix. */
  function CommonPrefix(a: string, b: string): (r: string)
    ensures r <= a && r <= b
    ensures |r| == |a| || |r| == |b| || a[|r|] != b[|r|]
    decreases |a|
  {
    if |a| == 0 || |b| == 0 || a[0] != b[0] then ""
    else [a[0]] + CommonPrefix(a[1..], b[1..])
  }

  /** Reversing the common prefix of two reversed strings gives their longest
      common suffix. */
  lemma {:induction false} ReversedCommonPrefixIsSuffix(x: string, y: string)
    ensures var s := Reverse(CommonPrefix(Reverse(x), Reverse(y)));
      EndsWith(x, s) && EndsWith(y, s)
      && (|s| == |x| || |s| == |y| || x[|x| - |s| - 1] != y[|y| - |s| - 1])
  {
    var cp := CommonPrefix(Reverse(x), Reverse(y));
    var s := Reverse(cp);
    ReversedPrefixIsSuffix(x, cp);
    ReversedPrefixIsSuffix(y, cp);
    if |s| < |x| && |s| < |y| {
      ReverseAt(x, |cp|);
      ReverseAt(y, |cp|);
    }
  }

  /** A prefix of the reversed string, reversed, is a suffix of it. */
  lemma {:induction false} ReversedPrefixIsSuffix(x: string, p: string)
    requires p <= Reverse(x)
    ensures EndsWith(x, Reverse(p))
  {
    var s := Reverse(p);
    forall k | 0 <= k < |s| ensures x[|x| - |s| + k] == s[k] {
      ReverseAt(p, k);
      ReverseAt(x, |p| - 1 - k);
      assert s[k] == p[|p| - 1 - k] == Reverse(x)[|p| - 1 - k];
    }
    assert x[|x| - |s|..] == s;
  }

  /** s.replace(pat, rep): every non-overlapping occurrence, left to right. */
  function ReplaceAll(s: string, pat: string, rep: string): string
    requires |pat| > 0
    decreases |s|
  {
    if |s| < |pat| then s
    else if s[..|pat|] == pat then rep + ReplaceAll(s[|pat|..], pat, rep)
    else [s[0]] + ReplaceAll(s[1..], pat, rep)
  }

  /** pat occurs in s at position k */
  predicate OccursAt(s: string, pat: string, k: nat) {
    k <= |s| && pat <= s[k..]
  }

  /** A string in which the pattern does not occur is left as it is. */
  lemma {:induction false} ReplaceAbsent(s: string, pat: string, rep: string)
    requires |pat| > 0
    requires forall k: nat :: k < |s| ==> !OccursAt(s, pat, k)
    ensures ReplaceAll(s, pat, rep) == s
    decreases |s|
  {
    if |s| >= |pat| {
      assert !OccursAt(s, pat, 0);
      assert s[0..] == s;
      forall k: nat | k < |s[1..]| ensures !OccursAt(s[1..], pat, k) {
        assert s[1..][k..] == s[k + 1..];
        assert !OccursAt(s, pat, k + 1);
      }
      ReplaceAbsent(s[1..], pat, rep);
      assert s == [s[0]] + s[1..];
    }
  }

  predicate IsSchemeChar(c: char) {
    ('a' <= c <= 'z') || ('A' <= c <= 'Z') || ('0' <= c <= '9') || c == '+' || c == '-' || c == '.'
  }

  predicate IsAsciiLetter(c: char) {
    ('a' <= c <= 'z') || ('A' <= c <= 'Z')
  }

  /** Index of the first occurrence of c in s, or |s|. */
  function IndexOf(s: string, c: char): (k: nat)
    ensures k <= |s|
    ensures forall j :: 0 <= j < k ==> s[j] != c
    ensures k < |s| ==> s[k] == c
    decreases |s|
  {
    if |s| == 0 then 0 else if s[0] == c then 0 else 1 + IndexOf(s[1..], c)
  }

  /** urlparse(url) without the scheme: the scheme is the text before the
      first ':' when it is non-empty, starts with an ASCII letter and holds
      only scheme characters. */
  function AfterScheme(url: string): string {
    var i := IndexOf(url, ':');
    if 0 < i < |url| && IsAsciiLetter(url[0]) && (forall k :: 0 <= k < i ==> IsSchemeChar(url[k]))
    then url[i + 1..] else url
  }

  /** End of the network location: the first '/', '?' or '#' after `from`. */
  function NetlocEnd(s: string, from: nat): (e: nat)
    requires from <= |s|
    ensures from <= e <= |s|
    decreases |s| - from
  {
    if from == |s| || s[from] == '/' || s[from] == '?' || s[from] == '#' then from
    else NetlocEnd(s, from + 1)
  }

  /** urlparse(url).netloc */
  function Netloc(url: string): string {
    var rest := AfterScheme(url);
    if StartsWith(rest, "//") then rest[2..NetlocEnd(rest, 2)] else ""
  }

  /** id.replace(f"file://{urlparse(id).netloc}", ""), the way every caller
      strips the 'file://<host>' prefix of a catalogue id. */
  function StripFileUrl(id: string): string {
    ReplaceAll(id, "file://" + Netloc(id), "")
  }

  /** An id that does not contain "file://" is kept whole. */
  lemma {:induction false} StripPlainId(id: string)
    requires forall k: nat :: k < |id| ==> !OccursAt(id, "file://", k)
    ensures StripFileUrl(id) == id
  {
    var pat := "file://" + Netloc(id);
    forall k: nat | k < |id| ensures !OccursAt(id, pat, k) {
      assert !OccursAt(id, "file://", k);
      assert "file://" <= pat;
    }
    ReplaceAbsent(id, pat, "");
  }

  /** The characters str.isspace() accepts in ASCII. */
  predicate IsSpace(c: char) {
    c == ' ' || c == '\t' || c == '\n' || c == '\r' || c == '\U{B}' || c == '\U{C}'
    || c == '\U{1C}' || c == '\U{1D}' || c == '\U{1E}' || c == '\U{1F}'
  }

  /** s.strip() */
  function Strip(s: string): (r: string)
    ensures r == "" || (!IsSpace(r[0]) && !IsSpace(r[|r| - 1]))
    decreases |s|
  {
    if |s| > 0 && IsSpace(s[0]) then Strip(s[1..])
    else if |s| > 0 && IsSpace(s[|s| - 1]) then Strip(s[..|s| - 1])
    else s
  }

  /** The longest prefix of s without whitespace. */
  function Word(s: string): (w: string)
    ensures w <= s
    ensures forall k :: 0 <= k < |w| ==> !IsSpace(w[k])
    ensures |w| == |s| || IsSpace(s[|w|])
    decreases |s|
  {
    if |s| == 0 || IsSpace(s[0]) then "" else [s[0]] + Word(s[1..])
  }

  /** s.split() with no argument: the maximal runs of non-whitespace. */
  function Words(s: string): (ws: seq<string>)
    ensures forall k :: 0 <= k < |ws| ==> ws[k] != ""
    ensures forall k, j :: 0 <= k < |ws| && 0 <= j < |ws[k]| ==> !IsSpace(ws[k][j])
    decreases |s|
  {
    if |s| == 0 then []
    else if IsSpace(s[0]) then Words(s[1..])
    else
      var w := Word(s);
      [w] + Words(s[|w|..])
  }

  /** The decimal digit of d. */
  function Digit(d: nat): char
    requires d < 10
  {
    (('0' as int) + d) as char
  }

  /** str(n) for a natural number, as an f-string renders it. */
  function NatToString(n: nat): (s: string)
    ensures |s| >= 1
    ensures forall k :: 0 <= k < |s| ==> '0' <= s[k] <= '9'
    decreases n
  {
    if n < 10 then [Digit(n)] else NatToString(n / 10) + [Digit(n % 10)]
  }

  /** The value of a string of decimal digits. */
  function ParseDigits(s: string): nat
    requires forall k :: 0 <= k < |s| ==> '0' <= s[k] <= '9'
    decreases |s|
  {
    if |s| == 0 then 0
    else ParseDigits(s[..|s| - 1]) * 10 + ((s[|s| - 1] as int) - ('0' as int))
  }

  lemma {:induction false} ParseNatToString(n: nat)
    ensures ParseDigits(NatToString(n)) == n
    decreases n
  {
    var s := NatToString(n);
    if n < 10 {
      assert s[..0] == [];
    } else {
      var p := NatToString(n / 10);
      assert s[..|s| - 1] == p;
      assert s[|s| - 1] == Digit(n % 10);
      ParseNatToString(n / 10);
      assert ParseDigits(s) == (n / 10) * 10 + n % 10;
    }
  }

  /** Distinct numbers render as distinct strings. */
  lemma {:induction false} NatToStringInjective(a: nat, b: nat)
    requires a != b
    ensures NatToString(a) != NatToString(b)
  {
    ParseNatToString(a);
    ParseNatToString(b);
  }
}
