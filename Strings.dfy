/** The Python string and `os.path` operations the bridge relies on
    (`startswith`, `in`, `rstrip`, `strip`, `replace`, `join`, `split`,
    `basename`, `dirname`, `join`, `splitext`), written out over `seq<char>`. */
module Strings {

  predicate StartsWith(s: string, prefix: string) {
    |prefix| <= |s| && s[..|prefix|] == prefix
  }

  predicate EndsWith(s: string, suffix: string) {
    |suffix| <= |s| && s[|s| - |suffix|..] == suffix
  }

  /** Python's `sub in s`. */
  predicate Contains(s: string, sub: string)
    decreases |s|
  {
    StartsWith(s, sub) || (|s| > 0 && Contains(s[1..], sub))
  }

  /** An occurrence at position `k` is found by `Contains`. */
  lemma {:induction false} ContainsAt(s: string, k: nat, sub: string)
    requires k <= |s| && StartsWith(s[k..], sub)
    ensures Contains(s, sub)
    decreases k
  {
    if k > 0 {
      assert s[1..][k - 1..] == s[k..];
      ContainsAt(s[1..], k - 1, sub);
    } else {
      assert s[0..] == s;
    }
  }

  /** Every match found by `Contains` is an occurrence at some position. */
  lemma {:induction false} ContainsWitness(s: string, sub: string) returns (k: nat)
    requires Contains(s, sub)
    ensures k + |sub| <= |s| && s[k..k + |sub|] == sub
    decreases |s|
  {
    if StartsWith(s, sub) {
      k := 0;
    } else {
      var j := ContainsWitness(s[1..], sub);
      assert s[1..][j..j + |sub|] == s[j + 1..j + 1 + |sub|];
      k := j + 1;
    }
  }

  /** A text shorter than `sub` cannot contain it. */
  lemma ShorterNotContains(s: string, sub: string)
    requires |s| < |sub|
    ensures !Contains(s, sub)
  {
    if Contains(s, sub) {
      var k := ContainsWitness(s, sub);
    }
  }

  /** Every character of a contained text occurs in the containing one. */
  lemma ContainedChars(s: string, sub: string)
    requires Contains(s, sub)
    ensures forall x :: x in sub ==> x in s
  {
    var k := ContainsWitness(s, sub);
    forall x | x in sub ensures x in s {
      var i :| 0 <= i < |sub| && sub[i] == x;
      assert s[k + i] == x;
    }
  }

  /** A text lacking one of the characters of `sub` does not contain it. */
  lemma MissingCharNotContains(s: string, sub: string, c: char)
    requires c in sub && c !in s
    ensures !Contains(s, sub)
  {
    if Contains(s, sub) {
      ContainedChars(s, sub);
    }
  }

  /** When the first character of `sub` is absent from `a` and its last
      from `d`, an occurrence in `a + b + d` lies within `b`. */
  lemma ContainsInMiddle(a: string, b: string, d: string, sub: string)
    requires sub != [] && sub[0] !in a && sub[|sub| - 1] !in d
    ensures Contains(a + b + d, sub) <==> Contains(b, sub)
  {
    var s := a + b + d;
    if Contains(s, sub) {
      var k := ContainsWitness(s, sub);
      var e := k + |sub| - 1;
      assert s[k] == sub[0] && s[e] == sub[|sub| - 1];
      assert k >= |a| && e < |a| + |b|;
      assert b[k - |a|..k - |a| + |sub|] == s[k..k + |sub|];
      ContainsAt(b, k - |a|, sub);
    }
    if Contains(b, sub) {
      var j := ContainsWitness(b, sub);
      assert s[|a| + j..][..|sub|] == sub;
      ContainsAt(s, |a| + j, sub);
    }
  }

  /** An occurrence inside `b` is an occurrence inside `a + b + d`. */
  lemma ContainsWithin(a: string, b: string, d: string, sub: string)
    requires Contains(b, sub)
    ensures Contains(a + b + d, sub)
  {
    var s := a + b + d;
    var j := ContainsWitness(b, sub);
    assert s[|a| + j..][..|sub|] == sub;
    ContainsAt(s, |a| + j, sub);
  }

  predicate AllChar(s: string, c: char) {
    forall i :: 0 <= i < |s| ==> s[i] == c
  }

  predicate IsAscii(s: string) {
    forall i :: 0 <= i < |s| ==> s[i] as int < 128
  }

  /** `s.rstrip(c)`: drops every trailing `c`. */
  function TrimTrailing(s: string, c: char): (r: string)
    ensures |r| <= |s| && r == s[..|r|]
    ensures forall i :: |r| <= i < |s| ==> s[i] == c
    ensures |r| > 0 ==> r[|r| - 1] != c
    decreases |s|
  {
    if |s| > 0 && s[|s| - 1] == c then TrimTrailing(s[..|s| - 1], c) else s
  }

  /** The characters Python's `str.strip()` removes (`str.isspace`). */
  predicate IsSpace(ch: char) {
    || ch == ' '
    || ('\t' <= ch <= '\r')
    || ('\U{1c}' <= ch <= '\U{1f}')
    || ch == '\U{85}' || ch == '\U{a0}' || ch == '\U{1680}'
    || ('\U{2000}' <= ch <= '\U{200a}')
    || ch == '\U{2028}' || ch == '\U{2029}' || ch == '\U{202f}'
    || ch == '\U{205f}' || ch == '\U{3000}'
  }

  function StripEnd(s: string): (r: string)
    ensures |r| <= |s| && r == s[..|r|]
    ensures forall i :: |r| <= i < |s| ==> IsSpace(s[i])
    ensures |r| > 0 ==> !IsSpace(r[|r| - 1])
    decreases |s|
  {
    if |s| > 0 && IsSpace(s[|s| - 1]) then StripEnd(s[..|s| - 1]) else s
  }

  function StripStart(s: string): (r: string)
    ensures |r| <= |s| && r == s[|s| - |r|..]
    ensures forall i :: 0 <= i < |s| - |r| ==> IsSpace(s[i])
    ensures |r| > 0 ==> !IsSpace(r[0])
    decreases |s|
  {
    if |s| > 0 && IsSpace(s[0]) then StripStart(s[1..]) else s
  }

  /** `s.strip()`. */
  function Strip(s: string): string {
    StripStart(StripEnd(s))
  }

  /** `s.strip()` is empty exactly when `s` is all whitespace; otherwise it
      neither starts nor ends with whitespace. */
  lemma StripShape(s: string)
    ensures Strip(s) == "" <==> forall i :: 0 <= i < |s| ==> IsSpace(s[i])
    ensures Strip(s) != "" ==> !IsSpace(Strip(s)[0]) && !IsSpace(Strip(s)[|Strip(s)| - 1])
  {
    var e := StripEnd(s);
    var r := StripStart(e);
    assert r == "" ==> |e| == 0;
    assert forall i :: 0 <= i < |e| ==> e[i] == s[i];
    if r != "" {
      assert r[|r| - 1] == e[|e| - 1];
    }
  }

  /** `s.replace(c, '')`. */
  function RemoveAll(s: string, c: char): (r: string)
    ensures c !in r
    ensures forall x :: x != c ==> (x in r <==> x in s)
    ensures |r| <= |s|
    ensures c !in s ==> r == s
  {
    if s == [] then [] else (if s[0] == c then [] else [s[0]]) + RemoveAll(s[1..], c)
  }

  /** `replace` works character by character: removal distributes over
      concatenation, so the other characters keep their order and their
      number (with `RemoveAllOne`). */
  lemma {:induction false} RemoveAllAppend(a: string, b: string, c: char)
    ensures RemoveAll(a + b, c) == RemoveAll(a, c) + RemoveAll(b, c)
  {
    if a == [] {
      assert a + b == b;
    } else {
      var ab := a + b;
      assert ab[0] == a[0] && ab[1..] == a[1..] + b;
      RemoveAllAppend(a[1..], b, c);
    }
  }

  /** A single character is dropped when it is `c` and kept otherwise. */
  lemma RemoveAllOne(x: char, c: char)
    ensures RemoveAll([x], c) == if x == c then [] else [x]
  {
    assert [x][1..] == [];
  }

  /** `s.replace(a, b)` for single characters. */
  function ReplaceChar(s: string, a: char, b: char): (r: string)
    ensures |r| == |s|
    ensures forall i :: 0 <= i < |s| ==> r[i] == (if s[i] == a then b else s[i])
  {
    seq(|s|, i requires 0 <= i < |s| => if s[i] == a then b else s[i])
  }

  lemma ReplaceAbsent(s: string, a: char, b: char)
    requires a !in s
    ensures ReplaceChar(s, a, b) == s
  {
  }

  /** `sep.join(xs)`. */
  function Join(xs: seq<string>, sep: string): string
  {
    if |xs| == 0 then "" else if |xs| == 1 then xs[0] else xs[0] + sep + Join(xs[1..], sep)
  }

  /** Appending one more item to a joined list extends the text by the
      separator and that item, so items appear in list order. */
  lemma {:induction false} JoinSnoc(xs: seq<string>, x: string, sep: string)
    requires |xs| > 0
    ensures Join(xs + [x], sep) == Join(xs, sep) + sep + x
    decreases |xs|
  {
    if |xs| == 1 {
      assert xs + [x] == [xs[0], x];
      assert [xs[0], x][1..] == [x];
    } else {
      assert (xs + [x])[1..] == xs[1..] + [x];
      JoinSnoc(xs[1..], x, sep);
    }
  }

  /** `s.split(c)`. */
  function Split(s: string, c: char): (r: seq<string>)
    ensures |r| > 0
  {
    if s == [] then [""]
    else
      var rest := Split(s[1..], c);
      if s[0] == c then [""] + rest else [[s[0]] + rest[0]] + rest[1..]
  }

  lemma {:induction false} SplitNoSeparator(s: string, c: char)
    requires c !in s
    ensures Split(s, c) == [s]
  {
    if s != [] {
      SplitNoSeparator(s[1..], c);
      assert s[0] in s;
      assert [s[0]] + s[1..] == s;
    }
  }

  lemma {:induction false} SplitAfter(a: string, b: string, c: char)
    requires c !in a
    ensures Split(a + [c] + b, c) == [a] + Split(b, c)
  {
    if a == [] {
      assert (a + [c] + b)[1..] == b;
    } else {
      assert (a + [c] + b)[1..] == a[1..] + [c] + b;
      assert (a + [c] + b)[0] == a[0] && a[0] in a;
      SplitAfter(a[1..], b, c);
      assert [a[0]] + a[1..] == a;
    }
  }

  /** Splitting a comma-joined list gives the list back when no item holds
      the separator. */
  lemma {:induction false} SplitJoin(xs: seq<string>, c: char)
    requires |xs| > 0
    requires forall i :: 0 <= i < |xs| ==> c !in xs[i]
    ensures Split(Join(xs, [c]), c) == xs
  {
    if |xs| == 1 {
      SplitNoSeparator(xs[0], c);
    } else {
      SplitJoin(xs[1..], c);
      SplitAfter(xs[0], Join(xs[1..], [c]), c);
      assert [xs[0]] + xs[1..] == xs;
    }
  }

  /** Python's `s.rfind(c)`. */
  function LastIndexOf(s: string, c: char): (r: int)
    ensures -1 <= r < |s|
    ensures r >= 0 ==> s[r] == c
    ensures forall j :: r < j < |s| ==> s[j] != c
  {
    if |s| == 0 then -1 else if s[|s| - 1] == c then |s| - 1 else LastIndexOf(s[..|s| - 1], c)
  }

  /** `os.path.basename` (POSIX). */
  function Basename(p: string): string {
    p[LastIndexOf(p, '/') + 1..]
  }

  lemma LastIndexBeforeEnd(p: string, c: char)
    requires |p| > 0 && p[|p| - 1] != c
    ensures LastIndexOf(p, c) < |p| - 1
  {
  }

  lemma TailAfterLast(p: string, k: int, c: char)
    requires -1 <= k < |p| - 1 && '\\' !in p && forall j :: k < j < |p| ==> p[j] != c
    ensures var b := p[k + 1..]; b != "" && c !in b && '\\' !in b && b[0] != c
  {
    assert p[k + 1..][0] == p[k + 1];
  }

  /** A path that does not end in '/' has a non-empty last component with
      no separator in it. */
  lemma BasenameShape(p: string)
    requires |p| > 0 && p[|p| - 1] != '/' && '\\' !in p
    ensures var b := Basename(p); b != "" && '/' !in b && '\\' !in b && b[0] != '/'
  {
    LastIndexBeforeEnd(p, '/');
    TailAfterLast(p, LastIndexOf(p, '/'), '/');
  }

  /** `os.path.dirname` (POSIX). */
  function Dirname(p: string): string {
    var head := p[..LastIndexOf(p, '/') + 1];
    if head != "" && !AllChar(head, '/') then TrimTrailing(head, '/') else head
  }

  /** `os.path.join(a, b)` (POSIX, two arguments). */
  function PathJoin(a: string, b: string): string {
    if StartsWith(b, "/") then b
    else if a == "" || EndsWith(a, "/") then a + b
    else a + "/" + b
  }

  /** The extension `os.path.splitext(p)[1]`: from the last '.' of the last
      component, provided that component has a non-dot before it. */
  function Extension(p: string): string {
    var sep := LastIndexOf(p, '/');
    var dot := LastIndexOf(p, '.');
    if dot > sep && (exists i :: sep + 1 <= i < dot && p[i] != '.') then p[dot..] else ""
  }

  lemma ReplaceConcat(x: string, y: string, a: char, b: char)
    ensures ReplaceChar(x + y, a, b) == ReplaceChar(x, a, b) + ReplaceChar(y, a, b)
  {
  }

  /** When `x` is empty or ends with `c` and `n` holds no `c`, the last `c`
      of `x + n` is the last character of `x`. */
  lemma LastIndexAtBoundary(x: string, n: string, c: char)
    requires x != [] ==> x[|x| - 1] == c
    requires c !in n
    ensures LastIndexOf(x + n, c) == |x| - 1
  {
    var s := x + n;
    forall j | |x| <= j < |s| ensures s[j] != c {
      assert s[j] == n[j - |x|] && n[j - |x|] in n;
    }
    if x != [] {
      assert s[|x| - 1] == c;
    }
  }

  /** A name with no separator, joined under any directory and with
      backslashes turned into slashes, is the basename of the result. */
  lemma BasenameOfJoin(dir: string, name: string)
    requires name != "" && '/' !in name && '\\' !in name
    ensures Basename(ReplaceChar(PathJoin(dir, name), '\\', '/')) == name
  {
    var prefix := if dir == "" || EndsWith(dir, "/") then dir else dir + "/";
    assert !StartsWith(name, "/") by { assert name[0] in name; }
    assert PathJoin(dir, name) == prefix + name;
    ReplaceConcat(prefix, name, '\\', '/');
    ReplaceAbsent(name, '\\', '/');
    var p := ReplaceChar(prefix, '\\', '/');
    assert prefix != [] ==> prefix[|prefix| - 1] == '/';
    LastIndexAtBoundary(p, name, '/');
    assert (p + name)[|p|..] == name;
  }

  /** The idealised `json.dumps([s])`: a one-element JSON array whose
      string escapes quotes and backslashes. */
  function JsonStringArray(s: string): string {
    "[\"" + JsonEscape(s) + "\"]"
  }

  function JsonEscape(s: string): string {
    if s == [] then [] else (if s[0] == '"' || s[0] == '\\' then ['\\', s[0]] else [s[0]]) + JsonEscape(s[1..])
  }

  function JsonUnescape(s: string): string {
    if s == [] then []
    else if s[0] == '\\' && |s| >= 2 then [s[1]] + JsonUnescape(s[2..])
    else [s[0]] + JsonUnescape(s[1..])
  }

  /** The escaping is lossless: the backend can recover the exact value. */
  lemma {:induction false} JsonRoundTrip(s: string)
    ensures JsonUnescape(JsonEscape(s)) == s
  {
    if s != [] {
      JsonRoundTrip(s[1..]);
      var rest := JsonEscape(s[1..]);
      if s[0] == '"' || s[0] == '\\' {
        assert (['\\', s[0]] + rest)[2..] == rest;
      } else {
        assert ([s[0]] + rest)[1..] == rest;
      }
      assert [s[0]] + s[1..] == s;
    }
  }
}
