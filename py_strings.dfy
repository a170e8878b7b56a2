/**
 * The Python string operations the two jobs rely on, each with the semantics
 * of the Python builtin it stands for: `sub in s`, `s.replace(pat, rep)`,
 * `s.split(sep)`, `sep.join(parts)`, `os.path.split(p)[0]` and `str(n)` for a
 * non-negative integer.
 */
module PyStrings {

  /** `sub in s`. */
  predicate Contains(s: string, sub: string)
    decreases |s|
  {
    sub <= s || (s != [] && Contains(s[1..], sub))
  }

  /**
   * `s.replace(pat, rep)`: every non-overlapping occurrence of `pat`, found
   * scanning from the left, is replaced by `rep`. An empty `pat` matches at
   * every position, as in Python (`'ab'.replace('', 'X') == 'XaXbX'`).
   */
  function ReplaceAll(s: string, pat: string, rep: string): (r: string)
    ensures pat != [] && !Contains(s, pat) ==> r == s
    ensures pat != [] && pat <= s ==> rep <= r
    decreases |s|
  {
    if pat == [] then
      rep + (if s == [] then [] else [s[0]] + ReplaceAll(s[1..], pat, rep))
    else if pat <= s then
      rep + ReplaceAll(s[|pat|..], pat, rep)
    else if s == [] then
      []
    else
      [s[0]] + ReplaceAll(s[1..], pat, rep)
  }

  /** A key that starts with `pat` and has no further occurrence of it gets its prefix swapped. */
  lemma ReplaceLeading(pat: string, rest: string, rep: string)
    requires pat != [] && !Contains(rest, pat)
    ensures ReplaceAll(pat + rest, pat, rep) == rep + rest
  {
    assert pat <= pat + rest;
    assert (pat + rest)[|pat|..] == rest;
  }

  /** `s.split(sep)` for a non-empty separator. */
  function Split(s: string, sep: string): (parts: seq<string>)
    requires sep != []
    ensures |parts| >= 1
    decreases |s|
  {
    if sep <= s then
      [""] + Split(s[|sep|..], sep)
    else if s == [] then
      [""]
    else
      var rest := Split(s[1..], sep);
      [[s[0]] + rest[0]] + rest[1..]
  }

  /** `sep.join(parts)`. */
  function Join(parts: seq<string>, sep: string): string
    decreases |parts|
  {
    if parts == [] then ""
    else if |parts| == 1 then parts[0]
    else parts[0] + sep + Join(parts[1..], sep)
  }

  lemma JoinCons(head: string, tail: seq<string>, sep: string)
    requires |tail| >= 1
    ensures Join([head] + tail, sep) == head + sep + Join(tail, sep)
  {
    assert ([head] + tail)[1..] == tail;
  }

  lemma JoinExtendFirst(c: char, parts: seq<string>, sep: string)
    requires |parts| >= 1
    ensures Join([[c] + parts[0]] + parts[1..], sep) == [c] + Join(parts, sep)
  {
    if |parts| > 1 {
      JoinCons([c] + parts[0], parts[1..], sep);
      JoinCons(parts[0], parts[1..], sep);
      assert [parts[0]] + parts[1..] == parts;
    }
  }

  /**
   * Python's `s.replace(pat, rep) == rep.join(s.split(pat))` for a non-empty
   * `pat`: every occurrence of `pat` is replaced, wherever it lies.
   */
  lemma {:induction false} ReplaceIsJoinSplit(s: string, pat: string, rep: string)
    requires pat != []
    ensures ReplaceAll(s, pat, rep) == Join(Split(s, pat), rep)
    decreases |s|
  {
    if pat <= s {
      var after := s[|pat|..];
      var parts := Split(after, pat);
      assert ReplaceAll(s, pat, rep) == rep + ReplaceAll(after, pat, rep);
      assert Split(s, pat) == [""] + parts;
      ReplaceIsJoinSplit(after, pat, rep);
      JoinCons("", parts, rep);
      assert "" + rep == rep;
    } else if s != [] {
      var parts := Split(s[1..], pat);
      assert ReplaceAll(s, pat, rep) == [s[0]] + ReplaceAll(s[1..], pat, rep);
      assert Split(s, pat) == [[s[0]] + parts[0]] + parts[1..];
      ReplaceIsJoinSplit(s[1..], pat, rep);
      JoinExtendFirst(s[0], parts, rep);
    }
  }

  /**
   * Splitting at a separator found after a stretch `pre` in which no occurrence
   * starts: the first piece is `pre` followed by the first piece of the rest.
   */
  lemma {:induction false} SplitAfterStretch(pre: string, s: string, sep: string)
    requires sep != []
    requires forall i :: 0 <= i < |pre| ==> !(sep <= (pre + s)[i..])
    ensures Split(pre + s, sep) == [pre + Split(s, sep)[0]] + Split(s, sep)[1..]
    decreases |pre|
  {
    if pre != [] {
      var t := pre + s;
      assert t[1..] == pre[1..] + s;
      forall i | 0 <= i < |pre[1..]|
        ensures !(sep <= (pre[1..] + s)[i..])
      {
        assert (pre[1..] + s)[i..] == t[i + 1..];
      }
      SplitAfterStretch(pre[1..], s, sep);
      assert !(sep <= t[0..]);
      assert t[0..] == t;
      var rest := Split(t[1..], sep);
      assert Split(t, sep) == [[t[0]] + rest[0]] + rest[1..];
      assert rest == [pre[1..] + Split(s, sep)[0]] + Split(s, sep)[1..];
      assert t[0] == pre[0];
      assert [t[0]] + rest[0] == [pre[0]] + pre[1..] + Split(s, sep)[0];
      assert [pre[0]] + pre[1..] == pre;
      assert rest[1..] == Split(s, sep)[1..];
    } else {
      assert pre + s == s;
      assert pre + Split(s, sep)[0] == Split(s, sep)[0];
      assert [Split(s, sep)[0]] + Split(s, sep)[1..] == Split(s, sep);
    }
  }

  /** Index just past the last '/' of `s`, or 0 if there is none: `s.rfind('/') + 1`. */
  function AfterLastSlash(s: string): (i: nat)
    ensures i <= |s|
    ensures i > 0 ==> s[i - 1] == '/'
    ensures forall j :: i <= j < |s| ==> s[j] != '/'
    decreases |s|
  {
    if s == [] then 0
    else if s[|s| - 1] == '/' then |s|
    else AfterLastSlash(s[..|s| - 1])
  }

  predicate AllSlashes(s: string) {
    forall j :: 0 <= j < |s| ==> s[j] == '/'
  }

  /** `s.rstrip('/')`. */
  function RStripSlashes(s: string): (r: string)
    ensures r <= s
    ensures r == [] || r[|r| - 1] != '/'
    ensures forall j :: |r| <= j < |s| ==> s[j] == '/'
    decreases |s|
  {
    if s != [] && s[|s| - 1] == '/' then RStripSlashes(s[..|s| - 1]) else s
  }

  /** `os.path.split(p)[0]` for POSIX paths: everything before the last '/', trailing slashes removed. */
  function PathHead(p: string): string {
    var head := p[..AfterLastSlash(p)];
    if head != [] && !AllSlashes(head) then RStripSlashes(head) else head
  }

  /** The head of `dir/name` is `dir` itself, up to its trailing slashes. */
  lemma PathHeadOfChild(dir: string, name: string)
    requires '/' !in name
    ensures PathHead(dir + "/" + name) == if AllSlashes(dir) then dir + "/" else RStripSlashes(dir)
  {
    var p := dir + "/" + name;
    var i := AfterLastSlash(p);
    assert p[|dir|] == '/';
    assert i == |dir| + 1;
    assert p[..i] == dir + "/";
    if !AllSlashes(dir) {
      var j :| 0 <= j < |dir| && dir[j] != '/';
      assert (dir + "/")[j] == dir[j];
      assert (dir + "/")[..|dir|] == dir;
    }
  }

  function DigitChar(d: nat): char
    requires d < 10
  {
    (48 + d) as char
  }

  predicate IsDigit(c: char) {
    48 <= c as int <= 57
  }

  function DigitValue(c: char): nat
    requires IsDigit(c)
  {
    c as int - 48
  }

  /** `str(n)` for a non-negative integer: decimal digits, no leading zero. */
  function Decimal(n: nat): (s: string)
    ensures |s| >= 1
    ensures forall i :: 0 <= i < |s| ==> IsDigit(s[i])
    decreases n
  {
    if n < 10 then [DigitChar(n)] else Decimal(n / 10) + [DigitChar(n % 10)]
  }

  /** `int(s)` for a string of decimal digits. */
  function ParseDecimal(s: string): nat
    requires forall i :: 0 <= i < |s| ==> IsDigit(s[i])
    decreases |s|
  {
    if s == [] then 0
    else 10 * ParseDecimal(s[..|s| - 1]) + DigitValue(s[|s| - 1])
  }

  /** Reading back what `str` wrote gives the number: `int(str(n)) == n`. */
  lemma {:induction false} ParseDecimalOfDecimal(n: nat)
    ensures ParseDecimal(Decimal(n)) == n
    decreases n
  {
    if n >= 10 {
      var s := Decimal(n);
      assert s[..|s| - 1] == Decimal(n / 10);
      ParseDecimalOfDecimal(n / 10);
    }
  }
}
