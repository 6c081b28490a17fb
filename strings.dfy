/**
 * The Python 2 string operations the scripts are built from (`in`, `split`, `join`,
 * `strip`, `replace`, `int()`, `'%d'`), over `seq<char>`, with the facts about them that the
 * rest of the model relies on.
 */
module Strings {
  import opened Outcomes

  predicate IsDigit(c: char) { '0' <= c <= '9' }

  predicate IsUpper(c: char) { 'A' <= c <= 'Z' }

  predicate IsLower(c: char) { 'a' <= c <= 'z' }

  function ToUpper(c: char): (u: char)
    ensures IsLower(c) ==> IsUpper(u)
    ensures !IsLower(c) ==> u == c
  {
    if IsLower(c) then (c as int - 32) as char else c
  }

  function ToLower(c: char): (l: char)
    ensures IsUpper(c) ==> IsLower(l) && ToUpper(l) == c
    ensures !IsUpper(c) ==> l == c
  {
    if IsUpper(c) then (c as int + 32) as char else c
  }

  /** The characters `str.strip()` removes: space, tab, newline, carriage return, vertical tab, form feed. */
  predicate IsSpace(c: char) {
    c == ' ' || c == '\t' || c == '\n' || c == '\r' || c == '\U{000B}' || c == '\U{000C}'
  }

  predicate AllDigits(s: string) { forall i :: 0 <= i < |s| ==> IsDigit(s[i]) }

  predicate StartsWith(s: string, w: string) { |w| <= |s| && s[..|w|] == w }

  predicate EndsWith(s: string, w: string) { |w| <= |s| && s[|s| - |w|..] == w }

  /** `w` occurs in `s` at index `i`. */
  predicate OccursAt(s: string, w: string, i: nat) { i + |w| <= |s| && s[i..i + |w|] == w }

  /** The first index at or after `from` where `w` occurs in `s`. */
  function FindFrom(s: string, w: string, from: nat): (r: Option<nat>)
    ensures r.Some? ==> from <= r.value && OccursAt(s, w, r.value)
    ensures r.Some? ==> forall j :: from <= j < r.value ==> !OccursAt(s, w, j)
    ensures r.None? ==> forall j :: from <= j ==> !OccursAt(s, w, j)
    decreases |s| - from
  {
    if from + |w| > |s| then None
    else if s[from..from + |w|] == w then Some(from)
    else FindFrom(s, w, from + 1)
  }

  /** The first occurrence of `w` in `s` (Python's `s.find(w)`, None for -1). */
  function Find(s: string, w: string): (r: Option<nat>)
    ensures r.Some? ==> OccursAt(s, w, r.value) && forall j :: 0 <= j < r.value ==> !OccursAt(s, w, j)
    ensures r.None? ==> forall j :: 0 <= j ==> !OccursAt(s, w, j)
  {
    FindFrom(s, w, 0)
  }

  /** Python's `w in s` on strings. */
  predicate Contains(s: string, w: string) { Find(s, w).Some? }

  lemma ContainsAt(s: string, w: string, i: nat)
    requires OccursAt(s, w, i)
    ensures Contains(s, w)
  {
  }

  lemma ContainsChar(s: string, c: char)
    ensures Contains(s, [c]) <==> c in s
  {
    if Contains(s, [c]) {
      var i := Find(s, [c]).value;
      assert s[i] == s[i..i + 1][0];
    }
    if c in s {
      var i :| 0 <= i < |s| && s[i] == c;
      assert OccursAt(s, [c], i);
    }
  }

  /**
   * Python's `s.split(sep)` for a non-empty separator: the pieces between the
   * non-overlapping occurrences of `sep`, found left to right.
   */
  function Split(s: string, sep: string): (r: seq<string>)
    requires sep != []
    ensures |r| >= 1
    ensures forall p :: p in r ==> |p| <= |s|
    ensures Contains(s, sep) ==> |r| >= 2 && forall p :: p in r ==> |p| < |s|
    ensures !Contains(s, sep) ==> r == [s]
    decreases |s|
  {
    match Find(s, sep)
    case None => [s]
    case Some(i) => [s[..i]] + Split(s[i + |sep|..], sep)
  }

  /** Python's `sep.join(ps)`. */
  function Join(ps: seq<string>, sep: string): string
  {
    if |ps| == 0 then []
    else if |ps| == 1 then ps[0]
    else ps[0] + sep + Join(ps[1..], sep)
  }

  /** Joining one more piece adds the separator only when there was a piece before. */
  lemma {:induction false} JoinSnoc(ps: seq<string>, p: string, sep: string)
    ensures Join(ps + [p], sep) == Join(ps, sep) + (if ps == [] then [] else sep) + p
  {
    if |ps| >= 2 {
      assert (ps + [p])[1..] == ps[1..] + [p];
      JoinSnoc(ps[1..], p, sep);
    } else if |ps| == 1 {
      assert (ps + [p])[1..] == [p];
    }
  }

  /** Python's `''.join(ps)`. */
  function Concat(ps: seq<string>): string
  {
    if ps == [] then [] else ps[0] + Concat(ps[1..])
  }

  /** A split that finds the separator at `i`: the text before it, then the split of the rest. */
  lemma SplitFound(s: string, sep: string, i: nat)
    requires sep != [] && Find(s, sep) == Some(i)
    ensures Split(s, sep) == [s[..i]] + Split(s[i + |sep|..], sep)
  {
  }

  /** Joining a piece in front of at least one other adds one separator. */
  lemma JoinCons(p: string, ps: seq<string>, sep: string)
    requires ps != []
    ensures Join([p] + ps, sep) == p + sep + Join(ps, sep)
  {
    assert ([p] + ps)[1..] == ps;
  }

  /** Joining the pieces of a split with the same separator gives back the string. */
  lemma {:induction false} JoinSplit(s: string, sep: string)
    requires sep != []
    ensures Join(Split(s, sep), sep) == s
    decreases |s|
  {
    var f := Find(s, sep);
    if f.Some? {
      var i := f.value;
      var rest := s[i + |sep|..];
      JoinSplit(rest, sep);
      SplitFound(s, sep, i);
      JoinCons(s[..i], Split(rest, sep), sep);
      assert OccursAt(s, sep, i);
      assert s == s[..i] + s[i..i + |sep|] + rest;
    }
  }

  /** A prefix that ends before the first occurrence of `w` does not contain `w`. */
  lemma PrefixBeforeFirst(s: string, w: string, i: nat)
    requires w != [] && i <= |s|
    requires forall j :: 0 <= j < i ==> !OccursAt(s, w, j)
    ensures !Contains(s[..i], w)
  {
    if Contains(s[..i], w) {
      var j := Find(s[..i], w).value;
      assert s[j..j + |w|] == s[..i][j..j + |w|];
      assert OccursAt(s, w, j);
    }
  }

  /** No piece of a split contains the separator. */
  lemma {:induction false} SplitPiecesFree(s: string, sep: string)
    requires sep != []
    ensures forall p :: p in Split(s, sep) ==> !Contains(p, sep)
    decreases |s|
  {
    var f := Find(s, sep);
    if f.Some? {
      var i := f.value;
      var rest := s[i + |sep|..];
      SplitPiecesFree(rest, sep);
      PrefixBeforeFirst(s, sep, i);
      var pieces := Split(rest, sep);
      SplitFound(s, sep, i);
      forall p | p in Split(s, sep)
        ensures !Contains(p, sep)
      {
        if p != s[..i] {
          assert p in pieces;
        }
      }
    }
  }

  /** Splitting on a character: the text before its first occurrence is the first piece. */
  lemma SplitAtChar(a: string, c: char, b: string)
    requires c !in a
    ensures Split(a + [c] + b, [c]) == [a] + Split(b, [c])
  {
    var s := a + [c] + b;
    assert OccursAt(s, [c], |a|) by {
      assert s[|a|..|a| + 1] == [c];
    }
    forall j | 0 <= j < |a|
      ensures !OccursAt(s, [c], j)
    {
      assert s[j..j + 1] == [a[j]];
    }
    assert Find(s, [c]) == Some(|a|);
    assert s[..|a|] == a && s[|a| + 1..] == b;
  }

  /**
   * No occurrence of `sep` can start inside `p`, whatever follows it: such an occurrence
   * would lie within `p` and all of `sep` but its last character.
   */
  predicate Separable(p: string, sep: string)
    requires sep != []
  {
    !Contains(p + sep[..|sep| - 1], sep)
  }

  /** Behind a separable piece, the first occurrence of the separator is the one that follows it. */
  lemma FindAfterPiece(p: string, sep: string, rest: string)
    requires sep != [] && Separable(p, sep)
    ensures Find(p + sep + rest, sep) == Some(|p|)
  {
    var s := p + sep + rest;
    var q := p + sep[..|sep| - 1];
    assert OccursAt(s, sep, |p|) by {
      assert s[|p|..|p| + |sep|] == sep;
    }
    forall j | 0 <= j < |p|
      ensures !OccursAt(s, sep, j)
    {
      assert s[j..j + |sep|] == q[j..j + |sep|];
      assert !OccursAt(q, sep, j);
    }
  }

  /** A separable piece contains no separator. */
  lemma SeparableFree(p: string, sep: string)
    requires sep != [] && Separable(p, sep)
    ensures !Contains(p, sep)
  {
    if Contains(p, sep) {
      var j := Find(p, sep).value;
      var q := p + sep[..|sep| - 1];
      assert q[j..j + |sep|] == p[j..j + |sep|];
      assert OccursAt(q, sep, j);
    }
  }

  /** Splitting the join of separable pieces gives back the pieces (the converse of `JoinSplit`). */
  lemma {:induction false} SplitJoin(ps: seq<string>, sep: string)
    requires sep != [] && ps != [] && forall p <- ps :: Separable(p, sep)
    ensures Split(Join(ps, sep), sep) == ps
    decreases |ps|
  {
    assert ps[0] in ps;
    if |ps| == 1 {
      SeparableFree(ps[0], sep);
      assert Join(ps, sep) == ps[0];
    } else {
      var rest := Join(ps[1..], sep);
      assert forall p <- ps[1..] :: p in ps;
      SplitJoin(ps[1..], sep);
      JoinCons(ps[0], ps[1..], sep);
      assert [ps[0]] + ps[1..] == ps;
      var s := ps[0] + sep + rest;
      assert Join(ps, sep) == s;
      FindAfterPiece(ps[0], sep, rest);
      SplitFound(s, sep, |ps[0]|);
      assert s[..|ps[0]|] == ps[0] && s[|ps[0]| + |sep|..] == rest;
    }
  }

  /** A joined text holds only characters of its pieces and of the separator. */
  lemma {:induction false} JoinChars(ps: seq<string>, sep: string, c: char)
    requires c !in sep && forall p <- ps :: c !in p
    ensures c !in Join(ps, sep)
    decreases |ps|
  {
    if |ps| >= 2 {
      JoinChars(ps[1..], sep, c);
      assert ps[0] in ps;
    } else if |ps| == 1 {
      assert ps[0] in ps;
    }
  }

  /** The length of the run of white space that `s` starts with. */
  function LeadingSpaces(s: string): (n: nat)
    ensures n <= |s|
    ensures forall i :: 0 <= i < n ==> IsSpace(s[i])
    ensures n < |s| ==> !IsSpace(s[n])
  {
    if s != [] && IsSpace(s[0]) then 1 + LeadingSpaces(s[1..]) else 0
  }

  function TrimLeft(s: string): (r: string)
    ensures |r| <= |s| && r == s[|s| - |r|..]
    ensures r == [] || !IsSpace(r[0])
    ensures forall i :: 0 <= i < |s| - |r| ==> IsSpace(s[i])
  {
    s[LeadingSpaces(s)..]
  }

  function TrimRight(s: string): (r: string)
    ensures |r| <= |s| && r == s[..|r|]
    ensures r == [] || !IsSpace(r[|r| - 1])
    ensures forall i :: |r| <= i < |s| ==> IsSpace(s[i])
  {
    if s != [] && IsSpace(s[|s| - 1]) then TrimRight(s[..|s| - 1]) else s
  }

  /**
   * Python's `s.strip()`: `s` without its leading and trailing white space.  The result is
   * the slice of `s` that starts after the white space removed at the front.
   */
  function Strip(s: string): (r: string)
    ensures |r| <= |s|
    ensures r == [] || (!IsSpace(r[0]) && !IsSpace(r[|r| - 1]))
    ensures |r| <= |TrimLeft(s)|
    ensures r == s[|s| - |TrimLeft(s)|..|s| - |TrimLeft(s)| + |r|]
  {
    var t := TrimLeft(s);
    var r := TrimRight(t);
    assert |r| <= |t| <= |s|;
    r
  }

  /** A string with no white space at either end is its own strip. */
  lemma StripUnchanged(s: string)
    requires s == [] || (!IsSpace(s[0]) && !IsSpace(s[|s| - 1]))
    ensures Strip(s) == s
  {
  }

  /** Each line with its surrounding white space removed. */
  function Stripped(lines: seq<string>): (r: seq<string>)
    ensures |r| == |lines| && forall i :: 0 <= i < |lines| ==> r[i] == Strip(lines[i])
  {
    seq(|lines|, i requires 0 <= i < |lines| => Strip(lines[i]))
  }

  /** `' '.join([x.strip() for x in lines])`: the lines stripped and joined with single spaces. */
  function JoinStripped(lines: seq<string>): string
  {
    Join(Stripped(lines), " ")
  }

  /** The length of the run of non-white-space characters that `s` starts with. */
  function WordLength(s: string): (n: nat)
    ensures n <= |s|
    ensures forall i :: 0 <= i < n ==> !IsSpace(s[i])
    ensures n < |s| ==> IsSpace(s[n])
  {
    if s != [] && !IsSpace(s[0]) then 1 + WordLength(s[1..]) else 0
  }

  /** Python's `s.split()` with no separator: the maximal runs of non-white-space characters. */
  function Words(s: string): (ws: seq<string>)
    ensures forall w :: w in ws ==> w != [] && forall i :: 0 <= i < |w| ==> !IsSpace(w[i])
    decreases |s|
  {
    var t := TrimLeft(s);
    if t == [] then []
    else
      var n := WordLength(t);
      assert n > 0;
      var rest := Words(t[n..]);
      assert forall w :: w in [t[..n]] + rest ==> w == t[..n] || w in rest;
      [t[..n]] + rest
  }

  /** Python's `s.replace(pattern, replacement)`: every non-overlapping occurrence, left to right. */
  function Replace(s: string, pattern: string, replacement: string): string
    requires pattern != []
  {
    Join(Split(s, pattern), replacement)
  }

  /** The length of the run of digits that `s` starts with. */
  function LeadingDigits(s: string): (n: nat)
    ensures n <= |s|
    ensures AllDigits(s[..n])
    ensures n < |s| ==> !IsDigit(s[n])
  {
    if s != [] && IsDigit(s[0]) then 1 + LeadingDigits(s[1..]) else 0
  }

  /** The digit run of `d + rest` is exactly `d` when `rest` does not continue it. */
  lemma {:induction false} LeadingDigitsOf(d: string, rest: string)
    requires AllDigits(d)
    requires rest == [] || !IsDigit(rest[0])
    ensures LeadingDigits(d + rest) == |d|
  {
    if d != [] {
      assert (d + rest)[1..] == d[1..] + rest;
      LeadingDigitsOf(d[1..], rest);
    }
  }

  /** Python's `int(s)` on a string of decimal digits. */
  function ParseNat(s: string): nat
    requires AllDigits(s)
  {
    if s == [] then 0 else 10 * ParseNat(s[..|s| - 1]) + (s[|s| - 1] as int - '0' as int)
  }

  /** Python's `'%d' % n` for a natural number. */
  function NatToString(n: nat): (s: string)
    ensures s != [] && AllDigits(s)
    ensures |s| > 1 ==> s[0] != '0'
  {
    if n < 10 then [('0' as int + n) as char]
    else NatToString(n / 10) + [('0' as int + n % 10) as char]
  }

  /** Reading back a printed number gives the number. */
  lemma {:induction false} ParsePrinted(n: nat)
    ensures ParseNat(NatToString(n)) == n
  {
    if n >= 10 {
      ParsePrinted(n / 10);
      var s := NatToString(n);
      assert s[..|s| - 1] == NatToString(n / 10);
    }
  }
}
