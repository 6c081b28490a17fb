/**
 * The link-expression acceptor of verify.py (`validate_link`, verify.py:24-147).
 *
 * A link is split on ";" first and on " or " otherwise; it is valid when every stripped
 * piece is.  A piece is valid when it is empty, a lone clause letter, or an entry reference
 * followed by optional productions that together consume the whole piece.
 *
 * Each production of the source is a regular expression `^(X)?(?P<extra>.*)$`.  On the
 * newline-free text it is applied to, such a pattern always matches, and the engine keeps
 * the first way X can match a prefix in backtracking order (alternatives left to right,
 * `?` and `*` greedy, `.*?` lazy), or consumes nothing when X cannot match.  A matcher here
 * returns the remainders of the input after every way its pattern can match a prefix, in
 * exactly that order; the production keeps the head of that list.
 */
module LinkGrammar {
  import opened Outcomes
  import opened Strings

  /** Remainders after each match of a pattern against a prefix, in backtracking order. */
  type Rests = seq<string>


  /** A literal of a pattern (never empty): the remainder after `w`, if the input starts with it. */
  function Lit(s: string, w: string): Rests
  {
    if w != [] && StartsWith(s, w) then [s[|w|..]] else []
  }

  /** Sequencing: every way to continue with `f` from every remainder, in order. */
  function Bind(rs: Rests, f: string --> Rests): Rests
    requires forall r :: r in rs ==> f.requires(r)
  {
    if rs == [] then [] else f(rs[0]) + Bind(rs[1..], f)
  }

  /** The first remainder of a production that can match, or the input when none can. */
  function Optional(s: string, rs: Rests): string
  {
    if rs == [] then s else rs[0]
  }

  // ---------------------------------------------------------------- character tags

  /** `w1|w2|...`: the remainders after each word the input starts with, alternatives left to right. */
  function Alternatives(s: string, words: seq<string>): Rests
  {
    if words == [] then [] else Lit(s, words[0]) + Alternatives(s, words[1..])
  }

  /** `-[...]`: a dash and one of `digits`. */
  function DashDigit(s: string, digits: string): Rests
  {
    if |s| >= 2 && s[0] == '-' && s[1] in digits then [s[2..]] else []
  }

  /** `A(X|-[1-9])?`, or `B(X|-[2-58])?` with `lead` 'B': the lead letter, then greedily the extension. */
  function Lettered(s: string, lead: string, digits: string): Rests
  {
    if StartsWith(s, lead) then
      var r := s[|lead|..];
      Lit(r, "X") + DashDigit(r, digits) + [r]
    else []
  }

  /** The remainders after each closing quote `”` in `s`, left to right. */
  function AfterClosingQuotes(s: string): Rests
  {
    if s == [] then []
    else (if s[0] == '”' then [s[1..]] else []) + AfterClosingQuotes(s[1..])
  }

  /** `“.*?”`: a curly-quoted name, the shortest first. */
  function LazyQuoted(s: string): Rests
  {
    if StartsWith(s, "“") then AfterClosingQuotes(s[1..]) else []
  }

  function Reversed(rs: Rests): Rests
  {
    if rs == [] then [] else Reversed(rs[1..]) + [rs[0]]
  }

  /** `“.*”`: a curly-quoted text, the longest first. */
  function GreedyQuoted(s: string): Rests
  {
    Reversed(LazyQuoted(s))
  }

  /** Tried first, so that they win over `A` and `B` (verify.py:27). */
  const FrontTags: seq<string> := ["AUX", "BR-A", "BR-B"]

  /** The relatives written with `-A` (verify.py:30). */
  const RelativesA: seq<string> := ["D", "F", "GF", "M", "NW", "P", "SN", "SR", "U"]

  /** The relatives written with `-B` (verify.py:31). */
  const RelativesB: seq<string> := ["D", "F", "GF", "M", "SM", "SN", "SR"]

  /** The bare tags (verify.py:32). */
  const BareTags: seq<string> := ["CH", "CN", "D", "FA", "FB", "GCH", "NW", "SN", "SR", "SX", "U", "X"]

  /** `AUX|BR-A|BR-B`. */
  function FrontTag(s: string): Rests { Alternatives(s, FrontTags) }

  /** `A(X|-[1-9])?`. */
  function TagA(s: string): Rests { Lettered(s, "A", "123456789") }

  /** `B(X|-[2-58])?`. */
  function TagB(s: string): Rests { Lettered(s, "B", "23458") }

  /** `(D|F|GF|M|NW|P|SN|SR|U)-A`. */
  function RelativeA(s: string): Rests { Bind(Alternatives(s, RelativesA), r => Lit(r, "-A")) }

  /** `(D|F|GF|M|SM|SN|SR)-B`. */
  function RelativeB(s: string): Rests { Bind(Alternatives(s, RelativesB), r => Lit(r, "-B")) }

  /** `CH|CN|D|FA|FB|GCH|NW|SN|SR|SX|U|X`. */
  function BareTag(s: string): Rests { Alternatives(s, BareTags) }

  /**
   * The alternatives of the character-tag pattern of verify.py:26-35, in the source's order:
   * the front tags, the `A` and `B` forms, the relatives ending in `-A` and `-B`, the bare
   * tags, and a curly-quoted name.
   */
  const TagForms: seq<string -> Rests> := [FrontTag, TagA, TagB, RelativeA, RelativeB, BareTag, LazyQuoted]

  /** The matches of the tag alternatives from the `k`-th on, left to right. */
  function TagFrom(k: nat, s: string): Rests
    decreases |TagForms| - k
  {
    if k >= |TagForms| then [] else TagForms[k](s) + TagFrom(k + 1, s)
  }

  /** The character-tag pattern of verify.py:26-35. */
  function Tag(s: string): Rests
  {
    TagFrom(0, s)
  }

  // ---------------------------------------------------------------- the entry reference

  /** `(, [a-h])*`, greedy. */
  function MoreLetters(s: string): (r: string)
    ensures |r| <= |s|
  {
    if |s| >= 3 && s[..2] == ", " && 'a' <= s[2] <= 'h' then MoreLetters(s[3..]) else s
  }

  /**
   * `^\d+([a-h](, [a-h])*)?`, verify.py:64: the text after the entry id and its clause
   * letters, or None when the piece does not start with a digit.
   */
  function Reference(s: string): (r: Option<string>)
    ensures r.Some? <==> s != [] && IsDigit(s[0])
  {
    var n := LeadingDigits(s);
    if n == 0 then None
    else
      var rest := s[n..];
      if rest != [] && 'a' <= rest[0] <= 'h' then Some(MoreLetters(rest[1..])) else Some(rest)
  }

  /** An optional literal with nothing after it: consumed when present. */
  function Skip(s: string, w: string): string
  {
    if StartsWith(s, w) then s[|w|..] else s
  }

  /** The optional suffixes of verify.py:70, in the order the pattern takes them. */
  const SuffixWords: seq<string> := ["-1", "-2", "-3", "-4"]

  /** The suffixes from the `k`-th on, each consumed when present. */
  function SkipFrom(k: nat, s: string): string
    decreases |SuffixWords| - k
  {
    if k >= |SuffixWords| then s else SkipFrom(k + 1, Skip(s, SuffixWords[k]))
  }

  /** `^(-1)?(-2)?(-3)?(-4)?`, verify.py:70. */
  function Suffixes(s: string): string
  {
    SkipFrom(0, s)
  }

  /** The remainders after `k`, `k - 1`, ..., `lo` leading characters. */
  function Fewer(s: string, k: nat, lo: nat): Rests
    requires k <= |s|
    decreases k
  {
    if k < lo then [] else [s[k..]] + (if k == 0 then [] else Fewer(s, k - 1, lo))
  }

  function LeadingStars(s: string): (n: nat)
    ensures n <= |s|
  {
    if s != [] && s[0] == '*' then 1 + LeadingStars(s[1..]) else 0
  }

  /** `\*{lo,hi}`, greedy. */
  function Stars(s: string, lo: nat, hi: nat): Rests
  {
    var run := LeadingStars(s);
    Fewer(s, if run < hi then run else hi, lo)
  }

  /**
   * The alternatives of the star modifier of verify.py:76, ` -\*{1,4}| \*-\*{2,4}|
   * \*{2}-\*{3,4}| \*{3}-\*{4,5}| \*{4}-\*{5}`: the lead up to the dash, and the bounds on
   * the stars after it.
   */
  const StarForms: seq<(string, nat, nat)> := [
    (" -", 1, 4), (" *-", 2, 4), (" **-", 3, 4), (" ***-", 4, 5), (" ****-", 5, 5)
  ]

  /** The matches of the star alternatives from the `k`-th on, left to right. */
  function StarFrom(k: nat, s: string): Rests
    decreases |StarForms| - k
  {
    if k >= |StarForms| then []
    else
      var form := StarForms[k];
      Bind(Lit(s, form.0), r => Stars(r, form.1, form.2)) + StarFrom(k + 1, s)
  }

  /** The star modifier of verify.py:76. */
  function StarModifier(s: string): Rests
  {
    StarFrom(0, s)
  }

  // ---------------------------------------------------------------- transform clauses

  /** `X w Y`: for each match of `X` in turn, the literal `w`, then every match of `Y` after it. */
  function Then(rs: Rests, w: string, g: string -> Rests): Rests
  {
    if rs == [] then [] else Bind(Lit(rs[0], w), g) + Then(rs[1..], w, g)
  }

  /** `T to T`. */
  function ToPair(s: string): Rests
  {
    Then(Tag(s), " to ", Tag)
  }

  /** `T & T`. */
  function AmpPair(s: string): Rests
  {
    Then(Tag(s), " & ", Tag)
  }

  /** ` tr T & T`. */
  function TransposePair(s: string): Rests
  {
    Bind(Lit(s, " tr "), AmpPair)
  }

  /** ` ch T to T`. */
  function ChangePair(s: string): Rests
  {
    Bind(Lit(s, " ch "), ToPair)
  }

  /** `(, T to T)*`, greedy: as many further pairs as possible first. */
  function MorePairs(s: string): Rests
    decreases |s|
  {
    var pairs := Bind(Lit(s, ", "), ToPair);
    NextPairShorter(s);
    Bind(pairs, r requires |r| < |s| => MorePairs(r)) + [s]
  }

  // ---------------------------------------------------------------- every match consumes something

  predicate AllShorter(rs: Rests, s: string) { forall r :: r in rs ==> |r| < |s| }

  lemma ShorterStill(rs: Rests, r: string, s: string)
    requires AllShorter(rs, r) && |r| < |s|
    ensures AllShorter(rs, s)
  {
  }

  lemma ShorterJoin(a: Rests, b: Rests, s: string)
    requires AllShorter(a, s) && AllShorter(b, s)
    ensures AllShorter(a + b, s)
  {
  }

  lemma {:induction false} BindShorter(rs: Rests, f: string --> Rests, s: string)
    requires forall r :: r in rs ==> f.requires(r) && AllShorter(f(r), s)
    ensures AllShorter(Bind(rs, f), s)
  {
    if rs != [] {
      BindShorter(rs[1..], f, s);
    }
  }

  lemma {:induction false} AlternativesShorter(s: string, words: seq<string>)
    ensures AllShorter(Alternatives(s, words), s)
  {
    if words != [] {
      AlternativesShorter(s, words[1..]);
    }
  }

  lemma {:induction false} ClosingQuotesShorter(s: string)
    ensures AllShorter(AfterClosingQuotes(s), s)
  {
    if s != [] {
      ClosingQuotesShorter(s[1..]);
    }
  }

  lemma LetteredShorter(s: string, lead: string, digits: string)
    requires lead != []
    ensures AllShorter(Lettered(s, lead, digits), s)
  {
  }

  lemma SuffixedShorter(s: string, words: seq<string>, suffix: string)
    ensures AllShorter(Bind(Alternatives(s, words), r => Lit(r, suffix)), s)
  {
    AlternativesShorter(s, words);
    BindShorter(Alternatives(s, words), r => Lit(r, suffix), s);
  }

  /** Each alternative of the tag pattern consumes part of the input. */
  lemma TagFormShorter(k: nat, s: string)
    requires k < |TagForms|
    ensures AllShorter(TagForms[k](s), s)
  {
    if k == 0 {
      AlternativesShorter(s, FrontTags);
    } else if k == 1 {
      LetteredShorter(s, "A", "123456789");
    } else if k == 2 {
      LetteredShorter(s, "B", "23458");
    } else {
      LaterTagFormShorter(k, s);
    }
  }

  lemma LaterTagFormShorter(k: nat, s: string)
    requires 3 <= k < |TagForms|
    ensures AllShorter(TagForms[k](s), s)
  {
    if k == 3 {
      SuffixedShorter(s, RelativesA, "-A");
    } else if k == 4 {
      SuffixedShorter(s, RelativesB, "-B");
    } else if k == 5 {
      AlternativesShorter(s, BareTags);
    } else if StartsWith(s, "“") {
      ClosingQuotesShorter(s[1..]);
    }
  }

  lemma {:induction false} TagFromShorter(k: nat, s: string)
    ensures AllShorter(TagFrom(k, s), s)
    decreases |TagForms| - k
  {
    if k < |TagForms| {
      TagFormShorter(k, s);
      TagFromShorter(k + 1, s);
      ShorterJoin(TagForms[k](s), TagFrom(k + 1, s), s);
    }
  }

  lemma TagShorter(s: string)
    ensures AllShorter(Tag(s), s)
  {
    TagFromShorter(0, s);
  }

  lemma {:induction false} ThenShorter(rs: Rests, w: string, g: string -> Rests, s: string)
    requires AllShorter(rs, s) && forall x :: AllShorter(g(x), x)
    ensures AllShorter(Then(rs, w, g), s)
  {
    if rs != [] {
      assert rs[0] in rs;
      BindShorter(Lit(rs[0], w), g, s);
      ThenShorter(rs[1..], w, g, s);
    }
  }

  lemma ToPairShorter(s: string)
    ensures AllShorter(ToPair(s), s)
  {
    TagShorter(s);
    forall x
      ensures AllShorter(Tag(x), x)
    {
      TagShorter(x);
    }
    ThenShorter(Tag(s), " to ", Tag, s);
  }

  /** Each further pair of `(, T to T)*` consumes part of the input. */
  lemma NextPairShorter(s: string)
    ensures AllShorter(Bind(Lit(s, ", "), ToPair), s)
  {
    forall r | r in Lit(s, ", ")
      ensures AllShorter(ToPair(r), s)
    {
      ToPairShorter(r);
      ShorterStill(ToPair(r), r, s);
    }
    BindShorter(Lit(s, ", "), ToPair, s);
  }

  /** `(,| &) ch T to T`. */
  function ChangeAfterTranspose(s: string): Rests
  {
    Bind(Lit(s, ",") + Lit(s, " &"), ChangePair)
  }

  /** ` tr T & T(,| &) ch T to T`, verify.py:82. */
  function TransposeChangeMatch(s: string): Rests
  {
    Bind(TransposePair(s), ChangeAfterTranspose)
  }

  /** ` tr T & T and eliminate “.*”`, verify.py:88. */
  function TransposeEliminateMatch(s: string): Rests
  {
    Then(TransposePair(s), " and eliminate ", GreedyQuoted)
  }

  /** ` ch T to T & tr T & T`, verify.py:100. */
  function ChangeTransposeMatch(s: string): Rests
  {
    Then(ChangePair(s), " &", TransposePair)
  }

  /** `(, T to T)* & add T`. */
  function AddAfterPairs(s: string): Rests
  {
    Then(MorePairs(s), " & add ", Tag)
  }

  /** ` ch T to T(, T to T)* & add T`, verify.py:106. */
  function ChangeAddMatch(s: string): Rests
  {
    Bind(ChangePair(s), AddAfterPairs)
  }

  /** ` ch T to T & eliminate “.*”`, verify.py:112. */
  function ChangeEliminateMatch(s: string): Rests
  {
    Then(ChangePair(s), " & eliminate ", GreedyQuoted)
  }

  /** `T and T to T`. */
  function ConjoinedPair(s: string): Rests
  {
    Then(Tag(s), " and ", ToPair)
  }

  /** ` ch T to T & T and T to T`, verify.py:118. */
  function ChangeConjoinedMatch(s: string): Rests
  {
    Then(ChangePair(s), " & ", ConjoinedPair)
  }

  /** ` ch T to T & last T to T`, verify.py:124. */
  function ChangeLastMatch(s: string): Rests
  {
    Then(ChangePair(s), " & last ", ToPair)
  }

  /** `(&|and) T to T`. */
  function FinalPair(s: string): Rests
  {
    Bind(Lit(s, " & ") + Lit(s, " and "), ToPair)
  }

  /** `((, T to T)* (&|and) T to T)?`, greedy: the longer form first, then nothing. */
  function ChangeRest(s: string): Rests
  {
    Bind(MorePairs(s), FinalPair) + [s]
  }

  /** ` ch T to T((, T to T)* (&|and) T to T)?`, verify.py:130. */
  function ChangeMatch(s: string): Rests
  {
    Bind(ChangePair(s), ChangeRest)
  }

  /** ` add T`, verify.py:136. */
  function AddMatch(s: string): Rests
  {
    Bind(Lit(s, " add "), Tag)
  }

  /**
   * The ten transform productions of verify.py:81-139, in the order the source tries them,
   * each on what the previous one left.
   */
  const TransformOrder: seq<string -> Rests> := [
    TransposeChangeMatch, TransposeEliminateMatch, TransposePair, ChangeTransposeMatch, ChangeAddMatch,
    ChangeEliminateMatch, ChangeConjoinedMatch, ChangeLastMatch, ChangeMatch, AddMatch
  ]

  /** The productions from the `k`-th on, each optional: it consumes its first match, or nothing. */
  function ApplyFrom(k: nat, s: string): string
    decreases |TransformOrder| - k
  {
    if k >= |TransformOrder| then s else ApplyFrom(k + 1, Optional(s, TransformOrder[k](s)))
  }

  function Transforms(s: string): string
  {
    ApplyFrom(0, s)
  }

  /** `^(, (“.*”|(with|son|daughter|mother).*))?$`, verify.py:142: nothing, or one trailing note. */
  predicate TrailingNote(s: string)
  {
    s == []
    || (StartsWith(s, ", ")
        && var t := s[2..];
           (|t| >= 2 && t[0] == '“' && t[|t| - 1] == '”')
           || StartsWith(t, "with") || StartsWith(t, "son")
           || StartsWith(t, "daughter") || StartsWith(t, "mother"))
  }

  /** A lone clause letter, `^[a-h]$` (verify.py:57). */
  predicate LoneLetter(p: string) { |p| == 1 && 'a' <= p[0] <= 'h' }

  /** One piece of a link, without ";" or " or " (verify.py:55-147). */
  predicate ValidPiece(p: string)
  {
    if LoneLetter(p) then true
    else if p == [] then true
    else match Reference(p)
      case None => false
      case Some(rest) => TrailingNote(AfterReference(rest))
  }

  /** What the suffix, star-modifier and transform stages leave of the text after a reference. */
  function AfterReference(rest: string): string
  {
    var t := Suffixes(rest);
    Transforms(Optional(t, StarModifier(t)))
  }

  /** `validate_link` (verify.py:24-147). */
  predicate ValidLink(link: string)
    decreases |link|
  {
    if Contains(link, ";") then forall p <- Split(link, ";") :: ValidLink(Strip(p))
    else if Contains(link, " or ") then forall p <- Split(link, " or ") :: ValidLink(Strip(p))
    else ValidPiece(link)
  }

  // ---------------------------------------------------------------- evaluation helpers

  /** A literal that disagrees with the input at some position does not match. */
  lemma LitMismatch(s: string, w: string, i: nat)
    requires i < |w| && (i >= |s| || s[i] != w[i])
    ensures Lit(s, w) == []
  {
    if |w| <= |s| {
      assert s[..|w|][i] == s[i];
    }
  }

  lemma Associative(a: string, b: string, c: string)
    ensures a + b + c == a + (b + c)
  {
  }

  /** A literal at the front of the input matches and leaves exactly what follows it. */
  lemma LitMatch(w: string, rest: string)
    requires w != []
    ensures Lit(w + rest, w) == [rest]
  {
    assert (w + rest)[..|w|] == w;
    assert (w + rest)[|w|..] == rest;
  }

  /** No word of `words` starts with the input's first character, so none matches. */
  lemma NoAlternative(s: string, words: seq<string>)
    requires s != [] && !WordInitial(s[0])
    requires forall w :: w in words ==> w != [] && WordInitial(w[0])
    ensures Alternatives(s, words) == []
  {
    if words != [] {
      assert words[0] in words;
      LitMismatch(s, words[0], 0);
      assert forall w :: w in words[1..] ==> w in words;
      NoAlternative(s, words[1..]);
    }
  }

  /** The head of a sequenced match comes from the head of the first stage when that continues. */
  lemma BindHead(rs: Rests, f: string --> Rests)
    requires rs != [] && forall r :: r in rs ==> f.requires(r)
    requires f(rs[0]) != []
    ensures Bind(rs, f) != [] && Bind(rs, f)[0] == f(rs[0])[0]
  {
  }

  /** The head of `X w Y` comes from the first match of `X` when that continues. */
  lemma ThenHead(rs: Rests, w: string, g: string -> Rests)
    requires rs != [] && Bind(Lit(rs[0], w), g) != []
    ensures Then(rs, w, g) != [] && Then(rs, w, g)[0] == Bind(Lit(rs[0], w), g)[0]
  {
  }

  /** An input that does not start with a space starts no star modifier. */
  lemma StarIdle(s: string)
    requires s == [] || s[0] != ' ' || (|s| >= 2 && s[1] != '-' && s[1] != '*')
    ensures StarModifier(s) == []
  {
    var i := if s == [] || s[0] != ' ' then 0 else 1;
    LitMismatch(s, " -", i);
    LitMismatch(s, " *-", i);
    LitMismatch(s, " **-", i);
    LitMismatch(s, " ***-", i);
    LitMismatch(s, " ****-", i);
  }

  /** A production that cannot match hands the input on to the next one unchanged. */
  lemma SkipStage(k: nat, s: string)
    requires k < |TransformOrder| && TransformOrder[k](s) == []
    ensures ApplyFrom(k, s) == ApplyFrom(k + 1, s)
  {
  }

  /** A text that does not start with ` tr ` passes the three productions led by it untouched. */
  lemma NoTransposeStart(s: string)
    requires Lit(s, " tr ") == []
    ensures Transforms(s) == ApplyFrom(3, s)
  {
    assert TransposePair(s) == [];
    SkipStage(0, s);
    SkipStage(1, s);
    SkipStage(2, s);
  }

  /** A text that does not start with ` ch ` passes the six productions led by it untouched. */
  lemma NoChangeStart(s: string)
    requires Lit(s, " ch ") == []
    ensures ApplyFrom(3, s) == ApplyFrom(9, s)
  {
    assert ChangePair(s) == [];
    SkipStage(3, s);
    SkipStage(4, s);
    SkipStage(5, s);
    SkipStage(6, s);
    SkipStage(7, s);
    SkipStage(8, s);
  }

  /** What the last production, ` add T`, leaves. */
  lemma AddStage(s: string)
    ensures ApplyFrom(9, s) == Optional(s, AddMatch(s))
  {
    assert TransformOrder[9] == AddMatch;
  }

  /** An input that does not start with " t", " c" or " a" starts no transform. */
  lemma TransformsIdle(s: string)
    requires s == [] || s[0] != ' ' || (|s| >= 2 && s[1] != 't' && s[1] != 'c' && s[1] != 'a')
    ensures Transforms(s) == s
  {
    var i := if s == [] || s[0] != ' ' then 0 else 1;
    LitMismatch(s, " tr ", i);
    LitMismatch(s, " ch ", i);
    LitMismatch(s, " add ", i);
    NoTransposeStart(s);
    NoChangeStart(s);
    AddStage(s);
  }

  /** A text that starts with none of the suffixes from the `k`-th on passes those stages untouched. */
  lemma {:induction false} SkipFromIdle(k: nat, s: string)
    requires forall j :: k <= j < |SuffixWords| ==> !StartsWith(s, SuffixWords[j])
    ensures SkipFrom(k, s) == s
    decreases |SuffixWords| - k
  {
    if k < |SuffixWords| {
      SkipFromIdle(k + 1, s);
    }
  }

  lemma SuffixesIdle(s: string)
    requires s == [] || s[0] != '-'
    ensures Suffixes(s) == s
  {
    forall j | 0 <= j < |SuffixWords|
      ensures !StartsWith(s, SuffixWords[j])
    {
      LitMismatch(s, SuffixWords[j], 0);
    }
    SkipFromIdle(0, s);
  }

  // ---------------------------------------------------------------- character tags

  /** A match of the front tags comes first among the tag matches. */
  lemma FrontTagHead(s: string, rest: string)
    requires Alternatives(s, FrontTags) != [] && Alternatives(s, FrontTags)[0] == rest
    ensures Tag(s) != [] && Tag(s)[0] == rest
  {
    assert Tag(s) == Alternatives(s, FrontTags) + TagFrom(1, s);
  }

  /** `AUX`, `BR-A` and `BR-B` are tried before `A` and `B`, so they are matched whole. */
  lemma LongTagsFirst(rest: string)
    ensures Tag("AUX" + rest) != [] && Tag("AUX" + rest)[0] == rest
    ensures Tag("BR-A" + rest) != [] && Tag("BR-A" + rest)[0] == rest
    ensures Tag("BR-B" + rest) != [] && Tag("BR-B" + rest)[0] == rest
  {
    LitMatch("AUX", rest);
    LitMatch("BR-A", rest);
    LitMatch("BR-B", rest);
    LitMismatch("BR-A" + rest, "AUX", 0);
    LitMismatch("BR-B" + rest, "AUX", 0);
    LitMismatch("BR-B" + rest, "BR-A", 3);
    var words := FrontTags;
    assert words[1..] == ["BR-A", "BR-B"] && words[2..] == ["BR-B"] && words[3..] == [];
    assert Alternatives("AUX" + rest, words) == [rest] + Alternatives("AUX" + rest, words[1..]);
    assert Alternatives("BR-A" + rest, words) == [rest] + Alternatives("BR-A" + rest, words[2..]);
    assert Alternatives("BR-B" + rest, words[2..]) == [rest];
    assert Alternatives("BR-B" + rest, words[1..]) == [rest];
    FrontTagHead("AUX" + rest, rest);
    FrontTagHead("BR-A" + rest, rest);
    FrontTagHead("BR-B" + rest, rest);
  }

  /** The first characters of the tag words. */
  predicate WordInitial(c: char)
  {
    c in "ABCDFGMNPSUX"
  }

  lemma TagWordInitials()
    ensures forall w :: w in FrontTags ==> w != [] && WordInitial(w[0])
    ensures forall w :: w in RelativesA ==> w != [] && WordInitial(w[0])
    ensures forall w :: w in RelativesB ==> w != [] && WordInitial(w[0])
    ensures forall w :: w in BareTags ==> w != [] && WordInitial(w[0])
  {
  }

  /** An input whose first character starts no tag word matches none of the first six alternatives. */
  lemma NoWordForm(k: nat, s: string)
    requires k < 6 && s != [] && !WordInitial(s[0])
    ensures TagForms[k](s) == []
  {
    TagWordInitials();
    if k == 0 {
      NoAlternative(s, FrontTags);
    } else if k == 1 {
      LitMismatch(s, "A", 0);
    } else if k == 2 {
      LitMismatch(s, "B", 0);
    } else {
      NoLaterWordForm(k, s);
    }
  }

  lemma NoLaterWordForm(k: nat, s: string)
    requires 3 <= k < 6 && s != [] && !WordInitial(s[0])
    ensures TagForms[k](s) == []
  {
    TagWordInitials();
    if k == 3 {
      NoAlternative(s, RelativesA);
    } else if k == 4 {
      NoAlternative(s, RelativesB);
    } else {
      NoAlternative(s, BareTags);
    }
  }

  lemma {:induction false} QuotedFrom(k: nat, s: string)
    requires k <= 6 && s != [] && !WordInitial(s[0])
    ensures TagFrom(k, s) == LazyQuoted(s)
    decreases 6 - k
  {
    if k < 6 {
      NoWordForm(k, s);
      QuotedFrom(k + 1, s);
    } else {
      assert TagFrom(7, s) == [];
    }
  }

  /** An input whose first character starts no tag word can only be a quoted name. */
  lemma OnlyQuoted(s: string)
    requires s != [] && !WordInitial(s[0])
    ensures Tag(s) == LazyQuoted(s)
  {
    QuotedFrom(0, s);
  }

  /**
   * The alternation is closed: an input that starts with neither a tag word's initial nor
   * an opening quote has no tag match.
   */
  lemma NotATag(s: string)
    requires s != [] && !WordInitial(s[0]) && s[0] != '“'
    ensures Tag(s) == []
  {
    OnlyQuoted(s);
    LitMismatch(s, "“", 0);
  }

  /** After an opening quote, the closing quotes are tried left to right: the first one wins. */
  lemma {:induction false} FirstClosingQuote(name: string, rest: string)
    requires '”' !in name
    ensures AfterClosingQuotes(name + "”" + rest) != []
    ensures AfterClosingQuotes(name + "”" + rest)[0] == rest
  {
    var s := name + "”" + rest;
    if name == [] {
      assert s[1..] == rest;
    } else {
      assert s[1..] == name[1..] + "”" + rest;
      FirstClosingQuote(name[1..], rest);
    }
  }

  lemma LazyQuotedHead(name: string, rest: string)
    requires '”' !in name
    ensures LazyQuoted("“" + name + "”" + rest) != []
    ensures LazyQuoted("“" + name + "”" + rest)[0] == rest
  {
    var s := "“" + name + "”" + rest;
    assert StartsWith(s, "“") && s[1..] == name + "”" + rest;
    FirstClosingQuote(name, rest);
  }

  /** A curly-quoted name is a tag, and the lazy `.*?` stops at its first closing quote. */
  lemma QuotedTag(name: string, rest: string)
    requires '”' !in name
    ensures Tag("“" + name + "”" + rest) != []
    ensures Tag("“" + name + "”" + rest)[0] == rest
  {
    var s := "“" + name + "”" + rest;
    assert s[0] == '“';
    OnlyQuoted(s);
    LazyQuotedHead(name, rest);
  }

  // ---------------------------------------------------------------- pieces

  /** `a, b, c`: the first clause letter, then each further one after ", ". */
  function ClauseLetters(cs: string): string
  {
    if cs == [] then [] else [cs[0]] + MoreClauseLetters(cs[1..])
  }

  function MoreClauseLetters(cs: string): string
  {
    if cs == [] then [] else ", " + [cs[0]] + MoreClauseLetters(cs[1..])
  }

  predicate AllClauseLetters(cs: string) { forall i :: 0 <= i < |cs| ==> 'a' <= cs[i] <= 'h' }

  lemma {:induction false} MoreLettersOf(cs: string, tail: string)
    requires AllClauseLetters(cs)
    requires tail == [] || tail[0] != ','
    ensures MoreLetters(MoreClauseLetters(cs) + tail) == tail
  {
    if cs != [] {
      var s := MoreClauseLetters(cs) + tail;
      var r := MoreClauseLetters(cs[1..]) + tail;
      Associative(", " + [cs[0]], MoreClauseLetters(cs[1..]), tail);
      assert s[..2] == ", " && s[2] == cs[0] && s[3..] == r;
      MoreLettersOf(cs[1..], tail);
    } else {
      assert MoreClauseLetters(cs) + tail == tail;
    }
  }

  /** An entry id followed by no clause letter: the reference stops right after the digits. */
  lemma BareReferenceOf(n: nat, tail: string)
    requires tail == [] || (!IsDigit(tail[0]) && !('a' <= tail[0] <= 'h'))
    ensures Reference(NatToString(n) + tail) == Some(tail)
  {
    var d := NatToString(n);
    LeadingDigitsOf(d, tail);
    assert (d + tail)[|d|..] == tail;
  }

  /** An entry id followed by a nonempty list of clause letters: the letters are consumed whole. */
  lemma LetteredReferenceOf(n: nat, cs: string, tail: string)
    requires AllClauseLetters(cs) && cs != []
    requires tail == [] || tail[0] != ','
    ensures Reference(NatToString(n) + ClauseLetters(cs) + tail) == Some(tail)
  {
    var d := NatToString(n);
    var more := MoreClauseLetters(cs[1..]) + tail;
    var rest := ClauseLetters(cs) + tail;
    Associative(d, ClauseLetters(cs), tail);
    Associative([cs[0]], MoreClauseLetters(cs[1..]), tail);
    assert rest[0] == cs[0] && rest[1..] == more;
    LeadingDigitsOf(d, rest);
    assert (d + rest)[|d|..] == rest;
    MoreLettersOf(cs[1..], tail);
  }

  /** The reference `^\d+([a-h](, [a-h])*)?` consumes an entry id and a list of clause letters whole. */
  lemma ReferenceOf(n: nat, cs: string, tail: string)
    requires AllClauseLetters(cs)
    requires tail == [] || (!IsDigit(tail[0]) && tail[0] != ',' && (cs != [] || !('a' <= tail[0] <= 'h')))
    ensures Reference(NatToString(n) + ClauseLetters(cs) + tail) == Some(tail)
  {
    if cs == [] {
      assert NatToString(n) + ClauseLetters(cs) + tail == NatToString(n) + tail;
      BareReferenceOf(n, tail);
    } else {
      LetteredReferenceOf(n, cs, tail);
    }
  }

  /** A rest that starts no suffix, star modifier or transform passes those stages untouched. */
  lemma RestIdle(s: string)
    requires s == [] || (s[0] != '-' && (s[0] != ' ' || (|s| >= 2 && s[1] !in "-*tca")))
    ensures AfterReference(s) == s
  {
    SuffixesIdle(s);
    StarIdle(s);
    TransformsIdle(s);
  }

  /** A piece led by a digit is decided by what its later stages leave of the rest. */
  lemma PieceByRest(p: string, rest: string)
    requires p != [] && IsDigit(p[0]) && Reference(p) == Some(rest)
    ensures ValidPiece(p) <==> TrailingNote(AfterReference(rest))
  {
  }

  lemma LedByDigit(n: nat, cs: string, tail: string)
    ensures NatToString(n) + cs + tail != [] && IsDigit((NatToString(n) + cs + tail)[0])
  {
    assert (NatToString(n) + cs + tail)[0] == NatToString(n)[0];
  }

  /** An entry id followed by a rest led by no digit or clause letter is read as a reference. */
  lemma BareEntry(p: string, n: nat, tail: string)
    requires p == NatToString(n) + tail
    requires tail == [] || (!IsDigit(tail[0]) && !('a' <= tail[0] <= 'h'))
    ensures p != [] && IsDigit(p[0]) && Reference(p) == Some(tail)
  {
    BareReferenceOf(n, tail);
    assert p[0] == NatToString(n)[0];
  }

  /** A piece made of an entry id and a rest led by no digit, comma or clause letter is decided by that rest. */
  lemma EntryPiece(p: string, n: nat, tail: string)
    requires p == NatToString(n) + tail
    requires tail == [] || (!IsDigit(tail[0]) && tail[0] != ',' && !('a' <= tail[0] <= 'h'))
    ensures ValidPiece(p) <==> TrailingNote(AfterReference(tail))
  {
    BareEntry(p, n, tail);
    PieceByRest(p, tail);
  }

  /** An entry id followed by a "with" note, `, with …`, is valid (verify.py:142). */
  lemma WithNoteAccepted(p: string, n: nat, t: string)
    requires p == NatToString(n) + ", with" + t
    requires !Contains(p, ";") && !Contains(p, " or ")
    ensures ValidLink(p)
  {
    var tail := ", with" + t;
    assert p == NatToString(n) + tail;
    BareEntry(p, n, tail);
    RestIdle(tail);
    WithNote(t);
    PieceByRest(p, tail);
  }

  lemma WithNote(t: string)
    ensures TrailingNote(", with" + t)
  {
    var s := ", with" + t;
    assert s[..2] == ", ";
    assert s[2..] == "with" + t;
    assert s[2..][..4] == "with";
  }

  /** A piece made of an entry id and its clause letters is valid. */
  lemma ReferenceAccepted(n: nat, cs: string)
    requires AllClauseLetters(cs)
    ensures ValidPiece(NatToString(n) + ClauseLetters(cs))
  {
    var p := NatToString(n) + ClauseLetters(cs);
    ReferenceOf(n, cs, []);
    assert p == NatToString(n) + ClauseLetters(cs) + [];
    LedByDigit(n, ClauseLetters(cs), []);
    RestIdle([]);
    PieceByRest(p, []);
  }

  /** A rest that no later stage consumes and that is not a trailing note rejects the piece. */
  lemma RestRejected(p: string, tail: string)
    requires p != [] && IsDigit(p[0]) && Reference(p) == Some(tail)
    requires tail != [] && tail[0] != ',' && tail[0] != '-'
    requires tail[0] != ' ' || (|tail| >= 2 && tail[1] !in "-*tca")
    ensures !ValidPiece(p)
  {
    RestIdle(tail);
    assert !TrailingNote(tail) by {
      if |tail| >= 2 {
        assert tail[0] == tail[..2][0];
      }
    }
    PieceByRest(p, tail);
  }

  lemma LeftoverRejected(p: string, n: nat, cs: string, tail: string)
    requires p == NatToString(n) + ClauseLetters(cs) + tail
    requires AllClauseLetters(cs)
    requires tail != [] && !IsDigit(tail[0]) && tail[0] != ',' && tail[0] != '-'
    requires cs != [] || !('a' <= tail[0] <= 'h')
    requires tail[0] != ' ' || (|tail| >= 2 && tail[1] !in "-*tca")
    ensures !ValidPiece(p)
  {
    ReferenceOf(n, cs, tail);
    LedByDigit(n, ClauseLetters(cs), tail);
    RestRejected(p, tail);
  }

  /** `123a` passes: an entry id and a clause letter, for every entry id. */
  lemma EntryLetterAccepted(n: nat)
    ensures ValidPiece(NatToString(n) + "a")
  {
    ReferenceAccepted(n, "a");
    assert ClauseLetters("a") == "a";
  }

  /** `123x` fails: a letter outside `a`-`h` after the entry id is left over. */
  lemma EntryStrayLetterRejected(n: nat)
    ensures !ValidPiece(NatToString(n) + "x")
  {
    assert ClauseLetters("") == [];
    LeftoverRejected(NatToString(n) + "x", n, "", "x");
  }

  /** `123a extra` fails: a word that starts no production is left over. */
  lemma EntryExtraWordRejected(n: nat)
    ensures !ValidPiece(NatToString(n) + "a extra")
  {
    assert ClauseLetters("a") == "a";
    assert NatToString(n) + "a extra" == NatToString(n) + ClauseLetters("a") + " extra";
    LeftoverRejected(NatToString(n) + "a extra", n, "a", " extra");
  }

  // ---------------------------------------------------------------- suffixes, stars, transforms

  /** The suffixes from the `k`-th on that `picks` selects, in the only order the pattern allows. */
  function SuffixText(picks: seq<bool>, k: nat): string
    requires |picks| == |SuffixWords|
    decreases |SuffixWords| - k
  {
    if k >= |SuffixWords| then [] else (if picks[k] then SuffixWords[k] else []) + SuffixText(picks, k + 1)
  }

  /** `s` starts with none of the suffixes before the `k`-th. */
  predicate NoSuffixBefore(s: string, k: nat)
  {
    forall j :: 0 <= j < k && j < |SuffixWords| ==> !StartsWith(s, SuffixWords[j])
  }

  /** A text led by the `k`-th suffix is led by no earlier one. */
  lemma LedBySuffix(k: nat, rest: string)
    requires k < |SuffixWords|
    ensures NoSuffixBefore(SuffixWords[k] + rest, k)
    ensures StartsWith(SuffixWords[k] + rest, SuffixWords[k])
    ensures (SuffixWords[k] + rest)[|SuffixWords[k]|..] == rest
  {
    var t := SuffixWords[k] + rest;
    forall j | 0 <= j < k
      ensures !StartsWith(t, SuffixWords[j])
    {
      LitMismatch(t, SuffixWords[j], 1);
    }
    assert t[..2] == SuffixWords[k];
  }

  /** One picked suffix is skipped by its own stage, and what follows it is led by no earlier one. */
  lemma PickedSuffix(picks: seq<bool>, k: nat, tail: string)
    requires |picks| == |SuffixWords| && k < |SuffixWords| && picks[k]
    requires SkipFrom(k + 1, SuffixText(picks, k + 1) + tail) == tail
    ensures SkipFrom(k, SuffixText(picks, k) + tail) == tail
    ensures NoSuffixBefore(SuffixText(picks, k) + tail, k)
  {
    var rest := SuffixText(picks, k + 1) + tail;
    Associative(SuffixWords[k], SuffixText(picks, k + 1), tail);
    LedBySuffix(k, rest);
  }

  /** A suffix left unpicked adds nothing. */
  lemma SkippedSuffix(picks: seq<bool>, k: nat, tail: string)
    requires |picks| == |SuffixWords| && k < |SuffixWords| && !picks[k]
    ensures SuffixText(picks, k) + tail == SuffixText(picks, k + 1) + tail
  {
  }

  /** A text not led by a dash is led by no suffix. */
  lemma NoSuffixLead(t: string)
    requires t == [] || t[0] != '-'
    ensures NoSuffixBefore(t, |SuffixWords|)
  {
    forall j | 0 <= j < |SuffixWords|
      ensures !StartsWith(t, SuffixWords[j])
    {
      LitMismatch(t, SuffixWords[j], 0);
    }
  }

  /**
   * The suffix stages from the `k`-th on consume exactly the suffixes `picks` selects, and the
   * selected text starts with no earlier suffix.
   */
  lemma {:induction false} SuffixesFrom(picks: seq<bool>, k: nat, tail: string)
    requires |picks| == |SuffixWords| && k <= |SuffixWords|
    requires tail == [] || tail[0] != '-'
    ensures SkipFrom(k, SuffixText(picks, k) + tail) == tail
    ensures NoSuffixBefore(SuffixText(picks, k) + tail, k)
    decreases |SuffixWords| - k
  {
    var t := SuffixText(picks, k) + tail;
    if k < |SuffixWords| {
      var rest := SuffixText(picks, k + 1) + tail;
      SuffixesFrom(picks, k + 1, tail);
      if picks[k] {
        PickedSuffix(picks, k, tail);
      } else {
        SkippedSuffix(picks, k, tail);
      }
    } else {
      NoSuffixLead(tail);
    }
  }

  /** The suffix stage consumes any in-order selection of `-1`..`-4` and nothing more. */
  lemma SuffixesInOrder(picks: seq<bool>, tail: string)
    requires |picks| == |SuffixWords|
    requires tail == [] || tail[0] != '-'
    ensures Suffixes(SuffixText(picks, 0) + tail) == tail
  {
    SuffixesFrom(picks, 0, tail);
  }

  /** A selection of suffixes is empty or starts with a dash. */
  lemma {:induction false} SuffixTextLead(picks: seq<bool>, k: nat)
    requires |picks| == |SuffixWords|
    ensures SuffixText(picks, k) == [] || SuffixText(picks, k)[0] == '-'
    decreases |SuffixWords| - k
  {
    if k < |SuffixWords| && !picks[k] {
      SuffixTextLead(picks, k + 1);
    }
  }

  /** After an in-order selection of suffixes nothing is left. */
  lemma SuffixesLeaveNothing(picks: seq<bool>)
    requires |picks| == |SuffixWords|
    ensures AfterReference(SuffixText(picks, 0)) == []
  {
    var sx := SuffixText(picks, 0);
    SuffixesInOrder(picks, []);
    assert sx + [] == sx;
    RestIdle([]);
  }

  /** A reference followed by any in-order selection of suffixes is a valid piece. */
  lemma SuffixedReferenceAccepted(p: string, n: nat, picks: seq<bool>)
    requires |picks| == |SuffixWords| && p == NatToString(n) + SuffixText(picks, 0)
    ensures ValidPiece(p)
  {
    SuffixTextLead(picks, 0);
    EntryPiece(p, n, SuffixText(picks, 0));
    SuffixesLeaveNothing(picks);
  }

  /** After `-2-1` the `-1` is left over: suffixes are only consumed in increasing order. */
  lemma OutOfOrderLeavesOver(t: string)
    requires t == "-2-1"
    ensures AfterReference(t) == "-1"
  {
    assert Skip(t, SuffixWords[0]) == t by {
      LitMismatch(t, "-1", 1);
    }
    assert Skip(t, SuffixWords[1]) == "-1";
    forall j | 2 <= j < |SuffixWords|
      ensures !StartsWith("-1", SuffixWords[j])
    {
      LitMismatch("-1", SuffixWords[j], 1);
    }
    SkipFromIdle(2, "-1");
    assert Suffixes(t) == "-1";
    StarIdle("-1");
    TransformsIdle("-1");
  }

  /** A text that does not start with ", " is no trailing note. */
  lemma NoNote(u: string)
    requires u != [] && u[0] != ','
    ensures !TrailingNote(u)
  {
    if |u| >= 2 {
      assert u[..2][0] == u[0];
    }
  }

  /** Suffixes out of order are rejected: `12-2-1`. */
  lemma SuffixesOutOfOrderRejected(p: string, n: nat, t: string)
    requires t == "-2-1" && p == NatToString(n) + t
    ensures !ValidPiece(p)
  {
    EntryPiece(p, n, t);
    OutOfOrderLeavesOver(t);
    NoNote(AfterReference(t));
  }

  /** `k` stars. */
  function StarRun(k: nat): (r: string)
    ensures |r| == k && forall i :: 0 <= i < |r| ==> r[i] == '*'
  {
    if k == 0 then [] else "*" + StarRun(k - 1)
  }

  lemma {:induction false} LeadingStarsOf(k: nat, tail: string)
    requires tail == [] || tail[0] != '*'
    ensures LeadingStars(StarRun(k) + tail) == k
  {
    if k > 0 {
      assert (StarRun(k) + tail)[1..] == StarRun(k - 1) + tail;
      LeadingStarsOf(k - 1, tail);
    }
  }

  /** `\*{1,4}` on `k` stars first offers the longest run it may take. */
  lemma StarsHead(r: string, k: nat, tail: string)
    requires r == StarRun(k) + tail && k >= 1
    requires tail == [] || tail[0] != '*'
    ensures Stars(r, 1, 4) != []
    ensures Stars(r, 1, 4)[0] == (if k <= 4 then tail else StarRun(k - 4) + tail)
  {
    LeadingStarsOf(k, tail);
    var m := if k <= 4 then k else 4;
    assert Fewer(r, m, 1)[0] == r[m..];
    if k <= 4 {
      assert r[m..] == tail;
    } else {
      assert r[m..] == StarRun(k - 4) + tail;
    }
  }

  /** The first remainder of ` -\*{1,4}` after a dash and `k` stars. */
  lemma DashStarsHead(t: string, k: nat, tail: string)
    requires t == " -" + StarRun(k) + tail && k >= 1
    requires tail == [] || tail[0] != '*'
    ensures StarModifier(t) != []
    ensures StarModifier(t)[0] == (if k <= 4 then tail else StarRun(k - 4) + tail)
  {
    var r := StarRun(k) + tail;
    Associative(" -", StarRun(k), tail);
    LitMatch(" -", r);
    StarsHead(r, k, tail);
    BindHead(Lit(t, " -"), r => Stars(r, 1, 4));
  }

  lemma StarsLeaveNothing(t: string, k: nat)
    requires 1 <= k <= 4 && t == " -" + StarRun(k)
    ensures AfterReference(t) == []
  {
    SuffixesIdle(t);
    assert t == " -" + StarRun(k) + [];
    DashStarsHead(t, k, []);
    TransformsIdle([]);
  }

  /** ` -*` to ` -****` after an entry id is a valid piece. */
  lemma StarsAccepted(p: string, n: nat, t: string, k: nat)
    requires 1 <= k <= 4 && t == " -" + StarRun(k) && p == NatToString(n) + t
    ensures ValidPiece(p)
  {
    EntryPiece(p, n, t);
    StarsLeaveNothing(t, k);
  }

  lemma FiveStarsLeaveOne(t: string)
    requires t == " -" + StarRun(5)
    ensures AfterReference(t) == "*"
  {
    SuffixesIdle(t);
    assert t == " -" + StarRun(5) + [];
    DashStarsHead(t, 5, []);
    assert StarRun(1) + [] == "*";
    TransformsIdle("*");
  }

  /** Five stars after ` -` are one too many: ` -\*{1,4}` stops at four and a star is left over. */
  lemma FiveStarsRejected(p: string, n: nat, t: string)
    requires t == " -" + StarRun(5) && p == NatToString(n) + t
    ensures !ValidPiece(p)
  {
    EntryPiece(p, n, t);
    FiveStarsLeaveOne(t);
    NoNote("*");
  }

  lemma AddMatchHead(s: string, t: string)
    requires s == " add " + t && Tag(t) != [] && Tag(t)[0] == []
    ensures AddMatch(s) != [] && AddMatch(s)[0] == []
  {
    LitMatch(" add ", t);
    var rs := Lit(s, " add ");
    assert rs == [t] && rs[1..] == [];
    assert Bind(rs[1..], Tag) == [];
    assert Bind(rs, Tag) == Tag(t) + Bind(rs[1..], Tag);
  }

  /** ` add T` with a tag that ends the text: the nine earlier productions cannot start, `add` takes it all. */
  lemma AddTransform(s: string, t: string)
    requires s == " add " + t && Tag(t) != [] && Tag(t)[0] == []
    ensures Transforms(s) == []
  {
    LitMismatch(s, " tr ", 1);
    LitMismatch(s, " ch ", 1);
    NoTransposeStart(s);
    NoChangeStart(s);
    AddStage(s);
    AddMatchHead(s, t);
  }

  lemma AddLeavesNothing(rest: string, t: string)
    requires rest == " add " + t && Tag(t) != [] && Tag(t)[0] == []
    ensures AfterReference(rest) == []
  {
    SuffixesIdle(rest);
    StarIdle(rest);
    AddTransform(rest, t);
  }

  /** ` add T` after an entry id, with any tag that the alternation matches whole, is a valid piece. */
  lemma AddAccepted(p: string, n: nat, t: string)
    requires Tag(t) != [] && Tag(t)[0] == []
    requires p == NatToString(n) + " add " + t
    ensures ValidPiece(p)
  {
    var rest := " add " + t;
    Associative(NatToString(n), " add ", t);
    EntryPiece(p, n, rest);
    AddLeavesNothing(rest, t);
  }

  /** No word of `words` starts with the input's first character, so none matches. */
  lemma NoAlternativeAt(s: string, words: seq<string>)
    requires s != [] && forall w :: w in words ==> w != [] && w[0] != s[0]
    ensures Alternatives(s, words) == []
  {
    if words != [] {
      assert words[0] in words;
      LitMismatch(s, words[0], 0);
      assert forall w :: w in words[1..] ==> w in words;
      NoAlternativeAt(s, words[1..]);
    }
  }

  /** Three words none of which matches match nothing together. */
  lemma NoneOfThree(s: string, words: seq<string>)
    requires |words| == 3 && Lit(s, words[0]) == [] && Lit(s, words[1]) == [] && Lit(s, words[2]) == []
    ensures Alternatives(s, words) == []
  {
    assert words[1..][0] == words[1] && words[1..][1..][0] == words[2] && words[1..][1..][1..] == [];
    assert Alternatives(s, words[1..][1..]) == Lit(s, words[2]) + Alternatives(s, []);
    assert Alternatives(s, words[1..]) == Lit(s, words[1]) + Alternatives(s, words[1..][1..]);
  }

  /** `A` followed by a space or by nothing is the tag `A`, not the start of `AUX`. */
  lemma TagOfA(r: string)
    requires r == [] || r[0] == ' '
    ensures TagFirst("A", r)
  {
    var s := "A" + r;
    assert s[0] == 'A' && s[1..] == r;
    LitMismatch(s, "AUX", 1);
    LitMismatch(s, "BR-A", 0);
    LitMismatch(s, "BR-B", 0);
    NoneOfThree(s, FrontTags);
    assert StartsWith(s, "A") by { assert s[..1] == "A"; }
    LitMismatch(r, "X", 0);
    assert TagA(s) == [r];
    assert Tag(s) == FrontTag(s) + TagA(s) + TagFrom(2, s);
  }

  /** `B` followed by a space, a comma or nothing is the tag `B`, not the start of `BR-A` or `BR-B`. */
  lemma TagOfB(r: string)
    requires r == [] || r[0] == ' ' || r[0] == ','
    ensures TagFirst("B", r)
  {
    var s := "B" + r;
    assert s[0] == 'B' && s[1..] == r;
    LitMismatch(s, "AUX", 0);
    LitMismatch(s, "BR-A", 1);
    LitMismatch(s, "BR-B", 1);
    NoneOfThree(s, FrontTags);
    LitMismatch(s, "A", 0);
    assert StartsWith(s, "B") by { assert s[..1] == "B"; }
    LitMismatch(r, "X", 0);
    assert TagB(s) == [r];
    assert Tag(s) == FrontTag(s) + TagA(s) + TagB(s) + TagFrom(3, s);
  }

  /** No relative starts with `C`. */
  lemma NoRelativeAtC(s: string)
    requires s != [] && s[0] == 'C'
    ensures RelativeA(s) == [] && RelativeB(s) == []
  {
    NoAlternativeAt(s, RelativesA);
    NoAlternativeAt(s, RelativesB);
  }

  /** `CH` is the first bare tag. */
  lemma BareCH(s: string, r: string)
    requires s == "CH" + r
    ensures BareTag(s) != [] && BareTag(s)[0] == r
  {
    LitMatch("CH", r);
    assert BareTags[0] == "CH";
    assert Alternatives(s, BareTags) == Lit(s, "CH") + Alternatives(s, BareTags[1..]);
  }

  /** `CH` followed by a space or by nothing is a bare tag. */
  lemma TagOfCH(r: string)
    requires r == [] || r[0] == ' '
    ensures TagFirst("CH", r)
  {
    var s := "CH" + r;
    assert s[0] == 'C' && s[1] == 'H';
    LitMismatch(s, "AUX", 0);
    LitMismatch(s, "BR-A", 0);
    LitMismatch(s, "BR-B", 0);
    NoneOfThree(s, FrontTags);
    LitMismatch(s, "A", 0);
    LitMismatch(s, "B", 0);
    NoRelativeAtC(s);
    BareCH(s, r);
    assert TagFrom(5, s) == BareTag(s) + TagFrom(6, s);
    assert Tag(s) == FrontTag(s) + TagA(s) + TagB(s) + RelativeA(s) + RelativeB(s) + TagFrom(5, s);
  }

  /** An empty text starts no transform. */
  lemma TransformsOfNothing()
    ensures ApplyFrom(1, []) == []
  {
    TransformsIdle([]);
    LitMismatch([], " tr ", 0);
    assert TransposeChangeMatch([]) == [];
    SkipStage(0, []);
  }

  /** ` tr X & Y...`: the transposition leaves what follows the second tag's first match. */
  lemma TransposeHead(t: string, x: string, r: string, y: string, z: string)
    requires t == " tr " + x && Tag(x) != [] && Tag(x)[0] == r
    requires r == " & " + y && Tag(y) != [] && Tag(y)[0] == z
    ensures TransposePair(t) != [] && TransposePair(t)[0] == z
  {
    AmpHead(x, r, y, z);
    LitMatch(" tr ", x);
    var rs := Lit(t, " tr ");
    assert rs[1..] == [];
    assert TransposePair(t) == AmpPair(x) + Bind(rs[1..], AmpPair);
  }

  /** `X & Y...`: the pair leaves what follows the second tag's first match. */
  lemma AmpHead(x: string, r: string, y: string, z: string)
    requires Tag(x) != [] && Tag(x)[0] == r
    requires r == " & " + y && Tag(y) != [] && Tag(y)[0] == z
    ensures AmpPair(x) != [] && AmpPair(x)[0] == z
  {
    LitMatch(" & ", y);
    var rs := Lit(r, " & ");
    assert rs[1..] == [];
    assert Bind(rs, Tag) == Tag(y) + Bind(rs[1..], Tag);
    ThenHead(Tag(x), " & ", Tag);
  }

  /** `, ch X to Y` after a transposition: the change takes the rest when its pair does. */
  lemma ChangeAfterHead(z: string, w: string, x: string)
    requires z == "," + w && w == " ch " + x && ToPair(x) != [] && ToPair(x)[0] == []
    ensures ChangeAfterTranspose(z) != [] && ChangeAfterTranspose(z)[0] == []
  {
    ChangePairHead(w, x);
    LitMatch(",", w);
    LitMismatch(z, " &", 0);
    assert ChangeAfterTranspose(z) == ChangePair(w) + Bind([], ChangePair);
  }

  /** When transpose-then-change takes the whole text, no later production has anything left. */
  lemma TransposeChangeWhole(t: string)
    requires TransposePair(t) != [] && ChangeAfterTranspose(TransposePair(t)[0]) != []
    requires ChangeAfterTranspose(TransposePair(t)[0])[0] == []
    ensures TransposeChangeMatch(t) != [] && TransposeChangeMatch(t)[0] == []
    ensures Transforms(t) == []
  {
    BindHead(TransposePair(t), ChangeAfterTranspose);
    TransformsOfNothing();
  }

  /**
   * ` tr A & B, ch B to CH` is taken whole by the first production, transpose-then-change
   * (verify.py:82), and so leaves nothing for the productions after it.
   */
  lemma TransposeThenChange(t: string, a: string, b: string, c: string)
    requires a == "A" && b == "B" && c == "CH"
    requires t == " tr " + a + " & " + b + ", ch " + b + " to " + c
    ensures TransposeChangeMatch(t) != [] && TransposeChangeMatch(t)[0] == []
    ensures Transforms(t) == []
  {
    TransposeAB(t, a, b, ", ch " + b + " to " + c);
    ChangeBToCH(b, c);
    TransposeChangeWhole(t);
  }

  /** ` tr A & B` followed by a comma: the transposition leaves the comma and what follows. */
  lemma TransposeAB(t: string, a: string, b: string, z: string)
    requires a == "A" && b == "B" && z != [] && z[0] == ','
    requires t == " tr " + a + " & " + b + z
    ensures TransposePair(t) != [] && TransposePair(t)[0] == z
  {
    var y := b + z;
    var r := " & " + y;
    assert t == " tr " + (a + r);
    TagOfA(r);
    TagOfB(z);
    TransposeHead(t, a + r, r, y, z);
  }

  /** `, ch B to CH` after a transposition is a change that takes the rest. */
  lemma ChangeBToCH(b: string, c: string)
    requires b == "B" && c == "CH"
    ensures ChangeAfterTranspose(", ch " + b + " to " + c) != []
    ensures ChangeAfterTranspose(", ch " + b + " to " + c)[0] == []
  {
    var x := b + " to " + c;
    var w := " ch " + x;
    assert ", ch " + b + " to " + c == "," + w;
    ToPairBToCH(b, c);
    ChangeAfterHead("," + w, w, x);
  }

  lemma ToPairBToCH(b: string, c: string)
    requires b == "B" && c == "CH"
    ensures ToPair(b + " to " + c) != [] && ToPair(b + " to " + c)[0] == []
  {
    TagOfB(" to " + c);
    TagOfCH([]);
    assert c + [] == c;
    ToPairHead(b, c);
  }

  /** The piece `<n> tr A & B, ch B to CH` is accepted. */
  lemma TransposeThenChangeAccepted(p: string, n: nat, t: string, a: string, b: string, c: string)
    requires a == "A" && b == "B" && c == "CH"
    requires t == " tr " + a + " & " + b + ", ch " + b + " to " + c && p == NatToString(n) + t
    ensures ValidPiece(p)
  {
    TransposeChangeLeavesNothing(t, a, b, c);
    EntryPiece(p, n, t);
  }

  lemma TransposeChangeLeavesNothing(t: string, a: string, b: string, c: string)
    requires a == "A" && b == "B" && c == "CH"
    requires t == " tr " + a + " & " + b + ", ch " + b + " to " + c
    ensures t[0] == ' ' && AfterReference(t) == []
  {
    assert t[0] == ' ' && t[1] == 't';
    SuffixesIdle(t);
    StarIdle(t);
    TransposeThenChange(t, a, b, c);
  }


  /** `add AUX`: the longest front tag is taken whole, so the piece is valid. */
  lemma AddAuxAccepted(p: string, n: nat, t: string)
    requires t == "AUX" && p == NatToString(n) + " add " + t
    ensures ValidPiece(p)
  {
    LongTagsFirst([]);
    assert t + [] == t;
    AddAccepted(p, n, t);
  }

  // ---------------------------------------------------------------- texts without an ampersand

  /** No remainder holds an `&`. */
  predicate NoAmp(rs: Rests) { forall r :: r in rs ==> '&' !in r }

  lemma TailNoAmp(s: string, k: nat)
    requires '&' !in s && k <= |s|
    ensures '&' !in s[k..]
  {
    forall i | 0 <= i < |s| - k
      ensures s[k..][i] != '&'
    {
      assert s[k..][i] == s[k + i];
    }
  }

  lemma LitNoAmp(s: string, w: string)
    requires '&' !in s
    ensures NoAmp(Lit(s, w))
  {
    if w != [] && StartsWith(s, w) {
      TailNoAmp(s, |w|);
    }
  }

  /** A literal holding an `&` never matches a text without one. */
  lemma AmpLitFails(s: string, w: string, i: nat)
    requires '&' !in s && i < |w| && w[i] == '&'
    ensures Lit(s, w) == []
  {
    if i < |s| {
      assert s[i] != '&';
    }
    LitMismatch(s, w, i);
  }

  lemma {:induction false} BindNoAmp(rs: Rests, f: string --> Rests)
    requires forall r :: r in rs ==> f.requires(r) && NoAmp(f(r))
    ensures NoAmp(Bind(rs, f))
  {
    if rs != [] {
      BindNoAmp(rs[1..], f);
    }
  }

  /** A stage that fails on every remainder makes the sequence fail. */
  lemma {:induction false} BindNone(rs: Rests, f: string --> Rests)
    requires forall r :: r in rs ==> f.requires(r) && f(r) == []
    ensures Bind(rs, f) == []
  {
    if rs != [] {
      BindNone(rs[1..], f);
    }
  }

  lemma {:induction false} AlternativesNoAmp(s: string, words: seq<string>)
    requires '&' !in s
    ensures NoAmp(Alternatives(s, words))
  {
    if words != [] {
      LitNoAmp(s, words[0]);
      AlternativesNoAmp(s, words[1..]);
    }
  }

  lemma {:induction false} ClosingQuotesNoAmp(s: string)
    requires '&' !in s
    ensures NoAmp(AfterClosingQuotes(s))
  {
    if s != [] {
      TailNoAmp(s, 1);
      ClosingQuotesNoAmp(s[1..]);
    }
  }

  lemma LetteredNoAmp(s: string, lead: string, digits: string)
    requires '&' !in s
    ensures NoAmp(Lettered(s, lead, digits))
  {
    LitNoAmp(s, lead);
    forall r | r in Lit(s, lead)
      ensures NoAmp(Lit(r, "X") + DashDigit(r, digits) + [r])
    {
      LitNoAmp(r, "X");
      if |r| >= 2 {
        TailNoAmp(r, 2);
      }
    }
    BindNoAmp(Lit(s, lead), r => Lit(r, "X") + DashDigit(r, digits) + [r]);
  }

  lemma SuffixedNoAmp(s: string, words: seq<string>, suffix: string)
    requires '&' !in s
    ensures NoAmp(Bind(Alternatives(s, words), r => Lit(r, suffix)))
  {
    AlternativesNoAmp(s, words);
    forall r | r in Alternatives(s, words)
      ensures NoAmp(Lit(r, suffix))
    {
      LitNoAmp(r, suffix);
    }
    BindNoAmp(Alternatives(s, words), r => Lit(r, suffix));
  }

  lemma TagFormNoAmp(k: nat, s: string)
    requires k < |TagForms| && '&' !in s
    ensures NoAmp(TagForms[k](s))
  {
    if k == 0 {
      AlternativesNoAmp(s, FrontTags);
    } else if k == 1 {
      LetteredNoAmp(s, "A", "123456789");
    } else if k == 2 {
      LetteredNoAmp(s, "B", "23458");
    } else if k == 3 {
      SuffixedNoAmp(s, RelativesA, "-A");
    } else if k == 4 {
      SuffixedNoAmp(s, RelativesB, "-B");
    } else if k == 5 {
      AlternativesNoAmp(s, BareTags);
    } else if StartsWith(s, "“") {
      TailNoAmp(s, 1);
      ClosingQuotesNoAmp(s[1..]);
    }
  }

  lemma {:induction false} TagFromNoAmp(k: nat, s: string)
    requires '&' !in s
    ensures NoAmp(TagFrom(k, s))
    decreases |TagForms| - k
  {
    if k < |TagForms| {
      TagFormNoAmp(k, s);
      TagFromNoAmp(k + 1, s);
    }
  }

  lemma TagNoAmp(s: string)
    requires '&' !in s
    ensures NoAmp(Tag(s))
  {
    TagFromNoAmp(0, s);
  }

  lemma {:induction false} ThenNoAmp(rs: Rests, w: string, g: string -> Rests)
    requires NoAmp(rs) && forall x :: '&' !in x ==> NoAmp(g(x))
    ensures NoAmp(Then(rs, w, g))
  {
    if rs != [] {
      assert rs[0] in rs;
      LitNoAmp(rs[0], w);
      BindNoAmp(Lit(rs[0], w), g);
      ThenNoAmp(rs[1..], w, g);
    }
  }

  /** A literal whose second character is `&` never follows a match without one. */
  lemma {:induction false} ThenAmpNone(rs: Rests, w: string, g: string -> Rests)
    requires NoAmp(rs) && |w| > 1 && w[1] == '&'
    ensures Then(rs, w, g) == []
  {
    if rs != [] {
      assert rs[0] in rs;
      AmpLitFails(rs[0], w, 1);
      ThenAmpNone(rs[1..], w, g);
    }
  }

  lemma ToPairNoAmp(s: string)
    requires '&' !in s
    ensures NoAmp(ToPair(s))
  {
    TagNoAmp(s);
    forall x | '&' !in x
      ensures NoAmp(Tag(x))
    {
      TagNoAmp(x);
    }
    ThenNoAmp(Tag(s), " to ", Tag);
  }

  lemma ChangePairNoAmp(s: string)
    requires '&' !in s
    ensures NoAmp(ChangePair(s))
  {
    LitNoAmp(s, " ch ");
    forall r | r in Lit(s, " ch ")
      ensures NoAmp(ToPair(r))
    {
      ToPairNoAmp(r);
    }
    BindNoAmp(Lit(s, " ch "), ToPair);
  }

  lemma {:induction false} MorePairsNoAmp(s: string)
    requires '&' !in s
    ensures NoAmp(MorePairs(s))
    decreases |s|
  {
    var pairs := Bind(Lit(s, ", "), ToPair);
    NextPairShorter(s);
    LitNoAmp(s, ", ");
    forall r | r in Lit(s, ", ")
      ensures NoAmp(ToPair(r))
    {
      ToPairNoAmp(r);
    }
    BindNoAmp(Lit(s, ", "), ToPair);
    forall r | r in pairs
      ensures NoAmp(MorePairs(r))
    {
      MorePairsNoAmp(r);
    }
    BindNoAmp(pairs, r requires |r| < |s| => MorePairs(r));
  }

  // ---------------------------------------------------------------- the change production

  /** The tag pattern matches `t` whole at the front of `t + rest`, as its first choice. */
  predicate TagFirst(t: string, rest: string)
  {
    Tag(t + rest) != [] && Tag(t + rest)[0] == rest
  }

  lemma NoChangeTranspose(s: string)
    requires '&' !in s
    ensures ChangeTransposeMatch(s) == []
  {
    ChangePairNoAmp(s);
    ThenAmpNone(ChangePair(s), " &", TransposePair);
  }

  lemma NoChangeAdd(s: string)
    requires '&' !in s
    ensures ChangeAddMatch(s) == []
  {
    ChangePairNoAmp(s);
    forall r | r in ChangePair(s)
      ensures AddAfterPairs(r) == []
    {
      MorePairsNoAmp(r);
      ThenAmpNone(MorePairs(r), " & add ", Tag);
    }
    BindNone(ChangePair(s), AddAfterPairs);
  }

  lemma NoChangeEliminate(s: string)
    requires '&' !in s
    ensures ChangeEliminateMatch(s) == []
  {
    ChangePairNoAmp(s);
    ThenAmpNone(ChangePair(s), " & eliminate ", GreedyQuoted);
  }

  lemma NoChangeConjoined(s: string)
    requires '&' !in s
    ensures ChangeConjoinedMatch(s) == []
  {
    ChangePairNoAmp(s);
    ThenAmpNone(ChangePair(s), " & ", ConjoinedPair);
  }

  lemma NoChangeLast(s: string)
    requires '&' !in s
    ensures ChangeLastMatch(s) == []
  {
    ChangePairNoAmp(s);
    ThenAmpNone(ChangePair(s), " & last ", ToPair);
  }

  /** `T to T` with both tags taken whole leaves nothing, as its first choice. */
  lemma ToPairHead(a: string, b: string)
    requires TagFirst(a, " to " + b) && TagFirst(b, [])
    ensures ToPair(a + " to " + b) != [] && ToPair(a + " to " + b)[0] == []
  {
    var x := a + " to " + b;
    Associative(a, " to ", b);
    LitMatch(" to ", b);
    var rs := Lit(" to " + b, " to ");
    assert b + [] == b && rs[1..] == [];
    assert Bind(rs, Tag) == Tag(b) + Bind(rs[1..], Tag);
    ThenHead(Tag(x), " to ", Tag);
  }

  lemma ChangePairHead(s: string, x: string)
    requires s == " ch " + x && ToPair(x) != [] && ToPair(x)[0] == []
    ensures ChangePair(s) != [] && ChangePair(s)[0] == []
  {
    LitMatch(" ch ", x);
    var rs := Lit(s, " ch ");
    assert rs[1..] == [];
    assert ChangePair(s) == ToPair(x) + Bind(rs[1..], ToPair);
  }

  /** Nothing left after the first pair: no further pairs, no `&`/`and` pair, so the match ends there. */
  lemma ChangeEndsAfterPair()
    ensures ChangeRest([]) == [[]]
  {
    assert MorePairs([]) == [[]] by {
      LitMismatch([], ", ", 0);
    }
    LitMismatch([], " & ", 0);
    LitMismatch([], " and ", 0);
    var one: Rests := [[]];
    assert one[1..] == [];
    assert Bind(one, FinalPair) == FinalPair([]) + Bind(one[1..], FinalPair);
  }

  /** Plain ` ch T to T` that ends the text: the change production consumes it all. */
  lemma ChangeMatchHead(s: string, x: string)
    requires s == " ch " + x && ToPair(x) != [] && ToPair(x)[0] == []
    ensures ChangeMatch(s) != [] && ChangeMatch(s)[0] == []
  {
    ChangePairHead(s, x);
    ChangeEndsAfterPair();
    BindHead(ChangePair(s), ChangeRest);
  }

  /** Without `&` none of the five compound change productions can match. */
  lemma NoCompoundChange(s: string)
    requires '&' !in s
    ensures ApplyFrom(3, s) == ApplyFrom(8, s)
  {
    NoChangeTranspose(s);
    SkipStage(3, s);
    NoChangeAdd(s);
    SkipStage(4, s);
    NoChangeEliminate(s);
    SkipStage(5, s);
    NoChangeConjoined(s);
    SkipStage(6, s);
    NoChangeLast(s);
    SkipStage(7, s);
  }

  lemma ChangeTransform(s: string, x: string)
    requires s == " ch " + x && '&' !in x && ToPair(x) != [] && ToPair(x)[0] == []
    ensures Transforms(s) == []
  {
    assert StartsWith(s, " ch ") && '&' !in s;
    LitMismatch(s, " tr ", 1);
    NoTransposeStart(s);
    NoCompoundChange(s);
    ChangeMatchHead(s, x);
    AddStage([]);
    LitMismatch([], " add ", 0);
  }

  lemma ChangeLeavesNothing(rest: string, x: string)
    requires rest == " ch " + x && '&' !in x && ToPair(x) != [] && ToPair(x)[0] == []
    ensures AfterReference(rest) == []
  {
    SuffixesIdle(rest);
    StarIdle(rest);
    ChangeTransform(rest, x);
  }

  /** `“Name” to “Other”`: two quoted names form a pair taken whole. */
  lemma NamesPair(x: string, a: string, b: string, one: string, other: string)
    requires '”' !in one && '”' !in other
    requires a == "“" + one + "”" && b == "“" + other + "”" && x == a + " to " + b
    ensures ToPair(x) != [] && ToPair(x)[0] == []
  {
    QuotedTag(one, " to " + b);
    QuotedTag(other, []);
    assert b + [] == "“" + other + "”" + [];
    assert a + (" to " + b) == "“" + one + "”" + (" to " + b);
    ToPairHead(a, b);
  }

  // ---------------------------------------------------------------- whole links

  /** A valid piece is empty, a lone clause letter, or led by an entry id. */
  lemma ValidPieceShape(p: string)
    requires ValidPiece(p)
    ensures p == [] || LoneLetter(p) || IsDigit(p[0])
  {
    if p != [] && !LoneLetter(p) {
      assert Reference(p).Some?;
    }
  }

  /** Two texts without `;` joined by one split back into the two. */
  lemma SplitTwo(a: string, b: string)
    requires ';' !in a && ';' !in b
    ensures Contains(a + ";" + b, ";") && Split(a + ";" + b, ";") == [a, b]
  {
    var link := a + ";" + b;
    ContainsChar(link, ';');
    assert link[|a|] == ';';
    SplitAtChar(a, ';', b);
    ContainsChar(b, ';');
  }

  lemma BothPieces(a: string, b: string)
    ensures (forall p <- [a, b] :: ValidLink(Strip(p))) <==> ValidLink(Strip(a)) && ValidLink(Strip(b))
  {
    assert [a, b][0] == a && [a, b][1] == b;
  }

  /**
   * `a;b` with no further ";" is valid exactly when both stripped sides are; " or " inside
   * either side is split only after ";" (verify.py:38-53).
   */
  lemma SequenceOfTwo(a: string, b: string)
    requires ';' !in a && ';' !in b
    ensures ValidLink(a + ";" + b) <==> ValidLink(Strip(a)) && ValidLink(Strip(b))
  {
    var link := a + ";" + b;
    SplitTwo(a, b);
    BothPieces(a, b);
  }

  /** Pieces without ";" joined by ";" split back into themselves. */
  lemma SemicolonPieces(ps: seq<string>)
    requires |ps| >= 2 && forall p <- ps :: ';' !in p
    ensures Contains(Join(ps, ";"), ";") && Split(Join(ps, ";"), ";") == ps
  {
    var link := Join(ps, ";");
    forall p <- ps
      ensures Separable(p, ";")
    {
      ContainsChar(p, ';');
      assert p + ";"[..0] == p;
    }
    SplitJoin(ps, ";");
    JoinCons(ps[0], ps[1..], ";");
    assert [ps[0]] + ps[1..] == ps;
    assert OccursAt(link, ";", |ps[0]|) by {
      assert link[|ps[0]|..|ps[0]| + 1] == ";";
    }
  }

  /**
   * A link written as n >= 2 pieces joined by ";" is valid exactly when every stripped piece
   * is (verify.py:38-44): `split(';')` gives back the very pieces that were joined.
   */
  lemma SequenceOf(ps: seq<string>)
    requires |ps| >= 2 && forall p <- ps :: ';' !in p
    ensures ValidLink(Join(ps, ";")) <==> forall p <- ps :: ValidLink(Strip(p))
  {
    SemicolonPieces(ps);
  }

  /** Alternatives without " or " or a final " or", joined by " or ", split back into themselves. */
  lemma OrSplit(ps: seq<string>)
    requires |ps| >= 2 && forall p <- ps :: !Contains(p + " or", " or ")
    ensures Split(Join(ps, " or "), " or ") == ps
  {
    assert " or "[..3] == " or";
    assert forall p <- ps :: Separable(p, " or ");
    SplitJoin(ps, " or ");
  }

  /** Alternatives joined by " or " hold " or ", and hold ";" only if an alternative does. */
  lemma OrJoined(ps: seq<string>)
    requires |ps| >= 2 && forall p <- ps :: ';' !in p
    ensures !Contains(Join(ps, " or "), ";") && Contains(Join(ps, " or "), " or ")
  {
    var link := Join(ps, " or ");
    JoinChars(ps, " or ", ';');
    ContainsChar(link, ';');
    JoinCons(ps[0], ps[1..], " or ");
    assert [ps[0]] + ps[1..] == ps;
    assert OccursAt(link, " or ", |ps[0]|) by {
      assert link[|ps[0]|..|ps[0]| + 4] == " or ";
    }
  }

  /**
   * A link without ";" written as n >= 2 alternatives joined by " or " is valid exactly when
   * every stripped alternative is (verify.py:46-53).  No alternative may hold " or ", nor end
   * in " or", which would let `split(' or ')` cut it at a different place.
   */
  lemma AlternativesOf(ps: seq<string>)
    requires |ps| >= 2 && forall p <- ps :: ';' !in p && !Contains(p + " or", " or ")
    ensures ValidLink(Join(ps, " or ")) <==> forall p <- ps :: ValidLink(Strip(p))
  {
    OrSplit(ps);
    OrJoined(ps);
  }
}
