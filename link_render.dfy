/**
 * How build.py turns links into HTML: a link (the text between one pair of parentheses)
 * becomes one anchor per piece, a list of "(...)" groups becomes a run of link-group spans,
 * "@{...}" tags inside running text become inline links, and the body text of a sub-entry
 * has every parenthetical that starts with a digit replaced by its links.
 *
 * The parenthetical scan is shared with verify.py, which walks the same text to check each
 * digit-led parenthetical against the link grammar.
 */
module LinkRender {
  import opened Outcomes
  import opened Strings
  import opened LinkGrammar

  // ---------------------------------------------------------------- one link

  /** The hyperlink for one piece: it targets conflict `id` and shows `text`. */
  function Anchor(id: string, text: string): string
  {
    "<a href=\"#" + id + "\" class=\"clink\">" + text + "</a>"
  }

  /** HTML-escapes the ampersands of a label (`str.replace("&", "&amp;")`). */
  function Escape(s: string): string
  {
    Replace(s, "&", "&amp;")
  }

  /** A label without ampersands is shown as it is. */
  lemma EscapeFree(s: string)
    requires '&' !in s
    ensures Escape(s) == s
  {
    ContainsChar(s, '&');
  }

  /** Each ampersand, from the first on, is replaced and nothing else changes. */
  lemma EscapeAmp(a: string, b: string)
    requires '&' !in a
    ensures Escape(a + "&" + b) == a + "&amp;" + Escape(b)
  {
    SplitAtChar(a, '&', b);
    var rest := Split(b, "&");
    assert ([a] + rest)[1..] == rest;
  }

  /**
   * One piece (build.py:248-259): the empty piece renders as nothing; a piece led by digits
   * renders as an anchor to the conflict those digits name, labelled with the whole piece;
   * anything else is fatal.
   */
  function RenderPiece(p: string): (r: Result<string>)
    ensures r.Ok? <==> p == [] || IsDigit(p[0])
    ensures r.Fail? ==> r.error == InvalidLinks(p)
    ensures p != [] && r.Ok? ==> r.value == Anchor(p[..LeadingDigits(p)], Escape(p))
  {
    if p == [] then Ok([])
    else if IsDigit(p[0]) then Ok(Anchor(p[..LeadingDigits(p)], Escape(p)))
    else Fail(InvalidLinks(p))
  }

  /**
   * A whole link (build.py:222-259): split on ";" first, else on " or ", render every
   * stripped part in turn and join the results with " ; " or " or "; the first part that
   * fails ends the run.
   */
  function RenderLink(link: string): (r: Result<string>)
    ensures r.Fail? ==> r.error.InvalidLinks?
    decreases |link|, 1
  {
    if Contains(link, ";") then RenderJoined(Split(link, ";"), " ; ", |link|)
    else if Contains(link, " or ") then RenderJoined(Split(link, " or "), " or ", |link|)
    else RenderPiece(link)
  }

  /** The parts of a split link, rendered and joined with `sep`. */
  function RenderJoined(ps: seq<string>, sep: string, bound: nat): (r: Result<string>)
    requires forall p <- ps :: |p| < bound
    ensures r.Fail? ==> r.error.InvalidLinks?
    decreases bound, 0
  {
    match RenderEach(ps, bound)
    case Ok(hs) => Ok(Join(hs, sep))
    case Fail(e) => Fail(e)
  }

  /** The stripped parts rendered left to right, one result per part. */
  function RenderEach(ps: seq<string>, bound: nat): (r: Result<seq<string>>)
    requires forall p <- ps :: |p| < bound
    ensures r.Ok? ==> |r.value| == |ps|
    ensures r.Fail? ==> r.error.InvalidLinks?
    decreases bound, 0, |ps|
  {
    if ps == [] then Ok([])
    else
      match RenderLink(Strip(ps[0]))
      case Fail(e) => Fail(e)
      case Ok(h) =>
        match RenderEach(ps[1..], bound)
        case Fail(e) => Fail(e)
        case Ok(hs) => Ok([h] + hs)
  }

  /** `P` holds of every piece of `link`, split the way both scripts split links. */
  predicate EveryPiece(link: string, P: string -> bool)
    decreases |link|
  {
    if Contains(link, ";") then forall p <- Split(link, ";") :: EveryPiece(Strip(p), P)
    else if Contains(link, " or ") then forall p <- Split(link, " or ") :: EveryPiece(Strip(p), P)
    else P(link)
  }

  /** The pieces build.py can render. */
  predicate Renderable(p: string) { p == [] || IsDigit(p[0]) }

  /** The pieces that are not a lone clause letter. */
  predicate NotLone(p: string) { !LoneLetter(p) }

  /** A link renders exactly when every piece is empty or led by a digit. */
  lemma {:induction false} RenderOk(link: string)
    ensures RenderLink(link).Ok? <==> EveryPiece(link, Renderable)
    decreases |link|, 1
  {
    if Contains(link, ";") {
      RenderEachOk(Split(link, ";"), |link|);
    } else if Contains(link, " or ") {
      RenderEachOk(Split(link, " or "), |link|);
    }
  }

  lemma {:induction false} RenderEachOk(ps: seq<string>, bound: nat)
    requires forall p <- ps :: |p| < bound
    ensures RenderEach(ps, bound).Ok? <==> forall p <- ps :: EveryPiece(Strip(p), Renderable)
    decreases bound, 0, |ps|
  {
    if ps != [] {
      RenderOk(Strip(ps[0]));
      RenderEachOk(ps[1..], bound);
      assert forall p <- ps :: p == ps[0] || p in ps[1..];
    }
  }

  /** Every piece the grammar accepts, except a lone clause letter, can be rendered. */
  lemma {:induction false} ValidRenderable(link: string)
    requires ValidLink(link) && EveryPiece(link, NotLone)
    ensures EveryPiece(link, Renderable)
    decreases |link|
  {
    if Contains(link, ";") {
      forall p <- Split(link, ";")
        ensures EveryPiece(Strip(p), Renderable)
      {
        ValidRenderable(Strip(p));
      }
    } else if Contains(link, " or ") {
      forall p <- Split(link, " or ")
        ensures EveryPiece(Strip(p), Renderable)
      {
        ValidRenderable(Strip(p));
      }
    } else {
      ValidPieceShape(link);
    }
  }

  /**
   * build.py assumes that every link verify.py accepted can be rendered; that holds for
   * every accepted link without a lone clause letter among its pieces.
   */
  lemma RenderValid(link: string)
    requires ValidLink(link) && EveryPiece(link, NotLone)
    ensures RenderLink(link).Ok?
  {
    ValidRenderable(link);
    RenderOk(link);
  }

  /**
   * The exception: a lone clause letter such as "b" is a valid link to verify.py but is
   * fatal to build.py.
   */
  lemma LoneLetterGap(p: string)
    requires LoneLetter(p)
    ensures ValidLink(p)
    ensures RenderLink(p) == Fail(InvalidLinks(p))
  {
    ContainsChar(p, ';');
    assert !OccursAt(p, " or ", 0);
  }

  /** A single piece `<id><rest>` links to conflict `id` and shows the whole piece. */
  lemma RenderSingle(p: string, n: nat, rest: string)
    requires p == NatToString(n) + rest
    requires rest == [] || !IsDigit(rest[0])
    requires ';' !in p && !Contains(p, " or ")
    ensures RenderLink(p) == Ok(Anchor(NatToString(n), Escape(p)))
  {
    ContainsChar(p, ';');
    LeadingDigitsOf(NatToString(n), rest);
    assert p[..LeadingDigits(p)] == NatToString(n);
  }

  /** One part rendered on its own. */
  lemma EachOne(b: string, bound: nat)
    requires |b| < bound
    ensures RenderEach([b], bound) == match RenderLink(Strip(b)) case Fail(e) => Fail(e) case Ok(h) => Ok([h])
  {
    assert [b][1..] == [];
    assert RenderEach([], bound) == Ok([]);
    var r := RenderLink(Strip(b));
    if r.Ok? {
      assert [r.value] + [] == [r.value];
    }
  }

  /** Two parts rendered and joined: the left one's failure comes first. */
  lemma JoinedTwo(a: string, b: string, sep: string, bound: nat)
    requires |a| < bound && |b| < bound
    ensures RenderLink(Strip(a)).Fail? ==> RenderJoined([a, b], sep, bound) == RenderLink(Strip(a))
    ensures RenderLink(Strip(a)).Ok? && RenderLink(Strip(b)).Fail? ==>
              RenderJoined([a, b], sep, bound) == RenderLink(Strip(b))
    ensures RenderLink(Strip(a)).Ok? && RenderLink(Strip(b)).Ok? ==>
              RenderJoined([a, b], sep, bound) == Ok(RenderLink(Strip(a)).value + sep + RenderLink(Strip(b)).value)
  {
    var ps := [a, b];
    assert ps[1..] == [b];
    EachOne(b, bound);
    var ra := RenderLink(Strip(a));
    var rb := RenderLink(Strip(b));
    if ra.Ok? && rb.Ok? {
      var hs := [ra.value] + [rb.value];
      assert RenderEach(ps, bound) == Ok(hs);
      assert hs[1..] == [rb.value];
      assert Join(hs, sep) == ra.value + sep + rb.value;
    }
  }

  /**
   * A sequence of two parts: the left part is rendered first and its failure is the
   * failure of the whole; otherwise the two renderings are joined with " ; ".
   */
  lemma RenderSequence(a: string, b: string)
    requires ';' !in a && ';' !in b
    ensures RenderLink(Strip(a)).Fail? ==> RenderLink(a + ";" + b) == RenderLink(Strip(a))
    ensures RenderLink(Strip(a)).Ok? && RenderLink(Strip(b)).Fail? ==>
              RenderLink(a + ";" + b) == RenderLink(Strip(b))
    ensures RenderLink(Strip(a)).Ok? && RenderLink(Strip(b)).Ok? ==>
              RenderLink(a + ";" + b) == Ok(RenderLink(Strip(a)).value + " ; " + RenderLink(Strip(b)).value)
  {
    var link := a + ";" + b;
    assert Contains(link, ";") by {
      ContainsChar(link, ';');
      assert link[|a|] == ';';
    }
    assert Split(link, ";") == [a, b] by {
      SplitAtChar(a, ';', b);
      ContainsChar(b, ';');
    }
    assert RenderLink(link) == RenderJoined([a, b], " ; ", |link|);
    JoinedTwo(a, b, " ; ", |link|);
  }

  /**
   * `parse_link` as build.py writes it (build.py:222-259): the same split, with a loop that
   * renders each stripped part through a recursive call and collects the results.
   */
  method ParseLink(link: string) returns (r: Result<string>)
    ensures r == RenderLink(link)
    decreases |link|
  {
    var sep, joiner;
    if Contains(link, ";") {
      sep, joiner := ";", " ; ";
    } else if Contains(link, " or ") {
      sep, joiner := " or ", " or ";
    } else {
      return RenderPiece(link);
    }
    var parts := Split(link, sep);
    assert RenderLink(link) == RenderJoined(parts, joiner, |link|);
    var hlinks: seq<string> := [];
    assert parts[0..] == parts;
    PrefixedNothing(RenderEach(parts, |link|));
    for i := 0 to |parts|
      invariant RenderEach(parts, |link|) == Prefixed(hlinks, RenderEach(parts[i..], |link|))
    {
      var h := ParseLink(Strip(parts[i]));
      EachStep(parts[i..], |link|);
      assert parts[i..][1..] == parts[i + 1..];
      if h.Fail? {
        return Fail(h.error);
      }
      PrefixedTwice(hlinks, [h.value], RenderEach(parts[i + 1..], |link|));
      hlinks := hlinks + [h.value];
    }
    assert parts[|parts|..] == [];
    assert RenderEach([], |link|) == Ok([]);
    assert hlinks + [] == hlinks;
    return Ok(Join(hlinks, joiner));
  }

  /** Rendering the parts from the first one on: its failure, or its result in front of the rest's. */
  lemma EachStep(ps: seq<string>, bound: nat)
    requires ps != [] && forall p <- ps :: |p| < bound
    ensures RenderEach(ps, bound) ==
              match RenderLink(Strip(ps[0]))
              case Fail(e) => Fail(e)
              case Ok(h) => Prefixed([h], RenderEach(ps[1..], bound))
  {
  }

  /** `r` with `done` put in front of its value. */
  function Prefixed<T>(done: seq<T>, r: Result<seq<T>>): Result<seq<T>>
  {
    match r
    case Ok(rest) => Ok(done + rest)
    case Fail(e) => Fail(e)
  }

  lemma PrefixedNothing<T>(r: Result<seq<T>>)
    ensures Prefixed([], r) == r
  {
    if r.Ok? {
      assert [] + r.value == r.value;
    }
  }

  lemma PrefixedTwice<T>(a: seq<T>, b: seq<T>, r: Result<seq<T>>)
    ensures Prefixed(a, Prefixed(b, r)) == Prefixed(a + b, r)
  {
    if r.Ok? {
      assert a + (b + r.value) == (a + b) + r.value;
    }
  }

  // ---------------------------------------------------------------- lists of link groups

  /**
   * `^\((.*?)\) ?(.*)$`: the text between a leading "(" and the first ")" after it, and
   * what follows that ")" less one space.
   */
  function LeadingGroup(links: string): (r: Option<(string, string)>)
    ensures r.Some? ==> |r.value.1| < |links|
  {
    if links == [] || links[0] != '(' then None
    else
      match FindFrom(links, ")", 1)
      case None => None
      case Some(j) =>
        var rest := links[j + 1..];
        Some((links[1..j], if rest != [] && rest[0] == ' ' then rest[1..] else rest))
  }

  /** The leading group of `(g)rest` is `g`, whatever follows. */
  lemma LeadingGroupOf(g: string, rest: string)
    requires ')' !in g
    ensures LeadingGroup("(" + g + ")" + rest) ==
              Some((g, if rest != [] && rest[0] == ' ' then rest[1..] else rest))
  {
    var links := "(" + g + ")" + rest;
    var j := |g| + 1;
    assert OccursAt(links, ")", j) by {
      assert links[j..j + 1] == ")";
    }
    forall k | 1 <= k < j
      ensures !OccursAt(links, ")", k)
    {
      assert links[k..k + 1] == [g[k - 1]];
    }
    assert FindFrom(links, ")", 1) == Some(j);
    assert links[1..j] == g && links[j + 1..] == rest;
  }

  /** One link group as build.py writes it. */
  function GroupSpan(h: string): string
  {
    "<span class=\"clinkgroup\">" + h + "</span>"
  }

  /**
   * A list of link groups `(...) (...) ...` (build.py:203-216): one span per group, in
   * order; text that does not start with a group, or a group that does not render, is fatal.
   */
  function LinkGroups(id: string, links: string): (r: Result<seq<string>>)
    ensures r.Fail? ==> r.error.InvalidLinkList? || r.error.InvalidLinks?
    decreases |links|
  {
    if links == [] then Ok([])
    else
      match LeadingGroup(links)
      case None => Fail(InvalidLinkList(id, links))
      case Some((g, rest)) =>
        match RenderLink(g)
        case Fail(e) => Fail(e)
        case Ok(h) => Prefixed([GroupSpan(h)], LinkGroups(id, rest))
  }

  /** The spans of a list of link groups, separated by single spaces. */
  function RenderLinks(id: string, links: string): (r: Result<string>)
    ensures r.Fail? ==> r.error.InvalidLinkList? || r.error.InvalidLinks?
  {
    match LinkGroups(id, links)
    case Ok(spans) => Ok(Join(spans, " "))
    case Fail(e) => Fail(e)
  }

  /** A single group `(g)` renders as one span around the rendering of `g`. */
  lemma OneGroup(id: string, links: string, g: string)
    requires ')' !in g && links == "(" + g + ")"
    ensures LinkGroups(id, links) ==
              match RenderLink(g) case Ok(h) => Ok([GroupSpan(h)]) case Fail(e) => Fail(e)
    ensures RenderLinks(id, links) ==
              match RenderLink(g) case Ok(h) => Ok(GroupSpan(h)) case Fail(e) => Fail(e)
  {
    assert links == "(" + g + ")" + [];
    LeadingGroupOf(g, []);
    var none := LinkGroups(id, []);
    assert none == Ok([]);
    var rg := RenderLink(g);
    if rg.Ok? {
      assert LinkGroups(id, links) == Prefixed([GroupSpan(rg.value)], none);
      assert [GroupSpan(rg.value)] + [] == [GroupSpan(rg.value)];
    }
  }

  /** A leading group `(g)`: its span, then the spans of what follows it. */
  lemma GroupThen(id: string, links: string, g: string, rest: string)
    requires ')' !in g && links == "(" + g + ")" + rest
    ensures LinkGroups(id, links) ==
              match RenderLink(g)
              case Fail(e) => Fail(e)
              case Ok(h) => Prefixed([GroupSpan(h)], LinkGroups(id, if rest != [] && rest[0] == ' ' then rest[1..] else rest))
  {
    LeadingGroupOf(g, rest);
  }

  /** `parse_links` (build.py:203-216): the loop over the groups, proved against `RenderLinks`. */
  method ParseLinks(id: string, links: string) returns (r: Result<string>)
    ensures r == RenderLinks(id, links)
  {
    var hyperlinks := "";
    var rest := links;
    ghost var spans: seq<string> := [];
    PrefixedNothing(LinkGroups(id, links));
    while rest != []
      invariant LinkGroups(id, links) == Prefixed(spans, LinkGroups(id, rest))
      invariant hyperlinks == Join(spans, " ")
      invariant hyperlinks == [] <==> spans == []
      decreases |rest|
    {
      var m := LeadingGroup(rest);
      if m.None? {
        return Fail(InvalidLinkList(id, rest));
      }
      var (g, after) := m.value;
      var h := ParseLink(g);
      if h.Fail? {
        return Fail(h.error);
      }
      var span := GroupSpan(h.value);
      if hyperlinks != [] {
        hyperlinks := hyperlinks + " ";
      }
      hyperlinks := hyperlinks + span;
      JoinSnoc(spans, span, " ");
      assert LinkGroups(id, rest) == Prefixed([span], LinkGroups(id, after));
      PrefixedTwice(spans, [span], LinkGroups(id, after));
      spans := spans + [span];
      rest := after;
    }
    assert LinkGroups(id, []) == Ok([]);
    assert spans + [] == spans;
    return Ok(hyperlinks);
  }

  // ---------------------------------------------------------------- inline "@{...}" tags

  /** The last index at or before `from` where `w` occurs in `s`. */
  function LastAtOrBefore(s: string, w: string, from: int): (r: Option<nat>)
    ensures r.Some? ==> r.value <= from && OccursAt(s, w, r.value)
    ensures r.Some? ==> forall j: nat :: r.value < j <= from ==> !OccursAt(s, w, j)
    ensures r.None? ==> forall j: nat :: j <= from ==> !OccursAt(s, w, j)
    decreases from + 1
  {
    if from < 0 then None
    else if OccursAt(s, w, from) then Some(from)
    else LastAtOrBefore(s, w, from - 1)
  }

  /**
   * Where `^(.*)@{(.+)}(.*)$` splits `text` (build.py:550): the greedy groups put the "}"
   * at the last "}" of the text, and the "@{" at the last occurrence that leaves at least
   * one character before that "}".
   */
  function TagAt(text: string): (r: Option<(nat, nat)>)
    ensures r.Some? ==> r.value.0 + 3 <= r.value.1 < |text|
    ensures r.Some? ==> text[r.value.1] == '}' && text[r.value.0] == '@' && text[r.value.0 + 1] == '{'
  {
    match LastAtOrBefore(text, "}", |text| - 1)
    case None => None
    case Some(close) =>
      assert text[close] == text[close..close + 1][0];
      match LastAtOrBefore(text, "@{", close - 3)
      case None => None
      case Some(open) =>
        assert text[open] == text[open..open + 2][0] && text[open + 1] == text[open..open + 2][1];
        Some((open, close))
  }

  /**
   * `add_tags` (build.py:549-555): the tag found by `TagAt` becomes the rendering of its
   * link, with the text before it and after it treated the same way, in that order.
   */
  function AddTags(text: string): (r: Result<string>)
    ensures r.Fail? ==> r.error.InvalidLinks?
    decreases |text|, 1
  {
    match TagAt(text)
    case None => Ok(text)
    case Some((open, close)) => Tagged(text, open, close)
  }

  /** The text before the tag at `open`..`close` tagged, then its link rendered, then the text after it tagged. */
  function Tagged(text: string, open: nat, close: nat): (r: Result<string>)
    requires open + 3 <= close < |text|
    ensures r.Fail? ==> r.error.InvalidLinks?
    decreases |text|, 0
  {
    Then3(AddTags(text[..open]), RenderLink(text[open + 2..close]), AddTags(text[close + 1..]))
  }

  /** Three pieces of text in order, or the first failure among them. */
  function Then3(a: Result<string>, b: Result<string>, c: Result<string>): (r: Result<string>)
    ensures r.Ok? <==> a.Ok? && b.Ok? && c.Ok?
  {
    match a
    case Fail(e) => Fail(e)
    case Ok(x) =>
      match b
      case Fail(e) => Fail(e)
      case Ok(y) =>
        match c
        case Fail(e) => Fail(e)
        case Ok(z) => Ok(x + y + z)
  }

  /** Text without "@{" is left alone. */
  lemma AddTagsPlain(text: string)
    requires !Contains(text, "@{")
    ensures AddTags(text) == Ok(text)
  {
    var c := LastAtOrBefore(text, "}", |text| - 1);
    if c.Some? {
      var o := LastAtOrBefore(text, "@{", c.value as int - 3);
      if o.Some? {
        ContainsAt(text, "@{", o.value);
      }
    }
  }

  /** Text without "}" is left alone. */
  lemma AddTagsUnclosed(text: string)
    requires '}' !in text
    ensures AddTags(text) == Ok(text)
  {
    ContainsChar(text, '}');
  }

  /**
   * One tag after any text: `pre @{x} post`, where `x` holds no further "@{" and `post`
   * no "}", is the tagged `pre`, then the rendering of `x`, then `post` unchanged; the
   * first failure, in that order, is the result.
   */
  lemma AddTagsLast(text: string, pre: string, x: string, post: string)
    requires text == pre + "@{" + x + "}" + post
    requires x != [] && !Contains(x, "@{") && '}' !in post
    ensures AddTags(text) == Then3(AddTags(pre), RenderLink(x), Ok(post))
  {
    var open, close := |pre|, |pre| + 2 + |x|;
    assert TagAt(text) == Some((open, close)) by {
      TagAtOf(text, pre, x, post);
    }
    assert text[..open] == pre && text[open + 2..close] == x && text[close + 1..] == post;
    AddTagsAt(text, open, close);
    AddTagsUnclosed(post);
  }

  lemma AddTagsAt(text: string, open: nat, close: nat)
    requires TagAt(text) == Some((open, close))
    ensures AddTags(text) == Then3(AddTags(text[..open]), RenderLink(text[open + 2..close]), AddTags(text[close + 1..]))
  {
    assert AddTags(text) == Tagged(text, open, close);
  }

  /** Where the tag of `pre @{x} post` is found. */
  lemma TagAtOf(text: string, pre: string, x: string, post: string)
    requires text == pre + "@{" + x + "}" + post
    requires x != [] && !Contains(x, "@{") && '}' !in post
    ensures TagAt(text) == Some((|pre|, |pre| + 2 + |x|))
  {
    LastClose(text, |pre| + 2 + |x|, post);
    LastOpen(text, pre, x, post);
  }

  /** The last "}" of a text whose tail after position `close` holds none. */
  lemma LastClose(text: string, close: nat, post: string)
    requires close < |text| && text[close] == '}' && text[close + 1..] == post && '}' !in post
    ensures LastAtOrBefore(text, "}", |text| - 1) == Some(close)
  {
    assert OccursAt(text, "}", close) by {
      assert text[close..close + 1] == "}";
    }
    forall j: nat | close < j <= |text| - 1
      ensures !OccursAt(text, "}", j)
    {
      assert text[j..j + 1] == [post[j - close - 1]];
    }
  }

  /** The last "@{" of `pre @{x}` that leaves room for a character before the "}". */
  lemma LastOpen(text: string, pre: string, x: string, post: string)
    requires text == pre + "@{" + x + "}" + post
    requires x != [] && !Contains(x, "@{")
    ensures LastAtOrBefore(text, "@{", |pre| + 2 + |x| - 3) == Some(|pre|)
  {
    var open := |pre|;
    assert OccursAt(text, "@{", open) by {
      assert text[open..open + 2] == "@{";
    }
    forall j: nat | open < j <= open + |x| - 1
      ensures !OccursAt(text, "@{", j)
    {
      if j == open + 1 {
        assert text[j] == '{';
        assert text[j..j + 2][0] == text[j];
      } else {
        assert text[j..j + 2] == x[j - open - 2..j - open];
        if OccursAt(text, "@{", j) {
          ContainsAt(x, "@{", j - open - 2);
        }
      }
    }
  }

  // ---------------------------------------------------------------- parentheticals in body text

  /**
   * `^([^(]*)\(([^)]+)\)(.*)$`: the text before the first "(", the non-empty text from
   * there up to the next ")", and the rest; None when there is no "(", no ")" after it, or
   * nothing between them.
   */
  function Parenthetical(text: string): (r: Option<(string, string, string)>)
    ensures r.Some? ==> r.value.1 != [] && |r.value.2| < |text|
  {
    match Find(text, "(")
    case None => None
    case Some(i) =>
      match FindFrom(text, ")", i + 1)
      case None => None
      case Some(j) => if j == i + 1 then None else Some((text[..i], text[i + 1..j], text[j + 1..]))
  }

  /** A parenthetical is found exactly where it was written. */
  lemma ParentheticalOf(text: string, pre: string, x: string, post: string)
    requires text == pre + "(" + x + ")" + post
    requires '(' !in pre && x != [] && ')' !in x
    ensures Parenthetical(text) == Some((pre, x, post))
  {
    var i := |pre|;
    var j := |pre| + 1 + |x|;
    assert OccursAt(text, "(", i) by {
      assert text[i..i + 1] == "(";
    }
    forall k | 0 <= k < i
      ensures !OccursAt(text, "(", k)
    {
      assert text[k..k + 1] == [pre[k]];
    }
    assert Find(text, "(") == Some(i);
    assert OccursAt(text, ")", j) by {
      assert text[j..j + 1] == ")";
    }
    forall k | i + 1 <= k < j
      ensures !OccursAt(text, ")", k)
    {
      assert text[k..k + 1] == [x[k - i - 1]];
    }
    assert FindFrom(text, ")", i + 1) == Some(j);
    assert text[..i] == pre && text[i + 1..j] == x && text[j + 1..] == post;
  }

  /** Text without "(" has no parenthetical. */
  lemma NoParenthetical(text: string)
    requires '(' !in text
    ensures Parenthetical(text) == None
  {
    ContainsChar(text, '(');
  }

  /**
   * The body of a sub-entry as build.py writes it (build.py:522-547): every parenthetical
   * that starts with a digit becomes the span of its link group, every other one stays as
   * written, and the text around them goes through `AddTags`.  For each parenthetical the
   * link is rendered before the text in front of it is tagged.
   */
  function BodyScan(id: string, text: string): (r: Result<string>)
    ensures r.Fail? ==> r.error.InvalidLinkList? || r.error.InvalidLinks?
    decreases |text|
  {
    match Parenthetical(text)
    case None => AddTags(text)
    case Some((pre, x, post)) =>
      var hlink := if IsDigit(x[0]) then RenderLinks(id, "(" + x + ")") else Ok("(" + x + ")");
      match hlink
      case Fail(e) => Fail(e)
      case Ok(h) =>
        match AddTags(pre)
        case Fail(e) => Fail(e)
        case Ok(tagged) =>
          match BodyScan(id, post)
          case Fail(e) => Fail(e)
          case Ok(rest) => Ok(tagged + h + rest)
  }

  /** `r` with `done` put in front of its text. */
  function Preceded(done: string, r: Result<string>): Result<string>
  {
    match r
    case Ok(rest) => Ok(done + rest)
    case Fail(e) => Fail(e)
  }

  /** One step of the scan, with the parenthetical's rendering `h` and the tagged text before it. */
  lemma BodyStep(id: string, text: string, pre: string, x: string, post: string, tagged: string, h: string)
    requires Parenthetical(text) == Some((pre, x, post))
    requires AddTags(pre) == Ok(tagged)
    requires (if IsDigit(x[0]) then RenderLinks(id, "(" + x + ")") else Ok("(" + x + ")")) == Ok(h)
    ensures BodyScan(id, text) == Preceded(tagged + h, BodyScan(id, post))
  {
    PrecededTwice(tagged, h, BodyScan(id, post));
  }

  /** A parenthetical that does not start with a digit is kept as it was written. */
  lemma BodyKeepsAside(id: string, text: string, pre: string, x: string, post: string, tagged: string, kept: string)
    requires text == pre + kept + post && kept == "(" + x + ")"
    requires '(' !in pre && x != [] && ')' !in x && !IsDigit(x[0])
    requires AddTags(pre) == Ok(tagged)
    ensures BodyScan(id, text) == Preceded(tagged + kept, BodyScan(id, post))
  {
    assert text == pre + "(" + x + ")" + post;
    ParentheticalOf(text, pre, x, post);
    BodyStep(id, text, pre, x, post, tagged, kept);
  }

  /** A parenthetical that starts with a digit becomes one link-group span. */
  lemma BodyLinks(id: string, text: string, pre: string, x: string, post: string, tagged: string, h: string)
    requires text == pre + "(" + x + ")" + post
    requires '(' !in pre && x != [] && ')' !in x && IsDigit(x[0])
    requires AddTags(pre) == Ok(tagged) && RenderLink(x) == Ok(h)
    ensures BodyScan(id, text) == Preceded(tagged + GroupSpan(h), BodyScan(id, post))
  {
    ParentheticalOf(text, pre, x, post);
    OneGroup(id, "(" + x + ")", x);
    BodyStep(id, text, pre, x, post, tagged, GroupSpan(h));
  }

  /** Body text without parentheses is only tagged. */
  lemma BodyPlain(id: string, text: string)
    requires '(' !in text
    ensures BodyScan(id, text) == AddTags(text)
  {
    NoParenthetical(text);
  }

  /** The scan of `write_conflict_body` (build.py:524-546), proved against `BodyScan`. */
  method RenderBody(id: string, body: string) returns (r: Result<string>)
    ensures r == BodyScan(id, body)
  {
    var text := body;
    var newText := "";
    PrecededNothing(BodyScan(id, body));
    while true
      invariant BodyScan(id, body) == Preceded(newText, BodyScan(id, text))
      decreases |text|
    {
      var m := Parenthetical(text);
      if m.None? {
        var tagged := AddTags(text);
        if tagged.Fail? {
          return Fail(tagged.error);
        }
        assert newText + tagged.value == newText + tagged.value;
        return Ok(newText + tagged.value);
      }
      var (pre, link, post) := m.value;
      var hlink;
      if IsDigit(link[0]) {
        hlink := ParseLinks(id, "(" + link + ")");
        if hlink.Fail? {
          return hlink;
        }
      } else {
        hlink := Ok("(" + link + ")");
      }
      var tagged := AddTags(pre);
      if tagged.Fail? {
        return Fail(tagged.error);
      }
      PrecededTwice(newText, tagged.value + hlink.value, BodyScan(id, post));
      newText := newText + (tagged.value + hlink.value);
      text := post;
    }
  }

  lemma PrecededNothing(r: Result<string>)
    ensures Preceded([], r) == r
  {
    if r.Ok? {
      assert [] + r.value == r.value;
    }
  }

  lemma PrecededTwice(a: string, b: string, r: Result<string>)
    ensures Preceded(a, Preceded(b, r)) == Preceded(a + b, r)
  {
    if r.Ok? {
      assert a + (b + r.value) == (a + b) + r.value;
    }
  }
}
