/**
 * The line-by-line checker of verify.py (`Parser.process_line`, `verify_conflict_text` and the
 * loop of `process`, verify.py:16-22 and 149-242).
 *
 * The parser's fields are the class `Parser`; `Step` states what one line does to them as a
 * function of the old values, and `Run` what a whole file does.  A call of `error()` ends the
 * run and is a `Fail`; the printed contiguity diagnostic is recorded in `reports`.
 */
module Validator {
  import opened Outcomes
  import opened Strings
  import opened LinkGrammar
  import LinkRender

  /** The diagnostic printed by verify.py:207-208: conflict, letter, recorded letter, expected letter. */
  datatype Report = Report(id: nat, subid: char, prev: char, expected: char)

  /** The fields of verify.py's `Parser` (verify.py:16-22), plus the printed diagnostics. */
  datatype Status = Status(
    inConflictSection: bool,
    inConflict: bool,
    id: nat,
    conflictText: seq<string>,
    links: map<nat, string>,
    reports: seq<Report>)

  const Initial: Status := Status(false, false, 0, [], map[], [])

  // ---------------------------------------------------------------- line shapes

  /**
   * The text before the last "{" of a line, when that "{" is not its first character
   * (`^(.+){`, verify.py:182: `.+` is greedy, so the last "{" is the one that ends it).
   */
  function TokenPrefix(line: string): (r: Option<string>)
    ensures r.Some? ==> 1 <= |r.value| < |line| && line[..|r.value|] == r.value
    ensures r.Some? ==> line[|r.value|] == '{' && forall k :: |r.value| < k < |line| ==> line[k] != '{'
    ensures r.None? ==> forall k :: 1 <= k < |line| ==> line[k] != '{'
  {
    if |line| < 2 then None
    else if line[|line| - 1] == '{' then Some(line[..|line| - 1])
    else TokenPrefix(line[..|line| - 1])
  }

  /** A token allowed before "{" (verify.py:183-186): a structural marker, or anything ending in "@". */
  predicate KnownToken(g: string)
  {
    g in ["B", "Conflict", "ConflictGroup", "ConflictSubGroup"] || (g != [] && g[|g| - 1] == '@')
  }

  /** The line passes the token check of verify.py:182-187. */
  predicate TokensValid(line: string)
  {
    TokenPrefix(line).None? || KnownToken(TokenPrefix(line).value)
  }

  /** `^Conflict{(\d+)}$` (verify.py:189): the id of a conflict heading. */
  function ConflictHeading(line: string): (r: Option<nat>)
  {
    if |line| >= 11 && line[..9] == "Conflict{" && line[|line| - 1] == '}' && AllDigits(line[9..|line| - 1])
    then Some(ParseNat(line[9..|line| - 1]))
    else None
  }

  /** `^\(([a-m])\) PRE: ` (verify.py:194): a sub-entry opening that carries a clause letter. */
  predicate LetteredPre(line: string)
  {
    |line| >= 9 && line[0] == '(' && 'a' <= line[1] <= 'm' && line[2] == ')' && line[3] == ' '
    && line[4..9] == "PRE: "
  }

  /** `^(\((?P<subid>[a-m])\) )?PRE: (.*)$` (verify.py:194). */
  predicate IsPre(line: string)
  {
    LetteredPre(line) || StartsWith(line, "PRE: ")
  }

  /** The clause letter of a PRE line, "-" when it has none (verify.py:199-201). */
  function SubId(line: string): (c: char)
    requires IsPre(line)
    ensures c == '-' || 'a' <= c <= 'm'
    ensures c != '-' <==> LetteredPre(line)
  {
    if LetteredPre(line) then line[1] else '-'
  }

  /** `^POST: (.*)$` (verify.py:214). */
  predicate IsPost(line: string) { StartsWith(line, "POST: ") }

  // ---------------------------------------------------------------- the body text

  /**
   * The scan of `verify_conflict_text` (verify.py:152-166): each parenthetical in turn
   * (`^([^(]*)\(([^)]+)\)(.*)$`, the same pattern build.py uses for the body) is validated
   * when it starts with a digit and passed over otherwise.
   */
  function CheckBody(id: string, text: string): (r: Result<()>)
    ensures r.Fail? ==> r.error.UnparsableLink? && r.error.id == id
    decreases |text|
  {
    match LinkRender.Parenthetical(text)
    case None => Ok(())
    case Some((_, x, post)) =>
      if IsDigit(x[0]) && !ValidLink(x) then Fail(UnparsableLink(id, x)) else CheckBody(id, post)
  }

  /** The parentheticals the scan visits, in order. */
  function Parentheticals(text: string): (ps: seq<string>)
    ensures forall x :: x in ps ==> x != []
    decreases |text|
  {
    match LinkRender.Parenthetical(text)
    case None => []
    case Some((_, x, post)) => [x] + Parentheticals(post)
  }

  /** The links among `ps` that are checked: those that start with a digit. */
  predicate DigitLedValid(ps: seq<string>)
  {
    forall x :: x in ps && x != [] && IsDigit(x[0]) ==> ValidLink(x)
  }

  // ---------------------------------------------------------------- the links of a POST line

  /**
   * The character class of verify.py:220, `[a-zA-Z\d “”’&\*,;-]`.  The pattern is a byte
   * string, so the three quotes only add the single bytes E2, 80, 99, 9C and 9D to the
   * class: any character whose UTF-8 encoding is made of those bytes alone passes.
   */
  predicate LinkChar(c: char)
  {
    IsLower(c) || IsUpper(c) || IsDigit(c) || c in " &*,;-" || EncodedInClass(c)
  }

  /** The non-ASCII bytes of the class: those of the encodings of “, ” and ’. */
  predicate ClassByte(b: int)
  {
    b == 0xE2 || b == 0x80 || b == 0x99 || b == 0x9C || b == 0x9D
  }

  /**
   * Every byte of `c`'s UTF-8 encoding is a `ClassByte`.  Only three-byte encodings can
   * qualify (a two-byte lead is C2..DF, a four-byte lead F0..F4); such an encoding is
   * E0 + c / 0x1000, then 80 + (c / 0x40) % 0x40, then 80 + c % 0x40.
   */
  predicate EncodedInClass(c: char)
  {
    var n := c as int;
    0x800 <= n < 0x10000
    && ClassByte(0xE0 + n / 0x1000) && ClassByte(0x80 + (n / 0x40) % 0x40) && ClassByte(0x80 + n % 0x40)
  }

  /** The length of the run of `LinkChar`s that `s` starts with. */
  function LinkCharRun(s: string): (n: nat)
    ensures n <= |s|
    ensures forall i :: 0 <= i < n ==> LinkChar(s[i])
    ensures n < |s| ==> !LinkChar(s[n])
  {
    if s != [] && LinkChar(s[0]) then 1 + LinkCharRun(s[1..]) else 0
  }

  /**
   * `^\(([a-zA-Z\d “”’&\*,;-]*)\) ?(.*)$` (verify.py:220): the group and what follows it
   * after one optional space.  ")" is not in the class, so the greedy run ends where the
   * group must close.
   */
  function PostGroup(s: string): (r: Option<(string, string)>)
    ensures r.Some? ==> |r.value.1| < |s|
  {
    if s == [] || s[0] != '(' then None
    else
      var k := LinkCharRun(s[1..]);
      if 1 + k < |s| && s[1 + k] == ')' then
        var rest := s[2 + k..];
        Some((s[1..1 + k], if rest != [] && rest[0] == ' ' then rest[1..] else rest))
      else None
  }

  /** The loop of verify.py:218-227: every group of the POST line must be found and be valid. */
  function CheckGroups(id: string, s: string): (r: Result<()>)
    ensures r.Fail? ==> (r.error.UnparsableLink? || r.error.LinksNotFound?) && r.error.id == id
    decreases |s|
  {
    if s == [] then Ok(())
    else match PostGroup(s)
      case None => Fail(LinksNotFound(id, s))
      case Some((g, rest)) => if ValidLink(g) then CheckGroups(id, rest) else Fail(UnparsableLink(id, g))
  }

  // ---------------------------------------------------------------- one line, a whole file

  /** What a PRE line with clause letter `subid` does (verify.py:195-211). */
  function PreStep(s: Status, subid: char): (r: Result<Status>)
    requires subid == '-' || 'a' <= subid <= 'm'
  {
    var entered := s.(inConflictSection := true, inConflict := true, conflictText := []);
    var key := NatToString(s.id);
    if s.id !in s.links then Fail(UnknownConflict(key))
    else
      var recorded := s.links[s.id];
      if subid != '-' && subid != 'a' && recorded == [] then Fail(NoPreviousClause(key))
      else
        var reports :=
          if subid != '-' && subid != 'a' && recorded[|recorded| - 1] != (subid as int - 1) as char
          then s.reports + [Report(s.id, subid, recorded[|recorded| - 1], (subid as int - 1) as char)]
          else s.reports;
        Ok(entered.(links := s.links[s.id := recorded + [subid]], reports := reports))
  }

  /**
   * What `process_line` does with one line (verify.py:169-230): a directive never fails, the
   * conflicts seen stay known, and the diagnostics printed stay printed, with at most one more.
   */
  function Step(s: Status, line: string): (r: Result<Status>)
    ensures r.Fail? ==> !StartsWith(line, "--")
    ensures r.Ok? ==> s.links.Keys <= r.value.links.Keys
    ensures r.Ok? ==> s.reports <= r.value.reports && |r.value.reports| <= |s.reports| + 1
  {
    if line == "-- page 190" then Ok(s.(inConflictSection := false))
    else if StartsWith(line, "--") then Ok(s)
    else if !TokensValid(line) then Fail(InvalidToken(line))
    else if ConflictHeading(line).Some? then
      var n := ConflictHeading(line).value;
      Ok(s.(id := n, links := s.links[n := []]))
    else if IsPre(line) then PreStep(s, SubId(line))
    else if IsPost(line) then
      match CheckBody(NatToString(s.id), JoinStripped(s.conflictText))
      case Fail(e) => Fail(e)
      case Ok(_) =>
        match CheckGroups(NatToString(s.id), line[6..])
        case Fail(e) => Fail(e)
        case Ok(_) => Ok(s.(inConflict := false))
    else if s.inConflictSection && s.inConflict then Ok(s.(conflictText := s.conflictText + [line]))
    else Ok(s)
  }

  /**
   * `process` (verify.py:232-242): the lines in order, stopping at the first error; the
   * conflicts seen stay known and the diagnostics printed stay printed, at most one per line.
   */
  function Run(s: Status, lines: seq<string>): (r: Result<Status>)
    ensures r.Ok? ==> s.links.Keys <= r.value.links.Keys
    ensures r.Ok? ==> s.reports <= r.value.reports && |r.value.reports| <= |s.reports| + |lines|
    decreases |lines|
  {
    if lines == [] then Ok(s)
    else match Step(s, lines[0])
      case Fail(e) => Fail(e)
      case Ok(next) => Run(next, lines[1..])
  }

  // ---------------------------------------------------------------- the parser

  class Parser {
    var inConflictSection: bool
    var inConflict: bool
    var id: nat
    var conflictText: seq<string>
    var links: map<nat, string>
    var reports: seq<Report>

    function State(): Status
      reads this
    {
      Status(inConflictSection, inConflict, id, conflictText, links, reports)
    }

    /** `__init__` (verify.py:16-22). */
    constructor ()
      ensures State() == Initial
    {
      inConflictSection := false;
      inConflict := false;
      id := 0;
      conflictText := [];
      links := map[];
      reports := [];
    }

    /** `verify_conflict_text` (verify.py:149-166), proved against `CheckBody`. */
    method VerifyConflictText() returns (r: Result<()>)
      ensures r == CheckBody(NatToString(id), JoinStripped(conflictText))
    {
      var key := NatToString(id);
      var text := JoinStripped(conflictText);
      while true
        invariant CheckBody(key, JoinStripped(conflictText)) == CheckBody(key, text)
        decreases |text|
      {
        var m := LinkRender.Parenthetical(text);
        if m.None? {
          return Ok(());
        }
        var (_, link, post) := m.value;
        if IsDigit(link[0]) && !ValidLink(link) {
          return Fail(UnparsableLink(key, link));
        }
        text := post;
      }
    }

    /** `process_line` (verify.py:169-230), proved against `Step`. */
    method ProcessLine(line: string) returns (r: Result<()>)
      modifies this
      ensures r.Fail? <==> Step(old(State()), line).Fail?
      ensures r.Fail? ==> r.error == Step(old(State()), line).error
      ensures r.Ok? ==> State() == Step(old(State()), line).value
    {
      if line == "-- page 190" {
        inConflictSection := false;
        return Ok(());
      }
      if StartsWith(line, "--") {
        return Ok(());
      }
      var token := TokenPrefix(line);
      if token.Some? && !KnownToken(token.value) {
        return Fail(InvalidToken(line));
      }
      var heading := ConflictHeading(line);
      if heading.Some? {
        id := heading.value;
        links := links[id := []];
        return Ok(());
      }
      if IsPre(line) {
        r := ProcessPre(SubId(line));
        return;
      }
      if IsPost(line) {
        inConflict := false;
        var body := VerifyConflictText();
        if body.Fail? {
          return body;
        }
        var key := NatToString(id);
        var rest := line[6..];
        while rest != []
          invariant CheckGroups(key, line[6..]) == CheckGroups(key, rest)
          decreases |rest|
        {
          var m := PostGroup(rest);
          if m.None? {
            return Fail(LinksNotFound(key, rest));
          }
          if !ValidLink(m.value.0) {
            return Fail(UnparsableLink(key, m.value.0));
          }
          rest := m.value.1;
        }
      }
      if inConflictSection && inConflict {
        conflictText := conflictText + [line];
      }
      return Ok(());
    }

    /** The PRE branch of `process_line` (verify.py:195-211), proved against `PreStep`. */
    method ProcessPre(subid: char) returns (r: Result<()>)
      requires subid == '-' || 'a' <= subid <= 'm'
      modifies this
      ensures r.Fail? <==> PreStep(old(State()), subid).Fail?
      ensures r.Fail? ==> r.error == PreStep(old(State()), subid).error
      ensures r.Ok? ==> State() == PreStep(old(State()), subid).value
    {
      inConflictSection := true;
      inConflict := true;
      conflictText := [];
      if subid != 'a' && subid != '-' {
        if id !in links {
          return Fail(UnknownConflict(NatToString(id)));
        }
        if links[id] == [] {
          return Fail(NoPreviousClause(NatToString(id)));
        }
        var prev := links[id][|links[id]| - 1];
        var expected := (subid as int - 1) as char;
        if prev != expected {
          reports := reports + [Report(id, subid, prev, expected)];
        }
      }
      if id !in links {
        return Fail(UnknownConflict(NatToString(id)));
      }
      links := links[id := links[id] + [subid]];
      return Ok(());
    }

    /** The loop of `process` (verify.py:238-239), proved against `Run`. */
    method Process(lines: seq<string>) returns (r: Result<()>)
      modifies this
      ensures r.Fail? <==> Run(old(State()), lines).Fail?
      ensures r.Fail? ==> r.error == Run(old(State()), lines).error
      ensures r.Ok? ==> State() == Run(old(State()), lines).value
    {
      for i := 0 to |lines|
        invariant Run(old(State()), lines) == Run(State(), lines[i..])
      {
        assert lines[i..][1..] == lines[i + 1..];
        r := ProcessLine(lines[i]);
        if r.Fail? {
          return;
        }
      }
      return Ok(());
    }
  }

  // ---------------------------------------------------------------- properties of the checks

  /** The token check finds exactly the text before the last "{", whatever follows it. */
  lemma {:induction false} TokenPrefixOf(g: string, t: string)
    requires g != [] && '{' !in t
    ensures TokenPrefix(g + "{" + t) == Some(g)
    decreases |t|
  {
    var line := g + "{" + t;
    if t == [] {
      assert line[..|line| - 1] == g;
    } else {
      assert line[|line| - 1] == t[|t| - 1];
      assert line[..|line| - 1] == g + "{" + t[..|t| - 1];
      TokenPrefixOf(g, t[..|t| - 1]);
    }
  }

  /** A non-comment line whose "{" follows an unknown token ends the run (verify.py:182-187). */
  lemma BadTokenFatal(s: Status, line: string, g: string, t: string)
    requires line == g + "{" + t && g != [] && '{' !in t
    requires !KnownToken(g) && !StartsWith(line, "--")
    ensures Step(s, line) == Fail(InvalidToken(line))
  {
    TokenPrefixOf(g, t);
  }

  /** A token ending in "@" (an inline tag) or one of the four markers passes the check. */
  lemma KnownTokensPass(line: string, g: string, t: string)
    requires line == g + "{" + t && g != [] && '{' !in t
    requires g[|g| - 1] == '@' || g in ["B", "Conflict", "ConflictGroup", "ConflictSubGroup"]
    ensures TokensValid(line)
  {
    TokenPrefixOf(g, t);
  }

  /** A heading's digits are read as the conflict id (verify.py:189-191). */
  lemma HeadingOf(line: string, digits: string)
    requires digits != [] && AllDigits(digits) && line == "Conflict{" + digits + "}"
    ensures ConflictHeading(line) == Some(ParseNat(digits))
  {
    assert line[..9] == "Conflict{";
    assert line[9..|line| - 1] == digits;
  }

  /** A heading written with a printed number is read back as that number. */
  lemma HeadingPrinted(line: string, n: nat)
    requires line == "Conflict{" + NatToString(n) + "}"
    ensures ConflictHeading(line) == Some(n)
  {
    HeadingOf(line, NatToString(n));
    ParsePrinted(n);
  }

  /** A heading opens an empty clause list for its id and changes nothing else. */
  lemma HeadingStep(s: Status, line: string, n: nat)
    requires line == "Conflict{" + NatToString(n) + "}"
    ensures Step(s, line) == Ok(s.(id := n, links := s.links[n := []]))
  {
    HeadingPrinted(line, n);
    assert line[0] == 'C';
    assert !StartsWith(line, "--") by {
      assert line[..2] != "--" by { assert line[..2][0] == 'C'; }
    }
    TokenPrefixOf("Conflict", NatToString(n) + "}");
    assert line == "Conflict" + "{" + (NatToString(n) + "}");
  }

  /** Comments change nothing; "-- page 190" only leaves the conflict section (verify.py:170-180). */
  lemma CommentStep(s: Status, line: string)
    requires StartsWith(line, "--")
    ensures Step(s, line).Ok?
    ensures Step(s, line).value == if line == "-- page 190" then s.(inConflictSection := false) else s
  {
  }

  /** A PRE line opens a sub-entry and records its clause letter (verify.py:194-211). */
  lemma PreLine(s: Status, line: string)
    requires IsPre(line) && TokensValid(line)
    ensures Step(s, line) == PreStep(s, SubId(line))
  {
    assert line[0] == '(' || line[0] == 'P' by {
      if !LetteredPre(line) { assert line[..5][0] == 'P'; }
    }
    assert !StartsWith(line, "--") by {
      if |line| >= 2 { assert line[..2][0] == line[0]; }
    }
    assert ConflictHeading(line).None? by {
      if |line| >= 11 { assert line[..9][0] == line[0]; }
    }
  }

  /** A PRE line without a letter records "-" (verify.py:199-200). */
  lemma UnletteredPre(line: string)
    requires StartsWith(line, "PRE: ")
    ensures SubId(line) == '-'
  {
    assert line[0] == 'P' by { assert line[..5][0] == 'P'; }
  }

  /** A PRE line whose conflict has no heading ends the run (the `KeyError` of verify.py:205, 209). */
  lemma PreWithoutHeading(s: Status, line: string)
    requires IsPre(line) && TokensValid(line) && s.id !in s.links
    ensures Step(s, line) == Fail(UnknownConflict(NatToString(s.id)))
  {
    PreLine(s, line);
  }

  /** The clause letters of a run of PRE lines, "-" for each line without one. */
  function Letters(pres: seq<string>): (l: string)
    requires forall p <- pres :: IsPre(p)
    ensures |l| == |pres|
  {
    seq(|pres|, i requires 0 <= i < |pres| => SubId(pres[i]))
  }

  /**
   * The reports verify.py prints for the clause letters `l` of conflict `n`, in order: one for
   * each letter from b to m that does not follow the letter recorded just before it.
   */
  function Gaps(n: nat, l: string): seq<Report>
    decreases |l|
  {
    if |l| < 2 then []
    else
      Gaps(n, l[..|l| - 1]) + GapAt(n, l[|l| - 2], l[|l| - 1])
  }

  /** The report for letter `c` recorded after `prev`, if `c` is a letter from b to m that does not follow it. */
  function GapAt(n: nat, prev: char, c: char): seq<Report>
  {
    if 'b' <= c <= 'm' && prev != (c as int - 1) as char then [Report(n, c, prev, (c as int - 1) as char)] else []
  }

  /** One more letter after at least one adds at most its own report. */
  lemma GapsSnoc(n: nat, l: string, c: char)
    requires l != []
    ensures Gaps(n, l + [c]) == Gaps(n, l) + GapAt(n, l[|l| - 1], c)
  {
    assert (l + [c])[..|l|] == l;
  }

  /** Clause letters that each follow the one before. */
  predicate InOrder(l: string)
  {
    forall i :: 0 < i < |l| ==> l[i] as int == l[i - 1] as int + 1
  }

  /** Letters in order print no report. */
  lemma {:induction false} NoGapsInOrder(n: nat, l: string)
    requires InOrder(l)
    ensures Gaps(n, l) == []
    decreases |l|
  {
    if |l| >= 2 {
      var k := |l| - 1;
      assert InOrder(l[..k]) by {
        forall i | 0 < i < k ensures l[..k][i] as int == l[..k][i - 1] as int + 1 {
          assert l[..k][i] == l[i] && l[..k][i - 1] == l[i - 1];
        }
      }
      NoGapsInOrder(n, l[..k]);
      assert l[k] as int == l[k - 1] as int + 1;
    }
  }

  /** One PRE line after clause letters `l` of the current conflict (verify.py:195-211). */
  lemma PreAfter(u: Status, line: string, l: string)
    requires IsPre(line) && TokensValid(line)
    requires u.id in u.links && u.links[u.id] == l
    ensures var r := Step(u, line);
            var c := SubId(line);
            (r.Ok? <==> l != [] || c == '-' || c == 'a')
            && (r.Fail? ==> r.error == NoPreviousClause(NatToString(u.id)))
            && (r.Ok? ==> r.value.id == u.id && r.value.links == u.links[u.id := l + [c]]
                          && r.value.reports == u.reports + if l == [] then [] else GapAt(u.id, l[|l| - 1], c))
  {
    PreLine(u, line);
  }

  /** The PRE lines of a conflict, one after the other, from its heading on. */
  lemma {:induction false} PresContiguity(t: Status, pres: seq<string>)
    requires forall p <- pres :: IsPre(p) && TokensValid(p)
    requires t.id in t.links && t.links[t.id] == []
    ensures var r := Run(t, pres);
            var l := Letters(pres);
            (r.Ok? <==> l == [] || l[0] == '-' || l[0] == 'a')
            && (r.Fail? ==> r.error == NoPreviousClause(NatToString(t.id)))
            && (r.Ok? ==> r.value.id == t.id && r.value.links == t.links[t.id := l]
                          && r.value.reports == t.reports + Gaps(t.id, l))
    decreases |pres|
  {
    var l := Letters(pres);
    if pres == [] {
      assert t.links[t.id := l] == t.links;
    } else {
      var k := |pres| - 1;
      var front := pres[..k];
      assert forall p <- front :: p in pres;
      assert pres == front + [pres[k]];
      var lf := Letters(front);
      assert lf == l[..k];
      PresContiguity(t, front);
      RunAppend(t, front, [pres[k]]);
      match Run(t, front)
      case Fail(_) =>
        assert lf[0] == l[0];
      case Ok(u) =>
        assert l == lf + [SubId(pres[k])];
        RunOne(u, pres[k]);
        PreAfter(u, pres[k], lf);
        PresOneMore(t, u, Step(u, pres[k]), lf, SubId(pres[k]), l);
    }
  }

  /**
   * The step case of `PresContiguity`: `r` is what one more PRE, lettered `c`, does after a
   * run that ended in state `u` (as `PreAfter` gives it); then `r` keeps the promise for `l`.
   */
  lemma PresOneMore(t: Status, u: Status, r: Result<Status>, lf: string, c: char, l: string)
    requires t.id in t.links && u.id == t.id && u.links == t.links[t.id := lf]
    requires u.reports == t.reports + Gaps(t.id, lf)
    requires l == lf + [c]
    requires (r.Ok? <==> lf != [] || c == '-' || c == 'a')
             && (r.Fail? ==> r.error == NoPreviousClause(NatToString(u.id)))
             && (r.Ok? ==> r.value.id == u.id && r.value.links == u.links[u.id := l]
                           && r.value.reports == u.reports + if lf == [] then [] else GapAt(u.id, lf[|lf| - 1], c))
    ensures (r.Ok? <==> l[0] == '-' || l[0] == 'a' || lf != [])
            && (r.Fail? ==> r.error == NoPreviousClause(NatToString(t.id)))
            && (r.Ok? ==> r.value.id == t.id && r.value.links == t.links[t.id := l]
                          && r.value.reports == t.reports + Gaps(t.id, l))
  {
    if lf != [] {
      assert lf[0] == l[0];
    }
    if r.Ok? {
      assert u.links[u.id := l] == t.links[t.id := l];
      if lf == [] {
        assert Gaps(t.id, l) == [] && Gaps(t.id, lf) == [];
      } else {
        var gap := GapAt(t.id, lf[|lf| - 1], c);
        GapsSnoc(t.id, lf, c);
        assert r.value.reports == t.reports + (Gaps(t.id, lf) + gap);
      }
    }
  }

  /** A run of one line is that line's step. */
  lemma RunOne(s: Status, line: string)
    ensures Run(s, [line]) == Step(s, line)
  {
    assert [line][1..] == [];
  }

  /**
   * The clause-letter promise of verify.py:195-211 over a conflict: after `Conflict{n}` and
   * a run of PRE lines, the run fails exactly when the first PRE carries a letter after "a"
   * (there is no earlier clause to compare with); otherwise conflict n records the letters in
   * order and the printed reports are exactly `Gaps` of them, the run going on past every gap.
   */
  lemma ConflictContiguity(s: Status, n: nat, pres: seq<string>)
    requires forall p <- pres :: IsPre(p) && TokensValid(p)
    ensures var r := Run(s, ["Conflict{" + NatToString(n) + "}"] + pres);
            var l := Letters(pres);
            (r.Ok? <==> l == [] || l[0] == '-' || l[0] == 'a')
            && (r.Fail? ==> r.error == NoPreviousClause(NatToString(n)))
            && (r.Ok? ==> r.value.links == s.links[n := l] && r.value.reports == s.reports + Gaps(n, l))
  {
    var heading := "Conflict{" + NatToString(n) + "}";
    var lines := [heading] + pres;
    HeadingStep(s, heading, n);
    var t := s.(id := n, links := s.links[n := []]);
    assert lines[0] == heading && lines[1..] == pres;
    assert Run(s, lines) == Run(t, pres);
    PresContiguity(t, pres);
    assert t.links[n := Letters(pres)] == s.links[n := Letters(pres)];
  }

  /**
   * A POST line closes the sub-entry after its body's links and its own link groups have
   * been checked, the body first (verify.py:213-227).
   */
  lemma PostLine(s: Status, line: string)
    requires IsPost(line) && TokensValid(line)
    ensures Step(s, line).Ok? <==>
              CheckBody(NatToString(s.id), JoinStripped(s.conflictText)).Ok?
              && CheckGroups(NatToString(s.id), line[6..]).Ok?
    ensures CheckBody(NatToString(s.id), JoinStripped(s.conflictText)).Fail? ==>
              Step(s, line) == Fail(CheckBody(NatToString(s.id), JoinStripped(s.conflictText)).error)
    ensures Step(s, line).Ok? ==> Step(s, line).value == s.(inConflict := false)
  {
    assert line[..6] == "POST: ";
    assert line[0] == 'P' && line[1] == 'O';
    assert !StartsWith(line, "--") by { assert line[..2][0] == 'P'; }
    assert !StartsWith(line, "PRE: ") by { assert line[..5][1] == 'O'; }
    assert ConflictHeading(line).None? by {
      if |line| >= 11 { assert line[..9][0] == 'P'; }
    }
  }

  /** The body scan fails exactly when a digit-led parenthetical it visits is not a valid link. */
  lemma {:induction false} BodyChecked(id: string, text: string)
    ensures CheckBody(id, text).Ok? <==> DigitLedValid(Parentheticals(text))
    ensures CheckBody(id, text).Fail? ==>
              var x := CheckBody(id, text).error.link;
              x in Parentheticals(text) && IsDigit(x[0]) && !ValidLink(x)
    decreases |text|
  {
    match LinkRender.Parenthetical(text)
    case None =>
    case Some((_, x, post)) =>
      BodyChecked(id, post);
      assert Parentheticals(text) == [x] + Parentheticals(post);
  }

  /** A parenthetical that does not start with a digit is passed over (verify.py:158-164). */
  lemma BodyPassesOver(id: string, text: string, pre: string, x: string, post: string)
    requires text == pre + "(" + x + ")" + post
    requires '(' !in pre && x != [] && ')' !in x && !IsDigit(x[0])
    ensures CheckBody(id, text) == CheckBody(id, post)
  {
    LinkRender.ParentheticalOf(text, pre, x, post);
  }

  /** Body text without "(" has nothing to check. */
  lemma BodyWithoutParentheses(id: string, text: string)
    requires '(' !in text
    ensures CheckBody(id, text) == Ok(())
  {
    LinkRender.NoParenthetical(text);
  }

  /** The link groups of a POST line, written one after another with single spaces. */
  function GroupsText(gs: seq<string>): string
  {
    if gs == [] then []
    else if |gs| == 1 then "(" + gs[0] + ")"
    else "(" + gs[0] + ") " + GroupsText(gs[1..])
  }

  predicate AllLinkChars(g: string) { forall i :: 0 <= i < |g| ==> LinkChar(g[i]) }

  lemma {:induction false} LinkCharRunOf(g: string, t: string)
    requires AllLinkChars(g) && (t == [] || !LinkChar(t[0]))
    ensures LinkCharRun(g + t) == |g|
  {
    if g != [] {
      assert (g + t)[1..] == g[1..] + t;
      LinkCharRunOf(g[1..], t);
    }
  }

  /** A group of allowed characters is found, and one space after it is skipped. */
  lemma PostGroupOf(s: string, g: string, rest: string)
    requires s == "(" + g + ")" + rest && AllLinkChars(g)
    ensures PostGroup(s) == Some((g, if rest != [] && rest[0] == ' ' then rest[1..] else rest))
  {
    assert s[1..] == g + (")" + rest);
    LinkCharRunOf(g, ")" + rest);
    assert s[1..1 + |g|] == g;
    assert s[2 + |g|..] == rest;
  }

  /**
   * The characters the byte class admits beyond ASCII are exactly the three quotes and
   * thirteen others, U+2000 + 0x40 * m + l for m and l among 0x00, 0x19, 0x1C and 0x1D.
   */
  lemma ByteClassChars(c: char)
    ensures EncodedInClass(c) <==> c in "\U{201C}\U{201D}\U{2019}" + ByteClassExtras
  {
    var n := c as int;
    if EncodedInClass(c) {
      var m := (n / 0x40) % 0x40;
      var l := n % 0x40;
      assert n / 0x1000 == 2;
      assert n == 0x2000 + 0x40 * m + l;
      assert m == 0x00 || m == 0x19 || m == 0x1C || m == 0x1D;
      assert l == 0x00 || l == 0x19 || l == 0x1C || l == 0x1D;
    }
  }

  /** The thirteen characters the byte class lets through besides the quotes. */
  const ByteClassExtras: string :=
    "\U{2000}\U{2640}\U{2659}\U{265C}\U{265D}\U{2700}\U{2719}\U{271C}\U{271D}"
    + "\U{2740}\U{2759}\U{275C}\U{275D}"

  /**
   * A POST group holding the female sign ♀, one of those characters, is found whole and,
   * as a "with" note after an entry id, passes the check.
   */
  lemma FemaleSignAccepted(id: string, g: string)
    requires g == "1, with \U{2640}"
    ensures PostGroup("(" + g + ")") == Some((g, []))
    ensures CheckGroups(id, "(" + g + ")") == Ok(())
  {
    FemaleSignChars(g);
    PostGroupOf("(" + g + ")", g, []);
    assert g == NatToString(1) + ", with" + " \U{2640}";
    ContainsChar(g, ';');
    assert !Contains(g, " or ") by {
      forall j: nat ensures !OccursAt(g, " or ", j) {
        if j + 4 <= |g| {
          assert g[j..j + 4][1] == g[j + 1] != 'o';
        }
      }
    }
    WithNoteAccepted(g, 1, " \U{2640}");
    assert CheckGroups(id, []) == Ok(());
  }

  lemma FemaleSignChars(g: string)
    requires g == "1, with \U{2640}"
    ensures AllLinkChars(g)
  {
    forall i | 0 <= i < |g| ensures LinkChar(g[i]) {
      if i == |g| - 1 {
        ByteClassChars(g[i]);
      }
    }
  }

  /** Groups of allowed characters that are all valid links pass the POST check. */
  lemma {:induction false} GroupsAccepted(id: string, gs: seq<string>)
    requires forall g :: g in gs ==> AllLinkChars(g) && ValidLink(g)
    ensures CheckGroups(id, GroupsText(gs)) == Ok(())
    decreases |gs|
  {
    if |gs| == 1 {
      PostGroupOf(GroupsText(gs), gs[0], []);
      assert CheckGroups(id, []) == Ok(());
    } else if |gs| > 1 {
      var rest := GroupsText(gs[1..]);
      PostGroupOf(GroupsText(gs), gs[0], " " + rest);
      assert (" " + rest)[1..] == rest;
      GroupsAccepted(id, gs[1..]);
    }
  }

  /** A group of allowed characters that is not a valid link ends the run (verify.py:222-224). */
  lemma GroupRejected(id: string, s: string, g: string, rest: string)
    requires s == "(" + g + ")" + rest && AllLinkChars(g) && !ValidLink(g)
    ensures CheckGroups(id, s) == Fail(UnparsableLink(id, g))
  {
    PostGroupOf(s, g, rest);
  }

  /** Text left over that does not start a group ends the run (verify.py:225-227). */
  lemma NotAGroup(id: string, s: string)
    requires s != [] && s[0] != '('
    ensures CheckGroups(id, s) == Fail(LinksNotFound(id, s))
  {
  }

  /** Every clause letter recorded is "-" or a letter from "a" to "m". */
  predicate LettersRecorded(s: Status)
  {
    forall n :: n in s.links ==> forall i :: 0 <= i < |s.links[n]| ==> s.links[n][i] == '-' || 'a' <= s.links[n][i] <= 'm'
  }

  lemma StepKeepsLetters(s: Status, line: string)
    requires LettersRecorded(s) && Step(s, line).Ok?
    ensures LettersRecorded(Step(s, line).value)
  {
  }

  /** Running lines one after the other is running them all. */
  lemma {:induction false} RunAppend(s: Status, a: seq<string>, b: seq<string>)
    ensures Run(s, a + b) == match Run(s, a) case Fail(e) => Fail(e) case Ok(t) => Run(t, b)
    decreases |a|
  {
    if a != [] {
      assert (a + b)[0] == a[0] && (a + b)[1..] == a[1..] + b;
      match Step(s, a[0])
      case Fail(_) =>
      case Ok(next) => RunAppend(next, a[1..], b);
    } else {
      assert a + b == b;
    }
  }

  /** A run of a whole file keeps every recorded letter in range. */
  lemma {:induction false} RunKeepsLetters(s: Status, lines: seq<string>)
    requires LettersRecorded(s) && Run(s, lines).Ok?
    ensures LettersRecorded(Run(s, lines).value)
    decreases |lines|
  {
    if lines != [] {
      StepKeepsLetters(s, lines[0]);
      RunKeepsLetters(Step(s, lines[0]).value, lines[1..]);
    }
  }
}
