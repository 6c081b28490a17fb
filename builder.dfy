/**
 * The HTML builder of build.py (`Parser.process_line`, the header, footer and body writers,
 * and the loop of `process`, build.py:91-186, 262-442, 497-547 and 623-649).
 *
 * The parser's fields are the class `Parser`, gathered into the records below along the
 * blocks of `__init__`; each `outfile.write` appends one chunk to `out`.  `Step` states what
 * one line does as a function of the old fields, `Cycle` adds the stripping and gender swap
 * `process` applies first, and `Run` covers a whole file.  A call of `error()`, a failed
 * `assert` and a `KeyError` end the run and are a `Fail`.
 */
module Builder {
  import opened Outcomes
  import opened Strings
  import opened LinkRender
  import opened GenderSwap

  /** Where the parser is in the book (build.py:98-101); the page number 0 is kept as text. */
  datatype Position = Position(page: string, inConflictSection: bool, inConflictDiv: bool, inConflict: bool)

  /** The names of the current group, clause, conflict and sub-entry (build.py:103-109). */
  datatype Names = Names(group: string, subgroup: string, bclauseId: string, bclauseName: string, id: string, subid: string)

  /** The body lines of the open sub-entry, and the sub-entries seen per conflict (build.py:111-112). */
  datatype Entry = Entry(text: seq<string>, links: map<string, seq<string>>)

  /** The format modes and the pending id (build.py:114-120). */
  datatype Format = Format(
    formatParagraph: Option<string>,
    formatLines: Option<string>,
    formatNextLine: Option<string>,
    formatLinks: Option<string>,
    blankLine: bool,
    nextId: Option<string>)

  /**
   * The fields of build.py's `Parser` that `process_line` reads or writes, with `out` for the
   * chunks written so far.  `divOpens` and `divCloses` are the positions in `out` of the
   * chunks that open and close a conflict div, in the order they were written; they are
   * bookkeeping of the model, not fields of the source.
   */
  datatype Status = Status(
    position: Position,
    names: Names,
    entry: Entry,
    format: Format,
    hints: Hints,
    out: seq<string>,
    divOpens: seq<nat>,
    divCloses: seq<nat>)

  /** `n` has written after `s`: the chunks of `s` come first in `n`. */
  predicate Grows(s: Status, n: Status)
  {
    |s.out| <= |n.out| && n.out[..|s.out|] == s.out
  }

  const NoFormat: Format := Format(None, None, None, None, false, None)

  /** The fields as `__init__` leaves them (build.py:98-182). */
  const Initial: Status :=
    Status(Position("0", false, false, false), Names("", "", "", "", "", ""), Entry([], map[]),
           NoFormat, NoHints, [], [], [])

  /** Python's truth value of a field that is None or a string. */
  predicate Truthy(o: Option<string>) { o.Some? && o.value != [] }

  // ---------------------------------------------------------------- the chunks written

  function DivOf(cls: string): string { "<div class=\"" + cls + "\">\n" }
  const CloseDiv := "</div>\n"
  const SpaceDiv := "<div class=\"space\">&nbsp;</div>\n"
  const StrayDiv := "<div>xxx</div>\n"
  const Rule := "<hr/>\n"
  function ParagraphBreak(cls: string): string { "</div>\n<div class=\"" + cls + "\">\n" }
  function LineDiv(cls: string, body: string): string { "<div class=\"" + cls + "\">" + body + "</div>\n" }
  function IdAttribute(nextId: Option<string>): string
  {
    if Truthy(nextId) then " id=\"" + nextId.value + "\"" else ""
  }
  function NextLineDiv(cls: string, line: string, attribute: string): string
  {
    "<div" + attribute + " class=\"" + cls + "\">" + line + "</div>\n"
  }
  function SubIdSpan(c: string): string { "<span class=\"subid\">" + c + "</span>" }
  function GroupHeader(name: string): string { "\n<div class=\"group\">" + name + "</div>\n" }
  function SubgroupHeader(name: string): string { "\n<div class=\"subgroup\">" + name + "</div>\n" }
  function BClauseHeader(id: string, name: string): string
  {
    "\n<div class=\"bclause\">(" + id + ") " + name + "</div>\n"
  }
  function ConflictOpen(id: string): string { "\n<div class=\"conflict\" id=\"" + id + "\">\n" }
  function ConflictIdDiv(id: string): string { "\n<div class=\"conflictid\">" + id + "</div>\n" }
  const ConflictClose := "\n</div>\n"
  function PreLinks(subid: string, links: string): string
  {
    "\n<div class=\"prelinks\">" + (if subid != "" then SubIdSpan(subid) + " " else "") + links + "</div>\n"
  }
  const DescOpen := "<div class=\"desc\">"
  function PostLinks(links: string): string { "<div class=\"postlinks\">" + links + "</div>\n" }

  // ---------------------------------------------------------------- line shapes

  /** `-- page (\d+)` (build.py:273): the digits after "-- page ". */
  function PageNumber(line: string): (r: Option<string>)
    ensures r.Some? ==> r.value != [] && AllDigits(r.value)
  {
    if StartsWith(line, "-- page ") && LeadingDigits(line[8..]) > 0
    then Some(line[8..][..LeadingDigits(line[8..])])
    else None
  }

  /** The hints a directive line sets, after `process_line` has reset them (build.py:264-296). */
  function HintsOf(line: string): Hints
  {
    Hints(
      if StartsWith(line, "-- HER ") then Some(Words(line[7..])) else None,
      StartsWith(line, "-- U ") && Words(line[5..]) != [],
      line == "-- HUSBAND verb",
      line == "-- MISTRESS master")
  }

  /** `^ConflictGroup{(.+)}$` (build.py:386). */
  function GroupName(line: string): Option<string>
  {
    if |line| >= 16 && line[..14] == "ConflictGroup{" && line[|line| - 1] == '}'
    then Some(line[14..|line| - 1]) else None
  }

  /** `^ConflictSubGroup{(.*)}$` (build.py:391). */
  function SubgroupName(line: string): Option<string>
  {
    if |line| >= 18 && line[..17] == "ConflictSubGroup{" && line[|line| - 1] == '}'
    then Some(line[17..|line| - 1]) else None
  }

  /** `^B{(\d+)} (.*)$` (build.py:398): the clause id and its name. */
  function BClause(line: string): Option<(string, string)>
  {
    if StartsWith(line, "B{") then
      var k := LeadingDigits(line[2..]);
      if k > 0 && 4 + k <= |line| && line[2 + k] == '}' && line[3 + k] == ' '
      then Some((line[2..2 + k], line[4 + k..])) else None
    else None
  }

  /** `^Conflict{(\d+)}$` (build.py:405): the id, as the text of its digits. */
  function HeadingDigits(line: string): Option<string>
  {
    if |line| >= 11 && line[..9] == "Conflict{" && line[|line| - 1] == '}' && AllDigits(line[9..|line| - 1])
    then Some(line[9..|line| - 1]) else None
  }

  /**
   * `^(\((?P<subid>[a-m])\) )?PRE: (?P<links>.*)$` (build.py:414): the clause letter, empty
   * when there is none, and the links.
   */
  function PreLine(line: string): Option<(string, string)>
  {
    if |line| >= 9 && line[0] == '(' && 'a' <= line[1] <= 'm' && line[2] == ')' && line[3] == ' '
       && line[4..9] == "PRE: "
    then Some(([line[1]], line[9..]))
    else if StartsWith(line, "PRE: ") then Some(("", line[5..]))
    else None
  }

  /** `^POST: (?P<links>.*)$` (build.py:429). */
  function PostLine(line: string): Option<string>
  {
    if StartsWith(line, "POST: ") then Some(line[6..]) else None
  }

  /** `^\s*\(([a-d])\) (.*)$` (build.py:374): the span for a clause letter and the rest. */
  function LinksLine(line: string): (string, string)
  {
    var t := TrimLeft(line);
    if |t| >= 4 && t[0] == '(' && 'a' <= t[1] <= 'd' && t[2] == ')' && t[3] == ' '
    then (SubIdSpan([t[1]]), t[4..])
    else ("", line)
  }

  // ---------------------------------------------------------------- one line

  /** The page comment of a directive (build.py:273-282). */
  function PageStep(s: Status, line: string): Status
  {
    match PageNumber(line)
    case None => s
    case Some(p) =>
      s.(position := s.position.(page := p,
                                 inConflictSection := if p == "190" then false
                                                      else if p == "18" then true
                                                      else s.position.inConflictSection),
         names := if p == "190" then s.names.(id := "") else s.names,
         out := if p == "18" then s.out + [CloseDiv] else s.out)
  }

  /** Every FORMAT directive first cancels the four format modes (build.py:308-314). */
  function Cancelled(f: Format, line: string): Format
  {
    if StartsWith(line, "-- FORMAT")
    then f.(formatParagraph := None, formatLines := None, formatNextLine := None, formatLinks := None)
    else f
  }

  /** What the FORMAT directive `line` leaves as the format fields (build.py:303-342). */
  function FormatModes(f: Format, line: string): Format
  {
    var f := Cancelled(f, line);
    if StartsWith(line, "-- FORMAT_BEGIN:") then f.(formatParagraph := Some(line[16..]))
    else if StartsWith(line, "-- FORMAT_END") then f
    else if StartsWith(line, "-- FORMAT:") then f.(formatNextLine := Some(line[10..]))
    else if StartsWith(line, "-- FORMAT_LINES:") then f.(formatLines := Some(line[16..]))
    else if StartsWith(line, "-- FORMAT_LINKS:") then f.(formatLinks := Some(line[16..]))
    else f
  }

  /**
   * The chunks a FORMAT directive or "-- HR" writes, given the format fields before it
   * (build.py:303-346).  The stray div of a FORMAT_LINES is tested after the modes are cancelled.
   */
  function FormatChunks(f: Format, line: string): seq<string>
  {
    (if StartsWith(line, "-- FORMAT_LINES:") && f.formatLines.Some? then [SpaceDiv] else []) +
    (if StartsWith(line, "-- FORMAT_BEGIN:") then [DivOf(line[16..])]
     else if StartsWith(line, "-- FORMAT_END") then [CloseDiv]
     else if StartsWith(line, "-- FORMAT:") then []
     else if StartsWith(line, "-- FORMAT_LINES:") then (if Cancelled(f, line).formatLines.Some? then [StrayDiv] else [])
     else if StartsWith(line, "-- FORMAT_LINKS:") then []
     else if StartsWith(line, "-- HR") then [Rule]
     else [])
  }

  /** The FORMAT directives (build.py:303-347), after the hints and a possible "-- ID:" are handled. */
  function FormatStep(s: Status, line: string): Status
  {
    s.(format := FormatModes(s.format, line), out := s.out + FormatChunks(s.format, line))
  }

  /**
   * A line starting with "--" (build.py:270-347): it sets the hints, only adds chunks, and
   * neither opens nor closes a conflict div.
   */
  function DirectiveStep(s: Status, line: string): (r: Status)
    ensures r.hints == HintsOf(line) && Grows(s, r)
    ensures r.divOpens == s.divOpens && r.divCloses == s.divCloses
    ensures r.position.inConflictDiv == s.position.inConflictDiv
  {
    var s := PageStep(s, line).(hints := HintsOf(line));
    if StartsWith(line, "-- ID:") then s.(format := s.format.(nextId := Some(line[6..])))
    else FormatStep(s, line)
  }

  /** The closing of an open conflict div, and the opening of the div of conflict `id` (build.py:405-412, 507-514). */
  function HeadingStep(s: Status, id: string): Status
  {
    var close := s.position.inConflictDiv;
    s.(position := s.position.(inConflictDiv := true),
       names := s.names.(id := id),
       entry := s.entry.(links := s.entry.links[id := []]),
       out := s.out + (if close then [ConflictClose] else []) + [ConflictOpen(id), ConflictIdDiv(id)],
       divOpens := s.divOpens + [|s.out| + (if close then 1 else 0)],
       divCloses := if close then s.divCloses + [|s.out|] else s.divCloses)
  }

  /** A PRE line (build.py:414-427): the sub-entry `subid` of the current conflict opens. */
  function PreStep(s: Status, line: string, subid: string, links: string): Result<Status>
  {
    var id := s.names.id;
    if s.position.inConflict then Fail(StructureViolation(line))
    else if id !in s.entry.links then Fail(UnknownConflict(id))
    else
      match RenderLinks(id, links)
      case Fail(e) => Fail(e)
      case Ok(h) =>
        Ok(s.(position := s.position.(inConflict := true),
              names := s.names.(subid := subid),
              entry := Entry([], s.entry.links[id := s.entry.links[id] + [subid]]),
              out := s.out + [PreLinks(subid, h)]))
  }

  /** A POST line (build.py:429-437, 522-547): the body gathered so far is written, then the links. */
  function PostStep(s: Status, line: string, links: string): Result<Status>
  {
    var id := s.names.id;
    if !s.position.inConflict then Fail(StructureViolation(line))
    else
      match RenderLinks(id, links)
      case Fail(e) => Fail(e)
      case Ok(h) =>
        match BodyScan(id, JoinStripped(s.entry.text))
        case Fail(e) => Fail(e)
        case Ok(body) =>
          Ok(s.(position := s.position.(inConflict := false),
                names := s.names.(subid := ""),
                out := s.out + [DescOpen, body, CloseDiv, PostLinks(h)]))
  }

  /** The text of a sub-entry: its links and its body (build.py:414-442). */
  function EntryStep(s: Status, line: string): Result<Status>
  {
    if PreLine(line).Some? then PreStep(s, line, PreLine(line).value.0, PreLine(line).value.1)
    else if PostLine(line).Some? then PostStep(s, line, PostLine(line).value)
    else if !s.position.inConflict then Fail(StructureViolation(line))
    else Ok(s.(entry := s.entry.(text := s.entry.text + [line])))
  }

  /** A line of the conflict section outside every format mode (build.py:382-442). */
  function SectionStep(s: Status, line: string): Result<Status>
  {
    if line == [] then Ok(s)
    else if GroupName(line).Some? then Ok(s.(names := s.names.(group := GroupName(line).value)))
    else if SubgroupName(line).Some? then
      var name := SubgroupName(line).value;
      Ok(s.(names := s.names.(subgroup := name),
            out := s.out + [GroupHeader(s.names.group)] + (if name != "" then [SubgroupHeader(name)] else [])))
    else if BClause(line).Some? then
      var (id, name) := BClause(line).value;
      Ok(s.(names := s.names.(bclauseId := id, bclauseName := name), out := s.out + [BClauseHeader(id, name)]))
    else if HeadingDigits(line).Some? then Ok(HeadingStep(s, HeadingDigits(line).value))
    else EntryStep(s, line)
  }

  /** A line inside a FORMAT_BEGIN block (build.py:349-357): a blank line breaks the paragraph once. */
  function ParagraphStep(s: Status, line: string): Result<Status>
    requires s.format.formatParagraph.Some?
  {
    if line == [] then
      Ok(if !s.format.blankLine
         then s.(out := s.out + [ParagraphBreak(s.format.formatParagraph.value)], format := s.format.(blankLine := true))
         else s)
    else
      match AddTags(line)
      case Fail(e) => Fail(e)
      case Ok(t) => Ok(s.(out := s.out + [t + "\n"], format := s.format.(blankLine := false)))
  }

  /** A line under FORMAT_LINES (build.py:359-361): one div per line. */
  function LinesStep(s: Status, line: string): Result<Status>
    requires s.format.formatLines.Some?
  {
    match AddTags(line)
    case Fail(e) => Fail(e)
    case Ok(t) => Ok(s.(out := s.out + [LineDiv(s.format.formatLines.value, t)]))
  }

  /** The line after a FORMAT: directive (build.py:363-370): it takes the class and the pending id, once. */
  function NextLineStep(s: Status, line: string): Status
    requires s.format.formatNextLine.Some?
  {
    s.(out := s.out + [NextLineDiv(s.format.formatNextLine.value, line, IdAttribute(s.format.nextId))],
       format := s.format.(formatNextLine := None, nextId := None))
  }

  /** The line after a FORMAT_LINKS: directive (build.py:372-380): its links are rendered, once. */
  function LinksStep(s: Status, line: string): Result<Status>
    requires s.format.formatLinks.Some?
  {
    var (prefix, links) := LinksLine(line);
    match RenderLinks(s.names.id, links)
    case Fail(e) => Fail(e)
    case Ok(h) =>
      Ok(s.(out := s.out + [LineDiv(s.format.formatLinks.value, prefix + h)], format := s.format.(formatLinks := None)))
  }

  /**
   * A line that is not a directive (build.py:349-442): the first format mode set takes it.
   * The hints stay as they are and chunks are only added.
   */
  function TextStep(s: Status, line: string): (r: Result<Status>)
    ensures r.Ok? ==> r.value.hints == s.hints && Grows(s, r.value)
  {
    if Truthy(s.format.formatParagraph) then ParagraphStep(s, line)
    else if Truthy(s.format.formatLines) then LinesStep(s, line)
    else if Truthy(s.format.formatNextLine) then Ok(NextLineStep(s, line))
    else if Truthy(s.format.formatLinks) then LinksStep(s, line)
    else if s.position.inConflictSection then SectionStep(s, line)
    else Ok(s)
  }

  /**
   * `process_line` (build.py:262-442): the hints are reset first, so a line leaves only the
   * hints it sets itself, and the chunks it writes come after those already written.
   */
  function Step(s: Status, line: string): (r: Result<Status>)
    ensures r.Ok? ==> r.value.hints == if StartsWith(line, "--") then HintsOf(line) else NoHints
    ensures r.Ok? ==> Grows(s, r.value)
  {
    var s := s.(hints := NoHints);
    if StartsWith(line, "--") then Ok(DirectiveStep(s, line)) else TextStep(s, line)
  }

  /**
   * One line of `process` (build.py:639-643): stripped, swapped with the hints the previous
   * line left when the gender swap is on, then processed.
   */
  function Cycle(s: Status, t: Tables, swap: bool, raw: string): (r: Result<Status>)
    ensures r.Ok? ==> Grows(s, r.value)
  {
    var line := Strip(raw);
    if swap then
      match SwapLine(line, t, s.hints)
      case Fail(e) => Fail(e)
      case Ok((swapped, _)) => Step(s, swapped)
    else Step(s, line)
  }

  /** The loop of `process` (build.py:639-643), stopping at the first error; the output only grows. */
  function Run(s: Status, t: Tables, swap: bool, lines: seq<string>): (r: Result<Status>)
    ensures r.Ok? ==> Grows(s, r.value)
    decreases |lines|
  {
    if lines == [] then Ok(s)
    else match Cycle(s, t, swap, lines[0])
      case Fail(e) => Fail(e)
      case Ok(next) =>
        var r := Run(next, t, swap, lines[1..]);
        assert r.Ok? ==> r.value.out[..|s.out|] == r.value.out[..|next.out|][..|s.out|];
        r
  }

  /** After the loop, the last conflict div is closed (build.py:644-645). */
  function Finish(s: Status): Status
  {
    if s.position.inConflictDiv
    then s.(position := s.position.(inConflictDiv := false), out := s.out + [ConflictClose], divCloses := s.divCloses + [|s.out|])
    else s
  }

  /** A whole run followed by the closing of the last conflict div. */
  function Finished(r: Result<Status>): Result<Status>
  {
    match r
    case Fail(e) => Fail(e)
    case Ok(s) => Ok(Finish(s))
  }

  lemma RunStops(s: Status, t: Tables, swap: bool, lines: seq<string>)
    requires lines != [] && Cycle(s, t, swap, lines[0]).Fail?
    ensures Run(s, t, swap, lines) == Fail(Cycle(s, t, swap, lines[0]).error)
  {
  }

  lemma RunGoesOn(s: Status, t: Tables, swap: bool, lines: seq<string>)
    requires lines != [] && Cycle(s, t, swap, lines[0]).Ok?
    ensures Run(s, t, swap, lines) == Run(Cycle(s, t, swap, lines[0]).value, t, swap, lines[1..])
  {
  }

  // ---------------------------------------------------------------- the parser

  /** The outcome of a method that ended with `r` and left the fields as `s`. */
  function Settled(r: Result<()>, s: Status): Result<Status>
  {
    if r.Fail? then Fail(r.error) else Ok(s)
  }

  class Parser {
    var a: char
    var b: char
    var position: Position
    var names: Names
    var entry: Entry
    var format: Format
    var hints: Hints
    var out: seq<string>
    ghost var divOpens: seq<nat>
    ghost var divCloses: seq<nat>
    /** `swapCharList` and `replaceList` (build.py:127-158). */
    var tables: Tables

    ghost function State(): Status
      reads this
    {
      Status(position, names, entry, format, hints, out, divOpens, divCloses)
    }

    /**
     * `__init__` (build.py:94-182): the initial state, and the two tables filled from the
     * lists of build.py, which `__init__` reads as module globals (the term list given element
     * by element, as for `BuildTables`).
     */
    constructor (chars: seq<(string, string)>, terms: seq<(string, string)>)
      requires chars == GenderedChars
      requires |terms| == |GenderedTerms| && forall i :: 0 <= i < |terms| ==> terms[i] == GenderedTerms[i]
      ensures State() == Initial && a == 'm' && b == 'f'
      ensures BuiltFrom(tables, chars, terms)
    {
      var t := BuildTables(chars, terms);
      a, b := 'm', 'f';
      position := Position("0", false, false, false);
      names := Names("", "", "", "", "", "");
      entry := Entry([], map[]);
      format := NoFormat;
      hints := NoHints;
      out := [];
      divOpens, divCloses := [], [];
      tables := t;
    }

    /** `setAB` (build.py:184-186). */
    method SetAB(ab: string)
      requires |ab| >= 2
      modifies this`a, this`b
      ensures a == ab[0] && b == ab[1] && State() == old(State()) && tables == old(tables)
    {
      a, b := ab[0], ab[1];
    }

    /** `write_group_header` (build.py:497-498). */
    method WriteGroupHeader(name: string)
      modifies this`out
      ensures out == old(out) + [GroupHeader(name)]
    {
      out := out + [GroupHeader(name)];
    }

    /** `write_subgroup_header` (build.py:500-502): nothing for an empty name. */
    method WriteSubgroupHeader(name: string)
      modifies this`out
      ensures out == old(out) + if name != "" then [SubgroupHeader(name)] else []
    {
      if name != "" {
        out := out + [SubgroupHeader(name)];
      }
    }

    /** `write_bclause_header` (build.py:504-505). */
    method WriteBClauseHeader(clauseId: string, name: string)
      modifies this`out
      ensures out == old(out) + [BClauseHeader(clauseId, name)]
    {
      out := out + [BClauseHeader(clauseId, name)];
    }

    /** `write_conflict_header` (build.py:507-510): opens the div of the current conflict. */
    method WriteConflictHeader()
      modifies this`out, this`position, this`divOpens
      ensures out == old(out) + [ConflictOpen(names.id), ConflictIdDiv(names.id)]
      ensures position == old(position).(inConflictDiv := true) && divOpens == old(divOpens) + [|old(out)|]
    {
      divOpens := divOpens + [|out|];
      out := out + [ConflictOpen(names.id)];
      position := position.(inConflictDiv := true);
      out := out + [ConflictIdDiv(names.id)];
    }

    /** `write_conflict_footer` (build.py:512-514): closes the conflict div. */
    method WriteConflictFooter()
      modifies this`out, this`position, this`divCloses
      ensures out == old(out) + [ConflictClose]
      ensures position == old(position).(inConflictDiv := false) && divCloses == old(divCloses) + [|old(out)|]
    {
      divCloses := divCloses + [|out|];
      out := out + [ConflictClose];
      position := position.(inConflictDiv := false);
    }

    /** `write_conflict_subheader` (build.py:516-520). */
    method WriteConflictSubheader(clause: string, hlinks: string)
      modifies this`out
      ensures out == old(out) + [PreLinks(clause, hlinks)]
    {
      var prefix := "";
      if clause != "" {
        prefix := SubIdSpan(clause) + " ";
      }
      out := out + ["\n<div class=\"prelinks\">" + prefix + hlinks + "</div>\n"];
    }

    /** `write_conflict_body` (build.py:522-547): the body text with its links, then the POST links. */
    method WriteConflictBody(hlinks: string) returns (r: Result<()>)
      modifies this`out
      ensures r.Fail? <==> BodyScan(names.id, JoinStripped(entry.text)).Fail?
      ensures r.Fail? ==> r.error == BodyScan(names.id, JoinStripped(entry.text)).error
      ensures r.Ok? ==> out == old(out) + [DescOpen, BodyScan(names.id, JoinStripped(entry.text)).value, CloseDiv, PostLinks(hlinks)]
    {
      out := out + [DescOpen];
      var body := RenderBody(names.id, JoinStripped(entry.text));
      if body.Fail? {
        return Fail(body.error);
      }
      out := out + [body.value, CloseDiv, PostLinks(hlinks)];
      return Ok(());
    }

    /** The page comment of a directive (build.py:273-282), proved against `PageStep`. */
    method ProcessPage(line: string)
      modifies this`position, this`names, this`out
      ensures State() == PageStep(old(State()), line)
    {
      var number := PageNumber(line);
      if number.Some? {
        position := position.(page := number.value);
        if number.value == "18" {
          position := position.(inConflictSection := true);
          out := out + [CloseDiv];
        }
        if number.value == "190" {
          position := position.(inConflictSection := false);
          names := names.(id := "");
        }
      }
    }

    /** The FORMAT directives and "-- HR" (build.py:303-346), proved against `FormatStep`. */
    method ProcessFormat(line: string)
      modifies this`format, this`out
      ensures State() == FormatStep(old(State()), line)
    {
      if StartsWith(line, "-- FORMAT_LINES:") && format.formatLines.Some? {
        out := out + [SpaceDiv];
      }
      if StartsWith(line, "-- FORMAT") {
        format := format.(formatParagraph := None, formatLines := None, formatNextLine := None, formatLinks := None);
      }
      if StartsWith(line, "-- FORMAT_BEGIN:") {
        format := format.(formatParagraph := Some(line[16..]));
        out := out + [DivOf(line[16..])];
      } else if StartsWith(line, "-- FORMAT_END") {
        out := out + [CloseDiv];
      } else if StartsWith(line, "-- FORMAT:") {
        format := format.(formatNextLine := Some(line[10..]));
      } else if StartsWith(line, "-- FORMAT_LINES:") {
        if format.formatLines.Some? {
          out := out + [StrayDiv];
        }
        format := format.(formatLines := Some(line[16..]));
      } else if StartsWith(line, "-- FORMAT_LINKS:") {
        format := format.(formatLinks := Some(line[16..]));
      } else if StartsWith(line, "-- HR") {
        out := out + [Rule];
      }
    }

    /** The directive part of `process_line` (build.py:270-347), proved against `DirectiveStep`. */
    method ProcessDirective(line: string)
      modifies this`position, this`names, this`hints, this`format, this`out
      ensures State() == DirectiveStep(old(State()), line)
    {
      ProcessPage(line);
      hints := HintsOf(line);
      if StartsWith(line, "-- ID:") {
        format := format.(nextId := Some(line[6..]));
      } else {
        ProcessFormat(line);
      }
    }

    /** A PRE line (build.py:414-427), proved against `PreStep`. */
    method ProcessPre(line: string, clause: string, rawLinks: string) returns (r: Result<()>)
      modifies this`position, this`names, this`entry, this`out
      ensures Settled(r, State()) == PreStep(old(State()), line, clause, rawLinks)
    {
      if position.inConflict {
        return Fail(StructureViolation(line));
      }
      position := position.(inConflict := true);
      entry := entry.(text := []);
      names := names.(subid := clause);
      if names.id !in entry.links {
        return Fail(UnknownConflict(names.id));
      }
      entry := entry.(links := entry.links[names.id := entry.links[names.id] + [clause]]);
      var hlinks := ParseLinks(names.id, rawLinks);
      if hlinks.Fail? {
        return Fail(hlinks.error);
      }
      WriteConflictSubheader(clause, hlinks.value);
      return Ok(());
    }

    /** A POST line (build.py:429-437), proved against `PostStep`. */
    method ProcessPost(line: string, rawLinks: string) returns (r: Result<()>)
      modifies this`position, this`names, this`out
      ensures Settled(r, State()) == PostStep(old(State()), line, rawLinks)
    {
      if !position.inConflict {
        return Fail(StructureViolation(line));
      }
      position := position.(inConflict := false);
      var hlinks := ParseLinks(names.id, rawLinks);
      if hlinks.Fail? {
        return Fail(hlinks.error);
      }
      r := WriteConflictBody(hlinks.value);
      if r.Fail? {
        return;
      }
      names := names.(subid := "");
    }

    /** PRE, POST and body lines (build.py:414-442), proved against `EntryStep`. */
    method ProcessEntry(line: string) returns (r: Result<()>)
      modifies this`position, this`names, this`entry, this`out
      ensures Settled(r, State()) == EntryStep(old(State()), line)
    {
      var pre := PreLine(line);
      if pre.Some? {
        r := ProcessPre(line, pre.value.0, pre.value.1);
        return;
      }
      var post := PostLine(line);
      if post.Some? {
        r := ProcessPost(line, post.value);
        return;
      }
      if !position.inConflict {
        return Fail(StructureViolation(line));
      }
      entry := entry.(text := entry.text + [line]);
      return Ok(());
    }

    /** A conflict heading (build.py:405-412, 507-514), proved against `HeadingStep`. */
    method ProcessHeading(heading: string)
      modifies this`position, this`names, this`entry, this`out, this`divOpens, this`divCloses
      ensures State() == HeadingStep(old(State()), heading)
    {
      names := names.(id := heading);
      entry := entry.(links := entry.links[heading := []]);
      if position.inConflictDiv {
        WriteConflictFooter();
      }
      WriteConflictHeader();
    }

    /** The conflict-section part of `process_line` (build.py:382-442), proved against `SectionStep`. */
    method ProcessSection(line: string) returns (r: Result<()>)
      modifies this`position, this`names, this`entry, this`out, this`divOpens, this`divCloses
      ensures Settled(r, State()) == SectionStep(old(State()), line)
    {
      if line == "" {
        return Ok(());
      }
      var groupName := GroupName(line);
      if groupName.Some? {
        names := names.(group := groupName.value);
        return Ok(());
      }
      var subgroupName := SubgroupName(line);
      if subgroupName.Some? {
        names := names.(subgroup := subgroupName.value);
        WriteGroupHeader(names.group);
        WriteSubgroupHeader(names.subgroup);
        return Ok(());
      }
      var clause := BClause(line);
      if clause.Some? {
        names := names.(bclauseId := clause.value.0, bclauseName := clause.value.1);
        WriteBClauseHeader(names.bclauseId, names.bclauseName);
        return Ok(());
      }
      var heading := HeadingDigits(line);
      if heading.Some? {
        ProcessHeading(heading.value);
        return Ok(());
      }
      r := ProcessEntry(line);
    }

    /** A line inside a FORMAT_BEGIN block (build.py:349-357), proved against `ParagraphStep`. */
    method ProcessParagraphLine(line: string) returns (r: Result<()>)
      requires format.formatParagraph.Some?
      modifies this`out, this`format
      ensures Settled(r, State()) == ParagraphStep(old(State()), line)
    {
      if line == "" {
        if !format.blankLine {
          out := out + [ParagraphBreak(format.formatParagraph.value)];
          format := format.(blankLine := true);
        }
        return Ok(());
      }
      var tagged := AddTags(line);
      if tagged.Fail? {
        return Fail(tagged.error);
      }
      out := out + [tagged.value + "\n"];
      format := format.(blankLine := false);
      return Ok(());
    }

    /** The line after a FORMAT: directive (build.py:363-370), proved against `NextLineStep`. */
    method ProcessNextLine(line: string)
      requires format.formatNextLine.Some?
      modifies this`out, this`format
      ensures State() == NextLineStep(old(State()), line)
    {
      var attribute := "";
      if Truthy(format.nextId) {
        attribute := " id=\"" + format.nextId.value + "\"";
      }
      out := out + [NextLineDiv(format.formatNextLine.value, line, attribute)];
      format := format.(formatNextLine := None, nextId := None);
    }

    /** The line after a FORMAT_LINKS: directive (build.py:372-380), proved against `LinksStep`. */
    method ProcessLinksLine(line: string) returns (r: Result<()>)
      requires format.formatLinks.Some?
      modifies this`out, this`format
      ensures Settled(r, State()) == LinksStep(old(State()), line)
    {
      var (prefix, rest) := LinksLine(line);
      var hlinks := ParseLinks(names.id, rest);
      if hlinks.Fail? {
        return Fail(hlinks.error);
      }
      out := out + [LineDiv(format.formatLinks.value, prefix + hlinks.value)];
      format := format.(formatLinks := None);
      return Ok(());
    }

    /** A line that is not a directive (build.py:349-442), proved against `TextStep`. */
    method ProcessText(line: string) returns (r: Result<()>)
      modifies this`position, this`names, this`entry, this`format, this`out, this`divOpens, this`divCloses
      ensures Settled(r, State()) == TextStep(old(State()), line)
    {
      if Truthy(format.formatParagraph) {
        r := ProcessParagraphLine(line);
      } else if Truthy(format.formatLines) {
        var tagged := AddTags(line);
        if tagged.Fail? {
          return Fail(tagged.error);
        }
        out := out + [LineDiv(format.formatLines.value, tagged.value)];
        return Ok(());
      } else if Truthy(format.formatNextLine) {
        ProcessNextLine(line);
        return Ok(());
      } else if Truthy(format.formatLinks) {
        r := ProcessLinksLine(line);
      } else if position.inConflictSection {
        r := ProcessSection(line);
      } else {
        return Ok(());
      }
    }

    /** `process_line` (build.py:262-442), proved against `Step`. */
    method ProcessLine(line: string) returns (r: Result<()>)
      modifies this`position, this`names, this`entry, this`format, this`hints, this`out, this`divOpens, this`divCloses
      ensures Settled(r, State()) == Step(old(State()), line)
    {
      hints := NoHints;
      if StartsWith(line, "--") {
        ProcessDirective(line);
        return Ok(());
      }
      r := ProcessText(line);
    }

    /** One pass of the loop of `process` (build.py:639-643), proved against `Cycle`. */
    method ProcessRaw(raw: string, swap: bool) returns (r: Result<()>)
      modifies this`position, this`names, this`entry, this`format, this`hints, this`out, this`divOpens, this`divCloses
      ensures Settled(r, State()) == Cycle(old(State()), tables, swap, raw)
    {
      var line := Strip(raw);
      if swap {
        var swapped := SwapLine(line, tables, hints);
        if swapped.Fail? {
          return Fail(swapped.error);
        }
        line := swapped.value.0;
      }
      r := ProcessLine(line);
    }

    /**
     * `process` (build.py:623-649) with the files replaced by a line sequence and the HTML
     * chrome left out, proved against `Run` and `Finish`.
     */
    method Process(lines: seq<string>) returns (r: Result<()>)
      modifies this`position, this`names, this`entry, this`format, this`hints, this`out, this`divOpens, this`divCloses
      ensures Settled(r, State()) == Finished(Run(old(State()), tables, a == 'f' && b == 'm', lines))
    {
      var swap := a == 'f' && b == 'm';
      for i := 0 to |lines|
        invariant Run(old(State()), tables, swap, lines) == Run(State(), tables, swap, lines[i..])
      {
        assert lines[i..][1..] == lines[i + 1..];
        ghost var before := State();
        r := ProcessRaw(lines[i], swap);
        if r.Fail? {
          RunStops(before, tables, swap, lines[i..]);
          assert Run(old(State()), tables, swap, lines) == Fail(r.error);
          assert Settled(r, State()) == Finished(Run(old(State()), tables, swap, lines));
          assert swap == (a == 'f' && b == 'm');
          return;
        }
        RunGoesOn(before, tables, swap, lines[i..]);
      }
      assert lines[|lines|..] == [];
      ghost var last := State();
      assert Run(old(State()), tables, swap, lines) == Ok(last);
      if position.inConflictDiv {
        WriteConflictFooter();
      }
      assert State() == Finish(last);
      assert Settled(Ok(()), State()) == Finished(Run(old(State()), tables, swap, lines));
      return Ok(());
    }
  }

  // ---------------------------------------------------------------- format modes

  /** How many of the four format modes are set. */
  function ModesSet(f: Format): nat
  {
    (if f.formatParagraph.Some? then 1 else 0) + (if f.formatLines.Some? then 1 else 0)
    + (if f.formatNextLine.Some? then 1 else 0) + (if f.formatLinks.Some? then 1 else 0)
  }

  /** The FORMAT directives that set a mode all start with "-- FORMAT". */
  lemma FormatFamily(line: string)
    ensures StartsWith(line, "-- FORMAT_BEGIN:") ==> StartsWith(line, "-- FORMAT")
    ensures StartsWith(line, "-- FORMAT_END") ==> StartsWith(line, "-- FORMAT")
    ensures StartsWith(line, "-- FORMAT:") ==> StartsWith(line, "-- FORMAT")
    ensures StartsWith(line, "-- FORMAT_LINES:") ==> StartsWith(line, "-- FORMAT")
    ensures StartsWith(line, "-- FORMAT_LINKS:") ==> StartsWith(line, "-- FORMAT")
  {
    if |line| >= 13 {
      assert line[..9] == line[..13][..9];
    }
    if |line| >= 10 {
      assert line[..9] == line[..10][..9];
    }
    if |line| >= 16 {
      assert line[..9] == line[..16][..9];
    }
  }

  /** The FORMAT directives that set a mode differ before their colon. */
  lemma FormatPrefixesDistinct(line: string)
    ensures StartsWith(line, "-- FORMAT_BEGIN:") ==>
              !StartsWith(line, "-- FORMAT:") && !StartsWith(line, "-- FORMAT_LINES:") && !StartsWith(line, "-- FORMAT_LINKS:")
              && !StartsWith(line, "-- FORMAT_END")
    ensures StartsWith(line, "-- FORMAT:") ==>
              !StartsWith(line, "-- FORMAT_LINES:") && !StartsWith(line, "-- FORMAT_LINKS:") && !StartsWith(line, "-- FORMAT_END")
    ensures StartsWith(line, "-- FORMAT_LINES:") ==> !StartsWith(line, "-- FORMAT_LINKS:") && !StartsWith(line, "-- FORMAT_END")
    ensures StartsWith(line, "-- FORMAT_LINKS:") ==> !StartsWith(line, "-- FORMAT_END")
  {
    if StartsWith(line, "-- FORMAT_BEGIN:") {
      assert line[9] == line[..16][9] == '_' && line[10] == line[..16][10] == 'B';
    }
    if StartsWith(line, "-- FORMAT:") {
      assert line[9] == line[..10][9] == ':';
    }
    if StartsWith(line, "-- FORMAT_LINES:") {
      assert line[9] == line[..16][9] == '_' && line[10] == line[..16][10] == 'L' && line[13] == line[..16][13] == 'E';
    }
    if StartsWith(line, "-- FORMAT_LINKS:") {
      assert line[9] == line[..16][9] == '_' && line[10] == line[..16][10] == 'L' && line[13] == line[..16][13] == 'K';
    }
  }

  /** A FORMAT directive is not an "-- ID:" directive. */
  lemma FormatIsNoId(line: string)
    requires StartsWith(line, "-- FORMAT")
    ensures !StartsWith(line, "-- ID:") && StartsWith(line, "--")
  {
    assert line[3] == line[..9][3] == 'F';
    assert line[..2] == line[..9][..2];
  }

  /**
   * Every FORMAT directive clears the four modes and then sets only its own
   * (build.py:309-342): afterwards each mode is set exactly when the directive names it.
   */
  lemma FormatDirectiveModes(s: Status, line: string)
    requires StartsWith(line, "-- FORMAT")
    ensures Step(s, line).Ok?
    ensures var f := Step(s, line).value.format;
            && f.formatParagraph == (if StartsWith(line, "-- FORMAT_BEGIN:") then Some(line[16..]) else None)
            && f.formatNextLine == (if StartsWith(line, "-- FORMAT:") then Some(line[10..]) else None)
            && f.formatLines == (if StartsWith(line, "-- FORMAT_LINES:") then Some(line[16..]) else None)
            && f.formatLinks == (if StartsWith(line, "-- FORMAT_LINKS:") then Some(line[16..]) else None)
            && f.nextId == s.format.nextId && f.blankLine == s.format.blankLine
    ensures ModesSet(Step(s, line).value.format) <= 1
  {
    FormatPrefixesDistinct(line);
    FormatIsNoId(line);
  }

  /** A directive that is not a FORMAT directive leaves the four modes as they were. */
  lemma OtherDirectiveKeepsModes(s: Status, line: string)
    requires StartsWith(line, "--") && !StartsWith(line, "-- FORMAT")
    ensures Step(s, line).Ok?
    ensures var f := Step(s, line).value.format;
            f.formatParagraph == s.format.formatParagraph && f.formatLines == s.format.formatLines
            && f.formatNextLine == s.format.formatNextLine && f.formatLinks == s.format.formatLinks
  {
    FormatFamily(line);
    var s0 := PageStep(s.(hints := NoHints), line).(hints := HintsOf(line));
    assert FormatModes(s0.format, line) == s0.format;
    assert Step(s, line) == Ok(DirectiveStep(s.(hints := NoHints), line));
  }

  /** A line that is not a directive only ever clears modes, never sets one. */
  lemma TextClearsModes(s: Status, line: string)
    requires !StartsWith(line, "--") && Step(s, line).Ok?
    ensures var f := Step(s, line).value.format;
            (f.formatParagraph == s.format.formatParagraph)
            && (f.formatLines == s.format.formatLines)
            && (f.formatNextLine == s.format.formatNextLine || f.formatNextLine.None?)
            && (f.formatLinks == s.format.formatLinks || f.formatLinks.None?)
  {
    var s0 := s.(hints := NoHints);
    assert Step(s, line) == TextStep(s0, line);
    if Truthy(s0.format.formatParagraph) || Truthy(s0.format.formatLines) || Truthy(s0.format.formatNextLine) {
    } else if Truthy(s0.format.formatLinks) {
    } else if s0.position.inConflictSection {
      SectionKeepsFormat(s0, line);
    }
  }

  /** The conflict section never touches the format modes. */
  lemma SectionKeepsFormat(s: Status, line: string)
    requires SectionStep(s, line).Ok?
    ensures SectionStep(s, line).value.format == s.format
  {
  }

  /** At most one format mode is ever set: no line can leave two of them set at once. */
  lemma {:induction false} StepKeepsOneMode(s: Status, line: string)
    requires ModesSet(s.format) <= 1 && Step(s, line).Ok?
    ensures ModesSet(Step(s, line).value.format) <= 1
  {
    if StartsWith(line, "-- FORMAT") {
      FormatDirectiveModes(s, line);
    } else if StartsWith(line, "--") {
      OtherDirectiveKeepsModes(s, line);
    } else {
      TextClearsModes(s, line);
    }
  }

  /** One pass of the loop, swap included, keeps at most one format mode set. */
  lemma CycleKeepsOneMode(s: Status, t: Tables, swap: bool, raw: string)
    requires ModesSet(s.format) <= 1 && Cycle(s, t, swap, raw).Ok?
    ensures ModesSet(Cycle(s, t, swap, raw).value.format) <= 1
  {
    var line := Strip(raw);
    if swap {
      StepKeepsOneMode(s, SwapLine(line, t, s.hints).value.0);
    } else {
      StepKeepsOneMode(s, line);
    }
  }

  /** No run of `process`'s loop leaves two format modes set at once (build.py:303-380, 639-643). */
  lemma {:induction false} RunKeepsOneMode(s: Status, t: Tables, swap: bool, lines: seq<string>)
    requires ModesSet(s.format) <= 1 && Run(s, t, swap, lines).Ok?
    ensures ModesSet(Run(s, t, swap, lines).value.format) <= 1
    decreases |lines|
  {
    if lines != [] {
      CycleKeepsOneMode(s, t, swap, lines[0]);
      RunKeepsOneMode(Cycle(s, t, swap, lines[0]).value, t, swap, lines[1..]);
    }
  }

  /**
   * The line after a `FORMAT:` directive is the only one it formats (build.py:363-370):
   * it is written with the class and the pending id, and both are cleared after it.
   */
  lemma NextLineOnce(s: Status, line: string)
    requires !StartsWith(line, "--") && Truthy(s.format.formatNextLine)
    requires !Truthy(s.format.formatParagraph) && !Truthy(s.format.formatLines)
    ensures Step(s, line).Ok?
    ensures var n := Step(s, line).value;
            n.format.formatNextLine.None? && n.format.nextId.None?
            && n.out == s.out + [NextLineDiv(s.format.formatNextLine.value, line, IdAttribute(s.format.nextId))]
            && n.position == s.position && n.names == s.names && n.entry == s.entry
  {
  }

  /** The line after a `FORMAT_LINKS:` directive is the only one it formats (build.py:372-380). */
  lemma LinksLineOnce(s: Status, line: string)
    requires !StartsWith(line, "--") && Truthy(s.format.formatLinks)
    requires !Truthy(s.format.formatParagraph) && !Truthy(s.format.formatLines) && !Truthy(s.format.formatNextLine)
    ensures Step(s, line).Ok? <==> RenderLinks(s.names.id, LinksLine(line).1).Ok?
    ensures Step(s, line).Ok? ==>
              var n := Step(s, line).value;
              n.format.formatLinks.None? && n.position == s.position && n.names == s.names && n.entry == s.entry
  {
  }

  /**
   * While a format mode is set, a line that is not a directive goes to that mode and the
   * conflict section does not see it (build.py:349-380).
   */
  lemma ModeShadowsSection(s: Status, line: string)
    requires !StartsWith(line, "--") && Step(s, line).Ok?
    requires Truthy(s.format.formatParagraph) || Truthy(s.format.formatLines)
             || Truthy(s.format.formatNextLine) || Truthy(s.format.formatLinks)
    ensures var n := Step(s, line).value;
            n.position == s.position && n.names == s.names && n.entry == s.entry
            && n.divOpens == s.divOpens && n.divCloses == s.divCloses
  {
  }

  // ---------------------------------------------------------------- the sub-entry bracket

  /** No section line is taken by a format mode and the line is part of the conflict section. */
  predicate SectionLine(s: Status, line: string)
  {
    !Truthy(s.format.formatParagraph) && !Truthy(s.format.formatLines)
    && !Truthy(s.format.formatNextLine) && !Truthy(s.format.formatLinks)
    && s.position.inConflictSection && !StartsWith(line, "--") && line != []
  }

  /** A line that opens with "(" or "P" is none of the headings of the conflict section. */
  lemma NotAHeading(line: string)
    requires line != [] && (line[0] == '(' || line[0] == 'P')
    ensures GroupName(line).None? && SubgroupName(line).None? && BClause(line).None? && HeadingDigits(line).None?
  {
    if |line| >= 2 {
      assert line[..2][0] == line[0];
    }
    if |line| >= 9 {
      assert line[..9][0] == line[0];
    }
    if |line| >= 14 {
      assert line[..14][0] == line[0];
    }
    if |line| >= 17 {
      assert line[..17][0] == line[0];
    }
  }

  /** A PRE or POST line starts with "(" or "P". */
  lemma EntryLead(line: string)
    requires PreLine(line).Some? || PostLine(line).Some?
    ensures line != [] && (line[0] == '(' || line[0] == 'P')
  {
    if StartsWith(line, "PRE: ") {
      assert line[0] == line[..5][0];
    } else if StartsWith(line, "POST: ") {
      assert line[0] == line[..6][0];
    }
  }

  /** A PRE line of the conflict section goes to `PreStep`. */
  lemma SectionPre(s: Status, line: string)
    requires SectionLine(s, line) && PreLine(line).Some?
    ensures Step(s, line) == PreStep(s.(hints := NoHints), line, PreLine(line).value.0, PreLine(line).value.1)
  {
    EntryLead(line);
    NotAHeading(line);
  }

  /** A POST line of the conflict section goes to `PostStep`. */
  lemma SectionPost(s: Status, line: string)
    requires SectionLine(s, line) && PostLine(line).Some?
    ensures Step(s, line) == PostStep(s.(hints := NoHints), line, PostLine(line).value)
  {
    EntryLead(line);
    NotAHeading(line);
    assert PreLine(line).None? by {
      assert line[1] == line[..6][1] == 'O';
      assert line[..5] != "PRE: " by { assert line[..5][1] == line[1]; }
    }
  }

  /** A PRE while a sub-entry is open is fatal (build.py:416). */
  lemma PreInsideEntryFails(s: Status, line: string)
    requires SectionLine(s, line) && PreLine(line).Some? && s.position.inConflict
    ensures Step(s, line) == Fail(StructureViolation(line))
  {
    SectionPre(s, line);
  }

  /** A POST with no open sub-entry is fatal (build.py:431). */
  lemma PostOutsideEntryFails(s: Status, line: string)
    requires SectionLine(s, line) && PostLine(line).Some? && !s.position.inConflict
    ensures Step(s, line) == Fail(StructureViolation(line))
  {
    SectionPost(s, line);
  }

  /** A line of the section that is no heading, PRE or POST is body text: fatal outside a sub-entry (build.py:439-442). */
  lemma BodyOutsideEntryFails(s: Status, line: string)
    requires SectionLine(s, line) && !s.position.inConflict
    requires GroupName(line).None? && SubgroupName(line).None? && BClause(line).None? && HeadingDigits(line).None?
    requires PreLine(line).None? && PostLine(line).None?
    ensures Step(s, line) == Fail(StructureViolation(line))
  {
  }

  /** Inside a sub-entry, the same line is gathered into the body and nothing is written yet. */
  lemma BodyInsideEntryGathered(s: Status, line: string)
    requires SectionLine(s, line) && s.position.inConflict
    requires GroupName(line).None? && SubgroupName(line).None? && BClause(line).None? && HeadingDigits(line).None?
    requires PreLine(line).None? && PostLine(line).None?
    ensures Step(s, line).Ok?
    ensures Step(s, line).value.entry.text == s.entry.text + [line] && Step(s, line).value.out == s.out
  {
  }

  /** A PRE that succeeds opens a sub-entry with an empty body and records its clause letter. */
  lemma PreOpens(s: Status, line: string)
    requires SectionLine(s, line) && PreLine(line).Some? && Step(s, line).Ok?
    ensures !s.position.inConflict
    ensures var n := Step(s, line).value;
            n.position.inConflict && n.entry.text == [] && n.names.subid == PreLine(line).value.0
            && n.entry.links == s.entry.links[s.names.id := s.entry.links[s.names.id] + [PreLine(line).value.0]]
  {
    SectionPre(s, line);
  }

  /** A POST that succeeds closes the open sub-entry. */
  lemma PostCloses(s: Status, line: string)
    requires SectionLine(s, line) && PostLine(line).Some? && Step(s, line).Ok?
    ensures s.position.inConflict
    ensures !Step(s, line).value.position.inConflict && Step(s, line).value.names.subid == ""
  {
    SectionPost(s, line);
  }

  // ---------------------------------------------------------------- conflict divs

  /** The start of the chunk that opens the div of a conflict. */
  const ConflictOpenPrefix := "\n<div class=\"conflict\" id=\""

  lemma ConflictOpenStarts(id: string)
    ensures StartsWith(ConflictOpen(id), ConflictOpenPrefix)
  {
    assert ConflictOpen(id) == ConflictOpenPrefix + (id + "\">\n");
  }

  /**
   * The conflict divs of `out`: every marked opening is a conflict-div opening chunk and every
   * marked closing is the closing chunk, at increasing positions that alternate open, close,
   * open, close; every div opened is closed, except the one still open.
   */
  predicate DivsBalanced(s: Status)
  {
    && |s.divOpens| == |s.divCloses| + (if s.position.inConflictDiv then 1 else 0)
    && (forall k :: 0 <= k < |s.divOpens| ==> s.divOpens[k] < |s.out| && StartsWith(s.out[s.divOpens[k]], ConflictOpenPrefix))
    && (forall k :: 0 <= k < |s.divCloses| ==> s.divCloses[k] < |s.out| && s.out[s.divCloses[k]] == ConflictClose)
    && (forall k :: 0 <= k < |s.divCloses| ==> s.divOpens[k] < s.divCloses[k])
    && (forall k :: 0 <= k < |s.divCloses| && k + 1 < |s.divOpens| ==> s.divCloses[k] < s.divOpens[k + 1])
  }

  /** Chunks written after the marked ones leave them in place. */
  lemma GrowthKeepsDivs(s: Status, n: Status)
    requires DivsBalanced(s)
    requires n.divOpens == s.divOpens && n.divCloses == s.divCloses
    requires n.position.inConflictDiv == s.position.inConflictDiv
    requires Grows(s, n)
    ensures DivsBalanced(n)
  {
    forall i | 0 <= i < |s.out| ensures n.out[i] == s.out[i] {
      assert n.out[..|s.out|][i] == n.out[i];
    }
    forall k | 0 <= k < |n.divOpens|
      ensures n.divOpens[k] < |n.out| && StartsWith(n.out[n.divOpens[k]], ConflictOpenPrefix)
    {
      assert n.out[s.divOpens[k]] == s.out[s.divOpens[k]];
    }
    forall k | 0 <= k < |n.divCloses|
      ensures n.divCloses[k] < |n.out| && n.out[n.divCloses[k]] == ConflictClose
    {
      assert n.out[s.divCloses[k]] == s.out[s.divCloses[k]];
    }
  }

  /** A heading closes the open conflict div before it opens its own (build.py:409-411). */
  lemma HeadingClosesFirst(s: Status, id: string)
    requires DivsBalanced(s)
    ensures var n := HeadingStep(s, id);
            DivsBalanced(n) && n.position.inConflictDiv
            && n.out == s.out + (if s.position.inConflictDiv then [ConflictClose] else []) + [ConflictOpen(id), ConflictIdDiv(id)]
  {
    var n := HeadingStep(s, id);
    ConflictOpenStarts(id);
    var m := |s.out| + (if s.position.inConflictDiv then 1 else 0);
    assert n.out[m] == ConflictOpen(id);
    forall i | 0 <= i < |s.out| ensures n.out[i] == s.out[i] {
    }
  }

  /** A line of the conflict section that `SectionStep` reads as a conflict heading. */
  predicate HeadingLine(s: Status, line: string)
  {
    !StartsWith(line, "--") && !Truthy(s.format.formatParagraph) && !Truthy(s.format.formatLines)
    && !Truthy(s.format.formatNextLine) && !Truthy(s.format.formatLinks) && s.position.inConflictSection
    && line != [] && GroupName(line).None? && SubgroupName(line).None? && BClause(line).None?
    && HeadingDigits(line).Some?
  }

  /** Only a conflict heading opens or closes a conflict div (build.py:405-412). */
  lemma OnlyHeadingsMarkDivs(s: Status, line: string)
    requires Step(s, line).Ok?
    ensures var n := Step(s, line).value;
            if HeadingLine(s, line) then n == HeadingStep(s.(hints := NoHints), HeadingDigits(line).value)
            else n.divOpens == s.divOpens && n.divCloses == s.divCloses
                 && n.position.inConflictDiv == s.position.inConflictDiv
  {
  }

  lemma StepKeepsDivs(s: Status, line: string)
    requires DivsBalanced(s) && Step(s, line).Ok?
    ensures DivsBalanced(Step(s, line).value)
  {
    OnlyHeadingsMarkDivs(s, line);
    if HeadingLine(s, line) {
      HeadingClosesFirst(s.(hints := NoHints), HeadingDigits(line).value);
    } else {
      GrowthKeepsDivs(s, Step(s, line).value);
    }
  }

  lemma CycleKeepsDivs(s: Status, t: Tables, swap: bool, raw: string)
    requires DivsBalanced(s) && Cycle(s, t, swap, raw).Ok?
    ensures DivsBalanced(Cycle(s, t, swap, raw).value)
  {
    var line := Strip(raw);
    if swap {
      StepKeepsDivs(s, SwapLine(line, t, s.hints).value.0);
    } else {
      StepKeepsDivs(s, line);
    }
  }

  lemma {:induction false} RunKeepsDivs(s: Status, t: Tables, swap: bool, lines: seq<string>)
    requires DivsBalanced(s) && Run(s, t, swap, lines).Ok?
    ensures DivsBalanced(Run(s, t, swap, lines).value)
    decreases |lines|
  {
    if lines != [] {
      CycleKeepsDivs(s, t, swap, lines[0]);
      RunKeepsDivs(Cycle(s, t, swap, lines[0]).value, t, swap, lines[1..]);
    }
  }

  /** Closing the last conflict div (build.py:644-645) keeps the divs of `out` in step. */
  lemma FinishKeepsDivs(s: Status)
    requires DivsBalanced(s)
    ensures var f := Finish(s);
            DivsBalanced(f) && !f.position.inConflictDiv && |f.divOpens| == |f.divCloses|
  {
    if s.position.inConflictDiv {
      var f := Finish(s);
      assert f.out[|s.out|] == ConflictClose;
      GrowthKeepsDivs(s, s.(out := f.out));
    }
  }

  /**
   * A whole book, once `process` has closed the last conflict div (build.py:644-645), has
   * closed every conflict div it opened: the output holds as many closing chunks as opening
   * ones, each opening followed by its closing before the next opening.
   */
  lemma DivsClosedAtEnd(t: Tables, swap: bool, lines: seq<string>)
    requires Run(Initial, t, swap, lines).Ok?
    ensures var f := Finish(Run(Initial, t, swap, lines).value);
            DivsBalanced(f) && |f.divOpens| == |f.divCloses| && !f.position.inConflictDiv
  {
    RunKeepsDivs(Initial, t, swap, lines);
    FinishKeepsDivs(Run(Initial, t, swap, lines).value);
  }

  // ---------------------------------------------------------------- per-line hints

  /** A line that is not a directive leaves no hints behind: they are reset by every line (build.py:264-268). */
  lemma TextResetsHints(s: Status, line: string)
    requires !StartsWith(line, "--") && Step(s, line).Ok?
    ensures Step(s, line).value.hints == NoHints
  {
  }

  /**
   * The hints of a directive survive it, so they reach the swap of the line after it, which
   * runs before that line's own `process_line` resets them (build.py:284-296, 641-643).
   */
  lemma DirectiveHintsReachNextLine(s: Status, directive: string, t: Tables, raw: string)
    requires StartsWith(directive, "--")
    ensures Step(s, directive).Ok? && Step(s, directive).value.hints == HintsOf(directive)
    ensures var n := Step(s, directive).value;
            Cycle(n, t, true, raw) ==
              match SwapLine(Strip(raw), t, HintsOf(directive))
              case Fail(e) => Fail(e)
              case Ok((swapped, _)) => Step(n, swapped)
  {
  }

  /** `-- HER obj poss` gives the senses of the "her"s of the next line, in order (build.py:284-286). */
  lemma HerDirective(senses: string)
    ensures HintsOf("-- HER " + senses).her == Some(Words(senses))
  {
    var line := "-- HER " + senses;
    assert line[..7] == "-- HER " && line[7..] == senses;
  }
}
