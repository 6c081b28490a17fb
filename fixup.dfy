/**
 * The renumbering pass of fixup.py (fixup.py:10-62).
 *
 * Between "-- page 18" and "-- page 190" every line made only of digits is a conflict id.
 * The ids must run 1, 2, 3, ... and each becomes a `Conflict{n}` heading; every other line
 * is copied as it is (`process_text` is the identity, fixup.py:19-20).
 */
module Fixup {
  import opened Outcomes
  import opened Strings
  import Validator

  /** The fields of fixup.py's `Parser` (fixup.py:13-16). */
  datatype Status = Status(inConflict: bool, nextConflictId: nat)

  const Initial: Status := Status(false, 1)

  /** Whether the conflict section is open after `line` (fixup.py:24-30). */
  function SectionAfter(inConflict: bool, line: string): bool
  {
    if line == "-- page 18" then true
    else if line == "-- page 190" then false
    else inConflict
  }

  /** `^(\d+)$` (fixup.py:33). */
  predicate IdLine(line: string) { line != [] && AllDigits(line) }

  /** `'Conflict{%d}' % id` (fixup.py:39). */
  function Heading(n: nat): string
  {
    "Conflict{" + NatToString(n) + "}"
  }

  /**
   * What `process_line` returns for one line, with the new fields (fixup.py:23-41): only an id
   * line of the section can fail, and the line is rewritten exactly when the counter moves on.
   */
  function Step(s: Status, line: string): (r: Result<(Status, string)>)
    ensures r.Fail? ==> SectionAfter(s.inConflict, line) && IdLine(line)
    ensures r.Ok? ==> r.value.0.inConflict == SectionAfter(s.inConflict, line)
    ensures r.Ok? ==> r.value.0.nextConflictId in {s.nextConflictId, s.nextConflictId + 1}
    ensures r.Ok? ==> (r.value.1 == line <==> r.value.0.nextConflictId == s.nextConflictId)
  {
    var inConflict := SectionAfter(s.inConflict, line);
    if inConflict && IdLine(line) then
      var id := ParseNat(line);
      if id != s.nextConflictId then Fail(UnexpectedConflictId(id, s.nextConflictId))
      else
        assert Heading(id)[0] != line[0];
        Ok((Status(inConflict, s.nextConflictId + 1), Heading(id)))
    else Ok((Status(inConflict, s.nextConflictId), line))
  }

  /**
   * The loop of `process` (fixup.py:57-59): the rewritten lines, one per line read, or the
   * first error; the counter moves on by at most one per line.
   */
  function Run(s: Status, lines: seq<string>): (r: Result<(Status, seq<string>)>)
    ensures r.Ok? ==> |r.value.1| == |lines|
    ensures r.Ok? ==> s.nextConflictId <= r.value.0.nextConflictId <= s.nextConflictId + |lines|
    decreases |lines|
  {
    if lines == [] then Ok((s, []))
    else match Step(s, lines[0])
      case Fail(e) => Fail(e)
      case Ok((next, out)) =>
        match Run(next, lines[1..])
        case Fail(e) => Fail(e)
        case Ok((last, rest)) => Ok((last, [out] + rest))
  }

  class Parser {
    var inConflict: bool
    var nextConflictId: nat

    function State(): Status
      reads this
    {
      Status(inConflict, nextConflictId)
    }

    /** `__init__` (fixup.py:13-16). */
    constructor ()
      ensures State() == Initial
    {
      inConflict := false;
      nextConflictId := 1;
    }

    /** `process_line` (fixup.py:23-41), proved against `Step`. */
    method ProcessLine(line: string) returns (r: Result<string>)
      modifies this
      ensures r.Fail? <==> Step(old(State()), line).Fail?
      ensures r.Fail? ==> r.error == Step(old(State()), line).error
      ensures r.Ok? ==> State() == Step(old(State()), line).value.0
      ensures r.Ok? ==> r.value == Step(old(State()), line).value.1
    {
      if line == "-- page 18" {
        inConflict := true;
      }
      if line == "-- page 190" {
        inConflict := false;
      }
      if inConflict && IdLine(line) {
        var id := ParseNat(line);
        if id != nextConflictId {
          return Fail(UnexpectedConflictId(id, nextConflictId));
        }
        nextConflictId := nextConflictId + 1;
        return Ok(Heading(id));
      }
      return Ok(line);
    }

    /** `process` (fixup.py:43-62) with the files replaced by line sequences, proved against `Run`. */
    method Process(lines: seq<string>) returns (r: Result<seq<string>>)
      modifies this
      ensures r.Fail? <==> Run(old(State()), lines).Fail?
      ensures r.Fail? ==> r.error == Run(old(State()), lines).error
      ensures r.Ok? ==> State() == Run(old(State()), lines).value.0
      ensures r.Ok? ==> r.value == Run(old(State()), lines).value.1
    {
      var out: seq<string> := [];
      WrittenNothing(Run(State(), lines));
      for i := 0 to |lines|
        invariant Run(old(State()), lines) == Written(out, Run(State(), lines[i..]))
      {
        assert lines[i..][1..] == lines[i + 1..];
        var newLine := ProcessLine(lines[i]);
        if newLine.Fail? {
          return Fail(newLine.error);
        }
        WrittenTwice(out, newLine.value, Run(State(), lines[i + 1..]));
        out := out + [newLine.value];
      }
      return Ok(out);
    }
  }

  /** `r` with the lines `done` written before its own. */
  function Written(done: seq<string>, r: Result<(Status, seq<string>)>): Result<(Status, seq<string>)>
  {
    match r
    case Fail(e) => Fail(e)
    case Ok((t, rest)) => Ok((t, done + rest))
  }

  lemma WrittenNothing(r: Result<(Status, seq<string>)>)
    ensures Written([], r) == r
  {
    match r
    case Fail(_) =>
    case Ok((t, rest)) => assert [] + rest == rest;
  }

  lemma WrittenTwice(done: seq<string>, line: string, r: Result<(Status, seq<string>)>)
    ensures Written(done, Written([line], r)) == Written(done + [line], r)
  {
    match r
    case Fail(_) =>
    case Ok((t, rest)) => assert done + ([line] + rest) == done + [line] + rest;
  }

  // ---------------------------------------------------------------- properties

  /** The ids met inside the conflict section, in order, with the section opened or not at the start. */
  function SectionIds(inConflict: bool, lines: seq<string>): seq<nat>
    decreases |lines|
  {
    if lines == [] then []
    else
      var open := SectionAfter(inConflict, lines[0]);
      (if open && IdLine(lines[0]) then [ParseNat(lines[0])] else []) + SectionIds(open, lines[1..])
  }

  /** The ids must be exactly `start`, `start + 1`, ... */
  predicate Consecutive(ids: seq<nat>, start: nat)
  {
    forall i :: 0 <= i < |ids| ==> ids[i] == start + i
  }

  lemma ConsecutiveCons(id: nat, rest: seq<nat>, start: nat)
    ensures Consecutive([id] + rest, start) <==> id == start && Consecutive(rest, start + 1)
  {
    var ids := [id] + rest;
    if id == start && Consecutive(rest, start + 1) {
      forall i | 0 <= i < |ids|
        ensures ids[i] == start + i
      {
        if i > 0 { assert ids[i] == rest[i - 1]; }
      }
    }
    if Consecutive(ids, start) {
      assert ids[0] == start;
      forall i | 0 <= i < |rest|
        ensures rest[i] == start + 1 + i
      {
        assert rest[i] == ids[i + 1];
      }
    }
  }

  /** The first position of `ids` that does not hold `start` plus the position. */
  function Mismatch(ids: seq<nat>, start: nat): (m: Option<nat>)
    ensures m.None? <==> Consecutive(ids, start)
    ensures m.Some? ==> m.value < |ids| && ids[m.value] != start + m.value && Consecutive(ids[..m.value], start)
    decreases |ids|
  {
    if ids == [] then None
    else if ids[0] != start then Some(0)
    else match Mismatch(ids[1..], start + 1)
      case None =>
        ConsecutiveCons(ids[0], ids[1..], start);
        assert [ids[0]] + ids[1..] == ids;
        None
      case Some(j) =>
        ConsecutiveCons(ids[0], ids[1..], start);
        assert [ids[0]] + ids[1..] == ids;
        assert ids[..j + 1] == [ids[0]] + ids[1..][..j];
        ConsecutiveCons(ids[0], ids[1..][..j], start);
        Some(j + 1)
  }

  /** The counter a run ends with, or the error that stopped it. */
  function Counter(r: Result<(Status, seq<string>)>): (c: Result<nat>)
    ensures c.Ok? <==> r.Ok?
  {
    match r
    case Fail(e) => Fail(e)
    case Ok((t, _)) => Ok(t.nextConflictId)
  }

  /**
   * What the ids of the section decide, counting from `start`: the counter just past the last id
   * when they count up by one, otherwise the first id out of place and the id expected there.
   */
  function Verdict(ids: seq<nat>, start: nat): (v: Result<nat>)
    ensures v.Ok? <==> Consecutive(ids, start)
  {
    match Mismatch(ids, start)
    case None => Ok(start + |ids|)
    case Some(j) => Fail(UnexpectedConflictId(ids[j], start + j))
  }

  /** After a first id in place, the verdict is that of the remaining ids one further on. */
  lemma VerdictShift(ids: seq<nat>, start: nat)
    requires ids != [] && ids[0] == start
    ensures Verdict(ids, start) == Verdict(ids[1..], start + 1)
  {
    match Mismatch(ids[1..], start + 1)
    case None =>
    case Some(j) => assert ids[j + 1] == ids[1..][j];
  }

  /** A run whose first line succeeds ends as the run of the rest. */
  lemma CounterAfter(s: Status, lines: seq<string>, next: Status, out: string)
    requires lines != [] && Step(s, lines[0]) == Ok((next, out))
    ensures Counter(Run(s, lines)) == Counter(Run(next, lines[1..]))
  {
  }

  lemma ExpectedLine(s: Status, line: string)
    requires SectionAfter(s.inConflict, line) && IdLine(line) && ParseNat(line) == s.nextConflictId
    ensures Step(s, line) == Ok((Status(true, s.nextConflictId + 1), Heading(s.nextConflictId)))
  {
  }

  lemma OtherLine(s: Status, line: string)
    requires !(SectionAfter(s.inConflict, line) && IdLine(line))
    ensures Step(s, line) == Ok((Status(SectionAfter(s.inConflict, line), s.nextConflictId), line))
  {
  }

  /** The expected id moves the counter on, and the verdict on the rest carries over shifted by one. */
  lemma ExpectedIdStep(s: Status, lines: seq<string>, next: Status)
    requires lines != [] && SectionAfter(s.inConflict, lines[0]) && IdLine(lines[0])
    requires ParseNat(lines[0]) == s.nextConflictId
    requires next == Status(true, s.nextConflictId + 1)
    requires Counter(Run(next, lines[1..])) == Verdict(SectionIds(true, lines[1..]), next.nextConflictId)
    ensures Counter(Run(s, lines)) == Verdict(SectionIds(s.inConflict, lines), s.nextConflictId)
  {
    ExpectedIds(s, lines);
    VerdictShift(SectionIds(s.inConflict, lines), s.nextConflictId);
    ExpectedLine(s, lines[0]);
    CounterAfter(s, lines, next, Heading(s.nextConflictId));
  }

  /** The ids of a section whose first line is the expected id. */
  lemma ExpectedIds(s: Status, lines: seq<string>)
    requires lines != [] && SectionAfter(s.inConflict, lines[0]) && IdLine(lines[0])
    requires ParseNat(lines[0]) == s.nextConflictId
    ensures var ids := SectionIds(s.inConflict, lines);
            ids != [] && ids[0] == s.nextConflictId && ids[1..] == SectionIds(true, lines[1..])
  {
    var ids := SectionIds(s.inConflict, lines);
    assert ids == [s.nextConflictId] + SectionIds(true, lines[1..]);
  }

  /** An id other than the expected one stops the run at once. */
  lemma UnexpectedIdStep(s: Status, lines: seq<string>)
    requires lines != [] && SectionAfter(s.inConflict, lines[0]) && IdLine(lines[0])
    requires ParseNat(lines[0]) != s.nextConflictId
    ensures Counter(Run(s, lines)) == Verdict(SectionIds(s.inConflict, lines), s.nextConflictId)
  {
    var ids := SectionIds(s.inConflict, lines);
    assert ids == [ParseNat(lines[0])] + SectionIds(true, lines[1..]);
    assert Verdict(ids, s.nextConflictId) == Fail(UnexpectedConflictId(ParseNat(lines[0]), s.nextConflictId));
  }

  /** A line that is not an id of the section leaves the ids and the counter as they are. */
  lemma OtherLineStep(s: Status, lines: seq<string>, next: Status)
    requires lines != [] && next == Status(SectionAfter(s.inConflict, lines[0]), s.nextConflictId)
    requires !(next.inConflict && IdLine(lines[0]))
    requires Counter(Run(next, lines[1..])) == Verdict(SectionIds(next.inConflict, lines[1..]), s.nextConflictId)
    ensures Counter(Run(s, lines)) == Verdict(SectionIds(s.inConflict, lines), s.nextConflictId)
  {
    assert SectionIds(s.inConflict, lines) == SectionIds(next.inConflict, lines[1..]);
    OtherLine(s, lines[0]);
    CounterAfter(s, lines, next, lines[0]);
  }

  /**
   * A run succeeds exactly when the section's ids count up by one from the counter, and then
   * leaves the counter just past the last id; otherwise it stops at the first id out of place,
   * naming it and the id expected there (fixup.py:32-39).
   */
  lemma {:induction false} IdsChecked(s: Status, lines: seq<string>)
    ensures Counter(Run(s, lines)) == Verdict(SectionIds(s.inConflict, lines), s.nextConflictId)
    decreases |lines|
  {
    if lines != [] {
      var open := SectionAfter(s.inConflict, lines[0]);
      if open && IdLine(lines[0]) {
        if ParseNat(lines[0]) == s.nextConflictId {
          var next := Status(open, s.nextConflictId + 1);
          IdsChecked(next, lines[1..]);
          ExpectedIdStep(s, lines, next);
        } else {
          UnexpectedIdStep(s, lines);
        }
      } else {
        IdsChecked(Status(open, s.nextConflictId), lines[1..]);
        OtherLineStep(s, lines, Status(open, s.nextConflictId));
      }
    }
  }

  /** From the initial state the ids of a successful run are 1, 2, 3, ... */
  lemma IdsFromOne(lines: seq<string>)
    ensures Run(Initial, lines).Ok? <==> Consecutive(SectionIds(false, lines), 1)
    ensures Run(Initial, lines).Ok? ==> Run(Initial, lines).value.0.nextConflictId == 1 + |SectionIds(false, lines)|
  {
    IdsChecked(Initial, lines);
  }

  /** Whether the conflict section is open after `lines`, when it was open or not before them. */
  function OpenAfter(inConflict: bool, lines: seq<string>): bool
    decreases |lines|
  {
    if lines == [] then inConflict else OpenAfter(SectionAfter(inConflict, lines[0]), lines[1..])
  }

  /**
   * A successful run writes one line per line read: for an id line with the section open after
   * it, the heading of that id, and otherwise the line itself (fixup.py:23-41).
   */
  lemma {:induction false} OneLineEach(s: Status, lines: seq<string>)
    requires Run(s, lines).Ok?
    ensures |Run(s, lines).value.1| == |lines|
    ensures forall i :: 0 <= i < |lines| ==>
              Run(s, lines).value.1[i]
              == if OpenAfter(s.inConflict, lines[..i + 1]) && IdLine(lines[i]) then Heading(ParseNat(lines[i])) else lines[i]
    decreases |lines|
  {
    if lines != [] {
      var next := Step(s, lines[0]).value.0;
      OneLineEach(next, lines[1..]);
      var out := Run(s, lines).value.1;
      assert out == [Step(s, lines[0]).value.1] + Run(next, lines[1..]).value.1;
      forall i | 0 <= i < |lines|
        ensures out[i] == if OpenAfter(s.inConflict, lines[..i + 1]) && IdLine(lines[i]) then Heading(ParseNat(lines[i])) else lines[i]
      {
        assert lines[..i + 1][0] == lines[0];
        assert lines[..i + 1][1..] == lines[1..][..i];
        if i > 0 {
          assert out[i] == Run(next, lines[1..]).value.1[i - 1];
          assert lines[i] == lines[1..][i - 1];
          assert lines[1..][..i] == lines[1..][..(i - 1) + 1];
        }
      }
    }
  }

  /** Lines outside the section, digit-only or not, are copied and the counter stays put. */
  lemma OutsideUntouched(s: Status, line: string)
    requires !SectionAfter(s.inConflict, line)
    ensures Step(s, line) == Ok((Status(false, s.nextConflictId), line))
  {
  }

  /** "-- page 18" opens the section and "-- page 190" closes it (fixup.py:24-30). */
  lemma SectionMarkers(s: Status)
    ensures Step(s, "-- page 18") == Ok((s.(inConflict := true), "-- page 18"))
    ensures Step(s, "-- page 190") == Ok((s.(inConflict := false), "-- page 190"))
  {
    assert !IdLine("-- page 18") by { assert !IsDigit("-- page 18"[0]); }
    assert !IdLine("-- page 190") by { assert !IsDigit("-- page 190"[0]); }
  }

  /** verify.py reads each heading written here back as the same conflict id. */
  lemma HeadingReadBack(n: nat)
    ensures Validator.ConflictHeading(Heading(n)) == Some(n)
  {
    Validator.HeadingPrinted(Heading(n), n);
  }
}
