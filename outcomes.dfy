/**
 * Failure values shared by the three scripts.
 *
 * Every fatal path of the scripts (a call of `error()`, which prints and exits, a failed
 * `assert`, and a `KeyError` or `IndexError` that ends the run) becomes a `Fail` carrying
 * an `Error` that names the site.  Printed diagnostics that do not stop the run are not
 * errors.
 */
module Outcomes {

  datatype Option<+T> = None | Some(value: T)

  datatype Result<+T> = Ok(value: T) | Fail(error: Error)

  datatype Error =
    /** build.py:253-254: a link piece that is neither empty nor led by digits. */
    | InvalidLinks(link: string)
    /** build.py:206-208: the rest of a link list does not start with a "(...)" group. */
    | InvalidLinkList(id: string, links: string)
    /** verify.py:160-161 and 223-224: a link the grammar rejects. */
    | UnparsableLink(id: string, link: string)
    /** verify.py:220-227: a POST line whose rest is not a "(...)" group of allowed characters. */
    | LinksNotFound(id: string, rest: string)
    /** verify.py:182-187: a "{" token that is not one of the known structural markers. */
    | InvalidToken(line: string)
    /** fixup.py:36-37: a conflict id out of sequence. */
    | UnexpectedConflictId(found: nat, expected: nat)
    /** build.py:134, 136, 154, 157: a name entered twice while building a swap table. */
    | DuplicateName(name: string)
    /** build.py:572-573: an abbreviation missing from the abbreviation table (KeyError). */
    | UnknownAbbreviation(word: string)
    /** build.py:584-586: a "her" with a HER directive whose senses are used up (pop of an empty list). */
    | MissingHerInfo(word: string)
    /** build.py:591-592: a HER sense other than "obj" or "poss". */
    | UnknownHerSense(sense: string)
    /** build.py:416, 431, 439-441: PRE inside a sub-entry, POST outside one, or body text outside one. */
    | StructureViolation(line: string)
    /** build.py:422, verify.py:205 and 209: a PRE whose conflict id has no entry in `links` (KeyError). */
    | UnknownConflict(id: string)
    /** verify.py:205: a lettered PRE of a conflict that has no earlier sub-entry (IndexError). */
    | NoPreviousClause(id: string)
}
