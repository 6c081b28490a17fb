# Plotto scripts: a verified model

Plotto is William Wallace Cook's 1928 book of plot formulas, transcribed into a plain-text
master file. In that file each conflict opens with a `Conflict{N}` heading. Its sub-entries
open with `PRE:` lines, carry body text with parenthesised cross-references, and close with
`POST:` lines. Three Python 2 scripts work on the file:

- `scripts/verify.py` checks the structure and every cross-reference ("link") against a
  grammar. The grammar covers entry ids, clause letters, `-1`..`-4` suffixes, star
  modifiers, and character-tag transforms such as `tr A & B` and `ch A to B`.
- `scripts/build.py` writes the book as HTML. It renders every link as a hyperlink and
  every `@{...}` tag as an inline link. Its directives are `-- page`, `-- FORMAT...`,
  `-- HR`, `-- ID:`, `-- HER`, `-- U`, `-- HUSBAND verb` and `-- MISTRESS master`. With
  the character letters set to `f`/`m`, it swaps the gender of every word first:
  gendered terms, character abbreviations, and "her" by the senses the `-- HER`
  directive gives. For the next line, `-- U` keeps a bare "U" as written,
  `-- HUSBAND verb` turns "husband" or "Husband" into "husband", and
  `-- MISTRESS master` turns "mistress" or "Mistress" into "master".
- `scripts/fixup.py` renumbers the bare conflict ids of the conflict section (from
  `-- page 18` to `-- page 190`) into `Conflict{N}` headings. It checks along the way that
  they count up from 1.

The model is written in Dafny, one module per concern:

| file | module | models |
|---|---|---|
| `outcomes.dfy` | `Outcomes` | `Result`/`Option` and one `Error` constructor per fatal site of the scripts |
| `strings.dfy` | `Strings` | the Python string operations the scripts use (`in`, `split`, `join`, `strip`, `replace`, `int()`, `'%d'`) |
| `link_grammar.dfy` | `LinkGrammar` | `validate_link`; each `re.match` is a list of remainders in the order the regex engine tries them, and the first is taken |
| `link_render.dfy` | `LinkRender` | `parse_link`, `parse_links`, `add_tags` and the scan of `write_conflict_body` |
| `validator.dfy` | `Validator` | `verify_conflict_text`, `process_line` and `process` of verify.py, as a class proved against `Step`/`Run` |
| `gender_swap.dfy` | `GenderSwap` | the two swap tables, `preprocess_word` and `preprocess_line` |
| `builder.dfy` | `Builder` | `process_line`, the `write_conflict_*` writers and `process` of build.py, as a class proved against `Step`/`Cycle`/`Run` |
| `fixup.dfy` | `Fixup` | `process_line` and `process` of fixup.py, as a class proved against `Step`/`Run` |

Each script stops at its first fatal error, through `error()`, `sys.exit` or an uncaught
`KeyError`/`IndexError`. Every such exit is a `Fail` with its own `Error` constructor, so
each run is modelled up to its first failure. Where the descriptions of the scripts and
their code disagree, the model follows the code:

- `build.py` renders a piece only if it is empty or starts with digits. `verify.py` also
  accepts a lone clause letter such as `(b)`, so a link can pass verification and still be
  fatal to the build. The converse holds: every other valid link renders
  (`LinkRender.RenderValid`, `LinkRender.LoneLetterGap`).
- With no `-- HER` directive, "her" becomes "his". With a directive whose senses are used
  up, the pop of an empty list is fatal (`MissingHerInfo`). A directive never falls back
  to a default sense.
- verify.py only prints a report when the clause letters of a conflict are not
  contiguous; it does not stop. Two cases are fatal: a PRE lettered b to m with no
  earlier sub-entry in the conflict (IndexError), and a PRE whose conflict has no heading
  (KeyError). A first PRE lettered a is accepted.

## Model

| member | source | states |
|---|---|---|
| LinkGrammar.ValidPieceShape | scripts/verify.py:55-67 | a valid piece is empty, a lone clause letter, or starts with a digit; nothing else survives the reference stage |
| LinkGrammar.SequenceOf | scripts/verify.py:37-44 | a link made of two or more pieces without ";" joined by ";" is valid exactly when every stripped piece is valid |
| LinkGrammar.AlternativesOf | scripts/verify.py:46-53 | a link made of two or more alternatives joined by " or ", none holding ";" or " or " or ending in " or", is valid exactly when every stripped alternative is valid |
| LinkGrammar.SequenceOfTwo | scripts/verify.py:37-53 | `a;b` with no other ";" is valid exactly when both stripped sides are; " or " is split only inside a side |
| LinkGrammar.ReferenceOf | scripts/verify.py:64 | the reference pattern takes an entry id and its comma-separated clause letters whole, and leaves exactly what follows |
| LinkGrammar.ReferenceAccepted | scripts/verify.py:63-67 | an entry id followed by any list of clause letters `a, b, c` is a valid link |
| LinkGrammar.WithNoteAccepted | scripts/verify.py:142 | an entry id followed by a `, with …` note is a valid link |
| LinkGrammar.EntryLetterAccepted | scripts/verify.py:64 | `<n>a` is valid for every entry id n |
| LinkGrammar.EntryStrayLetterRejected | scripts/verify.py:142-147 | `<n>x` is rejected: a letter outside a-h is left over and is no trailing note |
| LinkGrammar.EntryExtraWordRejected | scripts/verify.py:142-147 | `<n>a extra` is rejected: a word that starts no production is left over |
| LinkGrammar.RestRejected | scripts/verify.py:142-147 | after a reference, a rest that no later stage consumes and that is not a trailing note rejects the piece |
| LinkGrammar.NoNote | scripts/verify.py:142 | a leftover that does not start with ", " is no trailing note |
| LinkGrammar.EntryPiece | scripts/verify.py:64-147 | an entry id followed by a rest that starts with no digit, comma or clause letter is decided by that rest |
| LinkGrammar.SuffixesInOrder | scripts/verify.py:70 | the suffix stage consumes any in-order selection of `-1`..`-4`, and nothing after it |
| LinkGrammar.SuffixedReferenceAccepted | scripts/verify.py:69-73 | an entry id followed by any in-order selection of suffixes is valid |
| LinkGrammar.OutOfOrderLeavesOver | scripts/verify.py:70 | after `-2-1` the `-1` is left over |
| LinkGrammar.SuffixesOutOfOrderRejected | scripts/verify.py:69-73 | `12-2-1` is rejected: suffixes are only accepted in increasing order |
| LinkGrammar.SuffixesIdle | scripts/verify.py:70 | a text not led by a dash passes the suffix stage untouched |
| LinkGrammar.StarsHead | scripts/verify.py:76 | `\*{1,4}` over k stars first takes the longest run it may |
| LinkGrammar.DashStarsHead | scripts/verify.py:76 | ` -` followed by k stars (1 to 4) is consumed whole as the first choice |
| LinkGrammar.StarsAccepted | scripts/verify.py:75-79 | an entry id followed by ` -*` to ` -****` is valid |
| LinkGrammar.FiveStarsRejected | scripts/verify.py:75-79 | ` -*****` is rejected: the modifier stops at four stars and one is left over |
| LinkGrammar.StarIdle | scripts/verify.py:76 | a text not led by a space starts no star modifier |
| LinkGrammar.LongTagsFirst | scripts/verify.py:26-28 | `AUX`, `BR-A` and `BR-B` are matched whole, before the `A` and `B` alternatives that share their first letter |
| LinkGrammar.TagOfA | scripts/verify.py:29 | `A` followed by a space or by nothing is the tag `A`, not the start of `AUX` |
| LinkGrammar.TagOfB | scripts/verify.py:30 | `B` followed by a space, a comma or nothing is the tag `B` |
| LinkGrammar.TagOfCH | scripts/verify.py:33 | `CH` followed by a space or by nothing is a bare tag |
| LinkGrammar.NotATag | scripts/verify.py:26-35 | a text that starts with neither a tag word's initial nor an opening curly quote matches no tag |
| LinkGrammar.OnlyQuoted | scripts/verify.py:26-35 | a text whose first character starts no tag word can only match the quoted-name alternative |
| LinkGrammar.QuotedTag | scripts/verify.py:34 | a curly-quoted name is a tag, and the lazy `.*?` stops at its first closing quote |
| LinkGrammar.FirstClosingQuote | scripts/verify.py:34 | after an opening quote the closing quotes are tried left to right |
| LinkGrammar.TransformsIdle | scripts/verify.py:81-139 | a text not led by " t", " c" or " a" passes all ten transform stages untouched |
| LinkGrammar.NoTransposeStart | scripts/verify.py:81-97 | a text not led by " tr " passes the three transpose stages untouched |
| LinkGrammar.NoChangeStart | scripts/verify.py:99-133 | a text not led by " ch " passes the six change stages untouched |
| LinkGrammar.NoCompoundChange | scripts/verify.py:99-127 | without "&" none of the compound change stages can match |
| LinkGrammar.TransposeThenChange | scripts/verify.py:81-85 | ` tr A & B, ch B to CH` is taken whole by the transpose-then-change stage and leaves nothing after the transforms |
| LinkGrammar.TransposeThenChangeAccepted | scripts/verify.py:81-147 | `<n> tr A & B, ch B to CH` is valid |
| LinkGrammar.ChangeTransform | scripts/verify.py:129-133 | a plain ` ch X to Y` whose tags are matched whole is consumed by the change stage |
| LinkGrammar.ChangeLeavesNothing | scripts/verify.py:99-139 | after ` ch X to Y`, nothing is left for the trailing-note check |
| LinkGrammar.NamesPair | scripts/verify.py:130 | two curly-quoted names joined by " to " form a pair taken whole |
| LinkGrammar.AddTransform | scripts/verify.py:135-139 | ` add T` with a tag that ends the text: no earlier transform can start, and `add` takes it all |
| LinkGrammar.AddAccepted | scripts/verify.py:135-147 | `<n> add T` is valid for every tag T the alternation matches whole |
| LinkGrammar.AddAuxAccepted | scripts/verify.py:136 | `<n> add AUX` is valid: the longest front tag is taken whole |
| LinkRender.RenderPiece | scripts/build.py:248-259 | a piece renders exactly when it is empty or starts with a digit; a digit-led piece becomes an anchor to its leading digits labelled with the whole piece, any other fails naming the piece |
| LinkRender.RenderOk | scripts/build.py:220-259 | a link renders exactly when every stripped piece is empty or starts with a digit |
| LinkRender.RenderValid | scripts/build.py:220-259 | every link that verify.py accepts and that has no lone clause letter among its pieces renders without error |
| LinkRender.LoneLetterGap | scripts/build.py:248-254 | a lone clause letter such as `b` is a valid link but is fatal to the renderer |
| LinkRender.RenderSingle | scripts/build.py:251-259 | a piece `<id><rest>` is one anchor to conflict id, labelled with the whole piece, ampersands escaped |
| LinkRender.RenderSequence | scripts/build.py:223-246 | `a;b` renders the left side first, whose failure is the whole result; otherwise the two anchors are joined with " ; " |
| LinkRender.EscapeFree | scripts/build.py:258 | a label without "&" is shown as written |
| LinkRender.EscapeAmp | scripts/build.py:258 | each "&" becomes `&amp;` and nothing else changes |
| LinkRender.ParseLink | scripts/build.py:220-259 | the loop-and-recursion of `parse_link` computes the rendering `RenderLink` |
| LinkRender.LeadingGroupOf | scripts/build.py:206 | the lazy leading group of `(g)rest` is g, and one space after it is skipped |
| LinkRender.OneGroup | scripts/build.py:203-216 | a single group `(g)` renders as one span around the rendering of g |
| LinkRender.GroupThen | scripts/build.py:203-216 | a leading group renders as its span, then a space and the spans of what follows |
| LinkRender.ParseLinks | scripts/build.py:203-216 | the loop of `parse_links` computes `RenderLinks`; text that starts with no group is fatal |
| LinkRender.AddTagsPlain | scripts/build.py:549-555 | text without "@{" is left alone |
| LinkRender.AddTagsUnclosed | scripts/build.py:549-555 | text without "}" is left alone |
| LinkRender.AddTagsLast | scripts/build.py:549-555 | `pre @{x} post`, where x holds no further "@{" and post no "}", is tagged pre, then the rendering of x, then post unchanged |
| LinkRender.TagAtOf | scripts/build.py:550 | the greedy pattern finds the last "@{" and the last "}" of `pre @{x} post` |
| LinkRender.ParentheticalOf | scripts/build.py:528 | a parenthetical is found exactly where it was written: the text before the first "(" and the text up to the next ")" |
| LinkRender.NoParenthetical | scripts/build.py:528 | text without "(" has no parenthetical |
| LinkRender.BodyKeepsAside | scripts/build.py:537-538 | a parenthetical that does not start with a digit is kept as written |
| LinkRender.BodyLinks | scripts/build.py:533-536 | a parenthetical that starts with a digit becomes one link-group span |
| LinkRender.BodyPlain | scripts/build.py:542-544 | body text without parentheses is only tagged |
| LinkRender.RenderBody | scripts/build.py:522-546 | the scan of `write_conflict_body` computes `BodyScan` |
| Validator.Step | scripts/verify.py:169-230 | only a line that is no directive can fail; a step forgets no conflict it has seen and unprints no report, and prints at most one more |
| Validator.Run | scripts/verify.py:232-242 | over a run, every conflict seen stays known and every report printed stays, at most one per line |
| Validator.Parser.constructor | scripts/verify.py:16-22 | a new validator is outside the conflict section with no conflict, no text and no links |
| Validator.Parser.VerifyConflictText | scripts/verify.py:149-166 | the loop over the gathered body computes `CheckBody` on the stripped, space-joined lines |
| Validator.Parser.ProcessLine | scripts/verify.py:169-230 | fails exactly when `Step` fails, with the same error, and otherwise leaves the state `Step` gives |
| Validator.Parser.ProcessPre | scripts/verify.py:195-211 | the PRE branch: fails exactly when `PreStep` fails, with the same error, and otherwise leaves the state `PreStep` gives |
| Validator.Parser.Process | scripts/verify.py:238-239 | fails exactly when `Run` fails, with the same error, and otherwise leaves the state `Run` gives |
| Validator.TokenPrefixOf | scripts/verify.py:182 | the token check sees exactly the text before the last "{" |
| Validator.BadTokenFatal | scripts/verify.py:182-187 | a non-comment line whose "{" follows an unknown token ends the run |
| Validator.KnownTokensPass | scripts/verify.py:182-186 | a token ending in "@", or one of the four structural markers, passes |
| Validator.HeadingOf | scripts/verify.py:189-191 | a heading's digits are read as the conflict id |
| Validator.HeadingPrinted | scripts/verify.py:189-191 | a heading written with a printed number is read back as that number |
| Validator.HeadingStep | scripts/verify.py:189-193 | a heading opens an empty clause list for its id and changes nothing else |
| Validator.CommentStep | scripts/verify.py:170-180 | comments change nothing, except that "-- page 190" leaves the conflict section |
| Validator.PreLine | scripts/verify.py:194-211 | a PRE line that passes the token check does what `PreStep` does with its clause letter |
| Validator.PreWithoutHeading | scripts/verify.py:195-209 | a PRE whose conflict has no heading ends the run, naming the conflict |
| Validator.ConflictContiguity | scripts/verify.py:189-211 | after `Conflict{n}` and a run of PRE lines, the run fails exactly when the first PRE is lettered b to m; otherwise conflict n records the letters in order and the reports printed are exactly `Gaps` of them |
| Validator.PresContiguity | scripts/verify.py:195-211 | from a conflict with no clause yet, a run of PRE lines fails exactly when the first is lettered b to m, and otherwise records the letters and prints exactly their `Gaps` |
| Validator.GapsSnoc | scripts/verify.py:203-208 | one more letter adds at most its own report: the one for a letter b to m that does not follow the letter before it |
| Validator.NoGapsInOrder | scripts/verify.py:203-208 | letters that each follow the one before print no report |
| Validator.UnletteredPre | scripts/verify.py:199-200 | a PRE without a letter records "-" |
| Validator.PostLine | scripts/verify.py:213-227 | a POST fails on its body's links first, then on its own groups, and otherwise closes the sub-entry; its body text stays until the next PRE clears it |
| Validator.BodyChecked | scripts/verify.py:149-166 | the body scan fails exactly when a parenthetical it visits starts with a digit and is not a valid link |
| Validator.BodyPassesOver | scripts/verify.py:158-164 | a parenthetical that does not start with a digit is passed over |
| Validator.BodyWithoutParentheses | scripts/verify.py:152-166 | body text without "(" has nothing to check |
| Validator.PostGroupOf | scripts/verify.py:220 | a group of allowed characters is found whole, and one space after it is skipped; the allowed characters are those of the byte class, including every character encoded only in the bytes of “, ” and ’ |
| Validator.ByteClassChars | scripts/verify.py:220 | the characters beyond ASCII that the byte class admits are exactly the three quotes and thirteen others (U+2000, ♀ U+2640, ❜ U+275C, ❝ U+275D, …) |
| Validator.FemaleSignAccepted | scripts/verify.py:218-223 | the group `(1, with ♀)` is found whole and passes the POST check |
| Validator.GroupsAccepted | scripts/verify.py:218-223 | groups of allowed characters that are all valid links pass the POST check |
| Validator.GroupRejected | scripts/verify.py:222-224 | a group of allowed characters that is not a valid link ends the run |
| Validator.NotAGroup | scripts/verify.py:225-227 | leftover text that does not start a group ends the run |
| Validator.RunKeepsLetters | scripts/verify.py:199-209 | every clause letter a whole run records is "-" or a letter from a to m |
| Fixup.Step | scripts/fixup.py:23-41 | only an id line inside the section (as the page markers leave it) can fail; the section flag follows the markers; the counter moves on by at most one, and the line is rewritten exactly when it does |
| Fixup.Run | scripts/fixup.py:57-59 | a successful run writes one line per line read, and its counter moves on by at most one per line |
| Fixup.Parser.constructor | scripts/fixup.py:13-16 | a new renumberer is outside the section with its counter at 1 |
| Fixup.Parser.ProcessLine | scripts/fixup.py:23-41 | fails exactly when `Step` fails, with the same error; otherwise returns the line and the state `Step` gives |
| Fixup.Parser.Process | scripts/fixup.py:43-62 | fails exactly when `Run` fails, with the same error; otherwise returns the lines and the state `Run` gives |
| Fixup.IdsChecked | scripts/fixup.py:32-39 | a run succeeds exactly when the section's ids count up by one from the counter, and then leaves the counter just past the last id; otherwise it fails at the first id out of place, naming it and the id expected |
| Fixup.IdsFromOne | scripts/fixup.py:13-39 | from a new renumberer, a run succeeds exactly when the section's ids read 1, 2, 3, … |
| Fixup.OneLineEach | scripts/fixup.py:23-41 | line i of a successful run's output is the `Conflict{N}` heading of line i when that line is an id and the page markers up to it leave the section open, and line i itself otherwise |
| Fixup.OutsideUntouched | scripts/fixup.py:32-41 | lines outside the section, digit-only or not, are copied and the counter stays put |
| Fixup.SectionMarkers | scripts/fixup.py:24-30 | "-- page 18" opens the section and "-- page 190" closes it |
| Fixup.UnexpectedIdStep | scripts/fixup.py:36-37 | an id other than the expected one stops the run at once |
| Fixup.HeadingReadBack | scripts/fixup.py:39 | verify.py reads every heading written here back as the same conflict id |
| GenderSwap.GenderTables | scripts/build.py:127-158 | the two tables of build.py are what filling its two lists gives, and neither filling fails |
| GenderSwap.BuildTables | scripts/build.py:127-158 | the two loops of `__init__`, run on build.py's lists, both run to the end and leave the tables those lists give |
| GenderSwap.BuildCharTable | scripts/build.py:130-136 | the loop computes `CharTable`, failing on a repeated abbreviation |
| GenderSwap.CharTableSwaps | scripts/build.py:128-136 | the built abbreviation table maps each name of a pair to its partner and back, and holds no other key |
| GenderSwap.GenderedCharsBuild | scripts/build.py:81-89 | the abbreviation list has no repeated name, so building its table succeeds |
| GenderSwap.InsertOk | scripts/build.py:134 | filling a table succeeds exactly when no key repeats |
| GenderSwap.InsertContents | scripts/build.py:136 | a filled table holds exactly the keys entered, each with its value |
| GenderSwap.BuildReplaceTable | scripts/build.py:139-158 | the loop computes `ReplaceTable`, failing on a repeated term |
| GenderSwap.TermTableMaps | scripts/build.py:139-158 | the term table maps each unstarred name to its partner without the star; a starred name is a key only where it also occurs unstarred |
| GenderSwap.GenderedTermsBuild | scripts/build.py:139-158 | build.py's term list has no empty name and fills its table without tripping either duplicate-key assert |
| GenderSwap.StarredNotKeys | scripts/build.py:15-77 | the four names the list marks with "*" are never entered as keys |
| GenderSwap.GenderedTermsNamed | scripts/build.py:20-77 | no name of the term list is empty |
| GenderSwap.GenderedTermsTargets | scripts/build.py:15-158 | in the term table build.py builds, "her", "lover", "unmarried" and "gentlemen's" are never keys |
| GenderSwap.GenderedTermsPartners | scripts/build.py:15-158 | in the term table build.py builds, "him" and "his" become "her", "he" becomes "she", "mistress" becomes "lover", "maiden" becomes "unmarried" and "ladies'" becomes "gentlemen's" |
| GenderSwap.SwapWord | scripts/build.py:558-607 | a word's swap changes no hint except that a "her" under a HER hint uses up exactly its first sense |
| GenderSwap.SwapSuffixed | scripts/build.py:562-567 | `X-A` and `X-B`, with X an abbreviation, become the partner with the same suffix |
| GenderSwap.SwapBare | scripts/build.py:569-573 | a bare abbreviation is swapped, except "U" under a `-- U` hint |
| GenderSwap.SwapBareTwice | scripts/build.py:569-573 | in a table that maps each abbreviation to its partner and back, bare to bare, swapping a bare abbreviation twice gives it back, unless a `-- U` hint keeps a "U" on either swap |
| GenderSwap.SwapSuffixedTwice | scripts/build.py:562-566 | swapping `X-A` or `X-B` twice gives it back, in a table that maps X to its partner and back |
| GenderSwap.CharTableSwapsBack | scripts/build.py:128-136 | a table filled from pairs that join bare to bare abbreviations, with no "-" in any name, maps each key to its partner and back, bare to bare |
| GenderSwap.GenderedCharsPaired | scripts/build.py:81-89 | build.py's abbreviation pairs join two bare abbreviations or two others, with no "-" in any name |
| GenderSwap.SwapHer | scripts/build.py:581-595 | "her" becomes "his" without a HER hint; with one, the next sense is used up and gives "him" or "his"; a missing or unknown sense is fatal; the capital is kept |
| GenderSwap.HusbandHint | scripts/build.py:597-598 | under a `-- HUSBAND verb` hint, "husband" and "Husband" both become lower-case "husband" |
| GenderSwap.MistressHint | scripts/build.py:599-600 | under a `-- MISTRESS master` hint, "mistress" and "Mistress" both become lower-case "master" |
| GenderSwap.SwapTerm | scripts/build.py:597-606 | a word found in the term table is replaced by its partner with the capital kept, unless a hint or the "her" rule comes first |
| GenderSwap.SwapTermTwice | scripts/build.py:597-606 | a lower-case word whose partner maps back to it is restored by a second swap |
| GenderSwap.SwapNothing | scripts/build.py:607 | a word no rule applies to is left as it is |
| GenderSwap.TokensRebuild | scripts/build.py:615 | joining the tokens of a line gives back the line |
| GenderSwap.TokensShape | scripts/build.py:615 | the tokens alternate word, separator, word: a separator token is one ASCII separator, or empty where a byte of a multi-byte character splits the line; a word token holds no separator |
| GenderSwap.WordBeforeSplitSwapped | scripts/build.py:615-620 | a word directly followed by a character the byte-level split cuts before, such as a closing curly quote, is swapped as a word of its own |
| GenderSwap.HerBeforeSplit | scripts/build.py:581-586 | "her" directly followed by such a character is a "her" of the line, and uses up a HER sense |
| GenderSwap.SeparatorKept | scripts/build.py:615-620 | a separator token, one ASCII separator or empty, is never altered by the swap, nor are the hints |
| GenderSwap.HerSensesUsed | scripts/build.py:584-586 | the senses of a HER hint are used up left to right, one per "her" of the line |
| GenderSwap.DirectiveKept | scripts/build.py:610-611 | a directive line passes through untouched, hints included |
| Builder.Parser.constructor | scripts/build.py:94-182 | a new builder holds the two tables filled from build.py's lists, the initial state (no open conflict or sub-entry, no format mode, no hints, no output) and the letters m and f |
| Builder.Parser.SetAB | scripts/build.py:184-186 | sets the two character letters from the first two characters of its argument, and nothing else |
| Builder.Parser.WriteConflictHeader | scripts/build.py:507-510 | writes the opening div of the current conflict and records its position as an opening |
| Builder.Parser.WriteConflictFooter | scripts/build.py:512-514 | writes the closing div and records its position as a closing |
| Builder.Parser.WriteConflictBody | scripts/build.py:522-547 | writes the rendered body, then the rendered POST links, or fails as the rendering does |
| Builder.Parser.ProcessFormat | scripts/build.py:303-346 | the FORMAT directives and "-- HR" do what `FormatStep` says |
| Builder.Parser.ProcessHeading | scripts/build.py:405-412 | a heading does what `HeadingStep` says: close the open conflict div, then open the new one |
| Builder.Parser.ProcessPre | scripts/build.py:414-427 | a PRE line does what `PreStep` says |
| Builder.Parser.ProcessPost | scripts/build.py:429-437 | a POST line does what `PostStep` says |
| Builder.Parser.ProcessParagraphLine | scripts/build.py:349-357 | a line inside a FORMAT_BEGIN block does what `ParagraphStep` says |
| Builder.Parser.ProcessNextLine | scripts/build.py:363-370 | the line after `FORMAT:` does what `NextLineStep` says |
| Builder.Parser.ProcessLinksLine | scripts/build.py:372-380 | the line after `FORMAT_LINKS:` does what `LinksStep` says |
| Builder.Parser.ProcessLine | scripts/build.py:262-442 | fails exactly when `Step` fails, with the same error, and otherwise leaves the state `Step` gives |
| Builder.Parser.ProcessRaw | scripts/build.py:639-643 | one pass of the loop (strip, swap with the previous line's hints, process) does what `Cycle` says |
| Builder.Parser.Process | scripts/build.py:623-649 | the whole loop, then the closing of the last conflict div, ends as `Run` followed by `Finish` |
| Builder.DirectiveStep | scripts/build.py:270-347 | a directive sets exactly the hints it names, only adds output, and neither opens nor closes a conflict div |
| Builder.TextStep | scripts/build.py:349-442 | a line that is no directive keeps the hints and only adds output |
| Builder.Step | scripts/build.py:262-442 | a line that succeeds leaves the hints of a directive, or none after any other line, and only adds output |
| Builder.Cycle | scripts/build.py:639-643 | one pass of the loop only adds output |
| Builder.Run | scripts/build.py:639-643 | a whole run only adds output: what was written is never taken back |
| Builder.RunStops | scripts/build.py:639-643 | a run stops at the first line that fails, with its error |
| Builder.RunGoesOn | scripts/build.py:639-643 | after a line that succeeds, a run goes on as the run of the rest |
| Builder.FormatDirectiveModes | scripts/build.py:308-342 | every FORMAT directive clears the four modes, then sets only the one it names |
| Builder.OtherDirectiveKeepsModes | scripts/build.py:270-347 | a directive that is not a FORMAT directive leaves the modes as they were |
| Builder.TextClearsModes | scripts/build.py:349-380 | a line that is not a directive only clears modes, and never sets one |
| Builder.StepKeepsOneMode | scripts/build.py:303-380 | no line can leave two format modes set at once |
| Builder.RunKeepsOneMode | scripts/build.py:303-380 | no run of the loop, swap included, ever leaves two format modes set at once |
| Builder.NextLineOnce | scripts/build.py:363-370 | the line after `FORMAT:` is written with the class and the pending id, and both are cleared after it |
| Builder.LinksLineOnce | scripts/build.py:372-380 | the line after `FORMAT_LINKS:` is rendered as links, and the mode is cleared after it |
| Builder.ModeShadowsSection | scripts/build.py:349-380 | while a format mode is set, a line that is not a directive goes to that mode, and the conflict section does not see it |
| Builder.PreInsideEntryFails | scripts/build.py:416 | a PRE while a sub-entry is open is fatal |
| Builder.PostOutsideEntryFails | scripts/build.py:431 | a POST with no open sub-entry is fatal |
| Builder.BodyOutsideEntryFails | scripts/build.py:439-441 | body text outside a sub-entry is fatal |
| Builder.BodyInsideEntryGathered | scripts/build.py:442 | body text inside a sub-entry is appended to the body and nothing is written yet |
| Builder.PreOpens | scripts/build.py:414-422 | a PRE that succeeds opens a sub-entry with an empty body and records its clause letter |
| Builder.PostCloses | scripts/build.py:429-437 | a POST that succeeds closes the sub-entry |
| Builder.HeadingClosesFirst | scripts/build.py:409-411 | a heading closes the open conflict div before it opens its own |
| Builder.OnlyHeadingsMarkDivs | scripts/build.py:405-412 | a conflict heading of the section is the only line that opens or closes a conflict div |
| Builder.StepKeepsDivs | scripts/build.py:405-412 | each line keeps the conflict divs in the output well nested: openings and closings alternate, each closing after its opening, and only the last may be unclosed |
| Builder.RunKeepsDivs | scripts/build.py:405-412 | over a whole run, the opening and closing divs in the output alternate, and every div opened is closed except the one still open |
| Builder.FinishKeepsDivs | scripts/build.py:644-645 | the closing div `process` writes last closes the open div, if any, and keeps the divs alternating |
| Builder.DivsClosedAtEnd | scripts/build.py:623-645 | after `process` closes the last div, the output holds as many closing divs as opening ones, alternating, each after its opening |
| Builder.TextResetsHints | scripts/build.py:264-268 | a line that is not a directive leaves no hints behind |
| Builder.DirectiveHintsReachNextLine | scripts/build.py:284-296 | the hints a directive sets survive it, so they reach the swap of the next line |
| Builder.HerDirective | scripts/build.py:284-286 | `-- HER obj poss` gives the senses of the next line's "her"s, in order |
| Strings.SplitJoin | scripts/verify.py:39 | splitting the join of pieces in which the separator cannot start gives back the pieces |
| Strings.JoinSplit | scripts/verify.py:39 | joining the pieces of a split with the same separator gives back the string |
| Strings.SplitPiecesFree | scripts/verify.py:39 | no piece of a split contains the separator |
| Strings.ParsePrinted | scripts/fixup.py:39 | reading back a printed number gives the number |

## Left out

- The HTML chrome of build.py: the page head, the navbar, the script and style links, the
  table of contents. The model keeps the chunks each line writes, not the page around them.
- File I/O, command-line parsing, configuration and the main functions of the three
  scripts. `process` takes the lines of the input as a sequence. For fixup.py it returns
  the lines it would write.
- Lines are read without their newline. build.py strips every line. verify.py's patterns
  end in `$`, which in Python also matches before a trailing newline.
- `add_to_dict` and `write_dict` (the word-frequency dictionary of build.py) are not part
  of this model. They only feed a side file.
- The wording of the printed diagnostics. verify.py's report of non-contiguous clause
  letters is kept as a `Report` record in `reports`; the "missing her info" line printed
  before the fatal pop of build.py is not kept, since the run fails there.
- `-- A` (build.py:287-289) sets a hint that nothing reads, so it is not modelled.
- The Python 2 regex engine is not modelled in general. Each pattern is written out as its
  own list of remainders in the engine's order of trial.
- Text is a sequence of characters. build.py splits lines on bytes, which the model
  expresses per character (`SplitsBefore`, `SplitsAfter`): the byte-level split cuts a
  line before and after certain multi-byte characters. The half-characters it makes when
  it cuts inside a character are not represented; the character stays whole in its
  token. verify.py's patterns are byte strings: its literal curly quotes match the same
  text as characters would, and its one class that holds them (verify.py:220) is written
  out as the set of characters whose encoding uses only the class's bytes (`LinkChar`).
- `build-all.py` and the other scripts of the repository are not part of this model.
- Builder.Parser.Process: the positions `divOpens` and `divCloses` are ghost
  bookkeeping with no counterpart in build.py. They only serve to state that the
  conflict divs in the output nest.
- GenderSwap.SwapLine carries no contract of its own. Its properties are the lemmas about
  its tokens and words (`TokensRebuild`, `SeparatorKept`, `HerSensesUsed`,
  `DirectiveKept`).
- LinkGrammar: the grammar lemmas cover representative forms of each production: whole
  references, suffixes, stars, `tr … & …, ch …`, `ch … to …` and `add …`. The
  eliminate, `last` and `and` compound forms are modelled but have no example lemmas.
