# CV editor and CV themes — a Dafny model

This project models the editing core of a résumé ("CV") web application and
two of its interactive renderers:

- **List utilities** (`arrayUtils`, present in three identical copies:
  `src/components/cv-editor.tsx:83-104`,
  `src/components/editor/WorkForm.tsx:31-52` and
  `src/components/editor/PortfolioForm.tsx:29-47`; the table cites the first): move an element from one index to
  another, remove the element at an index, move an element one place up or
  down. `ListUtils` holds one definition, a specification function `Moved`
  and the array-based `MoveItem` method that is proved equal to it.
- **The document controller** of the editor (`updateCV`, `addItem`,
  `getEmptyItem`): the CV is a record of sections; replacing one section
  leaves every other section as it was, and adding an item appends the fixed
  empty item of that section. Sections are read and written through a small
  lens (`CvEditor.Get`/`CvEditor.UpdateCV`) whose get-put, put-get and
  put-put laws are proved.
- **The section forms**: the basics form (fields and the profile list), the
  education, skills and languages forms (one field of one entry per edit;
  keywords typed as a comma-separated list), the work form (job fields,
  highlights, job list operations, collapsible panels, drag-and-drop) and
  the portfolio form (the item lens `updateItem`, the image, link,
  collaborator and process-step sub-lists, the tools and tags lists, the
  numeric statistics, panels and drag-and-drop). Each field edit copies the
  list and writes into one element of the copy; the model states the value
  written, that every other field of that element is kept and that every
  other element is kept.
- **The console theme**: the eight commands, what each prints for a CV, and
  the Enter handler, which lower-cases and trims the typed command, echoes
  the prompt line, appends the command's lines or a "not recognised"
  message, and empties the screen on `clear`. Listing commands that the
  source writes as loops are methods proved equal to specification
  functions; the session is a class holding the output and the input line.
- **The retro theme**: a five-entry menu with wrap-around arrow keys, Enter
  to open the highlighted entry and Escape to go back, as a class.

JavaScript semantics the code relies on are written out: `trim` over the
ECMAScript white-space and line-terminator set, `split`/`join`,
`toLowerCase`, `parseInt` (leading white space, sign, `0x` prefix, longest
digit prefix), and the falsiness of `""`, `0` and `NaN` under `||`.

The CV type makes a job's and an education entry's `endDate` optional
(`src/types/cv.ts:20` and `:29`), yet the renderers treat an absent and an
empty end date alike (`endDate || 'Presente'`, `ConsoleCV.tsx:72` and `:87`),
and an edited end date is stored as a present string even when it is empty
(`WorkForm.tsx:221`, `cv-editor.tsx:784`). The model follows
the code: `ConsoleCv.EndLabel` shows "Presente" for both, and
`WorkEditor.SetWorkField` and `CvEditor.SetEducationField` store `Some(v)`.

Collapse state of the work and portfolio panels is keyed by list index, not
by item, as in the code; moving or removing an item does not move its
panel's state (`Panels.TogglePanel` knows only indices).

## Model

| member | source | states |
|---|---|---|
| ListUtils.Moved | src/components/cv-editor.tsx:84-89 | moving keeps the length and puts the moved element at the target index; the same in WorkForm.tsx:32-37 and PortfolioForm.tsx:30-35 |
| ListUtils.MoveItem | src/components/cv-editor.tsx:84-89 | the copy-splice-splice algorithm on an array yields exactly `Moved(a, from, to)`; the same in WorkForm.tsx:32-37 and PortfolioForm.tsx:30-35 |
| ListUtils.ShiftOut | src/components/cv-editor.tsx:86 | `splice(from, 1)` on the array: the elements after `from` move one place left, so the first n-1 slots hold the list without that element |
| ListUtils.ShiftIn | src/components/cv-editor.tsx:87 | `splice(to, 0, x)` on the array: `x` is inserted at `to` and the elements from `to` on move one place right |
| ListUtils.MovedAt | src/components/cv-editor.tsx:84-89 | element-wise description of a move: indices outside the range between source and target keep their element, those inside shift by one towards the source |
| ListUtils.MovedIsPermutation | src/components/cv-editor.tsx:84-89 | a move is a permutation: the multiset of elements is unchanged |
| ListUtils.MovedKeepsOthersInOrder | src/components/cv-editor.tsx:84-89 | removing the moved element from the result gives the input with that element removed: all other elements keep their relative order |
| ListUtils.MovedToNeighbour | src/components/cv-editor.tsx:95-103 | a move to an adjacent index is a swap of the two elements |
| ListUtils.RemoveItem | src/components/cv-editor.tsx:91-93 | the filter by index drops exactly the element at a valid index and returns the input unchanged for any other index; the same in WorkForm.tsx:39-41 and PortfolioForm.tsx:36-38 |
| ListUtils.RemoveItemDropsOne | src/components/cv-editor.tsx:91-93 | at a valid index the length falls by one and exactly one occurrence of the removed element leaves the multiset |
| ListUtils.MoveItemUp | src/components/cv-editor.tsx:95-98 | no change at index 0; otherwise the element swaps with its predecessor; always a permutation; the same in WorkForm.tsx:43-46 and PortfolioForm.tsx:39-42 |
| ListUtils.MoveItemDown | src/components/cv-editor.tsx:100-103 | no change at the last index; otherwise the element swaps with its successor; always a permutation; the same in WorkForm.tsx:48-51 and PortfolioForm.tsx:43-46 |
| ListUtils.UpUndoesDown | src/components/cv-editor.tsx:95-103 | moving index i down and then index i+1 up restores the list |
| ListUtils.DownUndoesUp | src/components/cv-editor.tsx:95-103 | moving index i up and then index i-1 down restores the list |
| ListUtils.ReplaceAt | src/components/editor/WorkForm.tsx:175-177 | copying the list and assigning one index changes that element only |
| Panels.InitPanels | src/components/editor/WorkForm.tsx:310-312 | the initial panel map has exactly the keys 0..n-1, all mapped to the given flag (true in the work form, false in the portfolio form) |
| Panels.InitPanelsShows | src/components/editor/PortfolioForm.tsx:561-563 | a panel is shown initially iff the initial flag is true and the index is one of the items |
| Panels.TogglePanel | src/components/editor/WorkForm.tsx:326-331 | the toggled index flips between shown and hidden (a missing key counts as hidden) and every other entry is kept |
| Panels.ToggleTwice | src/components/editor/PortfolioForm.tsx:577-582 | toggling the same panel twice shows and hides exactly the same panels as before |
| Panels.DragEnd | src/components/editor/WorkForm.tsx:364-370 | a drop outside any target changes nothing; a drop on a target yields a permutation of the same length with the dragged item at the target index |
| Text.TrimStart | src/components/cv-editor.tsx:825 | drops exactly the leading white space: the result is a suffix, what was dropped is white space, and the result does not start with white space |
| Text.TrimEnd | src/components/cv-editor.tsx:825 | drops exactly the trailing white space, symmetrically |
| Text.Trim | src/components/cv-editor.tsx:825 | the result neither starts nor ends with white space and is a slice of the input |
| Text.TrimUnchanged | src/components/cv-editor.tsx:825 | a string without outer white space trims to itself |
| Text.TrimIdempotent | src/components/cv-editor.tsx:825 | trimming twice equals trimming once |
| Text.TrimLeadingSpace | src/components/cv-editor.tsx:825 | a space before a string does not change its trimmed form |
| Text.Split | src/components/cv-editor.tsx:825 | splitting yields one more piece than there are separators, and no piece contains the separator |
| Text.Join | src/components/cv-editor.tsx:823 | joining a single entry yields that entry |
| Text.JoinSplit | src/components/cv-editor.tsx:823-825 | joining the pieces of a split with the same separator restores the string |
| Text.SplitJoin | src/components/cv-editor.tsx:823-825 | splitting a join of separator-free pieces gives back the pieces |
| Text.SplitNoSeparator | src/components/cv-editor.tsx:825 | a string without the separator splits into itself alone |
| Text.SplitAfterPiece | src/components/cv-editor.tsx:825 | a separator-free piece followed by the separator splits off as the first piece |
| Text.TrimAll | src/components/cv-editor.tsx:825 | trims every piece and keeps the number of pieces |
| Text.CommaListShape | src/components/cv-editor.tsx:825 | a comma-separated input yields commas+1 entries, each free of commas and already trimmed |
| Text.CommaListJoin | src/components/cv-editor.tsx:823-825 | a list of trimmed comma-free entries shown joined with ", " reads back as the same list |
| Text.ToLower | src/components/ConsoleCV.tsx:129 | lower-casing maps every character through `LowerChar` and keeps the length |
| Text.LowerChar | src/components/ConsoleCV.tsx:129 | A-Z map to a-z |
| Text.DigitValue | src/components/editor/PortfolioForm.tsx:470 | decimal digits have their numeric value; every value lies in -1..15 |
| Text.DigitPrefix | src/components/editor/PortfolioForm.tsx:470 | the longest prefix of digits in the radix: a prefix, all digits, followed by a non-digit or the end |
| Text.ParseInt | src/components/editor/PortfolioForm.tsx:470 | `parseInt` gives NaN (None) exactly when no digit follows the white space, sign and radix prefix |
| Text.ParseIntOfNumeral | src/components/editor/PortfolioForm.tsx:470 | a decimal numeral with an optional minus sign parses to its signed value |
| Text.NatToString | src/components/editor/PortfolioForm.tsx:469 | the decimal form of a number is a non-empty run of digits |
| Text.NatToStringValue | src/components/editor/PortfolioForm.tsx:469 | the decimal form of n reads back as n |
| Text.ParseIntRoundTrip | src/components/editor/PortfolioForm.tsx:469-470 | parsing the displayed form of any integer yields that integer |
| CvEditor.InitialCV | src/components/cv-editor.tsx:64-80 | the initial CV has every list empty and every basics field (name, title, e-mail, summary, city, country) blank |
| CvEditor.Get | src/components/cv-editor.tsx:111-113 | reading a section yields data of that section |
| CvEditor.UpdateCV | src/components/cv-editor.tsx:111-113 | replacing a section makes it read back as the new data and leaves every other section unchanged |
| CvEditor.UpdateCVGetPut | src/components/cv-editor.tsx:111-113 | writing back a section's own data leaves the CV unchanged |
| CvEditor.UpdateCVTwice | src/components/cv-editor.tsx:111-113 | of two writes to the same section only the last one counts |
| CvEditor.SameSectionsSameCV | src/components/cv-editor.tsx:111-113 | two CVs with equal sections are equal |
| CvEditor.Items | src/components/cv-editor.tsx:115-120 | a repeating section's items, entry by entry |
| CvEditor.GetEmptyItem | src/components/cv-editor.tsx:122-133 | the empty item of each repeating section: blank strings, empty lists, no end date |
| CvEditor.AddItem | src/components/cv-editor.tsx:115-120 | adding appends exactly the section's empty item and leaves every other section unchanged |
| CvEditor.AddItemThenRemoveLast | src/components/cv-editor.tsx:115-120 | removing the appended item restores the section's items |
| CvEditor.SetBasicsField | src/components/cv-editor.tsx:264-285 | a basics field edit (name, title, e-mail, city, country, summary) sets that field and keeps every other field and the profiles |
| CvEditor.AddProfile | src/components/cv-editor.tsx:230-235 | appends one blank profile and keeps the rest |
| CvEditor.RemoveProfile | src/components/cv-editor.tsx:237-242 | drops the profile at a valid index, changes nothing otherwise, keeps the basics fields |
| CvEditor.MoveProfileUp | src/components/cv-editor.tsx:244-249 | swaps a profile with its predecessor (no change at the top) and keeps all profiles |
| CvEditor.MoveProfileDown | src/components/cv-editor.tsx:251-256 | swaps a profile with its successor (no change at the bottom) and keeps all profiles |
| CvEditor.SetProfileField | src/components/cv-editor.tsx:333-349 | sets the network or the URL and keeps the other |
| CvEditor.EditProfile | src/components/cv-editor.tsx:333-349 | the edited profile gets the value, every other profile and the basics fields are kept |
| CvEditor.SetEducationField | src/components/cv-editor.tsx:750-786 | sets one education field (the end date becomes present) and keeps the others |
| CvEditor.EditEducation | src/components/cv-editor.tsx:750-786 | the edited entry gets the value in that field only; other entries are kept |
| CvEditor.SetSkillField | src/components/cv-editor.tsx:806-818 | sets the name or the level and keeps the other and the keywords |
| CvEditor.EditSkill | src/components/cv-editor.tsx:806-818 | the edited entry gets the value in that field only; other entries are kept |
| CvEditor.EditKeywords | src/components/cv-editor.tsx:823-827 | the keywords become the trimmed comma-separated pieces of the input: commas+1 entries, none containing a comma; name, level and other entries kept |
| CvEditor.KeywordsShownReadBack | src/components/cv-editor.tsx:823-827 | keywords that are trimmed and comma-free survive being shown joined and read back |
| CvEditor.SetLanguageField | src/components/cv-editor.tsx:846-858 | sets the language or the fluency and keeps the other |
| CvEditor.EditLanguage | src/components/cv-editor.tsx:846-858 | the edited entry gets the value in that field only; other entries are kept |
| WorkEditor.SetWorkField | src/components/editor/WorkForm.tsx:174-240 | sets one job field (the end date becomes present) and keeps the other fields and the highlights |
| WorkEditor.WorkFieldsDetermineWork | src/components/editor/WorkForm.tsx:174-240 | a job is determined by its fields and highlights |
| WorkEditor.SetWorkFieldSameValue | src/components/editor/WorkForm.tsx:174-240 | typing back a field's present value leaves the job unchanged |
| WorkEditor.EditWork | src/components/editor/WorkForm.tsx:174-240 | the edited job gets the value in that field only and keeps its highlights; other jobs are kept |
| WorkEditor.EditHighlight | src/components/editor/WorkForm.tsx:264-268 | one highlight of one job is replaced; the other highlights, the job's fields and the other jobs are kept |
| WorkEditor.AddHighlight | src/components/editor/WorkForm.tsx:333-337 | appends one empty highlight to the job |
| WorkEditor.RemoveHighlight | src/components/editor/WorkForm.tsx:339-343 | the job's highlights become `RemoveItem` of them, one shorter at a valid index |
| WorkEditor.MoveHighlightUp | src/components/editor/WorkForm.tsx:345-349 | the job's highlights are moved up and remain a permutation |
| WorkEditor.MoveHighlightDown | src/components/editor/WorkForm.tsx:351-355 | the job's highlights are moved down and remain a permutation |
| WorkEditor.WorkListOperations | src/components/editor/WorkForm.tsx:314-324 | removing a job drops exactly it; moving keeps every job; down then up restores the list |
| PortfolioEditor.GetField | src/components/editor/PortfolioForm.tsx:85-93 | every stored field value has the shape its key expects |
| PortfolioEditor.SetField | src/components/editor/PortfolioForm.tsx:134-138 | writing a key makes it read back as the value and leaves every other key unchanged |
| PortfolioEditor.FieldsDetermineItem | src/components/editor/PortfolioForm.tsx:134-138 | a portfolio item is determined by the values of its keys |
| PortfolioEditor.SetFieldLaws | src/components/editor/PortfolioForm.tsx:134-138 | writing a key's own value changes nothing; of two writes to one key only the last counts |
| PortfolioEditor.UpdateItem | src/components/editor/PortfolioForm.tsx:134-138 | only the edited item's key changes; every other item is kept |
| PortfolioEditor.PortfolioListOperations | src/components/editor/PortfolioForm.tsx:565-575 | removal shifts the later items down by one; moves are no-ops at the ends and swap neighbours otherwise |
| PortfolioEditor.SetImageField | src/components/editor/PortfolioForm.tsx:145-149 | sets an image's URL or caption and keeps the other |
| PortfolioEditor.AddImage | src/components/editor/PortfolioForm.tsx:140-143 | appends an image with empty URL and empty caption; other keys kept |
| PortfolioEditor.UpdateImage | src/components/editor/PortfolioForm.tsx:145-149 | one field of one image changes; other images and other keys kept |
| PortfolioEditor.RemoveImage | src/components/editor/PortfolioForm.tsx:151-154 | drops the image at a valid index, none otherwise; other keys kept |
| PortfolioEditor.ApplyLinkEdit | src/components/editor/PortfolioForm.tsx:161-165 | a link edit sets the kind, URL or label and keeps the other two |
| PortfolioEditor.AddLink | src/components/editor/PortfolioForm.tsx:156-159 | appends a link of kind "other" with empty URL and label; other keys kept |
| PortfolioEditor.UpdateLink | src/components/editor/PortfolioForm.tsx:161-165 | one link is edited; other links and other keys kept |
| PortfolioEditor.RemoveLink | src/components/editor/PortfolioForm.tsx:167-170 | drops the link at a valid index, none otherwise; other keys kept |
| PortfolioEditor.OrEmpty | src/components/editor/PortfolioForm.tsx:173 | an absent optional list reads as empty |
| PortfolioEditor.SetCollaboratorField | src/components/editor/PortfolioForm.tsx:177-181 | sets a collaborator's name, role or URL and keeps the others |
| PortfolioEditor.AddCollaborator | src/components/editor/PortfolioForm.tsx:172-175 | the list (empty when absent) gains one blank collaborator and becomes present |
| PortfolioEditor.UpdateCollaborator | src/components/editor/PortfolioForm.tsx:177-181 | one field of one collaborator changes; the others and other keys kept |
| PortfolioEditor.RemoveCollaborator | src/components/editor/PortfolioForm.tsx:183-186 | the list becomes present and loses the collaborator at a valid index |
| PortfolioEditor.SetStepField | src/components/editor/PortfolioForm.tsx:193-197 | sets a step's title, description or image and keeps the others |
| PortfolioEditor.AddProcessStep | src/components/editor/PortfolioForm.tsx:188-191 | the list (empty when absent) gains one blank step and becomes present |
| PortfolioEditor.UpdateProcessStep | src/components/editor/PortfolioForm.tsx:193-197 | one field of one step changes; the other steps and other keys kept |
| PortfolioEditor.RemoveProcessStep | src/components/editor/PortfolioForm.tsx:199-202 | the list becomes present and loses the step at a valid index |
| PortfolioEditor.EditTools | src/components/editor/PortfolioForm.tsx:353-354 | the tools become the trimmed comma-separated pieces: commas+1 entries, comma-free and trimmed; other keys kept |
| PortfolioEditor.EditTags | src/components/editor/PortfolioForm.tsx:363-364 | the tags become the trimmed comma-separated pieces; other keys kept |
| PortfolioEditor.EmptyListInputStoresOneEmptyEntry | src/components/editor/PortfolioForm.tsx:354 | clearing the tools or tags input stores one empty entry, not an empty list |
| PortfolioEditor.ToolsShownReadBack | src/components/editor/PortfolioForm.tsx:353-354 | trimmed comma-free tools survive being shown and read back unchanged |
| PortfolioEditor.StatValue | src/components/editor/PortfolioForm.tsx:470 | a statistic input is stored iff it parses to a non-zero integer, and then as that integer |
| PortfolioEditor.DisplayStat | src/components/editor/PortfolioForm.tsx:469 | an absent or zero statistic is shown as an empty input |
| PortfolioEditor.SetStat | src/components/editor/PortfolioForm.tsx:470 | spreading the statistics and overriding one of them sets that one and keeps the other two |
| PortfolioEditor.StatShownReadBack | src/components/editor/PortfolioForm.tsx:469-470 | a shown statistic reads back as itself, except that zero reads back as absent |
| PortfolioEditor.StatValueOfNumeral | src/components/editor/PortfolioForm.tsx:470 | typing the decimal form of n stores n, or nothing when n is 0 |
| PortfolioEditor.EditStat | src/components/editor/PortfolioForm.tsx:470-494 | the stats become present; the edited statistic takes the parsed value; the other two are kept; other keys kept |
| ConsoleCv.PromptLine | src/components/ConsoleCV.tsx:132 | the echoed line is the prompt `visitor@cv.dev:~$ ` followed by the command exactly as typed |
| ConsoleCv.WelcomeLines | src/components/ConsoleCV.tsx:26-30 | three lines: the greeting with the CV's name, the hint, a blank line |
| ConsoleCv.ProfileLines | src/components/ConsoleCV.tsx:66 | one indented `network: url` line per profile |
| ConsoleCv.InfoLines | src/components/ConsoleCV.tsx:58-68 | name first, location line fifth, the profile lines before a final blank line; 8 + profiles lines |
| ConsoleCv.EndLabel | src/components/ConsoleCV.tsx:72 | "Presente" when the end date is absent or empty, the date otherwise |
| ConsoleCv.HighlightLines | src/components/ConsoleCV.tsx:75-77 | one `  - ` line per highlight |
| ConsoleCv.PushHighlights | src/components/ConsoleCV.tsx:75-77 | the inner loop appends exactly the highlight lines after what was already output |
| ConsoleCv.JobLines | src/components/ConsoleCV.tsx:72-78 | a job prints its three head lines, its highlights, and a blank line |
| ConsoleCv.PushJob | src/components/ConsoleCV.tsx:72-79 | the body of the per-job loop appends exactly the job's lines after what was already output |
| ConsoleCv.ExpLines | src/components/ConsoleCV.tsx:69-81 | `exp` prints four lines per job plus one per highlight |
| ConsoleCv.Exp | src/components/ConsoleCV.tsx:69-81 | the nested loop produces exactly `ExpLines` |
| ConsoleCv.EduEntryLines | src/components/ConsoleCV.tsx:85-88 | four lines per entry, the third with the dates and "Presente" for an open end |
| ConsoleCv.EduLines | src/components/ConsoleCV.tsx:82-91 | `edu` prints four lines per entry |
| ConsoleCv.Edu | src/components/ConsoleCV.tsx:82-91 | the loop produces exactly `EduLines` |
| ConsoleCv.SkillEntryLines | src/components/ConsoleCV.tsx:95-97 | three lines per skill, the second listing the keywords joined with ", " |
| ConsoleCv.SkillsLines | src/components/ConsoleCV.tsx:92-100 | `skills` prints three lines per skill |
| ConsoleCv.Skills | src/components/ConsoleCV.tsx:92-100 | the loop produces exactly `SkillsLines` |
| ConsoleCv.LangsLines | src/components/ConsoleCV.tsx:101-108 | one `language: fluency` line per language, then a blank line |
| ConsoleCv.Langs | src/components/ConsoleCV.tsx:101-108 | the loop produces exactly `LangsLines` |
| ConsoleCv.AllLines | src/components/ConsoleCV.tsx:110-124 | `all` starts with the info lines and the experience heading and ends with the languages lines; its length is the sum of the parts plus eight heading lines |
| ConsoleCv.AllIsTheOtherCommands | src/components/ConsoleCV.tsx:110-124 | `all` is exactly the `info` lines followed by the `exp`, `edu`, `skills` and `langs` listings of the command table, in that order, each under its heading and rule line |
| ConsoleCv.CommandOutput | src/components/ConsoleCV.tsx:46-125 | the table answers exactly the eight command names; `clear` gives no lines |
| ConsoleCv.RunCommand | src/components/ConsoleCV.tsx:133-135 | looking a command up and running it yields the table's answer |
| ConsoleCv.CommandLines | src/components/ConsoleCV.tsx:133-135 | a known command's lines, or the two-line "not recognised" message |
| ConsoleCv.EnterOutput | src/components/ConsoleCV.tsx:127-140 | `clear` in any case and padding empties the screen; otherwise the old output, the prompt line and the command's lines |
| ConsoleCv.NormalizePadded | src/components/ConsoleCV.tsx:129 | white space around a command is ignored and letters are lower-cased |
| ConsoleCv.PaddedUpperHelpRunsHelp | src/components/ConsoleCV.tsx:127-140 | typing `  HELP ` echoes it and prints the help text |
| ConsoleCv.ClearInAnyCaseEmpties | src/components/ConsoleCV.tsx:137 | any padded command that lower-cases to `clear` empties the screen |
| ConsoleCv.BlankCommandNotRecognised | src/components/ConsoleCV.tsx:133-135 | an empty or blank command echoes the prompt and reports "not recognised" |
| ConsoleCv.UnknownCommandAppends | src/components/ConsoleCV.tsx:133-135 | an unknown command keeps the old output and appends the prompt and the message |
| ConsoleCv.ConsoleSession.constructor | src/components/ConsoleCV.tsx:25-30 | a new session shows the welcome lines and an empty input |
| ConsoleCv.ConsoleSession.Type | src/components/ConsoleCV.tsx:154 | typing replaces the input line and leaves the output |
| ConsoleCv.ConsoleSession.HandleKey | src/components/ConsoleCV.tsx:127-140 | Enter sets the output to `EnterOutput` of the typed command and clears the input; other keys change nothing |
| RetroCv.SelectUp | src/components/RetroCV.tsx:24-26 | up moves to the previous entry, from the first to the last |
| RetroCv.SelectDown | src/components/RetroCV.tsx:27-29 | down moves to the next entry, from the last to the first |
| RetroCv.UpDownInverse | src/components/RetroCV.tsx:24-29 | up and down undo each other |
| RetroCv.DownTimesIsRotation | src/components/RetroCV.tsx:27-29 | n presses of down from entry i select entry (i + n) mod 5 |
| RetroCv.FullCycle | src/components/RetroCV.tsx:14-29 | five presses of down return to the same entry |
| RetroCv.ScreenTitle | src/components/RetroCV.tsx:69 | the heading of a screen is found exactly when the screen is one of the entries' ids (none for the menu) |
| RetroCv.ScreenTitleOfEntry | src/components/RetroCV.tsx:14-20 | an entry's screen is headed by that entry's own label |
| RetroCv.RetroMenu.constructor | src/components/RetroCV.tsx:11-12 | the first entry is highlighted on the menu screen |
| RetroCv.RetroMenu.ArrowUp | src/components/RetroCV.tsx:24-26 | selection moves up with wrap-around; the screen is kept |
| RetroCv.RetroMenu.ArrowDown | src/components/RetroCV.tsx:27-29 | selection moves down with wrap-around; the screen is kept |
| RetroCv.RetroMenu.Enter | src/components/RetroCV.tsx:30-32 | the screen becomes the highlighted entry's id |
| RetroCv.RetroMenu.Escape | src/components/RetroCV.tsx:33-35 | the screen becomes the menu |
| RetroCv.RetroMenu.HandleKey | src/components/RetroCV.tsx:22-37 | the four keys act as above, any other key changes nothing, and the selection stays a menu entry |

## Left out

- The JSON view, import, export and remote fetch of a CV, the clipboard and the notifications: they are I/O around the document and do not change it except by wholesale replacement.
- The colour-theme customiser, the sidebar and the rendering of all forms and themes: presentation only.
- Registering and removing the key listeners of the retro theme: `RetroCv.RetroMenu.HandleKey` is the handler those listeners call.
- The drag-and-drop library's `arrayMove` is not part of this model: `Panels.DragEnd` assumes it moves like `ListUtils.Moved` for indices inside the list.
- ListUtils.MoveItem: requires both indices inside the list; the source's `splice` would append for a target past the end, but every caller passes an index inside the list.
- Index-based operations (field edits, moves, sub-list updates) require an index inside the list, as the user interface only offers them for rendered items; the removals accept any index, as `filter` does.
- ConsoleCv.CommandOutput: the lookup is membership among the eight command names; JavaScript's lookup through an object also finds inherited property names such as `constructor`, which the model does not reproduce.
- Text.ToLower: lower-cases ASCII letters and the Kelvin sign only; the full Unicode case mapping is not modelled.
- Text.ParseInt: integers are unbounded, so `parseInt` results beyond 2^53 are not rounded as JavaScript numbers are; the number input's own filtering of what the browser accepts is not modelled.
- Text.ParseIntRoundTrip: `Text.IntToString` prints every integer in plain decimal, while JavaScript prints magnitudes of 10^21 and above in exponent form (`1e+21`), which `parseInt` reads back as a different number; the round trip, and with it `PortfolioEditor.StatShownReadBack`, holds for JavaScript only below 10^21.
- WorkEditor.AddHighlight: the `highlights || []` fallback is not modelled, since the CV type makes highlights required.
- Elements are values: the in-place write into an element shared between the old and the new list (`newData[index].field = value`) is modelled as a copy, so aliasing between the two lists is not captured.
- PortfolioEditor.SetField: requires that the value's shape matches the key (`Fits`), which is stronger than the TypeScript union type; every call site in the form passes a matching value.
- RetroCv.RetroMenu.HandleKey: requires `Valid()`, the invariant the constructor establishes and every key preserves.
- The editor's local CV type has no portfolio section; the model uses the shared CV type, and every editor operation keeps the portfolio unchanged.
- A link's `type` is modelled as the five choices of its select control; any other string cannot be stored.
