# Portfolio content editor — a Dafny model

This project models the logic of a personal portfolio site's in-browser content
editor and its helpers. The site itself is written in TypeScript and React.

- **Snapshot serializer** (`formatPortfolioData`). A recursive pretty-printer. It
  turns the portfolio snapshot into the text of a TypeScript module that declares
  the snapshot again as a constant. The model states its exact text. A reader for
  that text is the serializer's partner: reading the printed module back gives the
  snapshot that was printed.
- **Portfolio data store** (`usePortfolioData`). It holds one snapshot: personal
  info plus ordered lists of projects, experience entries and skills. Each edit
  replaces a whole list, built by spread, `map` or `filter`. A save raises and
  lowers the `isSaving` / `saveSuccess` flags.
- **Performance settings** (`PerformanceContext`). Five animation flags. They change
  through a master toggle that cascades, single toggles, a performance mode, a
  partial merge and the system reduced-motion event.
- **Helpers.** The technology-list parser and formatter, truncation, initials,
  capitalisation and date ranges. The skill-level table and its fallback lookup.
  Contact-form validation and the e-mail shape check. The generic form-state hook
  `useForm`.

Modules, one per file:

| file | module | models |
|---|---|---|
| types.dfy | `Types` | the record shapes; `Option` for optional fields |
| text.dfy | `Text` | the JavaScript built-ins used: `trim`, `split` on one character, `join` |
| save_data.dfy | `SaveData` | the escaper, `formatValue`, `formatPortfolioData`, the snapshot as a value |
| snapshot_reader.dfy | `SnapshotReader` | a reader for the printed literal syntax; value round trip |
| snapshot_decode.dfy | `SnapshotDecode` | from a read value back to the records; module round trip |
| portfolio_store.dfy | `PortfolioStore` | the edits as functions; the hook as class `PortfolioEditor` |
| performance.dfy | `Performance` | the transitions as functions; the provider as class `PerformanceProvider` |
| formatters.dfy | `Formatters` | the display helpers |
| skill_levels.dfy | `SkillLevels` | the level table and its projections |
| validation.dfy | `Validation` | the predicates and `validateContactForm` |
| use_form.dfy | `UseForm` | the form hook as class `Form` |

Held state is modelled as classes whose methods have `modifies` clauses. Each such
method is specified by a pure function of the old state, and the lemmas are stated
about those functions. The clock, the timer, the network, the clipboard, local
storage and the media query are all parameters or explicit methods:

- the id of a new entry is a `newId` argument;
- the result of the persistence step is a `SaveOutcome` argument;
- the 3000 ms timer is the method `RevertTimerFires`;
- saved preferences and the system's reduced-motion preference are constructor
  arguments.

In these places the code behaves differently from what one might expect, and the
model follows the code:

- `updatePersonalInfo` takes any string key. It does not refuse unknown keys.
- The save path has no failure state of its own. A failed save only shows an alert,
  and `isSaving` comes down on every path.
- Ids are not guaranteed unique. Two adds in the same millisecond give the same id,
  and a delete then removes both entries (`CollidingIdsDeletedTogether`).
- A key that is not an identifier is quoted without escaping.
- Technology text is parsed by the form components before `updateProject` is called.
  The store's own update does no parsing.

## Model

| member | source | states |
|---|---|---|
| Types.CategoryTagRoundTrip | src/types/index.ts:34 | every skill category is one of the five tags `frontend`, `backend`, `database`, `tools`, `other`, and its tag reads back as that category |
| Types.CategoryOfTag | src/types/index.ts:34 | a string reads back as a category only when it is that category's tag; every other string is refused |
| SaveData.EscapeIsPerChar | src/utils/saveData.ts:5-12 | the five chained global replacements, backslash first, equal escaping each character on its own, so nothing is escaped twice |
| SaveData.EscapeNoRawControls | src/utils/saveData.ts:8-11 | the escaped text holds no raw newline, carriage return or tab, and is never shorter than the input |
| SnapshotReader.UnescapeRoundTrip | src/utils/saveData.ts:5-20 | decoding the escapes of a printed string left to right gives back the original string exactly, and the literal ends at the closing quote |
| SaveData.KeyBareIff | src/utils/saveData.ts:33 | a key is printed bare exactly when it matches `^[a-zA-Z_$][a-zA-Z0-9_$]*$`, otherwise between single quotes |
| SnapshotReader.KeyRoundTrip | src/utils/saveData.ts:32-34 | a key with no single quote in it, bare or quoted, reads back as itself |
| SnapshotReader.QuotedKeyIsNotEscaped | src/utils/saveData.ts:33 | a key that holds a single quote is quoted without escaping, so its printed form reads back as a different key |
| SaveData.DefinedKeepsOrder | src/utils/saveData.ts:29 | the undefined-entry filter works piece by piece over the entries, so the surviving entries keep their order |
| SaveData.DefinedKeepsDefined | src/utils/saveData.ts:29 | every entry whose value is not undefined (null included) survives the filter; the result is empty exactly when every value is undefined |
| SaveData.EmptyContainers | src/utils/saveData.ts:22-30 | an empty array prints `[]`; an object prints `{}` exactly when all its values are undefined |
| SaveData.ScalarsOnOneLine | src/utils/saveData.ts:16-20 | null, undefined, booleans, numbers and strings each print on a single line |
| SnapshotReader.ScalarRoundTrip | src/utils/saveData.ts:16-20 | a printed scalar (`null`, `undefined`, `true`/`false`, a number, a quoted escaped string) reads back as the same scalar |
| SnapshotReader.NumRoundTrip | src/utils/saveData.ts:19 | an integer's decimal text, with a minus sign when negative, reads back as the same integer |
| SnapshotReader.ItemReadBack | src/utils/saveData.ts:24 | each item line is the indent plus two spaces and the item printed one level deeper, and it reads back as that item |
| SnapshotReader.PropReadBack | src/utils/saveData.ts:32-35 | each entry line is the indent plus two spaces, the key, `: ` and the value printed one level deeper, and it reads back as that entry |
| SnapshotReader.ArrRoundTrip | src/utils/saveData.ts:22-26 | a printed array reads back as its items, each with its undefined entries dropped |
| SnapshotReader.ObjRoundTrip | src/utils/saveData.ts:28-38 | a printed object reads back as its defined entries in order, each value with its undefined entries dropped |
| SnapshotReader.ValueRoundTrip | src/utils/saveData.ts:15-38 | at any blank indent, reading a printed value gives back the value with only its undefined object entries removed, and leaves the following text untouched |
| SaveData.PortfolioQuoteFree | src/types/index.ts:1-56 | every key of a printed snapshot is a field name of the record types, so none contains a single quote |
| SnapshotDecode.ProjectRoundTrip | src/types/index.ts:1-14 | a printed project, absent optional fields omitted, decodes back to the same project |
| SnapshotDecode.ExperienceRoundTrip | src/types/index.ts:16-27 | a printed experience entry decodes back to the same entry; an absent end date stays absent |
| SnapshotDecode.SkillRoundTrip | src/types/index.ts:31-36 | a printed skill, category written as its tag, decodes back to the same skill |
| SnapshotDecode.PersonalInfoRoundTrip | src/types/index.ts:38-49 | the printed personal info, missing links omitted, decodes back to the same record |
| SnapshotDecode.ModuleRoundTrip | src/utils/saveData.ts:43-48 | the whole generated module, the import line, the blank line, the declaration, the value and `;\n`, reads back as exactly the snapshot that was printed |
| PortfolioStore.ReplaceMatching | src/hooks/usePortfolioData.ts:38 | the update map keeps the length and applies the merge to exactly the entries with the id, position by position |
| PortfolioStore.RemoveMatching | src/hooks/usePortfolioData.ts:45 | the delete filter keeps exactly the entries whose id differs, and never lengthens the list |
| PortfolioStore.RemoveConcat | src/hooks/usePortfolioData.ts:45 | the delete filter works piece by piece, so the survivors keep their relative order |
| PortfolioStore.RemoveDropsEveryMatch | src/hooks/usePortfolioData.ts:42-47 | after a delete no entry carries the id, duplicates included, and the list got shorter exactly when the id was present |
| PortfolioStore.AddThenRemove | src/hooks/usePortfolioData.ts:29-46 | appending an entry with an unused id and then deleting that id gives back the list |
| PortfolioStore.RemoveKeepsUnique | src/hooks/usePortfolioData.ts:45 | a delete keeps ids unique |
| PortfolioStore.ProjectMergeIsShallow | src/hooks/usePortfolioData.ts:35-40 | `{ ...p, ...updates }` with no fields changes nothing; one field replaces only that field, whether a list, a flag or an optional link set to undefined; merging twice is merging once; the id stays unless the patch sets it |
| PortfolioStore.ExperienceMergeIsShallow | src/hooks/usePortfolioData.ts:66-71 | the same shallow merge for experience entries, including setting or clearing the end date |
| PortfolioStore.SkillMergeIsShallow | src/hooks/usePortfolioData.ts:94-99 | the same shallow merge for skills |
| PortfolioStore.PersonalInfoSetsOneField | src/hooks/usePortfolioData.ts:10-18 | `updatePersonalInfo` sets the named field to the value, leaves the other nine fields and all three lists unchanged |
| PortfolioStore.PersonalFieldsDetermineInfo | src/types/index.ts:38-49 | a personal-info record is determined by its ten fields, so the field-wise statement above fixes the whole new record |
| PortfolioStore.AddProjectAppends | src/hooks/usePortfolioData.ts:20-32 | `addProject` appends exactly one project with the given id, empty technologies and `featured` false; earlier projects and the rest of the snapshot are unchanged |
| PortfolioStore.AddExperienceAppends | src/hooks/usePortfolioData.ts:49-63 | `addExperience` appends one entry with an empty start date and no end date; everything else is unchanged |
| PortfolioStore.AddSkillAppends | src/hooks/usePortfolioData.ts:80-91 | `addSkill` appends one level-1 frontend skill; everything else is unchanged |
| PortfolioStore.UpdateProjectEffect | src/hooks/usePortfolioData.ts:35-40 | the project count is kept, every project with the id becomes the merge, every other project and the rest of the snapshot stay; an unknown id leaves the snapshot equal |
| PortfolioStore.UpdateExperienceEffect | src/hooks/usePortfolioData.ts:66-71 | the same for experience entries |
| PortfolioStore.UpdateSkillEffect | src/hooks/usePortfolioData.ts:94-99 | the same for skills |
| PortfolioStore.DeleteProjectEffect | src/hooks/usePortfolioData.ts:42-47 | every project with the id is gone, every other one remains in order, nothing else changes; an unknown id leaves the snapshot equal |
| PortfolioStore.DeleteExperienceEffect | src/hooks/usePortfolioData.ts:73-78 | the same for experience entries |
| PortfolioStore.DeleteSkillEffect | src/hooks/usePortfolioData.ts:101-106 | the same for skills |
| PortfolioStore.AddThenDeleteRestores | src/hooks/usePortfolioData.ts:20-106 | for each of the three lists, adding an entry and deleting its id restores the snapshot when the id was unused |
| PortfolioStore.EditsKeepIdsUnique | src/hooks/usePortfolioData.ts:10-106 | unique ids per list are kept by every edit, given a fresh id for an add and a patch that leaves ids alone |
| PortfolioStore.CollidingIdsDeletedTogether | src/hooks/usePortfolioData.ts:20-47 | two adds with the same clock id give two projects with one id, and one delete removes both |
| PortfolioStore.PortfolioEditor.constructor | src/hooks/usePortfolioData.ts:5-8 | the hook starts with the initial snapshot and both flags down |
| PortfolioStore.PortfolioEditor.SetPersonalInfo | src/hooks/usePortfolioData.ts:10-18 | the held snapshot becomes the one-field personal-info update of the old one |
| PortfolioStore.PortfolioEditor.AddProjectEntry | src/hooks/usePortfolioData.ts:20-33 | the held snapshot becomes the old one with the new project appended |
| PortfolioStore.PortfolioEditor.UpdateProjectEntry | src/hooks/usePortfolioData.ts:35-40 | the held snapshot becomes the project update of the old one |
| PortfolioStore.PortfolioEditor.DeleteProjectEntry | src/hooks/usePortfolioData.ts:42-47 | the held snapshot becomes the project delete of the old one |
| PortfolioStore.PortfolioEditor.AddExperienceEntry | src/hooks/usePortfolioData.ts:49-64 | the held snapshot becomes the old one with the new entry appended |
| PortfolioStore.PortfolioEditor.UpdateExperienceEntry | src/hooks/usePortfolioData.ts:66-71 | the held snapshot becomes the experience update of the old one |
| PortfolioStore.PortfolioEditor.DeleteExperienceEntry | src/hooks/usePortfolioData.ts:73-78 | the held snapshot becomes the experience delete of the old one |
| PortfolioStore.PortfolioEditor.AddSkillEntry | src/hooks/usePortfolioData.ts:80-92 | the held snapshot becomes the old one with the new skill appended |
| PortfolioStore.PortfolioEditor.UpdateSkillEntry | src/hooks/usePortfolioData.ts:94-99 | the held snapshot becomes the skill update of the old one |
| PortfolioStore.PortfolioEditor.DeleteSkillEntry | src/hooks/usePortfolioData.ts:101-106 | the held snapshot becomes the skill delete of the old one |
| PortfolioStore.PortfolioEditor.BeginSave | src/hooks/usePortfolioData.ts:108-112 | `isSaving` goes up and the text handed to persistence is the printed module of the snapshot held at that moment |
| PortfolioStore.PortfolioEditor.FinishSave | src/hooks/usePortfolioData.ts:112-127 | `isSaving` comes down on every path; only a file save raises `saveSuccess` and starts a revert timer; the clipboard and error paths leave `saveSuccess` alone |
| PortfolioStore.PortfolioEditor.RevertTimerFires | src/hooks/usePortfolioData.ts:116-118 | the 3000 ms timer lowers `saveSuccess` |
| PortfolioStore.SaveToFileThenRevert | src/hooks/usePortfolioData.ts:108-128 | a save that writes the file leaves the snapshot as it was, and once its timer fires both flags are down without further action |
| Performance.DefaultsAllOnButReducedMotion | src/contexts/PerformanceContext.tsx:22-29 | the defaults have every flag on except `reducedMotion` |
| Performance.InitialFromPreference | src/contexts/PerformanceContext.tsx:49-58 | with nothing saved, the two master flags are the negation of the system preference, `reducedMotion` is the preference, and drift and glow are on |
| Performance.ToggleBackgroundEffect | src/contexts/PerformanceContext.tsx:89-100 | the master toggle flips its flag; turning it off clears drift and glow, turning it on keeps them; framer and reduced motion never change |
| Performance.ToggleBackgroundTwiceLosesChildren | src/contexts/PerformanceContext.tsx:89-100 | off then on does not restore the defaults: drift and glow stay off |
| Performance.SingleTogglesAreInvolutions | src/contexts/PerformanceContext.tsx:102-121 | the framer, drift and glow toggles each flip exactly their own field, and each applied twice is the identity |
| Performance.PerformanceModeEffect | src/contexts/PerformanceContext.tsx:123-131 | performance mode turns all four animations off, keeps `reducedMotion`, and is idempotent |
| Performance.ReducedMotionEffect | src/contexts/PerformanceContext.tsx:72-79 | the media event records `matches`, never turns an animation on, turns both master flags off when `matches` holds, leaves them when it does not, and leaves drift and glow alone |
| Performance.MergeOverwritesPresentFields | src/contexts/PerformanceContext.tsx:85-87 | `updateSettings` overwrites exactly the fields the patch carries; the empty patch changes nothing; merging a patch twice is merging it once |
| Performance.GatingEstablished | src/contexts/PerformanceContext.tsx:89-131 | performance mode and turning the master off establish "master off implies drift and glow off", and the master toggle preserves it |
| Performance.GatingCanBreak | src/contexts/PerformanceContext.tsx:72-121 | that gating is not an invariant: the drift toggle, the glow toggle and the reduced-motion event can each break it |
| Performance.PerformanceProvider.constructor | src/contexts/PerformanceContext.tsx:38-59 | the held settings start as the start-up rule applied to the saved preferences and the system preference |
| Performance.PerformanceProvider.UpdateSettings | src/contexts/PerformanceContext.tsx:85-87 | the held settings become the old ones merged with the patch |
| Performance.PerformanceProvider.ToggleBackground | src/contexts/PerformanceContext.tsx:89-100 | the held settings become the master toggle of the old ones |
| Performance.PerformanceProvider.ToggleFramer | src/contexts/PerformanceContext.tsx:102-107 | the held settings become the framer toggle of the old ones |
| Performance.PerformanceProvider.ToggleDrift | src/contexts/PerformanceContext.tsx:109-114 | the held settings become the drift toggle of the old ones |
| Performance.PerformanceProvider.ToggleGlow | src/contexts/PerformanceContext.tsx:116-121 | the held settings become the glow toggle of the old ones |
| Performance.PerformanceProvider.PerformanceMode | src/contexts/PerformanceContext.tsx:123-131 | the held settings become performance mode applied to the old ones |
| Performance.PerformanceProvider.OnReducedMotionChange | src/contexts/PerformanceContext.tsx:72-79 | the held settings become the reduced-motion transition of the old ones |
| Formatters.FormatDateRange | src/utils/formatters.ts:1-3 | the range is `start - end`, with `Present` when the end is absent or empty |
| Formatters.EmptyEndIsCurrent | src/utils/formatters.ts:2 | an empty end date reads exactly like an absent one |
| Formatters.ParseTechnologies | src/utils/formatters.ts:9-11 | the parsed list holds no empty string, no comma, and only strings equal to their own trim |
| Formatters.ParseTechnologiesConcat | src/utils/formatters.ts:10 | parsing keeps order: the parse of `a,b` is the parse of `a` followed by the parse of `b` |
| Formatters.DropEmpty | src/utils/formatters.ts:10 | the empty-string filter keeps exactly the non-empty strings |
| Formatters.ParseFormatRoundTrip | src/utils/formatters.ts:5-11 | formatting a list of non-empty, trimmed, comma-free names and parsing the text gives the list back |
| Text.SplitJoin | src/utils/formatters.ts:10 | splitting on a one-character separator undoes joining with it when no piece holds the separator |
| Text.TrimIsSlice | src/utils/formatters.ts:10 | the trimmed text is a slice with only whitespace cut from either end, and it neither starts nor ends with whitespace |
| Formatters.TruncateText | src/utils/formatters.ts:13-16 | a text no longer than the bound comes back unchanged; a longer one becomes its first `maxLength` characters, trimmed, then `...` |
| Formatters.TruncateBound | src/utils/formatters.ts:15 | a truncated text ends in `...` and is at most three characters longer than the bound |
| Formatters.TruncateMayReturnInput | src/utils/formatters.ts:13-16 | a truncated result can equal its input, so "unchanged" does not mean "short enough" |
| Formatters.InitialsOfWords | src/utils/formatters.ts:18-20 | for non-empty words with no space, joined by single spaces, the initials are exactly the words' first characters, in order |
| Formatters.InitialsBound | src/utils/formatters.ts:18-20 | there are never more initials than space-separated parts, and each initial is a non-space character of the name |
| Formatters.CapitalizeFirst | src/utils/formatters.ts:24-26 | the result has the input's length, maps the empty string to itself, upper-cases the first character and leaves the rest unchanged |
| Formatters.CapitalizeIdempotent | src/utils/formatters.ts:24-26 | capitalising twice is capitalising once |
| SkillLevels.TableShape | src/config/skillLevels.ts:10-43 | the table has four entries with levels 1 to 4 in order and percentages 25, 50, 75, 100 |
| SkillLevels.Find | src/config/skillLevels.ts:46 | the lookup finds nothing exactly when no entry has the level, and otherwise returns the first entry with it |
| SkillLevels.ConfigLookup | src/config/skillLevels.ts:45-47 | a level from 1 to 4 gets the entry with that level; any other number gets the level-2 `Comfortable` entry |
| SkillLevels.PercentageValues | src/config/skillLevels.ts:49-51 | the percentage is 25 times the level on the scale and 50 elsewhere, so always one of 25, 50, 75, 100 |
| SkillLevels.PercentageIncreasing | src/config/skillLevels.ts:14-40 | over the scale, a higher level has a strictly higher percentage |
| SkillLevels.ProjectionsAgree | src/config/skillLevels.ts:49-67 | percentage, label, gradient and styles come from one and the same table entry, for any number |
| Validation.IsValidEmailMatchesPattern | src/utils/validation.ts:1-4 | the check accepts exactly the strings of `/^[^\s@]+@[^\s@]+\.[^\s@]+$/`: a non-empty part before a single `@`, no whitespace or second `@`, and a `.` inside the domain that is neither its first nor its last character |
| Validation.ValidEmailIsNotEmpty | src/utils/validation.ts:1-17 | a valid address is never blank |
| Validation.BlankIsWhitespace | src/utils/validation.ts:15-21 | `isNotEmpty` is false exactly when the value is all whitespace, and a minimum length of one is the same test |
| Validation.ValidateContactForm | src/utils/validation.ts:23-55 | errors appear only under name, email, subject and message, one message each, exactly under the failing conditions; the format error for email needs a non-blank address, the length error for message a non-blank message; the form is valid exactly when there are no errors, exactly when all four checks pass |
| UseForm.ChangedValue | src/hooks/useForm.ts:12-19 | a change stores the checked state for a checkbox and the text otherwise |
| UseForm.SetFieldFrame | src/hooks/useForm.ts:38-43 | setting a field stores the value under its name, keeps every other key and its value, and adds no other key |
| UseForm.SetFieldOverwrites | src/hooks/useForm.ts:38-43 | setting a field twice keeps the later value; setting it to its current value changes nothing |
| UseForm.Form.constructor | src/hooks/useForm.ts:9-10 | the form data starts as the initial values, not submitting |
| UseForm.Form.HandleChange | src/hooks/useForm.ts:12-19 | the form data becomes the old data with the changed value stored under the input's name |
| UseForm.Form.UpdateField | src/hooks/useForm.ts:38-43 | the form data becomes the old data with that one field set |
| UseForm.Form.ResetForm | src/hooks/useForm.ts:34-36 | the form data is the initial values again |
| UseForm.Form.HandleSubmit | src/hooks/useForm.ts:21-28 | with a handler, `isSubmitting` goes up and the handler receives the current data; without one, nothing changes |
| UseForm.Form.SetFormData | src/hooks/useForm.ts:52 | the raw setter the hook returns replaces the whole record with the given values |
| UseForm.Form.SubmitSettled | src/hooks/useForm.ts:26-31 | once the handler settles, resolved or rejected, `isSubmitting` comes down |

## Left out

- The transport half of the save: the POST to the local helper process, the
  clipboard fallback, and the helper process that writes the file. This is network
  and file I/O. Its result enters `FinishSave` as a `SaveOutcome` value.
- The clock and the timer. `Date.now()` ids are a `newId` argument. The 3000 ms
  `setTimeout` is the explicit method `RevertTimerFires`.
- The `alert` and console messages of the save path and of the form.
- Local storage and `window.matchMedia` in the performance provider. Saved
  preferences and the system preference are inputs. Writing the settings back after
  every change is not modelled.
- `JSON.parse` of saved settings. The parsed value is modelled as a patch of
  booleans. A saved file with non-boolean values or extra keys is not represented.
- Performance.Merge: a patch that carries an explicit `undefined` (which the
  spread copies as `undefined`) is not represented. A patch field is either absent
  or a boolean.
- PortfolioStore.UpdatePersonalInfo: the key is one of the ten declared fields.
  A call with any other string would add a new property to `personalInfo`, and the
  serializer would print it. That path is not modelled.
- SaveData.PortfolioValue: it lists each record's entries in declaration order.
  JavaScript prints insertion order, and an optional field set after creation
  (through a patch or `updatePersonalInfo`) is printed last. The reader looks
  entries up by key, so the module round trip is unaffected. The exact order of
  lines in that case is not modelled.
- SnapshotReader.ValueRoundTrip: it is stated for values whose keys hold no
  single quote. Such keys are printed without escaping and do not read back
  (`QuotedKeyIsNotEscaped`). Snapshot keys are all field names, so the module
  round trip holds for every snapshot.
- Numbers are integers throughout (the printer, `Skill.level`, the form values).
  The printing of fractions, `NaN`, infinities and `-0` is not modelled, nor the
  `String(value)` fallback for functions, symbols and big integers.
- Strings are sequences of Unicode scalar values, not UTF-16 code units. Lengths
  in `truncateText` and the first character in `generateInitials` differ from the
  source for characters outside the Basic Multilingual Plane.
- Formatters.CapitalizeFirst: it upper-cases only ASCII `a`-`z`. JavaScript's
  `toUpperCase` maps other letters too, and some, such as `ß` to `SS`, into
  several characters, so the length claim does not hold for those.
- `isValidUrl`: it depends on the host's `URL` parser.
- The view components, the CMS forms and the CMS panel. They are rendering only.
  The panel's own add, update and delete closures repeat the store's operations.
  The seed data file and its legacy string skill levels are also left out.
- `handleSubmit`'s `preventDefault` call. This is DOM behaviour.
