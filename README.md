# Agent OS workflow utilities, modelled in Dafny

This project models the workflow helpers of Agent OS
(`templates/utility-functions.js`). They are four small classes that work on
workflow documents, i.e. JSON values read from template files.

- **TemplateProcessor** is a registry of named templates. `generateWorkflow`
  makes an instance of a stored template. It replaces every `{{name}}`
  placeholder in every string of the template with a caller-supplied
  variable.
- **WorkflowValidator** has two checks.
  - `validateWorkflow` checks the required sections, the metadata fields
    and the per-phase `deliverables` / `success_criteria` arrays. It reports
    errors and warnings.
  - `validateCheckpointTiming` checks that the `Day n` / `Week n` offsets
    named in a list of checkpoint texts strictly increase.
- **IterationHelper** builds a feedback-checkpoint schedule and a
  sprint-by-sprint breakdown of a number of days. Each sprint gets a
  foundation / development / refinement focus.
- **ConfigGenerator** derives the agent roster for a focus area and one
  review sync point per rapid-iteration checkpoint.

The model is organised as follows.

- `Json.dfy`: JSON values as a datatype (`Json`). It also defines
  JavaScript truthiness, property reads (`Get`) and `Object.entries`.
  - Object entries keep their stored order.
- `Text.dfy`: character classes and decimal printing and parsing. These are
  what `\d`, `\w`, `${n}` and `parseInt` need.
- `Substitution.dfy`: the placeholder scanner and the recursive
  substitution.
- `Templates.dfy`: the registry as a class with a mutable `templates` map.
- `Validation.dfy`: `validateWorkflow` and `validateCheckpointTiming`.
  - Each is a method with loops, proved equal to a specification function
    (`Validate`, `CheckpointTiming`).
- `Iteration.dfy`: the feedback schedule and the sprint breakdown.
  - Each is a method with a loop, proved against a specification.
- `Config.dfy`: the agent configuration.

A JavaScript `TypeError` is modelled as a `Failure(TypeError)` result. The
model keeps every input that can raise one:

- reading a property of a `null` workflow;
- `Object.entries(null)` on a phase container;
- reading the fields of a `null` phase;
- calling `.match` on a checkpoint that is not a string;
- calling `.map` on a truthy `rapid_iteration_checkpoints` that is not an
  array.

## Model

| member | source | states |
|---|---|---|
| Text.NatToString | templates/utility-functions.js:202 | the decimal text of a day number is non-empty and made of digits only |
| Text.ParsePrinted | templates/utility-functions.js:141-144 | `parseInt` of the digits captured by `\d+` gives back the printed day number (print/parse round trip) |
| Text.DigitRunSpec | templates/utility-functions.js:141-142 | the greedy `\d+` run: every character in it is a digit, and the character after it is not |
| Text.WordRunSpec | templates/utility-functions.js:51 | the greedy `\w+` run: every character in it is a word character, and the character after it is not |
| Json.Lookup | templates/utility-functions.js:88 | a property is found exactly when some entry has that key, and what is found is stored under that key |
| Json.Get | templates/utility-functions.js:97 | reading a fixed property of anything other than an object gives `undefined` |
| Json.Entries | templates/utility-functions.js:112 | `Object.entries`: an object gives its entries; an array gives index names paired with the items; a string gives one entry per character; other values give none |
| Substitution.PlaceholderMatched | templates/utility-functions.js:51 | a match of `/\{\{(\w+)\}\}/` at the start of a string: the captured name is a non-empty run of word characters, and the matched text is exactly `{{name}}` |
| Substitution.PlaceholderRecognised | templates/utility-functions.js:51 | every `{{name}}` with a non-empty word-character name is matched, whatever follows it |
| Substitution.ReplaceAll | templates/utility-functions.js:51-53 | the global `{{key}}` replace: its contract is stated by the `ReplaceAll…` lemmas below |
| Substitution.ReplaceAllPlaceholder | templates/utility-functions.js:51-53 | a matched placeholder is replaced by the variable's value, or kept when that is absent or empty; scanning resumes after the match, so a replacement is never rescanned |
| Substitution.ReplaceAllNoPlaceholder | templates/utility-functions.js:51-53 | a string with no placeholder is unchanged |
| Substitution.ReplaceAllUnresolved | templates/utility-functions.js:52 | when every supplied variable is empty, every placeholder falls back to the matched text, so the string is unchanged |
| Substitution.ReplaceAllFills | templates/utility-functions.js:50-54 | replacing in a text built from literal pieces (without placeholders) and placeholders fills each placeholder and keeps every literal piece: a `g` replace is a left-to-right fill of the rendered template |
| Substitution.ReplaceAllIdempotent | templates/utility-functions.js:50-54 | when the result has no placeholder left, substituting again changes nothing |
| Substitution.Substitute | templates/utility-functions.js:49-69 | `substituteVariables` keeps the shape of the value: non-string scalars are unchanged, strings stay strings, arrays keep their length and objects their keys in order |
| Substitution.SubstituteItems | templates/utility-functions.js:56-58 | `obj.map(...)`: the same length, and each item substituted on its own |
| Substitution.SubstituteEntry | templates/utility-functions.js:62-63 | one `result[key] = ...`: the key is kept and the value is substituted |
| Substitution.SubstituteEntries | templates/utility-functions.js:60-66 | the object loop: the same keys in the same order, and each value substituted |
| Substitution.SubstituteNoPlaceholders | templates/utility-functions.js:49-69 | a value with no placeholder in any string comes back unchanged |
| Substitution.SubstituteUnresolved | templates/utility-functions.js:49-69 | with every variable absent or empty, the value comes back unchanged |
| Substitution.SubstituteIdempotent | templates/utility-functions.js:49-69 | once no placeholder is left, substituting again changes nothing |
| Templates.Generate | templates/utility-functions.js:34-41 | generation fails exactly when the name is unregistered or holds a falsy template, with the message `Template <name> not found`; otherwise the result has the template's shape |
| Templates.GenerateVerbatim | templates/utility-functions.js:34-41 | a registered template without placeholders is generated as stored |
| Templates.GenerateWithoutVariables | templates/utility-functions.js:34 | with the default empty variables, the stored template is generated unchanged |
| Templates.TemplateProcessor.constructor | templates/utility-functions.js:8-11 | a new processor has an empty registry |
| Templates.TemplateProcessor.Register | templates/utility-functions.js:21 | storing a template updates that one name and leaves every other entry unchanged |
| Templates.TemplateProcessor.GenerateWorkflow | templates/utility-functions.js:34-41 | generation leaves the registry unchanged and returns `Generate` of the registry |
| Templates.GenerateThenReregister | templates/utility-functions.js:21-41 | generating from a template with variables does not change the stored template: the same template stored again is generated without variables as it was registered |
| Validation.Missing | templates/utility-functions.js:86-100 | exactly the keys whose value is falsy or absent get a message: every message names such a key, and every such key has its message (the key order is stated for two keys by `MissingPair`) |
| Validation.MissingPair | templates/utility-functions.js:86-100 | for two required keys, the first key's message (if its value is falsy or absent) comes before the second's |
| Validation.CheckPresent | templates/utility-functions.js:87-91 | the push loop over required keys yields exactly `Missing` |
| Validation.Validate | templates/utility-functions.js:81-129 | a thrown exception is a `TypeError`, and a report is `valid` exactly when it has no error |
| Validation.ValidateWorkflow | templates/utility-functions.js:81-129 | the loops return exactly `Validate` of the document, including when an exception escapes |
| Validation.CheckSections | templates/utility-functions.js:104-122 | the loop over the phase keys of `sections` gives exactly the collected phase warnings, or the exception |
| Validation.CheckPhases | templates/utility-functions.js:112-119 | the loop over the phases of one container gives exactly the collected phase warnings, or the exception on a `null` phase |
| Validation.CollectSome | templates/utility-functions.js:109-121 | a loop of warning pushes completes exactly when no step throws |
| Validation.CollectThrows | templates/utility-functions.js:109-121 | a throwing step aborts the whole loop |
| Validation.ValidateErrors | templates/utility-functions.js:86-91 | the errors are exactly one `Missing required section` message per falsy required section, `metadata` first |
| Validation.ValidIffSectionsPresent | templates/utility-functions.js:124-128 | warnings never affect `valid`: a document is valid exactly when both `metadata` and `sections` are truthy |
| Validation.ValidateThrows | templates/utility-functions.js:81-122 | validation throws exactly when the document is `null`, or a phase key of `sections` holds `null` or a container with a `null` phase |
| Validation.MetadataFieldWarning | templates/utility-functions.js:93-101 | a `Missing metadata field` warning is given exactly when the metadata is present, the field is required and the field is falsy |
| Validation.PhaseWarningShape | templates/utility-functions.js:114-117 | every phase warning begins with `Phase`, so it can never be mistaken for a metadata warning |
| Validation.PhaseWarningReported | templates/utility-functions.js:104-122 | every phase (under a phase key) whose `deliverables` or `success_criteria` is not an array gets the warning that names it |
| Validation.PhaseWarningOrigin | templates/utility-functions.js:104-122 | conversely, every `Phase <name> missing <field> array` warning comes from a phase named `name`, under a phase key of `sections`, whose `field` is not an array |
| Validation.PhaseFieldWarningInjective | templates/utility-functions.js:112-118 | a phase warning determines the phase name and the field it reports |
| Validation.PhaseKeyMeansPhase | templates/utility-functions.js:105-107 | a key is a phase key exactly when it contains `phase`; the `phases` test adds nothing |
| Validation.ValidateEmptyDocument | templates/utility-functions.js:81-129 | `{}` is invalid, with both section errors and no warning |
| Validation.ValidateEmptySections | templates/utility-functions.js:81-129 | `{metadata: {}, sections: {}}` is valid, with both metadata-field warnings |
| Validation.Timings | templates/utility-functions.js:140-147 | the extracted offsets exist exactly when every checkpoint is a string, are all positive, and are no more than the checkpoints |
| Validation.Positive | templates/utility-functions.js:147 | `.filter(timing => timing > 0)`: an entry is in the result exactly when it is a positive entry of the input, and the result is never longer (order and repetitions: `PositiveAppend`, `PositiveSingle`) |
| Validation.PositiveAppend | templates/utility-functions.js:147 | filtering a joined list is filtering each part and joining, so the kept entries keep their order and repetitions |
| Validation.PositiveSingle | templates/utility-functions.js:147 | a single entry is kept exactly when it is positive |
| Validation.TimingsMapFilter | templates/utility-functions.js:140-147 | the timings of string checkpoints are their day offsets, mapped in input order, with the zeros filtered out |
| Validation.FirstTagged | templates/utility-functions.js:141-142 | the first match of `<tag>(\d+)`: its contract is stated by `FirstTaggedNone` and `FirstTaggedAt` |
| Validation.FirstTaggedNone | templates/utility-functions.js:141-142 | no match exactly when the tag never occurs directly followed by a digit |
| Validation.FirstTaggedAt | templates/utility-functions.js:141-142 | at the leftmost occurrence of the tag followed by a digit, the match reads the whole digit run after it |
| Validation.LeadingNumberOf | templates/utility-functions.js:144-145 | `parseInt` of a run of digits followed by a non-digit is the number the digits spell |
| Validation.CheckpointDay | templates/utility-functions.js:140-146 | the day offset of one checkpoint: its contract is stated by `DayTagWins`, `WeekOfCheckpoint` and `UntaggedCheckpoint` |
| Validation.DayTagWins | templates/utility-functions.js:141-144 | the leftmost `Day <n>` decides the offset, wherever it stands and whatever `Week` text the checkpoint also has |
| Validation.WeekOfCheckpoint | templates/utility-functions.js:142-145 | without any `Day <n>`, the leftmost `Week <w>` gives 7w |
| Validation.UntaggedCheckpoint | templates/utility-functions.js:146 | a checkpoint with neither `Day <n>` nor `Week <n>` has offset 0 |
| Validation.CheckpointTiming | templates/utility-functions.js:136-157 | a non-array gives `false`; the check throws exactly when an array item is not a string |
| Validation.ValidateCheckpointTiming | templates/utility-functions.js:136-157 | the neighbour loop with early `false` returns exactly `CheckpointTiming`: `true` iff the positive offsets strictly increase |
| Validation.AdjacentIncreasing | templates/utility-functions.js:150-156 | increasing neighbours mean the whole sequence strictly increases |
| Validation.DayOfCheckpoint | templates/utility-functions.js:141-144 | a checkpoint that begins with `Day <d>` and has no digit after it names day `d` |
| Validation.TimingsOfDays | templates/utility-functions.js:140-147 | a list of `Day <d>` checkpoints yields exactly its days as timings |
| Validation.IncreasingDaysPass | templates/utility-functions.js:136-157 | `Day <d>` checkpoints with positive days pass the timing check exactly when their days strictly increase |
| Iteration.CheckpointLabels | templates/utility-functions.js:174-198 | every focus area (unknown ones fall back to `technical`) has five labels |
| Iteration.Interval | templates/utility-functions.js:172 | the interval is at least one day, and five intervals fit in the total once it has five days |
| Iteration.GenerateFeedbackLoops | templates/utility-functions.js:170-206 | `min(5, totalDays)` checkpoints; the i-th is `Day <(i+1)*interval>: <i-th label>`, and every day lies in 1..totalDays (so the clamp never takes effect); the schedule passes `validateCheckpointTiming` |
| Iteration.DayWithinTotal | templates/utility-functions.js:200-201 | inside the loop, the day of a checkpoint lies in 1..totalDays |
| Iteration.LoopRunsToMin | templates/utility-functions.js:200 | the loop stops after exactly `min(5, totalDays)` rounds |
| Iteration.FeedbackLoopsPassTiming | templates/utility-functions.js:136-206 | a feedback schedule as generated (whatever its labels) always passes `validateCheckpointTiming` |
| Iteration.SprintFocusMonotone | templates/utility-functions.js:240-246 | the focus never goes back: later sprints have the same or a later focus |
| Iteration.GetSprintFocus | templates/utility-functions.js:240-246 | the last sprint (ratio 1) is always refinement, and the first of four or more sprints (ratio at most 0.25) is foundation |
| Iteration.SprintCount | templates/utility-functions.js:216 | `Math.ceil(totalDays / sprintLength)`: no sprint exactly when there are no days, and never more sprints than days (`CeilBounds` gives the ceiling bounds) |
| Iteration.Breakdown | templates/utility-functions.js:216-229 | the sprint list the loop builds, one `SprintAt` per sprint: its contract is stated by `BreakdownContiguous`, `BreakdownCoversDays` and `BreakdownFocus` |
| Iteration.CalculateSprintBreakdown | templates/utility-functions.js:214-232 | the loop returns exactly `Breakdown`, one sprint per `ceil(totalDays / sprintLength)` |
| Iteration.CeilBounds | templates/utility-functions.js:216 | the sprint count is the least count whose sprints cover the total |
| Iteration.SprintStartsWithin | templates/utility-functions.js:219 | every sprint starts within the total |
| Iteration.SprintShape | templates/utility-functions.js:218-228 | sprint i is numbered i+1 and starts on day i*sprintLength+1; it ends after a full sprint length, except the last sprint, which ends on the final day; its duration is end - start + 1, between 1 and the sprint length |
| Iteration.BreakdownContiguous | templates/utility-functions.js:214-232 | sprints exist iff there are days; they are numbered from 1 and run from day 1 to the total without gap or overlap; each duration is end - start + 1, between 1 and the sprint length |
| Iteration.SumDurationsPrefix | templates/utility-functions.js:218-229 | the first k sprints cover `min(k * sprintLength, totalDays)` days |
| Iteration.BreakdownCoversDays | templates/utility-functions.js:214-232 | the durations add up to the total number of days |
| Iteration.BreakdownFocus | templates/utility-functions.js:227 | focus never goes back along the breakdown, and the last sprint is refinement |
| Iteration.SprintBreakdownExample | templates/utility-functions.js:214-246 | 14 days in 7-day sprints give two full sprints, in development then refinement |
| Config.AgentNames | templates/utility-functions.js:311 | `Object.keys(config.agents)`: one name per agent, in order |
| Config.GenerateAgentConfig | templates/utility-functions.js:258-317 | throws exactly on a `null` workflow or a truthy non-array of checkpoints; otherwise the fixed coordination and execution settings, the focus area's agents, and one `review` sync point per checkpoint with all agent names as participants |
| Config.Roles | templates/utility-functions.js:276-303 | the agent roles of a focus area: its contract is stated by `RolesByFocusArea` |
| Config.RolesByFocusArea | templates/utility-functions.js:276-303 | the three known focus areas give four agents with distinct names, the first two high priority and the rest medium; any other value gives no agent |

## Left out

- `loadTemplate` is left out: it loads a module asynchronously through dynamic `import`. Only its store step (`this.templates[name] = ...`) is modelled, as `Register`. The `template.default || template` choice belongs to module loading and is not modelled either.
- The `this.variables` field is left out: no method reads or writes it after the constructor.
- The JSON deep copy in `generateWorkflow` is the identity on immutable values. Its failure on values that are not JSON (functions, cycles) cannot arise in the `Json` type.
- Numbers are unbounded integers. Floating-point values, `NaN` and `Infinity` in documents or arguments are not modelled, and neither is the rounding of integers of 2^53 or more.
- Validation.CheckpointDay: assumes the captured digit runs spell numbers below 2^53. `parseInt` rounds longer runs, so the source can see two distinct days of 2^53 or more as equal and fail the timing check where the model (`Validation.IncreasingDaysPass`, `Validation.TimingsMapFilter`) reads them exactly.
- Iteration.GenerateFeedbackLoops: assumes `totalDays` below 2^53. Larger totals round in `totalDays / 5`, and from 1e21 on `${day}` prints in exponent form (`Day 1.8e+21`), which `/Day (\d+)/` reads as 1; the model's texts and its passing timing check (`Iteration.FeedbackLoopsPassTiming`) hold only below that bound.
- Iteration.GenerateFeedbackLoops: `totalDays` is a natural number. Negative or fractional totals, and the default argument of 14, are not modelled.
- Iteration.CalculateSprintBreakdown: requires `sprintLength >= 1`. A zero length makes `Math.ceil` give `Infinity`, and the source loops without end for a positive total. The default argument of 7 is not modelled.
- Iteration.GetSprintFocus: compares `sprintNumber / totalSprints` with 0.3 and 0.7 exactly, by cross-multiplication. It does not model IEEE rounding of the ratio. For `totalSprints == 0` it gives refinement, as `Infinity` and `NaN` do.
- JavaScript lists integer-like object keys first in ascending order, before the other keys. `Entries` keeps the stored order instead.
- Duplicate keys in an object are not excluded. A property read takes the first entry with the key, while the loops go over every entry.
- Inherited properties are not modelled. A variable name or template name such as `constructor`, read through the prototype chain, is treated as absent.
- Variable values are strings. A non-string value, which the source would convert to text, is not modelled.
- The regular-expression engine is not modelled in general. Only the three fixed patterns `{{\w+}}`, `Day (\d+)` and `Week (\d+)` are scanned, over ASCII digits and word characters.
- `parseInt` is modelled only on the digit runs these patterns capture, and is exact only below 2^53.
- Serialising the generated objects is not modelled, and neither is any further use of them.

## Notes

- For a natural total below 2^53, the `Math.min` clamp in `generateFeedbackLoops` never takes effect, so days never repeat (`Iteration.GenerateFeedbackLoops`).
- `validateWorkflow` tests falsiness, so an empty string, `0`, `false` or `null` counts as missing.
- A variable whose value is the empty string leaves the placeholder in place (`variables[key] || match`).
- `Object.entries` accepts arrays, and `typeof null === 'object'`. So an array of phases is validated by index, and a `null` phase container throws (`Validation.ValidateThrows`).
- For 14 days in 7-day sprints, the first sprint's ratio is 0.5, so its focus is development (`Iteration.SprintBreakdownExample`).
