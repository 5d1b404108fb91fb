# Meeting Markdown export, modelled in Dafny

This project models the OpenProject plugin that exports a meeting as a Markdown document:

- `Meetings::MarkdownExporter` renders a meeting snapshot line by line. The lines are:
  - a byte order mark;
  - the title heading;
  - the project, date, time and optional location;
  - an optional participants section;
  - an optional agenda whose items are numbered 1..N, each with its notes and, optionally, its outcomes.

  The lines are joined with newlines and wrapped as a `text/markdown` export result.
- The decorated meetings controller, and the stand-alone `Meetings::MarkdownExportsController`, do two things:
  - turn the submitted checkbox parameters into the `participants`/`outcomes` options;
  - create the export record. The decorator falls back to the core exports table when the plugin's own table is missing.
- `Meetings::MarkdownExportJob` decides which options hash the exporter's two flags are read from.

The document is specified by a pure function, `MarkdownExporter.MarkdownLines`. The exporter's loops are imperative methods that append to a sequence of lines. Each method is proved to produce exactly that function's lines. The properties of the document are lemmas about `MarkdownLines`. The options hash is specified by `MeetingsControllerDecorator.ExportOptions`. The controller's hash manipulation (delete, overwrite, slice) is a method proved equal to it.

Modules:
- `Wrappers`: `Option`, `Result`.
- `Text`: the Ruby string operations used: `present?`, `include?`, `Integer#to_s`, zero padding, `join`, and a `Split` that inverts `join`.
- `RequestParams`: parameter values, lookup, and Ruby `||`.
- `MarkdownExporter`
- `MeetingsControllerDecorator`
- `MarkdownExportsController`
- `MarkdownExportJob`
- `ExportExamples`: concrete instances taken from the test descriptions.

Two consequences of the code are worth stating:

- **An option missing from the request is off.** The exporter's keywords default to `true` (app/workers/meetings/markdown_exporter.rb:35). But the job always passes both keywords (app/workers/meetings/markdown_export_job.rb:55), so that default never applies. An option missing from the request reaches the exporter as `nil`, which casts to a false condition. `MarkdownExportJob.DefaultNeverApplies` and `MarkdownExportJob.NothingSubmittedDisables` state this.
- **A blank checkbox leaves the raw entry, and a raw list counts as on.** When the chosen value normalises to `nil` or a blank string, the raw `participants`/`outcomes` entry is left as it was. That entry may be a list, and a list casts to `true` even when it holds only "0". `MarkdownExportJob.BlankCheckboxKeepsRawList` states this.

## Model

| member | source | states |
|---|---|---|
| MarkdownExporter.Export | app/workers/meetings/markdown_exporter.rb:46-53 | the result has format `"markdown"`, MIME type `text/markdown`, title equal to the meeting title plus `.md`, and as content the document's lines joined with newlines |
| MarkdownExporter.GenerateMarkdown | app/workers/meetings/markdown_exporter.rb:71-126 | the text built by appending section by section equals `MarkdownLines` for the two cast flags, joined with "\n" |
| MarkdownExporter.HeaderBlock | app/workers/meetings/markdown_exporter.rb:72-86 | the opening appends give the byte order mark followed by the header lines, location included only when present |
| MarkdownExporter.AppendParticipants | app/workers/meetings/markdown_exporter.rb:88-95 | the participants loop appends exactly the participants section: heading, one bullet per name in order, blank line, or nothing |
| MarkdownExporter.AppendAgenda | app/workers/meetings/markdown_exporter.rb:100-123 | the `each_with_index` loop appends the agenda heading and every item's block numbered from 1, or nothing without items |
| MarkdownExporter.AppendAgendaItem | app/workers/meetings/markdown_exporter.rb:104-121 | one iteration appends the item's heading, notes block, outcomes block and blank line, exactly as `ItemLines` |
| MarkdownExporter.AppendNotes | app/workers/meetings/markdown_exporter.rb:106-110 | appends exactly the notes block: blank line, description label and notes when the notes are present, else nothing |
| MarkdownExporter.AppendOutcomesBlock | app/workers/meetings/markdown_exporter.rb:113-119 | the inner loop over outcomes appends exactly the outcomes block: blank line, `**Outcomes:**` and each outcome's lines in order, when enabled and non-empty |
| MarkdownExporter.IsEnabled | app/workers/meetings/markdown_exporter.rb:57-63 | an omitted keyword is on, `nil` is off, a boolean is itself, "1" is on and "0" is off |
| MarkdownExporter.DateTimeFormat | app/workers/meetings/markdown_exporter.rb:83-84 | for a four-digit year and in-range fields, the date is `YYYY-MM-DD` and the time `HH:MM`, fixed width with their separators, each field reading back as the value written |
| MarkdownExporter.DocumentLayout | app/workers/meetings/markdown_exporter.rb:74-86 | the document starts with BOM, title heading, blank line, project, date and time lines, then the location line exactly when present, then a blank line, followed by the participants section and then the agenda section |
| MarkdownExporter.ParticipantLines | app/workers/meetings/markdown_exporter.rb:89-95 | the participants section is non-empty iff the flag is on and there is a participant, and is then the heading, one `- name` bullet per participant in order, and a blank line |
| MarkdownExporter.ParticipantsHiddenWhenDisabled | app/workers/meetings/markdown_exporter.rb:89 | with the flag off the document equals the one for the same meeting with no participants |
| MarkdownExporter.AgendaLines | app/workers/meetings/markdown_exporter.rb:101-102 | the agenda section is non-empty iff there is an agenda item, and then starts with `## Agenda` followed by the items' lines |
| MarkdownExporter.AgendaItemTitle | app/workers/meetings/markdown_exporter.rb:128-130 | the title is the display title when the item responds to `display_title`, and the stored title otherwise |
| MarkdownExporter.ItemHeadingFormat | app/workers/meetings/markdown_exporter.rb:104 | the heading is "### ", then digits reading back as the item number with no leading zero, then ". ", then the item's title |
| MarkdownExporter.ItemBlockNumbered | app/workers/meetings/markdown_exporter.rb:103-104 | the item at index k is rendered, at its offset, as the block of item number k+1, heading `### k+1. title` first |
| MarkdownExporter.ItemsLinesIgnorePositions | app/workers/meetings/markdown_exporter.rb:103-104 | the stored positions do not affect the output: items differing only in position render identically |
| MarkdownExporter.ItemsLinesAppend | app/workers/meetings/markdown_exporter.rb:103-104 | rendering items in two runs numbers the second run on from the end of the first |
| MarkdownExporter.NotesLines | app/workers/meetings/markdown_exporter.rb:106-110 | the notes block is non-empty iff the notes are present, and is then a blank line, the bold description label and the notes |
| MarkdownExporter.OutcomesBlock | app/workers/meetings/markdown_exporter.rb:113-119 | the outcomes block is non-empty iff the flag is on and the item has an outcome, and is then a blank line, `**Outcomes:**` and the outcome bullets |
| MarkdownExporter.OutcomesHiddenWhenDisabled | app/workers/meetings/markdown_exporter.rb:113-119 | with the outcomes flag off the document equals the one for the same meeting with every outcome removed |
| MarkdownExporter.OutcomeLines | app/workers/meetings/markdown_exporter.rb:132-142 | an outcome gives exactly its bullet if it is a work package or has present notes and no line otherwise; a work package gives a `- **Task:** ` line, a note its `- notes` line |
| MarkdownExporter.OutcomesLinesAreBullets | app/workers/meetings/markdown_exporter.rb:116-118 | an item's outcomes render as exactly one bullet per rendering outcome, in order |
| MarkdownExporter.OutcomeWorkPackageTitle | app/workers/meetings/markdown_exporter.rb:144-154 | visible gives the work package's text; else linked gives the undisclosed label with the id; else deleted gives the deleted label; else the id as text (empty for `nil`) |
| MarkdownExporter.WorkPackageTitlePriority | app/workers/meetings/markdown_exporter.rb:144-154 | a higher-priority state decides the title whatever the lower-priority flags, id and text are |
| MarkdownExporter.DocumentLinesRecoverable | app/workers/meetings/markdown_exporter.rb:125 | when no line holds a newline, splitting the joined text at newlines gives back the lines |
| Text.NatToString | app/workers/meetings/markdown_exporter.rb:104 | `Integer#to_s` gives at least one decimal digit, reads back as the number, and has no leading zero unless the number is zero |
| Text.ZeroPad | app/workers/meetings/markdown_exporter.rb:83-84 | a padded field is all digits, reads back as the number, and has length max(width, number of digits), with no leading zero when the number is positive and wider than the field |
| Text.ZeroPadWidth | app/workers/meetings/markdown_exporter.rb:83-84 | a value below 10^width fills its padded field exactly |
| Text.Contains | app/controllers/meetings_controller_decorator.rb:106 | `include?` holds iff the substring occurs at some index |
| Text.SplitJoin | app/workers/meetings/markdown_exporter.rb:125 | splitting a join at its one-character separator gives back the pieces when none contains the separator |
| RequestParams.Or | app/controllers/meetings_controller_decorator.rb:70-71 | `||` on two lookups: a present parameter, even "" or "0", wins; otherwise the second lookup |
| MeetingsControllerDecorator.NormalizeCheckboxOption | app/controllers/meetings_controller_decorator.rb:79-90 | `nil` stays `nil`; the result is always a submitted string; it is "1" iff "1" was submitted; a scalar passes through; a list without "1" gives its last element or `nil` when empty |
| MeetingsControllerDecorator.ExportOptions | app/controllers/meetings_controller_decorator.rb:67-77 | the options hash has no key but `participants`/`outcomes`, and each holds the present normalised chosen value, else the raw entry |
| MeetingsControllerDecorator.MarkdownExportOptions | app/controllers/meetings_controller_decorator.rb:67-77 | deleting the checkbox keys, overwriting with present normalised values and slicing gives exactly `ExportOptions` |
| MeetingsControllerDecorator.IncludeKeyTakesPrecedence | app/controllers/meetings_controller_decorator.rb:70-71 | a checkbox key that normalises to a present value decides the option whatever the plain key holds |
| MeetingsControllerDecorator.CheckedBoxWins | app/controllers/meetings_controller_decorator.rb:85-86 | when "1" is among the chosen submitted strings, the option is "1" |
| MeetingsControllerDecorator.BlankOptionKeepsRawEntry | app/controllers/meetings_controller_decorator.rb:73-74 | a `nil` or blank normalised value leaves the raw entry, present or absent, as it was |
| MeetingsControllerDecorator.ExportOptionsIgnoresOtherKeys | app/controllers/meetings_controller_decorator.rb:76 | parameters other than the two options and their checkbox keys do not affect the result |
| MeetingsControllerDecorator.PlainOptionsPassThrough | app/controllers/meetings_controller_decorator.rb:68-76 | without checkbox keys, present plain scalar strings are passed on unchanged and nothing else is |
| MeetingsControllerDecorator.MissingPluginExportTable | app/controllers/meetings_controller_decorator.rb:102-107 | true iff the cause is an undefined-table error whose message contains `meeting_markdown_exports` |
| MeetingsControllerDecorator.CreateMarkdownExport | app/controllers/meetings_controller_decorator.rb:92-100 | a created record is returned; a `StatementInvalid` for the missing plugin table gives the outcome of the core table's `create!` with type `MeetingMarkdownExport`; every other error is re-raised |
| MeetingsControllerDecorator.OnlyMissingTableFallsBack | app/controllers/meetings_controller_decorator.rb:94-99 | whenever the result is not the plugin table's own outcome, that outcome was a `StatementInvalid` caused by the missing plugin table |
| MeetingsControllerDecorator.MissingRelationErrorFallsBack | app/controllers/meetings_controller_decorator.rb:102-107 | an undefined-table error whose message names the plugin table anywhere leads to the fallback |
| MarkdownExportsController.MarkdownExportOptions | app/controllers/meetings/markdown_exports_controller.rb:76-99 | the stand-alone controller, whose options code and `normalize_checkbox_option` are the decorator's, passes on the same options hash as the decorator |
| MarkdownExportsController.CreateExport | app/controllers/meetings/markdown_exports_controller.rb:58 | a plain `create!`: success and every error, a missing table included, pass through unchanged |
| MarkdownExportsController.CreateAgreesWithDecoratorUnlessTableMissing | app/controllers/meetings/markdown_exports_controller.rb:58 | the two controllers agree except on the missing-table error, which this one raises and the decorator recovers from |
| MarkdownExportJob.ExporterOptions | app/workers/meetings/markdown_export_job.rb:51 | a nested options hash, even an empty one, is used; otherwise the direct keywords |
| MarkdownExportJob.ExporterFlag | app/workers/meetings/markdown_export_job.rb:53-55 | the keyword is always given, and is `nil` exactly when the key is absent |
| MarkdownExportJob.ExporterFlags | app/workers/meetings/markdown_export_job.rb:51-55 | the participants and outcomes keywords are read from the same unwrapped hash |
| MarkdownExportJob.FlagIsResolvedOption | app/workers/meetings/markdown_export_job.rb:51-55 | through an enqueued job the exporter sees, for each option, the entry the controller resolved, or `nil` |
| MarkdownExportJob.DefaultNeverApplies | app/workers/meetings/markdown_export_job.rb:53-55 | neither keyword is ever omitted, and a missing option is off |
| MarkdownExportJob.CheckedCheckboxEnables | app/workers/meetings/markdown_export_job.rb:51-55 | a request with "1" among the chosen strings turns that section on |
| MarkdownExportJob.UncheckedCheckboxDisables | app/workers/meetings/markdown_export_job.rb:51-55 | a checkbox submitting only its hidden "0", as a scalar or a one-element list, turns that section off, whatever the plain key holds |
| MarkdownExportJob.NothingSubmittedDisables | app/workers/meetings/markdown_export_job.rb:55 | a request naming neither the checkbox nor the plain key leaves that section out |
| MarkdownExportJob.BlankCheckboxKeepsRawList | app/controllers/meetings_controller_decorator.rb:73-74 | a blank checkbox value with a raw list `["0"]` under the plain key turns that section on |
| MarkdownExportJob.DirectOutcomesKeyword | app/workers/meetings/markdown_export_job.rb:51 | a job called directly with `outcomes: "1"` includes outcomes, with "0" excludes them, and leaves participants out |
| MarkdownExportJob.NestedOptionsShadowDirect | app/workers/meetings/markdown_export_job.rb:51 | with a nested options hash, the other keywords cannot change the flags |
| ExportExamples.TestMeetingDateTime | app/workers/meetings/markdown_exporter.rb:83-84 | 2024-12-31 13:30 is shown as `2024-12-31` and `13:30` |
| ExportExamples.ItemWithOutcomeExample | app/workers/meetings/markdown_exporter.rb:104-121 | the first item with a description and a note outcome renders its exact lines with the flag on, and without the outcome lines with it off |
| ExportExamples.PassesOptionsToJob | app/controllers/meetings_controller_decorator.rb:67-77 | `participants=1&outcomes=0` gives exactly the options participants "1" and outcomes "0" |

## Left out

- Loading the meeting: the reload with eager loading (`reloaded_meeting`), its memoisation and the SQL `order(:position)`. The agenda is given as a sequence already in position order; the order of items with equal positions is not specified by the code.
- `Meeting.visible.find` and its not-found response, permission checks, and `generate_markdown_dialog` rendering: request plumbing with no stated behaviour.
- The JSON-versus-redirect response chosen from the `Accept` header, and `perform_later` queueing: HTTP and framework plumbing.
- I18n: the description, undisclosed and deleted work package labels are parameters (`Labels`); translation belongs to the host.
- Time zones and `strftime` on `Time` objects: the start time is given as already-zoned integer fields, and only zero-padded formatting is modelled. Negative years are not modelled.
- The `\xEF\xBB\xBF` byte order mark is modelled as the single character U+FEFF that those bytes encode; string encodings are not modelled.
- `MarkdownExporter.IsEnabled`: follows `ActiveModel::Type::Boolean` (`""` and `nil` off, the library's false strings off, everything else on, lists included). That library is not part of this model, and only the "1"/"0", boolean, omitted and `nil` cases are stated.
- Attachment storage, status upserts and the job's `title`/`prepare!`/`list_export?`: callbacks on host services not part of this model.
- Rails parameter parsing (`to_unsafe_h.symbolize_keys`): parameters are given as a map from key to a string or a list of strings. Nested hashes and `nil` values are not modelled.
- PG/ActiveRecord exception classes: an error is a kind plus an optional cause of a kind and a message.
- `MarkdownExportsController.MarkdownExportOptions`: the stand-alone controller's code is identical to the decorator's, so the model delegates to the decorator's method instead of repeating its steps.
- The engine registration (routes, permissions, MIME type, view-component overrides): framework configuration.
