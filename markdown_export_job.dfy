/**
 * `Meetings::MarkdownExportJob`, as far as it decides how the exporter is
 * built: which hash the two options are read from, and the keywords passed on.
 * Together with the controllers' options and the exporter's flag cast, this
 * gives the path from the submitted request to the sections in the document.
 */
module MarkdownExportJob {
  import opened Wrappers
  import opened Text
  import opened RequestParams
  import opened MeetingsControllerDecorator
  import MarkdownExporter

  /**
   * The job's keyword options: `nested` is the hash under `options:` (what the
   * controllers enqueue), `direct` the other keywords it was called with.
   */
  datatype JobOptions = JobOptions(nested: Option<Params>, direct: Params)

  /** `options[:options] || options`: a nested hash, even an empty one, is truthy and wins. */
  function ExporterOptions(job: JobOptions): (opts: Params)
    ensures job.nested.Some? ==> opts == job.nested.value
    ensures job.nested.None? ==> opts == job.direct
  {
    if job.nested.Some? then job.nested.value else job.direct
  }

  /**
   * `opts[key]` passed as the exporter's keyword: always given, so the
   * exporter's default never applies, and `nil` when the key is absent.
   */
  function ExporterFlag(opts: Params, key: string): (f: MarkdownExporter.Flag)
    ensures !f.Omitted?
    ensures f.Nil? <==> key !in opts
    ensures key in opts ==> f == MarkdownExporter.ParamFlag(opts[key])
  {
    if key in opts then MarkdownExporter.ParamFlag(opts[key]) else MarkdownExporter.Nil
  }

  /** `exporter_single_list`: the `participants:` and `outcomes:` keywords the exporter receives. */
  function ExporterFlags(job: JobOptions): (flags: (MarkdownExporter.Flag, MarkdownExporter.Flag))
    ensures flags.0 == ExporterFlag(ExporterOptions(job), ParticipantsKey)
    ensures flags.1 == ExporterFlag(ExporterOptions(job), OutcomesKey)
  {
    var opts := ExporterOptions(job);
    (ExporterFlag(opts, ParticipantsKey), ExporterFlag(opts, OutcomesKey))
  }

  /** The job enqueued by either controller for a request: the options hash nested under `options:`. */
  function EnqueuedJob(params: Params): JobOptions {
    JobOptions(Some(ExportOptions(params)), map[])
  }

  /** Whether the section for option `key` ends up in the document, for a request submitted with `params`. */
  predicate SectionEnabled(params: Params, key: string)
    requires key in ExportKeys
  {
    var flags := ExporterFlags(EnqueuedJob(params));
    MarkdownExporter.IsEnabled(if key == ParticipantsKey then flags.0 else flags.1)
  }

  // ---------------------------------------------------------------------------
  // From the request to the document

  /** What the exporter sees for option `key` is the entry the controller resolved for it. */
  lemma FlagIsResolvedOption(params: Params, key: string)
    requires key in ExportKeys
    ensures var flags := ExporterFlags(EnqueuedJob(params));
            var f := if key == ParticipantsKey then flags.0 else flags.1;
            f == if ResolvedOption(params, key).Some? then MarkdownExporter.ParamFlag(ResolvedOption(params, key).value)
                 else MarkdownExporter.Nil
  {
    assert Lookup(ExportOptions(params), key) == ResolvedOption(params, key);
  }

  /** The exporter's `true` default is never reached through the job: a missing option is `nil`. */
  lemma DefaultNeverApplies(job: JobOptions)
    ensures !ExporterFlags(job).0.Omitted? && !ExporterFlags(job).1.Omitted?
    ensures ParticipantsKey !in ExporterOptions(job) ==> !MarkdownExporter.IsEnabled(ExporterFlags(job).0)
    ensures OutcomesKey !in ExporterOptions(job) ==> !MarkdownExporter.IsEnabled(ExporterFlags(job).1)
  {
  }

  /** A checked checkbox ("1" among the submitted strings) turns its section on. */
  lemma CheckedCheckboxEnables(params: Params, key: string)
    requires key in ExportKeys
    requires ChosenValue(params, key).Some? && "1" in Submitted(ChosenValue(params, key).value)
    ensures SectionEnabled(params, key)
  {
    CheckedBoxWins(params, key);
    FlagIsResolvedOption(params, key);
  }

  /**
   * An unchecked checkbox submits only its hidden "0", as a scalar or as a
   * one-element list, which turns the section off whatever the plain key holds.
   */
  lemma UncheckedCheckboxDisables(params: Params, key: string)
    requires key in ExportKeys
    requires IncludeKey(key) in params && Submitted(params[IncludeKey(key)]) == ["0"]
    ensures !SectionEnabled(params, key)
  {
    assert "0"[0] == '0' && !IsSpace("0"[0]);
    assert IsPresent("0");
    FlagIsResolvedOption(params, key);
  }

  /** A request that names neither the checkbox nor the plain key leaves the section out. */
  lemma NothingSubmittedDisables(params: Params, key: string)
    requires key in ExportKeys
    requires IncludeKey(key) !in params && key !in params
    ensures !SectionEnabled(params, key)
  {
    FlagIsResolvedOption(params, key);
  }

  /**
   * A blank checkbox value keeps the raw plain entry, and a raw list there is
   * read as enabled, even a list holding only "0".
   */
  lemma BlankCheckboxKeepsRawList(params: Params, key: string)
    requires key in ExportKeys
    requires IncludeKey(key) in params && params[IncludeKey(key)] == Scalar("")
    requires key in params && params[key] == List(["0"])
    ensures SectionEnabled(params, key)
  {
    assert IsBlank("");
    FlagIsResolvedOption(params, key);
  }

  /**
   * A job called directly with `outcomes: "1"` includes the outcomes, with
   * `outcomes: "0"` leaves them out, and with no participants keyword leaves
   * the participants out.
   */
  lemma DirectOutcomesKeyword(value: string)
    requires value == "1" || value == "0"
    ensures var flags := ExporterFlags(JobOptions(None, map[OutcomesKey := Scalar(value)]));
            && !MarkdownExporter.IsEnabled(flags.0)
            && (MarkdownExporter.IsEnabled(flags.1) <==> value == "1")
  {
    var opts := map[OutcomesKey := Scalar(value)];
    DistinctKeys();
    assert ParticipantsKey !in opts;
  }

  /** When the options arrive nested, the job's other keywords cannot change the flags. */
  lemma NestedOptionsShadowDirect(nested: Params, direct: Params, direct': Params)
    ensures ExporterFlags(JobOptions(Some(nested), direct)) == ExporterFlags(JobOptions(Some(nested), direct'))
  {
  }
}
