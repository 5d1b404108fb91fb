/**
 * The request side of the export, as the decorated meetings controller does it:
 * turning the submitted checkbox parameters into the two export options, and
 * creating the export record, falling back to the core exports table when the
 * plugin's own table is missing.
 */
module MeetingsControllerDecorator {
  import opened Wrappers
  import opened Text
  import opened RequestParams

  const ParticipantsKey: string := "participants"
  const OutcomesKey: string := "outcomes"
  const ExportKeys: set<string> := {ParticipantsKey, OutcomesKey}

  /** The dialog's checkbox for an option: `md_include_participants`, `md_include_outcomes`. */
  function IncludeKey(key: string): (k: string)
    ensures k != key
  {
    "md_include_" + key
  }

  /**
   * `normalize_checkbox_option`. A checked checkbox submits its "1" together with
   * a hidden fallback "0"; whenever "1" is among the submitted strings it wins.
   * Otherwise a list yields its last element (`nil` for an empty list) and a
   * single string passes through. The result is always one of the submitted
   * strings.
   */
  function NormalizeCheckboxOption(value: Option<ParamValue>): (r: Option<string>)
    ensures value.None? ==> r.None?
    ensures r.Some? ==> value.Some? && r.value in Submitted(value.value)
    ensures r == Some("1") <==> value.Some? && "1" in Submitted(value.value)
    ensures value.Some? && value.value.Scalar? ==> r == Some(value.value.text)
    ensures value.Some? && value.value.List? && "1" !in value.value.items ==>
              r == if value.value.items == [] then None else Some(value.value.items[|value.value.items| - 1])
  {
    match value
    case None => None
    case Some(Scalar(text)) => Some(text)
    case Some(List(items)) =>
      if "1" in items then Some("1")
      else if items == [] then None
      else Some(items[|items| - 1])
  }

  /** `present?` on a normalised value: not `nil` and not blank. */
  predicate IsPresentOption(v: Option<string>) {
    v.Some? && IsPresent(v.value)
  }

  /** What `markdown_export_options` reads for `key`: the dialog's checkbox when submitted, else the plain key. */
  function ChosenValue(params: Params, key: string): Option<ParamValue> {
    Or(Lookup(params, IncludeKey(key)), Lookup(params, key))
  }

  /** What ends up under `key`: the normalised value when present, otherwise the raw entry, untouched. */
  function ResolvedOption(params: Params, key: string): Option<ParamValue> {
    var normalized := NormalizeCheckboxOption(ChosenValue(params, key));
    if IsPresentOption(normalized) then Some(Scalar(normalized.value)) else Lookup(params, key)
  }

  /** The options hash `markdown_export_options` hands to the export job. */
  function ExportOptions(params: Params): (options: Params)
    ensures options.Keys <= ExportKeys
    ensures forall key :: key in ExportKeys ==> Lookup(options, key) == ResolvedOption(params, key)
  {
    map key | key in ExportKeys && ResolvedOption(params, key).Some? :: ResolvedOption(params, key).value
  }

  /**
   * `markdown_export_options`: deletes the two checkbox keys from a copy of the
   * parameters, overwrites a plain key with its normalised value when that is
   * present, and keeps only the two option keys.
   */
  method MarkdownExportOptions(params: Params) returns (options: Params)
    ensures options == ExportOptions(params)
    ensures options.Keys <= ExportKeys
  {
    options := params;

    var includeParticipants := Lookup(options, IncludeKey(ParticipantsKey));
    options := options - {IncludeKey(ParticipantsKey)};
    var participants := NormalizeCheckboxOption(Or(includeParticipants, Lookup(options, ParticipantsKey)));

    var includeOutcomes := Lookup(options, IncludeKey(OutcomesKey));
    options := options - {IncludeKey(OutcomesKey)};
    var outcomes := NormalizeCheckboxOption(Or(includeOutcomes, Lookup(options, OutcomesKey)));

    assert options == params - {IncludeKey(ParticipantsKey), IncludeKey(OutcomesKey)};
    assert participants == NormalizeCheckboxOption(ChosenValue(params, ParticipantsKey)) by {
      DistinctKeys();
    }
    assert outcomes == NormalizeCheckboxOption(ChosenValue(params, OutcomesKey)) by {
      DistinctKeys();
    }
    ghost var deleted := options;

    if IsPresentOption(participants) {
      options := options[ParticipantsKey := Scalar(participants.value)];
    }
    if IsPresentOption(outcomes) {
      options := options[OutcomesKey := Scalar(outcomes.value)];
    }
    assert Lookup(options, ParticipantsKey) == ResolvedOption(params, ParticipantsKey) by {
      DistinctKeys();
      assert Lookup(deleted, ParticipantsKey) == Lookup(params, ParticipantsKey);
    }
    assert Lookup(options, OutcomesKey) == ResolvedOption(params, OutcomesKey) by {
      DistinctKeys();
      assert Lookup(deleted, OutcomesKey) == Lookup(params, OutcomesKey);
    }

    options := map key | key in options && key in ExportKeys :: options[key];
    SameOnExportKeys(options, ExportOptions(params));
  }

  lemma DistinctKeys()
    ensures ParticipantsKey != OutcomesKey
    ensures IncludeKey(ParticipantsKey) !in ExportKeys && IncludeKey(OutcomesKey) !in ExportKeys
    ensures IncludeKey(ParticipantsKey) != IncludeKey(OutcomesKey)
  {
    assert ParticipantsKey[0] != OutcomesKey[0];
    assert IncludeKey(ParticipantsKey)[11] != IncludeKey(OutcomesKey)[11];
  }

  /** Two option hashes over the option keys are equal when they agree on each option key. */
  lemma SameOnExportKeys(a: Params, b: Params)
    requires a.Keys <= ExportKeys && b.Keys <= ExportKeys
    requires forall key :: key in ExportKeys ==> Lookup(a, key) == Lookup(b, key)
    ensures a == b
  {
    assert a.Keys == b.Keys;
  }

  // ---------------------------------------------------------------------------
  // Properties of the options

  /**
   * A submitted checkbox key wins over the plain key whenever it normalises to a
   * present value, whatever the plain key holds (so a submitted "0" beats a
   * plain "1").
   */
  lemma {:induction false} IncludeKeyTakesPrecedence(params: Params, key: string, plain: ParamValue)
    requires key in ExportKeys && IncludeKey(key) in params
    requires IsPresentOption(NormalizeCheckboxOption(Some(params[IncludeKey(key)])))
    ensures key in ExportOptions(params) && key in ExportOptions(params[key := plain])
    ensures ExportOptions(params)[key] == ExportOptions(params[key := plain])[key]
              == Scalar(NormalizeCheckboxOption(Some(params[IncludeKey(key)])).value)
  {
    var other := params[key := plain];
    assert Lookup(ExportOptions(params), key) == ResolvedOption(params, key);
    assert Lookup(ExportOptions(other), key) == ResolvedOption(other, key);
  }

  /** Whenever "1" is among the strings submitted for an option, the option is "1". */
  lemma CheckedBoxWins(params: Params, key: string)
    requires key in ExportKeys
    requires ChosenValue(params, key).Some? && "1" in Submitted(ChosenValue(params, key).value)
    ensures key in ExportOptions(params) && ExportOptions(params)[key] == Scalar("1")
  {
    assert "1"[0] == '1' && !IsSpace("1"[0]);
    assert IsPresent("1");
    assert Lookup(ExportOptions(params), key) == ResolvedOption(params, key);
  }

  /** A `nil` or blank normalised value leaves the raw entry for the key as it was, absent or not. */
  lemma BlankOptionKeepsRawEntry(params: Params, key: string)
    requires key in ExportKeys
    requires !IsPresentOption(NormalizeCheckboxOption(ChosenValue(params, key)))
    ensures Lookup(ExportOptions(params), key) == Lookup(params, key)
  {
  }

  /** Without the checkboxes, present plain scalar strings are passed on unchanged and nothing else is. */
  lemma PlainOptionsPassThrough(params: Params, participants: string, outcomes: string)
    requires Lookup(params, ParticipantsKey) == Some(Scalar(participants)) && IsPresent(participants)
    requires Lookup(params, OutcomesKey) == Some(Scalar(outcomes)) && IsPresent(outcomes)
    requires IncludeKey(ParticipantsKey) !in params && IncludeKey(OutcomesKey) !in params
    ensures ExportOptions(params) == map[ParticipantsKey := Scalar(participants), OutcomesKey := Scalar(outcomes)]
  {
    SameOnExportKeys(ExportOptions(params), map[ParticipantsKey := Scalar(participants), OutcomesKey := Scalar(outcomes)]);
  }

  /** Only the two option keys and their checkbox keys matter; every other parameter is dropped. */
  lemma {:induction false} ExportOptionsIgnoresOtherKeys(params: Params, params': Params)
    requires forall key :: key in ExportKeys ==> Lookup(params, key) == Lookup(params', key)
    requires forall key :: key in ExportKeys ==> Lookup(params, IncludeKey(key)) == Lookup(params', IncludeKey(key))
    ensures ExportOptions(params) == ExportOptions(params')
  {
    forall key | key in ExportKeys
      ensures ResolvedOption(params, key) == ResolvedOption(params', key)
    {
      assert ChosenValue(params, key) == ChosenValue(params', key);
    }
  }

  // ---------------------------------------------------------------------------
  // Creating the export record

  datatype ErrorKind = StatementInvalid | OtherError

  /** The kind of the database error underneath a `StatementInvalid`. */
  datatype CauseKind = UndefinedTable | OtherCause

  datatype Cause = Cause(kind: CauseKind, message: string)

  /** An exception raised while creating the export record, with its `cause`. */
  datatype CreateError = CreateError(kind: ErrorKind, cause: Option<Cause>)

  /** A created export record and the single-table-inheritance type it is stored under. */
  datatype ExportRecord = ExportRecord(id: nat, stiType: string)

  const PluginExportTable: string := "meeting_markdown_exports"
  const MeetingMarkdownExportType: string := "MeetingMarkdownExport"

  /** `missing_plugin_export_table?`: the cause is an undefined-table error naming the plugin's table. */
  function MissingPluginExportTable(error: CreateError): (r: bool)
    ensures r <==> && error.cause.Some?
                   && error.cause.value.kind == UndefinedTable
                   && exists i: nat :: OccursAt(error.cause.value.message, PluginExportTable, i)
  {
    match error.cause
    case None => false
    case Some(cause) => cause.kind == UndefinedTable && Contains(cause.message, PluginExportTable)
  }

  /** The one failure `create_markdown_export!` rescues instead of re-raising. */
  predicate FallsBack(pluginCreate: Result<ExportRecord, CreateError>) {
    && pluginCreate.Err?
    && pluginCreate.error.kind == StatementInvalid
    && MissingPluginExportTable(pluginCreate.error)
  }

  /**
   * `create_markdown_export!`, given the outcome of `MeetingMarkdownExport.create!`
   * and `Export.create!` as a function of the type it is asked to store. The core
   * table is used only when the plugin table is missing, and then the record keeps
   * the plugin's type; every other outcome, success or error, is returned as is.
   */
  function CreateMarkdownExport(
    pluginCreate: Result<ExportRecord, CreateError>,
    coreCreate: string -> Result<ExportRecord, CreateError>
  ): (r: Result<ExportRecord, CreateError>)
    ensures pluginCreate.Ok? ==> r == pluginCreate
    ensures FallsBack(pluginCreate) ==> r == coreCreate(MeetingMarkdownExportType)
    ensures !FallsBack(pluginCreate) ==> r == pluginCreate
  {
    match pluginCreate
    case Ok(_) => pluginCreate
    case Err(e) =>
      if e.kind != StatementInvalid then pluginCreate
      else if !MissingPluginExportTable(e) then pluginCreate
      else coreCreate(MeetingMarkdownExportType)
  }

  /** Whenever the result is not the plugin table's own outcome, that outcome was the missing-table error. */
  lemma OnlyMissingTableFallsBack(
    pluginCreate: Result<ExportRecord, CreateError>,
    coreCreate: string -> Result<ExportRecord, CreateError>
  )
    requires CreateMarkdownExport(pluginCreate, coreCreate) != pluginCreate
    ensures pluginCreate.Err? && pluginCreate.error.kind == StatementInvalid
    ensures pluginCreate.error.cause.Some? && pluginCreate.error.cause.value.kind == UndefinedTable
    ensures Contains(pluginCreate.error.cause.value.message, PluginExportTable)
  {
  }

  /**
   * An undefined-table error whose message names the plugin table anywhere (as in
   * `ERROR: relation "meeting_markdown_exports" does not exist`) triggers the fallback.
   */
  lemma {:induction false} MissingRelationErrorFallsBack(
    before: string,
    after: string,
    coreCreate: string -> Result<ExportRecord, CreateError>
  )
    ensures var error := CreateError(StatementInvalid, Some(Cause(UndefinedTable, before + PluginExportTable + after)));
            CreateMarkdownExport(Err(error), coreCreate) == coreCreate(MeetingMarkdownExportType)
  {
    var message := before + PluginExportTable + after;
    assert message[|before|..|before| + |PluginExportTable|] == PluginExportTable;
    assert OccursAt(message, PluginExportTable, |before|);
  }
}
