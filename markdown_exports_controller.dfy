/**
 * `Meetings::MarkdownExportsController`, the stand-alone controller that serves
 * the same two actions as the decorated meetings controller. Its option
 * handling is the decorator's, line for line; it creates the export record
 * with a plain `create!` and has no fallback to the core exports table.
 */
module MarkdownExportsController {
  import opened Wrappers
  import opened RequestParams
  import Decorator = MeetingsControllerDecorator

  /**
   * `markdown_export_options`: the same deletes, overwrites and slice as the
   * decorator's, so the same options hash for every request.
   */
  method MarkdownExportOptions(params: Params) returns (options: Params)
    ensures options == Decorator.ExportOptions(params)
    ensures options.Keys <= Decorator.ExportKeys
  {
    options := Decorator.MarkdownExportOptions(params);
  }

  /**
   * `MeetingMarkdownExport.create!` on its own: a created record is returned and
   * every error, a missing table included, propagates to the caller.
   */
  function CreateExport(pluginCreate: Result<Decorator.ExportRecord, Decorator.CreateError>)
    : (r: Result<Decorator.ExportRecord, Decorator.CreateError>)
    ensures r.Err? <==> pluginCreate.Err?
    ensures r.Ok? ==> r.value == pluginCreate.value
    ensures r.Err? ==> r.error == pluginCreate.error
  {
    pluginCreate
  }

  /**
   * The two controllers create the same record, or raise the same error, in
   * every case but one: the plugin table is missing, where this controller
   * raises and the decorator returns the outcome of the core table's `create!`.
   */
  lemma CreateAgreesWithDecoratorUnlessTableMissing(
    pluginCreate: Result<Decorator.ExportRecord, Decorator.CreateError>,
    coreCreate: string -> Result<Decorator.ExportRecord, Decorator.CreateError>
  )
    ensures !Decorator.FallsBack(pluginCreate) ==>
              CreateExport(pluginCreate) == Decorator.CreateMarkdownExport(pluginCreate, coreCreate)
    ensures Decorator.FallsBack(pluginCreate) ==>
              && CreateExport(pluginCreate).Err?
              && Decorator.CreateMarkdownExport(pluginCreate, coreCreate)
                 == coreCreate(Decorator.MeetingMarkdownExportType)
  {
  }
}
