/**
 * `Meetings::MarkdownExporter`: renders a loaded meeting snapshot as a Markdown
 * document, one line at a time, and wraps it as an export result.
 *
 * The document is specified by `MarkdownLines`, a pure function building the
 * same sequence of lines the exporter appends to; `GenerateMarkdown` is the
 * exporter's loop, proved to produce exactly those lines joined with "\n".
 */
module MarkdownExporter {
  import opened Wrappers
  import opened Text
  import opened RequestParams

  // ---------------------------------------------------------------------------
  // The meeting snapshot

  /** The meeting's start time, already in the viewer's zone, as calendar and clock fields. */
  datatype DateTime = DateTime(year: nat, month: nat, day: nat, hour: nat, minute: nat)

  /**
   * An outcome recorded on an agenda item: a free-text note, or a reference to a
   * work package together with what the viewer may know of it. The three flags
   * are the answers of `visible_work_package?`, `linked_work_package?` and
   * `deleted_work_package?`; nothing makes them exclusive.
   */
  datatype Outcome =
    | NoteOutcome(notes: Option<string>)
    | WorkPackageOutcome(
        visible: bool,
        linked: bool,
        deleted: bool,
        workPackageId: Option<nat>,
        workPackageText: string)

  /** An agenda item; `displayTitle` is `None` when the item does not respond to `display_title`. */
  datatype AgendaItem = AgendaItem(
    position: int,
    title: string,
    displayTitle: Option<string>,
    notes: Option<string>,
    outcomes: seq<Outcome>)

  /** A meeting; `agendaItems` are in the order `order(:position)` returns them. */
  datatype Meeting = Meeting(
    title: string,
    projectName: string,
    startTime: DateTime,
    location: Option<string>,
    participantNames: seq<string>,
    agendaItems: seq<AgendaItem>)

  /**
   * The translated labels the exporter looks up: the agenda item description
   * attribute, the undisclosed work package label (given the id to interpolate)
   * and the deleted work package label.
   */
  datatype Labels = Labels(
    description: string,
    undisclosedWorkPackage: string -> string,
    deletedWorkPackage: string)

  /**
   * The `participants:` or `outcomes:` keyword the exporter is built with: left
   * out (the default `true` applies), `nil`, a Ruby boolean, or a request
   * parameter value.
   */
  datatype Flag = Omitted | Nil | BoolFlag(b: bool) | ParamFlag(value: ParamValue)

  /** `Exports::Result`; `format` is the exporter's format name. */
  datatype ExportResult = ExportResult(format: string, mimeType: string, title: string, content: string)

  // ---------------------------------------------------------------------------
  // Flags

  /** The strings `ActiveModel::Type::Boolean` casts to `false`. */
  const FalseStrings: set<string> := {"0", "f", "F", "false", "FALSE", "off", "OFF"}

  /**
   * `with_participants?` / `with_outcomes?`: the flag cast to a boolean and read
   * as a condition. An omitted keyword takes the default `true`; `nil` and `""`
   * cast to `nil`; an array is neither blank nor a false value.
   */
  function IsEnabled(flag: Flag): (r: bool)
    ensures flag.Omitted? ==> r
    ensures flag.Nil? ==> !r
    ensures flag.BoolFlag? ==> r == flag.b
    ensures flag == ParamFlag(Scalar("1")) ==> r
    ensures flag == ParamFlag(Scalar("0")) ==> !r
  {
    match flag
    case Omitted => true
    case Nil => false
    case BoolFlag(b) => b
    case ParamFlag(Scalar(s)) => s != "" && s !in FalseStrings
    case ParamFlag(List(_)) => true
  }

  // ---------------------------------------------------------------------------
  // The header block

  /** The UTF-8 byte order mark, U+FEFF, written as the first line. */
  const Bom: string := "\U{FEFF}"

  /** `strftime("%Y-%m-%d")`. */
  function DateText(t: DateTime): string {
    ZeroPad(t.year, 4) + "-" + ZeroPad(t.month, 2) + "-" + ZeroPad(t.day, 2)
  }

  /** `strftime("%H:%M")`. */
  function TimeText(t: DateTime): string {
    ZeroPad(t.hour, 2) + ":" + ZeroPad(t.minute, 2)
  }

  /** A calendar date and clock time a `Time` object can hold, with a four-digit year. */
  predicate ValidDateTime(t: DateTime) {
    && t.year < 10000
    && 1 <= t.month <= 12
    && 1 <= t.day <= 31
    && t.hour < 24
    && t.minute < 60
  }

  /** The date is `YYYY-MM-DD` and the time `HH:MM`, fixed width, and each field reads back as the value written. */
  lemma DateTimeFormat(t: DateTime)
    requires ValidDateTime(t)
    ensures var d := DateText(t);
            && |d| == 10 && d[4] == '-' && d[7] == '-'
            && AllDigits(d[..4]) && DecimalValue(d[..4]) == t.year
            && AllDigits(d[5..7]) && DecimalValue(d[5..7]) == t.month
            && AllDigits(d[8..]) && DecimalValue(d[8..]) == t.day
    ensures var h := TimeText(t);
            && |h| == 5 && h[2] == ':'
            && AllDigits(h[..2]) && DecimalValue(h[..2]) == t.hour
            && AllDigits(h[3..]) && DecimalValue(h[3..]) == t.minute
  {
    ZeroPadWidth(t.year, 4);
    ZeroPadWidth(t.month, 2);
    ZeroPadWidth(t.day, 2);
    ZeroPadWidth(t.hour, 2);
    ZeroPadWidth(t.minute, 2);
    var d := DateText(t);
    assert d[..4] == ZeroPad(t.year, 4);
    assert d[5..7] == ZeroPad(t.month, 2);
    assert d[8..] == ZeroPad(t.day, 2);
    var h := TimeText(t);
    assert h[..2] == ZeroPad(t.hour, 2);
    assert h[3..] == ZeroPad(t.minute, 2);
  }

  /** `meeting.location.present?`. */
  predicate HasLocation(m: Meeting) {
    m.location.Some? && IsPresent(m.location.value)
  }

  function HeaderLines(m: Meeting): seq<string> {
    ["# " + m.title, "", "**Project:** " + m.projectName,
     "**Date:** " + DateText(m.startTime), "**Time:** " + TimeText(m.startTime)]
    + (if HasLocation(m) then ["**Location:** " + m.location.value] else [])
    + [""]
  }

  // ---------------------------------------------------------------------------
  // Participants

  function Bullets(names: seq<string>): (lines: seq<string>)
    ensures |lines| == |names|
    ensures forall i :: 0 <= i < |names| ==> lines[i] == "- " + names[i]
  {
    seq(|names|, i requires 0 <= i < |names| => "- " + names[i])
  }

  /**
   * The participants section: present exactly when the flag is on and there is a
   * participant, and then a heading, one bullet per participant in order, and a
   * blank line.
   */
  function ParticipantLines(names: seq<string>, withParticipants: bool): (lines: seq<string>)
    ensures lines != [] <==> withParticipants && |names| > 0
    ensures lines != [] ==>
              && |lines| == |names| + 2
              && lines[0] == "## Participants"
              && (forall i :: 0 <= i < |names| ==> lines[i + 1] == "- " + names[i])
              && lines[|names| + 1] == ""
  {
    if withParticipants && |names| > 0 then ["## Participants"] + Bullets(names) + [""] else []
  }

  // ---------------------------------------------------------------------------
  // Outcomes

  /** `work_package_id.to_s`: `nil.to_s` is the empty string. */
  function IdText(id: Option<nat>): string {
    match id
    case None => ""
    case Some(n) => NatToString(n)
  }

  /**
   * `outcome_work_package_title`: the first of visible, linked and deleted that
   * holds decides; with none of them the raw id is printed.
   */
  function OutcomeWorkPackageTitle(o: Outcome, labels: Labels): (title: string)
    requires o.WorkPackageOutcome?
    ensures o.visible ==> title == o.workPackageText
    ensures !o.visible && o.linked ==> title == labels.undisclosedWorkPackage(IdText(o.workPackageId))
    ensures !o.visible && !o.linked && o.deleted ==> title == labels.deletedWorkPackage
    ensures !o.visible && !o.linked && !o.deleted ==> title == IdText(o.workPackageId)
  {
    if o.visible then o.workPackageText
    else if o.linked then labels.undisclosedWorkPackage(IdText(o.workPackageId))
    else if o.deleted then labels.deletedWorkPackage
    else IdText(o.workPackageId)
  }

  /**
   * A higher-priority state hides the lower ones: a visible work package shows
   * its text however the other flags stand, an undisclosed one its label whatever
   * the text, and the deleted label shows neither id nor text.
   */
  lemma WorkPackageTitlePriority(o: Outcome, labels: Labels, linked: bool, deleted: bool, id: Option<nat>, text: string)
    requires o.WorkPackageOutcome?
    ensures o.visible ==>
              OutcomeWorkPackageTitle(o.(linked := linked, deleted := deleted, workPackageId := id), labels) == o.workPackageText
    ensures !o.visible && o.linked ==>
              OutcomeWorkPackageTitle(o.(deleted := deleted, workPackageText := text), labels)
              == labels.undisclosedWorkPackage(IdText(o.workPackageId))
    ensures !o.visible && !o.linked && o.deleted ==>
              OutcomeWorkPackageTitle(o.(workPackageId := id, workPackageText := text), labels) == labels.deletedWorkPackage
  {
  }

  /** Whether an outcome produces a bullet: every work package does, a note only when its notes are present. */
  predicate Renders(o: Outcome) {
    o.WorkPackageOutcome? || (o.notes.Some? && IsPresent(o.notes.value))
  }

  /** The bullet an outcome that renders is shown as: a task line for a work package, the notes otherwise. */
  function OutcomeBullet(o: Outcome, labels: Labels): string
    requires Renders(o)
  {
    if o.WorkPackageOutcome? then "- **Task:** " + OutcomeWorkPackageTitle(o, labels) else "- " + o.notes.value
  }

  /** `outcome_lines`: the outcome's bullet when it renders, nothing otherwise. */
  function OutcomeLines(o: Outcome, labels: Labels): (lines: seq<string>)
    ensures |lines| == if Renders(o) then 1 else 0
    ensures Renders(o) ==> lines == [OutcomeBullet(o, labels)]
    ensures o.WorkPackageOutcome? ==> lines == ["- **Task:** " + OutcomeWorkPackageTitle(o, labels)]
    ensures o.NoteOutcome? && Renders(o) ==> lines == ["- " + o.notes.value]
  {
    if Renders(o) then [OutcomeBullet(o, labels)] else []
  }

  /** The lines of a list of outcomes, concatenated in order. */
  function OutcomesLines(os: seq<Outcome>, labels: Labels): seq<string> {
    if os == [] then [] else OutcomesLines(os[..|os| - 1], labels) + OutcomeLines(os[|os| - 1], labels)
  }

  /** The outcomes that produce a bullet, in order. */
  function RenderedOutcomes(os: seq<Outcome>): (rs: seq<Outcome>)
    ensures |rs| <= |os|
    ensures forall i :: 0 <= i < |rs| ==> Renders(rs[i])
  {
    if os == [] then []
    else RenderedOutcomes(os[..|os| - 1]) + (if Renders(os[|os| - 1]) then [os[|os| - 1]] else [])
  }

  /** An outcome list renders as exactly one bullet per outcome that renders, in order, and nothing else. */
  lemma {:induction false} OutcomesLinesAreBullets(os: seq<Outcome>, labels: Labels)
    ensures |OutcomesLines(os, labels)| == |RenderedOutcomes(os)|
    ensures forall i :: 0 <= i < |RenderedOutcomes(os)| ==>
              OutcomesLines(os, labels)[i] == OutcomeBullet(RenderedOutcomes(os)[i], labels)
  {
    if os != [] {
      OutcomesLinesAreBullets(os[..|os| - 1], labels);
    }
  }

  // ---------------------------------------------------------------------------
  // Agenda

  /** `agenda_item_title`: the display title when the item has one, its stored title otherwise. */
  function AgendaItemTitle(item: AgendaItem): (t: string)
    ensures item.displayTitle.Some? ==> t == item.displayTitle.value
    ensures item.displayTitle.None? ==> t == item.title
  {
    match item.displayTitle
    case Some(t) => t
    case None => item.title
  }

  /** The heading of the agenda item shown as number `number`. */
  function ItemHeading(number: nat, item: AgendaItem): string {
    "### " + NatToString(number) + ". " + AgendaItemTitle(item)
  }

  /**
   * An item heading reads as "### ", the item number's digits without a
   * leading zero, ". " and the item's title, so both the number and the title can be read back from it.
   */
  lemma ItemHeadingFormat(number: nat, item: AgendaItem)
    ensures var h := ItemHeading(number, item);
            var w := |NatToString(number)|;
            && |h| == w + 6 + |AgendaItemTitle(item)|
            && h[..4] == "### "
            && AllDigits(h[4..4 + w]) && DecimalValue(h[4..4 + w]) == number
            && (number > 0 ==> h[4] != '0')
            && h[4 + w..6 + w] == ". "
            && h[6 + w..] == AgendaItemTitle(item)
  {
    var d := NatToString(number);
    var t := AgendaItemTitle(item);
    var h := ItemHeading(number, item);
    assert h == "### " + d + ". " + t;
    assert h[..4] == "### ";
    assert h[4..4 + |d|] == d;
    assert h[4 + |d|..6 + |d|] == ". ";
    assert h[6 + |d|..] == t;
  }

  /** `item.notes.present?`. */
  predicate HasNotes(item: AgendaItem) {
    item.notes.Some? && IsPresent(item.notes.value)
  }

  /** The notes block: a blank line, the bold description label and the notes, exactly when the notes are present. */
  function NotesLines(item: AgendaItem, labels: Labels): (lines: seq<string>)
    ensures lines != [] <==> HasNotes(item)
    ensures HasNotes(item) ==> lines == ["", "**" + labels.description + ":**", item.notes.value]
  {
    if HasNotes(item) then ["", "**" + labels.description + ":**", item.notes.value] else []
  }

  /**
   * The outcomes block: present exactly when the flag is on and the item has an
   * outcome, and then a blank line, the bold "Outcomes:" label and the outcome
   * bullets.
   */
  function OutcomesBlock(item: AgendaItem, labels: Labels, withOutcomes: bool): (lines: seq<string>)
    ensures lines != [] <==> withOutcomes && |item.outcomes| > 0
    ensures lines != [] ==>
              && |lines| >= 2 && lines[..2] == ["", "**Outcomes:**"]
              && lines[2..] == OutcomesLines(item.outcomes, labels)
  {
    if withOutcomes && |item.outcomes| > 0 then ["", "**Outcomes:**"] + OutcomesLines(item.outcomes, labels) else []
  }

  /** The lines of one agenda item shown as number `number`. */
  function ItemLines(number: nat, item: AgendaItem, labels: Labels, withOutcomes: bool): seq<string> {
    [ItemHeading(number, item)] + NotesLines(item, labels) + OutcomesBlock(item, labels, withOutcomes) + [""]
  }

  /** The lines of consecutive agenda items, numbered from `first`. */
  function ItemsLines(items: seq<AgendaItem>, first: nat, labels: Labels, withOutcomes: bool): seq<string>
    decreases |items|
  {
    if items == [] then []
    else ItemLines(first, items[0], labels, withOutcomes) + ItemsLines(items[1..], first + 1, labels, withOutcomes)
  }

  /** The agenda section: present exactly when there is an agenda item, and then headed "## Agenda". */
  function AgendaLines(items: seq<AgendaItem>, labels: Labels, withOutcomes: bool): (lines: seq<string>)
    ensures lines != [] <==> |items| > 0
    ensures lines != [] ==> lines[0] == "## Agenda" && lines[1..] == ItemsLines(items, 1, labels, withOutcomes)
  {
    if |items| > 0 then ["## Agenda"] + ItemsLines(items, 1, labels, withOutcomes) else []
  }

  /** Rendering a run of items in two parts numbers the second part on from where the first stopped. */
  lemma {:induction false} ItemsLinesAppend(xs: seq<AgendaItem>, ys: seq<AgendaItem>, first: nat, labels: Labels, withOutcomes: bool)
    ensures ItemsLines(xs + ys, first, labels, withOutcomes)
            == ItemsLines(xs, first, labels, withOutcomes) + ItemsLines(ys, first + |xs|, labels, withOutcomes)
    decreases |xs|
  {
    if xs == [] {
      assert xs + ys == ys;
    } else {
      var head := ItemLines(first, xs[0], labels, withOutcomes);
      assert (xs + ys)[0] == xs[0];
      assert (xs + ys)[1..] == xs[1..] + ys;
      ItemsLinesAppend(xs[1..], ys, first + 1, labels, withOutcomes);
      calc {
        ItemsLines(xs + ys, first, labels, withOutcomes);
        head + ItemsLines(xs[1..] + ys, first + 1, labels, withOutcomes);
        head + (ItemsLines(xs[1..], first + 1, labels, withOutcomes) + ItemsLines(ys, first + |xs|, labels, withOutcomes));
        { Append2(head, ItemsLines(xs[1..], first + 1, labels, withOutcomes), ItemsLines(ys, first + |xs|, labels, withOutcomes)); }
        head + ItemsLines(xs[1..], first + 1, labels, withOutcomes) + ItemsLines(ys, first + |xs|, labels, withOutcomes);
        ItemsLines(xs, first, labels, withOutcomes) + ItemsLines(ys, first + |xs|, labels, withOutcomes);
      }
    }
  }

  /** Where the block of the item at index `k` starts among the agenda items' lines. */
  function ItemOffset(items: seq<AgendaItem>, k: nat, labels: Labels, withOutcomes: bool): nat
    requires k <= |items|
  {
    |ItemsLines(items[..k], 1, labels, withOutcomes)|
  }

  /**
   * The item at index `k` is rendered as the block of item number `k + 1`,
   * heading first: the numbering is 1..N in render order, whatever the stored
   * positions are.
   */
  lemma ItemBlockNumbered(items: seq<AgendaItem>, k: nat, labels: Labels, withOutcomes: bool)
    requires k < |items|
    ensures var lines := ItemsLines(items, 1, labels, withOutcomes);
            var at := ItemOffset(items, k, labels, withOutcomes);
            var block := ItemLines(k + 1, items[k], labels, withOutcomes);
            && at + |block| <= |lines|
            && lines[at..at + |block|] == block
            && lines[at] == ItemHeading(k + 1, items[k])
  {
    assert items == items[..k] + items[k..];
    ItemsLinesAppend(items[..k], items[k..], 1, labels, withOutcomes);
  }

  /** The stored position values never reach the document: items that differ only in position render alike. */
  lemma {:induction false} ItemsLinesIgnorePositions(
    items: seq<AgendaItem>,
    items': seq<AgendaItem>,
    first: nat,
    labels: Labels,
    withOutcomes: bool
  )
    requires |items| == |items'|
    requires forall i :: 0 <= i < |items| ==> items'[i] == items[i].(position := items'[i].position)
    ensures ItemsLines(items, first, labels, withOutcomes) == ItemsLines(items', first, labels, withOutcomes)
    decreases |items|
  {
    if items != [] {
      ItemsLinesIgnorePositions(items[1..], items'[1..], first + 1, labels, withOutcomes);
    }
  }

  // ---------------------------------------------------------------------------
  // The document

  /** `generate_markdown`, as the sequence of lines it joins. */
  function MarkdownLines(m: Meeting, labels: Labels, withParticipants: bool, withOutcomes: bool): seq<string> {
    [Bom] + HeaderLines(m)
    + ParticipantLines(m.participantNames, withParticipants)
    + AgendaLines(m.agendaItems, labels, withOutcomes)
  }

  /**
   * The document opens with the byte order mark, the title heading, a blank line,
   * the project, the date and the time, then the location only when present, and
   * a blank line; the participants and agenda sections follow in that order.
   */
  lemma DocumentLayout(m: Meeting, labels: Labels, withParticipants: bool, withOutcomes: bool)
    ensures var lines := MarkdownLines(m, labels, withParticipants, withOutcomes);
            && |lines| >= 7
            && lines[..6] == [Bom, "# " + m.title, "", "**Project:** " + m.projectName,
                              "**Date:** " + DateText(m.startTime), "**Time:** " + TimeText(m.startTime)]
            && (HasLocation(m) ==> lines[6] == "**Location:** " + m.location.value && lines[7] == "")
            && (!HasLocation(m) ==> lines[6] == "")
    ensures var lines := MarkdownLines(m, labels, withParticipants, withOutcomes);
            var p := ParticipantLines(m.participantNames, withParticipants);
            var rest := |HeaderLines(m)| + 1;
            && rest + |p| <= |lines|
            && lines[rest..rest + |p|] == p
            && lines[rest + |p|..] == AgendaLines(m.agendaItems, labels, withOutcomes)
  {
    var lines := MarkdownLines(m, labels, withParticipants, withOutcomes);
    var header := [Bom] + HeaderLines(m);
    var p := ParticipantLines(m.participantNames, withParticipants);
    var agenda := AgendaLines(m.agendaItems, labels, withOutcomes);
    assert lines == header + (p + agenda) by {
      Append2(header, p, agenda);
    }
    assert lines[..|header|] == header;
    assert lines[|header|..] == p + agenda;
    assert header[..6] == [Bom, "# " + m.title, "", "**Project:** " + m.projectName,
                           "**Date:** " + DateText(m.startTime), "**Time:** " + TimeText(m.startTime)];
  }

  /** The meeting with every agenda item's outcomes removed. */
  function WithoutOutcomes(items: seq<AgendaItem>): (items': seq<AgendaItem>)
    ensures |items'| == |items|
    ensures forall i :: 0 <= i < |items| ==> items'[i] == items[i].(outcomes := [])
  {
    seq(|items|, i requires 0 <= i < |items| => items[i].(outcomes := []))
  }

  lemma {:induction false} ItemsLinesWithoutOutcomes(items: seq<AgendaItem>, first: nat, labels: Labels, withOutcomes: bool)
    ensures ItemsLines(items, first, labels, false) == ItemsLines(WithoutOutcomes(items), first, labels, withOutcomes)
    decreases |items|
  {
    if items != [] {
      assert WithoutOutcomes(items)[1..] == WithoutOutcomes(items[1..]);
      ItemsLinesWithoutOutcomes(items[1..], first + 1, labels, withOutcomes);
    }
  }

  /**
   * With the outcomes flag off, the document is the one the meeting would give
   * if it had no outcomes at all: no outcome label or bullet appears anywhere.
   */
  lemma OutcomesHiddenWhenDisabled(m: Meeting, labels: Labels, withParticipants: bool)
    ensures MarkdownLines(m, labels, withParticipants, false)
            == MarkdownLines(m.(agendaItems := WithoutOutcomes(m.agendaItems)), labels, withParticipants, true)
  {
    ItemsLinesWithoutOutcomes(m.agendaItems, 1, labels, true);
  }

  /** With the participants flag off, the document is the one the meeting would give with nobody invited. */
  lemma ParticipantsHiddenWhenDisabled(m: Meeting, labels: Labels, withOutcomes: bool)
    ensures MarkdownLines(m, labels, false, withOutcomes)
            == MarkdownLines(m.(participantNames := []), labels, true, withOutcomes)
  {
  }

  /** When no line holds a newline, the lines can be read back from the exported text. */
  lemma DocumentLinesRecoverable(m: Meeting, labels: Labels, withParticipants: bool, withOutcomes: bool)
    requires forall i :: 0 <= i < |MarkdownLines(m, labels, withParticipants, withOutcomes)| ==>
               '\n' !in MarkdownLines(m, labels, withParticipants, withOutcomes)[i]
    ensures Split(Join(MarkdownLines(m, labels, withParticipants, withOutcomes), "\n"), '\n')
            == MarkdownLines(m, labels, withParticipants, withOutcomes)
  {
    SplitJoin(MarkdownLines(m, labels, withParticipants, withOutcomes), '\n');
  }

  // ---------------------------------------------------------------------------
  // The exporter

  lemma OutcomesLinesStep(os: seq<Outcome>, j: nat, labels: Labels)
    requires j < |os|
    ensures OutcomesLines(os[..j + 1], labels) == OutcomesLines(os[..j], labels) + OutcomeLines(os[j], labels)
  {
    assert os[..j + 1][..j] == os[..j];
  }

  lemma ItemsLinesStep(items: seq<AgendaItem>, k: nat, labels: Labels, withOutcomes: bool)
    requires k < |items|
    ensures ItemsLines(items[..k + 1], 1, labels, withOutcomes)
            == ItemsLines(items[..k], 1, labels, withOutcomes) + ItemLines(k + 1, items[k], labels, withOutcomes)
  {
    assert ItemsLines([items[k]], k + 1, labels, withOutcomes) == ItemLines(k + 1, items[k], labels, withOutcomes);
    ItemsLinesAppend(items[..k], [items[k]], 1, labels, withOutcomes);
    assert items[..k + 1] == items[..k] + [items[k]];
  }

  /** Appending two pieces in turn appends their concatenation. */
  lemma Append2<T>(s: seq<T>, a: seq<T>, b: seq<T>)
    ensures s + a + b == s + (a + b)
  {
  }

  /** Appending three pieces in turn appends their concatenation. */
  lemma AppendAll<T>(s: seq<T>, a: seq<T>, b: seq<T>, c: seq<T>)
    ensures s + a + b + c == s + (a + b + c)
  {
  }

  /** The opening of `generate_markdown`: the byte order mark, the title and the meeting's details, then a blank line. */
  method HeaderBlock(m: Meeting) returns (lines: seq<string>)
    ensures lines == [Bom] + HeaderLines(m)
  {
    lines := [];
    lines := lines + [Bom];

    lines := lines + ["# " + m.title];
    lines := lines + [""];

    lines := lines + ["**Project:** " + m.projectName];
    lines := lines + ["**Date:** " + DateText(m.startTime)];
    lines := lines + ["**Time:** " + TimeText(m.startTime)];
    if HasLocation(m) {
      lines := lines + ["**Location:** " + m.location.value];
    }
    assert lines[..6] == [Bom, "# " + m.title, "", "**Project:** " + m.projectName,
                          "**Date:** " + DateText(m.startTime), "**Time:** " + TimeText(m.startTime)];
    lines := lines + [""];
    assert |lines| == |HeaderLines(m)| + 1;
  }

  /** The notes block of one agenda item: a blank line, the description label and the notes, when present. */
  method AppendNotes(lines: seq<string>, item: AgendaItem, labels: Labels) returns (lines': seq<string>)
    ensures lines' == lines + NotesLines(item, labels)
  {
    lines' := lines;
    if HasNotes(item) {
      lines' := lines' + [""];
      lines' := lines' + ["**" + labels.description + ":**"];
      lines' := lines' + [item.notes.value];
      AppendAll(lines, [""], ["**" + labels.description + ":**"], [item.notes.value]);
    }
  }

  /**
   * The outcomes block of one agenda item: when enabled and the item has an
   * outcome, a blank line, the "Outcomes:" label and each outcome's lines in turn.
   */
  method AppendOutcomesBlock(lines: seq<string>, item: AgendaItem, labels: Labels, withOutcomes: bool)
    returns (lines': seq<string>)
    ensures lines' == lines + OutcomesBlock(item, labels, withOutcomes)
  {
    lines' := lines;
    if withOutcomes && |item.outcomes| > 0 {
      lines' := lines' + [""];
      lines' := lines' + ["**Outcomes:**"];
      ghost var outcomesStart := lines';
      var j := 0;
      while j < |item.outcomes|
        invariant 0 <= j <= |item.outcomes|
        invariant lines' == outcomesStart + OutcomesLines(item.outcomes[..j], labels)
      {
        OutcomesLinesStep(item.outcomes, j, labels);
        Append2(outcomesStart, OutcomesLines(item.outcomes[..j], labels), OutcomeLines(item.outcomes[j], labels));
        lines' := lines' + OutcomeLines(item.outcomes[j], labels);
        j := j + 1;
      }
      assert item.outcomes[..j] == item.outcomes;
      AppendAll(lines, [""], ["**Outcomes:**"], OutcomesLines(item.outcomes, labels));
    }
  }

  /**
   * The body of `generate_markdown`'s loop over the agenda items: appends the
   * heading of item number `number`, its notes block and, when enabled, its
   * outcomes one by one, then a blank line.
   */
  method AppendAgendaItem(lines: seq<string>, number: nat, item: AgendaItem, labels: Labels, withOutcomes: bool)
    returns (lines': seq<string>)
    ensures lines' == lines + ItemLines(number, item, labels, withOutcomes)
  {
    lines' := lines + ["### " + NatToString(number) + ". " + AgendaItemTitle(item)];
    lines' := AppendNotes(lines', item, labels);
    lines' := AppendOutcomesBlock(lines', item, labels, withOutcomes);
    lines' := lines' + [""];
    AppendAll(lines, [ItemHeading(number, item)] + NotesLines(item, labels), OutcomesBlock(item, labels, withOutcomes), [""]);
    Append2(lines, [ItemHeading(number, item)], NotesLines(item, labels));
  }

  /** The participants section of `generate_markdown`: a heading and one bullet per invitee, when enabled and non-empty. */
  method AppendParticipants(lines: seq<string>, names: seq<string>, withParticipants: bool) returns (lines': seq<string>)
    ensures lines' == lines + ParticipantLines(names, withParticipants)
  {
    lines' := lines;
    if withParticipants && |names| > 0 {
      lines' := lines' + ["## Participants"];
      ghost var bulletsStart := lines';
      var i := 0;
      while i < |names|
        invariant 0 <= i <= |names|
        invariant lines' == bulletsStart + Bullets(names[..i])
      {
        assert Bullets(names[..i + 1]) == Bullets(names[..i]) + ["- " + names[i]];
        Append2(bulletsStart, Bullets(names[..i]), ["- " + names[i]]);
        lines' := lines' + ["- " + names[i]];
        i := i + 1;
      }
      assert names[..i] == names;
      lines' := lines' + [""];
      AppendAll(lines, ["## Participants"], Bullets(names), [""]);
    }
  }

  /** The agenda section of `generate_markdown`: a heading and each item's block, numbered from 1, when there are items. */
  method AppendAgenda(lines: seq<string>, agendaItems: seq<AgendaItem>, labels: Labels, withOutcomes: bool)
    returns (lines': seq<string>)
    ensures lines' == lines + AgendaLines(agendaItems, labels, withOutcomes)
  {
    lines' := lines;
    if |agendaItems| > 0 {
      lines' := lines' + ["## Agenda"];
      ghost var itemsStart := lines';
      var index := 0;
      while index < |agendaItems|
        invariant 0 <= index <= |agendaItems|
        invariant lines' == itemsStart + ItemsLines(agendaItems[..index], 1, labels, withOutcomes)
      {
        ItemsLinesStep(agendaItems, index, labels, withOutcomes);
        Append2(itemsStart, ItemsLines(agendaItems[..index], 1, labels, withOutcomes),
                ItemLines(index + 1, agendaItems[index], labels, withOutcomes));
        lines' := AppendAgendaItem(lines', index + 1, agendaItems[index], labels, withOutcomes);
        index := index + 1;
      }
      assert agendaItems[..index] == agendaItems;
      Append2(lines, ["## Agenda"], ItemsLines(agendaItems, 1, labels, withOutcomes));
    }
  }

  /**
   * `generate_markdown`: builds the header, participants and agenda sections
   * onto one list of lines, in that order, and joins the list with newlines.
   */
  method GenerateMarkdown(m: Meeting, labels: Labels, participants: Flag, outcomes: Flag) returns (content: string)
    ensures content == Join(MarkdownLines(m, labels, IsEnabled(participants), IsEnabled(outcomes)), "\n")
  {
    var withParticipants := IsEnabled(participants);
    var withOutcomes := IsEnabled(outcomes);
    var lines := HeaderBlock(m);
    lines := AppendParticipants(lines, m.participantNames, withParticipants);
    lines := AppendAgenda(lines, m.agendaItems, labels, withOutcomes);
    assert lines == MarkdownLines(m, labels, withParticipants, withOutcomes);

    content := Join(lines, "\n");
  }

  /** `export!`: a Markdown result named after the meeting, holding the generated document. */
  method Export(m: Meeting, labels: Labels, participants: Flag, outcomes: Flag) returns (result: ExportResult)
    ensures result.format == "markdown"
    ensures result.mimeType == "text/markdown"
    ensures result.title == m.title + ".md"
    ensures result.content == Join(MarkdownLines(m, labels, IsEnabled(participants), IsEnabled(outcomes)), "\n")
  {
    var content := GenerateMarkdown(m, labels, participants, outcomes);
    result := ExportResult("markdown", "text/markdown", m.title + ".md", content);
  }
}
