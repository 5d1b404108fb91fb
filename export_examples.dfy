/**
 * Concrete instances of the model on the meetings the exporter and request tests
 * describe: the dates they format, an agenda item with notes and an outcome,
 * and the options a plain request passes on.
 */
module ExportExamples {
  import opened Wrappers
  import opened Text
  import opened RequestParams
  import opened MeetingsControllerDecorator
  import opened MarkdownExporter

  lemma TwoDigits(n: nat)
    requires 10 <= n < 100
    ensures ZeroPad(n, 2) == [DigitChar(n / 10), DigitChar(n % 10)]
  {
    assert NatToString(n) == [DigitChar(n / 10), DigitChar(n % 10)];
    assert Zeros(0) + NatToString(n) == NatToString(n);
  }

  lemma FourDigitYear()
    ensures ZeroPad(2024, 4) == "2024"
  {
    assert NatToString(202) == NatToString(20) + [DigitChar(2)];
    assert NatToString(2024) == NatToString(202) + [DigitChar(4)];
    assert NatToString(2024) == "2024";
    assert Zeros(0) + NatToString(2024) == NatToString(2024);
  }

  /** A meeting starting 2024-12-31 at 13:30 shows that date and that time. */
  lemma TestMeetingDateTime()
    ensures DateText(DateTime(2024, 12, 31, 13, 30)) == "2024-12-31"
    ensures TimeText(DateTime(2024, 12, 31, 13, 30)) == "13:30"
  {
    FourDigitYear();
    TwoDigits(12);
    TwoDigits(31);
    TwoDigits(13);
    TwoDigits(30);
  }

  /** The first agenda item of the exporter's test meeting: a description and one note outcome. */
  function ExampleItem(): AgendaItem {
    AgendaItem(0, "Agenda Item 1", None, Some("Agenda description"), [NoteOutcome(Some("Outcome notes"))])
  }

  lemma ExampleItemParts(labels: Labels)
    ensures ItemHeading(1, ExampleItem()) == "### 1. Agenda Item 1"
    ensures NotesLines(ExampleItem(), labels) == ["", "**" + labels.description + ":**", "Agenda description"]
    ensures OutcomesLines(ExampleItem().outcomes, labels) == ["- Outcome notes"]
  {
    var item := ExampleItem();
    assert IsPresent("Agenda description") by { assert "Agenda description"[0] == 'A'; }
    assert IsPresent("Outcome notes") by { assert "Outcome notes"[0] == 'O'; }
    assert NatToString(1) == "1";
    assert item.outcomes[..0] == [];
    assert Renders(item.outcomes[0]);
    assert "- " + "Outcome notes" == "- Outcome notes";
    assert OutcomeLines(item.outcomes[0], labels) == ["- Outcome notes"];
  }

  /** The first agenda item, with a description and a note outcome, with the outcomes flag on and off. */
  lemma ItemWithOutcomeExample(labels: Labels)
    ensures ItemLines(1, ExampleItem(), labels, true)
            == ["### 1. Agenda Item 1", "", "**" + labels.description + ":**", "Agenda description",
                "", "**Outcomes:**", "- Outcome notes", ""]
    ensures ItemLines(1, ExampleItem(), labels, false)
            == ["### 1. Agenda Item 1", "", "**" + labels.description + ":**", "Agenda description", ""]
  {
    ExampleItemParts(labels);
  }

  /** A request with `participants=1&outcomes=0` and no checkboxes enqueues exactly those two options. */
  lemma PassesOptionsToJob(params: Params)
    requires Lookup(params, ParticipantsKey) == Some(Scalar("1")) && Lookup(params, OutcomesKey) == Some(Scalar("0"))
    requires IncludeKey(ParticipantsKey) !in params && IncludeKey(OutcomesKey) !in params
    ensures ExportOptions(params) == map[ParticipantsKey := Scalar("1"), OutcomesKey := Scalar("0")]
  {
    assert IsPresent("1") by { assert !IsSpace("1"[0]); }
    assert IsPresent("0") by { assert !IsSpace("0"[0]); }
    PlainOptionsPassThrough(params, "1", "0");
  }
}
