/** The checklist generator of the "Interactive Tools" page: once the form
    is submitted it renders a title, then for each of the three multiselects
    that has a selection a bold header followed by one `- [ ] task` line per
    selected task, in selection order. */
module Checklist {
  import opened Wrappers
  import opened SeqFacts
  import opened FilterMaps

  /** One rendered line: `st.markdown(text)` or `st.write(text)`. */
  datatype Line = Markdown(text: string) | Write(text: string)

  const ChecklistTitle := "### Your Personalized Checklist"
  const FinancialHeader := "**Financial Tasks:**"
  const MedicalHeader := "**Medical Appointments:**"
  const OtherHeader := "**Other Tasks:**"
  const CheckboxPrefix := "- [ ] "

  /** The text written for one task. */
  function Checkbox(task: string): string {
    CheckboxPrefix + task
  }

  /** The rendered `st.write` line for one task. */
  function Box(task: string): Line {
    Write(Checkbox(task))
  }

  /** The checkbox lines of a list of tasks, in order. */
  function Boxes(tasks: seq<string>): seq<Line> {
    MapSeq(Box, tasks)
  }

  /** A section: nothing for an empty selection, else its header and its boxes. */
  function Section(header: string, tasks: seq<string>): (s: seq<Line>)
    ensures |s| == if tasks == [] then 0 else |tasks| + 1
    ensures s != [] ==> s[0] == Markdown(header)
  {
    if tasks == [] then [] else [Markdown(header)] + Boxes(tasks)
  }

  /** Everything the form renders. */
  function ChecklistLines(submitted: bool, financial: seq<string>, medical: seq<string>, other: seq<string>): (lines: seq<Line>)
    ensures lines == [] <==> !submitted
    ensures submitted ==>
      lines[0] == Markdown(ChecklistTitle) &&
      |lines| == 1 + |Section(FinancialHeader, financial)| + |Section(MedicalHeader, medical)| + |Section(OtherHeader, other)|
    ensures submitted ==>
      lines[1..] == Section(FinancialHeader, financial) + Section(MedicalHeader, medical) + Section(OtherHeader, other)
  {
    if !submitted then []
    else
      [Markdown(ChecklistTitle)]
      + Section(FinancialHeader, financial)
      + Section(MedicalHeader, medical)
      + Section(OtherHeader, other)
  }

  /** Appends one section to what is already rendered: the header if the
      selection is non-empty, then a checkbox line per task. */
  method AppendSection(lines: seq<Line>, header: string, tasks: seq<string>) returns (out: seq<Line>)
    ensures out == lines + Section(header, tasks)
  {
    out := lines;
    if tasks != [] {
      out := out + [Markdown(header)];
      ghost var headed := out;
      var i := 0;
      while i < |tasks|
        invariant 0 <= i <= |tasks|
        invariant out == headed + Boxes(tasks[..i])
      {
        var box := Box(tasks[i]);
        MapSeqAppend(Box, tasks[..i], [tasks[i]]);
        MapSeqSingleton(Box, tasks[i]);
        TakeSnoc(tasks, i);
        SnocAssoc(headed, Boxes(tasks[..i]), box);
        out := out + [box];
        i := i + 1;
      }
      TakeAll(tasks);
      ConsAssoc(lines, [Markdown(header)], Boxes(tasks));
    }
  }

  /** The form handler: nothing until submitted, then the title and the
      three sections in the order financial, medical, other. */
  method GenerateChecklist(submitted: bool, financial: seq<string>, medical: seq<string>, other: seq<string>)
    returns (lines: seq<Line>)
    ensures lines == ChecklistLines(submitted, financial, medical, other)
  {
    lines := [];
    if submitted {
      lines := lines + [Markdown(ChecklistTitle)];
      lines := AppendSection(lines, FinancialHeader, financial);
      lines := AppendSection(lines, MedicalHeader, medical);
      lines := AppendSection(lines, OtherHeader, other);
    }
  }

  /** Boxes of a concatenation are the concatenated boxes. */
  lemma BoxesAppend(a: seq<string>, b: seq<string>)
    ensures Boxes(a + b) == Boxes(a) + Boxes(b)
  {
    MapSeqAppend(Box, a, b);
  }

  /** The task a line shows, if it is a checkbox line. */
  function TaskOf(l: Line): Option<string> {
    if l.Write? && CheckboxPrefix <= l.text then Some(l.text[|CheckboxPrefix|..]) else None
  }

  /** The text of a markdown line. */
  function HeaderOf(l: Line): Option<string> {
    if l.Markdown? then Some(l.text) else None
  }

  /** The tasks that can be read back from the checkbox lines, in order. */
  function WrittenTasks(lines: seq<Line>): seq<string> {
    FilterMap(TaskOf, lines)
  }

  /** The markdown lines, in order. */
  function MarkdownTexts(lines: seq<Line>): seq<string> {
    FilterMap(HeaderOf, lines)
  }

  /** A checkbox line reads back as its task and is not markdown. */
  lemma BoxReadsBack(task: string)
    ensures TaskOf(Box(task)) == Some(task)
    ensures HeaderOf(Box(task)).None?
  {
    var text := Checkbox(task);
    assert text[..|CheckboxPrefix|] == CheckboxPrefix;
    assert text[|CheckboxPrefix|..] == task;
  }

  /** The checkbox lines read back as the tasks, in order, and hold no markdown. */
  lemma BoxesRoundTrip(tasks: seq<string>)
    ensures WrittenTasks(Boxes(tasks)) == tasks
    ensures MarkdownTexts(Boxes(tasks)) == []
  {
    forall task: string
      ensures TaskOf(Box(task)) == Some(task) && HeaderOf(Box(task)).None?
    {
      BoxReadsBack(task);
    }
    FilterMapInvertsMap(TaskOf, Box, tasks);
    FilterMapIgnoresMap(HeaderOf, Box, tasks);
  }

  lemma SectionRoundTrip(header: string, tasks: seq<string>)
    ensures WrittenTasks(Section(header, tasks)) == tasks
    ensures MarkdownTexts(Section(header, tasks)) == if tasks == [] then [] else [header]
  {
    BoxesRoundTrip(tasks);
    if tasks != [] {
      var h := [Markdown(header)];
      FilterMapAppend(TaskOf, h, Boxes(tasks));
      FilterMapAppend(HeaderOf, h, Boxes(tasks));
      FilterMapSingleton(TaskOf, Markdown(header));
      FilterMapSingleton(HeaderOf, Markdown(header));
      EmptyLeft(WrittenTasks(h), tasks);
    }
  }

  /** The title line is markdown and reads back as no task. */
  lemma TitleRoundTrip()
    ensures WrittenTasks([Markdown(ChecklistTitle)]) == []
    ensures MarkdownTexts([Markdown(ChecklistTitle)]) == [ChecklistTitle]
  {
    FilterMapSingleton(TaskOf, Markdown(ChecklistTitle));
    FilterMapSingleton(HeaderOf, Markdown(ChecklistTitle));
  }

  /** Every selected task is listed, in the order financial, medical, other,
      each exactly once and unchanged. */
  lemma ChecklistTasksRoundTrip(financial: seq<string>, medical: seq<string>, other: seq<string>)
    ensures WrittenTasks(ChecklistLines(true, financial, medical, other)) == financial + medical + other
  {
    var title := [Markdown(ChecklistTitle)];
    var f := Section(FinancialHeader, financial);
    var m := Section(MedicalHeader, medical);
    var o := Section(OtherHeader, other);
    TitleRoundTrip();
    SectionRoundTrip(FinancialHeader, financial);
    SectionRoundTrip(MedicalHeader, medical);
    SectionRoundTrip(OtherHeader, other);
    calc {
      WrittenTasks(ChecklistLines(true, financial, medical, other));
      WrittenTasks(title + f + m + o);
      { FilterMapAppend(TaskOf, title + f + m, o); }
      WrittenTasks(title + f + m) + other;
      { FilterMapAppend(TaskOf, title + f, m); }
      WrittenTasks(title + f) + medical + other;
      { FilterMapAppend(TaskOf, title, f); EmptyLeft(WrittenTasks(title), financial); }
      financial + medical + other;
    }
  }

  /** The markdown lines are the title and the header of each non-empty
      selection, in order. */
  lemma ChecklistHeadersRoundTrip(financial: seq<string>, medical: seq<string>, other: seq<string>)
    ensures MarkdownTexts(ChecklistLines(true, financial, medical, other)) ==
      [ChecklistTitle]
      + (if financial == [] then [] else [FinancialHeader])
      + (if medical == [] then [] else [MedicalHeader])
      + (if other == [] then [] else [OtherHeader])
  {
    var title := [Markdown(ChecklistTitle)];
    var f := Section(FinancialHeader, financial);
    var m := Section(MedicalHeader, medical);
    var o := Section(OtherHeader, other);
    TitleRoundTrip();
    SectionRoundTrip(FinancialHeader, financial);
    SectionRoundTrip(MedicalHeader, medical);
    SectionRoundTrip(OtherHeader, other);
    calc {
      MarkdownTexts(ChecklistLines(true, financial, medical, other));
      MarkdownTexts(title + f + m + o);
      { FilterMapAppend(HeaderOf, title + f + m, o); }
      MarkdownTexts(title + f + m) + MarkdownTexts(o);
      { FilterMapAppend(HeaderOf, title + f, m); }
      MarkdownTexts(title + f) + MarkdownTexts(m) + MarkdownTexts(o);
      { FilterMapAppend(HeaderOf, title, f); }
      [ChecklistTitle] + MarkdownTexts(f) + MarkdownTexts(m) + MarkdownTexts(o);
    }
  }

  /** A section's header is rendered exactly when its selection is non-empty. */
  lemma HeaderShownIffSelected(financial: seq<string>, medical: seq<string>, other: seq<string>)
    ensures FinancialHeader in MarkdownTexts(ChecklistLines(true, financial, medical, other)) <==> financial != []
    ensures MedicalHeader in MarkdownTexts(ChecklistLines(true, financial, medical, other)) <==> medical != []
    ensures OtherHeader in MarkdownTexts(ChecklistLines(true, financial, medical, other)) <==> other != []
  {
    ChecklistHeadersRoundTrip(financial, medical, other);
  }

  /** Nothing is rendered before the form is submitted. */
  lemma NothingUntilSubmitted(financial: seq<string>, medical: seq<string>, other: seq<string>)
    ensures ChecklistLines(false, financial, medical, other) == []
  {
  }
}
