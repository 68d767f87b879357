/** The prompt that asks for five plain multiple-choice questions. */
module QuestionsPrompt {
  import opened Text

  const MixedSubjectLead := "Mathematics and English"
  const BothSubjectText := MixedSubjectLead + " Language Arts (mix of both)"

  /** How a subject is named inside a prompt: "Both" is spelled out, anything else is used as is. */
  function SubjectText(subject: string): (r: string)
    ensures subject == "Both" ==> MixedSubjectLead <= r
    ensures subject != "Both" ==> r == subject
  {
    if subject == "Both" then BothSubjectText else subject
  }

  const QuestionsLead := "Generate 5 multiple-choice questions"
  const GradeLead := " for a "
  const SubjectLead := " grade student in "

  /** One line of the example object; the last field has no trailing comma. */
  function SchemaField(key: string, value: string, last: bool): string
  {
    "      \"" + key + "\": " + value + (if last then "\n" else ",\n")
  }

  function SchemaFields(fields: seq<(string, string)>): string
    decreases |fields|
  {
    if |fields| == 0 then ""
    else SchemaField(fields[0].0, fields[0].1, |fields| == 1) + SchemaFields(fields[1..])
  }

  /** The example question object, field by field. */
  const QuestionFields: seq<(string, string)> := [
    ("id", "1"),
    ("question", "\"Question text here\""),
    ("options", "[\"Option A\", \"Option B\", \"Option C\", \"Option D\"]"),
    ("correctAnswer", "\"Option A\"")
  ]

  const FormatLead := "\n  \n  Format the output strictly as a JSON array of objects with this structure:\n  [\n    {\n"
  const FormatTail := "    }\n  ]\n  \n  Ensure the questions are appropriate for the grade level."

  /** The request sentence after the opening words: grade and subject. */
  function Request(grade: string, subject: string): string
  {
    GradeLead + grade + SubjectLead + SubjectText(subject) + "."
  }

  /** The output format block after the request sentence: the example object and the closing line. */
  function Format(): string
  {
    FormatLead + SchemaFields(QuestionFields) + FormatTail
  }

  /** `generateQuestionsPrompt(grade, subject)` */
  function Prompt(grade: string, subject: string): string
  {
    QuestionsLead + (Request(grade, subject) + Format())
  }

  /** Every key of the example object appears, quoted, in the rendered fields. */
  lemma {:induction false} SchemaFieldsNameEveryKey(fields: seq<(string, string)>, k: nat)
    requires k < |fields|
    ensures Contains(SchemaFields(fields), "\"" + fields[k].0 + "\": ")
    decreases |fields|
  {
    var line := SchemaField(fields[0].0, fields[0].1, |fields| == 1);
    var rest := SchemaFields(fields[1..]);
    assert SchemaFields(fields) == line + rest;
    if k == 0 {
      var key := "\"" + fields[0].0 + "\": ";
      var tail := fields[0].1 + (if |fields| == 1 then "\n" else ",\n");
      assert line == "      " + key + tail;
      ContainsMiddle("      ", key, tail);
      ContainsLeft(line, rest, key);
    } else {
      SchemaFieldsNameEveryKey(fields[1..], k - 1);
      ContainsRight(line, rest, "\"" + fields[k].0 + "\": ");
    }
  }

  /** The request sentence names the grade and the subject text. */
  lemma RequestNamesGradeAndSubject(grade: string, subject: string)
    ensures Contains(Request(grade, subject), grade) && Contains(Request(grade, subject), SubjectText(subject))
  {
    ContainsMiddle(GradeLead, grade, SubjectLead);
    ContainsLeft(GradeLead + grade + SubjectLead, SubjectText(subject), grade);
    ContainsLeft(GradeLead + grade + SubjectLead + SubjectText(subject), ".", grade);
    ContainsMiddle(GradeLead + grade + SubjectLead, SubjectText(subject), ".");
  }

  /** The prompt opens with the question request, then names the grade and the subject text. */
  lemma PromptShape(grade: string, subject: string)
    ensures QuestionsLead <= Prompt(grade, subject)
    ensures Contains(Prompt(grade, subject), Request(grade, subject))
    ensures Contains(Request(grade, subject), grade) && Contains(Request(grade, subject), SubjectText(subject))
  {
    var r := Request(grade, subject);
    PrefixOfConcat(QuestionsLead, r + Format());
    PrefixOfConcat(r, Format());
    PrefixContained(r + Format(), r);
    ContainsRight(QuestionsLead, r + Format(), r);
    RequestNamesGradeAndSubject(grade, subject);
  }

  /** Asking for both subjects puts "Mathematics and English" into the prompt. */
  lemma BothPromptNamesMixedSubject(grade: string)
    ensures Contains(Prompt(grade, "Both"), MixedSubjectLead)
  {
    PromptShape(grade, "Both");
    ContainsSelf(MixedSubjectLead);
    ContainsLeft(MixedSubjectLead, " Language Arts (mix of both)", MixedSubjectLead);
    ContainsTransitive(Request(grade, "Both"), SubjectText("Both"), MixedSubjectLead);
    ContainsTransitive(Prompt(grade, "Both"), Request(grade, "Both"), MixedSubjectLead);
  }

  /** The example object shows each of the four question fields the client reads. */
  lemma PromptNamesQuestionFields(grade: string, subject: string, k: nat)
    requires k < |QuestionFields|
    ensures Contains(Prompt(grade, subject), "\"" + QuestionFields[k].0 + "\": ")
  {
    var key := "\"" + QuestionFields[k].0 + "\": ";
    SchemaFieldsNameEveryKey(QuestionFields, k);
    ContainsRight(FormatLead, SchemaFields(QuestionFields), key);
    ContainsLeft(FormatLead + SchemaFields(QuestionFields), FormatTail, key);
    ContainsRight(Request(grade, subject), Format(), key);
    ContainsRight(QuestionsLead, Request(grade, subject) + Format(), key);
  }
}
