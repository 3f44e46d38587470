/**
 * The three prompt templates of the generation service. Each prompt is a
 * template literal: an interpolated request line followed by a fixed block
 * of lines, all separated by line feeds.
 */
module Prompts {
  import opened Strings

  /** The interpolated first line shared by the three templates, after its kind-specific opening. */
  function RequestLine(opening: string, subject: string, classLevel: string, chapter: string): string {
    opening + chapter + " in " + subject + " for class " + classLevel + "."
  }

  /** A numbered outline line `n. item`. */
  function Numbered(number: string, item: string): string {
    number + ". " + item
  }

  const LessonPlanOpening := "Create a detailed lesson plan for teaching "
  const QuizOpening := "Create a quiz for "
  const HomeworkOpening := "Create homework assignments for "

  /** The fixed lines of the lesson-plan template: seven numbered sections. */
  const LessonPlanOutline := [
    "Include:",
    "1. Learning Objectives",
    "2. Required Materials",
    "3. Introduction (10 minutes)",
    "4. Main Content (30 minutes)",
    "5. Activities (15 minutes)",
    "6. Assessment/Recap (5 minutes)",
    "7. Homework Ideas"]

  const MultipleChoice := "5 Multiple Choice Questions"
  const ShortAnswer := "3 Short Answer Questions"
  const LongAnswer := "2 Long Answer Questions"
  const WithAnswers := "Include answers for all questions."

  /** The fixed lines of the quiz template: three question groups and the request for answers. */
  const QuizOutline := [
    "Include:",
    Numbered("1", MultipleChoice),
    Numbered("2", ShortAnswer),
    Numbered("3", LongAnswer),
    WithAnswers]

  /** The fixed lines of the homework template: five numbered sections. */
  const HomeworkOutline := [
    "Include:",
    "1. Practice Problems",
    "2. Research Topics",
    "3. Creative Projects",
    "4. Due Date Suggestions",
    "5. Grading Criteria"]

  /** The lesson-plan prompt. */
  function LessonPlanPrompt(subject: string, classLevel: string, chapter: string): string {
    Join([RequestLine(LessonPlanOpening, subject, classLevel, chapter)] + LessonPlanOutline, "\n")
  }

  /** The quiz prompt. */
  function QuizPrompt(subject: string, classLevel: string, chapter: string): string {
    Join([RequestLine(QuizOpening, subject, classLevel, chapter)] + QuizOutline, "\n")
  }

  /** The homework prompt. */
  function HomeworkPrompt(subject: string, classLevel: string, chapter: string): string {
    Join([RequestLine(HomeworkOpening, subject, classLevel, chapter)] + HomeworkOutline, "\n")
  }

  // ---------------------------------------------------------------------
  // Line structure

  /** The request line holds a line feed only if one of the fields does. */
  lemma RequestLineIsOneLine(opening: string, subject: string, classLevel: string, chapter: string)
    requires '\n' !in opening && '\n' !in subject && '\n' !in classLevel && '\n' !in chapter
    ensures '\n' !in RequestLine(opening, subject, classLevel, chapter)
  {
  }

  /** A one-line request followed by single-line outline entries is a list of single lines. */
  lemma PromptLinesAreOneLine(opening: string, subject: string, classLevel: string, chapter: string, outline: seq<string>)
    requires '\n' !in opening && '\n' !in subject && '\n' !in classLevel && '\n' !in chapter
    requires forall i :: 0 <= i < |outline| ==> '\n' !in outline[i]
    ensures var lines := [RequestLine(opening, subject, classLevel, chapter)] + outline;
            forall i :: 0 <= i < |lines| ==> '\n' !in lines[i]
  {
    var lines := [RequestLine(opening, subject, classLevel, chapter)] + outline;
    forall i | 0 <= i < |lines| ensures '\n' !in lines[i] {
      if i == 0 {
        RequestLineIsOneLine(opening, subject, classLevel, chapter);
      } else {
        assert lines[i] == outline[i - 1];
      }
    }
  }

  /** A prompt made of a one-line request and an outline splits back into those lines. */
  lemma PromptLines(opening: string, subject: string, classLevel: string, chapter: string, outline: seq<string>)
    requires '\n' !in opening && '\n' !in subject && '\n' !in classLevel && '\n' !in chapter
    requires forall i :: 0 <= i < |outline| ==> '\n' !in outline[i]
    ensures Split(Join([RequestLine(opening, subject, classLevel, chapter)] + outline, "\n"), "\n")
              == [RequestLine(opening, subject, classLevel, chapter)] + outline
  {
    PromptLinesAreOneLine(opening, subject, classLevel, chapter, outline);
    SplitJoinedLines([RequestLine(opening, subject, classLevel, chapter)] + outline);
  }

  /** The first four fixed lines of the lesson-plan template are single lines. */
  lemma LessonPlanHeadLineIsOneLine(i: nat)
    requires i < 4
    ensures '\n' !in LessonPlanOutline[i]
  {
    if i == 0 { assert '\n' !in "Include:"; }
    else if i == 1 { assert '\n' !in "1. Learning Objectives"; }
    else if i == 2 { assert '\n' !in "2. Required Materials"; }
    else { assert '\n' !in "3. Introduction (10 minutes)"; }
  }

  /** The last four fixed lines of the lesson-plan template are single lines. */
  lemma LessonPlanTailLineIsOneLine(i: nat)
    requires 4 <= i < |LessonPlanOutline|
    ensures '\n' !in LessonPlanOutline[i]
  {
    if i == 4 { assert '\n' !in "4. Main Content (30 minutes)"; }
    else if i == 5 { assert '\n' !in "5. Activities (15 minutes)"; }
    else if i == 6 { assert '\n' !in "6. Assessment/Recap (5 minutes)"; }
    else { assert '\n' !in "7. Homework Ideas"; }
  }

  /** Each fixed line of the quiz template is a single line. */
  lemma QuizLineIsOneLine(i: nat)
    requires i < |QuizOutline|
    ensures '\n' !in QuizOutline[i]
  {
    assert '\n' !in ". ";
    if i == 0 { assert '\n' !in "Include:"; }
    else if i == 1 { assert '\n' !in MultipleChoice; }
    else if i == 2 { assert '\n' !in ShortAnswer; }
    else if i == 3 { assert '\n' !in LongAnswer; }
    else { assert '\n' !in WithAnswers; }
  }

  /** Each fixed line of the homework template is a single line. */
  lemma HomeworkLineIsOneLine(i: nat)
    requires i < |HomeworkOutline|
    ensures '\n' !in HomeworkOutline[i]
  {
    if i == 0 { assert '\n' !in "Include:"; }
    else if i == 1 { assert '\n' !in "1. Practice Problems"; }
    else if i == 2 { assert '\n' !in "2. Research Topics"; }
    else if i == 3 { assert '\n' !in "3. Creative Projects"; }
    else if i == 4 { assert '\n' !in "4. Due Date Suggestions"; }
    else { assert '\n' !in "5. Grading Criteria"; }
  }

  /**
   * For fields without line breaks, the lesson-plan prompt's lines are the
   * request naming chapter, subject and class, then "Include:" and the seven
   * numbered sections, Learning Objectives through Homework Ideas, in order.
   */
  lemma LessonPlanPromptLines(subject: string, classLevel: string, chapter: string)
    requires '\n' !in subject && '\n' !in classLevel && '\n' !in chapter
    ensures Split(LessonPlanPrompt(subject, classLevel, chapter), "\n") ==
              [LessonPlanOpening + chapter + " in " + subject + " for class " + classLevel + "."] + LessonPlanOutline
  {
    assert '\n' !in LessonPlanOpening;
    forall i | 0 <= i < |LessonPlanOutline| ensures '\n' !in LessonPlanOutline[i] {
      if i < 4 { LessonPlanHeadLineIsOneLine(i); } else { LessonPlanTailLineIsOneLine(i); }
    }
    PromptLines(LessonPlanOpening, subject, classLevel, chapter, LessonPlanOutline);
  }

  /**
   * For fields without line breaks, the quiz prompt's lines are the request,
   * "Include:", the 5/3/2 question groups, and the request for answers.
   */
  lemma QuizPromptLines(subject: string, classLevel: string, chapter: string)
    requires '\n' !in subject && '\n' !in classLevel && '\n' !in chapter
    ensures Split(QuizPrompt(subject, classLevel, chapter), "\n") ==
              [QuizOpening + chapter + " in " + subject + " for class " + classLevel + "."] + QuizOutline
  {
    assert '\n' !in QuizOpening;
    forall i | 0 <= i < |QuizOutline| ensures '\n' !in QuizOutline[i] {
      QuizLineIsOneLine(i);
    }
    PromptLines(QuizOpening, subject, classLevel, chapter, QuizOutline);
  }

  /**
   * For fields without line breaks, the homework prompt's lines are the
   * request, "Include:", and exactly five numbered sections: Practice
   * Problems, Research Topics, Creative Projects, Due Date Suggestions,
   * Grading Criteria.
   */
  lemma HomeworkPromptLines(subject: string, classLevel: string, chapter: string)
    requires '\n' !in subject && '\n' !in classLevel && '\n' !in chapter
    ensures Split(HomeworkPrompt(subject, classLevel, chapter), "\n") ==
              [HomeworkOpening + chapter + " in " + subject + " for class " + classLevel + "."] + HomeworkOutline
  {
    assert '\n' !in HomeworkOpening;
    forall i | 0 <= i < |HomeworkOutline| ensures '\n' !in HomeworkOutline[i] {
      HomeworkLineIsOneLine(i);
    }
    PromptLines(HomeworkOpening, subject, classLevel, chapter, HomeworkOutline);
  }

  // ---------------------------------------------------------------------
  // What the prompts ask for

  /** A numbered outline line mentions its item. */
  lemma NumberedLineContains(number: string, item: string)
    ensures Contains(Numbered(number, item), item)
  {
    ContainsMiddle(number + ". ", item, []);
    assert number + ". " + item + [] == number + ". " + item;
  }

  /** Each fixed line of a prompt occurs in it. */
  lemma PromptContainsOutlineLine(opening: string, subject: string, classLevel: string, chapter: string,
                                  outline: seq<string>, i: nat)
    requires i < |outline|
    ensures Contains(Join([RequestLine(opening, subject, classLevel, chapter)] + outline, "\n"), outline[i])
  {
    var lines := [RequestLine(opening, subject, classLevel, chapter)] + outline;
    assert lines[i + 1] == outline[i];
    JoinContainsPart(lines, "\n", i + 1);
  }

  /** A quiz prompt mentions the item of its numbered line `i`. */
  lemma QuizAsksFor(subject: string, classLevel: string, chapter: string, i: nat, number: string, item: string)
    requires i < |QuizOutline| && QuizOutline[i] == Numbered(number, item)
    ensures Contains(QuizPrompt(subject, classLevel, chapter), item)
  {
    PromptContainsOutlineLine(QuizOpening, subject, classLevel, chapter, QuizOutline, i);
    NumberedLineContains(number, item);
    ContainsTransitive(QuizPrompt(subject, classLevel, chapter), QuizOutline[i], item);
  }

  /**
   * Whatever the fields, a quiz prompt asks for 5 multiple-choice, 3
   * short-answer and 2 long-answer questions, with answers.
   */
  lemma QuizPromptAsksForQuestions(subject: string, classLevel: string, chapter: string)
    ensures Contains(QuizPrompt(subject, classLevel, chapter), "5 Multiple Choice Questions")
    ensures Contains(QuizPrompt(subject, classLevel, chapter), "3 Short Answer Questions")
    ensures Contains(QuizPrompt(subject, classLevel, chapter), "2 Long Answer Questions")
    ensures Contains(QuizPrompt(subject, classLevel, chapter), "Include answers for all questions.")
  {
    QuizAsksFor(subject, classLevel, chapter, 1, "1", MultipleChoice);
    QuizAsksFor(subject, classLevel, chapter, 2, "2", ShortAnswer);
    QuizAsksFor(subject, classLevel, chapter, 3, "3", LongAnswer);
    PromptContainsOutlineLine(QuizOpening, subject, classLevel, chapter, QuizOutline, 4);
  }

  /** A prompt begins with its template's opening. */
  lemma PromptOpening(opening: string, subject: string, classLevel: string, chapter: string, outline: seq<string>, k: nat)
    requires |outline| >= 1 && k < |opening|
    ensures k < |Join([RequestLine(opening, subject, classLevel, chapter)] + outline, "\n")|
    ensures Join([RequestLine(opening, subject, classLevel, chapter)] + outline, "\n")[k] == opening[k]
  {
    var lines := [RequestLine(opening, subject, classLevel, chapter)] + outline;
    assert lines[1..] == outline;
    assert Join(lines, "\n") == RequestLine(opening, subject, classLevel, chapter) + "\n" + Join(outline, "\n");
  }

  /**
   * The three templates never coincide, whatever the fields: each kind of
   * request sends its own prompt.
   */
  lemma PromptsDiffer(s1: string, c1: string, h1: string, s2: string, c2: string, h2: string)
    ensures LessonPlanPrompt(s1, c1, h1) != QuizPrompt(s2, c2, h2)
    ensures LessonPlanPrompt(s1, c1, h1) != HomeworkPrompt(s2, c2, h2)
    ensures QuizPrompt(s1, c1, h1) != HomeworkPrompt(s2, c2, h2)
  {
    // "Create a detailed ..." and "Create a quiz ..." part at index 9;
    // both part from "Create homework ..." at index 7.
    assert LessonPlanOpening[9] == 'd' && QuizOpening[9] == 'q';
    assert LessonPlanOpening[7] == 'a' && QuizOpening[7] == 'a' && HomeworkOpening[7] == 'h';
    PromptOpening(LessonPlanOpening, s1, c1, h1, LessonPlanOutline, 9);
    PromptOpening(QuizOpening, s2, c2, h2, QuizOutline, 9);
    PromptOpening(LessonPlanOpening, s1, c1, h1, LessonPlanOutline, 7);
    PromptOpening(HomeworkOpening, s2, c2, h2, HomeworkOutline, 7);
    PromptOpening(QuizOpening, s1, c1, h1, QuizOutline, 7);
  }
}
