/** The prompt builders of the backend: the level tables, the feedback note
    chosen from the previous score, and the text of both prompts. */
module Prompts {
  import opened Common
  import opened Strings

  // ---------------------------------------------------------------------------
  // Level tables

  /** Intended Gunning Fog range per level, for English passages. */
  const LevelRanges: map<string, (int, int)> :=
    map["Basic" := (0, 6), "Intermediate" := (6, 12), "Advanced" := (12, 25)]

  /** Target word count per level. */
  const WordsRanges: map<string, string> :=
    map["Basic" := "150-250", "Intermediate" := "250-400", "Advanced" := "400-600"]

  /** `LEVEL_RANGES.get(level, default)`. */
  function RangeOr(level: string, default: (int, int)): (r: (int, int))
    ensures level in LevelRanges ==> r == LevelRanges[level]
    ensures level !in LevelRanges ==> r == default
  {
    if level in LevelRanges then LevelRanges[level] else default
  }

  /** The range the English prompt builder reports; an unknown level gets (0, 20). */
  function PromptRange(level: string): (int, int) {
    RangeOr(level, (0, 20))
  }

  /** `WORDS_RANGES.get(level)` as an f-string renders it: "None" for an
      unknown level. Written out case by case; `WordTargetIsLookup` ties it
      to the table. */
  function WordTarget(level: string): string {
    if level == "Basic" then "150-250"
    else if level == "Intermediate" then "250-400"
    else if level == "Advanced" then "400-600"
    else "None"
  }

  lemma WordTargetIsLookup(level: string)
    ensures WordTarget(level) == if level in WordsRanges then WordsRanges[level] else "None"
  {
  }

  /** The three levels, their ranges, and the shared endpoints of adjacent ranges. */
  lemma LevelTables()
    ensures LevelRanges.Keys == WordsRanges.Keys == {"Basic", "Intermediate", "Advanced"}
    ensures LevelRanges["Basic"] == (0, 6)
    ensures LevelRanges["Intermediate"] == (6, 12)
    ensures LevelRanges["Advanced"] == (12, 25)
    ensures LevelRanges["Basic"].1 == LevelRanges["Intermediate"].0
    ensures LevelRanges["Intermediate"].1 == LevelRanges["Advanced"].0
    ensures forall level :: level in LevelRanges ==> LevelRanges[level].0 < LevelRanges[level].1
  {
  }

  // ---------------------------------------------------------------------------
  // Feedback note

  /** Which note the English prompt carries about the previous score. */
  datatype Verdict = TooSimple | TooComplex | AimForMiddle

  /** Below the range is "too simple"; otherwise above it is "too complex";
      otherwise (inside the inclusive range) "aim closer to the middle". */
  function Classify(score: real, range: (int, int)): (f: Verdict)
    ensures f == TooSimple <==> score < range.0 as real
    ensures f == TooComplex <==> range.0 as real <= score && range.1 as real < score
    ensures f == AimForMiddle <==> range.0 as real <= score <= range.1 as real
  {
    if score < range.0 as real then TooSimple
    else if score > range.1 as real then TooComplex
    else AimForMiddle
  }

  function RangeText(range: (int, int)): string {
    IntToString(range.0) + "-" + IntToString(range.1)
  }

  /** The note line for one verdict: it reports the score with two
      decimals and the target range, and ends with a full stop. */
  function NoteText(verdict: Verdict, score: real, range: (int, int)): string {
    match verdict
    case TooSimple =>
      "\n- NOTE:  The previous attempt scored " + Fixed2(score) +
      " (Gunning Fog), which was too simple for the target range " + RangeText(range) +
      ". Please generate a significantly more complex text."
    case TooComplex =>
      "\n- NOTE: The previous attempt scored " + Fixed2(score) +
      " (Gunning Fog), which was too complex for the target range " + RangeText(range) +
      ". Please generate a significantly simpler text."
    case AimForMiddle =>
      "\n- NOTE: The previous attempt scored " + Fixed2(score) +
      " (Gunning Fog). Aim closer to the middle of the target range " + RangeText(range) + "."
  }

  /** No note without a previous score; otherwise the note its
      classification against the prompt range picks. */
  function FeedbackNote(level: string, previousScore: Option<real>): string {
    match previousScore
    case None => ""
    case Some(score) =>
      var range := PromptRange(level);
      NoteText(Classify(score, range), score, range)
  }

  /** There is a note exactly when there is a previous score, and a note
      ends with non-whitespace. */
  lemma FeedbackNoteShape(level: string, previousScore: Option<real>)
    ensures previousScore.None? <==> FeedbackNote(level, previousScore) == []
    ensures previousScore.Some? ==> EndsSolid(FeedbackNote(level, previousScore))
  {
    if previousScore.Some? {
      var score := previousScore.value;
      var range := PromptRange(level);
      var verdict := Classify(score, range);
      var tail := match verdict
        case TooSimple => "more complex text."
        case TooComplex => "simpler text."
        case AimForMiddle => RangeText(range) + ".";
      assert EndsSolid(tail);
    }
  }

  const ReferenceHead: string :=
    "\n\nHere is the previous generated text for reference:\n---\n"

  const ReferenceTail: string :=
    "\n---\nPlease use this as a reference and adjust the new passage accordingly."

  /** The reference block quoting the previous text, present only when that
      text is non-empty. */
  function ReferenceBlock(previousText: Option<string>): string {
    if Truthy(previousText) then ReferenceHead + previousText.value + ReferenceTail else ""
  }

  /** There is a reference block exactly when the previous text is non-empty,
      and a block ends with non-whitespace. */
  lemma ReferenceBlockShape(previousText: Option<string>)
    ensures ReferenceBlock(previousText) == [] <==> !Truthy(previousText)
    ensures Truthy(previousText) ==> EndsSolid(ReferenceBlock(previousText))
  {
    if Truthy(previousText) {
      assert EndsSolid(ReferenceTail);
      SolidJoin(ReferenceHead + previousText.value, ReferenceTail);
    }
  }

  /** The reference block quotes the previous text in full. */
  lemma ReferenceQuotesText(previousText: Option<string>)
    requires Truthy(previousText)
    ensures Contains(ReferenceBlock(previousText), previousText.value)
  {
    ContainsInfix(ReferenceHead, previousText.value, ReferenceTail);
  }

  // ---------------------------------------------------------------------------
  // Prompt text

  /** The indentation that opens and closes both templates and starts each
      of their lines. */
  const Indent: string := "\n    "

  function Quoted(s: string): string {
    "\"" + s + "\""
  }

  function VocabularyHint(level: string): string {
    if level == "Basic" then "simple sentences/common words"
    else if level == "Intermediate" then "more complex sentences/some specialized terms"
    else "complex structures/domain-specific vocabulary"
  }

  const ContentLine: string :=
    "- Content: Ensure cohesive paragraphs with clear transitions. Develop the topic with appropriate depth for the level."

  /** The closing output instruction; `scope` is empty for English and names
      the language otherwise. */
  function OutputLine(scope: string): string {
    "- Output: Provide ONLY the reading passage text" + scope +
    ", nothing else. No introductory phrases, explanations, or formatting beyond paragraphs."
  }

  function StyleLine(style: string): string {
    "- Style: Maintain a consistent " + Lower(style) + " tone throughout."
  }

  const EnglishAbout: string := " level reading passage in English about "

  function EnglishOpening(topic: string, level: string, style: string): string {
    "Create a " + Lower(level) + EnglishAbout + Quoted(topic) + " with a " + Lower(style) + " tone."
  }

  /** The English guideline lines up to the word target. */
  const EnglishGuidelinesHead: string :=
    Indent + "Guidelines:" +
    Indent + "- Important: Even if the topic is in another language the entire text MUST be in English." +
    Indent + "- Target Word Count: "

  /** The English guideline lines between the word target and the output line. */
  function EnglishGuidelinesLines(level: string, style: string): string {
    " words." +
    Indent + "- Vocabulary/Complexity: Use vocabulary and sentence structures appropriate for the " + level + " level (" + VocabularyHint(level) + ")." +
    Indent + ContentLine +
    Indent + StyleLine(style) +
    Indent
  }

  function EnglishGuidelines(level: string, style: string): string {
    EnglishGuidelinesHead + WordTarget(level) + (EnglishGuidelinesLines(level, style) + OutputLine(""))
  }

  /** The English template between its opening and closing indentation. */
  function EnglishCore(topic: string, level: string, style: string): string {
    EnglishOpening(topic, level, style) + EnglishGuidelines(level, style)
  }

  lemma OutputLineSolid(scope: string)
    ensures EndsSolid(OutputLine(scope))
  {
  }

  /** The English template starts and ends with non-whitespace. */
  lemma EnglishCoreSolid(topic: string, level: string, style: string)
    ensures StartsSolid(EnglishCore(topic, level, style)) && EndsSolid(EnglishCore(topic, level, style))
  {
    var opening := EnglishOpening(topic, level, style);
    assert StartsSolid(opening);
    var lines := EnglishGuidelinesLines(level, style);
    OutputLineSolid("");
    SolidJoin(lines, OutputLine(""));
    SolidJoin(EnglishGuidelinesHead + WordTarget(level), lines + OutputLine(""));
    SolidJoin(opening, EnglishGuidelines(level, style));
  }

  lemma IndentIsSpace()
    ensures |Indent| == 5 && AllSpace(Indent)
  {
  }

  /** The template followed, unless `bare`, by one indentation, the note and
      the block. */
  function Assemble(bare: bool, core: string, note: string, block: string): string {
    if bare then core else core + Indent + note + block
  }

  /** Stripping an indented template followed by a note and a block, each
      empty or ending in non-whitespace, removes exactly the template's outer
      indentation: the closing one survives, as a separator, when something
      follows it. */
  lemma StripIndented(bare: bool, core: string, note: string, block: string)
    requires StartsSolid(core) && EndsSolid(core)
    requires note == [] || EndsSolid(note)
    requires block == [] || EndsSolid(block)
    requires bare <==> note == [] && block == []
    ensures Strip(Indent + core + Indent + note + block) == Assemble(bare, core, note, block)
  {
    IndentIsSpace();
    var raw := Indent + core + Indent + note + block;
    if bare {
      assert raw == Indent + core + Indent;
      StripAround(Indent, core, Indent);
    } else {
      var body := core + Indent + note + block;
      SolidJoin(core, Indent);
      SolidJoin(core + Indent, note);
      SolidJoin(core + Indent + note, block);
      assert EndsSolid(body) by {
        if block == [] {
          assert body == core + Indent + note;
        }
      }
      assert raw == Indent + body + [];
      StripAround(Indent, body, []);
    }
  }

  /** The assembled text is the template, whitespace, the note and the block,
      in that order, and only the template when nothing follows it. */
  lemma AssembleLayout(bare: bool, core: string, note: string, block: string)
    requires bare <==> note == [] && block == []
    ensures bare ==> Assemble(bare, core, note, block) == core
    ensures exists gap :: AllSpace(gap) && Assemble(bare, core, note, block) == core + gap + note + block
  {
    IndentIsSpace();
    if bare {
      assert core + [] + note + block == core;
      assert AllSpace([]);
    }
  }

  /** Whatever the template contains, the assembled text contains. */
  lemma AssembleKeepsCore(bare: bool, core: string, note: string, block: string, x: string)
    requires Contains(core, x)
    ensures Contains(Assemble(bare, core, note, block), x)
  {
    if !bare {
      ContainsExtend(core, Indent, x);
      ContainsExtend(core + Indent, note, x);
      ContainsExtend(core + Indent + note, block, x);
    }
  }

  /** `build_english_prompt`: the template, then, when there is a previous
      score or a non-empty previous text, the note and the reference block.
      `EnglishPromptIsStripped` shows this is the indented template with the
      note and the block appended, stripped. */
  function BuildEnglishPrompt(topic: string, level: string, style: string,
                              previousScore: Option<real>, previousText: Option<string>): string
  {
    Assemble(previousScore.None? && !Truthy(previousText), EnglishCore(topic, level, style),
             FeedbackNote(level, previousScore), ReferenceBlock(previousText))
  }

  /** The English prompt is the raw template (which opens and closes with an
      indentation) followed by the note and the reference block, stripped of
      surrounding whitespace. */
  lemma EnglishPromptIsStripped(topic: string, level: string, style: string,
                                previousScore: Option<real>, previousText: Option<string>)
    ensures var raw := Indent + EnglishCore(topic, level, style) + Indent +
                       FeedbackNote(level, previousScore) + ReferenceBlock(previousText);
            BuildEnglishPrompt(topic, level, style, previousScore, previousText) == Strip(raw)
  {
    EnglishCoreSolid(topic, level, style);
    FeedbackNoteShape(level, previousScore);
    ReferenceBlockShape(previousText);
    StripIndented(previousScore.None? && !Truthy(previousText), EnglishCore(topic, level, style),
                  FeedbackNote(level, previousScore), ReferenceBlock(previousText));
  }

  /** Without a previous score or a non-empty previous text the English
      prompt is the bare template; otherwise the template is followed by
      whitespace, the note and then the reference block. */
  lemma EnglishPromptLayout(topic: string, level: string, style: string,
                            previousScore: Option<real>, previousText: Option<string>)
    ensures previousScore.None? && !Truthy(previousText) ==>
      BuildEnglishPrompt(topic, level, style, previousScore, previousText) == EnglishCore(topic, level, style)
    ensures exists gap ::
      && AllSpace(gap)
      && BuildEnglishPrompt(topic, level, style, previousScore, previousText) ==
         EnglishCore(topic, level, style) + gap + FeedbackNote(level, previousScore) + ReferenceBlock(previousText)
  {
    FeedbackNoteShape(level, previousScore);
    ReferenceBlockShape(previousText);
    AssembleLayout(previousScore.None? && !Truthy(previousText), EnglishCore(topic, level, style),
                   FeedbackNote(level, previousScore), ReferenceBlock(previousText));
  }

  /** Whatever the template says, the English prompt says, whatever feedback follows. */
  lemma EnglishPromptKeepsCore(topic: string, level: string, style: string,
                               previousScore: Option<real>, previousText: Option<string>, x: string)
    requires Contains(EnglishCore(topic, level, style), x)
    ensures Contains(BuildEnglishPrompt(topic, level, style, previousScore, previousText), x)
  {
    AssembleKeepsCore(previousScore.None? && !Truthy(previousText), EnglishCore(topic, level, style),
                      FeedbackNote(level, previousScore), ReferenceBlock(previousText), x);
  }

  /** The opening sentence quotes the topic and carries the level and the
      style in lower case. */
  lemma OpeningMentions(topic: string, level: string, style: string)
    ensures var o := EnglishOpening(topic, level, style);
            Contains(o, Quoted(topic)) && Contains(o, Lower(level)) && Contains(o, Lower(style))
  {
    var l, q, t := Lower(level), Quoted(topic), Lower(style);
    var s1 := "Create a " + l;
    var s2 := s1 + EnglishAbout;
    var s3 := s2 + q;
    var s4 := s3 + " with a ";
    var s5 := s4 + t;
    ContainsSuffix("Create a ", l);
    ContainsExtend(s1, EnglishAbout, l);
    ContainsExtend(s2, q, l);
    ContainsSuffix(s2, q);
    ContainsExtend(s3, " with a ", l);
    ContainsExtend(s3, " with a ", q);
    ContainsExtend(s4, t, l);
    ContainsExtend(s4, t, q);
    ContainsSuffix(s4, t);
    ContainsExtend(s5, " tone.", l);
    ContainsExtend(s5, " tone.", q);
    ContainsExtend(s5, " tone.", t);
  }

  /** The English template quotes the topic, carries the level and the style
      in lower case, and names the level's word target. */
  lemma EnglishCoreMentions(topic: string, level: string, style: string)
    ensures var core := EnglishCore(topic, level, style);
            && Contains(core, Quoted(topic))
            && Contains(core, Lower(level))
            && Contains(core, Lower(style))
            && Contains(core, WordTarget(level))
  {
    var o := EnglishOpening(topic, level, style);
    var g := EnglishGuidelines(level, style);
    OpeningMentions(topic, level, style);
    ContainsExtend(o, g, Quoted(topic));
    ContainsExtend(o, g, Lower(level));
    ContainsExtend(o, g, Lower(style));
    ContainsSuffix(EnglishGuidelinesHead, WordTarget(level));
    ContainsExtend(EnglishGuidelinesHead + WordTarget(level), EnglishGuidelinesLines(level, style) + OutputLine(""), WordTarget(level));
    ContainsExtend(g, o, WordTarget(level));
  }

  /** The English prompt quotes the topic, carries the level and the style
      in lower case, and names the level's word target, whatever feedback
      follows. */
  lemma EnglishPromptMentions(topic: string, level: string, style: string,
                              previousScore: Option<real>, previousText: Option<string>)
    ensures var r := BuildEnglishPrompt(topic, level, style, previousScore, previousText);
            && Contains(r, Quoted(topic))
            && Contains(r, Lower(level))
            && Contains(r, Lower(style))
            && Contains(r, WordTarget(level))
  {
    EnglishCoreMentions(topic, level, style);
    EnglishPromptKeepsCore(topic, level, style, previousScore, previousText, Quoted(topic));
    EnglishPromptKeepsCore(topic, level, style, previousScore, previousText, Lower(level));
    EnglishPromptKeepsCore(topic, level, style, previousScore, previousText, Lower(style));
    EnglishPromptKeepsCore(topic, level, style, previousScore, previousText, WordTarget(level));
  }

  function OtherLanguageOpening(topic: string, level: string, language: string, style: string): string {
    "Create a " + Lower(level) + " level reading passage strictly in the " + language +
    " language about " + Quoted(topic) + " with a " + Lower(style) + " tone."
  }

  /** The non-English guideline lines before the output line. */
  function OtherLanguageLines(level: string, language: string, style: string): string {
    Indent + "Guidelines:" +
    Indent + "- Important: Even if the topic is in another language the entire text MUST be in " + language + "." +
    Indent + "- Language: The entire text MUST be in " + language + "." +
    Indent + "- Target Word Count: Approximately " + WordTarget(level) + " words." +
    Indent + "- Vocabulary/Complexity: Use vocabulary and sentence structures appropriate for a " + level + " learner of " + language + "." +
    Indent + ContentLine +
    Indent + StyleLine(style) +
    Indent
  }

  /** The non-English template between its opening and closing indentation. */
  function OtherLanguageCore(topic: string, level: string, language: string, style: string): string {
    OtherLanguageOpening(topic, level, language, style) +
    (OtherLanguageLines(level, language, style) + OutputLine(" in " + language))
  }

  /** `build_other_language_prompt`: the template, with nothing appended.
      `OtherLanguagePromptIsStripped` shows this is the indented template,
      stripped. */
  function BuildOtherLanguagePrompt(topic: string, level: string, language: string, style: string): string
  {
    OtherLanguageCore(topic, level, language, style)
  }

  lemma OtherLanguagePromptIsStripped(topic: string, level: string, language: string, style: string)
    ensures var raw := Indent + OtherLanguageCore(topic, level, language, style) + Indent;
            BuildOtherLanguagePrompt(topic, level, language, style) == Strip(raw)
  {
    var opening := OtherLanguageOpening(topic, level, language, style);
    assert StartsSolid(opening);
    var lines := OtherLanguageLines(level, language, style);
    OutputLineSolid(" in " + language);
    SolidJoin(lines, OutputLine(" in " + language));
    SolidJoin(opening, lines + OutputLine(" in " + language));
    IndentIsSpace();
    StripAround(Indent, OtherLanguageCore(topic, level, language, style), Indent);
  }
}
