/** The text the server assembles around the model (server.js): the
    language instruction, the two prompts, the conversation context of a
    follow-up question, and the error reply of each endpoint. Every
    request field is taken as a string and interpolated as it is, without
    escaping. */
module Prompts {
  import opened JsText

  // ---------------------------------------------------------------------
  // The student profile
  // ---------------------------------------------------------------------

  /** The fields of `studentData` (analyze) and `studentProfile` (chat). */
  datatype Profile = Profile(
    name: string, surname: string, age: string, citizenship: string,
    education: string, institution: string, major: string, gpa: string,
    targetCountry: string, eduLang: string, englishLevel: string)

  // ---------------------------------------------------------------------
  // The language instruction
  // ---------------------------------------------------------------------

  const RussianInstruction: string := "Respond in Russian (Русский язык)."
  const AzerbaijaniInstruction: string := "Respond in Azerbaijani (Azərbaycan dili)."
  const EnglishInstruction: string := "Respond in English."

  /** The instruction for the request's `language`: Russian for "ru",
      Azerbaijani for "az", English for anything else, a missing code
      included. */
  function LanguageInstruction(language: Option<string>): (r: string)
    ensures r == RussianInstruction <==> language == Some("ru")
    ensures r == AzerbaijaniInstruction <==> language == Some("az")
    ensures r == EnglishInstruction <==> language != Some("ru") && language != Some("az")
  {
    if language == Some("ru") then RussianInstruction
    else if language == Some("az") then AzerbaijaniInstruction
    else EnglishInstruction
  }

  /** The three codes the client sends get three different instructions,
      and an unknown code is answered in English. */
  lemma LanguageInstructionDistinct(language: Option<string>)
    ensures LanguageInstruction(Some("az")) != LanguageInstruction(Some("en"))
    ensures LanguageInstruction(Some("az")) != LanguageInstruction(Some("ru"))
    ensures LanguageInstruction(Some("en")) != LanguageInstruction(Some("ru"))
    ensures language != Some("ru") && language != Some("az") ==>
              LanguageInstruction(language) == LanguageInstruction(Some("en"))
  {
  }

  // ---------------------------------------------------------------------
  // The analyze prompt, server.js:37-160
  // ---------------------------------------------------------------------

  // The fixed text of server.js:38-60, one constant per fragment, so that
  // the shape of the prompt can be reasoned about apart from its wording.
  const CounselorIntro: string := "'s personal academic counselor at GlobalGo with 15+ years of experience placing students from "
  const ConsultationDone: string := " into top universities. You have just completed a 1-hour consultation with them. Now write your personalized counseling report."
  const RulesHeading: string := "**CRITICAL RULES - AVOID GENERIC ADVICE:**"
  const NoVagueAdvice: string := "❌ DO NOT give vague advice like \"study hard\" or \"prepare well\""
  const NoUnexplainedUniversities: string := "❌ DO NOT list universities without explaining WHY they fit THIS student"
  const NoScoreRanges: string := "❌ DO NOT give score ranges without SPECIFIC target numbers"
  const NoGenericTimelines: string := "❌ DO NOT give generic timelines - provide ACTUAL month-by-month plans"
  const BeSpecific: string := "✅ BE EXTREMELY SPECIFIC with names, numbers, dates, and programs"
  const ReferenceGpa: string := "✅ REFERENCE their exact GPA ("
  const ReferenceAge: string := "), age ("
  const ReferenceMajor: string := "), matching major ("
  const ReferenceInstitution: string := ") and current institution ("
  const ReferenceEnd: string := ") in your advice"
  const ExplainReasoning: string := "✅ EXPLAIN your reasoning for every recommendation"
  const StudentProfileHeading: string := "**Student Profile:**"
  const GpaLabel: string := "- Current GPA: "
  const LanguageLabel: string := "**Language:** "

  /** server.js:37-47: the opening line and the rules. */
  function AnalyzeIntro(p: Profile): seq<string> {
    [
      "",
      "You are " + p.name + " " + p.surname + CounselorIntro + p.citizenship + ConsultationDone,
      "",
      RulesHeading,
      NoVagueAdvice,
      NoUnexplainedUniversities,
      NoScoreRanges,
      NoGenericTimelines,
      BeSpecific,
      ReferenceGpa + p.gpa + ReferenceAge + p.age + ReferenceMajor + p.major
      + ReferenceInstitution + p.institution + ReferenceEnd,
      ExplainReasoning
    ]
  }

  /** server.js:48-58: the student profile, one line per field. */
  function AnalyzeProfileLines(p: Profile): seq<string> {
    [
      "",
      StudentProfileHeading,
      "- Name: " + p.name + " " + p.surname,
      "- Age: " + p.age + " years old",
      "- From: " + p.citizenship,
      "- Current Education: " + p.education + " (at " + p.institution + ")",
      "- Interested in: " + p.major,
      GpaLabel + p.gpa,
      "- Wants to study in: " + p.targetCountry,
      "- Preferred Study Language: " + p.eduLang,
      "- Language Level: " + p.englishLevel
    ]
  }

  /** server.js:59-61: the language instruction. */
  function AnalyzeLanguageLines(instr: string): seq<string> {
    [
      "",
      LanguageLabel + instr,
      ""
    ]
  }

  /** server.js:62-74: the profile assessment. */
  function AssessmentSection(p: Profile): seq<string> {
    [
      "---",
      "",
      "## 📊 Profile Assessment - " + p.name,
      "",
      "Start with: \"Hi " + p.name + ", based on our consultation...\"",
      "",
      "Then provide:",
      "- **Specific** analysis of their " + p.gpa + " GPA for " + p.major + " programs",
      "- How competitive they are SPECIFICALLY for " + p.targetCountry + " (use percentages if possible)",
      "- Their EXACT strengths based on their profile",
      "- SPECIFIC areas where they need improvement (with concrete examples)",
      "- Compare them to typical admitted students (e.g., \"Students with your profile typically have X% admission rate to...\")",
      ""
    ]
  }

  /** server.js:75-96: required tests and target scores. */
  function TestsSection(p: Profile): seq<string> {
    [
      "## 📝 Required Tests & Target Scores",
      "",
      "**DO NOT say \"IELTS 6.5-7.0\" - That's too vague!**",
      "",
      "Instead, provide:",
      "",
      "**For English Proficiency (given they are \"" + p.englishLevel + "\"):**",
      "- Exact test recommendation: IELTS or TOEFL? (Pick ONE and explain why for THIS student)",
      "- MINIMUM score needed: [exact number]",
      "- COMPETITIVE score for " + p.major + " at top " + p.targetCountry + " universities: [exact number]",
      "- Your profile suggests you should aim for: [exact target]",
      "",
      "**For " + p.education + " → University Admission:**",
      "- List SPECIFIC tests needed (SAT/ACT/GRE/GMAT/None)",
      "- Give EXACT score targets (e.g., \"SAT: 1450+, specifically Math: 750+, Reading: 700+\")",
      "- Explain WHY these scores for " + p.major,
      "",
      "**Timeline for " + p.name + ":**",
      "- Month 1-2: [specific preparation actions]",
      "- Month 3: [test date recommendation]",
      "- Month 4-5: [next steps]",
      ""
    ]
  }

  /** server.js:97-116: university recommendations. */
  function UniversitiesSection(p: Profile): seq<string> {
    [
      "## 🎓 University Recommendations for " + p.major,
      "",
      "**CRITICAL: Name SPECIFIC universities with SPECIFIC programs!**",
      "",
      "### 🚀 Reach Schools (Highly Competitive)",
      "For each university, provide:",
      "1. **[Exact University Name]** - [Specific Program Name]",
      "   - Why it fits " + p.name + ": [Personal reason based on their " + p.major + " interest]",
      "   - Admission requirements for " + p.citizenship + " students: [Specific numbers]",
      "   - What makes you competitive: [Based on their actual profile]",
      "   - What you need to strengthen: [Specific action]",
      "",
      "*List 3-4 reach schools following this format*",
      "",
      "### 🎯 Target Schools (Good Match)",
      "*Same detailed format for 3-4 target schools*",
      "",
      "### ✅ Safety Schools (High Acceptance Probability)",
      "*Same detailed format for 2-3 safety schools*",
      ""
    ]
  }

  /** server.js:117-129: scholarship opportunities. */
  function ScholarshipsSection(p: Profile): seq<string> {
    [
      "## 💰 Scholarship Opportunities",
      "",
      "**DO NOT list generic scholarships!**",
      "",
      "Provide:",
      "1. **[Specific Scholarship Name]** for " + p.citizenship + " students studying " + p.major,
      "   - Award amount: [exact $ or %]",
      "   - Eligibility for " + p.name + ": [Why they qualify or what they need]",
      "   - Application deadline: [Month/Year or \"Rolling\"]",
      "   - Your chances: [Realistic assessment]",
      "",
      "*List 3-4 REAL, SPECIFIC scholarships*",
      ""
    ]
  }

  /** server.js:130-148: the month-by-month plan. */
  function PlanSection(p: Profile): seq<string> {
    [
      "## 📅 Month-by-Month Action Plan for " + p.name,
      "",
      "**Current Date: February 2026**",
      "",
      "Create a CONCRETE timeline:",
      "",
      "**February-March 2026:**",
      "- [ ] Week 1: [Specific action]",
      "- [ ] Week 2-3: [Specific action]",
      "- [ ] By End of March: [Specific milestone]",
      "",
      "**April-May 2026:**",
      "- [ ] [Specific actions with dates]",
      "",
      "**June-July 2026:**",
      "- [ ] [Specific test dates, application prep]",
      "",
      "*Continue through at least 12 months with SPECIFIC actions*",
      ""
    ]
  }

  /** server.js:149-154: the priorities of the month. */
  function PrioritiesSection(p: Profile): seq<string> {
    [
      "## 🎯 Top 3 Priorities for " + p.name + " THIS MONTH",
      "",
      "1. **[Specific Action]** - Why: [Reason based on their profile]",
      "2. **[Specific Action]** - Deadline: [Exact date]",
      "3. **[Specific Action]** - How: [Concrete steps]",
      ""
    ]
  }

  /** server.js:155-160: the final note, then the indentation before the closing quote. */
  function ClosingSection(p: Profile): seq<string> {
    [
      "---",
      "",
      "**Final Note:** Remember, " + p.name + ", this plan is tailored for your " + p.gpa + " GPA, " + p.englishLevel + " English level, and passion for " + p.major + ". Focus on the \"Top 3 Priorities\" first, then follow the monthly plan.",
      "",
      "**REMEMBER**: Use their name (" + p.name + ") throughout. Be specific, not generic. Reference their actual data points. Give exact numbers, dates, and university names.",
      "        "
    ]
  }

  /** server.js:62-160: the sections of the report to write. */
  function AnalyzeReport(p: Profile): seq<string> {
    AssessmentSection(p) + (TestsSection(p) + (UniversitiesSection(p) + (ScholarshipsSection(p)
    + (PlanSection(p) + (PrioritiesSection(p) + ClosingSection(p))))))
  }

  /** The analyze prompt around any report: the template starts with a
      newline, and its lines are joined with newlines. */
  function AnalyzeText(p: Profile, instr: string, report: seq<string>): string {
    Join(AnalyzeIntro(p) + AnalyzeProfileLines(p) + AnalyzeLanguageLines(instr) + report, "\n")
  }

  /** The prompt of the analyze endpoint. */
  function AnalyzePrompt(p: Profile, language: Option<string>): string {
    AnalyzeText(p, LanguageInstruction(language), AnalyzeReport(p))
  }

  /** The analyze prompt holds the student's GPA on a line of its own,
      exactly as sent. */
  lemma AnalyzePromptGpa(p: Profile, language: Option<string>)
    ensures Contains(AnalyzePrompt(p, language), "\n" + (GpaLabel + p.gpa) + "\n")
  {
    AnalyzeTextGpa(p, LanguageInstruction(language), AnalyzeReport(p));
  }

  /** The analyze prompt holds the language instruction for the request's
      code on a line of its own, after "**Language:** ". */
  lemma AnalyzePromptLanguage(p: Profile, language: Option<string>)
    ensures Contains(AnalyzePrompt(p, language),
                     "\n" + (LanguageLabel + LanguageInstruction(language)) + "\n")
  {
    AnalyzeTextLanguage(p, LanguageInstruction(language), AnalyzeReport(p));
  }

  /** The GPA line does not depend on the report that follows it. */
  lemma AnalyzeTextGpa(p: Profile, instr: string, report: seq<string>)
    ensures Contains(AnalyzeText(p, instr, report), "\n" + (GpaLabel + p.gpa) + "\n")
  {
    AnalyzeHeadShape(p, instr);
    InSecondPart(AnalyzeIntro(p), AnalyzeProfileLines(p), AnalyzeLanguageLines(instr), report,
                 7, GpaLabel + p.gpa);
  }

  lemma AnalyzeTextLanguage(p: Profile, instr: string, report: seq<string>)
    ensures Contains(AnalyzeText(p, instr, report), "\n" + (LanguageLabel + instr) + "\n")
  {
    AnalyzeHeadShape(p, instr);
    InThirdPart(AnalyzeIntro(p), AnalyzeProfileLines(p), AnalyzeLanguageLines(instr), report,
                1, LanguageLabel + instr);
  }

  lemma AnalyzeHeadShape(p: Profile, instr: string)
    ensures |AnalyzeIntro(p)| == 11
    ensures |AnalyzeProfileLines(p)| == 11 && AnalyzeProfileLines(p)[7] == GpaLabel + p.gpa
    ensures |AnalyzeLanguageLines(instr)| == 3 && AnalyzeLanguageLines(instr)[1] == LanguageLabel + instr
  {
    IntroShape(p);
    ProfileShape(p);
  }

  lemma IntroShape(p: Profile)
    ensures |AnalyzeIntro(p)| == 11
  {
  }

  lemma ProfileShape(p: Profile)
    ensures |AnalyzeProfileLines(p)| == 11 && AnalyzeProfileLines(p)[7] == GpaLabel + p.gpa
  {
  }

  /** A line with lines before and after it stands between two
      separators in the joined text. */
  lemma LineAt(parts: seq<string>, i: nat, sep: string)
    requires 0 < i < |parts| - 1
    ensures Contains(Join(parts, sep), sep + parts[i] + sep)
  {
    assert parts[i..i + 1] == [parts[i]];
    JoinContainsWindow(parts, sep, i, i + 1);
  }

  /** A line inside the second of four parts, not at its ends. */
  lemma InSecondPart(a: seq<string>, b: seq<string>, c: seq<string>, d: seq<string>,
                     k: nat, line: string)
    requires |a| > 0 && k + 1 < |b| && b[k] == line
    ensures Contains(Join(a + b + c + d, "\n"), "\n" + line + "\n")
  {
    assert (a + b + c + d)[|a| + k] == b[k];
    LineAt(a + b + c + d, |a| + k, "\n");
  }

  /** A line inside the third of four parts, not at its ends. */
  lemma InThirdPart(a: seq<string>, b: seq<string>, c: seq<string>, d: seq<string>,
                    k: nat, line: string)
    requires |a| + |b| > 0 && k + 1 < |c| && c[k] == line
    ensures Contains(Join(a + b + c + d, "\n"), "\n" + line + "\n")
  {
    assert (a + b + c + d)[|a| + |b| + k] == c[k];
    LineAt(a + b + c + d, |a| + |b| + k, "\n");
  }

  // ---------------------------------------------------------------------
  // The conversation context, server.js:203-226
  // ---------------------------------------------------------------------

  /** The labels of the profile block, in the order the block lists them. */
  const ProfileLabels: seq<string> :=
    ["Name", "Age", "From", "Current Education", "Major", "GPA", "Target",
     "Preferred Study Language", "Language Level"]

  /** The value shown under each label of `ProfileLabels`. */
  function ProfileValues(p: Profile): seq<string> {
    [p.name + " " + p.surname, p.age, p.citizenship,
     p.education + " (at " + p.institution + ")", p.major, p.gpa,
     p.targetCountry, p.eduLang, p.englishLevel]
  }

  function FieldLine(name: string, value: string): string {
    "- " + name + ": " + value
  }

  /** The lines of the profile block: an empty line, the heading, one line
      per field, and the empty line after the last newline. */
  function ProfileLines(p: Profile): seq<string> {
    var v := ProfileValues(p);
    ["", OriginalProfileHeading]
    + [FieldLine(ProfileLabels[0], v[0]), FieldLine(ProfileLabels[1], v[1]),
       FieldLine(ProfileLabels[2], v[2]), FieldLine(ProfileLabels[3], v[3]),
       FieldLine(ProfileLabels[4], v[4]), FieldLine(ProfileLabels[5], v[5]),
       FieldLine(ProfileLabels[6], v[6]), FieldLine(ProfileLabels[7], v[7]),
       FieldLine(ProfileLabels[8], v[8])]
    + [""]
  }

  const OriginalProfileHeading: string := "**Original Student Profile:**"

  /** The template that opens the context. */
  function ProfileBlock(p: Profile): string {
    Join(ProfileLines(p), "\n")
  }

  /** No field of the profile holds a newline. */
  predicate SingleLineFields(p: Profile) {
    forall k :: 0 <= k < |ProfileValues(p)| ==> '\n' !in ProfileValues(p)[k]
  }

  /** Read back line by line, the profile block lists the nine fields in
      the order of `ProfileLabels`, each as "- <label>: <value>", between
      its heading and a final empty line. */
  lemma ProfileBlockFields(p: Profile)
    requires SingleLineFields(p)
    ensures var lines := Split(ProfileBlock(p), '\n');
            && |lines| == |ProfileLabels| + 3
            && lines[0] == "" && lines[1] == OriginalProfileHeading
            && lines[|lines| - 1] == ""
            && forall k :: 0 <= k < |ProfileLabels| ==>
                 lines[k + 2] == "- " + ProfileLabels[k] + ": " + ProfileValues(p)[k]
  {
    var ls := ProfileLines(p);
    ProfileLinesShape(p);
    LabelsSingleLine();
    forall i | 0 <= i < |ls|
      ensures '\n' !in ls[i]
    {
      if 2 <= i < 11 {
        FieldLineSingle(ProfileLabels[i - 2], ProfileValues(p)[i - 2]);
      }
    }
    SplitJoin(ls, '\n');
  }

  lemma ProfileLinesShape(p: Profile)
    ensures |ProfileLines(p)| == |ProfileLabels| + 3
    ensures ProfileLines(p)[0] == "" && ProfileLines(p)[1] == OriginalProfileHeading
    ensures ProfileLines(p)[|ProfileLabels| + 2] == ""
    ensures forall k :: 0 <= k < |ProfileLabels| ==>
              ProfileLines(p)[k + 2] == FieldLine(ProfileLabels[k], ProfileValues(p)[k])
  {
  }

  lemma LabelsSingleLine()
    ensures |ProfileLabels| == 9
    ensures forall k :: 0 <= k < |ProfileLabels| ==> '\n' !in ProfileLabels[k]
    ensures '\n' !in OriginalProfileHeading
  {
  }

  lemma FieldLineSingle(name: string, value: string)
    requires '\n' !in name && '\n' !in value
    ensures '\n' !in FieldLine(name, value)
  {
  }

  /** One message of `conversationHistory`: `type` and `content`. */
  datatype Message = Message(kind: string, content: string)

  /** The entry of one message: a question for type "user", an answer for
      any other type. */
  function Entry(m: Message): string {
    if m.kind == "user" then AskedOpen + m.content + EntryClose
    else AnsweredOpen + m.content + EntryClose
  }

  const AskedOpen: string := "\nStudent asked: \""
  const AnsweredOpen: string := "\nYou answered: \""
  const EntryClose: string := "\"\n"

  /** The entries of the messages, in array order. */
  function Entries(history: seq<Message>): string {
    if |history| == 0 then ""
    else Entries(history[..|history| - 1]) + Entry(history[|history| - 1])
  }

  const HistoryHeader: string := "\n\n**Previous Conversation:**\n"

  /** The history counts when it is present and not empty. */
  predicate HasHistory(history: Option<seq<Message>>) {
    history.Some? && |history.value| > 0
  }

  /** The context the chat prompt embeds. */
  function Context(p: Profile, history: Option<seq<Message>>): string {
    ProfileBlock(p) + (if HasHistory(history) then HistoryHeader + Entries(history.value) else "")
  }

  /** `conversationContext`: the profile block, then, for a non-empty
      history, the header and one entry per message. */
  method BuildContext(p: Profile, history: Option<seq<Message>>) returns (context: string)
    ensures context == Context(p, history)
  {
    context := ProfileBlock(p);
    if history.Some? && |history.value| > 0 {
      context := context + HistoryHeader;
      context := AppendEntries(context, history.value);
    }
  }

  /** The `forEach` over the history: one entry per message appended to
      `context`, in array order. */
  method AppendEntries(context: string, messages: seq<Message>) returns (context': string)
    ensures context' == context + Entries(messages)
  {
    context' := context;
    var i := 0;
    while i < |messages|
      invariant 0 <= i <= |messages|
      invariant context' == context + Entries(messages[..i])
    {
      EntriesPrefix(messages, i);
      Assoc(context, Entries(messages[..i]), Entry(messages[i]));
      context' := context' + Entry(messages[i]);
      i := i + 1;
    }
    assert messages[..i] == messages;
  }

  /** Without a history, or with an empty one, the context is exactly the
      profile block. */
  lemma ContextWithoutHistory(p: Profile, history: Option<seq<Message>>)
    requires history == None || history == Some([])
    ensures Context(p, history) == ProfileBlock(p)
  {
  }

  /** Entries of consecutive messages follow one another: the entries of a
      history are those of its first part, then those of the rest. */
  lemma {:induction false} EntriesAppend(h1: seq<Message>, h2: seq<Message>)
    ensures Entries(h1 + h2) == Entries(h1) + Entries(h2)
    decreases |h2|
  {
    if |h2| == 0 {
      assert h1 + h2 == h1;
    } else {
      var init, last := h2[..|h2| - 1], h2[|h2| - 1];
      EntriesAppend(h1, init);
      DropLast(h1, h2);
      Assoc(Entries(h1), Entries(init), Entry(last));
    }
  }

  lemma DropLast(h1: seq<Message>, h2: seq<Message>)
    requires |h2| > 0
    ensures (h1 + h2)[..|h1 + h2| - 1] == h1 + h2[..|h2| - 1]
    ensures (h1 + h2)[|h1 + h2| - 1] == h2[|h2| - 1]
  {
  }

  /** One more message, one more entry. */
  lemma EntriesPrefix(h: seq<Message>, i: nat)
    requires i < |h|
    ensures Entries(h[..i + 1]) == Entries(h[..i]) + Entry(h[i])
  {
    PrefixStep(h, i);
  }

  lemma PrefixStep(h: seq<Message>, i: nat)
    requires i < |h|
    ensures h[..i + 1][..i] == h[..i] && h[..i + 1][i] == h[i]
  {
  }

  /** The first message's entry comes first, then the entries of the
      others: one entry per message, in array order. */
  lemma EntriesInOrder(m: Message, rest: seq<Message>)
    ensures Entries([m] + rest) == Entry(m) + Entries(rest)
  {
    EntriesAppend([m], rest);
    EntriesSingle(m);
  }

  lemma EntriesSingle(m: Message)
    ensures Entries([m]) == Entry(m)
  {
    assert [m][..0] == [] && [m][0] == m;
  }

  /** A history of messages contributes the header and exactly its
      entries after the profile block. */
  lemma ContextWithHistory(p: Profile, m: Message, rest: seq<Message>)
    ensures Context(p, Some([m] + rest)) == ProfileBlock(p) + HistoryHeader + (Entry(m) + Entries(rest))
  {
    EntriesInOrder(m, rest);
  }

  // ---------------------------------------------------------------------
  // The chat prompt, server.js:228-252
  // ---------------------------------------------------------------------

  const ChatCounselorIntro: string := "'s personal academic counselor at GlobalGo. You previously provided them with a comprehensive counseling report based on their profile."
  const QuestionFrom: string := "**New Question from "
  const InstructionsHeading: string := "**Instructions:**"

  /** server.js:228-238: the opening, the context as one piece, the question and the instruction. */
  function ChatHead(p: Profile, context: string, question: string, instr: string): seq<string> {
    [
      "",
      "You are " + p.name + ChatCounselorIntro,
      "",
      context,
      "",
      QuestionFrom + p.name + ":**",
      "\"" + question + "\"",
      "",
      InstructionsHeading,
      instr,
      ""
    ]
  }

  /** server.js:239-252: the rules, then the indentation before the closing quote. */
  function ChatRules(p: Profile): seq<string> {
    [
      "**CRITICAL RULES:**",
      "- Answer SPECIFICALLY based on " + p.name + "'s profile data shown above",
      "- Reference their exact GPA (" + p.gpa + "), major (" + p.major + "), target country (" + p.targetCountry + ")",
      "- Be conversational but professional, keep it precise and concise, but of course add the necessary details to make it clear and helpful",
      "- Give actionable, concrete advice with SPECIFIC numbers, names, and deadlines",
      "- If they ask about universities, name SPECIFIC universities and programs",
      "- If they ask about tests, give EXACT score targets",
      "- If they ask about deadlines, provide SPECIFIC dates/months",
      "- Continue using their name (" + p.name + ") in your response",
      "",
      "Keep your response focused and concise (max 500 words unless they specifically ask for detailed information).",
      "",
      "Provide helpful, specific guidance as their personal counselor.",
      "        "
    ]
  }

  /** The chat prompt around any rules. */
  function ChatText(p: Profile, context: string, question: string, instr: string,
                    rules: seq<string>): string {
    Join(ChatHead(p, context, question, instr) + rules, "\n")
  }

  /** The prompt of the chat endpoint. */
  function ChatPrompt(p: Profile, history: Option<seq<Message>>, question: string,
                      language: Option<string>): string {
    ChatText(p, Context(p, history), question, LanguageInstruction(language), ChatRules(p))
  }

  /** The question stands in double quotes on the line right after
      "**New Question from <name>:**", exactly as sent. */
  lemma ChatPromptQuestion(p: Profile, history: Option<seq<Message>>, question: string,
                           language: Option<string>)
    ensures Contains(ChatPrompt(p, history, question, language),
                     "\n" + (QuestionFrom + p.name + ":**") + "\n"
                     + ("\"" + question + "\"") + "\n")
  {
    ChatTextLines(p, Context(p, history), question, LanguageInstruction(language), ChatRules(p));
  }

  /** The chat prompt embeds the context between two newlines, and the
      language instruction on a line of its own. */
  lemma ChatPromptContext(p: Profile, history: Option<seq<Message>>, question: string,
                          language: Option<string>)
    ensures Contains(ChatPrompt(p, history, question, language), "\n" + Context(p, history) + "\n")
    ensures Contains(ChatPrompt(p, history, question, language), "\n" + LanguageInstruction(language) + "\n")
  {
    ChatTextLines(p, Context(p, history), question, LanguageInstruction(language), ChatRules(p));
  }

  lemma ChatTextLines(p: Profile, context: string, question: string, instr: string, rules: seq<string>)
    ensures Contains(ChatText(p, context, question, instr, rules),
                     "\n" + (QuestionFrom + p.name + ":**") + "\n"
                     + ("\"" + question + "\"") + "\n")
    ensures Contains(ChatText(p, context, question, instr, rules), "\n" + context + "\n")
    ensures Contains(ChatText(p, context, question, instr, rules), "\n" + instr + "\n")
  {
    var head := ChatHead(p, context, question, instr);
    var parts := head + rules;
    assert |head| == 11;
    assert parts[3] == context && parts[9] == instr;
    LineAt(parts, 3, "\n");
    LineAt(parts, 9, "\n");
    TwoLinesAt(parts, 5, "\n");
    assert parts[5] == QuestionFrom + p.name + ":**";
    assert parts[6] == "\"" + question + "\"";
  }

  /** Two consecutive lines with lines before and after them. */
  lemma TwoLinesAt(parts: seq<string>, i: nat, sep: string)
    requires 0 < i && i + 2 < |parts|
    ensures Contains(Join(parts, sep), sep + parts[i] + sep + parts[i + 1] + sep)
  {
    assert parts[i..i + 2] == [parts[i], parts[i + 1]];
    assert Join(parts[i..i + 2], sep) == parts[i] + sep + parts[i + 1];
    JoinContainsWindow(parts, sep, i, i + 2);
    var x, y := parts[i], parts[i + 1];
    assert sep + (x + sep + y) + sep == sep + x + sep + y + sep;
  }

  // ---------------------------------------------------------------------
  // Error replies, server.js:170-180 and 262-270
  // ---------------------------------------------------------------------

  datatype Endpoint = Analyze | Chat

  /** The JSON body of an error reply; `hint` is absent from the chat
      endpoint's. */
  datatype ErrorBody = ErrorBody(error: string, details: string, hint: Option<string>)

  datatype ErrorReply = ErrorReply(status: int, body: ErrorBody)

  /** The reply to an error caught by `endpoint`, from the error's
      `message`. */
  function ReplyToError(endpoint: Endpoint, message: Option<string>): (r: ErrorReply)
    ensures r.status == 500
    ensures Truthy(message) ==> r.body.details == message.value
    ensures !Truthy(message) ==> r.body.details == "Unknown error occurred"
    ensures r.body.details != ""
    ensures r.body.hint.Some? <==> endpoint == Analyze
    ensures r.body.error != ""
  {
    var details := if Truthy(message) then message.value else "Unknown error occurred";
    match endpoint
    case Analyze =>
      ErrorReply(500, ErrorBody("Failed to generate advice", details,
                                Some("Check your GEMINI_API_KEY in .env file")))
    case Chat =>
      ErrorReply(500, ErrorBody("Failed to generate chat response", details, None))
  }

  /** The two endpoints report the same details for the same error and
      differ in the summary. */
  lemma RepliesAgreeOnDetails(message: Option<string>)
    ensures ReplyToError(Analyze, message).body.details == ReplyToError(Chat, message).body.details
    ensures ReplyToError(Analyze, message).body.error != ReplyToError(Chat, message).body.error
  {
  }
}
