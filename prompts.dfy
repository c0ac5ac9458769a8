/**
 * The two default prompt templates of prompts.ts. Each is stored as the
 * prose between its placeholders; the prose is split into short fragments
 * of type `Prose` (text without `{`), so that where a placeholder can match
 * follows from the template's structure. The numbered groups of fragments
 * (`AssignmentIntro1` to `AssignmentIntro6` and the like) carry no meaning
 * of their own: they only keep the verification of each constant small.
 */
module PromptText {
  /** Template text holding no `{`: no placeholder can begin inside it. */
  type Prose = s: string | '{' !in s

  function Concat(xs: seq<Prose>): Prose {
    if xs == [] then "" else xs[0] + Concat(xs[1..])
  }

  /** Concatenated prose begins with the first character of its first fragment. */
  lemma ConcatFront(xs: seq<Prose>)
    requires xs != [] && xs[0] != []
    ensures Concat(xs) != [] && Concat(xs)[0] == xs[0][0]
  {
  }

  // ASSIGNMENT_PROMPT_TEMPLATE (prompts.ts:1-18): before `{{goals}}`,
  // between `{{goals}}` and `{{tasks}}`, the rules after `{{tasks}}`, and
  // the example object after its opening brace.

  const AssignmentIntro1: seq<Prose> := [
    "Jesteś ",
    "inteligentnym ",
    "asystentem do ",
    "przeprowadzania "
  ]
  const AssignmentIntro2: seq<Prose> := [
    "firmowych ocen ",
    "pracowniczych. ",
    "Twoim zadaniem jest ",
    "przeanalizowanie "
  ]
  const AssignmentIntro3: seq<Prose> := [
    "listy ukończonych ",
    "zadań z JIRA i ",
    "przypisanie każdego ",
    "z nich do "
  ]
  const AssignmentIntro4: seq<Prose> := [
    "najbardziej ",
    "odpowiedniego celu ",
    "rocznego. Musisz ",
    "również przygotować "
  ]
  const AssignmentIntro5: seq<Prose> := [
    "zwięzłe ",
    "podsumowanie ",
    "wyjaśniające, w ",
    "jaki sposób zadanie "
  ]
  const AssignmentIntro6: seq<Prose> := [
    "przyczyniło się do ",
    "osiągnięcia tego ",
    "celu.\n\nOto cele ",
    "roczne:\n"
  ]
  const AssignmentIntro: Prose := Concat(AssignmentIntro1 + AssignmentIntro2 + AssignmentIntro3 + AssignmentIntro4 + AssignmentIntro5 + AssignmentIntro6)

  const AssignmentMiddle1: seq<Prose> := [
    "\n\nOto zadania z ",
    "JIRA do analizy:\n"
  ]
  const AssignmentMiddle: Prose := Concat(AssignmentMiddle1)

  const AssignmentRules1: seq<Prose> := [
    "\n\nDla każdego ",
    "zadania z JIRA ",
    "wykonaj następujące ",
    "czynności:\n1.  "
  ]
  const AssignmentRules2: seq<Prose> := [
    "Zidentyfikuj jeden, ",
    "najbardziej ",
    "pasujący cel roczny ",
    "z podanej listy.\n2. "
  ]
  const AssignmentRules3: seq<Prose> := [
    " Napisz ",
    "podsumowanie ",
    "składające się z ",
    "2-3 zdań, które "
  ]
  const AssignmentRules4: seq<Prose> := [
    "wyjaśnia, *jak* to ",
    "konkretne zadanie ",
    "przyczyniło się do ",
    "osiągnięcia tego "
  ]
  const AssignmentRules5: seq<Prose> := [
    "celu. Podsumowanie ",
    "powinno być ",
    "napisane ",
    "profesjonalnym "
  ]
  const AssignmentRules6: seq<Prose> := [
    "tonem, odpowiednim ",
    "do oceny ",
    "pracowniczej, w ",
    "języku polskim.\n3.  "
  ]
  const AssignmentRules7: seq<Prose> := [
    "Zwróć wynik w ",
    "formacie JSON. Dane ",
    "wyjściowe muszą być ",
    "tablicą obiektów, "
  ]
  const AssignmentRules8: seq<Prose> := [
    "gdzie każdy obiekt ",
    "ma klucze: ",
    "\"taskId\", ",
    "\"assignedGoalId\", "
  ]
  const AssignmentRules9: seq<Prose> := [
    "\"contextualSummary\".",
    "\n\nTwój ostateczny ",
    "wynik musi zawierać ",
    "wyłącznie tablicę "
  ]
  const AssignmentRules10: seq<Prose> := [
    "JSON, bez żadnego ",
    "innego tekstu przed ",
    "lub po niej. ",
    "Przykład obiektu:\n"
  ]
  const AssignmentRules: Prose := Concat(AssignmentRules1 + AssignmentRules2 + AssignmentRules3 + AssignmentRules4 + AssignmentRules5 + AssignmentRules6 + AssignmentRules7 + AssignmentRules8 + AssignmentRules9 + AssignmentRules10)

  const AssignmentExample1: seq<Prose> := [
    "\n  \"taskId\": ",
    "\"PROJ-123\",\n  ",
    "\"assignedGoalId\": ",
    "0,\n  "
  ]
  const AssignmentExample2: seq<Prose> := [
    "\"contextualSummary\":",
    " \"Implementacja ",
    "nowego przepływu ",
    "uwierzytelniania "
  ]
  const AssignmentExample3: seq<Prose> := [
    "użytkowników ",
    "bezpośrednio ",
    "przyczyniła się do ",
    "zwiększenia "
  ]
  const AssignmentExample4: seq<Prose> := [
    "bezpieczeństwa ",
    "platformy, co było ",
    "kluczowym elementem ",
    "celu poprawy "
  ]
  const AssignmentExample5: seq<Prose> := [
    "wydajności i ",
    "niezawodności ",
    "aplikacji.\"\n}"
  ]
  const AssignmentExample: Prose := Concat(AssignmentExample1 + AssignmentExample2 + AssignmentExample3 + AssignmentExample4 + AssignmentExample5)

  // SUMMARY_PROMPT_TEMPLATE (prompts.ts:20-33): before `{{goal}}`, between
  // `{{goal}}` and `{{summaries}}`, and after `{{summaries}}`.

  const SummaryIntro1: seq<Prose> := [
    "Jesteś ekspertem w ",
    "pisaniu firmowych ",
    "ocen pracowniczych. ",
    "Twoim zadaniem jest "
  ]
  const SummaryIntro2: seq<Prose> := [
    "zsyntetyzowanie ",
    "zbioru podsumowań ",
    "zadań w spójne, ",
    "dwuakapitowe "
  ]
  const SummaryIntro3: seq<Prose> := [
    "podsumowanie roczne ",
    "dla określonego ",
    "celu. Pisz w języku ",
    "polskim.\n\nCel "
  ]
  const SummaryIntro4: seq<Prose> := [
    "Roczny brzmi: \""
  ]
  const SummaryIntro: Prose := Concat(SummaryIntro1 + SummaryIntro2 + SummaryIntro3 + SummaryIntro4)

  const SummaryMiddle1: seq<Prose> := [
    "\"\n\nOto kluczowe ",
    "osiągnięcia i ",
    "wkłady w realizację ",
    "tego celu w ciągu "
  ]
  const SummaryMiddle2: seq<Prose> := [
    "roku, oparte na ",
    "zrealizowanych ",
    "zadaniach:\n"
  ]
  const SummaryMiddle: Prose := Concat(SummaryMiddle1 + SummaryMiddle2)

  const SummaryOutro1: seq<Prose> := [
    "\n\nNa podstawie ",
    "powyższych ",
    "informacji napisz ",
    "przekonujące, "
  ]
  const SummaryOutro2: seq<Prose> := [
    "profesjonalne, ",
    "dwuakapitowe ",
    "podsumowanie w ",
    "języku polskim.\n- "
  ]
  const SummaryOutro3: seq<Prose> := [
    "Pierwszy akapit ",
    "powinien ",
    "przedstawiać ogólny ",
    "zarys postępów i "
  ]
  const SummaryOutro4: seq<Prose> := [
    "kluczowych ",
    "osiągnięć ",
    "związanych z celem.\n",
    "- Drugi akapit "
  ]
  const SummaryOutro5: seq<Prose> := [
    "powinien ",
    "szczegółowo opisać ",
    "wpływ tych działań, ",
    "podkreślając "
  ]
  const SummaryOutro6: seq<Prose> := [
    "wykazane ",
    "umiejętności i ",
    "wartość wniesioną ",
    "do firmy.\n- Ton "
  ]
  const SummaryOutro7: seq<Prose> := [
    "powinien być ",
    "pozytywny i ",
    "profesjonalny.\n- ",
    "Nie ograniczaj się "
  ]
  const SummaryOutro8: seq<Prose> := [
    "do wymieniania ",
    "zadań. Zsyntetyzuj ",
    "je w płynną ",
    "narrację.\n- Wynik "
  ]
  const SummaryOutro9: seq<Prose> := [
    "powinien zawierać ",
    "wyłącznie dwa ",
    "akapity tekstu."
  ]
  const SummaryOutro: Prose := Concat(SummaryOutro1 + SummaryOutro2 + SummaryOutro3 + SummaryOutro4 + SummaryOutro5 + SummaryOutro6 + SummaryOutro7 + SummaryOutro8 + SummaryOutro9)
  /**
   * The pieces that follow a placeholder begin with a line break or a
   * quote, characters no placeholder contains.
   */
  lemma PiecesBeginOutsidePlaceholders()
    ensures AssignmentMiddle != [] && AssignmentMiddle[0] == '\n'
    ensures AssignmentRules != [] && AssignmentRules[0] == '\n'
    ensures AssignmentExample != [] && AssignmentExample[0] == '\n'
    ensures SummaryMiddle != [] && SummaryMiddle[0] == '"'
    ensures SummaryOutro != [] && SummaryOutro[0] == '\n'
  {
    ConcatFront(AssignmentMiddle1);
    ConcatFront(AssignmentRules1 + AssignmentRules2 + AssignmentRules3 + AssignmentRules4 + AssignmentRules5 + AssignmentRules6 + AssignmentRules7 + AssignmentRules8 + AssignmentRules9 + AssignmentRules10);
    ConcatFront(AssignmentExample1 + AssignmentExample2 + AssignmentExample3 + AssignmentExample4 + AssignmentExample5);
    ConcatFront(SummaryMiddle1 + SummaryMiddle2);
    ConcatFront(SummaryOutro1 + SummaryOutro2 + SummaryOutro3 + SummaryOutro4 + SummaryOutro5 + SummaryOutro6 + SummaryOutro7 + SummaryOutro8 + SummaryOutro9);
  }
}

/** The default templates and what filling them yields. */
module Prompts {
  import opened JsStrings
  import opened Template
  import opened PromptText

  /** The keys the services fill the templates with. */
  lemma KeysArePlain()
    ensures IsPlainKey("goals") && IsPlainKey("tasks") && IsPlainKey("goal") && IsPlainKey("summaries")
  {
  }

  /** What follows `{{tasks}}` in the assignment prompt. */
  const AssignmentTail: string := AssignmentRules + ("{" + AssignmentExample)

  const ASSIGNMENT_PROMPT_TEMPLATE: string :=
    AssignmentIntro + (Placeholder("goals") + (AssignmentMiddle + (Placeholder("tasks") + AssignmentTail)))

  const SUMMARY_PROMPT_TEMPLATE: string :=
    SummaryIntro + (Placeholder("goal") + (SummaryMiddle + (Placeholder("summaries") + SummaryOutro)))

  /** Neither the rules nor the example object hold a placeholder. */
  lemma AssignmentTailHoldsNoPlaceholder(k: string)
    requires IsPlainKey(k)
    ensures Count(AssignmentTail, Placeholder(k)) == 0
  {
    var p := Placeholder(k);
    PiecesBeginOutsidePlaceholders();
    ScanSkipsPrefix(AssignmentRules, "{" + AssignmentExample, p, "");
    ScanSplitsAt("{", AssignmentExample, p, "");
    ShortTextHasNoMatch("{", p);
    ScanSkipsPrefix(AssignmentExample, [], p, "");
    assert AssignmentExample + [] == AssignmentExample;
  }

  /** Matches of a placeholder in the assignment text lie within what fills its two slots. */
  lemma AssignmentSlotsCount(x: string, y: string, k: string)
    requires IsPlainKey(k)
    ensures Count(AssignmentIntro + (x + (AssignmentMiddle + (y + AssignmentTail))), Placeholder(k))
         == Count(x, Placeholder(k)) + Count(y, Placeholder(k))
  {
    PiecesBeginOutsidePlaceholders();
    AssignmentTailHoldsNoPlaceholder(k);
    CountAcrossSlots(AssignmentIntro, x, AssignmentMiddle, y, AssignmentTail, Placeholder(k));
  }

  /**
   * The assignment template holds `{{goals}}` once and `{{tasks}}` once,
   * and no other placeholder: in particular neither `{{goal}}` nor
   * `{{summaries}}` of the summary template.
   */
  lemma AssignmentTemplatePlaceholders(k: string)
    requires IsPlainKey(k)
    ensures Count(ASSIGNMENT_PROMPT_TEMPLATE, Placeholder(k)) == if k == "goals" || k == "tasks" then 1 else 0
  {
    AssignmentSlotsCount(Placeholder("goals"), Placeholder("tasks"), k);
    KeysArePlain();
    PlaceholderCountInPair(k, "goals", "tasks");
  }

  /**
   * The default assignment prompt, filled as the services fill it: the
   * goal lines replace `{{goals}}` and the serialised tasks `{{tasks}}`, and
   * nothing else of the template changes. A `{{tasks}}`
   * written inside a goal is filled too, since the scan for `{{tasks}}`
   * runs over the text the first replacement produced.
   */
  lemma AssignmentPromptFill(goals: string, tasks: string)
    ensures Fill(ASSIGNMENT_PROMPT_TEMPLATE, [Entry("goals", goals), Entry("tasks", tasks)])
         == AssignmentIntro + (ReplaceAll(goals, Placeholder("tasks"), tasks) + (AssignmentMiddle + (tasks + AssignmentTail)))
  {
    PiecesBeginOutsidePlaceholders();
    AssignmentTailHoldsNoPlaceholder("goals");
    AssignmentTailHoldsNoPlaceholder("tasks");
    FillTwoSlots(AssignmentIntro, "goals", AssignmentMiddle, "tasks", AssignmentTail, goals, tasks);
  }

  /**
   * Filling the assignment template with values that hold neither of its
   * placeholders leaves none of them: both values land verbatim.
   */
  lemma AssignmentPromptLeavesNoPlaceholder(goals: string, tasks: string)
    requires Count(goals, Placeholder("goals")) == 0 && Count(goals, Placeholder("tasks")) == 0
    requires Count(tasks, Placeholder("goals")) == 0 && Count(tasks, Placeholder("tasks")) == 0
    ensures var filled := Fill(ASSIGNMENT_PROMPT_TEMPLATE, [Entry("goals", goals), Entry("tasks", tasks)]);
      && filled == AssignmentIntro + (goals + (AssignmentMiddle + (tasks + AssignmentTail)))
      && Count(filled, Placeholder("goals")) == 0
      && Count(filled, Placeholder("tasks")) == 0
  {
    AssignmentPromptFill(goals, tasks);
    ReplaceAllWithoutMatch(goals, Placeholder("tasks"), tasks);
    KeysArePlain();
    AssignmentSlotsCount(goals, tasks, "goals");
    AssignmentSlotsCount(goals, tasks, "tasks");
  }

  /** The closing instructions hold no placeholder. */
  lemma SummaryOutroHoldsNoPlaceholder(k: string)
    requires IsPlainKey(k)
    ensures Count(SummaryOutro, Placeholder(k)) == 0
  {
    ScanSkipsPrefix(SummaryOutro, [], Placeholder(k), "");
    assert SummaryOutro + [] == SummaryOutro;
  }

  /**
   * The default summary prompt, filled as the services fill it: the goal
   * replaces `{{goal}}` and the bullet list `{{summaries}}`, and nothing
   * else changes; a `{{summaries}}` inside the goal text is filled too.
   */
  lemma SummaryPromptFill(goal: string, summaries: string)
    ensures Fill(SUMMARY_PROMPT_TEMPLATE, [Entry("goal", goal), Entry("summaries", summaries)])
         == SummaryIntro + (ReplaceAll(goal, Placeholder("summaries"), summaries) + (SummaryMiddle + (summaries + SummaryOutro)))
  {
    PiecesBeginOutsidePlaceholders();
    SummaryOutroHoldsNoPlaceholder("goal");
    SummaryOutroHoldsNoPlaceholder("summaries");
    FillTwoSlots(SummaryIntro, "goal", SummaryMiddle, "summaries", SummaryOutro, goal, summaries);
  }

  /** Matches of a placeholder in the summary text lie within what fills its two slots. */
  lemma SummarySlotsCount(x: string, y: string, k: string)
    requires IsPlainKey(k)
    ensures Count(SummaryIntro + (x + (SummaryMiddle + (y + SummaryOutro))), Placeholder(k))
         == Count(x, Placeholder(k)) + Count(y, Placeholder(k))
  {
    PiecesBeginOutsidePlaceholders();
    SummaryOutroHoldsNoPlaceholder(k);
    CountAcrossSlots(SummaryIntro, x, SummaryMiddle, y, SummaryOutro, Placeholder(k));
  }

  /**
   * The summary template holds `{{goal}}` once and `{{summaries}}` once,
   * and no other placeholder: in particular neither `{{goals}}` nor
   * `{{tasks}}` of the assignment template.
   */
  lemma SummaryTemplatePlaceholders(k: string)
    requires IsPlainKey(k)
    ensures Count(SUMMARY_PROMPT_TEMPLATE, Placeholder(k)) == if k == "goal" || k == "summaries" then 1 else 0
  {
    SummarySlotsCount(Placeholder("goal"), Placeholder("summaries"), k);
    KeysArePlain();
    PlaceholderCountInPair(k, "goal", "summaries");
  }

  /**
   * Filling the summary template with values that hold neither of its
   * placeholders leaves none of them: both values land verbatim.
   */
  lemma SummaryPromptLeavesNoPlaceholder(goal: string, summaries: string)
    requires Count(goal, Placeholder("goal")) == 0 && Count(goal, Placeholder("summaries")) == 0
    requires Count(summaries, Placeholder("goal")) == 0 && Count(summaries, Placeholder("summaries")) == 0
    ensures var filled := Fill(SUMMARY_PROMPT_TEMPLATE, [Entry("goal", goal), Entry("summaries", summaries)]);
      && filled == SummaryIntro + (goal + (SummaryMiddle + (summaries + SummaryOutro)))
      && Count(filled, Placeholder("goal")) == 0
      && Count(filled, Placeholder("summaries")) == 0
  {
    SummaryPromptFill(goal, summaries);
    ReplaceAllWithoutMatch(goal, Placeholder("summaries"), summaries);
    KeysArePlain();
    SummarySlotsCount(goal, summaries, "goal");
    SummarySlotsCount(goal, summaries, "summaries");
  }
}
