/** The instruction text sent to the model: the depth tier and what it means,
    a sentence in the chosen language, the user's query, the bullet points
    to cover, and the demand that the whole answer be in that language. */
module PromptBuilder {
  import opened Basics

  /** The choices of the "Analysis Depth" slider. */
  const DepthOptions: seq<string> := ["Quick", "Standard", "Detailed"]

  /** The choices of the "Response Language" box. */
  const LanguageOptions: seq<string> := ["English", "Spanish", "French", "German", "Chinese"]

  /** `language_instructions`: one fixed sentence per supported language. */
  const LanguageInstructions: map<string, string> := map[
    "English" := "Please provide the analysis in English with standard English formatting.",
    "Spanish" := "Por favor, proporcione el análisis en español, utilizando el formato y estilo apropiados del idioma español.",
    "French" := "Veuillez fournir l'analyse en français, en utilisant le format et le style appropriés de la langue française.",
    "German" := "Bitte stellen Sie die Analyse auf Deutsch zur Verfügung, unter Verwendung der entsprechenden deutschen Formatierung und Stil.",
    "Chinese" := "请用中文提供分析，使用适当的中文格式和风格。"
  ]

  /** Every language the box offers has an instruction, and no other does. */
  lemma InstructionTableCoversOptions()
    ensures LanguageInstructions.Keys == set l | l in LanguageOptions
  {
  }

  const QuickPoints: seq<string> := ["Main content summary"]

  const StandardPoints: seq<string> :=
    ["Main content summary",
     "Key themes and messages",
     "Visual and audio elements analysis"]

  const DetailedPoints: seq<string> :=
    ["Main content summary",
     "Detailed scene-by-scene analysis",
     "Technical aspects (camera work, editing, sound)",
     "Contextual analysis and implications",
     "Related background information",
     "Subtle details and nuances"]

  /** `get_analysis_points`: the bullets the answer must cover. */
  function AnalysisPoints(depth: string): (points: seq<string>)
    ensures |points| == (if depth == "Quick" then 1 else if depth == "Standard" then 3 else 6)
    ensures points[0] == "Main content summary"
  {
    if depth == "Quick" then QuickPoints
    else if depth == "Standard" then StandardPoints
    else DetailedPoints
  }

  const QuickDescription := "Quick: Provide a brief overview and key points only."

  const StandardDescription := "Standard: Provide a balanced analysis with moderate detail."

  const DetailedDescription :=
    "Detailed: Provide an in-depth analysis with comprehensive details, including subtle elements, technical aspects, and thorough context."

  /** The sentence explaining the depth tier. */
  function DepthDescription(depth: string): (sentence: string)
  {
    if depth == "Quick" then QuickDescription
    else if depth == "Standard" then StandardDescription
    else DetailedDescription
  }

  /** Any depth outside the slider's values is treated exactly as "Detailed". */
  lemma UnknownDepthIsDetailed(depth: string)
    requires depth != "Quick" && depth != "Standard"
    ensures AnalysisPoints(depth) == AnalysisPoints("Detailed")
    ensures DepthDescription(depth) == DepthDescription("Detailed")
  {
    assert "Detailed"[0] != "Standard"[0];
  }

  /** Each step up the slider asks for more bullets. */
  lemma DeeperAsksMore(i: nat, j: nat)
    requires i < j < |DepthOptions|
    ensures |AnalysisPoints(DepthOptions[i])| < |AnalysisPoints(DepthOptions[j])|
  {
  }

  /** The tiers nest: the one Quick bullet opens every list. */
  lemma QuickBulletOpensEveryList(depth: string)
    ensures AnalysisPoints("Quick") <= AnalysisPoints(depth)
  {
  }

  /** The bullets, one per line, each introduced by "- ". */
  function BulletList(points: seq<string>): (text: string)
  {
    if points == [] then []
    else if |points| == 1 then "- " + points[0]
    else "- " + points[0] + "\n" + BulletList(points[1..])
  }

  lemma {:induction false} BulletListHasEveryPoint(points: seq<string>, i: nat)
    requires i < |points|
    ensures Contains(BulletList(points), "- " + points[i])
  {
    var head := "- " + points[0];
    if |points| == 1 {
      ContainsInfix([], head, []);
      assert [] + head + [] == BulletList(points);
    } else if i == 0 {
      ContainsInfix([], head, "\n" + BulletList(points[1..]));
      assert [] + head + ("\n" + BulletList(points[1..])) == BulletList(points);
    } else {
      BulletListHasEveryPoint(points[1..], i - 1);
      var prefix := head + "\n";
      ContainsInfix(prefix, BulletList(points[1..]), []);
      assert prefix + BulletList(points[1..]) + [] == BulletList(points);
      ContainsTransitive(BulletList(points), BulletList(points[1..]), "- " + points[i]);
    }
  }

  /* The `analysis_prompt` f-string, split at the values it embeds. Each
     function below is one stretch of it, so that every embedded value is
     the middle of some `a + t + b`. */

  /** The text before the query line: the depth, its sentence and the
      language instruction. */
  function Preamble(depth: string, instruction: string): (text: string)
  {
    "Analyze the uploaded video for content and context.\n" + ("Analysis Depth: " + depth) + DepthBlock(depth, instruction)
  }

  function DepthBlock(depth: string, instruction: string): (text: string)
  {
    "\n" + DepthDescription(depth) + InstructionBlock(instruction)
  }

  function InstructionBlock(instruction: string): (text: string)
  {
    "\n\n" + instruction + "\n\n"
  }

  /** The text after the query line: the language, the bullets, and the
      demand that the whole answer be in that language. */
  function Closing(depth: string, language: string): (text: string)
  {
    "\n\n" + ("Please structure your response in " + language) + BulletBlock(depth, language)
  }

  function BulletBlock(depth: string, language: string): (text: string)
  {
    " and include:\n" + BulletList(AnalysisPoints(depth)) + LanguageDemand(language)
  }

  function LanguageDemand(language: string): (text: string)
  {
    "\n\nImportant: The entire response " + ("MUST be in " + language)
      + (". All headings, descriptions, and analysis should be in " + language + ".")
  }

  /** The composed prompt, or the language the instruction table lacks
      (the KeyError of `language_instructions[language]`). */
  function BuildPrompt(depth: string, language: string, query: string): (r: Result<string, string>)
    ensures r.Failure? <==> language !in LanguageInstructions
    ensures r.Failure? ==> r.error == language
  {
    if language !in LanguageInstructions then Failure(language)
    else Success(Preamble(depth, LanguageInstructions[language]) + ("Query: " + query) + Closing(depth, language))
  }

  /** A built prompt names the depth and explains it, carries the language's
      instruction sentence, the query, every bullet of the depth, and the
      demand that the answer be in the chosen language. */
  lemma PromptContents(depth: string, language: string, query: string)
    requires BuildPrompt(depth, language, query).Success?
    ensures var p := BuildPrompt(depth, language, query).value;
      && Contains(p, "Analysis Depth: " + depth)
      && Contains(p, DepthDescription(depth))
      && Contains(p, LanguageInstructions[language])
      && Contains(p, "Query: " + query)
      && Contains(p, "Please structure your response in " + language)
      && Contains(p, BulletList(AnalysisPoints(depth)))
      && (forall i :: 0 <= i < |AnalysisPoints(depth)| ==> Contains(p, "- " + AnalysisPoints(depth)[i]))
      && Contains(p, "MUST be in " + language)
  {
    PromptMentions(depth, LanguageInstructions[language], language, query, BuildPrompt(depth, language, query).value);
  }

  lemma PromptMentions(depth: string, instruction: string, language: string, query: string, prompt: string)
    requires prompt == Preamble(depth, instruction) + ("Query: " + query) + Closing(depth, language)
    ensures Contains(prompt, "Analysis Depth: " + depth)
    ensures Contains(prompt, DepthDescription(depth))
    ensures Contains(prompt, instruction)
    ensures Contains(prompt, "Query: " + query)
    ensures Contains(prompt, "Please structure your response in " + language)
    ensures Contains(prompt, BulletList(AnalysisPoints(depth)))
    ensures forall i :: 0 <= i < |AnalysisPoints(depth)| ==> Contains(prompt, "- " + AnalysisPoints(depth)[i])
    ensures Contains(prompt, "MUST be in " + language)
  {
    var pre, queryLine, post := Preamble(depth, instruction), "Query: " + query, Closing(depth, language);
    ContainsInfix(pre, queryLine, post);
    ContainsPrefix(pre + queryLine, post);
    ContainsPrefix(pre, queryLine);
    ContainsTransitive(prompt, pre + queryLine, pre);
    ContainsSuffix(pre + queryLine, post);

    var depthLine, depthBlock := "Analysis Depth: " + depth, DepthBlock(depth, instruction);
    ContainsInfix("Analyze the uploaded video for content and context.\n", depthLine, depthBlock);
    ContainsTransitive(prompt, pre, depthLine);
    ContainsSuffix("Analyze the uploaded video for content and context.\n" + depthLine, depthBlock);
    ContainsTransitive(prompt, pre, depthBlock);
    var instructionBlock := InstructionBlock(instruction);
    ContainsInfix("\n", DepthDescription(depth), instructionBlock);
    ContainsTransitive(prompt, depthBlock, DepthDescription(depth));
    ContainsSuffix("\n" + DepthDescription(depth), instructionBlock);
    ContainsTransitive(prompt, depthBlock, instructionBlock);
    ContainsInfix("\n\n", instruction, "\n\n");
    ContainsTransitive(prompt, instructionBlock, instruction);

    var structureLine, bulletBlock := "Please structure your response in " + language, BulletBlock(depth, language);
    ContainsInfix("\n\n", structureLine, bulletBlock);
    ContainsTransitive(prompt, post, structureLine);
    ContainsSuffix("\n\n" + structureLine, bulletBlock);
    ContainsTransitive(prompt, post, bulletBlock);
    var bullets, demand := BulletList(AnalysisPoints(depth)), LanguageDemand(language);
    ContainsInfix(" and include:\n", bullets, demand);
    ContainsTransitive(prompt, bulletBlock, bullets);
    ContainsSuffix(" and include:\n" + bullets, demand);
    ContainsTransitive(prompt, bulletBlock, demand);
    var mustLine := "MUST be in " + language;
    ContainsInfix("\n\nImportant: The entire response ", mustLine,
                  ". All headings, descriptions, and analysis should be in " + language + ".");
    ContainsTransitive(prompt, demand, mustLine);

    EveryBulletInPrompt(prompt, AnalysisPoints(depth));
  }

  lemma EveryBulletInPrompt(prompt: string, points: seq<string>)
    requires Contains(prompt, BulletList(points))
    ensures forall i :: 0 <= i < |points| ==> Contains(prompt, "- " + points[i])
  {
    forall i | 0 <= i < |points| ensures Contains(prompt, "- " + points[i]) {
      BulletListHasEveryPoint(points, i);
      ContainsTransitive(prompt, BulletList(points), "- " + points[i]);
    }
  }

  /** Every language the box offers yields a prompt. */
  lemma OfferedLanguagesBuild(depth: string, language: string, query: string)
    requires language in LanguageOptions
    ensures BuildPrompt(depth, language, query).Success?
  {
  }

  /** The prompt determines the query: with depth and language fixed, two
      different queries never give the same prompt. */
  lemma PromptDeterminesQuery(depth: string, language: string, q1: string, q2: string)
    requires BuildPrompt(depth, language, q1).Success?
    requires BuildPrompt(depth, language, q1) == BuildPrompt(depth, language, q2)
    ensures q1 == q2
  {
    var pre := Preamble(depth, LanguageInstructions[language]);
    var post := Closing(depth, language);
    MiddleDetermined(pre, "Query: " + q1, "Query: " + q2, post);
    assert q1 == ("Query: " + q1)[7..];
  }

  lemma MiddleDetermined(head: string, m1: string, m2: string, tail: string)
    requires head + m1 + tail == head + m2 + tail
    ensures m1 == m2
  {
    var s := head + m1 + tail;
    assert m1 == s[|head|..|s| - |tail|];
  }
}
