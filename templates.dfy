/** The "Query Templates" box: a choice that pre-fills the query field. */
module QueryTemplates {
  import opened Basics

  /** The template names, in the order the box lists them after "Custom". */
  const TemplateNames: seq<string> :=
    ["General Summary", "Technical Analysis", "Content Review", "Audience Analysis"]

  /** `templates`: the query each named template fills in. */
  const Templates: map<string, string> := map[
    "General Summary" := "Provide a general summary of this video",
    "Technical Analysis" := "Analyze the technical aspects of this video",
    "Content Review" := "Review the main content and message of this video",
    "Audience Analysis" := "Who is the target audience for this video?"
  ]

  /** `["Custom"] + list(templates.keys())`: everything the box offers. */
  const TemplateChoices: seq<string> := ["Custom"] + TemplateNames

  /** The value the query field starts with: the template's query for a
      named template, the empty text for "Custom", and no value (a KeyError)
      for a name that is neither. */
  function DefaultQuery(choice: string): (q: Option<string>)
    ensures choice == "Custom" ==> q == Some("")
    ensures choice != "Custom" ==> (q.Some? <==> choice in Templates)
    ensures choice != "Custom" && q.Some? ==> q.value == Templates[choice]
  {
    if choice == "Custom" then Some("")
    else if choice in Templates then Some(Templates[choice])
    else None
  }

  /** Every choice the box offers yields a value; a named template yields a
      non-empty query, so only "Custom" leaves the field empty. */
  lemma OfferedChoicesFillQuery(choice: string)
    requires choice in TemplateChoices
    ensures DefaultQuery(choice).Some?
    ensures DefaultQuery(choice).value == "" <==> choice == "Custom"
  {
  }

  /** The box lists exactly the templates the table defines, once each. */
  lemma TemplateNamesMatchTable()
    ensures Templates.Keys == set n | n in TemplateNames
    ensures "Custom" !in Templates
    ensures forall i, j :: 0 <= i < j < |TemplateChoices| ==> TemplateChoices[i] != TemplateChoices[j]
  {
  }
}
