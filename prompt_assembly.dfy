/**
 * Prompt assembly (`construct_prompt`): the default system prompt is rendered
 * as a Jinja template over the lead, the lead data block is appended when the
 * template did not embed the lead JSON, and the fixed output-format directive
 * always comes last. The database row, the Jinja renderer and the JSON
 * serializer are inputs.
 */
module PromptAssembly {
  import opened Outcomes
  import opened Strings
  import opened LeadRecord

  /** Key prefixes of bookkeeping fields that never reach the model. */
  const InternalPrefixes: seq<string> := ["_", "idx", "naming_series", "image", "timeline_hash"]

  /** Bookkeeping field names that never reach the model. */
  const Blocklist: seq<string> :=
    ["amended_from", "docstatus", "doctype", "modified_by", "owner",
     "parent", "parentfield", "parenttype", "creation", "modified"]

  predicate HasInternalPrefix(key: string)
  {
    exists i :: 0 <= i < |InternalPrefixes| && StartsWith(key, InternalPrefixes[i])
  }

  /** A field that goes into the lead JSON. */
  predicate Relevant(f: Field)
  {
    !HasInternalPrefix(f.key) && f.key !in Blocklist && f.value != Null
  }

  /** The lead fields kept for the lead JSON, in dictionary order. */
  function RelevantFields(lead: Lead): Lead
  {
    if lead == [] then []
    else
      var last := lead[|lead| - 1];
      RelevantFields(lead[..|lead| - 1]) + (if Relevant(last) then [last] else [])
  }

  /** A field is kept exactly when it is in the lead and passes all three tests. */
  lemma {:induction false} RelevantFieldsExact(lead: Lead, f: Field)
    ensures f in RelevantFields(lead) <==> f in lead && Relevant(f)
  {
    if lead != [] {
      var init := lead[..|lead| - 1];
      RelevantFieldsExact(init, f);
      assert lead == init + [lead[|lead| - 1]];
    }
  }

  /** Filtering a dictionary yields a dictionary: no key appears twice. */
  lemma {:induction false} RelevantFieldsDistinct(lead: Lead)
    requires DistinctKeys(lead)
    ensures DistinctKeys(RelevantFields(lead))
  {
    if lead != [] {
      var init := lead[..|lead| - 1];
      var last := lead[|lead| - 1];
      assert DistinctKeys(init);
      RelevantFieldsDistinct(init);
      var kept := RelevantFields(init);
      if Relevant(last) {
        forall i | 0 <= i < |kept| ensures kept[i].key != last.key {
          RelevantFieldsExact(init, kept[i]);
          var j :| 0 <= j < |init| && init[j] == kept[i];
          assert lead[j] == init[j];
        }
      }
    }
  }

  /** The loop of `construct_prompt` that builds `json_relevant_lead_fields`. */
  method FilterLeadFields(lead: Lead) returns (kept: Lead)
    ensures kept == RelevantFields(lead)
    ensures forall f :: f in kept <==> f in lead && Relevant(f)
  {
    kept := [];
    for i := 0 to |lead|
      invariant kept == RelevantFields(lead[..i])
    {
      var f := lead[i];
      assert lead[..i + 1][..i] == lead[..i];
      if !HasInternalPrefix(f.key) && f.key !in Blocklist && f.value != Null {
        kept := kept + [f];
      }
    }
    assert lead[..|lead|] == lead;
    forall f ensures f in kept <==> f in lead && Relevant(f) {
      RelevantFieldsExact(lead, f);
    }
  }

  /** `f"{first_name} {last_name}".strip() or lead.get('name', 'Valued Contact')`. */
  function DisplayName(lead: Lead): Value
  {
    var full := Strip(Show(Get(lead, "first_name", Str(""))) + " " + Show(Get(lead, "last_name", Str(""))));
    if full != "" then Str(full) else Get(lead, "name", Str("Valued Contact"))
  }

  /** `lead.get('email_id') or lead.get('email', 'N/A')`. */
  function EmailShown(lead: Lead): Value
  {
    var e := Get(lead, "email_id", Null);
    if Truthy(e) then e else Get(lead, "email", Str("N/A"))
  }

  /** The lines of the "Lead Information" block that come before the lead JSON. */
  function LeadLines(lead: Lead): seq<string>
  {
    ["--- Lead Information ---",
     "Name: " + Show(DisplayName(lead)),
     "Email: " + Show(EmailShown(lead)),
     "Organization: " + Show(Get(lead, "organization", Str("N/A"))),
     "Job Title: " + Show(Get(lead, "job_title", Str("N/A"))),
     "Industry: " + Show(Get(lead, "industry", Str("N/A"))),
     "\nFull Lead Data (JSON format for AI reference if needed):"]
  }

  /** The lines of the "Lead Information" block; the lead JSON is the last. */
  function LeadBlockParts(lead: Lead, json: string): (parts: seq<string>)
    ensures parts != [] && parts[|parts| - 1] == json
  {
    LeadLines(lead) + [json]
  }

  /** The "Lead Information" block: its lines joined by newlines. */
  function LeadBlock(lead: Lead, json: string): (block: string)
    ensures EndsWith(block, json)
  {
    JoinEndsWithLast(LeadBlockParts(lead, json), "\n");
    Join(LeadBlockParts(lead, json), "\n")
  }

  function LeadSummaryText(lead: Lead): string
  {
    "Lead: " + Show(DisplayName(lead)) + ", Org: " + Show(Get(lead, "organization", Str("N/A")))
    + ", Title: " + Show(Get(lead, "job_title", Str("N/A")))
  }

  /** The variables the system prompt template can use. */
  datatype RenderContext = RenderContext(
    leadSummaryText: string,
    leadDataJson: string,
    leadRawDict: Lead,
    userRequestedTone: Value,
    userAdditionalInstructions: Value,
    currentUser: string)

  /** `frappe.render_template`: the rendered text, or `None` when rendering raises. */
  type Renderer = (string, RenderContext) -> Option<string>

  /** `json.dumps` of the kept fields; its format is not modelled. */
  type Serializer = Lead -> string

  /** The default `CRM AI System Prompt` row, when one exists. */
  datatype DefaultPrompt = DefaultPrompt(name: string, promptContent: Option<string>, modelIdentifier: Option<string>)

  datatype PromptError = NoDefaultPrompt | EmptyPromptContent(promptName: string)

  /** The text of the configuration error `construct_prompt` throws. */
  function ErrorMessage(e: PromptError): string
  {
    match e
    case NoDefaultPrompt => "Default AI System Prompt not configured. Please set one."
    case EmptyPromptContent(name) => "Default AI System Prompt ('" + name + "') content is empty."
  }

  /** The fixed output-format directive appended to every prompt. */
  const OutputDirective: string :=
    "\n\n--- MANDATORY OUTPUT FORMAT ---"
    + "\nYour entire response MUST be a single, valid JSON object."
    + "\nThis JSON object MUST contain exactly two fields:"
    + "\n1. \"subject\": A string for the email subject."
    + "\n2. \"content\": A string containing the complete email body, formatted as HTML (e.g., using <p>, <ul>, <li>, <strong> tags, etc.)."
    + "\nExample of valid JSON output:"
    + "\n{\n  \"subject\": \"Regarding Your Recent Inquiry About Product X\","
    + "\n  \"content\": \"<p>Dear User,</p><p>Thank you for your interest...</p>\""
    + "\n}"
    + "\nDo NOT include any text or explanations outside of this JSON object."

  /** The lead JSON string. */
  function LeadJson(lead: Lead, serialize: Serializer): string
  {
    serialize(RelevantFields(lead))
  }

  function ContextFor(lead: Lead, tone: Value, extra: Value, user: string, serialize: Serializer): RenderContext
  {
    RenderContext(LeadSummaryText(lead), LeadJson(lead, serialize), lead, tone, extra, user)
  }

  /** The rendered template, or the raw template text when rendering raises. */
  function Instructions(template: string, ctx: RenderContext, render: Renderer): string
  {
    match render(template, ctx)
    case Some(out) => out
    case None => template
  }

  /** The prompt body before the directive: the lead block is added only when the JSON is missing. */
  function MainBody(rendered: string, json: string, block: string): string
  {
    if Contains(rendered, json) then rendered else rendered + "\n\n" + block
  }

  /** The final prompt: the body, then the directive. */
  function Compose(rendered: string, json: string, block: string, directive: string): string
  {
    MainBody(rendered, json, block) + directive
  }

  /** The lead JSON ends up in the prompt whether or not the template embedded it. */
  lemma {:induction false} ComposeContainsJson(rendered: string, json: string, block: string, directive: string)
    requires EndsWith(block, json)
    ensures Contains(Compose(rendered, json, block, directive), json)
  {
    if Contains(rendered, json) {
      ContainsPrefix(rendered, directive, json);
    } else {
      assert block == block[..|block| - |json|] + json;
      ContainsSuffix(block[..|block| - |json|], json);
      ContainsInSuffix(rendered + "\n\n", block, json);
      ContainsPrefix(rendered + "\n\n" + block, directive, json);
    }
  }

  /** Nothing is inserted between template and directive exactly when the template holds the JSON. */
  lemma ComposeDirectIff(rendered: string, json: string, block: string, directive: string)
    ensures Compose(rendered, json, block, directive) == rendered + directive <==> Contains(rendered, json)
  {
    if !Contains(rendered, json) {
      assert |Compose(rendered, json, block, directive)| > |rendered + directive|;
    }
  }

  /** The rendered (or raw) template text opens the prompt and the directive closes it. */
  lemma ComposeFrame(rendered: string, json: string, block: string, directive: string)
    ensures StartsWith(Compose(rendered, json, block, directive), rendered)
    ensures EndsWith(Compose(rendered, json, block, directive), directive)
  {
    var c := Compose(rendered, json, block, directive);
    var body := MainBody(rendered, json, block);
    assert c == body + directive;
    assert body[..|rendered|] == rendered;
    assert c[..|rendered|] == body[..|rendered|];
    assert c[|c| - |directive|..] == directive;
  }

  /** What `construct_prompt` returns or raises: the prompt and the row's model id, or the configuration error. */
  function AssemblePrompt(lead: Lead, tone: Value, extra: Value, user: string,
                          settings: Option<DefaultPrompt>, render: Renderer, serialize: Serializer)
    : (r: Result<(string, Option<string>), PromptError>)
    ensures r == Err(NoDefaultPrompt) <==> settings.None?
    ensures r.Err? <==> settings.None? || settings.value.promptContent.None? || IsBlank(settings.value.promptContent.value)
    ensures r.Ok? ==> r.value.1 == settings.value.modelIdentifier
  {
    if settings.None? then Err(NoDefaultPrompt)
    else if settings.value.promptContent.None? then Err(EmptyPromptContent(settings.value.name))
    else
      StripEnds(settings.value.promptContent.value);
      if Strip(settings.value.promptContent.value) == "" then Err(EmptyPromptContent(settings.value.name))
      else
        var json := LeadJson(lead, serialize);
        var rendered := Instructions(settings.value.promptContent.value, ContextFor(lead, tone, extra, user, serialize), render);
        Ok((Compose(rendered, json, LeadBlock(lead, json), OutputDirective), settings.value.modelIdentifier))
  }

  /** The template text as rendered for this lead (the raw text when rendering raises). */
  function RenderedFor(lead: Lead, tone: Value, extra: Value, user: string, template: string,
                       render: Renderer, serialize: Serializer): string
  {
    Instructions(template, ContextFor(lead, tone, extra, user, serialize), render)
  }

  /**
   * The properties of a successful assembly: the prompt ends with the fixed
   * directive, always contains the lead JSON, starts with the rendered (or, on
   * a render failure, the raw) template, and has the lead block inserted
   * exactly when the rendered template lacks the JSON.
   */
  lemma AssembledPromptShape(lead: Lead, tone: Value, extra: Value, user: string,
                             settings: Option<DefaultPrompt>, render: Renderer, serialize: Serializer)
    requires AssemblePrompt(lead, tone, extra, user, settings, render, serialize).Ok?
    ensures var prompt := AssemblePrompt(lead, tone, extra, user, settings, render, serialize).value.0;
            var template := settings.value.promptContent.value;
            var rendered := RenderedFor(lead, tone, extra, user, template, render, serialize);
            var json := LeadJson(lead, serialize);
            && EndsWith(prompt, OutputDirective)
            && Contains(prompt, json)
            && StartsWith(prompt, rendered)
            && (render(template, ContextFor(lead, tone, extra, user, serialize)).None? ==> StartsWith(prompt, template))
            && (prompt == rendered + OutputDirective <==> Contains(rendered, json))
            && (!Contains(rendered, json) ==> prompt == rendered + "\n\n" + LeadBlock(lead, json) + OutputDirective)
  {
    var template := settings.value.promptContent.value;
    var rendered := RenderedFor(lead, tone, extra, user, template, render, serialize);
    var json := LeadJson(lead, serialize);
    var block := LeadBlock(lead, json);
    ComposeContainsJson(rendered, json, block, OutputDirective);
    ComposeDirectIff(rendered, json, block, OutputDirective);
    ComposeFrame(rendered, json, block, OutputDirective);
  }

  /** The parts list of `construct_prompt`, appended line by line and joined with newlines. */
  method BuildLeadBlock(lead: Lead, json: string) returns (block: string)
    ensures block == LeadBlock(lead, json)
  {
    var name := "Name: " + Show(DisplayName(lead));
    var email := "Email: " + Show(EmailShown(lead));
    var organization := "Organization: " + Show(Get(lead, "organization", Str("N/A")));
    var jobTitle := "Job Title: " + Show(Get(lead, "job_title", Str("N/A")));
    var industry := "Industry: " + Show(Get(lead, "industry", Str("N/A")));
    var header := "--- Lead Information ---";
    var dataIntro := "\nFull Lead Data (JSON format for AI reference if needed):";
    var parts: seq<string> := [];
    parts := parts + [header];
    parts := parts + [name];
    assert parts == [header, name];
    parts := parts + [email];
    assert parts == [header, name, email];
    parts := parts + [organization];
    assert parts == [header, name, email, organization];
    parts := parts + [jobTitle];
    assert parts == [header, name, email, organization, jobTitle];
    parts := parts + [industry];
    assert parts == [header, name, email, organization, jobTitle, industry];
    parts := parts + [dataIntro];
    assert parts == [header, name, email, organization, jobTitle, industry, dataIntro];
    assert parts == LeadLines(lead);
    parts := parts + [json];
    block := Join(parts, "\n");
  }

  /**
   * `construct_prompt`: fetch checks first, then the field filter loop, the
   * block parts, the render with fallback, the conditional append and the
   * directive.
   */
  method ConstructPrompt(lead: Lead, tone: Value, extra: Value, user: string,
                         settings: Option<DefaultPrompt>, render: Renderer, serialize: Serializer)
    returns (r: Result<(string, Option<string>), PromptError>)
    ensures r == AssemblePrompt(lead, tone, extra, user, settings, render, serialize)
  {
    if settings.None? {
      return Err(NoDefaultPrompt);
    }
    var row := settings.value;
    if row.promptContent.None? || Strip(row.promptContent.value) == "" {
      return Err(EmptyPromptContent(row.name));
    }
    var kept := FilterLeadFields(lead);
    var json := serialize(kept);
    var block := BuildLeadBlock(lead, json);
    var ctx := RenderContext(LeadSummaryText(lead), json, lead, tone, extra, user);
    assert json == LeadJson(lead, serialize) && ctx == ContextFor(lead, tone, extra, user, serialize);
    var rendered: string;
    match render(row.promptContent.value, ctx) {
      case Some(out) => rendered := out;
      case None => rendered := row.promptContent.value;
    }
    assert rendered == Instructions(row.promptContent.value, ctx, render);
    var body := rendered;
    if !Contains(body, json) {
      body := body + "\n\n" + block;
    }
    assert body + OutputDirective == Compose(rendered, json, block, OutputDirective);
    r := Ok((body + OutputDirective, row.modelIdentifier));
  }
}
