/**
 * Generating and sending one lead's email (`generate_email_for_lead`):
 * look the lead up, work out sender and recipient, produce subject and HTML
 * from an email template or from the AI, then record a Communication, send it
 * and mark it Sent, or mark it Error when anything fails after it exists.
 * Every lookup, the template engine, the AI endpoint, the database insert and
 * the mailer are inputs, gathered in `Env`.
 */
module Orchestrator {
  import opened Outcomes
  import opened Strings
  import opened LeadRecord
  import opened PromptAssembly
  import opened Completion
  import opened EmailShell

  /** `frappe.get_doc("CRM Lead", name)`: missing, or the lead's fields and email. */
  datatype LeadLookup = LeadMissing(error: string) | LeadFound(fields: Lead, email: Option<string>)

  /** `frappe.get_doc("Email Template", name)`: missing, or its subject and body templates. */
  datatype TemplateLookup = TemplateMissing(error: string) | TemplateFound(subject: string, response: string)

  /** A row of the Communication table. */
  datatype Communication = Communication(
    subject: string,
    content: string,
    textContent: string,
    referenceName: string,
    sender: string,
    senderFullName: string,
    recipients: string,
    actualRecipient: Option<string>,
    emailStatus: string,
    errorDetails: Option<string>,
    emailAccount: string,
    isAiGenerated: bool)

  /** A message handed to the mailer. */
  datatype OutgoingMail = OutgoingMail(recipients: string, sender: string, subject: string, message: string,
                                       referenceName: string, communication: string)

  /** The reply to the caller. */
  datatype LeadReply = LeadReply(success: bool, message: string, communicationId: Option<string>)

  /** Everything outside the function: lookups, renderers, the AI endpoint, the database and the mailer. */
  datatype Env = Env(
    lead: string -> LeadLookup,
    sessionUser: string,
    formattedEmail: string -> string,
    fullName: string -> Option<string>,
    defaultAccount: Option<string>,
    userEmail: string -> Option<string>,
    testRecipient: Option<string>,
    emailTemplate: string -> TemplateLookup,
    renderJinja: (string, Lead) -> Result<string, string>,
    apiKey: Option<string>,
    defaultPrompt: Option<DefaultPrompt>,
    promptRender: Renderer,
    serialize: Serializer,
    complete: CompletionRequest -> ApiReply,
    parse: Parser,
    typeError: string,
    dictSliceError: string,
    toText: string -> string,
    insert: Communication -> Result<string, Abort>,
    sendError: Option<Abort>,
    markSentError: Option<Abort>,
    markErrorSucceeds: bool)

  /** Why the call stopped: a document was not found (`DoesNotExistError`), or some other exception. */
  datatype Abort = NotFound(error: string) | Raised(error: string)

  /** Everything the Communication and the mail are made from. */
  datatype Draft = Draft(subject: string, html: string, recipient: string, actualRecipient: Option<string>,
                         sender: string, senderFullName: string, account: string, isAi: bool)

  const UnclearMethodError: string := "Email generation method unclear: No Frappe template selected and AI tone not specified."
  const NoTestRecipientError: string := "Test mode active, but no test recipient email found."
  const NoAccountError: string := "No default outgoing Frappe Email Account configured."
  const NoApiKeyError: string := "OpenRouter API key not configured."
  const SuccessMessage: string := "Email processed successfully"
  const DefaultSenderUser: string := "Administrator"
  const DefaultSenderFullName: string := "Sinx Solutions Team"
  const StatusOpen: string := "Open"
  const StatusSent: string := "Sent"
  const StatusError: string := "Error"

  /** The reply message of each exception handler. */
  function AbortMessage(leadName: string, a: Abort): string
  {
    match a
    case NotFound(e) => "Lead '" + leadName + "' not found in generate_email_for_lead: " + e
    case Raised(e) => "Error in generate_email_for_lead for '" + leadName + "': " + e
  }

  function NoEmailError(leadName: string): string
  {
    "Lead '" + leadName + "' has no email address."
  }

  function SenderUser(env: Env): string
  {
    if env.sessionUser == "" then DefaultSenderUser else env.sessionUser
  }

  function SenderFullName(env: Env): (name: string)
    ensures name != ""
  {
    var n := env.fullName(SenderUser(env));
    if Given(n) then n.value else DefaultSenderFullName
  }

  /** Where the mail goes: the lead, or in test mode the user's own address, else the site's test recipient. */
  function Recipient(testMode: bool, leadEmail: string, env: Env): (r: Result<string, Abort>)
    ensures !testMode ==> r == Ok(leadEmail)
    ensures testMode && Given(env.userEmail(SenderUser(env))) ==> r == Ok(env.userEmail(SenderUser(env)).value)
    ensures testMode && !Given(env.userEmail(SenderUser(env))) && Given(env.testRecipient) ==> r == Ok(env.testRecipient.value)
    ensures r.Err? <==> testMode && !Given(env.userEmail(SenderUser(env))) && !Given(env.testRecipient)
  {
    if !testMode then Ok(leadEmail)
    else
      var own := env.userEmail(SenderUser(env));
      if Given(own) then Ok(own.value)
      else if Given(env.testRecipient) then Ok(env.testRecipient.value)
      else Err(Raised(NoTestRecipientError))
  }

  /** `actual_recipient`: the lead's address, kept only when test mode sent the mail elsewhere. */
  function ActualRecipient(testMode: bool, recipient: string, leadEmail: string): (a: Option<string>)
    ensures a.Some? <==> testMode && recipient != leadEmail
    ensures a.Some? ==> a.value == leadEmail
  {
    if testMode && recipient != leadEmail then Some(leadEmail) else None
  }

  /** Subject and HTML from a Frappe email template, both rendered with the lead as `doc`. */
  function FromTemplate(name: string, fields: Lead, env: Env): Result<(string, string), Abort>
  {
    match env.emailTemplate(name)
    case TemplateMissing(e) => Err(NotFound(e))
    case TemplateFound(subjectTemplate, bodyTemplate) =>
      match env.renderJinja(subjectTemplate, fields)
      case Err(e) => Err(Raised(e))
      case Ok(subject) =>
        match env.renderJinja(bodyTemplate, fields)
        case Err(e) => Err(Raised(e))
        case Ok(html) => Ok((subject, html))
  }

  /** Subject and HTML from the AI: the generated body is wrapped in the email shell. */
  function FromAi(fields: Lead, tone: Value, extra: Value, senderName: string, env: Env): Result<(string, string), Abort>
  {
    if !Given(env.apiKey) then Err(Raised(NoApiKeyError))
    else
      match AssemblePrompt(fields, tone, extra, env.sessionUser, env.defaultPrompt, env.promptRender, env.serialize)
      case Err(pe) => Err(Raised(ErrorMessage(pe)))
      case Ok(assembled) => FromPrompt(assembled.0, assembled.1, senderName, env)
  }

  /** The AI's reply to an assembled prompt, its generated body wrapped in the email shell. */
  function FromPrompt(prompt: string, modelId: Option<string>, senderName: string, env: Env): Result<(string, string), Abort>
  {
    match CallOpenRouter(prompt, modelId, env.complete, env.parse, env.dictSliceError)
    case Failed(m) => Err(Raised("AI API call failed: " + m))
    case Completed(subject, content) =>
      if subject.JString? && content.JString? then
        Ok((subject.s, RenderFullEmail(content.s, Some(senderName), subject.s)))
      else Err(Raised(env.typeError))
  }

  /** Subject and HTML: from the template when one is named, else from the AI when a tone is given. */
  function Content(template: Option<string>, tone: Value, extra: Value, fields: Lead, senderName: string, env: Env)
    : Result<(string, string), Abort>
  {
    if Given(template) then FromTemplate(template.value, fields, env)
    else if Truthy(tone) then FromAi(fields, tone, extra, senderName, env)
    else Err(Raised(UnclearMethodError))
  }

  /** Everything before the Communication is inserted, in the source's order of checks. */
  function Prepare(leadName: string, template: Option<string>, testMode: bool, tone: Value, extra: Value, env: Env)
    : Result<Draft, Abort>
  {
    match env.lead(leadName)
    case LeadMissing(e) => Err(NotFound(e))
    case LeadFound(fields, email) =>
      if !Given(email) then Err(Raised(NoEmailError(leadName)))
      else if !Given(env.defaultAccount) then Err(Raised(NoAccountError))
      else DraftFor(fields, email.value, template, testMode, tone, extra, env)
  }

  /** The recipient and the content for a lead with an address, once an outgoing account exists. */
  function DraftFor(fields: Lead, leadEmail: string, template: Option<string>, testMode: bool, tone: Value, extra: Value,
                    env: Env): Result<Draft, Abort>
    requires Given(env.defaultAccount)
  {
    match Recipient(testMode, leadEmail, env)
    case Err(a) => Err(a)
    case Ok(recipient) =>
      match Content(template, tone, extra, fields, SenderFullName(env), env)
      case Err(a) => Err(a)
      case Ok(made) =>
        Ok(Draft(made.0, made.1, recipient, ActualRecipient(testMode, recipient, leadEmail),
                 env.formattedEmail(SenderUser(env)), SenderFullName(env), env.defaultAccount.value,
                 !Given(template)))
  }

  /** The Communication inserted for a draft, still Open. */
  function RecordFor(d: Draft, leadName: string, env: Env): Communication
  {
    Communication(d.subject, d.html, env.toText(d.html), leadName, d.sender, d.senderFullName, d.recipient,
                  d.actualRecipient, StatusOpen, None, d.account, d.isAi)
  }

  function MailFor(d: Draft, leadName: string, id: string): OutgoingMail
  {
    OutgoingMail(d.recipient, d.sender, d.subject, d.html, leadName, id)
  }

  /** What inserting, sending and marking a prepared draft leaves behind: the reply, the Communication table and the outbox. */
  function Delivery(d: Draft, leadName: string, env: Env, comms: map<string, Communication>, outbox: seq<OutgoingMail>)
    : (LeadReply, map<string, Communication>, seq<OutgoingMail>)
  {
    var record := RecordFor(d, leadName, env);
    match env.insert(record)
    case Err(a) => (LeadReply(false, AbortMessage(leadName, a), None), comms, outbox)
    case Ok(id) => SendOutcome(d, leadName, env, id, comms, outbox)
  }

  /**
   * Sending the mail for the Communication inserted as `id`, and marking it
   * Sent. A `DoesNotExistError` from either step is answered by its own
   * handler, which reports no id and leaves the row Open; any other failure
   * marks the row Error.
   */
  function SendOutcome(d: Draft, leadName: string, env: Env, id: string, comms: map<string, Communication>,
                       outbox: seq<OutgoingMail>): (LeadReply, map<string, Communication>, seq<OutgoingMail>)
  {
    var record := RecordFor(d, leadName, env);
    var sent := if env.sendError.None? then outbox + [MailFor(d, leadName, id)] else outbox;
    var failure := if env.sendError.Some? then env.sendError else env.markSentError;
    match failure
    case None => (LeadReply(true, SuccessMessage, Some(id)), comms[id := record.(emailStatus := StatusSent)], sent)
    case Some(NotFound(e)) => (LeadReply(false, AbortMessage(leadName, NotFound(e)), None), comms[id := record], sent)
    case Some(Raised(e)) =>
      var message := AbortMessage(leadName, Raised(e));
      var marked := if env.markErrorSucceeds then record.(emailStatus := StatusError, errorDetails := Some(message)) else record;
      (LeadReply(false, message, Some(id)), comms[id := marked], sent)
  }

  /** The outcome of the whole call: the reply, the Communication table and the outbox afterwards. */
  function Outcome(leadName: string, template: Option<string>, testMode: bool, tone: Value, extra: Value, env: Env,
                   comms: map<string, Communication>, outbox: seq<OutgoingMail>)
    : (LeadReply, map<string, Communication>, seq<OutgoingMail>)
  {
    match Prepare(leadName, template, testMode, tone, extra, env)
    case Err(a) => (LeadReply(false, AbortMessage(leadName, a), None), comms, outbox)
    case Ok(d) => Delivery(d, leadName, env, comms, outbox)
  }

  /** A failure before the insert creates no Communication, sends nothing, and reports no communication id. */
  lemma EarlyFailureLeavesNoTrace(leadName: string, template: Option<string>, testMode: bool, tone: Value, extra: Value,
                                  env: Env, comms: map<string, Communication>, outbox: seq<OutgoingMail>)
    requires Prepare(leadName, template, testMode, tone, extra, env).Err?
    ensures var out := Outcome(leadName, template, testMode, tone, extra, env, comms, outbox);
      out.0 == LeadReply(false, AbortMessage(leadName, Prepare(leadName, template, testMode, tone, extra, env).error), None)
      && out.1 == comms && out.2 == outbox
  {
  }

  /** A lead without an email address fails first thing (after the lookup), whatever else is configured. */
  lemma NoEmailFails(leadName: string, template: Option<string>, testMode: bool, tone: Value, extra: Value, env: Env)
    requires env.lead(leadName).LeadFound? && !Given(env.lead(leadName).email)
    ensures Prepare(leadName, template, testMode, tone, extra, env)
         == Err(Raised(NoEmailError(leadName)))
  {
  }

  /** Neither a template nor a tone: the call cannot succeed. */
  lemma NoMethodFails(leadName: string, template: Option<string>, testMode: bool, tone: Value, extra: Value, env: Env)
    requires !Given(template) && !Truthy(tone)
    ensures Prepare(leadName, template, testMode, tone, extra, env).Err?
  {
  }

  /**
   * Recipient redirection: the mail goes to the lead unless test mode is on;
   * `actual_recipient` holds the lead's address exactly when test mode sent
   * the mail somewhere else.
   */
  lemma RecipientRule(leadName: string, template: Option<string>, testMode: bool, tone: Value, extra: Value, env: Env)
    requires Prepare(leadName, template, testMode, tone, extra, env).Ok?
    ensures var d := Prepare(leadName, template, testMode, tone, extra, env).value;
      var email := env.lead(leadName).email.value;
      && env.lead(leadName).LeadFound? && Given(env.lead(leadName).email)
      && Recipient(testMode, email, env) == Ok(d.recipient)
      && (!testMode ==> d.recipient == email)
      && (d.actualRecipient.Some? <==> testMode && d.recipient != email)
      && (d.actualRecipient.Some? ==> d.actualRecipient.value == email)
  {
  }

  /** AI content is the generated body wrapped in the email shell, signed with the sender's name. */
  lemma AiContentIsWrapped(template: Option<string>, tone: Value, extra: Value, fields: Lead, senderName: string, env: Env)
    requires !Given(template) && Content(template, tone, extra, fields, senderName, env).Ok?
    ensures var made := Content(template, tone, extra, fields, senderName, env).value;
      Truthy(tone) && exists body :: made.1 == RenderFullEmail(body, Some(senderName), made.0)
  {
    var assembled := AssemblePrompt(fields, tone, extra, env.sessionUser, env.defaultPrompt, env.promptRender, env.serialize).value;
    var reply := CallOpenRouter(assembled.0, assembled.1, env.complete, env.parse, env.dictSliceError);
    var made := Content(template, tone, extra, fields, senderName, env).value;
    assert made.1 == RenderFullEmail(reply.content.s, Some(senderName), made.0);
  }

  /**
   * Template mail is rendered by the template engine and marked not AI; AI
   * mail is the generated body wrapped in the email shell with the sending
   * user's name, and is marked AI.
   */
  lemma ContentSource(leadName: string, template: Option<string>, testMode: bool, tone: Value, extra: Value, env: Env)
    requires Prepare(leadName, template, testMode, tone, extra, env).Ok?
    ensures var d := Prepare(leadName, template, testMode, tone, extra, env).value;
      && (Given(template) ==> !d.isAi && FromTemplate(template.value, env.lead(leadName).fields, env) == Ok((d.subject, d.html)))
      && (!Given(template) ==> d.isAi && Truthy(tone) && exists body :: d.html == RenderFullEmail(body, Some(d.senderFullName), d.subject))
  {
    if !Given(template) {
      AiContentIsWrapped(template, tone, extra, env.lead(leadName).fields, SenderFullName(env), env);
    }
  }

  /**
   * What happens to the Communication table and the outbox once the draft `d`
   * is recorded. When the insert fails nothing changes and no id is reported.
   * Otherwise exactly the inserted row changes and keeps the draft's recipient.
   * The mail is in the outbox exactly when sending did not fail, and the row
   * ends Sent exactly when the call succeeds. A `DoesNotExistError` after the
   * insert reports no id and leaves the row Open. Any other failure reports
   * the row's id and marks it Error with the message, unless marking fails too.
   */
  predicate Lifecycle(d: Draft, leadName: string, env: Env, comms: map<string, Communication>, outbox: seq<OutgoingMail>,
                      out: (LeadReply, map<string, Communication>, seq<OutgoingMail>))
  {
    var reply := out.0;
    var inserted := env.insert(RecordFor(d, leadName, env));
    && (inserted.Err? ==>
          reply == LeadReply(false, AbortMessage(leadName, inserted.error), None) && out.1 == comms && out.2 == outbox)
    && (inserted.Ok? ==>
          var id := inserted.value;
          var failure := if env.sendError.Some? then env.sendError else env.markSentError;
          && id in out.1
          && out.1 == comms[id := out.1[id]]
          && out.1[id].recipients == d.recipient
          && (out.2 == if env.sendError.None? then outbox + [MailFor(d, leadName, id)] else outbox)
          && (reply.success <==> failure.None?)
          && (reply.success <==> out.1[id].emailStatus == StatusSent)
          && (failure.Some? ==> reply.message == AbortMessage(leadName, failure.value))
          && (failure.Some? && failure.value.NotFound? ==>
                reply.communicationId.None? && out.1[id].emailStatus == StatusOpen)
          && (failure.Some? && failure.value.Raised? && env.markErrorSucceeds ==>
                reply.communicationId == Some(id)
                && out.1[id].emailStatus == StatusError && out.1[id].errorDetails == Some(reply.message))
          && (failure.Some? && failure.value.Raised? && !env.markErrorSucceeds ==>
                reply.communicationId == Some(id) && out.1[id].emailStatus == StatusOpen)
          && (reply.success ==> reply.communicationId == Some(id)))
  }

  /** Inserting, sending and marking a draft follow the Communication's lifecycle. */
  lemma DeliveryLifecycle(d: Draft, leadName: string, env: Env, comms: map<string, Communication>, outbox: seq<OutgoingMail>)
    ensures Lifecycle(d, leadName, env, comms, outbox, Delivery(d, leadName, env, comms, outbox))
  {
  }

  /**
   * The Communication's life over the whole call: none when the call fails
   * before the insert, otherwise the lifecycle of the prepared draft.
   */
  lemma CommunicationLifecycle(leadName: string, template: Option<string>, testMode: bool, tone: Value, extra: Value,
                               env: Env, comms: map<string, Communication>, outbox: seq<OutgoingMail>)
    ensures var out := Outcome(leadName, template, testMode, tone, extra, env, comms, outbox);
      var prepared := Prepare(leadName, template, testMode, tone, extra, env);
      && (prepared.Err? ==> !out.0.success && out.0.communicationId.None? && out.1 == comms && out.2 == outbox)
      && (prepared.Ok? ==> Lifecycle(prepared.value, leadName, env, comms, outbox, out))
  {
    var prepared := Prepare(leadName, template, testMode, tone, extra, env);
    if prepared.Ok? {
      DeliveryLifecycle(prepared.value, leadName, env, comms, outbox);
    }
  }

  /** The Communication table and the mail sent, the state `generate_email_for_lead` changes. */
  class Mailroom {
    var communications: map<string, Communication>
    var outbox: seq<OutgoingMail>

    constructor()
      ensures communications == map[] && outbox == []
    {
      communications := map[];
      outbox := [];
    }

    /** The checks and content generation, step by step, up to the point where the Communication is built. */
    method PrepareDraft(leadName: string, template: Option<string>, testMode: bool, tone: Value, extra: Value, env: Env)
      returns (r: Result<Draft, Abort>)
      ensures r == Prepare(leadName, template, testMode, tone, extra, env)
    {
      var lead := env.lead(leadName);
      if lead.LeadMissing? {
        return Err(NotFound(lead.error));
      }
      if !Given(lead.email) {
        return Err(Raised(NoEmailError(leadName)));
      }
      var senderUser := if env.sessionUser == "" then DefaultSenderUser else env.sessionUser;
      var senderEmail := env.formattedEmail(senderUser);
      var senderName := if Given(env.fullName(senderUser)) then env.fullName(senderUser).value else DefaultSenderFullName;
      var account := env.defaultAccount;
      if !Given(account) {
        return Err(Raised(NoAccountError));
      }
      r := BuildDraft(lead.fields, lead.email.value, template, testMode, tone, extra, senderEmail, senderName, env);
    }

    /** The recipient and content steps, and the draft built from them. */
    method BuildDraft(fields: Lead, actual: string, template: Option<string>, testMode: bool, tone: Value, extra: Value,
                      senderEmail: string, senderName: string, env: Env)
      returns (r: Result<Draft, Abort>)
      requires Given(env.defaultAccount)
      requires senderEmail == env.formattedEmail(SenderUser(env)) && senderName == SenderFullName(env)
      ensures r == DraftFor(fields, actual, template, testMode, tone, extra, env)
    {
      var recipient := ResolveRecipient(testMode, actual, env);
      if recipient.Err? {
        return Err(recipient.error);
      }
      var made := ResolveContent(template, tone, extra, fields, senderName, env);
      if made.Err? {
        return Err(made.error);
      }
      var actualRecipient := if testMode && recipient.value != actual then Some(actual) else None;
      r := Ok(Draft(made.value.0, made.value.1, recipient.value, actualRecipient, senderEmail, senderName,
                    env.defaultAccount.value, !Given(template)));
    }

    /** The recipient step: the lead's address, or in test mode the sending user's own, else the site's test recipient. */
    method ResolveRecipient(testMode: bool, leadEmail: string, env: Env) returns (r: Result<string, Abort>)
      ensures r == Recipient(testMode, leadEmail, env)
    {
      var recipient := leadEmail;
      if testMode {
        var senderUser := if env.sessionUser == "" then DefaultSenderUser else env.sessionUser;
        var testAddress := env.userEmail(senderUser);
        if !Given(testAddress) {
          testAddress := env.testRecipient;
        }
        if !Given(testAddress) {
          return Err(Raised(NoTestRecipientError));
        }
        recipient := testAddress.value;
      }
      r := Ok(recipient);
    }

    /** The content step: the email template's rendering, or the AI's reply wrapped in the shell. */
    method ResolveContent(template: Option<string>, tone: Value, extra: Value, fields: Lead, senderName: string, env: Env)
      returns (r: Result<(string, string), Abort>)
      ensures r == Content(template, tone, extra, fields, senderName, env)
    {
      if Given(template) {
        return FromTemplate(template.value, fields, env);
      } else if Truthy(tone) {
        if !Given(env.apiKey) {
          return Err(Raised(NoApiKeyError));
        }
        var assembled := ConstructPrompt(fields, tone, extra, env.sessionUser, env.defaultPrompt, env.promptRender, env.serialize);
        if assembled.Err? {
          return Err(Raised(ErrorMessage(assembled.error)));
        }
        r := FromPrompt(assembled.value.0, assembled.value.1, senderName, env);
      } else {
        r := Err(Raised(UnclearMethodError));
      }
    }

    /** `generate_email_for_lead`: record the Communication, send it, and mark it Sent, or Error on a later failure. */
    method GenerateEmailForLead(leadName: string, template: Option<string>, testMode: bool, tone: Value, extra: Value, env: Env)
      returns (reply: LeadReply)
      modifies this
      ensures (reply, communications, outbox)
           == Outcome(leadName, template, testMode, tone, extra, env, old(communications), old(outbox))
    {
      var prepared := PrepareDraft(leadName, template, testMode, tone, extra, env);
      if prepared.Err? {
        return LeadReply(false, AbortMessage(leadName, prepared.error), None);
      }
      reply := Deliver(prepared.value, leadName, env);
    }

    /** Insert the Communication, send the mail, and mark the row Sent, or Error when a step after the insert fails. */
    method Deliver(d: Draft, leadName: string, env: Env) returns (reply: LeadReply)
      modifies this
      ensures (reply, communications, outbox) == Delivery(d, leadName, env, old(communications), old(outbox))
    {
      var record := RecordFor(d, leadName, env);
      var inserted := env.insert(record);
      if inserted.Err? {
        return LeadReply(false, AbortMessage(leadName, inserted.error), None);
      }
      reply := SendAndMark(d, leadName, env, record, inserted.value);
    }

    /** After the insert of `record` as `id`: send the mail, then mark the row Sent; on a failure, the handler that catches it. */
    method SendAndMark(d: Draft, leadName: string, env: Env, record: Communication, id: string) returns (reply: LeadReply)
      requires record == RecordFor(d, leadName, env)
      modifies this
      ensures (reply, communications, outbox) == SendOutcome(d, leadName, env, id, old(communications), old(outbox))
    {
      ghost var before := communications;
      communications := communications[id := record];
      var failure: Option<Abort> := None;
      if env.sendError.Some? {
        failure := env.sendError;
      } else {
        outbox := outbox + [MailFor(d, leadName, id)];
        if env.markSentError.Some? {
          failure := env.markSentError;
        } else {
          communications := communications[id := record.(emailStatus := StatusSent)];
          assert communications == before[id := record.(emailStatus := StatusSent)];
        }
      }
      if failure.Some? {
        var message := AbortMessage(leadName, failure.value);
        if failure.value.NotFound? {
          return LeadReply(false, message, None);
        }
        if env.markErrorSucceeds {
          communications := communications[id := record.(emailStatus := StatusError, errorDetails := Some(message))];
          assert communications == before[id := record.(emailStatus := StatusError, errorDetails := Some(message))];
        }
        return LeadReply(false, message, Some(id));
      }
      reply := LeadReply(true, SuccessMessage, Some(id));
    }
  }
}
