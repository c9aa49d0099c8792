# AI email core of the CRM, in Dafny

This project models the AI email module of a Frappe-based CRM (`crm/api/ai_email.py`) and the `validate` hook of the CRM AI System Prompt document. It covers these parts:

- **Prompt assembly** (`construct_prompt`). It filters the lead fields and builds the lead information block. It then renders the default system prompt and appends the block when the rendered prompt does not already contain the lead JSON. The mandatory output-format directive always comes last.
- **Completion validation** (`call_openrouter_api`). It chooses the model, builds the request, and turns the reply into a subject and content or into the failure message the code builds.
- **The email shell** (`get_email_template`, `render_full_email`). The two placeholders are filled with `str.replace`.
- **Single-lead generation** (`generate_email_for_lead`). It covers:
  - the lead, sender, account and recipient checks;
  - the choice between an Email Template and the AI path;
  - the Communication record and its Open → Sent / Error lifecycle;
  - the mail handed to the mailer.
- **Bulk jobs**:
  - submission (`generate_bulk_emails`): test-mode parsing, the lead query, the enqueued worker and the cached job record;
  - the worker loop (`process_bulk_emails`): per-lead classification, progress and every cache write;
  - status lookup (`get_bulk_email_job_status`): job-id variants, metadata keys, queue scan and the merge into the reply.
- **Helpers**:
  - recipient formatting in `send_ai_email`;
  - the email preference (`get_email_preference`, `set_email_preference`);
  - AI email log parsing (`get_ai_email_logs`);
  - the lead structure view (`get_lead_structure`);
  - the regular-expression `html2text` fallback.

Everything the code reaches outside itself is an input to the model, carried in `Env`-style datatypes of functions. This covers the database, the cache and Redis, the job queue, the mailer, Jinja rendering, `json.dumps`/`json.loads`, the OpenRouter call, the clock and the environment variables. Effects are returned as data:

- the submission returns the enqueue and cache-write requests;
- the worker returns the sequence of cache writes;
- the orchestrator's `Mailroom` and the prompt table are classes whose fields the methods update.

Python's string operations (`strip` with Unicode whitespace, `split`, `join`, `replace`, `in`, slicing) are written out in `Strings`. Loops in the source are methods with loop invariants, each proved equal to a specification function. The properties are proved about those functions.

Modules:

| Module | File | What it holds |
|---|---|---|
| `Outcomes` | `outcomes.dfy` | Option and Result types |
| `Strings` | `strings.dfy` | Python string operations |
| `LeadRecord` | `lead_record.dfy` | the lead dictionary |
| `PromptAssembly` | `prompt_assembly.dfy` | `construct_prompt` |
| `Completion` | `completion.dfy` | `call_openrouter_api` |
| `EmailShell` | `email_shell.dfy` | the shell template |
| `BulkJob` | `bulk_job.dfy` | the job record and its cache key |
| `BulkSubmission` | `bulk_submission.dfy` | bulk job submission |
| `BulkWorker` | `bulk_worker.dfy` | the worker loop |
| `Orchestrator` | `orchestrator.dfy` | `generate_email_for_lead` |
| `JobStatus` | `job_status.dfy` | job status lookup |
| `Recipients` | `recipients.dfy` | recipient formatting |
| `EmailPreference` | `email_preference.dfy` | the mail-service preference |
| `EmailLogs` | `email_logs.dfy` | log parsing |
| `LeadStructure` | `lead_structure.dfy` | the lead structure view |
| `HtmlText` | `html_text.dfy` | the `html2text` fallback |
| `SystemPrompt` | `system_prompt.dfy` | the system prompt table |

## Model

| member | source | states |
|---|---|---|
| PromptAssembly.RelevantFieldsExact | crm/api/ai_email.py:230-236 | a field reaches the lead JSON exactly when it is in the lead, its value is not None, its key has none of the internal prefixes and is not one of the ten bookkeeping names |
| PromptAssembly.RelevantFieldsDistinct | crm/api/ai_email.py:230-236 | filtering a dictionary yields a dictionary (keys stay distinct) |
| PromptAssembly.FilterLeadFields | crm/api/ai_email.py:230-236 | the filtering loop keeps exactly the relevant fields, in order |
| PromptAssembly.LeadBlock | crm/api/ai_email.py:241-250 | the standalone lead block ends with the lead JSON |
| PromptAssembly.BuildLeadBlock | crm/api/ai_email.py:241-250 | the block-building loop produces the lead block |
| PromptAssembly.ComposeContainsJson | crm/api/ai_email.py:276-299 | the final prompt always contains the lead JSON, whether Jinja embedded it or the block was appended |
| PromptAssembly.ComposeDirectIff | crm/api/ai_email.py:279-283 | the block is left out exactly when the rendered prompt already contains the JSON |
| PromptAssembly.ComposeFrame | crm/api/ai_email.py:276-299 | the prompt starts with the rendered instructions and ends with the output directive |
| PromptAssembly.AssemblePrompt | crm/api/ai_email.py:202-221 | it fails exactly when there is no default prompt or its content is missing or blank; on success it returns the stored model identifier |
| PromptAssembly.AssembledPromptShape | crm/api/ai_email.py:258-304 | the assembled prompt ends with the directive and contains the JSON. A failed render uses the raw template. The block is appended exactly when the rendered text lacks the JSON |
| PromptAssembly.ConstructPrompt | crm/api/ai_email.py:190-304 | the imperative construction equals the specification `AssemblePrompt` |
| Completion.ModelToUse | crm/api/ai_email.py:309 | a missing or blank model identifier gives `openai/gpt-4o`, any other is used as given, and the model is never blank |
| Completion.MissingFields | crm/api/ai_email.py:354-355 | the missing-field list names subject and/or content exactly when they are absent or null, in that order |
| Completion.ValidateCompletion | crm/api/ai_email.py:336-375 | success exactly when the reply text parses to an object with non-null subject and content and the subject can be sliced. A decode error gives the malformed-JSON message. Missing fields are named in the failure. A dict subject fails with the API-call message around the interpreter's text for slicing a dict |
| Completion.CallOpenRouter | crm/api/ai_email.py:312-375 | an exception from the API call gives the `Error during OpenRouter API call (<model>)` message |
| Completion.MissingFieldsNamed | crm/api/ai_email.py:354-360 | the failure names exactly the fields that are missing: subject, content, or `subject, content` |
| EmailShell.GetEmailTemplate | crm/api/ai_email.py:459-532 | the shell contains both unique placeholders |
| EmailShell.SenderName | crm/api/ai_email.py:543 | the sender name written is never empty (`Sinx Solutions` when none is given) |
| EmailShell.RenderFullEmailFillsSlots | crm/api/ai_email.py:534-556 | when the subject has no placeholder and the body has no sender placeholder, the result is the shell with body, sender name and subject in their slots and nothing else changed |
| BulkJob.JobKey | crm/api/ai_email.py:650 | the job key is the prefix followed by the job id |
| BulkJob.JobKeyInjective | crm/api/ai_email.py:682 | distinct job ids have distinct cache keys, so the worker reads back the record the submission wrote |
| BulkSubmission.TextTestMode | crm/api/ai_email.py:580-584 | text turns test mode on exactly for `1` and for any capitalisation of `true` |
| BulkSubmission.Refuse | crm/api/ai_email.py:575-577 | a refusal enqueues nothing, stores nothing and returns no job id |
| BulkSubmission.QueryFor | crm/api/ai_email.py:589-616 | names take precedence over filters, the page limit is the number of names plus ten or 1000, and with neither the request fails with `No leads specified for bulk email.` |
| BulkSubmission.Submit | crm/api/ai_email.py:559-663 | no template refuses with `Please select an email template.` A failed lead query refuses with its own message, and an empty lead list with `No leads found to send emails to.` Otherwise the leads are enqueued on queue `long` with timeout 3600, the template and the test-mode flag. An accepted job stores a queued record under the job key for 86400 s. An enqueue or store error replies `Error initiating bulk email job: <e>`. Success holds exactly when the store succeeds, and returns the job id and the started message |
| BulkWorker.Classify | crm/api/ai_email.py:702-728 | a lead counts as a success exactly when it has a name and the per-lead call returned success. A nameless lead is the `Unknown` failure |
| BulkWorker.RecordLead | crm/api/ai_email.py:697-728 | one pass of the loop sets the lead's progress and adds exactly the entry `Classify` assigns that lead: success, failure with the step's message, `Loop error`, or `Unknown` |
| BulkWorker.ProcessBulkEmails | crm/api/ai_email.py:666-748 | the records that reach the cache are the run's writes up to the first one that raises. Without a raising write, the final record and the summary are those of the specification functions over the lead outcomes. With one, there is no summary |
| BulkWorker.MailLeads | crm/api/ai_email.py:695-731 | the lead loop writes a prefix of the run's writes and stops exactly at the write that raises; otherwise it ends with every lead recorded |
| BulkWorker.StoredWrites | crm/api/ai_email.py:693-737 | a raising write keeps out itself and every later write; the rest are stored in order |
| BulkWorker.StoppedRunStaysRunning | crm/api/ai_email.py:693-737 | when a write after the first raises, the last record in the cache still says `running` |
| BulkWorker.EveryLeadRecordedOnce | crm/api/ai_email.py:696-728 | every lead processed ends in exactly one of the two lists |
| BulkWorker.NoFailuresIff | crm/api/ai_email.py:702-728 | the failure list is empty exactly when every lead is named and its call succeeded |
| BulkWorker.JobCompletedIff | crm/api/ai_email.py:734 | the final status is `completed` exactly when nothing failed, else `completed_with_errors` |
| BulkWorker.WritesCount | crm/api/ai_email.py:693-731 | one write at the start plus one per named lead (nameless leads are skipped before the write) |
| BulkWorker.ProgressMonotone | crm/api/ai_email.py:698 | progress never goes down from one lead to the next |
| BulkWorker.ProgressBounds | crm/api/ai_email.py:698 | progress is at most 100 and reaches 100 at the last lead |
| BulkWorker.WritesProgressOrdered | crm/api/ai_email.py:696-731 | the progress values in the written records never decrease and never exceed 100 |
| BulkWorker.RunProgressOrdered | crm/api/ai_email.py:696-737 | the whole run, final write included, reports non-decreasing progress ending at 100 |
| Orchestrator.SenderFullName | crm/api/ai_email.py:773 | the sender's full name is never empty (`Sinx Solutions Team` by default) |
| Orchestrator.Recipient | crm/api/ai_email.py:781-789 | live mode sends to the lead. Test mode sends to the user's email, else to the configured test recipient, and fails exactly when both are missing |
| Orchestrator.ActualRecipient | crm/api/ai_email.py:857 | the actual recipient is recorded exactly in test mode when the mail is redirected, and is then the lead's email |
| Orchestrator.EarlyFailureLeavesNoTrace | crm/api/ai_email.py:765-842 | a failure before the Communication is inserted leaves no Communication and sends no mail |
| Orchestrator.NoEmailFails | crm/api/ai_email.py:767-769 | a lead without email fails with `Lead '<name>' has no email address.` |
| Orchestrator.NoMethodFails | crm/api/ai_email.py:840-842 | with neither a template nor an AI tone the request fails as `Email generation method unclear` |
| Orchestrator.RecipientRule | crm/api/ai_email.py:781-789 | a prepared email goes to the recipient chosen by the rule above, the lead itself in live mode |
| Orchestrator.ContentSource | crm/api/ai_email.py:792-838 | a template gives non-AI content rendered from it; otherwise the content is AI-generated and wrapped in the shell |
| Orchestrator.CommunicationLifecycle | crm/api/ai_email.py:845-906 | a failure before the insert reports no id and changes nothing. Otherwise the prepared draft follows `Lifecycle`. A failed insert changes nothing. After an insert only that row changes, and it keeps the draft's recipient. The mail is in the outbox exactly when `sendmail` did not raise. The row is `Sent` exactly on success. A `DoesNotExistError` after the insert reports no id and leaves the row `Open`. Any other failure reports the id and marks the row `Error` with the message when that update succeeds, else leaves it `Open` |
| Orchestrator.Mailroom.PrepareDraft | crm/api/ai_email.py:765-842 | the checks and content generation equal the specification `Prepare` |
| Orchestrator.Mailroom.ResolveRecipient | crm/api/ai_email.py:781-789 | the recipient step equals `Recipient` |
| Orchestrator.Mailroom.ResolveContent | crm/api/ai_email.py:792-842 | the content step equals `Content` |
| Orchestrator.Mailroom.Deliver | crm/api/ai_email.py:845-911 | insertion, sending and status updates change the Communications and the outbox as `Delivery` says. A failure is handled by the handler that catches it |
| Orchestrator.Mailroom.GenerateEmailForLead | crm/api/ai_email.py:751-911 | the reply and the new state are those of `Outcome` on the old state |
| Orchestrator.Mailroom.BuildDraft | crm/api/ai_email.py:781-842 | with the sender and the default account resolved, the recipient and content steps give the draft, or the abort, that the specification `DraftFor` gives |
| Orchestrator.Mailroom.SendAndMark | crm/api/ai_email.py:845-906 | after the insert, sending and the status updates leave the reply, the Communications and the outbox that `SendOutcome` gives. A `DoesNotExistError` replies without an id and leaves the row `Open`; another failure marks it `Error` |
| Orchestrator.AiContentIsWrapped | crm/api/ai_email.py:802-833 | content made without a template needs a truthy tone, and its HTML is an AI body wrapped in the email shell under the sender's name and the AI subject |
| Orchestrator.DeliveryLifecycle | crm/api/ai_email.py:845-906 | inserting, sending and marking a draft follow `Lifecycle`, the row-by-row statement given for `CommunicationLifecycle`, including the `DoesNotExistError` handler of 887-890 after the insert |
| JobStatus.CandidateKeys | crm/api/ai_email.py:986-992 | the metadata keys tried, in order: the job key first, then the other id form, then the legacy key(s) |
| JobStatus.AlternateIdRoundTrip | crm/api/ai_email.py:949-960 | adding the site prefix and taking it off again returns the same id |
| JobStatus.LookupMeta | crm/api/ai_email.py:994-1022 | the key loop finds the metadata that `FindMeta` specifies (first truthy cache value, else a decodable Redis value) |
| JobStatus.ResolveJob | crm/api/ai_email.py:940-979 | the job fetched by its own id wins. When that misses, the job fetched by the alternate id (site prefix added or removed) wins. When both miss, the result is the scan of the five standard queues |
| JobStatus.ScanStandardQueues | crm/api/ai_email.py:967-979 | the queue scan returns the first hit, which comes from one of the five standard queues |
| JobStatus.QueueStatus | crm/api/ai_email.py:1025-1032 | `not_found` with no job, `error` when its status cannot be read, else the job's status |
| JobStatus.Merge | crm/api/ai_email.py:1035-1044 | metadata that is not a dictionary but truthy makes the lookup fail. Otherwise the reply carries the id, the queue status and the check time. Missing metadata gives zero counts and empty lists. The job's exception text is preferred as the error |
| JobStatus.JobStatusOf | crm/api/ai_email.py:914-1057 | an empty id is refused, and a found status is about the requested id. A raising Redis connection gives `Error checking job status: <e>` with status `unknown` |
| JobStatus.QueuedJobReported | crm/api/ai_email.py:1035-1042 | a job record stored under its key is reported with its success and failure lists |
| Recipients.StripAll | crm/api/ai_email.py:1208 | every address is stripped, none added or dropped |
| Recipients.FormatCopies | crm/api/ai_email.py:1209-1219 | a falsy cc/bcc (absent, empty text or empty list) gives the empty string. Any other text or list is formatted like the recipients |
| Recipients.TextItemsClean | crm/api/ai_email.py:1207-1208 | split and stripped addresses are non-empty lists of comma-free, already-stripped items |
| Recipients.CleanRoundTrip | crm/api/ai_email.py:1207-1217 | joining clean addresses with `, ` and splitting and stripping again gives the same list |
| Recipients.FormatRecipientsIdempotent | crm/api/ai_email.py:1207-1217 | formatting an already formatted recipient string changes nothing |
| EmailPreference.SetEmailPreference | crm/api/ai_email.py:1387-1410 | only `resend` and `frappe` are accepted and stored. Success holds exactly when the value is valid and the write succeeds. Invalid input and write errors get their messages |
| EmailPreference.GetEmailPreference | crm/api/ai_email.py:1319-1384 | the preference is the stored one or `resend`, never empty. Frappe counts as configured when an enabled default-outgoing account exists, Resend when key and sender are both set. The auto-set branch never saves anything |
| EmailPreference.SetThenGet | crm/api/ai_email.py:1326-1327 | a preference that was set is the one read back |
| EmailPreference.ReportedPreferenceKnown | crm/api/ai_email.py:1326-1327 | when the stored value is a valid service or empty, the reported preference is a valid service |
| EmailPreference.AsWrittenSkipsAutoSet | crm/api/ai_email.py:1359-1368 | with nothing stored and only Frappe configured, the code as written reports `resend` and saves nothing |
| EmailPreference.IntendedPreference | crm/api/ai_email.py:1358-1368 | the configured flags are as in the code as written. A stored preference is reported as it is. With nothing stored and a service configured, the chosen service is saved and is `frappe` or `resend`. Frappe is chosen whenever it is configured, and `resend` only when Resend is configured |
| EmailPreference.IntendedAgreesWhenStored | crm/api/ai_email.py:1326-1327 | the intended version differs from the code only when nothing is stored |
| EmailLogs.SliceFrom | crm/api/ai_email.py:1431 | Python's `xs[start:]` for any integer start: the suffix of the stated length |
| EmailLogs.Reverse | crm/api/ai_email.py:1447 | position k of the result holds the k-th item from the end |
| EmailLogs.SplitOnce | crm/api/ai_email.py:1434 | two parts exactly when the separator occurs. The parts rebuild the string around the first occurrence |
| EmailLogs.ParseLineIff | crm/api/ai_email.py:1432-1442 | a line yields an entry exactly when it contains `AI Email:`; the `len(parts) == 2` test never rejects one |
| EmailLogs.EntryTrimmed | crm/api/ai_email.py:1436-1437 | timestamp and message carry no surrounding whitespace |
| EmailLogs.EntriesFromMarkedLines | crm/api/ai_email.py:1431-1442 | every entry comes from a marked line |
| EmailLogs.CollectEntries | crm/api/ai_email.py:1431-1442 | the line loop collects the specified entries in order |
| EmailLogs.ReverseEntries | crm/api/ai_email.py:1447 | the reversal loop reverses the list |
| EmailLogs.GetAiEmailLogs | crm/api/ai_email.py:1413-1459 | a missing or unreadable file gives its failure message. Otherwise the reply holds the entries of the last `2*limit` lines, cut to the last `limit`, newest first |
| EmailLogs.LogsBounded | crm/api/ai_email.py:1444 | a positive limit bounds the number of entries |
| EmailLogs.NewestFirst | crm/api/ai_email.py:1444-1447 | entry k of the reply is the k-th newest entry of the window |
| EmailLogs.LimitZeroKeepsAll | crm/api/ai_email.py:1431-1447 | a limit of 0 slices nothing off: all entries, newest first |
| EmailLogs.LogsFromMarkedLines | crm/api/ai_email.py:1431-1447 | every returned entry was parsed from a marked line of the file |
| LeadStructure.Delete | crm/api/ai_email.py:1479-1480 | deleting a key removes exactly the fields under it |
| LeadStructure.Without | crm/api/ai_email.py:1472-1480 | a field is kept exactly when its key is not excluded |
| LeadStructure.DeleteAfterWithout | crm/api/ai_email.py:1478-1480 | deleting one more key is leaving out the longer key list |
| LeadStructure.DeleteKeys | crm/api/ai_email.py:1478-1480 | the deletion loop leaves out every listed key |
| LeadStructure.StructureFields | crm/api/ai_email.py:1472-1480 | no excluded key remains and every other field is kept |
| LeadStructure.WithoutKeepsOrder | crm/api/ai_email.py:1478-1480 | the kept fields keep their dictionary order |
| LeadStructure.GetLeadStructure | crm/api/ai_email.py:1462-1495 | the lead without the thirteen bookkeeping fields, or `Error getting lead structure: <e>` when loading fails |
| HtmlText.FirstClose | crm/api/ai_email.py:28 | the first `>` of the text, none before it, or none at all |
| HtmlText.StripTagsPlain | crm/api/ai_email.py:28 | text without `<` passes tag removal unchanged |
| HtmlText.StripTagsNoClose | crm/api/ai_email.py:28 | text without `>` passes tag removal unchanged (an unclosed `<` is text) |
| HtmlText.StripTagsLeavesNoTag | crm/api/ai_email.py:28 | after tag removal no `<` is followed by a `>` |
| HtmlText.Collapse | crm/api/ai_email.py:30 | whitespace runs become one space; never longer than the input |
| HtmlText.CollapseSpaces | crm/api/ai_email.py:30 | after collapsing, whitespace is single plain spaces |
| HtmlText.CollapseKeepsNoTag | crm/api/ai_email.py:28-30 | collapsing whitespace creates no tag |
| HtmlText.Html2TextClean | crm/api/ai_email.py:24-31 | the fallback's text has no tag, no surrounding whitespace and only single plain spaces |
| HtmlText.Html2TextPlain | crm/api/ai_email.py:24-31 | clean text without `<` comes back unchanged |
| HtmlText.CollapseClean | crm/api/ai_email.py:30 | single plain spaces are left as they are |
| SystemPrompt.DefaultsOf | crm/fcrm/doctype/crm_ai_system_prompt/crm_ai_system_prompt.py:22-26 | the names of the rows with `is_default` set |
| SystemPrompt.ClearOtherDefaults | crm/fcrm/doctype/crm_ai_system_prompt/crm_ai_system_prompt.py:24-26 | the update keeps the same rows, leaves only `name` possibly marked default, and changes no column but `is_default` |
| SystemPrompt.SaveDefaultIsOnlyDefault | crm/fcrm/doctype/crm_ai_system_prompt/crm_ai_system_prompt.py:21-26 | after saving a default it is the only default |
| SystemPrompt.SaveNonDefaultTouchesNothingElse | crm/fcrm/doctype/crm_ai_system_prompt/crm_ai_system_prompt.py:21-22 | saving a non-default row changes no other row |
| SystemPrompt.SaveChangesOnlyTheFlag | crm/fcrm/doctype/crm_ai_system_prompt/crm_ai_system_prompt.py:24-26 | the update only clears `is_default` on other rows; nothing else changes |
| SystemPrompt.SaveKeepsAtMostOneDefault | crm/fcrm/doctype/crm_ai_system_prompt/crm_ai_system_prompt.py:21-26 | a save keeps the table to at most one default |
| SystemPrompt.SavesKeepAtMostOneDefault | crm/fcrm/doctype/crm_ai_system_prompt/crm_ai_system_prompt.py:21-26 | any series of saves keeps the table to at most one default |
| SystemPrompt.DefaultLookup | crm/api/ai_email.py:202-207 | the lookup finds a default row exactly when one exists, and returns its content and model |
| SystemPrompt.SavedDefaultIsLookedUp | crm/api/ai_email.py:202-207 | after a default is saved, prompt assembly reads exactly that row |
| SystemPrompt.PromptTable.Validate | crm/fcrm/doctype/crm_ai_system_prompt/crm_ai_system_prompt.py:21-26 | a default document clears the other defaults; any other document changes nothing |
| SystemPrompt.PromptTable.Save | crm/fcrm/doctype/crm_ai_system_prompt/crm_ai_system_prompt.py:21-26 | validate then write, keeping the table to at most one default |

## Left out

- Logging, `time.sleep`, tracebacks and `frappe.publish_realtime` are left out; they have no effect on results.
- `init_environment` is not modelled as a step. Its `.env` loading can set `OPENROUTER_KEY`, `RESEND_API_KEY` and `RESEND_DEFAULT_FROM`. Its effect is folded into the inputs `Orchestrator.Env.apiKey` and `EmailPreference`'s `resendKey`/`resendFrom`, which are read as the values after loading.
- `_()` translation is treated as the identity.
- The source's `frappe.throw` in `construct_prompt` and `get_bulk_email_job_status` is modelled as an error value.
- `send_test_email`, `list_bulk_email_jobs`, `debug_failed_job`, `get_last_bulk_email_leads`, `get_api_status` and `generate_email_content` are not part of this model. They are glue and diagnostics outside the core.
- The rest of `send_ai_email` (template fallback, Resend/Frappe sending) is not part of this model. Only its recipient formatting is modelled.
- The CSS and markup of the email shell are reduced to a short stand-in with the same three slots. Only the placeholders and the slot structure matter to `render_full_email`.
- Frappe's own `html2text` is an input (`Env.toText`) of the orchestrator. The regular-expression fallback is modelled separately in `HtmlText`.
- The database, cache, Redis, job queue, mailer, Jinja, JSON encoding and decoding, and the OpenRouter call are inputs; their internals are not modelled.
- `process_bulk_emails` receives the per-lead outcomes as an input sequence. `BulkWorker.LeadOutcome.Returned` mirrors the fields of `Orchestrator.LeadReply`, with the message optional because the worker reads it with `.get`. Nothing in the model connects the two.
- Concurrency is not modelled. The worker and a status request may interleave on the cache.
- `BulkWorker.Progress`: progress is the integer `(i + 1) * 100 / n`. The source computes `int(((i + 1) / n) * 100)` in floating point, which can come out one lower (29 of 100 gives 28). `ProgressMonotone` and `ProgressBounds` are stated for the exact value.
- `Orchestrator.CommunicationLifecycle`: the two `set_value` calls of the error handler are treated as all-or-nothing (`env.markErrorSucceeds`). A failure between them is not modelled.
- `Orchestrator.Lifecycle`: the error handler's `if communication_id:` test is taken to hold once a row was inserted. Frappe document names are never empty.
- `BulkWorker.ProcessBulkEmails`: the read of the cached record (line 682) is an input and is taken not to raise. After a raising write, what the job queue then reports for the failed job is not part of this model.
- `Orchestrator.Mailroom.GenerateEmailForLead`: the handler's read of `frappe.exc_already_raised` (line 904) is taken to succeed. Frappe is not part of this model, so whether that attribute exists is not checked here.
- `Completion.SliceError`: the text of the exception `subject[:50]` raises on a dict depends on the Python version (an unhashable-slice `TypeError` up to 3.11, a `KeyError` reading `slice(None, 50, None)` from 3.12), so it is an input (`dictSliceError`) rather than a fixed string.
- `Orchestrator.FromAi`: Python's exact `TypeError` texts for non-string AI fields are an input (`env.typeError`). A list-valued subject is not specially cased beyond that.
- The Communication's `reference_name` is the requested lead name (`lead.name` of a fetched lead equals it).
- Timestamps are opaque strings supplied as inputs.
- `Recipients.FormatRecipients`: a `None` recipients argument raises `TypeError` in the source (caught by the outer handler). The model's `NoAddresses` case is meant for cc and bcc, where it gives "".
- `BulkSubmission.IsTestMode`: Python's Unicode `lower()` is modelled by an ASCII `Lower`. That is the same for the comparison with `true`, since no non-ASCII character lowers to an ASCII letter other than Kelvin `K` and dotted `İ`, neither of which is in `true`.
- `EmailLogs.GetAiEmailLogs`: `limit` is an integer. A string `limit` from an HTTP call makes `-limit*2` raise, which the handler reports; that path is not modelled separately. The source comment says the logs are returned oldest first, but `reverse()` on lines in file order returns them newest first; the model follows the code.
- `SystemPrompt.PromptTable.Save`: document naming, permissions and the rest of the Frappe save pipeline are not modelled. Only `validate` and the row write are.

## Findings

| source | as written | input that shows it | evidently intended | confidence | as-written member | corrected member |
|---|---|---|---|---|---|---|
| crm/api/ai_email.py:1326-1368 | `get_single_value(...) or "resend"` makes the preference never empty, so the auto-set branch that should pick a configured service never runs | nothing stored, one enabled default-outgoing Email Account, no Resend key: the reply says `resend` (not configured) and nothing is saved | with nothing stored, choose a configured service (Frappe first), save it and report it | medium, not executed | EmailPreference.AsWrittenSkipsAutoSet | EmailPreference.IntendedPreference |
