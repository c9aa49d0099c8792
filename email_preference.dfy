/**
 * The choice of mail service (`get_email_preference`, `set_email_preference`):
 * the value kept in System Settings and which of the two services is
 * configured. The settings store, the Email Account query and the process
 * environment are inputs.
 */
module EmailPreference {
  import opened Outcomes
  import opened Strings

  const Resend: string := "resend"
  const Frappe: string := "frappe"
  const InvalidPreference: string := "Invalid preference. Use 'resend' or 'frappe'."

  /** The two services a preference may name. */
  predicate Known(preference: string)
  {
    preference == Resend || preference == Frappe
  }

  datatype SetReply = SetReply(success: bool, message: string)

  /**
   * `set_email_preference`: the reply, and the value written to System
   * Settings (`None` when nothing was written). `writeError` is the exception
   * the write or its commit raised, if any.
   */
  function SetEmailPreference(preference: string, writeError: Option<string>): (r: (SetReply, Option<string>))
    ensures r.0.success <==> Known(preference) && writeError.None?
    ensures r.1.Some? <==> r.0.success
    ensures r.1.Some? ==> r.1.value == preference
    ensures !Known(preference) ==> r.0.message == InvalidPreference
    ensures Known(preference) && writeError.Some? ==> r.0.message == "Error setting preference: " + writeError.value
  {
    if !Known(preference) then (SetReply(false, InvalidPreference), None)
    else match writeError
      case Some(e) => (SetReply(false, "Error setting preference: " + e), None)
      case None => (SetReply(true, "Email preference set to " + preference), Some(preference))
  }

  /** The reply of `get_email_preference`; `autoSaved` is what its auto-set branch would write. */
  datatype PreferenceReport = PreferenceReport(
    success: bool,
    preference: string,
    frappeConfigured: bool,
    resendConfigured: bool,
    autoSaved: Option<string>)

  /**
   * `get_email_preference`. `stored` is the settings read (an error when it
   * raises), `accounts` the number of enabled default-outgoing Email Accounts
   * (an error when the query raises), `resendKey` and `resendFrom` the two
   * environment variables.
   */
  function GetEmailPreference(stored: Result<Option<string>, string>, accounts: Result<nat, string>,
                              resendKey: Option<string>, resendFrom: Option<string>): (r: PreferenceReport)
    ensures r.success <==> stored.Ok?
    ensures r.preference != ""
    ensures r.preference == (if stored.Ok? && Given(stored.value) then stored.value.value else Resend)
    ensures r.frappeConfigured <==> stored.Ok? && accounts.Ok? && accounts.value > 0
    ensures r.resendConfigured <==> Given(resendKey) && (stored.Err? || Given(resendFrom))
    ensures r.autoSaved.None?
  {
    match stored
    case Err(_) => PreferenceReport(false, Resend, false, Given(resendKey), None)
    case Ok(value) =>
      var preference := if Given(value) then value.value else Resend;
      var frappeConfigured := accounts.Ok? && accounts.value > 0;
      var resendConfigured := Given(resendKey) && Given(resendFrom);
      if preference == "" && (frappeConfigured || resendConfigured) then
        var chosen := if frappeConfigured then Frappe else Resend;
        PreferenceReport(true, chosen, frappeConfigured, resendConfigured, Some(chosen))
      else
        PreferenceReport(true, preference, frappeConfigured, resendConfigured, None)
  }

  /** A preference that was saved is the one read back. */
  lemma SetThenGet(preference: string, accounts: Result<nat, string>, resendKey: Option<string>, resendFrom: Option<string>)
    requires Known(preference)
    ensures SetEmailPreference(preference, None).0.success
    ensures GetEmailPreference(Ok(SetEmailPreference(preference, None).1), accounts, resendKey, resendFrom).preference == preference
  {
  }

  /** Whatever is stored, the reported preference is one of the two services when the stored one is. */
  lemma ReportedPreferenceKnown(stored: Result<Option<string>, string>, accounts: Result<nat, string>,
                                resendKey: Option<string>, resendFrom: Option<string>)
    requires stored.Ok? && stored.value.Some? ==> stored.value.value == "" || Known(stored.value.value)
    ensures Known(GetEmailPreference(stored, accounts, resendKey, resendFrom).preference)
  {
  }

  /**
   * The auto-set branch as evidently intended: with no preference stored and
   * a service configured, the configured service is chosen (Frappe first)
   * and saved; a stored preference is reported as it is.
   */
  function IntendedPreference(stored: Result<Option<string>, string>, accounts: Result<nat, string>,
                              resendKey: Option<string>, resendFrom: Option<string>): (r: PreferenceReport)
    ensures stored.Ok? && Given(stored.value) ==> r.preference == stored.value.value && r.autoSaved.None?
    ensures r.frappeConfigured <==> stored.Ok? && accounts.Ok? && accounts.value > 0
    ensures r.resendConfigured <==> Given(resendKey) && (stored.Err? || Given(resendFrom))
    ensures stored.Ok? && !Given(stored.value) && (r.frappeConfigured || r.resendConfigured) ==>
              r.autoSaved == Some(r.preference)
              && Known(r.preference)
              && (r.frappeConfigured ==> r.preference == Frappe)
              && (!r.frappeConfigured ==> r.preference == Resend && r.resendConfigured)
  {
    match stored
    case Err(_) => PreferenceReport(false, Resend, false, Given(resendKey), None)
    case Ok(value) =>
      var frappeConfigured := accounts.Ok? && accounts.value > 0;
      var resendConfigured := Given(resendKey) && Given(resendFrom);
      if !Given(value) && (frappeConfigured || resendConfigured) then
        var chosen := if frappeConfigured then Frappe else Resend;
        PreferenceReport(true, chosen, frappeConfigured, resendConfigured, Some(chosen))
      else
        PreferenceReport(true, if Given(value) then value.value else Resend, frappeConfigured, resendConfigured, None)
  }

  /**
   * As written, nothing stored and only Frappe configured still reports
   * "resend", a service that is not configured, and saves nothing.
   */
  lemma AsWrittenSkipsAutoSet()
    ensures var r := GetEmailPreference(Ok(None), Ok(1), None, None);
            r.preference == Resend && !r.resendConfigured && r.frappeConfigured && r.autoSaved.None?
    ensures IntendedPreference(Ok(None), Ok(1), None, None).preference == Frappe
  {
  }

  /** The intended version agrees with the code as written whenever a preference is stored. */
  lemma IntendedAgreesWhenStored(stored: Result<Option<string>, string>, accounts: Result<nat, string>,
                                 resendKey: Option<string>, resendFrom: Option<string>)
    requires stored.Err? || Given(stored.value)
    ensures IntendedPreference(stored, accounts, resendKey, resendFrom) == GetEmailPreference(stored, accounts, resendKey, resendFrom)
  {
  }
}
