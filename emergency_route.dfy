/**
 * `POST /api/emergency-report`: save the report, alert the authorities by
 * e-mail and (for critical reports) by SMS, record which alerts went out on
 * the saved report, confirm to the reporter, and answer with the flags.
 * SendGrid and Twilio are reduced to whether each send succeeded; the
 * messages handed to them are returned as an outbox.
 */
module EmergencyRoute {
  import opened Wrappers
  import opened ServerEnv
  import opened ReportStore

  /** Whether each external send resolved (true) or threw (false). */
  datatype Deliveries = Deliveries(authorityEmail: bool, sms: bool, confirmation: bool)

  /** A message handed to SendGrid or Twilio (e-mail bodies are not modelled). */
  datatype Dispatch =
    | Email(to: string, from: string, subject: string)
    | Sms(to: string, from: string, body: string)

  /** `savedReport._id`, or `Date.now()` when nothing was saved. */
  datatype ReportId = StoredId(id: nat) | Timestamp(time: nat)

  datatype Response = Response(success: bool, message: string, reportId: ReportId, saved: bool, emailSent: bool, smsSent: bool)

  /** A property interpolated into a template literal; an absent one prints as "undefined". */
  function Show(v: Option<string>): string
  {
    if v.Some? then v.value else "undefined"
  }

  /** The authorities' e-mail is attempted only when the key, sender and recipient are all set. */
  predicate EmailConfigured(cfg: Config)
  {
    IsSet(cfg.sendgridApiKey) && IsSet(cfg.emailFrom) && IsSet(cfg.emergencyEmailTo)
  }

  /** The SMS alert is attempted only for a critical report with a Twilio client and both numbers set. */
  predicate SmsAttempted(cfg: Config, d: ReportData)
  {
    d.severity == Some("critical") && HasTwilioClient(cfg)
    && IsSet(cfg.twilioPhoneNumber) && IsSet(cfg.emergencyPhoneNumber)
  }

  /** The reporter's confirmation is attempted when they gave an address and SendGrid has a key and sender. */
  predicate ConfirmationAttempted(cfg: Config, d: ReportData)
  {
    d.contactEmail.Some? && d.contactEmail.value != "" && IsSet(cfg.sendgridApiKey) && IsSet(cfg.emailFrom)
  }

  function AuthoritySubject(d: ReportData): string
  {
    "\U{1F6A8} Emergency Report: " + Show(d.emergencyType) + " - " + Show(d.severity)
  }

  function SmsText(d: ReportData): string
  {
    "\U{1F6A8} CRITICAL EMERGENCY: " + Show(d.emergencyType) + " at " + Show(d.location)
    + ". Contact: " + Show(d.contactPhone)
  }

  const ConfirmationSubject: string := "Emergency Report Confirmation"

  /** The alerts to the authorities, in the order they are sent: the e-mail, then the SMS. */
  function AuthorityAlerts(cfg: Config, d: ReportData): seq<Dispatch>
  {
    (if EmailConfigured(cfg) then [Email(cfg.emergencyEmailTo, cfg.emailFrom, AuthoritySubject(d))] else [])
    + (if SmsAttempted(cfg, d) then [Sms(cfg.emergencyPhoneNumber, cfg.twilioPhoneNumber, SmsText(d))] else [])
  }

  /** The confirmation to the reporter, when it is attempted. */
  function Confirmation(cfg: Config, d: ReportData): seq<Dispatch>
  {
    if ConfirmationAttempted(cfg, d) then [Email(d.contactEmail.value, cfg.emailFrom, ConfirmationSubject)] else []
  }

  /** The messages the handler hands to the services, in the order it sends them. */
  function Outbox(cfg: Config, d: ReportData): seq<Dispatch>
  {
    AuthorityAlerts(cfg, d) + Confirmation(cfg, d)
  }

  /** The document finally stored for a saved report: the built one with the alert flags written back. */
  function FinalRecord(d: ReportData, id: nat, now: nat, emailSent: bool, smsSent: bool): Report
    requires Acceptable(d)
  {
    Build(d, id, now).(emailSent := emailSent, smsSent := smsSent)
  }

  /**
   * The two alerts to the authorities (the e-mail, then the SMS), each
   * attempted only when configured, each flag raised only when its send resolved.
   */
  method AlertAuthorities(cfg: Config, d: ReportData, delivered: Deliveries)
    returns (emailSent: bool, smsSent: bool, sent: seq<Dispatch>)
    ensures emailSent <==> EmailConfigured(cfg) && delivered.authorityEmail
    ensures smsSent <==> SmsAttempted(cfg, d) && delivered.sms
    ensures sent == AuthorityAlerts(cfg, d)
  {
    emailSent, smsSent, sent := false, false, [];
    if IsSet(cfg.sendgridApiKey) && IsSet(cfg.emailFrom) && IsSet(cfg.emergencyEmailTo) {
      sent := sent + [Email(cfg.emergencyEmailTo, cfg.emailFrom, AuthoritySubject(d))];
      if delivered.authorityEmail {
        emailSent := true;
      }
    }
    if d.severity == Some("critical") && HasTwilioClient(cfg) && IsSet(cfg.twilioPhoneNumber) {
      if IsSet(cfg.emergencyPhoneNumber) {
        sent := sent + [Sms(cfg.emergencyPhoneNumber, cfg.twilioPhoneNumber, SmsText(d))];
        if delivered.sms {
          smsSent := true;
        }
      }
    }
  }

  /** `savedReport.emailSent = …; savedReport.smsSent = …; await savedReport.save()` on the report just appended. */
  method RecordFlags(store: Store, ghost prior: seq<Report>, saved: Report, emailSent: bool, smsSent: bool, now: nat)
    requires store.Valid() && store.connected && Conforms(saved)
    requires store.reports == prior + [saved]
    modifies store
    ensures store.Valid() && store.connected
    ensures store.reports == prior + [saved.(emailSent := emailSent, smsSent := smsSent, updatedAt := now)]
  {
    ghost var before := store.reports;
    assert before[..|before| - 1] == prior;
    var doc := saved.(emailSent := emailSent, smsSent := smsSent);
    assert forall i :: 0 <= i < |before| - 1 ==> before[i].id != before[|before| - 1].id;
    var updated := store.Resave(doc, now);
    assert updated.Success?;
    forall i | 0 <= i < |store.reports|
      ensures store.reports[i] == (before[..|before| - 1] + [doc.(updatedAt := now)])[i]
    {
    }
  }

  method HandleEmergencyReport(store: Store, cfg: Config, d: ReportData, now: nat, delivered: Deliveries)
    returns (resp: Response, outbox: seq<Dispatch>)
    requires store.Valid()
    modifies store
    ensures store.Valid() && store.connected == old(store.connected)
    ensures resp.success && resp.message == "Emergency report submitted successfully"
    ensures resp.saved <==> old(store.connected) && Acceptable(d)
    ensures resp.emailSent <==> EmailConfigured(cfg) && delivered.authorityEmail
    ensures resp.smsSent <==> SmsAttempted(cfg, d) && delivered.sms
    ensures outbox == Outbox(cfg, d)
    ensures resp.saved ==>
      && resp.reportId == StoredId(old(store.nextId))
      && store.reports == old(store.reports) + [FinalRecord(d, old(store.nextId), now, resp.emailSent, resp.smsSent)]
    ensures !resp.saved ==> resp.reportId == Timestamp(now) && store.reports == old(store.reports)
  {
    var savedReport: Option<Report> := None;
    ghost var before := store.reports;

    // A failed save is logged and the notifications still run.
    var saved := store.Save(d, now);
    if saved.Success? {
      savedReport := Some(saved.value);
    }

    var emailSent, smsSent, sent := AlertAuthorities(cfg, d, delivered);
    outbox := sent;

    if savedReport.Some? {
      RecordFlags(store, before, savedReport.value, emailSent, smsSent, now);
    }

    if ConfirmationAttempted(cfg, d) {
      outbox := outbox + [Email(d.contactEmail.value, cfg.emailFrom, ConfirmationSubject)];
    }
    assert outbox == AuthorityAlerts(cfg, d) + Confirmation(cfg, d);

    var reportId := if savedReport.Some? then StoredId(savedReport.value.id) else Timestamp(now);
    resp := Response(true, "Emergency report submitted successfully", reportId, savedReport.Some?, emailSent, smsSent);
  }

  /** A report the schema rejects still alerts the authorities exactly as a valid one would. */
  lemma NotificationsIgnoreSaving(cfg: Config, d: ReportData, d': ReportData)
    requires d.severity == d'.severity && d.emergencyType == d'.emergencyType
    requires d.location == d'.location && d.contactPhone == d'.contactPhone && d.contactEmail == d'.contactEmail
    ensures Outbox(cfg, d) == Outbox(cfg, d')
  {
  }

  /** Only a critical report can be sent by SMS, and only with Twilio fully configured. */
  lemma SmsNeedsCritical(cfg: Config, d: ReportData)
    ensures (exists k :: 0 <= k < |Outbox(cfg, d)| && Outbox(cfg, d)[k].Sms?) ==>
      d.severity == Some("critical") && IsSet(cfg.twilioAccountSid) && IsSet(cfg.twilioAuthToken)
      && IsSet(cfg.twilioPhoneNumber) && IsSet(cfg.emergencyPhoneNumber)
  {
    var a := if EmailConfigured(cfg) then [Email(cfg.emergencyEmailTo, cfg.emailFrom, AuthoritySubject(d))] else [];
    var b := if SmsAttempted(cfg, d) then [Sms(cfg.emergencyPhoneNumber, cfg.twilioPhoneNumber, SmsText(d))] else [];
    var c := Confirmation(cfg, d);
    var o := Outbox(cfg, d);
    assert o == a + b + c;
    forall k | 0 <= k < |o| && o[k].Sms? ensures SmsAttempted(cfg, d) {
      if k < |a| {
        assert o[k] == a[k];
      } else if k < |a| + |b| {
        assert o[k] == b[k - |a|];
      } else {
        assert o[k] == c[k - |a| - |b|];
      }
    }
  }
}
