/** The bug-reporting opt-in prompt across the two sides: the server's status fetch and
    toggle, and the browser's test of the reported value. */
module SentryOptIn {
  import opened Values
  import opened PluginApis
  import opened AlertGatekeeper

  /** The reply to a status fetch on `values`, carrying `alerts`. */
  function StatusReply(values: map<string, Value>, alerts: seq<Alert>): (data: StatusPayload)
    ensures data.alerts == alerts
    ensures data.sentryOpt.Some? <==> Truthy(Setting(values, "auth_token"))
    ensures data.sentryOpt.Some? ==> data.sentryOpt.value == Setting(values, "sentry_opt")
  {
    StatusPayload(SentryStatus(values).reported, alerts)
  }

  /** A fetch prompts exactly when the printer is linked and the setting is `'out'`. */
  lemma PromptsIff(values: map<string, Value>, alerts: seq<Alert>)
    ensures PromptsOptIn(StatusReply(values, alerts)) <==>
      Truthy(Setting(values, "auth_token")) && Setting(values, "sentry_opt") == Str("out")
  {
  }

  /** Of two fetches in a row, at most one prompts. */
  lemma PromptAtMostOnce(values: map<string, Value>, alerts1: seq<Alert>, alerts2: seq<Alert>)
    ensures !(PromptsOptIn(StatusReply(values, alerts1)) &&
              PromptsOptIn(StatusReply(SentryStatus(values).values, alerts2)))
  {
  }

  /** Confirming the prompt toggles the setting the fetch left at `'asked'`, which turns
      bug reporting on. */
  lemma ConfirmTurnsReportingOn(values: map<string, Value>, alerts: seq<Alert>)
    requires PromptsOptIn(StatusReply(values, alerts))
    ensures var after := SentryStatus(values).values;
            Toggled(Setting(after, "sentry_opt")) == Str("in")
  {
  }
}
