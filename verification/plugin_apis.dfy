/** The plugin's API command handler on the server: its command table and the two
    commands that read and write the bug-reporting opt-in setting `sentry_opt`. */
module PluginApis {
  import opened Values

  /** Each command the plugin accepts, with the parameters a request for it must carry. */
  function ApiCommands(): (table: map<string, seq<string>>)
    ensures table.Keys == {"verify_code", "get_plugin_status", "toggle_sentry_opt", "test_server_connection"}
    ensures table["verify_code"] == ["code"]
    ensures forall c :: c in table && c != "verify_code" ==> table[c] == []
  {
    map[
      "verify_code" := ["code"],
      "get_plugin_status" := [],
      "toggle_sentry_opt" := [],
      "test_server_connection" := []
    ]
  }

  /** The keys the command handler reads from a request's data for each command. */
  function DataKeysRead(command: string): set<string>
  {
    if command == "verify_code" then {"code"} else {}
  }

  /** A request the host passes to the handler: a declared command carrying every one of
      its declared parameters. */
  predicate Admitted(command: string, dataKeys: set<string>)
  {
    command in ApiCommands() && forall p :: p in ApiCommands()[command] ==> p in dataKeys
  }

  /** The table asks for "code" with `verify_code` and nothing with the other three, so
      an admitted request never lacks a key the handler reads. */
  lemma AdmittedCoversReads(command: string, dataKeys: set<string>)
    ensures Admitted(command, dataKeys) <==>
      (command == "verify_code" && "code" in dataKeys) ||
      command in {"get_plugin_status", "toggle_sentry_opt", "test_server_connection"}
    ensures Admitted(command, dataKeys) ==> DataKeysRead(command) <= dataKeys
  {
    if command == "verify_code" {
      assert ApiCommands()[command] == ["code"];
      assert ApiCommands()[command][0] == "code";
    }
  }

  /** A setting's value; an unset key reads as None. */
  function Setting(values: map<string, Value>, key: string): Value
  {
    if key in values then values[key] else Null
  }

  /** What a status fetch does to the settings and what it reports under `sentry_opt`. */
  datatype StatusStep = StatusStep(values: map<string, Value>, reported: Option<Value>, saves: bool)

  /** The `sentry_opt` part of a status fetch: once the printer is linked, an `'out'` turns
      into `'asked'`, and the value from before the fetch is reported. */
  function SentryStatus(values: map<string, Value>): (s: StatusStep)
    ensures s.reported.Some? <==> Truthy(Setting(values, "auth_token"))
    ensures s.reported.Some? ==> s.reported.value == Setting(values, "sentry_opt")
    ensures s.saves <==> s.reported == Some(Str("out"))
    ensures Setting(s.values, "sentry_opt") == if s.saves then Str("asked") else Setting(values, "sentry_opt")
    ensures forall k :: k != "sentry_opt" ==> Setting(s.values, k) == Setting(values, k)
    ensures Truthy(Setting(values, "auth_token")) ==> Setting(s.values, "sentry_opt") != Str("out")
  {
    if Truthy(Setting(values, "auth_token")) then
      var sentryOpt := Setting(values, "sentry_opt");
      if sentryOpt == Str("out") then
        StatusStep(values["sentry_opt" := Str("asked")], Some(sentryOpt), true)
      else
        StatusStep(values, Some(sentryOpt), false)
    else
      StatusStep(values, None, false)
  }

  /** The opt-in value after a toggle: `'in'` becomes `'out'`, anything else becomes `'in'`. */
  function Toggled(sentryOpt: Value): (r: Value)
    ensures r == Str("out") <==> sentryOpt == Str("in")
    ensures r == Str("in") <==> sentryOpt != Str("in")
  {
    if sentryOpt == Str("in") then Str("out") else Str("in")
  }

  /** Unlinked: the reply has no `sentry_opt` entry and the settings stay as they were. */
  lemma StatusUnlinked(values: map<string, Value>)
    requires !Truthy(Setting(values, "auth_token"))
    ensures SentryStatus(values) == StatusStep(values, None, false)
  {
  }

  /** Linked with `'out'`: the setting becomes `'asked'` and is saved, and the reply still
      says `'out'`. */
  lemma StatusAsks(values: map<string, Value>)
    requires Truthy(Setting(values, "auth_token")) && Setting(values, "sentry_opt") == Str("out")
    ensures var s := SentryStatus(values);
            s.reported == Some(Str("out")) && Setting(s.values, "sentry_opt") == Str("asked") && s.saves
    ensures forall k :: k != "sentry_opt" ==> Setting(SentryStatus(values).values, k) == Setting(values, k)
  {
  }

  /** Linked with any other value: it is reported as it is and nothing changes. */
  lemma StatusReportsOtherValues(values: map<string, Value>)
    requires Truthy(Setting(values, "auth_token")) && Setting(values, "sentry_opt") != Str("out")
    ensures SentryStatus(values) == StatusStep(values, Some(Setting(values, "sentry_opt")), false)
  {
  }

  /** Whatever the settings, the second of two status fetches in a row never reports `'out'`. */
  lemma SecondStatusNeverReportsOut(values: map<string, Value>)
    ensures SentryStatus(SentryStatus(values).values).reported != Some(Str("out"))
  {
  }

  /** A toggle never leaves `'asked'` behind. */
  lemma ToggleNeverAsked(sentryOpt: Value)
    ensures Toggled(sentryOpt) != Str("asked")
  {
  }

  /** Toggling twice restores the value exactly when it was `'in'` or `'out'`; from `'in'`
      in particular it comes back to `'in'`. */
  lemma ToggleTwice(sentryOpt: Value)
    ensures Toggled(Toggled(sentryOpt)) == sentryOpt <==> sentryOpt == Str("in") || sentryOpt == Str("out")
  {
  }

  /** The plugin's settings as the handler uses them: the values in memory and the values
      last written out. */
  class Settings {
    var values: map<string, Value>
    var saved: map<string, Value>

    constructor (values: map<string, Value>)
      ensures this.values == values && saved == values
    {
      this.values := values;
      saved := values;
    }

    function Get(key: string): Value
      reads this
    {
      Setting(values, key)
    }

    method Set(key: string, value: Value)
      modifies this
      ensures values == old(values)[key := value] && saved == old(saved)
    {
      values := values[key := value];
    }

    method Save()
      modifies this
      ensures saved == values && values == old(values)
    {
      saved := values;
    }

    /** `get_plugin_status`: the reply carries the alerts drained from the plugin's queue
        and, once linked, the opt-in value from before the fetch. */
    method GetPluginStatus(alerts: seq<Alert>) returns (results: StatusPayload)
      modifies this
      ensures results.alerts == alerts
      ensures var s := SentryStatus(old(values));
              values == s.values && results.sentryOpt == s.reported &&
              saved == if s.saves then values else old(saved)
    {
      results := StatusPayload(None, alerts);
      if Truthy(Get("auth_token")) {
        var sentryOpt := Get("sentry_opt");
        if sentryOpt == Str("out") {
          Set("sentry_opt", Str("asked"));
          Save();
        }
        results := results.(sentryOpt := Some(sentryOpt));
      }
    }

    /** `toggle_sentry_opt`: flip the opt-in value and save. */
    method ToggleSentryOpt()
      modifies this
      ensures values == old(values)["sentry_opt" := Toggled(old(Get("sentry_opt")))]
      ensures saved == values
    {
      Set("sentry_opt", if Get("sentry_opt") == Str("in") then Str("out") else Str("in"));
      Save();
    }
  }
}
