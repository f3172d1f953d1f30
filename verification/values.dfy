/** Values shared by the browser view model and the plugin's server-side command handler. */
module Values {

  datatype Option<+T> = None | Some(value: T)

  /** A scalar JSON value: what the browser keeps in local storage, what the plugin keeps
      in its settings, and what a status reply carries between the two. */
  datatype Value = Null | Bool(b: bool) | Num(n: int) | Str(s: string)

  /** Truthiness of a scalar; JavaScript's `if (v)` and Python's `if v:` agree on these. */
  predicate Truthy(v: Value)
  {
    match v
    case Null => false
    case Bool(b) => b
    case Num(n) => n != 0
    case Str(s) => s != ""
  }

  /** An alert raised by the plugin: the subsystem it concerns and its level, both free strings. */
  datatype Alert = Alert(cause: string, level: string)

  /** The part of the `get_plugin_status` reply that the model follows. `sentryOpt` is
      `None` when the reply has no `sentry_opt` entry at all. */
  datatype StatusPayload = StatusPayload(sentryOpt: Option<Value>, alerts: seq<Alert>)
}
