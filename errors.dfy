/** The exceptions raised by the configuration core and the result type that carries them
    (cppython_core/exceptions.py, plus the Python built-ins the validators raise). */
module Errors {

  /** One constructor per exception class. ConfigError, PluginError and NotSupportedError are the
      project's own records: each stores its message once and exposes it as `error`. TypeError,
      ValueError (which also stands for pydantic's ValidationError, a ValueError subclass) and
      NotImplementedError are the built-ins raised by the validators and the abstract plugin methods. */
  datatype Error =
    | ConfigError(error: string)
    | PluginError(error: string)
    | NotSupportedError(error: string)
    | TypeError(error: string)
    | ValueError(error: string)
    | NotImplementedError

  /** The text `str(e)` shows: the single constructor argument, or nothing when there is none. */
  function Display(e: Error): string
  {
    match e
    case NotImplementedError => ""
    case _ => e.error
  }

  /** Each of the project's error records keeps its message unchanged and passes it to the base
      exception, so the displayed text is the stored text. */
  lemma ErrorRecordsKeepMessage(m: string)
    ensures ConfigError(m).error == m && Display(ConfigError(m)) == m
    ensures PluginError(m).error == m && Display(PluginError(m)) == m
    ensures NotSupportedError(m).error == m && Display(NotSupportedError(m)) == m
  {
  }

  datatype Option<+T> = None | Some(value: T)

  /** A value, or the exception the source would raise instead. */
  datatype Result<+T> = Ok(value: T) | Err(error: Error) {
    predicate IsFailure() { Err? }

    function PropagateFailure<U>(): Result<U>
      requires Err?
    {
      Err(error)
    }

    function Extract(): T
      requires Ok?
    {
      value
    }
  }
}
