/** Exceptions, how a call completes, and the diagnostics the core hands to its reporters. */
module Errors {
  import opened JsValues
  import opened DiscordData

  /** The TypeErrors the JavaScript engine raises in the modelled code. */
  datatype TypeErrorCause =
    | PropertyOfNullish(key: string)  // reading (or destructuring) `key` of undefined or null
    | NotAFunction(name: string)      // calling a method the value does not have
    | ConstAssignment(name: string)   // assigning to a `const` binding

  datatype JsError =
    | Error(message: string)   // `new Error(message)`, thrown by the modelled code itself
    | TypeError(cause: TypeErrorCause)
    | SdkError(call: SdkCall)  // whatever the SDK throws when it rejects `call`

  /** How a JavaScript function call ends: it returns a value or throws past its caller's frame. */
  datatype Completion<+T> = Returned(value: T) | Threw(error: JsError)

  /** How one statement ends. */
  datatype Outcome = Normal | Raised(error: JsError)

  /** The outcome of making `call`: it throws exactly when the SDK rejects it. */
  function Attempt(rejects: SdkCall -> bool, call: SdkCall): Outcome {
    if rejects(call) then Raised(SdkError(call)) else Normal
  }

  /** `v.length > limit`: throws for undefined and null, compares the UTF-16 length of a string. */
  function LengthExceeds(v: JsValue, limit: nat): (r: Completion<bool>)
    ensures r.Threw? <==> v.IsNullish()
    ensures r.Threw? ==> r.error == TypeError(PropertyOfNullish("length"))
    ensures v.Str? ==> r == Returned(Utf16Length(v.s) > limit)
    ensures v.Arr? ==> r == Returned(|v.elems| > limit)
    ensures v.Bool? || v.Num? ==> r == Returned(false)
  {
    if v.IsNullish() then Threw(TypeError(PropertyOfNullish("length")))
    else Returned(GreaterThan(Prop(v, "length"), limit))
  }

  /** The context message of a diagnostic. `AddingRow(id)` is the template
      `Error adding row ${id} to modal`, kept unexpanded. */
  datatype Context = Text(text: string) | AddingRow(rowId: JsValue)

  /** One `logError(error, context)` call. */
  datatype Diagnostic = Diagnostic(error: JsError, context: Context)

  /** A line on the console: a `cLog` message, or the error a failing `logError` raised while
      reporting the diagnostic, printed by `console.error`. */
  datatype ConsoleLine = Printed(text: string) | ReportFailed(report: Diagnostic)

  /** What one call of the core leaves behind: the diagnostics it logged and the console lines
      it printed, in order, and how it ended. */
  datatype Run<+T> = Run(log: seq<Diagnostic>, console: seq<ConsoleLine>, outcome: Completion<T>)
}
