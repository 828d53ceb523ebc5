/** What crosses the tool-call boundary: the argument values a handler receives
    and the response it returns. */
module Protocol {

  /** One tool argument as read by `args?.<name> as string`. The cast checks
      nothing, so a caller may pass any JSON value:
      - `Missing`: the argument is absent, or JSON `null` (every handler treats the
        two alike);
      - `Str(s)`: a string;
      - `NonString(truthy, shown)`: a number, boolean, array or object, with its
        JavaScript truthiness and `String(value)`, which is also the property key
        it denotes when used to index an object. */
  datatype Arg = Missing | Str(s: string) | NonString(truthy: bool, shown: string)

  /** The `arguments` object of a call; an absent object has no entries. */
  type Args = map<string, Arg>

  /** `args?.<name>`. */
  function ArgOf(args: Args, name: string): (a: Arg)
    ensures name !in args ==> a == Missing
    ensures name in args ==> a == args[name]
  {
    if name in args then args[name] else Missing
  }

  /** JavaScript truthiness: the empty string, `undefined` and `null` are falsy. */
  predicate Truthy(a: Arg)
  {
    match a
    case Missing => false
    case Str(s) => s != ""
    case NonString(truthy, _) => truthy
  }

  /** `String(value)` of a present argument: how it prints in a template literal
      and which property key it denotes. */
  function Shown(a: Arg): string
    requires !a.Missing?
  {
    match a
    case Str(s) => s
    case NonString(_, shown) => shown
  }

  /** The result of a tool call: one text content item and the optional `isError`
      flag (`false` stands for an absent flag). */
  datatype Response = Response(text: string, isError: bool)

  /** A response without the error flag. */
  function TextResponse(text: string): (r: Response)
    ensures r.text == text && !r.isError
  {
    Response(text, false)
  }

  /** The message of the TypeError thrown when a string method is called on a
      value that has no such method. */
  function NotAFunction(callee: string): string
  {
    callee + " is not a function"
  }

  /** The message of the TypeError thrown when a property of `undefined` is read. */
  function CannotReadProperty(property: string): string
  {
    "Cannot read properties of undefined (reading '" + property + "')"
  }
}
