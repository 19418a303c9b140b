/** The tools the chat route executes itself on behalf of the page (`executeClientTool`). */
module ClientTools {
  import opened Wrappers

  /**
   * Parsed tool arguments: `null`, or any other value, of which only `section` is read
   * (`None` when it is absent).
   */
  datatype Args = NullArgs | Args(section: Option<string>)

  /** What a client tool reports back to the model. */
  datatype ToolResult =
    | Scrolled(section: Option<string>)    // { success: true, section }
    | Failure(error: string)               // { error }

  /** What the page is asked to do. */
  datatype ClientAction = Scroll(section: Option<string>)   // { type: "scroll", section }

  datatype Execution = Execution(result: ToolResult, clientAction: Option<ClientAction>)

  const UnknownTool := "Unknown tool"

  /**
   * Only `scroll_to` is known: it succeeds and asks the page to scroll to the section it
   * was given, and throws (`None`) when its arguments are `null`; every other name fails
   * with "Unknown tool" and asks the page for nothing.
   */
  function ExecuteClientTool(name: string, args: Args): (r: Option<Execution>)
    ensures r.None? <==> name == "scroll_to" && args.NullArgs?
    ensures r.Some? ==> (r.value.clientAction.Some? <==> name == "scroll_to")
    ensures r.Some? && r.value.clientAction.Some? ==>
      && args.Args?
      && r.value.clientAction.value.section == args.section
      && r.value.result == Scrolled(args.section)
    ensures r.Some? && r.value.clientAction.None? ==> r.value.result == Failure(UnknownTool)
  {
    match name
    case "scroll_to" =>
      (match args
       case NullArgs => None
       case Args(section) => Some(Execution(Scrolled(section), Some(Scroll(section)))))
    case _ => Some(Execution(Failure(UnknownTool), None))
  }
}
