/**
 * What both copies of the worker loop get from outside: console input and
 * tool execution, both treated as oracles.
 */
module Runtime {
  import opened JsonValue

  /** What one `input()` call gives: a line, end of input (EOFError), or Ctrl+C (KeyboardInterrupt). */
  datatype Typed = Line(text: string) | EndOfInput | CtrlC

  /**
   * One `tool.execute(**params)`: the `str()` of its result or the text of
   * the exception it raised, and the working set the tool leaves behind.
   */
  datatype ToolRun =
    | Done(text: string, files: map<string, string>)
    | Threw(error: string, files: map<string, string>)

  /** The action names a registered tool (`tool_name and tool_name in self.tools`). */
  predicate Registered(tools: set<string>, name: Json) {
    Truthy(name) && name.JStr? && name.s in tools
  }

  /** The TypeError `x in dict` raises on an unhashable decoded value. */
  function Unhashable(v: Json): string {
    "unhashable type: '" + TypeName(v) + "'"
  }

  /** The text of the EOFError `input()` raises at end of input. */
  const EofMessage: string := "EOF when reading a line"
}
