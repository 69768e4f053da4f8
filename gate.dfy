/** `Gate`: renders its children only when `isAllowed` holds. */
module GateComponent {

  /** What a component returns: `null`, or a fragment around the given children. */
  datatype Rendered<T> = Nothing | Fragment(children: T)

  const LOG_LINE: string := "test"

  /**
   * The rendered output together with the console after the call; the
   * console line is written on both paths and is not part of the output.
   */
  function Gate<T>(isAllowed: bool, children: T, console: seq<string>): (r: (Rendered<T>, seq<string>))
    ensures r.0.Fragment? <==> isAllowed
    ensures r.0.Fragment? ==> r.0.children == children
    ensures r.1 == console + [LOG_LINE]
  {
    var console' := console + [LOG_LINE];
    if !isAllowed then (Nothing, console') else (Fragment(children), console')
  }

  /** The output depends on `isAllowed` and `children` only, not on what was logged before. */
  lemma GateIgnoresConsole<T>(isAllowed: bool, children: T, console1: seq<string>, console2: seq<string>)
    ensures Gate(isAllowed, children, console1).0 == Gate(isAllowed, children, console2).0
  {
  }
}
