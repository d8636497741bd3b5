/**
 * What a rule hands back to the framework: a description of a match, with the
 * severity of its rule, the node it is located at and its suggested fixes; and
 * the visitor state that collects the descriptions a rule reports as it walks.
 */
module Diagnostics {
  import opened Syntax

  datatype Severity = Warning | Error

  /** A suggested fix that replaces the whole source span of `target` by `replacement`. */
  datatype Fix = Replace(target: Node, replacement: string)

  datatype Description =
    | NoMatch
    | Match(checker: string, severity: Severity, message: string, at: Node, fixes: seq<Fix>)

  /** The reporting side of the visitor state: reportMatch appends to `reports`. */
  class VisitorState {
    var reports: seq<Description>

    constructor ()
      ensures reports == []
    {
      reports := [];
    }

    method ReportMatch(d: Description)
      modifies this
      ensures reports == old(reports) + [d]
    {
      reports := reports + [d];
    }
  }
}
