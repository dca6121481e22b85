/**
 The plain in-memory view of a parsed Dockerfile that the rule checks read,
 and the findings they produce.
 */
module Model {

  /** One parsed directive: `keyword` is the parser's 'instruction' entry
      (FROM, USER, RUN, WORKDIR, ...), `value` its raw argument text. */
  datatype Instruction = Instruction(keyword: string, value: string)

  /** The three severities a check can emit. */
  datatype Severity = Info | Warn | Fail {

    /** The severity string the source writes into a finding. */
    function Label(): string
    {
      match this
      case Info => "INFO"
      case Warn => "WARN"
      case Fail => "FAIL"
    }
  }

  /** One reported issue. */
  datatype Finding = Finding(message: string, severity: Severity, suggestion: string) {

    /** The finding as the positional (message, severity, suggestion) triple of the source. */
    function Triple(): (string, string, string)
    {
      (message, severity.Label(), suggestion)
    }
  }

  /** Replacing the severity strings by an enumeration loses nothing: distinct
      findings have distinct triples, and every label is one of the three strings. */
  lemma TripleInjective(f: Finding, g: Finding)
    ensures f.Triple() == g.Triple() ==> f == g
    ensures f.Triple().1 in ["INFO", "WARN", "FAIL"]
  {
  }
}
