/** The alert severity levels shared by the health assessor and the alert
    store. The source keeps a severity as a string and compares strings; the
    store accepts any string (the test-alert route passes one through
    unchecked), so a non-standard value is kept by name. */
module Severities {

  datatype SeverityValue = Low | Medium | High | Critical | OtherSeverity(name: string)

  /** The four names the statistics count. */
  predicate IsStandardName(name: string) {
    name == "low" || name == "medium" || name == "high" || name == "critical"
  }

  /** A severity string: a standard name is always its level, never an
      `OtherSeverity`, so each string has exactly one representation. */
  type Severity = s: SeverityValue | !s.OtherSeverity? || !IsStandardName(s.name) witness Low

  /** True for the four levels that the statistics count. */
  predicate IsStandard(s: Severity) {
    !s.OtherSeverity?
  }

  /** The string the source stores. */
  function SeverityName(s: Severity): (name: string)
    ensures IsStandard(s) <==> IsStandardName(name)
  {
    match s
    case Low => "low"
    case Medium => "medium"
    case High => "high"
    case Critical => "critical"
    case OtherSeverity(name) => name
  }

  /** A severity string as it arrives from a caller. */
  function ParseSeverity(name: string): (s: Severity)
    ensures SeverityName(s) == name
    ensures IsStandard(s) <==> IsStandardName(name)
  {
    if name == "low" then Low
    else if name == "medium" then Medium
    else if name == "high" then High
    else if name == "critical" then Critical
    else OtherSeverity(name)
  }

  /** Comparing severities is comparing the source's strings: two severities
      are equal exactly when their names are. */
  lemma SeverityNameInjective(a: Severity, b: Severity)
    ensures SeverityName(a) == SeverityName(b) <==> a == b
  {
    if SeverityName(a) == SeverityName(b) {
      ParseOfName(a);
      ParseOfName(b);
    }
  }

  /** Parsing a severity's name gives back the severity. */
  lemma ParseOfName(s: Severity)
    ensures ParseSeverity(SeverityName(s)) == s
  {
  }
}
