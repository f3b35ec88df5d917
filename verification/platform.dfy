/**
  Stand-ins for the Java platform pieces the handler calls but does not own:
  java.util.regex (abstracted to "which sources compile" and "full match")
  and java.util.concurrent.atomic.AtomicBoolean.
 */
module Platform {
  import opened Wrappers

  /** The regular-expression library, left uninterpreted: whether a source
      string compiles, and whether a compiled source matches a whole input. */
  datatype Regex = Regex(compiles: string -> bool, fullMatch: (string, string) -> bool)

  /** A compiled pattern remembers the source it was compiled from. */
  datatype Pattern = Pattern(source: string)

  /** What Pattern.compile throws: a NullPointerException for a null source,
      a PatternSyntaxException for a malformed one. */
  datatype PatternFault = NullPattern | PatternSyntax(source: string)

  /** Pattern.compile */
  function Compile(regex: Regex, source: Option<string>): (r: Result<Pattern, PatternFault>)
    ensures r.Success? <==> source.Some? && regex.compiles(source.value)
    ensures r.Success? ==> r.value.source == source.value
    ensures source.None? ==> r == Failure(NullPattern)
    ensures source.Some? && r.Failure? ==> r == Failure(PatternSyntax(source.value))
  {
    match source
    case None => Failure(NullPattern)
    case Some(src) => if regex.compiles(src) then Success(Pattern(src)) else Failure(PatternSyntax(src))
  }

  /** pattern.matcher(path).matches(): the whole path must match, not a substring. */
  predicate Matches(regex: Regex, pattern: Pattern, path: string)
  {
    regex.fullMatch(pattern.source, path)
  }

  /** A JMX notification as the listener sees it: the string form of its
      source and its type. */
  datatype Notification = Notification(source: string, kind: string)

  /** A boolean cell shared by reference; get and set only. */
  class AtomicBoolean {
    var value: bool

    constructor (initial: bool)
      ensures value == initial
    {
      value := initial;
    }

    function Get(): bool
      reads this
    {
      value
    }

    method Set(newValue: bool)
      modifies this
      ensures value == newValue
    {
      value := newValue;
    }
  }
}
