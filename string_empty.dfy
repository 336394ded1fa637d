/**
 * The emptiness helpers on `String` and `Optional<String>`.
 * Sources/BwTips/String+Empty.swift (public) and Sources/BwLogger/Extension/String+Empty.swift
 * (module-private, behind LOGGER_PRIVATE_EXTENSION_ENABLED) carry the same three definitions;
 * both are modelled by the members below.
 */
module StringEmpty {
  import opened Optional

  /** `String.isNotEmpty`: the negation of `isEmpty`. */
  function IsNotEmpty(s: string): (r: bool)
    ensures r <==> |s| > 0
  {
    !(s == [])
  }

  /** `Optional<String>.isEmpty`: a switch on the optional. */
  function OptionalIsEmpty(o: Option<string>): (r: bool)
    ensures r <==> !OptionalIsNotEmpty(o)
    ensures o.Some? ==> (r <==> !IsNotEmpty(o.value))
  {
    match o
    case Some(str) => str == []
    case None => true
  }

  /** `Optional<String>.isNotEmpty`: its own switch, not written as a negation. */
  function OptionalIsNotEmpty(o: Option<string>): (r: bool)
    ensures r ==> o.Some? && IsNotEmpty(o.value)
  {
    match o
    case Some(str) => !(str == [])
    case None => false
  }

  /** A missing string is empty and not non-empty. */
  lemma NoneIsEmpty()
    ensures OptionalIsEmpty(None) && !OptionalIsNotEmpty(None)
  {
  }

  /** A present string is empty exactly when the wrapped string is. */
  lemma SomeFollowsWrapped(s: string)
    ensures OptionalIsEmpty(Some(s)) <==> s == []
    ensures OptionalIsNotEmpty(Some(s)) <==> IsNotEmpty(s)
  {
  }
}
