/**
 * The two ways the source writes the level filter over an optional allow-list:
 * `nil` enables every level, a list enables only its members (so an empty list enables none).
 */
module LevelFilter {
  import opened Optional

  /**
   * The single-expression form of Sources/Logger/LoggerCore.swift and Sources/Logger/Logger.swift:
   * membership through the optional (false when absent), or the list being absent.
   */
  function ContainsOrNil<L(==)>(levels: Option<seq<L>>, level: L): (r: bool)
    ensures r == GuardEnabled(levels, level)
  {
    (match levels
     case Some(ls) => level in ls
     case None => false)
    || levels == None
  }

  /**
   * The two-guard form of both BwLogger generations: an absent list enables, a list that does not
   * contain the level disables, anything else enables.
   */
  function GuardEnabled<L(==)>(levels: Option<seq<L>>, level: L): (r: bool)
    ensures levels.None? ==> r
    ensures levels.Some? ==> (r <==> level in levels.value)
  {
    match levels
    case None => true
    case Some(ls) => if level !in ls then false else true
  }

  /** `nil` lets every level through. */
  lemma NilEnablesAll<L>(level: L)
    ensures GuardEnabled(None, level) && ContainsOrNil(None, level)
  {
  }

  /** An explicit empty list blocks every level: it is not the same configuration as `nil`. */
  lemma EmptyDisablesAll<L>(level: L)
    ensures !GuardEnabled(Some([]), level) && !ContainsOrNil(Some([]), level)
  {
  }
}
