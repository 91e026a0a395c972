/**
 * The Nostr entities the core reads: event kinds, authors, events, and the
 * current user's social graph. Events and authors are persisted objects in
 * the app; only the fields the core looks at are kept here.
 */
module NostrTypes {
  import opened Wrappers
  import opened Ordering

  /** Lower-case hexadecimal public keys and event ids. */
  type HexString = string

  /** An event category, identified by its integer raw value. */
  datatype EventKind = EventKind(rawValue: int)

  /** Kind 1984, the report kind of NIP-56. */
  const Report: EventKind := EventKind(1984)

  /** The order `kinds.sorted(by: { $0.rawValue > $1.rawValue })` sorts by. */
  predicate KindGreater(a: EventKind, b: EventKind) {
    a.rawValue > b.rawValue
  }

  /** Kinds are compared by raw value alone, which makes the order total. */
  lemma KindGreaterIsStrictTotalOrder()
    ensures IsStrictTotalOrder(KindGreater)
  {
  }

  /** An author; its public key may not be known yet. */
  datatype Author = Author(hexadecimalPublicKey: Option<HexString>)

  /** An event: its kind's raw value and its author, if loaded. */
  datatype Event = Event(kind: int, author: Option<Author>)

  /** `event.author?.hexadecimalPublicKey`: nil when either link is missing. */
  function AuthorKey(e: Event): (key: Option<HexString>)
    ensures key.None? <==> e.author.None? || e.author.value.hexadecimalPublicKey.None?
    ensures key.Some? ==> e.author == Some(Author(key))
  {
    match e.author
    case None => None
    case Some(a) => a.hexadecimalPublicKey
  }

  /** The current user's social graph, whose computation lies outside the
      core: `contains` says whether a key is in the user's network, `follows`
      whether the user follows the (possibly missing) key. */
  datatype SocialGraph = SocialGraph(
    contains: HexString -> bool,
    follows: Option<HexString> -> bool)
}
