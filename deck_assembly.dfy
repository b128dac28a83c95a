/**
 * The pure steps of building a deck: taking the commander from the lookup
 * reply, taking the pool from the pool reply, projecting each pool card to
 * the four deck fields, and assembling the deck document with an unassigned
 * player.
 */
module DeckAssembly {
  import opened CardData
  import opened PoolQuery

  const CommanderNotFound: string := "Comandante não encontrado!"

  /** The four deck fields of a catalog card; every other field is dropped. */
  function Project(c: CatalogCard): Card {
    Card(c.name, c.imageUrl, c.manaCost, c.cardType)
  }

  /** The pool mapped to deck cards, one entry per pool card, in pool order. */
  function ProjectAll(pool: seq<CatalogCard>): (deck: seq<Card>)
    ensures |deck| == |pool|
    ensures forall i :: 0 <= i < |pool| ==>
              deck[i].name == pool[i].name && deck[i].imageUrl == pool[i].imageUrl
              && deck[i].manaCost == pool[i].manaCost && deck[i].cardType == pool[i].cardType
  {
    if |pool| == 0 then [] else [Project(pool[0])] + ProjectAll(pool[1..])
  }

  /** Projecting a concatenation projects each part in turn: the deck keeps
      the pool's order. */
  lemma ProjectAllAppend(a: seq<CatalogCard>, b: seq<CatalogCard>)
    ensures ProjectAll(a + b) == ProjectAll(a) + ProjectAll(b)
  {
  }

  /** The commander record of a catalog card: its deck fields, and no player yet. */
  function MakeCommander(c: CatalogCard): (r: Commander)
    ensures CardOf(r) == Project(c)
    ensures r.playerId == ""
  {
    Commander(c.name, c.imageUrl, c.manaCost, c.cardType, "")
  }

  /** The deck document for a commander and a pool. */
  function Assemble(commander: CatalogCard, pool: seq<CatalogCard>): DeckRecord {
    DeckRecord(MakeCommander(commander), ProjectAll(pool))
  }

  /** The commander taken from the lookup reply: the first card. Reading the
      first card of a reply without `cards` throws before the emptiness test;
      an empty list fails with the not-found message. */
  function SelectCommander(reply: HttpReply): (r: Result<CatalogCard>)
    ensures r.Ok? <==> reply.Reply? && reply.data.cards.Some? && |reply.data.cards.value| > 0
    ensures r.Ok? ==> r.value == reply.data.cards.value[0]
    ensures reply.Rejected? ==> r == Err(Thrown(reply.message))
    ensures reply.Reply? && reply.data.cards.None? ==> r == Err(TypeError("0"))
    ensures reply.Reply? ==>
              (r == Err(Thrown(CommanderNotFound)) <==> reply.data.cards == Some([]))
  {
    match reply
    case Rejected(message) => Err(Thrown(message))
    case Reply(body) =>
      match body.cards
      case None => Err(TypeError("0"))
      case Some(cards) =>
        if |cards| == 0 then Err(Thrown(CommanderNotFound)) else Ok(cards[0])
  }

  /** The pool taken from the pool reply; mapping over a missing `cards` throws. */
  function PoolCards(reply: HttpReply): (r: Result<seq<CatalogCard>>)
    ensures r.Ok? <==> reply.Reply? && reply.data.cards.Some?
    ensures r.Ok? ==> r.value == reply.data.cards.value
    ensures reply.Rejected? ==> r == Err(Thrown(reply.message))
    ensures reply.Reply? && reply.data.cards.None? ==> r == Err(TypeError("map"))
  {
    match reply
    case Rejected(message) => Err(Thrown(message))
    case Reply(body) =>
      match body.cards
      case None => Err(TypeError("map"))
      case Some(cards) => Ok(cards)
  }

  /** The deck built from the commander lookup reply, fetching the pool
      through `fetch` at the URL the commander's colours call for. */
  function BuildDeck(commanderReply: HttpReply, fetch: string -> HttpReply): Result<DeckRecord>
  {
    match SelectCommander(commanderReply)
    case Err(e) => Err(e)
    case Ok(commander) =>
      match PoolCards(fetch(PoolUrl(commander.colors)))
      case Err(e) => Err(e)
      case Ok(pool) => Ok(Assemble(commander, pool))
  }

  /** A deck is built exactly when the lookup finds a commander and the pool
      request for that commander's colours returns cards; then its commander
      copies the first match's four fields with no player, and its deck is
      the pool, card for card, reduced to the four fields. */
  lemma BuildDeckSucceeds(commanderReply: HttpReply, fetch: string -> HttpReply)
    ensures var r := BuildDeck(commanderReply, fetch);
      r.Ok? <==>
        && commanderReply.Reply? && commanderReply.data.cards.Some?
        && |commanderReply.data.cards.value| > 0
        && var poolReply := fetch(PoolUrl(commanderReply.data.cards.value[0].colors));
           poolReply.Reply? && poolReply.data.cards.Some?
    ensures var r := BuildDeck(commanderReply, fetch);
      r.Ok? ==>
        var first := commanderReply.data.cards.value[0];
        var pool := fetch(PoolUrl(first.colors)).data.cards.value;
        && r.value.commander.playerId == ""
        && r.value.commander.name == first.name
        && r.value.commander.imageUrl == first.imageUrl
        && r.value.commander.manaCost == first.manaCost
        && r.value.commander.cardType == first.cardType
        && r.value.deck == ProjectAll(pool)
        && |r.value.deck| == |pool|
  {
  }

  /** An empty lookup reply fails with the not-found message whatever the
      pool would have been: the pool is never consulted. */
  lemma CommanderNotFoundIgnoresPool(
    commanderReply: HttpReply, fetch1: string -> HttpReply, fetch2: string -> HttpReply)
    requires commanderReply.Reply? && commanderReply.data.cards == Some([])
    ensures BuildDeck(commanderReply, fetch1) == Err(Thrown(CommanderNotFound))
    ensures BuildDeck(commanderReply, fetch1) == BuildDeck(commanderReply, fetch2)
  {
  }

  /** Once the commander is found, any failure of the pool request is the
      result, unchanged. */
  lemma PoolFailureIsFinal(commanderReply: HttpReply, fetch: string -> HttpReply)
    requires SelectCommander(commanderReply).Ok?
    requires PoolCards(fetch(PoolUrl(SelectCommander(commanderReply).value.colors))).Err?
    ensures BuildDeck(commanderReply, fetch)
         == Err(PoolCards(fetch(PoolUrl(SelectCommander(commanderReply).value.colors))).error)
  {
  }

  /** Any failure of the lookup is the result, whatever the pool would have been. */
  lemma LookupFailureIsFinal(commanderReply: HttpReply, fetch: string -> HttpReply)
    requires SelectCommander(commanderReply).Err?
    ensures BuildDeck(commanderReply, fetch) == Err(SelectCommander(commanderReply).error)
  {
  }
}
