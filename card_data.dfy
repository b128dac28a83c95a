/**
 * Values exchanged by the deck pipeline: catalog cards as the card catalog
 * returns them, the projected deck cards, the commander record, the deck
 * document that is saved and queued, the HTTP replies the pipeline awaits,
 * and the errors it throws.
 */
module CardData {

  datatype Option<+T> = None | Some(value: T)

  /** A thrown JavaScript error. `Thrown` is an `Error` built with a message
      (by the service or by a collaborator: the HTTP client, the store);
      `TypeError` is the runtime's error for reading `property` of `undefined`. */
  datatype Error =
    | Thrown(message: string)
    | TypeError(property: string)

  /** The outcome of an awaited async operation: its value or what it threw. */
  datatype Result<+T> = Ok(value: T) | Err(error: Error)

  /** A card as the catalog returns it. Every field may be missing from the
      JSON (`None` is `undefined`). The source's `type` field is `cardType`
      here; `others` stands for every further field the catalog sends
      (text, rarity, set, ...), which the deck never keeps. */
  datatype CatalogCard = CatalogCard(
    name: Option<string>,
    imageUrl: Option<string>,
    manaCost: Option<string>,
    cardType: Option<string>,
    colors: Option<seq<string>>,
    others: map<string, string>)

  /** A deck entry: exactly the four fields copied from a catalog card. */
  datatype Card = Card(
    name: Option<string>,
    imageUrl: Option<string>,
    manaCost: Option<string>,
    cardType: Option<string>)

  /** The commander record: the four card fields and the player it belongs to. */
  datatype Commander = Commander(
    name: Option<string>,
    imageUrl: Option<string>,
    manaCost: Option<string>,
    cardType: Option<string>,
    playerId: string)

  /** The deck document that is saved and sent to the import queue. */
  datatype DeckRecord = DeckRecord(commander: Commander, deck: seq<Card>)

  /** The body of a catalog reply; `cards` may be missing. */
  datatype CardsBody = CardsBody(cards: Option<seq<CatalogCard>>)

  /** What awaiting an HTTP GET yields: the reply body, or the client's rejection. */
  datatype HttpReply = Reply(data: CardsBody) | Rejected(message: string)

  /** The four card fields of a commander record, without its player. */
  function CardOf(c: Commander): Card {
    Card(c.name, c.imageUrl, c.manaCost, c.cardType)
  }
}
