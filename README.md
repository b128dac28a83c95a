# Deck pipeline model

A Dafny model of the deck service of the `deckCompleto` component: given a
commander's name it looks the commander up in the Magic: The Gathering card
catalog, fetches a pool of up to 99 cards filtered by the commander's colours,
assembles a deck document (the commander with an unassigned player, and the
pool reduced to name, image URL, mana cost and type), saves it to the document
store and sends it to the `deck_import_queue`. Beside that pipeline the service
lists, finds, updates and deletes decks by commander name, wrapping every
failure in an operation-specific message.

Files and modules:

- `card_data.dfy` (`CardData`): catalog cards with optional fields, deck
  cards, the commander record, the deck document, HTTP replies, errors.
- `pool_query.dfy` (`PoolQuery`): the commander lookup URL, the pool URL,
  `Join` (JavaScript's `join`) and its inverse `Split`, and a reader that
  recovers the colour filter from a pool URL.
- `deck_assembly.dfy` (`DeckAssembly`): choosing the commander, taking the
  pool, projecting cards, assembling the deck (`BuildDeck`), all pure.
- `deck_service.dfy` (`DeckService`): the class `DeckCompletoService` whose
  state is the store's documents, whether the broker channel is open, and
  the sequence of effects (save, queue, failed send), whose `Queued` entries
  are what the import queue received, with the pipeline and the by-name
  operations as methods.

The HTTP client is a parameter `fetch: string -> HttpReply` (a reply body or a
rejection), `encodeURIComponent` a parameter `encode: string -> string`, and a
store failure an `Option<string>` input carrying its message. The store is a
sequence of documents in insertion order; a query on `commander.name` takes
the first document with that name, and nothing makes names unique, so after a
create a lookup by the same name returns the new deck only when no earlier
deck has that name (`FirstMatchAfterCreate`). A reply without `cards` fails
with a `TypeError` when the first card is read, before the "not found" test,
as the code orders it. The source's `type` field is called `cardType`, since
`type` is a Dafny keyword.

## Model

| member | source | states |
|---|---|---|
| PoolQuery.CommanderUrl | src/deckCompleto/deckcompleto.service.ts:56 | the lookup URL is the cards endpoint with `?name=` followed by the encoded commander name |
| PoolQuery.PoolUrlShape | src/deckCompleto/deckcompleto.service.ts:65-71 | the pool URL filters by colour exactly when the commander's `colors` is present and non-empty, is the unfiltered `?pageSize=99` URL otherwise, and always ends in `pageSize=99` |
| PoolQuery.PoolUrlRequestsCommanderColors | src/deckCompleto/deckcompleto.service.ts:66-68 | the colour list read back from the pool URL is the commander's colours in their original order, and empty when it has none |
| PoolQuery.SplitJoin | src/deckCompleto/deckcompleto.service.ts:67 | joining comma-free colour codes with `,` loses nothing: splitting the join gives them back |
| PoolQuery.FourColorPoolUrl | src/deckCompleto/deckcompleto.service.ts:66-68 | colours W, U, B, G give the filtered pool URL with `colors=W,U,B,G` between the filter prefix and `&pageSize=99` |
| DeckAssembly.SelectCommander | src/deckCompleto/deckcompleto.service.ts:58-63 | the commander is the first card of the lookup reply; an empty list fails with `Comandante não encontrado!`; a reply without `cards` fails reading the first card; a rejected request fails with its own error |
| DeckAssembly.PoolCards | src/deckCompleto/deckcompleto.service.ts:73-74 | the pool is the reply's `cards`; a reply without `cards` fails on `map`; a rejected request fails with its own error |
| DeckAssembly.ProjectAll | src/deckCompleto/deckcompleto.service.ts:74-79 | the deck has one entry per pool card, in order, each carrying exactly that card's name, image URL, mana cost and type |
| DeckAssembly.ProjectAllAppend | src/deckCompleto/deckcompleto.service.ts:74-79 | projection distributes over concatenation, so the pool's order is the deck's order |
| DeckAssembly.MakeCommander | src/deckCompleto/deckcompleto.service.ts:81-88 | the commander record has the four deck fields of the catalog card and an empty `playerId` |
| DeckAssembly.BuildDeckSucceeds | src/deckCompleto/deckcompleto.service.ts:59-90 | a deck is built exactly when the lookup finds a commander and the pool request for its colours returns cards; its commander copies the first match with `playerId == ""` and its deck is the projected pool |
| DeckAssembly.CommanderNotFoundIgnoresPool | src/deckCompleto/deckcompleto.service.ts:59-63 | an empty lookup reply fails with `Comandante não encontrado!` whatever the pool request would return |
| DeckAssembly.PoolFailureIsFinal | src/deckCompleto/deckcompleto.service.ts:73-74 | once the commander is found, a failed pool request (its rejection, or the `TypeError` on `map` of a reply without `cards`) is the pipeline's failure, unchanged |
| DeckAssembly.LookupFailureIsFinal | src/deckCompleto/deckcompleto.service.ts:58-63 | any failure of the lookup is the pipeline's failure, unchanged |
| DeckService.FirstMatch | src/deckCompleto/deckcompleto.service.ts:103 | a query on `commander.name` yields the first document with that name, and nothing only when no document has it |
| DeckService.FirstMatchAfterCreate | src/deckCompleto/deckcompleto.service.ts:92-103 | after a deck is saved, a lookup by name finds an earlier deck of that name if there is one, else the new deck if it has that name |
| DeckService.FindAfterCreate | src/deckCompleto/deckcompleto.service.ts:92-103 | a saved deck whose commander name no other deck has is what a lookup by that name finds |
| DeckService.DeleteFirstMatchRemovesOne | src/deckCompleto/deckcompleto.service.ts:127 | deleting the first match leaves one deck fewer with that name |
| DeckService.DeckCompletoService.constructor | src/deckCompleto/deckcompleto.service.ts:13-30 | start-up records whether a broker channel was opened; a failure to open it is not an error |
| DeckService.DeckCompletoService.SendToQueue | src/deckCompleto/deckcompleto.service.ts:33-41 | with a channel a `Queued` effect records the snapshot; without one the send fails, is swallowed and recorded as `SendFailed`, and nothing else changes |
| DeckService.DeckCompletoService.GetCommanderAndDeck | src/deckCompleto/deckcompleto.service.ts:55-99 | the result is `BuildDeck` of the replies; a build or save failure is returned with store and effects unchanged; on success the returned deck is appended to the store, then sent to the queue, which records it only when the channel is open |
| DeckService.DeckCompletoService.GetAllDecks | src/deckCompleto/deckcompleto.service.ts:45-52 | every stored deck, or the store's failure prefixed with `Erro ao buscar os decks: ` |
| DeckService.DeckCompletoService.GetDeckByName | src/deckCompleto/deckcompleto.service.ts:101-111 | succeeds exactly when the store works and some deck has the name, returning the earliest such deck; otherwise fails with `Erro ao buscar o deck: ` followed by `Deck não encontrado!` or the store's message |
| DeckService.DeckCompletoService.UpdateDeckByName | src/deckCompleto/deckcompleto.service.ts:112-122 | replaces only the first deck with the name by its updated form and returns that form; otherwise fails with `Erro ao atualizar o deck: ` followed by `Deck não encontrado para atualização!` or the store's message, store unchanged |
| DeckService.DeckCompletoService.DeleteDeckByName | src/deckCompleto/deckcompleto.service.ts:125-134 | removes only the first deck with the name, keeping the others in order; otherwise fails with `Erro ao excluir o deck: ` followed by `Deck não encontrado para exclusão!` or the store's message, store unchanged |

## Left out

- HTTP requests, their timing and their payload parsing: replies are inputs through `fetch`; a reply body other than an object with an optional `cards` list is not modelled.
- `encodeURIComponent` is an uninterpreted parameter, not the percent-encoding itself.
- The broker connection, channel creation and queue declaration are one boolean fixed at construction; that start-up runs unawaited (so an early request may find no channel) and that the queue declaration can fail after the channel opened are not distinguished.
- The queue message is the deck value; its JSON serialisation (which drops missing fields), the persistent flag and the durable declaration are not modelled.
- Document store internals: generated ids, schema casting, query semantics beyond the first match on `commander.name`, and the merge performed by the update, which is the parameter `merge`.
- A store failure is modelled as happening before any change; a write that fails after taking effect is not.
- Catalog fields other than name, image URL, mana cost, type and colours are a string map; nested values are not modelled.
- Logging, the import worker in `deck_importer.ts` (a passthrough on a different queue system) and the module wiring in `deckcompleto.module.ts`.
- Concurrent requests sharing the store and the channel.
- PoolQuery.PoolUrlRequestsCommanderColors: reads the colour filter back only when no colour code contains a comma, since a comma inside a code cannot be told apart from the separator.
