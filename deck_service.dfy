/**
 * The deck service: building a deck and saving and queueing it, and the
 * store operations keyed by commander name. The document store is a
 * sequence of deck documents in insertion order; a query by name takes the
 * first document whose commander has that name. What the import queue
 * received is read off the effects: the decks of their `Queued` entries.
 */
module DeckService {
  import opened CardData
  import opened PoolQuery
  import opened DeckAssembly

  const FindPrefix: string := "Erro ao buscar o deck: "
  const FindNotFound: string := "Deck não encontrado!"
  const UpdatePrefix: string := "Erro ao atualizar o deck: "
  const UpdateNotFound: string := "Deck não encontrado para atualização!"
  const DeletePrefix: string := "Erro ao excluir o deck: "
  const DeleteNotFound: string := "Deck não encontrado para exclusão!"
  const FindAllPrefix: string := "Erro ao buscar os decks: "

  /** The side effects of building a deck, in the order they happen. */
  datatype Effect =
    | Saved(deck: DeckRecord)     // the document was written to the store
    | Queued(deck: DeckRecord)    // the snapshot was sent to the import queue
    | SendFailed                  // sending threw (no channel) and was logged

  /** Whether a stored deck answers a query on `commander.name`. */
  predicate Named(d: DeckRecord, name: string) {
    d.commander.name == Some(name)
  }

  /** The position of the first deck named `name`, if there is one. */
  function FirstMatch(decks: seq<DeckRecord>, name: string): (r: Option<nat>)
    ensures r.Some? ==> r.value < |decks| && Named(decks[r.value], name)
    ensures r.Some? ==> forall j :: 0 <= j < r.value ==> !Named(decks[j], name)
    ensures r.None? <==> forall j :: 0 <= j < |decks| ==> !Named(decks[j], name)
  {
    if |decks| == 0 then None
    else if Named(decks[0], name) then Some(0)
    else match FirstMatch(decks[1..], name)
      case None => None
      case Some(i) => Some(i + 1)
  }

  /** How many stored decks are named `name`. */
  function CountNamed(decks: seq<DeckRecord>, name: string): nat {
    if |decks| == 0 then 0
    else (if Named(decks[0], name) then 1 else 0) + CountNamed(decks[1..], name)
  }

  lemma {:induction false} CountNamedAppend(a: seq<DeckRecord>, b: seq<DeckRecord>, name: string)
    ensures CountNamed(a + b, name) == CountNamed(a, name) + CountNamed(b, name)
  {
    if |a| == 0 {
      assert a + b == b;
    } else {
      CountNamedAppend(a[1..], b, name);
      assert (a + b)[1..] == a[1..] + b;
    }
  }

  lemma {:induction false} CountNamedNone(decks: seq<DeckRecord>, name: string)
    requires forall j :: 0 <= j < |decks| ==> !Named(decks[j], name)
    ensures CountNamed(decks, name) == 0
  {
    if |decks| > 0 {
      CountNamedNone(decks[1..], name);
    }
  }

  /** Deleting the first match removes exactly one deck with that name and
      keeps the others in order. */
  lemma DeleteFirstMatchRemovesOne(decks: seq<DeckRecord>, name: string)
    requires FirstMatch(decks, name).Some?
    ensures var i := FirstMatch(decks, name).value;
      CountNamed(decks[..i] + decks[i + 1..], name) == CountNamed(decks, name) - 1
  {
    var i := FirstMatch(decks, name).value;
    assert decks == decks[..i] + ([decks[i]] + decks[i + 1..]);
    CountNamedAppend(decks[..i], [decks[i]] + decks[i + 1..], name);
    CountNamedAppend([decks[i]], decks[i + 1..], name);
    CountNamedAppend(decks[..i], decks[i + 1..], name);
    CountNamedNone(decks[..i], name);
    assert CountNamed([decks[i]], name) == 1 by {
      assert [decks[i]][1..] == [];
    }
  }

  /** After a deck is added, a query by a name finds the deck added only when
      no earlier deck has that name; an earlier one wins otherwise. */
  lemma {:induction false} FirstMatchAfterCreate(decks: seq<DeckRecord>, d: DeckRecord, name: string)
    ensures FirstMatch(decks + [d], name) ==
      if FirstMatch(decks, name).Some? then FirstMatch(decks, name)
      else if Named(d, name) then Some(|decks|)
      else None
  {
    if |decks| > 0 {
      FirstMatchAfterCreate(decks[1..], d, name);
      assert (decks + [d])[1..] == decks[1..] + [d];
    }
  }

  /** A deck just created is what its commander's name finds, when it is the
      only deck of that name. */
  lemma FindAfterCreate(decks: seq<DeckRecord>, d: DeckRecord, name: string)
    requires Named(d, name)
    requires CountNamed(decks, name) == 0
    ensures FirstMatch(decks + [d], name) == Some(|decks|)
  {
    forall j | 0 <= j < |decks| ensures !Named(decks[j], name) {
      UncountedIsUnnamed(decks, name, j);
    }
    FirstMatchAfterCreate(decks, d, name);
  }

  lemma {:induction false} UncountedIsUnnamed(decks: seq<DeckRecord>, name: string, j: nat)
    requires j < |decks|
    ensures CountNamed(decks, name) == 0 ==> !Named(decks[j], name)
  {
    if j > 0 {
      UncountedIsUnnamed(decks[1..], name, j - 1);
    }
  }

  /** The service: the store's documents, whether the broker channel was
      opened at start-up, and the effects of deck building so far. */
  class DeckCompletoService {
    var store: seq<DeckRecord>
    var channelOpen: bool
    var effects: seq<Effect>

    /** Start-up: `channelOpened` is whether connecting to the broker and
        opening a channel succeeded (a failure is only logged). */
    constructor (initial: seq<DeckRecord>, channelOpened: bool)
      ensures store == initial && channelOpen == channelOpened
      ensures effects == []
    {
      store := initial;
      channelOpen := channelOpened;
      effects := [];
    }

    /** Send a deck snapshot to the import queue; without a channel the send
        throws, is logged and is swallowed. */
    method SendToQueue(d: DeckRecord)
      modifies this
      ensures store == old(store) && channelOpen == old(channelOpen)
      ensures effects == old(effects) + [if channelOpen then Queued(d) else SendFailed]
    {
      if channelOpen {
        effects := effects + [Queued(d)];
      } else {
        effects := effects + [SendFailed];
      }
    }

    /** Build the deck for the commander named `commanderName`, save it and
        queue it. `encode` is `encodeURIComponent`, `fetch` answers the HTTP
        GETs, `saveFault` is the store's failure on save, if any. A failure
        before the save leaves store and effects as they were; on
        success the deck returned is the deck saved and then sent to the
        queue, which records it only when the channel is open. */
    method GetCommanderAndDeck(
      commanderName: string, encode: string -> string,
      fetch: string -> HttpReply, saveFault: Option<string>)
      returns (r: Result<DeckRecord>)
      modifies this
      ensures channelOpen == old(channelOpen)
      ensures var built := BuildDeck(fetch(CommanderUrl(commanderName, encode)), fetch);
        if built.Err? || saveFault.Some? then
          && r == (if built.Err? then built else Err(Thrown(saveFault.value)))
          && store == old(store) && effects == old(effects)
        else
          && r == built
          && store == old(store) + [r.value]
          && effects == old(effects)
                        + [Saved(r.value), if channelOpen then Queued(r.value) else SendFailed]
    {
      var commanderReply := fetch(CommanderUrl(commanderName, encode));
      var selected := SelectCommander(commanderReply);
      if selected.Err? {
        return Err(selected.error);
      }
      var commander := selected.value;
      var deckUrl := PoolUrl(commander.colors);
      var pooled := PoolCards(fetch(deckUrl));
      if pooled.Err? {
        return Err(pooled.error);
      }
      var deckJson := Assemble(commander, pooled.value);
      if saveFault.Some? {
        return Err(Thrown(saveFault.value));
      }
      store := store + [deckJson];
      effects := effects + [Saved(deckJson)];
      SendToQueue(deckJson);
      return Ok(deckJson);
    }

    /** Every stored deck, or the store's failure under the listing prefix. */
    method GetAllDecks(fault: Option<string>) returns (r: Result<seq<DeckRecord>>)
      ensures fault.None? ==> r == Ok(store)
      ensures fault.Some? ==> r == Err(Thrown(FindAllPrefix + fault.value))
    {
      if fault.Some? {
        return Err(Thrown(FindAllPrefix + fault.value));
      }
      return Ok(store);
    }

    /** The first deck whose commander is named `name`; no match and store
        failures both fail under the lookup prefix. */
    method GetDeckByName(name: string, fault: Option<string>) returns (r: Result<DeckRecord>)
      ensures r.Ok? <==> fault.None? && exists j :: 0 <= j < |store| && Named(store[j], name)
      ensures r.Ok? ==> Named(r.value, name) && r.value in store
      ensures r.Ok? ==> forall j :: 0 <= j < |store| && Named(store[j], name) ==>
                          exists k :: 0 <= k <= j && store[k] == r.value
      ensures fault.Some? ==> r == Err(Thrown(FindPrefix + fault.value))
      ensures fault.None? && r.Err? ==> r == Err(Thrown(FindPrefix + FindNotFound))
    {
      if fault.Some? {
        return Err(Thrown(FindPrefix + fault.value));
      }
      var found := FirstMatch(store, name);
      if found.None? {
        return Err(Thrown(FindPrefix + FindNotFound));
      }
      return Ok(store[found.value]);
    }

    /** Replace the first deck named `name` by `merge` of it and return the
        new document; `merge` stands for the store's update of a document. */
    method UpdateDeckByName(
      name: string, merge: DeckRecord -> DeckRecord, fault: Option<string>)
      returns (r: Result<DeckRecord>)
      modifies this
      ensures channelOpen == old(channelOpen) && effects == old(effects)
      ensures fault.Some? ==> r == Err(Thrown(UpdatePrefix + fault.value)) && store == old(store)
      ensures fault.None? && FirstMatch(old(store), name).None? ==>
                r == Err(Thrown(UpdatePrefix + UpdateNotFound)) && store == old(store)
      ensures fault.None? && FirstMatch(old(store), name).Some? ==>
                var i := FirstMatch(old(store), name).value;
                && store == old(store)[i := merge(old(store)[i])]
                && r == Ok(store[i])
    {
      if fault.Some? {
        return Err(Thrown(UpdatePrefix + fault.value));
      }
      var found := FirstMatch(store, name);
      if found.None? {
        return Err(Thrown(UpdatePrefix + UpdateNotFound));
      }
      var i := found.value;
      store := store[i := merge(store[i])];
      return Ok(store[i]);
    }

    /** Remove the first deck named `name`. */
    method DeleteDeckByName(name: string, fault: Option<string>) returns (r: Result<()>)
      modifies this
      ensures channelOpen == old(channelOpen) && effects == old(effects)
      ensures fault.Some? ==> r == Err(Thrown(DeletePrefix + fault.value)) && store == old(store)
      ensures fault.None? && FirstMatch(old(store), name).None? ==>
                r == Err(Thrown(DeletePrefix + DeleteNotFound)) && store == old(store)
      ensures fault.None? && FirstMatch(old(store), name).Some? ==>
                var i := FirstMatch(old(store), name).value;
                && store == old(store)[..i] + old(store)[i + 1..]
                && r == Ok(())
    {
      if fault.Some? {
        return Err(Thrown(DeletePrefix + fault.value));
      }
      var found := FirstMatch(store, name);
      if found.None? {
        return Err(Thrown(DeletePrefix + DeleteNotFound));
      }
      var i := found.value;
      store := store[..i] + store[i + 1..];
      return Ok(());
    }
  }
}
