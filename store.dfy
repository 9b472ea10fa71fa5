/**
 * The address book: an ordered list of person references and an id counter
 * that the controller shares with whoever built it.
 */
module Store {
  import opened Domain
  import opened Semantics

  class AddressBook {
    var personList: seq<Person>
    var nextId: int

    /** An empty book whose counter starts at 1. */
    constructor ()
      ensures personList == [] && nextId == 1
      ensures State() == BookState([], 1)
    {
      personList, nextId := [], 1;
    }

    /** The book's value: the records of its persons, in order, and the counter. */
    function State(): BookState
      reads this, personList
    {
      BookState(Snapshot(personList), nextId)
    }

    /**
     * Hands out the counter's value and advances it. It never looks at the
     * ids already in the list.
     */
    method NextId() returns (id: int)
      modifies this`nextId
      ensures id == old(nextId) && nextId == old(nextId) + 1
    {
      id := nextId;
      nextId := nextId + 1;
    }

    /** Reads the counter without advancing it. */
    method GetNextId() returns (id: int)
      ensures id == nextId
    {
      id := nextId;
    }
  }
}
