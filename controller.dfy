/**
 * The REST controller: one method per handler, each scanning or mutating the
 * shared address book in place.
 */
module Web {
  import opened Wrappers
  import opened Decimal
  import opened Domain
  import opened Semantics
  import opened Store

  class AddressBookController {
    const addressBook: AddressBook

    constructor (addressBook: AddressBook)
      ensures this.addressBook == addressBook
    {
      this.addressBook := addressBook;
    }

    /** GET /contacts: the book itself; nothing is changed. */
    method GetAddressBook() returns (book: AddressBook)
      ensures book == addressBook
    {
      book := addressBook;
    }

    /**
     * POST /contacts. The request body is a freshly deserialized object, so
     * it is not already in the list.
     */
    method AddPerson(person: Person) returns (reply: Reply<string>)
      requires person !in addressBook.personList
      modifies addressBook, person
      ensures addressBook.personList == old(addressBook.personList) + [person]
      ensures Step(addressBook.State(), reply) == Create(old(addressBook.State()), old(person.Value()))
    {
      addressBook.personList := addressBook.personList + [person];
      var id := addressBook.NextId();
      person.SetId(id);
      person.SetHref(Some(Href(IntToString(person.id))));
      reply := Reply(Created, person.href);
      assert Snapshot(addressBook.personList) == old(Snapshot(addressBook.personList)) + [person.Value()];
    }

    /** GET /contacts/person/{id}: a read-only scan comparing rendered ids with the path text. */
    method GetPerson(id: string) returns (reply: Reply<Person>)
      ensures reply.status == Fetch(addressBook.State(), id).status
      ensures reply.body.Some? <==> reply.status == Ok
      ensures reply.body.Some? ==>
        exists i :: IsFirstTextMatch(addressBook.State().people, id, i) &&
          reply.body.value == addressBook.personList[i]
    {
      var i := 0;
      while i < |addressBook.personList|
        invariant 0 <= i <= |addressBook.personList|
        invariant forall j :: 0 <= j < i ==> IntToString(addressBook.personList[j].id) != id
      {
        var p := addressBook.personList[i];
        if IntToString(p.id) == id {
          reply := Reply(Ok, Some(p));
          assert IsFirstTextMatch(addressBook.State().people, id, i);
          return;
        }
        i := i + 1;
      }
      reply := Reply(NotFound, None);
    }

    /**
     * PUT /contacts/person/{id}. The path is parsed at each slot the scan
     * visits, so it must parse as an int unless the list is empty (the
     * NumberFormatException path is not modelled). The body is a freshly
     * deserialized object.
     */
    method UpdatePerson(id: string, person: Person) returns (reply: Reply<Person>)
      requires ParseInt(id).Some? || addressBook.personList == []
      requires person !in addressBook.personList
      modifies addressBook, person
      ensures var s := Replace(old(addressBook.State()), id, old(person.Value()));
        addressBook.State() == s.book && reply.status == s.reply.status &&
        if reply.status == Ok then reply.body == Some(person) && s.reply.body == Some(person.Value())
        else reply.body == None
      ensures reply.status != Ok ==> person.Value() == old(person.Value())
      ensures ParseInt(id).None? ==> addressBook.personList == old(addressBook.personList)
      ensures ParseInt(id).Some? ==>
        var slot := FirstIndex(old(addressBook.State()).people, ParseInt(id).value);
        addressBook.personList ==
          if slot.Some? then old(addressBook.personList)[slot.value := person] else old(addressBook.personList)
    {
      var i := 0;
      while i < |addressBook.personList|
        invariant 0 <= i <= |addressBook.personList|
        invariant unchanged(addressBook) && unchanged(person)
        invariant forall j :: 0 <= j < i ==>
          ParseInt(id).Some? && addressBook.personList[j].id != ParseInt(id).value
      {
        var target := ParseInt(id).value;
        if addressBook.personList[i].id == target {
          ghost var before := addressBook.State();
          assert IsFirstMatch(before.people, target, i);
          person.SetId(target);
          person.SetHref(Some(Href(id)));
          addressBook.personList := addressBook.personList[i := person];
          reply := Reply(Ok, Some(person));
          assert Snapshot(addressBook.personList) == before.people[i := person.Value()];
          return;
        }
        i := i + 1;
      }
      reply := Reply(BadRequest, None);
    }

    /**
     * DELETE /contacts/person/{id} (an overload of updatePerson in the
     * controller). As for PUT, the path must parse as an int unless the list
     * is empty.
     */
    method DeletePerson(id: string) returns (reply: Reply<()>)
      requires ParseInt(id).Some? || addressBook.personList == []
      modifies addressBook
      ensures var s := Delete(old(addressBook.State()), id);
        addressBook.State() == s.book && reply == s.reply
      ensures ParseInt(id).None? ==> addressBook.personList == old(addressBook.personList)
      ensures ParseInt(id).Some? ==>
        var slot := FirstIndex(old(addressBook.State()).people, ParseInt(id).value);
        addressBook.personList ==
          if slot.Some? then old(addressBook.personList[..slot.value] + addressBook.personList[slot.value + 1..])
          else old(addressBook.personList)
    {
      var i := 0;
      while i < |addressBook.personList|
        invariant 0 <= i <= |addressBook.personList|
        invariant unchanged(addressBook)
        invariant forall j :: 0 <= j < i ==>
          ParseInt(id).Some? && addressBook.personList[j].id != ParseInt(id).value
      {
        var target := ParseInt(id).value;
        if addressBook.personList[i].id == target {
          ghost var before := addressBook.State();
          assert IsFirstMatch(before.people, target, i);
          addressBook.personList := addressBook.personList[..i] + addressBook.personList[i + 1..];
          reply := Reply(NoContent, None);
          assert Snapshot(addressBook.personList) == before.people[..i] + before.people[i + 1..];
          return;
        }
        i := i + 1;
      }
      reply := Reply(NotFound, None);
    }
  }
}
