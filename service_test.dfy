/**
 * The deleteUsers service test replayed on the objects themselves: a book
 * seeded by hand, a controller over it, and the requests in the test's order.
 */
module ServiceTest {
  import opened Wrappers
  import opened Decimal
  import opened Domain
  import opened Semantics
  import opened Store
  import opened Web
  import opened Scenarios

  /** A new Person whose name alone has been set. */
  method NewNamed(name: string) returns (p: Person)
    ensures fresh(p) && p.Value() == Named(name)
  {
    p := new Person();
    p.SetName(Some(name));
  }

  /** Salvador and Juan added to the list by hand, bypassing the counter. */
  method SeedByHand() returns (ab: AddressBook)
    ensures fresh(ab) && ab.State() == HandSeeded()
  {
    ab := new AddressBook();
    var salvador := NewNamed("Salvador");
    salvador.SetId(1);
    var juan := NewNamed("Juan");
    juan.SetId(2);
    ab.personList := ab.personList + [salvador];
    ab.personList := ab.personList + [juan];
  }

  /** POST Alba, then POST Raúl. */
  method PostTwo(controller: AddressBookController) returns (first: Reply<string>, second: Reply<string>)
    requires controller.addressBook.State() == HandSeeded()
    modifies controller.addressBook
    ensures controller.addressBook.State() == Reseeded()
    ensures first == Reply(Created, Some("/contacts/person/1"))
    ensures second == Reply(Created, Some("/contacts/person/2"))
  {
    SeededIdsAreReallocated();
    var alba := NewNamed("Alba");
    first := controller.AddPerson(alba);
    var raul := NewNamed("Raúl");
    second := controller.AddPerson(raul);
  }

  /** One DELETE: the status code answered and the list size after it. */
  method DeleteAndRecord(controller: AddressBookController, id: string) returns (code: int, size: nat)
    requires ParseInt(id).Some? || controller.addressBook.personList == []
    modifies controller.addressBook
    ensures var s := Delete(old(controller.addressBook.State()), id);
      controller.addressBook.State() == s.book && code == s.reply.status.Code() && size == |s.book.people|
  {
    var deleted := controller.DeletePerson(id);
    code, size := deleted.status.Code(), |controller.addressBook.personList|;
  }

  /** The six DELETEs of the test: the status code of each and the list size after it. */
  method DeleteInTestOrder(controller: AddressBookController) returns (codes: seq<int>, sizes: seq<nat>)
    requires controller.addressBook.State() == Reseeded()
    modifies controller.addressBook
    ensures codes == [204, 204, 204, 404, 204, 404]
    ensures sizes == [3, 2, 1, 1, 0, 0]
  {
    SmallNumerals();
    DeleteUsersScenario();
    var c1, n1 := DeleteAndRecord(controller, "1");
    var c2, n2 := DeleteAndRecord(controller, "2");
    var c3, n3 := DeleteAndRecord(controller, "2");
    var c4, n4 := DeleteAndRecord(controller, "2");
    var c5, n5 := DeleteAndRecord(controller, "1");
    var c6, n6 := DeleteAndRecord(controller, "1");
    codes, sizes := [c1, c2, c3, c4, c5, c6], [n1, n2, n3, n4, n5, n6];
  }

  /** The deleteUsers test: seed by hand, POST twice, then the six DELETEs. */
  method DeleteUsers() returns (codes: seq<int>, sizes: seq<nat>)
    ensures codes == [204, 204, 204, 404, 204, 404]
    ensures sizes == [3, 2, 1, 1, 0, 0]
  {
    var ab := SeedByHand();
    var controller := new AddressBookController(ab);
    var first, second := PostTwo(controller);
    codes, sizes := DeleteInTestOrder(controller);
  }
}
