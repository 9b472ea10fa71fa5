# Address book REST store, modelled in Dafny

This project models the core of a small Spring REST service: an in-memory
address book, and the controller that handles the HTTP verbs on it. The book
holds an ordered list of `Person` objects and an id counter that starts at 1.
The controller has five handlers:

- `GET /contacts` returns the book.
- `POST /contacts` appends the posted person. It gives the person the
  counter's value as id and the href `/contacts/person/{id}`, advances the
  counter, and answers 201 with the href.
- `GET /contacts/person/{id}` returns the first person whose
  `Integer.toString(id)` equals the path text, else 404.
- `PUT /contacts/person/{id}` overwrites the first slot holding the parsed id,
  in place, and answers 200. If no slot holds it, the handler answers 400 and
  inserts nothing.
- `DELETE /contacts/person/{id}` removes the first slot holding the parsed id
  and answers 204. If no slot holds it, the handler answers 404.

The model has two layers:

- **Values.** Module `Semantics` gives each handler's effect on the book's
  value: a `BookState` made of the person records and the counter. Modules
  `Properties` and `Scenarios` prove facts that span several requests:
  - GET is safe, and PUT is idempotent.
  - POST is not idempotent.
  - The counter ignores the ids already in the list, so ids can repeat, and
    each duplicate takes one DELETE of its own.
  - The request sequences of five of the repository's service tests
    (createUser, createUsers, updateUsers, deleteUsers and findUsers) give
    the statuses and results those tests expect. The other two tests,
    serviceIsAlive and listUsers, send only `GET /contacts` and expect 200.
    For them the model shows only that `GetAddressBook` returns the book
    and changes nothing; it has no status.
- **Objects.** `Domain.Person`, `Store.AddressBook` and
  `Web.AddressBookController` are classes whose methods mutate fields in
  place, as the Java code does. `AddPerson`, `GetPerson`, `UpdatePerson` and
  `DeletePerson` are each proved to have exactly the effect `Semantics` gives
  for them. `GetAddressBook` has no counterpart in `Semantics`: it returns the
  book object itself and modifies nothing. `ServiceTest` replays the
  deleteUsers test on the objects themselves.

`Decimal` models `Integer.toString` and `Integer.parseInt`. GET matches the
path text against the rendered id. PUT and DELETE parse the text and compare
ints. So a path such as `01` or `+1` is never found by GET, but PUT and
DELETE still find id 1. PUT then stores the raw text in the href
(`/contacts/person/01`), and GET on that href answers 404
(`Properties.NonCanonicalPutHrefDoesNotResolve`).

Some of the controller's comments promise more than its code does. The model
follows the code:

- The comment on `addPerson` (AddressBookController.java:34-35) says it
  returns a JSON representation of the new entry. Line 42 returns only the
  href, with status 201.
- The comment on the path parameter (AddressBookController.java:48) calls the
  id the unique identifier of a person. Ids are not unique: the counter never
  looks at the list, so a book seeded by hand can end up holding the same id
  twice.
- PUT builds the href from the raw path text (AddressBookController.java:74),
  not from the parsed id.
- PUT and DELETE call `Integer.parseInt` only inside the loop
  (AddressBookController.java:71-72 and 90-91). On an empty book the text is
  never parsed, so any path text, `abc` included, gets 400 from PUT and 404
  from DELETE.

## Model

| member | source | states |
|---|---|---|
| Decimal.NatToString | src/main/java/rest/addressbook/web/AddressBookController.java:54 | the rendering is a non-empty digit string; its first digit is 0 only for 0, whose rendering is "0" |
| Decimal.IntToString | src/main/java/rest/addressbook/web/AddressBookController.java:54 | Integer.toString: the rendering is canonical: a '-' exactly for negative values, then a non-empty digit string with no leading zero except in "0", and never a '+' |
| Decimal.ParseInt | src/main/java/rest/addressbook/web/AddressBookController.java:72 | Integer.parseInt: it succeeds only on an optional sign followed by digits, with a value in the Java int range; otherwise None, where Java throws |
| Decimal.IntRoundTrip | src/main/java/rest/addressbook/web/AddressBookController.java:54 | reading the decimal rendering of any value gives that value back |
| Decimal.ParseIntRoundTrip | src/main/java/rest/addressbook/web/AddressBookController.java:72 | Integer.parseInt(Integer.toString(n)) == n for every Java int n |
| Decimal.IntToStringInjective | src/main/java/rest/addressbook/web/AddressBookController.java:54 | two ids render alike exactly when they are equal |
| Decimal.NonCanonicalNeverRendered | src/main/java/rest/addressbook/web/AddressBookController.java:54 | a numeral that is not its own value's canonical rendering ("01", "+1") is the rendering of no int |
| Domain.Person.constructor | src/main/java/rest/addressbook/domain/Person.java:12-16 | a fresh person has null name, email and href, id 0 and an empty, non-null phone list |
| Domain.Person.SetName | src/main/java/rest/addressbook/domain/Person.java:22-24 | only the name changes, and it then reads back as the value set |
| Domain.Person.SetId | src/main/java/rest/addressbook/domain/Person.java:30-32 | only the id changes, and it then reads back as the value set |
| Domain.Person.SetEmail | src/main/java/rest/addressbook/domain/Person.java:54-56 | only the email changes, and it then reads back as the value set |
| Domain.Person.SetHref | src/main/java/rest/addressbook/domain/Person.java:62-64 | only the href changes, and it then reads back as the value set |
| Domain.Person.AddPhone | src/main/java/rest/addressbook/domain/Person.java:34-36 | on a non-null phone list, the phone is appended at the tail; earlier phones and all other fields are unchanged |
| Domain.Person.SetPhoneList | src/main/java/rest/addressbook/domain/Person.java:42-44 | the phone list is replaced wholesale, null included; other fields are unchanged |
| Domain.Person.HasEmail | src/main/java/rest/addressbook/domain/Person.java:46-48 | true exactly when the email is not null |
| Store.AddressBook.constructor | src/test/java/rest/addressbook/AddressBookServiceTest.java:136-139 | a new book is empty and its counter starts at 1 |
| Store.AddressBook.NextId | src/test/java/rest/addressbook/AddressBookServiceTest.java:243 | returns the counter's value and advances it by exactly one; the list is untouched |
| Store.AddressBook.GetNextId | src/test/java/rest/addressbook/AddressBookServiceTest.java:246 | returns the counter's value and changes nothing |
| Semantics.FirstIndex | src/main/java/rest/addressbook/web/AddressBookController.java:71-72 | the PUT/DELETE scan: the result is the first slot holding the id; None exactly when no slot holds it |
| Semantics.FirstTextIndex | src/main/java/rest/addressbook/web/AddressBookController.java:53-54 | the GET scan: the result is the first slot whose rendered id equals the text; None exactly when there is none |
| Semantics.Create | src/main/java/rest/addressbook/web/AddressBookController.java:37-43 | the list grows by one, keeping the earlier entries; the new tail holds the body with the old counter as id and the matching href; the counter grows by 1; the reply is 201 with that href |
| Semantics.Fetch | src/main/java/rest/addressbook/web/AddressBookController.java:51-59 | 200 exactly when some rendered id equals the path text, with the first such person; otherwise 404 with no body |
| Semantics.Replace | src/main/java/rest/addressbook/web/AddressBookController.java:68-80 | defined for any text on an empty book and for parseable text otherwise; counter and length unchanged; 200 exactly when the text parses and some slot holds the parsed id; then only the first such slot is overwritten, by the body with that id and the href built from the path text; otherwise 400 and the book unchanged |
| Semantics.Delete | src/main/java/rest/addressbook/web/AddressBookController.java:88-97 | defined for any text on an empty book and for parseable text otherwise; counter unchanged, no body; 204 exactly when the text parses and some slot holds the parsed id, and then only the first such slot is removed and the others keep their order; otherwise 404 and the book unchanged |
| Web.AddressBookController.constructor | src/main/java/rest/addressbook/web/AddressBookController.java:17-18 | the controller works on the book it is given |
| Web.AddressBookController.GetAddressBook | src/main/java/rest/addressbook/web/AddressBookController.java:25-28 | returns the shared book itself and modifies nothing |
| Web.AddressBookController.AddPerson | src/main/java/rest/addressbook/web/AddressBookController.java:37-43 | the person object is appended to the list, and the new book value and the reply are exactly those of Semantics.Create |
| Web.AddressBookController.GetPerson | src/main/java/rest/addressbook/web/AddressBookController.java:51-59 | modifies nothing; the status is that of Semantics.Fetch, and the body is the stored object in the first slot whose rendered id equals the path text |
| Web.AddressBookController.UpdatePerson | src/main/java/rest/addressbook/web/AddressBookController.java:68-80 | the new book value and the reply are those of Semantics.Replace; the object list changes only at the first matching slot, which now holds the request's object; on a 400 the request's object is left as it was |
| Web.AddressBookController.DeletePerson | src/main/java/rest/addressbook/web/AddressBookController.java:88-97 | the new book value and the reply are those of Semantics.Delete; the object list loses only the first matching slot |
| Properties.CreateIsNotIdempotent | src/test/java/rest/addressbook/AddressBookServiceTest.java:103-122 | two identical POSTs store two persons, with ids one apart; the counter grows by 2, and the two 201 replies carry different hrefs |
| Properties.CreateCanDuplicateId | src/test/java/rest/addressbook/AddressBookServiceTest.java:397-400 | if a stored person already holds the counter's value, POST adds a second holder of that id |
| Properties.FetchAfterCreate | src/test/java/rest/addressbook/AddressBookServiceTest.java:89-96 | if no stored id equals the counter, GET on the new id's rendering returns the person just created |
| Properties.CanonicalTextFindsSameSlot | src/main/java/rest/addressbook/web/AddressBookController.java:53-72 | GET on the canonical rendering of an id finds the same slot that PUT and DELETE find for that id |
| Properties.FetchMissesNonCanonicalText | src/main/java/rest/addressbook/web/AddressBookController.java:54 | GET on a non-canonical numeral answers 404 whatever the book holds |
| Properties.NonCanonicalPutHrefDoesNotResolve | src/main/java/rest/addressbook/web/AddressBookController.java:72-75 | PUT on a non-canonical numeral whose value is stored succeeds and stores the raw text in the href; GET on that text then answers 404 |
| Properties.EmptyBookNeverParses | src/main/java/rest/addressbook/web/AddressBookController.java:71-97 | on an empty book, PUT answers 400 and DELETE 404 for any path text, a non-numeral included, and the book is unchanged |
| Properties.ReplaceIsIdempotent | src/test/java/rest/addressbook/AddressBookServiceTest.java:293-312 | repeating a PUT gives the same book and the same reply as doing it once |
| Properties.DeleteRemovesOneHolder | src/main/java/rest/addressbook/web/AddressBookController.java:90-96 | a successful DELETE lowers the number of holders of the id and the list length by one each; a failed DELETE leaves the book as it was |
| Properties.DuplicatesAreDeletedOneByOne | src/test/java/rest/addressbook/AddressBookServiceTest.java:362-395 | when k persons share an id, k DELETEs of it each answer 204, and the next one answers 404; the list loses exactly k persons and no holder of the id remains |
| Scenarios.CreateUserScenario | src/test/java/rest/addressbook/AddressBookServiceTest.java:65-131 | on an empty book, two POSTs of Juan get hrefs /contacts/person/1 and /contacts/person/2; GET 1 returns Juan with id 1 and href /contacts/person/1, and GET 2 returns Juan with id 2 and href /contacts/person/2 |
| Scenarios.CreateUsersScenario | src/test/java/rest/addressbook/AddressBookServiceTest.java:134-196 | with Salvador given id 1 by the counter, POSTs get ids 2 and 3, and GET 3 returns Maria |
| Scenarios.UpdateUsersScenario | src/test/java/rest/addressbook/AddressBookServiceTest.java:238-313 | PUT 2 replaces Juan with Maria under id 2, PUT 3 answers 400 and changes nothing, and a repeated PUT 2 gives the same book and reply |
| Scenarios.SeededIdsAreReallocated | src/test/java/rest/addressbook/AddressBookServiceTest.java:318-347 | with ids 1 and 2 placed by hand and the counter at 1, POSTs are given 1 and 2 again, so both ids are held twice |
| Scenarios.DeleteUsersScenario | src/test/java/rest/addressbook/AddressBookServiceTest.java:349-395 | after those POSTs, the test's six DELETEs answer 204, 204, 204, 404, 204, 404, and the list sizes are 3, 2, 1, 1, 0, 0 |
| Scenarios.FindUsersScenario | src/test/java/rest/addressbook/AddressBookServiceTest.java:404-443 | GET 1 and GET 2 return Salvador and Juan, and GET 3 answers 404 |
| ServiceTest.DeleteInTestOrder | src/test/java/rest/addressbook/AddressBookServiceTest.java:349-395 | on the controller and the book objects, the test's six DELETEs answer 204, 204, 204, 404, 204, 404, and the list sizes after them are 3, 2, 1, 1, 0, 0 |
| ServiceTest.DeleteUsers | src/test/java/rest/addressbook/AddressBookServiceTest.java:316-395 | the whole deleteUsers test on objects: seeding by hand, two POSTs, then the six DELETEs with those codes and sizes |
| ServiceTest.PostTwo | src/test/java/rest/addressbook/AddressBookServiceTest.java:329-347 | on the controller and the book objects, the two POSTs of the deleteUsers test answer with hrefs 1 and 2 |

## Left out

- The `AddressBook` class is not part of this model as source. Its list and counter come from how the controller and the tests use them. List access through `getPersonList()` is modelled as direct access to the `personList` field.
- The `PhoneNumber` class is not part of this model beyond its number and its type (home, work or mobile). Those are modelled as a value.
- Getters are not separate members. In Dafny the fields are read directly, and each setter's contract states what its getter then returns.
- Domain.Person.SetPhoneList: the model stores the phone list as a value. Java keeps the caller's list object, so later changes made through that object would show in the person. The model does not capture this.
- Web.AddressBookController.AddPerson: requires that the request body is not already in the list. Spring deserializes every request body into a new object. Aliasing between a body and a stored person is not modelled.
- Web.AddressBookController.UpdatePerson: requires that the body is not already in the list, for the same reason as AddPerson. It also requires that the path text parses as an int when the list is not empty. In that case `Integer.parseInt` throws a NumberFormatException, and that path is not modelled. On an empty list any text is accepted and answered with 400, as in the code.
- Web.AddressBookController.DeletePerson: requires that the path text parses as an int when the list is not empty. The NumberFormatException path is not modelled. On an empty list any text is accepted and answered with 404.
- Semantics.Replace, Semantics.Delete: the same requirement as the handlers: parseable text unless the book is empty.
- Domain.Person.AddPhone: requires a non-null phone list. After `setPhoneList(null)` the Java method throws a NullPointerException, and that path is not modelled.
- Decimal.ParseInt: accepts only ASCII digits. `Integer.parseInt` also accepts other Unicode decimal digits.
- Store.AddressBook.NextId: ids and the counter are unbounded integers. Wrap-around of the 32-bit counter after 2147483647 is not modelled.
- Concurrency is not modelled. The handlers do an unsynchronised counter read-then-increment and unsynchronised list mutation, and the model is single-threaded.
- Spring routing, annotations, dependency injection, JSON (de)serialisation, `ResponseEntity` and `java.net.URI` are not modelled. A response is a status plus an optional body, and an href is a string.
- The tests' Location-header and response-body checks target a Jersey service that is not part of this model. The scenarios check only what the Spring controller returns.
