/**
 * The request sequences of the repository's service tests, replayed on the
 * book's value.
 */
module Scenarios {
  import opened Wrappers
  import opened Decimal
  import opened Domain
  import opened Semantics
  import opened Properties

  /** A new Person whose name alone has been set, as each test builds its bodies. */
  function Named(name: string): PersonRecord {
    PersonRecord(Some(name), 0, None, None, Some([]))
  }

  lemma SmallNumerals()
    ensures IntToString(1) == "1" && IntToString(2) == "2" && IntToString(3) == "3"
    ensures ParseInt("1") == Some(1) && ParseInt("2") == Some(2) && ParseInt("3") == Some(3)
    ensures Href("1") == "/contacts/person/1" && Href("2") == "/contacts/person/2"
    ensures Href("3") == "/contacts/person/3"
  {
  }

  /** Two identical POSTs on an empty book get ids 1 and 2; GET finds the first. */
  lemma CreateUserScenario()
    ensures var c1 := Create(BookState([], 1), Named("Juan"));
      var c2 := Create(c1.book, Named("Juan"));
      c1.reply == Reply(Created, Some("/contacts/person/1")) &&
      Fetch(c1.book, "1") == Reply(Ok, Some(Named("Juan").(id := 1, href := Some("/contacts/person/1")))) &&
      |c1.book.people| == 1 &&
      c2.reply == Reply(Created, Some("/contacts/person/2")) &&
      Fetch(c2.book, "2") == Reply(Ok, Some(Named("Juan").(id := 2, href := Some("/contacts/person/2"))))
  {
    SmallNumerals();
    var c1 := Create(BookState([], 1), Named("Juan"));
    FetchAfterCreate(BookState([], 1), Named("Juan"));
    FetchAfterCreate(c1.book, Named("Juan"));
  }

  /**
   * Salvador was given id 1 through the counter before the server started, so
   * the next POSTs get 2 and 3.
   */
  lemma CreateUsersScenario()
    ensures var b := BookState([Named("Salvador").(id := 1)], 2);
      var c1 := Create(b, Named("Juan"));
      var c2 := Create(c1.book, Named("Maria"));
      c1.reply == Reply(Created, Some("/contacts/person/2")) &&
      c2.reply == Reply(Created, Some("/contacts/person/3")) &&
      Fetch(c2.book, "3") == Reply(Ok, Some(Named("Maria").(id := 3, href := Some("/contacts/person/3")))) &&
      |c2.book.people| == 3
  {
    SmallNumerals();
    var b := BookState([Named("Salvador").(id := 1)], 2);
    var c1 := Create(b, Named("Juan"));
    assert !HasId(c1.book.people, 3);
    FetchAfterCreate(c1.book, Named("Maria"));
  }

  /**
   * Salvador got id 1 from the counter and Juan id 2 from reading it without
   * advancing it. PUT on 2 replaces Juan with Maria, PUT on 3 is refused, and
   * repeating the PUT on 2 gives the same book and reply.
   */
  lemma UpdateUsersScenario()
    ensures var b := BookState([Named("Salvador").(id := 1), Named("Juan").(id := 2)], 2);
      var maria := Named("Maria");
      var u1 := Replace(b, "2", maria);
      var expected := maria.(id := 2, href := Some("/contacts/person/2"));
      u1.reply == Reply(Ok, Some(expected)) &&
      Fetch(u1.book, "2") == Reply(Ok, Some(expected)) &&
      Replace(u1.book, "3", maria) == Step(u1.book, Reply(BadRequest, None)) &&
      |u1.book.people| == 2 &&
      Replace(u1.book, "2", maria) == u1
  {
    SmallNumerals();
    var b := BookState([Named("Salvador").(id := 1), Named("Juan").(id := 2)], 2);
    var maria := Named("Maria");
    var u1 := Replace(b, "2", maria);
    assert FirstIndex(b.people, 2) == Some(1);
    assert u1.book.people == [Named("Salvador").(id := 1), maria.(id := 2, href := Some("/contacts/person/2"))];
    assert FirstTextIndex(u1.book.people, "2") == Some(1);
    ReplaceIsIdempotent(b, "2", maria);
  }

  /** The deleteUsers test's book before the server starts: ids 1 and 2 placed by hand, counter still 1. */
  function HandSeeded(): BookState {
    BookState([Named("Salvador").(id := 1), Named("Juan").(id := 2)], 1)
  }

  /**
   * Salvador (1) and Juan (2) were placed by hand while the counter stayed at
   * 1, so POSTing Alba and Raúl gives them ids 1 and 2 again.
   */
  lemma SeededIdsAreReallocated()
    ensures var c1 := Create(HandSeeded(), Named("Alba"));
      var c2 := Create(c1.book, Named("Raúl"));
      c1.reply == Reply(Created, Some("/contacts/person/1")) &&
      c2.reply == Reply(Created, Some("/contacts/person/2")) &&
      CountId(c2.book.people, 1) == 2 && CountId(c2.book.people, 2) == 2
  {
    SmallNumerals();
    var c1 := Create(HandSeeded(), Named("Alba"));
    CreateCanDuplicateId(HandSeeded(), Named("Alba"));
    assert HasId(c1.book.people, 2) by {
      assert c1.book.people[1].id == 2;
    }
    CreateCanDuplicateId(c1.book, Named("Raúl"));
    var c2 := Create(c1.book, Named("Raúl"));
    assert c2.book.people == c1.book.people + [c2.book.people[3]];
    CountIdConcat(c1.book.people, [c2.book.people[3]], 1);
  }

  /** The deleteUsers test's book after its two POSTs. */
  function Reseeded(): BookState {
    Create(Create(HandSeeded(), Named("Alba")).book, Named("Raúl")).book
  }

  /**
   * After the two POSTs each id can be deleted twice before DELETE answers
   * 404: four successful deletes of only two distinct ids.
   */
  lemma DeleteUsersScenario()
    ensures var d1 := Delete(Reseeded(), "1");
      var d2 := Delete(d1.book, "2");
      var d3 := Delete(d2.book, "2");
      var d4 := Delete(d3.book, "2");
      var d5 := Delete(d4.book, "1");
      var d6 := Delete(d5.book, "1");
      d1.reply.status.Code() == 204 && |d1.book.people| == 3 &&
      d2.reply.status.Code() == 204 && |d2.book.people| == 2 &&
      d3.reply.status.Code() == 204 && |d3.book.people| == 1 &&
      d4.reply.status.Code() == 404 && |d4.book.people| == 1 &&
      d5.reply.status.Code() == 204 && |d5.book.people| == 0 &&
      d6.reply.status.Code() == 404 && |d6.book.people| == 0
  {
    SmallNumerals();
  }

  /** GET finds the persons with ids 1 and 2 and answers 404 for 3. */
  lemma FindUsersScenario()
    ensures var salvador := Named("Salvador").(id := 1);
      var juan := Named("Juan").(id := 2);
      var b := BookState([salvador, juan], 1);
      Fetch(b, "1") == Reply(Ok, Some(salvador)) &&
      Fetch(b, "2") == Reply(Ok, Some(juan)) &&
      Fetch(b, "3") == Reply(NotFound, None)
  {
    SmallNumerals();
    var b := BookState([Named("Salvador").(id := 1), Named("Juan").(id := 2)], 1);
    assert FirstTextIndex(b.people, "2") == Some(1);
  }
}
