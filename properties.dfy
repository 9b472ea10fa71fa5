/**
 * Safety and idempotency of the verbs, stated over several requests, and the
 * duplicate-id behaviour that follows from a counter that ignores the list.
 */
module Properties {
  import opened Wrappers
  import opened Decimal
  import opened Domain
  import opened Semantics

  lemma HrefInjective(a: string, b: string)
    ensures Href(a) == Href(b) <==> a == b
  {
    if Href(a) == Href(b) {
      assert a == Href(a)[|PersonPath|..] && b == Href(b)[|PersonPath|..];
    }
  }

  /**
   * POST is not idempotent: the same body posted twice is stored twice, under
   * ids one apart, and the two replies name different hrefs.
   */
  lemma CreateIsNotIdempotent(b: BookState, body: PersonRecord)
    ensures var s1 := Create(b, body);
      var s2 := Create(s1.book, body);
      |s2.book.people| == |b.people| + 2 &&
      s2.book.people[|b.people| + 1].id == s1.book.people[|b.people|].id + 1 &&
      s2.book.nextId == b.nextId + 2 &&
      s1.reply.status == s2.reply.status == Created &&
      s1.reply != s2.reply
  {
    IntToStringInjective(b.nextId, b.nextId + 1);
    HrefInjective(IntToString(b.nextId), IntToString(b.nextId + 1));
  }

  lemma {:induction false} CountIdConcat(a: seq<PersonRecord>, c: seq<PersonRecord>, id: int)
    ensures CountId(a + c, id) == CountId(a, id) + CountId(c, id)
  {
    if a == [] {
      assert a + c == c;
    } else {
      assert (a + c)[1..] == a[1..] + c;
      CountIdConcat(a[1..], c, id);
    }
  }

  /**
   * The counter never consults the list: when a person already holds the
   * counter's value, POST stores a second person with that same id.
   */
  lemma CreateCanDuplicateId(b: BookState, body: PersonRecord)
    requires HasId(b.people, b.nextId)
    ensures CountId(Create(b, body).book.people, b.nextId) == CountId(b.people, b.nextId) + 1 >= 2
  {
    var s := Create(b, body);
    assert s.book.people == b.people + [s.book.people[|b.people|]];
    CountIdConcat(b.people, [s.book.people[|b.people|]], b.nextId);
  }

  /**
   * A person created when no stored id equals the counter is what GET on its
   * href's last segment returns afterwards.
   */
  lemma FetchAfterCreate(b: BookState, body: PersonRecord)
    requires !HasId(b.people, b.nextId)
    ensures var s := Create(b, body);
      Fetch(s.book, IntToString(b.nextId)) == Reply(Ok, Some(s.book.people[|b.people|]))
  {
    var s := Create(b, body);
    var text := IntToString(b.nextId);
    var n := |b.people|;
    forall j | 0 <= j < n
      ensures IntToString(s.book.people[j].id) != text
    {
      assert s.book.people[j] == b.people[j];
      IntToStringInjective(s.book.people[j].id, b.nextId);
    }
    assert IsFirstTextMatch(s.book.people, text, n);
    var r := Fetch(s.book, text);
    var i :| IsFirstTextMatch(s.book.people, text, i) && r.body == Some(s.book.people[i]);
    FirstTextMatchUnique(s.book.people, text, i, n);
  }

  /**
   * GET on the canonical rendering of an id finds the same slot as PUT and
   * DELETE find for that id.
   */
  lemma {:induction false} CanonicalTextFindsSameSlot(rs: seq<PersonRecord>, k: int)
    ensures FirstTextIndex(rs, IntToString(k)) == FirstIndex(rs, k)
  {
    if rs != [] {
      IntToStringInjective(rs[0].id, k);
      CanonicalTextFindsSameSlot(rs[1..], k);
    }
  }

  /**
   * GET compares rendered ids with the path text, so a numeral with a leading
   * zero or an explicit sign matches no one, whatever the book holds.
   */
  lemma FetchMissesNonCanonicalText(b: BookState, text: string)
    requires DecimalValue(text).Some? && text != IntToString(DecimalValue(text).value)
    ensures Fetch(b, text) == Reply(NotFound, None)
  {
    NonCanonicalNeverRendered(text);
  }

  /**
   * PUT with a non-canonical numeral still replaces the person, but stores
   * the raw text in its href, so GET on that href then answers 404.
   */
  lemma NonCanonicalPutHrefDoesNotResolve(b: BookState, text: string, body: PersonRecord)
    requires ParseInt(text).Some? && text != IntToString(ParseInt(text).value)
    requires HasId(b.people, ParseInt(text).value)
    ensures var s := Replace(b, text, body);
      s.reply.status == Ok && s.reply.body.value.href == Some(Href(text)) &&
      Fetch(s.book, text).status == NotFound
  {
    NonCanonicalNeverRendered(text);
  }

  /**
   * On an empty book PUT and DELETE never parse the path text: any text, a
   * non-numeral included, gets 400 and 404 and the book is unchanged.
   */
  lemma EmptyBookNeverParses(nextId: int, text: string, body: PersonRecord)
    ensures var b := BookState([], nextId);
      Replace(b, text, body) == Step(b, Reply(BadRequest, None)) &&
      Delete(b, text) == Step(b, Reply(NotFound, None))
  {
  }

  /** PUT is idempotent: the second identical request changes nothing and gets the same reply. */
  lemma ReplaceIsIdempotent(b: BookState, text: string, body: PersonRecord)
    requires ParsedWhenScanned(b.people, text)
    ensures var s1 := Replace(b, text, body);
      Replace(s1.book, text, body) == s1
  {
    var s1 := Replace(b, text, body);
    if s1.reply.status == Ok {
      var id := ParseInt(text).value;
      var stored := Stored(body, id, text);
      var i :| IsFirstMatch(b.people, id, i) && s1.book.people == b.people[i := stored];
      assert IsFirstMatch(s1.book.people, id, i);
      var s2 := Replace(s1.book, text, body);
      var k :| IsFirstMatch(s1.book.people, id, k) && s2.book.people == s1.book.people[k := stored];
      FirstMatchUnique(s1.book.people, id, i, k);
      assert s2.book.people == s1.book.people;
    }
  }

  /** DELETE removes one holder of the id: the count of that id and the length each drop by one. */
  lemma DeleteRemovesOneHolder(b: BookState, text: string)
    requires ParseInt(text).Some?
    ensures var id := ParseInt(text).value;
      var s := Delete(b, text);
      if HasId(b.people, id) then
        CountId(s.book.people, id) == CountId(b.people, id) - 1 && |s.book.people| == |b.people| - 1
      else
        s.book == b
  {
    var id := ParseInt(text).value;
    var s := Delete(b, text);
    if HasId(b.people, id) {
      var ps := b.people;
      var i :| IsFirstMatch(ps, id, i) && s.book.people == ps[..i] + ps[i + 1..];
      assert ps == ps[..i] + [ps[i]] + ps[i + 1..];
      CountIdConcat(ps[..i] + [ps[i]], ps[i + 1..], id);
      CountIdConcat(ps[..i], [ps[i]], id);
      CountIdConcat(ps[..i], ps[i + 1..], id);
    }
  }

  /** `n` identical DELETE requests in a row: the final book and the statuses answered. */
  function DeleteRepeatedly(b: BookState, text: string, n: nat): (r: (BookState, seq<Status>))
    requires ParseInt(text).Some?
    ensures |r.1| == n
    decreases n
  {
    if n == 0 then (b, [])
    else
      var s := Delete(b, text);
      var rest := DeleteRepeatedly(s.book, text, n - 1);
      (rest.0, [s.reply.status] + rest.1)
  }

  /**
   * With k persons sharing an id, k DELETEs of it each answer 204 and the
   * next one answers 404; the list loses exactly those k persons.
   */
  lemma {:induction false} DuplicatesAreDeletedOneByOne(b: BookState, text: string, k: nat)
    requires ParseInt(text).Some? && CountId(b.people, ParseInt(text).value) == k
    ensures var r := DeleteRepeatedly(b, text, k + 1);
      r.1 == seq(k, _ => NoContent) + [NotFound] &&
      |r.0.people| == |b.people| - k && !HasId(r.0.people, ParseInt(text).value)
    decreases k
  {
    DeleteRemovesOneHolder(b, text);
    if k > 0 {
      var s := Delete(b, text);
      DuplicatesAreDeletedOneByOne(s.book, text, k - 1);
      assert seq(k, _ => NoContent) == [NoContent] + seq(k - 1, _ => NoContent);
    }
  }
}
