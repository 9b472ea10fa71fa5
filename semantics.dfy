/**
 * What each handler of the address-book controller does to the book's value:
 * the list of person records and the id counter. The controller methods in
 * module Web are proved to have exactly these effects.
 */
module Semantics {
  import opened Wrappers
  import opened Decimal
  import opened Domain

  /** The HTTP statuses the controller answers with. */
  datatype Status = Ok | Created | NoContent | BadRequest | NotFound {
    function Code(): int {
      match this
      case Ok => 200
      case Created => 201
      case NoContent => 204
      case BadRequest => 400
      case NotFound => 404
    }
  }

  /** A response: a status and, for some handlers, a body. */
  datatype Reply<T> = Reply(status: Status, body: Option<T>)

  /** The address book's value: its ordered person list and its id counter. */
  datatype BookState = BookState(people: seq<PersonRecord>, nextId: int)

  /** The book after a request, with the reply to it. */
  datatype Step<T> = Step(book: BookState, reply: Reply<T>)

  const PersonPath: string := "/contacts/person/"

  /** The reference path of a person whose path segment is `segment`. */
  function Href(segment: string): string {
    PersonPath + segment
  }

  predicate HasId(rs: seq<PersonRecord>, id: int) {
    exists j :: 0 <= j < |rs| && rs[j].id == id
  }

  /** Slot i is the first whose id is `id`. */
  predicate IsFirstMatch(rs: seq<PersonRecord>, id: int, i: int) {
    0 <= i < |rs| && rs[i].id == id && forall j :: 0 <= j < i ==> rs[j].id != id
  }

  /** Some slot's id renders as `text`. */
  predicate HasIdText(rs: seq<PersonRecord>, text: string) {
    exists j :: 0 <= j < |rs| && IntToString(rs[j].id) == text
  }

  /** Slot i is the first whose id renders as `text`. */
  predicate IsFirstTextMatch(rs: seq<PersonRecord>, text: string, i: int) {
    0 <= i < |rs| && IntToString(rs[i].id) == text &&
    forall j :: 0 <= j < i ==> IntToString(rs[j].id) != text
  }

  /** The linear scan of PUT and DELETE: the first slot holding id `id`. */
  function FirstIndex(rs: seq<PersonRecord>, id: int): (r: Option<nat>)
    ensures r.Some? ==> IsFirstMatch(rs, id, r.value)
    ensures r.None? ==> !HasId(rs, id)
  {
    if rs == [] then None
    else if rs[0].id == id then Some(0)
    else match FirstIndex(rs[1..], id)
      case Some(k) => Some(k + 1)
      case None => None
  }

  /** The linear scan of GET: the first slot whose id renders as `text`. */
  function FirstTextIndex(rs: seq<PersonRecord>, text: string): (r: Option<nat>)
    ensures r.Some? ==> IsFirstTextMatch(rs, text, r.value)
    ensures r.None? ==> !HasIdText(rs, text)
  {
    if rs == [] then None
    else if IntToString(rs[0].id) == text then Some(0)
    else match FirstTextIndex(rs[1..], text)
      case Some(k) => Some(k + 1)
      case None => None
  }

  lemma FirstMatchUnique(rs: seq<PersonRecord>, id: int, i: int, k: int)
    requires IsFirstMatch(rs, id, i) && IsFirstMatch(rs, id, k)
    ensures i == k
  {
  }

  lemma FirstTextMatchUnique(rs: seq<PersonRecord>, text: string, i: int, k: int)
    requires IsFirstTextMatch(rs, text, i) && IsFirstTextMatch(rs, text, k)
    ensures i == k
  {
  }

  /** How many slots hold id `id`. */
  function CountId(rs: seq<PersonRecord>, id: int): (n: nat)
    ensures n > 0 <==> HasId(rs, id)
    ensures n <= |rs|
  {
    if rs == [] then 0
    else
      var rest := CountId(rs[1..], id);
      assert HasId(rs[1..], id) ==> HasId(rs, id) by {
        if HasId(rs[1..], id) {
          var j :| 0 <= j < |rs[1..]| && rs[1..][j].id == id;
          assert rs[j + 1].id == id;
        }
      }
      (if rs[0].id == id then 1 else 0) + rest
  }

  /** The person as the store keeps it: the body with the id and href the handler assigns. */
  function Stored(body: PersonRecord, id: int, segment: string): PersonRecord {
    body.(id := id, href := Some(Href(segment)))
  }

  /**
   * POST /contacts: append the body, give it the counter's value as id and
   * the matching href, advance the counter, answer 201 with the href.
   */
  function Create(b: BookState, body: PersonRecord): (s: Step<string>)
    ensures |s.book.people| == |b.people| + 1 && s.book.people[..|b.people|] == b.people
    ensures s.book.people[|b.people|] == Stored(body, b.nextId, IntToString(b.nextId))
    ensures s.book.nextId == b.nextId + 1
    ensures s.reply == Reply(Created, Some(Href(IntToString(b.nextId))))
  {
    var id := b.nextId;
    var stored := Stored(body, id, IntToString(id));
    Step(BookState(b.people + [stored], id + 1), Reply(Created, stored.href))
  }

  /** GET /contacts/person/{text}: the first person whose rendered id is `text`, else 404. */
  function Fetch(b: BookState, text: string): (r: Reply<PersonRecord>)
    ensures r.status == Ok <==> HasIdText(b.people, text)
    ensures r.status == Ok ==>
      exists i :: IsFirstTextMatch(b.people, text, i) && r.body == Some(b.people[i])
    ensures r.status != Ok ==> r == Reply(NotFound, None)
  {
    match FirstTextIndex(b.people, text)
    case Some(i) => Reply(Ok, Some(b.people[i]))
    case None => Reply(NotFound, None)
  }

  /**
   * The path text is parsed only when the scan looks at a slot, so on an
   * empty book it is never parsed and any text is accepted.
   */
  predicate ParsedWhenScanned(rs: seq<PersonRecord>, text: string) {
    ParseInt(text).Some? || rs == []
  }

  /** Some slot holds the id the path text parses to. */
  predicate HoldsParsedId(rs: seq<PersonRecord>, text: string) {
    ParseInt(text).Some? && HasId(rs, ParseInt(text).value)
  }

  /**
   * PUT /contacts/person/{text}: overwrite the first slot holding the parsed
   * id with the body, which gets that id and the href built from the path
   * text; 400 and nothing changed when no slot holds it.
   */
  function Replace(b: BookState, text: string, body: PersonRecord): (s: Step<PersonRecord>)
    requires ParsedWhenScanned(b.people, text)
    ensures s.book.nextId == b.nextId && |s.book.people| == |b.people|
    ensures s.reply.status == Ok <==> HoldsParsedId(b.people, text)
    ensures s.reply.status != Ok ==> s == Step(b, Reply(BadRequest, None))
    ensures s.reply.status == Ok ==>
      ParseInt(text).Some? &&
      var stored := Stored(body, ParseInt(text).value, text);
      s.reply.body == Some(stored) &&
      exists i :: IsFirstMatch(b.people, ParseInt(text).value, i) && s.book.people == b.people[i := stored]
  {
    if b.people == [] then Step(b, Reply(BadRequest, None))
    else
      var id := ParseInt(text).value;
      match FirstIndex(b.people, id)
      case Some(i) =>
        var stored := Stored(body, id, text);
        Step(b.(people := b.people[i := stored]), Reply(Ok, Some(stored)))
      case None => Step(b, Reply(BadRequest, None))
  }

  /**
   * DELETE /contacts/person/{text}: remove the first slot holding the parsed
   * id and answer 204; 404 and nothing changed when no slot holds it.
   */
  function Delete(b: BookState, text: string): (s: Step<()>)
    requires ParsedWhenScanned(b.people, text)
    ensures s.book.nextId == b.nextId && s.reply.body == None
    ensures s.reply.status == NoContent <==> HoldsParsedId(b.people, text)
    ensures s.reply.status != NoContent ==> s == Step(b, Reply(NotFound, None))
    ensures s.reply.status == NoContent ==>
      ParseInt(text).Some? &&
      exists i :: IsFirstMatch(b.people, ParseInt(text).value, i) &&
        s.book.people == b.people[..i] + b.people[i + 1..]
  {
    if b.people == [] then Step(b, Reply(NotFound, None))
    else
      var id := ParseInt(text).value;
      match FirstIndex(b.people, id)
      case Some(i) => Step(b.(people := b.people[..i] + b.people[i + 1..]), Reply(NoContent, None))
      case None => Step(b, Reply(NotFound, None))
  }
}
