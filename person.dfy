/** The stored entity: a person entry of the address book. */
module Domain {
  import opened Wrappers

  /** The category of a phone number. */
  datatype PhoneType = Home | Work | Mobile

  /** A phone number entry; it has no identity of its own. */
  datatype PhoneNumber = PhoneNumber(number: string, kind: PhoneType)

  /**
   * The value of a Person at one moment, as its JSON form shows it. Java's
   * null name, email, href and phone list are None.
   */
  datatype PersonRecord = PersonRecord(
    name: Option<string>,
    id: int,
    email: Option<string>,
    href: Option<string>,
    phoneList: Option<seq<PhoneNumber>>)

  /** The mutable Person record; each setter overwrites one field in place. */
  class Person {
    var name: Option<string>
    var id: int
    var email: Option<string>
    var href: Option<string>
    var phoneList: Option<seq<PhoneNumber>>

    /** A fresh person: name, email and href null, id 0, an empty phone list. */
    constructor ()
      ensures Value() == PersonRecord(None, 0, None, None, Some([]))
    {
      name, id, email, href, phoneList := None, 0, None, None, Some([]);
    }

    /** The current value of every field. */
    function Value(): PersonRecord
      reads this
    {
      PersonRecord(name, id, email, href, phoneList)
    }

    method SetName(name: Option<string>)
      modifies this
      ensures Value() == old(Value()).(name := name)
    {
      this.name := name;
    }

    method SetId(id: int)
      modifies this
      ensures Value() == old(Value()).(id := id)
    {
      this.id := id;
    }

    method SetEmail(email: Option<string>)
      modifies this
      ensures Value() == old(Value()).(email := email)
    {
      this.email := email;
    }

    method SetHref(href: Option<string>)
      modifies this
      ensures Value() == old(Value()).(href := href)
    {
      this.href := href;
    }

    /**
     * Appends one phone at the tail of the phone list, which must not be null
     * (Java throws NullPointerException then).
     */
    method AddPhone(phone: PhoneNumber)
      requires phoneList.Some?
      modifies this
      ensures Value() == old(Value()).(phoneList := Some(old(phoneList.value) + [phone]))
    {
      phoneList := Some(phoneList.value + [phone]);
    }

    /** Replaces the phone list wholesale; None stands for a null list. */
    method SetPhoneList(phones: Option<seq<PhoneNumber>>)
      modifies this
      ensures Value() == old(Value()).(phoneList := phones)
    {
      phoneList := phones;
    }

    predicate HasEmail()
      reads this
      ensures HasEmail() <==> Value().email.Some?
    {
      email != None
    }
  }

  /** The values of a list of persons, slot by slot. */
  function Snapshot(ps: seq<Person>): (rs: seq<PersonRecord>)
    reads ps
    ensures |rs| == |ps|
    ensures forall i :: 0 <= i < |ps| ==> rs[i] == ps[i].Value()
  {
    if ps == [] then [] else [ps[0].Value()] + Snapshot(ps[1..])
  }
}
