/** The problem card's "Contact available" test. */
module ProblemCard {
  import opened Domain

  /** The values `Object.values(contact_info)` can yield, one per key (an absent key
      yields nothing, written here as `None`). */
  function ContactValues(c: ContactInfo): seq<Option<string>>
  {
    [c.email, c.whatsapp, c.phone, c.telegram, c.preferredMethod, c.other]
  }

  /** `value && value !== ""`. */
  predicate Meaningful(v: Option<string>)
  {
    v.Some? && v.value != ""
  }

  /** `hasContactInfo`: the record is present and some value in it is non-empty. */
  predicate HasContactInfo(contact: Option<ContactInfo>)
  {
    contact.Some? && exists v :: v in ContactValues(contact.value) && Meaningful(v)
  }

  /** The test holds exactly when some key, `preferred_method` included, holds a
      non-empty string; a null record, `{}`, or a record of empty strings fails it. */
  lemma HasContactInfoMeans(contact: Option<ContactInfo>)
    ensures !HasContactInfo(None)
    ensures !HasContactInfo(Some(EmptyContact))
    ensures contact.Some? ==>
      (HasContactInfo(contact) <==>
        Meaningful(contact.value.email) || Meaningful(contact.value.whatsapp) ||
        Meaningful(contact.value.phone) || Meaningful(contact.value.telegram) ||
        Meaningful(contact.value.preferredMethod) || Meaningful(contact.value.other))
  {
    assert forall v :: v in ContactValues(EmptyContact) ==> v == None;
    if contact.Some? {
      var vs := ContactValues(contact.value);
      assert vs[0] == contact.value.email && vs[1] == contact.value.whatsapp && vs[2] == contact.value.phone;
      assert vs[3] == contact.value.telegram && vs[4] == contact.value.preferredMethod && vs[5] == contact.value.other;
    }
  }

  /** Putting a non-empty string under any key makes the test hold, so adding a field
      never turns it from true to false. */
  lemma AddingFieldKeepsContact(c: ContactInfo, v: string)
    requires v != ""
    ensures HasContactInfo(Some(c.(email := Some(v))))
    ensures HasContactInfo(Some(c.(whatsapp := Some(v))))
    ensures HasContactInfo(Some(c.(phone := Some(v))))
    ensures HasContactInfo(Some(c.(telegram := Some(v))))
    ensures HasContactInfo(Some(c.(preferredMethod := Some(v))))
    ensures HasContactInfo(Some(c.(other := Some(v))))
  {
    HasContactInfoMeans(Some(c.(email := Some(v))));
    HasContactInfoMeans(Some(c.(whatsapp := Some(v))));
    HasContactInfoMeans(Some(c.(phone := Some(v))));
    HasContactInfoMeans(Some(c.(telegram := Some(v))));
    HasContactInfoMeans(Some(c.(preferredMethod := Some(v))));
    HasContactInfoMeans(Some(c.(other := Some(v))));
  }
}
