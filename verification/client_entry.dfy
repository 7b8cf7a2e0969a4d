/** Adding a client: validation and normalisation on save, pre-filling the form
    from a picked contact, and the contact-to-form mapping with its address join. */
module ClientEntry {
  import opened Basics
  import opened Text
  import opened Models

  datatype ClientSaveError = EmptyName

  /** The four text fields a picked contact supplies. */
  datatype ContactData = ContactData(name: string, email: string, phone: string, address: string)

  /** The four editable text fields of the add-client form. */
  datatype Fields = Fields(name: string, email: string, phone: string, address: string)

  /** `fillFields(with:)`: every field takes the contact's value. */
  function FillFields(previous: Fields, contact: ContactData): (r: Fields)
    ensures r.name == contact.name && r.email == contact.email
    ensures r.phone == contact.phone && r.address == contact.address
  {
    Fields(contact.name, contact.email, contact.phone, contact.address)
  }

  /** Whatever was typed before, filling from a contact gives the same form. */
  lemma FillFieldsForgetsPrevious(a: Fields, b: Fields, contact: ContactData)
    ensures FillFields(a, contact) == FillFields(b, contact)
  {
  }

  /** `saveClient`: a name of only whitespace and newlines is refused; otherwise the
      client is built with the name as typed, empty optional fields as nil and a zero
      balance. `id` is the identifier the store assigns. */
  function SaveClient(name: string, email: Option<string>, phone: Option<string>,
                      address: Option<string>, id: int): (r: Result<Client, ClientSaveError>)
    ensures r.Failure? <==> AllIn(name, WhitespacesAndNewlines)
    ensures r.Failure? ==> r.error == EmptyName
    ensures r.Success? ==> r.value.id == id && r.value.name == name && r.value.balance == 0
    ensures r.Success? ==> (r.value.email.None? <==> (email.None? || email.value == []))
    ensures r.Success? && r.value.email.Some? ==> r.value.email == email
    ensures r.Success? ==> (r.value.phone.None? <==> (phone.None? || phone.value == []))
    ensures r.Success? && r.value.phone.Some? ==> r.value.phone == phone
    ensures r.Success? ==> (r.value.address.None? <==> (address.None? || address.value == []))
    ensures r.Success? && r.value.address.Some? ==> r.value.address == address
  {
    TrimEmptyIff(name, WhitespacesAndNewlines);
    if Trim(name, WhitespacesAndNewlines) == [] then Failure(EmptyName)
    else Success(Client(id, name, NilIfEmptyOpt(email), NilIfEmptyOpt(phone), NilIfEmptyOpt(address), 0))
  }

  /** The store after `saveClient`: unchanged when it throws, one client appended otherwise. */
  function SaveClientToStore(store: seq<Client>, name: string, email: Option<string>,
                             phone: Option<string>, address: Option<string>, id: int): (r: seq<Client>)
    ensures AllIn(name, WhitespacesAndNewlines) ==> r == store
    ensures !AllIn(name, WhitespacesAndNewlines) ==>
      |r| == |store| + 1 && r[..|store|] == store && r[|store|].name == name
    ensures !AllIn(name, WhitespacesAndNewlines) ==>
      r[|store|] == SaveClient(name, email, phone, address, id).value
  {
    match SaveClient(name, email, phone, address, id)
    case Failure(_) => store
    case Success(c) => store + [c]
  }

  /** Saving is idempotent on the optional fields: re-saving a saved client keeps them. */
  lemma SaveClientStable(name: string, email: Option<string>, phone: Option<string>,
                         address: Option<string>, id: int)
    requires SaveClient(name, email, phone, address, id).Success?
    ensures var c := SaveClient(name, email, phone, address, id).value;
      SaveClient(c.name, c.email, c.phone, c.address, id) == Success(c)
  {
  }

  /** A postal address of a contact card. */
  datatype PostalAddress = PostalAddress(street: string, city: string, state: string,
                                         postalCode: string, country: string)

  /** The parts of a contact card the picker reads. `fullName` is the full-name
      formatter's result, nil when it has nothing to format. */
  datatype Contact = Contact(fullName: Option<string>, emails: seq<string>, phones: seq<string>,
                             postal: seq<PostalAddress>)

  function Components(a: PostalAddress): seq<string>
  {
    [a.street, a.city, a.state, a.postalCode, a.country]
  }

  predicate NonEmpty(s: string) { s != [] }

  /** The address line: the non-empty components in card order, separated by `", "`. */
  function FormatAddress(a: PostalAddress): string
  {
    Join(Filter(Components(a), NonEmpty), ", ")
  }

  /** The segments joined are exactly the non-empty components, in order. */
  lemma AddressSegments(a: PostalAddress)
    ensures var segs := Filter(Components(a), NonEmpty);
      IsSubsequence(segs, Components(a))
      && (forall i :: 0 <= i < |segs| ==> segs[i] != [])
      && (forall i :: 0 <= i < 5 && Components(a)[i] != [] ==> Components(a)[i] in segs)
  {
    FilterIsSubsequence(Components(a), NonEmpty);
  }

  /** The address line is empty exactly when every component is empty. */
  lemma FormatAddressEmptyIff(a: PostalAddress)
    ensures FormatAddress(a) == [] <==>
      a.street == [] && a.city == [] && a.state == [] && a.postalCode == [] && a.country == []
  {
    var cs := Components(a);
    var segs := Filter(cs, NonEmpty);
    JoinEmptyIff(segs, ", ");
    assert cs[0] == a.street && cs[1] == a.city && cs[2] == a.state;
    assert cs[3] == a.postalCode && cs[4] == a.country;
    if forall i :: 0 <= i < |cs| ==> !NonEmpty(cs[i]) {
      NoneSelected(cs, NonEmpty);
    }
  }

  /** With every component present the line is all five joined. */
  lemma FormatAddressFull(a: PostalAddress)
    requires a.street != [] && a.city != [] && a.state != [] && a.postalCode != [] && a.country != []
    ensures FormatAddress(a) ==
      a.street + ", " + a.city + ", " + a.state + ", " + a.postalCode + ", " + a.country
  {
    var cs := Components(a);
    assert forall i :: 0 <= i < |cs| ==> NonEmpty(cs[i]);
    FilterAll(cs, NonEmpty);
    assert cs[1..][1..][1..][1..] == [a.country];
    calc {
      Join(cs, ", ");
      a.street + ", " + Join(cs[1..], ", ");
      a.street + ", " + (a.city + ", " + Join(cs[1..][1..], ", "));
      a.street + ", " + (a.city + ", " + (a.state + ", " + Join(cs[1..][1..][1..], ", ")));
      a.street + ", " + (a.city + ", " + (a.state + ", " + (a.postalCode + ", " + a.country)));
    }
  }

  /** The contact picker's mapping: absent name, first email, first phone or first
      postal address each give `""`. */
  function ContactToData(c: Contact): (r: ContactData)
    ensures r.name == c.fullName.GetOr("")
    ensures r.email == (if |c.emails| > 0 then c.emails[0] else "")
    ensures r.phone == (if |c.phones| > 0 then c.phones[0] else "")
    ensures |c.postal| == 0 ==> r.address == ""
    ensures |c.postal| > 0 ==> r.address == FormatAddress(c.postal[0])
  {
    ContactData(
      c.fullName.GetOr(""),
      if |c.emails| > 0 then c.emails[0] else "",
      if |c.phones| > 0 then c.phones[0] else "",
      if |c.postal| > 0 then FormatAddress(c.postal[0]) else "")
  }

  /** A contact without email, phone or postal address, filled into the form and saved,
      gives a client whose optional fields are all nil. */
  lemma BareContactSavesNils(c: Contact, previous: Fields, id: int)
    requires |c.emails| == 0 && |c.phones| == 0 && |c.postal| == 0
    requires !AllIn(c.fullName.GetOr(""), WhitespacesAndNewlines)
    ensures var f := FillFields(previous, ContactToData(c));
      var r := SaveClient(f.name, Some(f.email), Some(f.phone), Some(f.address), id);
      r.Success? && r.value.email.None? && r.value.phone.None? && r.value.address.None?
      && r.value.name == c.fullName.GetOr("")
  {
  }
}
