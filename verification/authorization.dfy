/** The onboarding view model: creating it wipes the store and starts one fresh user
    as the current user; its setters edit that user's profile fields. */
module Authorization {
  import opened Basics
  import opened Numbers
  import opened Models

  /** The persisted user and core records. */
  datatype Store = Store(users: seq<User>, cores: seq<Core>)

  /** A user as `UserModel()` creates it: subscribed by default, empty name, no
      optional fields and no invoices. */
  function FreshUser(id: int): (u: User)
    ensures u.id == id && u.isSubscribed && u.name == [] && u.invoices == []
    ensures u.email.None? && u.phone.None? && u.address.None? && u.logo.None?
  {
    User(id, true, [], None, None, None, None, [])
  }

  /** The view model's state: the store and the id of the user being set up. */
  datatype AuthModel = AuthModel(store: Store, user: int)

  /** `init`: every user and core record is deleted, then one new user and one core
      pointing at it are added. `newId` is the identifier the new user receives. */
  function Init(store: Store, newId: int): (m: AuthModel)
    ensures m.user == newId
    ensures m.store.users == [FreshUser(newId)]
    ensures |m.store.cores| == 1
    ensures m.store.cores[0].currentUser == Some(newId) && m.store.cores[0].users == [newId]
  {
    AuthModel(Store([FreshUser(newId)], [Core(Some(newId), [newId])]), newId)
  }

  /** Whatever the store held before, creating the view model gives the same state. */
  lemma InitForgetsStore(a: Store, b: Store, newId: int)
    ensures Init(a, newId) == Init(b, newId)
  {
  }

  /** The phone value `setPhone` stores: a present, non-empty string that `Int(_)`
      accepts, as that integer; nil otherwise. */
  function PhoneValue(phone: Option<string>): (r: Option<int>)
    ensures r.Some? <==> phone.Some? && phone.value != [] && ParseInt(phone.value).Some?
    ensures r.Some? ==> r == ParseInt(phone.value) && InIntRange(r.value)
  {
    match phone
    case None => None
    case Some(p) =>
      match ParseInt(p)
      case Some(n) => if p != [] then Some(n) else None
      case None => None
  }

  /** Entering the digits of a 64-bit integer stores that integer. */
  lemma PhoneRoundTrip(n: int)
    requires InIntRange(n)
    ensures PhoneValue(Some(FormatInt(n))) == Some(n)
  {
    ParseFormatInt(n);
  }

  /** A number too wide for 64 bits is dropped, not truncated. */
  lemma PhoneOutOfRangeDropped(n: int)
    requires !InIntRange(n)
    ensures PhoneValue(Some(FormatInt(n))) == None
  {
    ParseFormatIntOutOfRange(n);
  }

  /** Text containing anything but digits after an optional leading sign is dropped. */
  lemma PhoneWithSpaceDropped(a: string, b: string)
    ensures PhoneValue(Some(a + " " + b)) == None
  {
    var s := a + " " + b;
    assert s[|a|] == ' ';
  }

  /** The profile setters of the view model. `SetLogo` carries the JPEG data of the
      picked image, nil when there is no image or it cannot be encoded. */
  datatype Edit =
    | SetName(name: string)
    | SetEmail(email: Option<string>)
    | SetPhone(phone: Option<string>)
    | SetAddress(address: Option<string>)
    | SetLogo(logo: Option<Bytes>)

  /** One setter applied to a user record. */
  function ApplyEdit(u: User, e: Edit): (r: User)
    ensures r.id == u.id && r.isSubscribed == u.isSubscribed && r.invoices == u.invoices
    ensures r.name == if e.SetName? then e.name else u.name
    ensures r.email == if e.SetEmail? then e.email else u.email
    ensures r.phone == if e.SetPhone? then PhoneValue(e.phone) else u.phone
    ensures r.address == if e.SetAddress? then e.address else u.address
    ensures r.logo == if e.SetLogo? && e.logo.Some? then e.logo else u.logo
  {
    match e
    case SetName(n) => u.(name := n)
    case SetEmail(m) => u.(email := m)
    case SetPhone(p) => u.(phone := PhoneValue(p))
    case SetAddress(a) => u.(address := a)
    case SetLogo(l) => if l.Some? then u.(logo := l) else u
  }

  /** `setLogo(nil)` returns before writing: the user is untouched. */
  lemma NilLogoKeepsUser(u: User)
    ensures ApplyEdit(u, SetLogo(None)) == u
  {
  }

  /** Setters of different fields commute. */
  lemma EditsOfDifferentFieldsCommute(u: User, e1: Edit, e2: Edit)
    requires Field(e1) != Field(e2)
    ensures ApplyEdit(ApplyEdit(u, e1), e2) == ApplyEdit(ApplyEdit(u, e2), e1)
  {
  }

  /** Repeating a setter is the same as applying it once. */
  lemma EditIdempotent(u: User, e: Edit)
    ensures ApplyEdit(ApplyEdit(u, e), e) == ApplyEdit(u, e)
  {
  }

  /** The field a setter writes. */
  function Field(e: Edit): nat
  {
    match e
    case SetName(_) => 0
    case SetEmail(_) => 1
    case SetPhone(_) => 2
    case SetAddress(_) => 3
    case SetLogo(_) => 4
  }

  /** A setter applied through the view model: the set-up user changes, every other
      user and every core record stays as it was. */
  function Apply(m: AuthModel, e: Edit): (r: AuthModel)
    ensures r.user == m.user && r.store.cores == m.store.cores
    ensures |r.store.users| == |m.store.users|
    ensures forall i :: 0 <= i < |m.store.users| ==>
      r.store.users[i] == if m.store.users[i].id == m.user then ApplyEdit(m.store.users[i], e) else m.store.users[i]
  {
    var us := m.store.users;
    m.(store := m.store.(users := seq(|us|, i requires 0 <= i < |us| =>
      if us[i].id == m.user then ApplyEdit(us[i], e) else us[i])))
  }

  /** Setters applied in order. */
  function ApplyAll(m: AuthModel, es: seq<Edit>): AuthModel
    decreases |es|
  {
    if |es| == 0 then m else ApplyAll(Apply(m, es[0]), es[1..])
  }

  /** After creation and any run of setters the store still holds exactly one user,
      the current one, and the single core record still points at it. */
  lemma {:induction false} SetupKeepsOneUser(m: AuthModel, es: seq<Edit>)
    requires |m.store.users| == 1 && m.store.users[0].id == m.user
    requires m.store.cores == [Core(Some(m.user), [m.user])]
    ensures var r := ApplyAll(m, es);
      r.user == m.user && |r.store.users| == 1 && r.store.users[0].id == m.user
      && r.store.cores == [Core(Some(m.user), [m.user])]
    decreases |es|
  {
    if |es| > 0 {
      SetupKeepsOneUser(Apply(m, es[0]), es[1..]);
    }
  }

  /** Creation followed by setting a name, an email and a phone gives a user holding
      exactly those values. */
  lemma OnboardingRecordsProfile(store: Store, id: int, name: string, email: string, n: int)
    requires InIntRange(n)
    ensures var r := ApplyAll(Init(store, id), [SetName(name), SetEmail(Some(email)), SetPhone(Some(FormatInt(n)))]);
      r.store.users == [FreshUser(id).(name := name, email := Some(email), phone := Some(n))]
  {
    var m0 := Init(store, id);
    var m1 := Apply(m0, SetName(name));
    var m2 := Apply(m1, SetEmail(Some(email)));
    var m3 := Apply(m2, SetPhone(Some(FormatInt(n))));
    PhoneRoundTrip(n);
    assert m1.store.users == [FreshUser(id).(name := name)];
    assert m2.store.users == [FreshUser(id).(name := name, email := Some(email))];
    assert m3.store.users == [FreshUser(id).(name := name, email := Some(email), phone := Some(n))];
    var es := [SetName(name), SetEmail(Some(email)), SetPhone(Some(FormatInt(n)))];
    assert es[1..][1..][1..] == [];
    assert ApplyAll(m2, es[1..][1..]) == ApplyAll(m3, []) == m3;
    assert ApplyAll(m1, es[1..]) == ApplyAll(m2, es[1..][1..]);
    assert ApplyAll(m0, es) == ApplyAll(m1, es[1..]);
  }
}
