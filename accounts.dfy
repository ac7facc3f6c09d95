/** User registration and the display names the serializers compute. */
module Accounts {
  import opened Common

  /** The fields of `UserRegistrationSerializer` as `validate` receives them,
      i.e. after field validation: the text fields are already trimmed (so a
      submitted `"pw "` arrives as `"pw"`), and the field-level checks (choices,
      uniqueness, lengths) have passed. */
  datatype RegistrationData = RegistrationData(
    username: string,
    email: string,
    password: string,
    passwordConfirmation: string,
    firstName: string,
    lastName: string,
    userType: UserType,
    phone: string,
    address: string)

  const PasswordMismatch: string := "Les mots de passe ne correspondent pas"

  /** `UserRegistrationSerializer.validate`. */
  function Validate(data: RegistrationData): (r: Result<RegistrationData, string>)
    ensures r.Err? <==> data.password != data.passwordConfirmation
    ensures r.Err? ==> r.error == PasswordMismatch
    ensures r.Ok? ==> r.value == data
  {
    if data.password != data.passwordConfirmation then Err(PasswordMismatch) else Ok(data)
  }

  /** A stored user. `create_user` keeps only a hash of the password, and there
      is no confirmation field at all. */
  datatype UserRecord = UserRecord(
    id: UserId,
    username: string,
    email: string,
    firstName: string,
    lastName: string,
    userType: UserType,
    phone: string,
    address: string)

  /** The fields of the `Workshop` profile registration creates. */
  datatype WorkshopProfile = WorkshopProfile(
    user: UserId,
    name: string,
    description: string,
    hasLogo: bool,
    address: string,
    isActive: bool,
    specialties: seq<string>,
    estimatedDeliveryTime: int,
    priceRangeMin: int,
    priceRangeMax: int)

  /** The user and workshop tables as registration sees them. */
  class Directory {
    var users: seq<UserRecord>
    var workshops: seq<WorkshopProfile>
    var nextId: UserId

    /** Ids are below the next one to hand out and every workshop profile
        belongs to a registered workshop user. */
    ghost predicate Valid()
      reads this
    {
      && (forall i :: 0 <= i < |users| ==> users[i].id < nextId)
      && (forall j :: 0 <= j < |workshops| ==> HasWorkshopUser(users, workshops[j].user))
    }

    constructor ()
      ensures Valid() && users == [] && workshops == []
    {
      users, workshops, nextId := [], [], 1;
    }

    /** `UserRegistrationSerializer.create`: drop the confirmation, create the
        user, and give a workshop user a default `Workshop` profile named after
        the username. */
    method Create(data: RegistrationData) returns (user: UserRecord)
      requires Valid()
      modifies this
      ensures Valid()
      ensures user == UserRecord(old(nextId), data.username, data.email, data.firstName, data.lastName,
                                 data.userType, data.phone, data.address)
      ensures forall i :: 0 <= i < |old(users)| ==> old(users)[i].id != user.id
      ensures users == old(users) + [user]
      ensures workshops == old(workshops) + (if data.userType == WorkshopUser then [DefaultProfile(user)] else [])
    {
      user := UserRecord(nextId, data.username, data.email, data.firstName, data.lastName,
                         data.userType, data.phone, data.address);
      forall j | 0 <= j < |workshops|
        ensures HasWorkshopUser(users + [user], workshops[j].user)
      {
        assert HasWorkshopUser(users, workshops[j].user);
        var i :| 0 <= i < |users| && users[i].id == workshops[j].user && users[i].userType == WorkshopUser;
        assert (users + [user])[i] == users[i];
      }
      assert (users + [user])[|users|] == user;
      users := users + [user];
      nextId := nextId + 1;
      if user.userType == WorkshopUser {
        workshops := workshops + [DefaultProfile(user)];
      }
    }
  }

  ghost predicate HasWorkshopUser(users: seq<UserRecord>, id: UserId) {
    exists i :: 0 <= i < |users| && users[i].id == id && users[i].userType == WorkshopUser
  }

  /** The profile registration creates for a workshop user. */
  function DefaultProfile(user: UserRecord): (w: WorkshopProfile)
    ensures w.user == user.id && w.name == user.username
    ensures w.specialties == [] && w.priceRangeMin == 0 && w.priceRangeMax == 0
    ensures w.isActive && !w.hasLogo && w.estimatedDeliveryTime == 7
  {
    WorkshopProfile(user.id, user.username, "", false, "", true, [], 7, 0, 0)
  }

  /** The first and last name of a user, as the name formatters read them. */
  datatype Person = Person(firstName: string, lastName: string)

  /** `f"{first_name} {last_name}"`; `ReviewSerializer.get_user_name` is this
      of the review's author, who always exists. */
  function FullName(p: Person): (s: string)
    ensures |s| == |p.firstName| + 1 + |p.lastName|
    ensures s[..|p.firstName|] == p.firstName
    ensures s[|p.firstName|] == ' '
    ensures s[|p.firstName| + 1..] == p.lastName
  {
    p.firstName + " " + p.lastName
  }

  /** `get_created_by_name` of the status-update and stock-movement serializers. */
  function CreatedByName(creator: Option<Person>): (r: Option<string>)
    ensures r.None? <==> creator.None?
    ensures creator.Some? ==> r == Some(FullName(creator.value))
  {
    if creator.Some? then Some(FullName(creator.value)) else None
  }

  /** Position of the first space in `s`, or `|s|`. */
  function FirstSpace(s: string): (k: nat)
    ensures k <= |s|
    ensures k < |s| ==> s[k] == ' '
    ensures forall i :: 0 <= i < k ==> s[i] != ' '
  {
    if s == "" then 0 else if s[0] == ' ' then 0 else 1 + FirstSpace(s[1..])
  }

  /** Reading a display name back: split at its first space. */
  function SplitFullName(s: string): Person {
    var k := FirstSpace(s);
    if k < |s| then Person(s[..k], s[k + 1..]) else Person(s, "")
  }

  /** A display name determines the person whenever the first name holds no
      space; the last name may hold any text. */
  lemma FullNameRoundTrip(p: Person)
    requires ' ' !in p.firstName
    ensures SplitFullName(FullName(p)) == p
  {
    var s := FullName(p);
    assert FirstSpace(s) == |p.firstName|;
  }
}
