/**
 * Account registration and login. Password hashing and comparison, e-mail
 * syntax and id generation are collaborators passed in as functions.
 */
module Registration {
  import opened Wrappers
  import opened Models
  import opened Db
  import opened Strings

  /** The `categories` form field: an array, a comma-separated string, or anything else. */
  datatype CategoriesField = CategoryList(items: seq<string>) | CategoryText(text: string) | OtherCategories

  /**
   * The registration form: body fields, the names of the uploaded files, and
   * whether the body was multipart, the only kind for which the upload
   * middleware sets `req.files`.
   */
  datatype RegisterForm = RegisterForm(
    name: Option<string>,
    email: Option<string>,
    phone: Option<string>,
    password: Option<string>,
    role: Option<string>,
    categories: CategoriesField,
    location: Point,
    address: Option<string>,
    profileImage: Option<string>,
    idProof: Option<string>,
    optionalCert: Option<string>,
    multipart: bool)

  /** The collaborators registration needs: the clock, hashing, e-mail syntax and fresh ids. */
  datatype Services = Services(
    isEmail: string -> bool,
    hash: string -> string,
    now: int,
    newUserId: UserId,
    newProviderId: ProviderId)

  const DayMillis: int := 24 * 60 * 60 * 1000
  const MinPasswordLength: nat := 6
  const UploadsPrefix: string := "/uploads/"
  const ReapplyLater: string := "Your registration was rejected. You can reapply after 24 hours."
  const EmailTaken: string := "Email already registered"
  const FilesRequired: string := "Profile image and ID proof are required"
  const InvalidCredentials: string := "Invalid credentials"

  /** A role a new account may take: CUSTOMER or PROVIDER, by name. */
  predicate RegistrableRole(x: Option<string>) {
    x.Some? && ParseRole(x.value) in {Some(Customer), Some(Provider)}
  }

  /** The rule for each validated field, in the order the validators are declared. */
  predicate FieldValid(form: RegisterForm, isEmail: string -> bool, field: string) {
    match field
    case "name" => Truthy(form.name)
    case "email" => form.email.Some? && isEmail(form.email.value)
    case "phone" => Truthy(form.phone)
    case "password" => form.password.Some? && |form.password.value| >= MinPasswordLength
    case "role" => RegistrableRole(form.role)
    case _ => true
  }

  const ValidatedFields: seq<string> := ["name", "email", "phone", "password", "role"]

  /** The fields that fail validation, in declaration order. */
  function FailedFields(form: RegisterForm, isEmail: string -> bool): (failed: seq<string>)
    ensures forall f :: f in failed <==> f in ValidatedFields && !FieldValid(form, isEmail, f)
  {
    (if FieldValid(form, isEmail, "name") then [] else ["name"])
      + (if FieldValid(form, isEmail, "email") then [] else ["email"])
      + (if FieldValid(form, isEmail, "phone") then [] else ["phone"])
      + (if FieldValid(form, isEmail, "password") then [] else ["password"])
      + (if FieldValid(form, isEmail, "role") then [] else ["role"])
  }

  /** Each piece trimmed: `parts.map(c => c.trim())`. */
  function TrimAll(parts: seq<string>): (r: seq<string>)
    ensures |r| == |parts|
    ensures forall i :: 0 <= i < |r| ==> r[i] == Trim(parts[i])
  {
    seq(|parts|, i requires 0 <= i < |parts| => Trim(parts[i]))
  }

  /** The categories stored on a new provider profile. */
  function ParseCategories(field: CategoriesField): (r: seq<string>)
    ensures field.CategoryList? ==> r == field.items
    ensures field.OtherCategories? ==> r == []
    ensures field.CategoryText? ==> r == TrimAll(Split(field.text, ','))
    ensures field.CategoryText? ==>
              && |r| == Count(field.text, ',') + 1
              && forall i :: 0 <= i < |r| ==>
                   ',' !in r[i] && (|r[i]| > 0 ==> !IsSpace(r[i][0]) && !IsSpace(r[i][|r[i]| - 1]))
  {
    match field
    case CategoryList(items) => items
    case CategoryText(text) =>
      var parts := Split(text, ',');
      TrimAllShape(parts, ',');
      TrimAll(parts)
    case OtherCategories => []
  }

  /** Trimming pieces free of `sep` gives pieces free of `sep` with no white space at either end. */
  lemma TrimAllShape(parts: seq<string>, sep: char)
    requires forall i :: 0 <= i < |parts| ==> sep !in parts[i]
    ensures forall i :: 0 <= i < |parts| ==>
              var t := TrimAll(parts)[i];
              sep !in t && (|t| > 0 ==> !IsSpace(t[0]) && !IsSpace(t[|t| - 1]))
  {
    forall i | 0 <= i < |parts| ensures sep !in TrimAll(parts)[i] {
      TrimInfix(parts[i]);
    }
  }

  lemma TrimInfix(s: string)
    ensures forall c :: c in Trim(s) ==> c in s
  {
    var r := Trim(s);
    var a := LeadingSpaces(s);
    forall c | c in r ensures c in s {
      var k :| 0 <= k < |r| && r[k] == c;
      assert s[a + k] == c;
    }
  }

  /** A string with no white space at either end is its own trim. */
  lemma TrimClean(s: string)
    requires |s| > 0 ==> !IsSpace(s[0]) && !IsSpace(s[|s| - 1])
    ensures Trim(s) == s
  {
    var r := Trim(s);
    if |s| > 0 {
      assert LeadingSpaces(s) == 0;
      assert |r| == |s|;
    }
  }

  /**
   * Clean category names sent as one comma-separated string come back as
   * the same list.
   */
  lemma {:induction false} CategoriesRoundTrip(categories: seq<string>)
    requires |categories| >= 1
    requires forall i :: 0 <= i < |categories| ==>
               ',' !in categories[i] && (|categories[i]| > 0 ==>
                 !IsSpace(categories[i][0]) && !IsSpace(categories[i][|categories[i]| - 1]))
    ensures ParseCategories(CategoryText(Join(categories, ','))) == categories
  {
    SplitJoin(categories, ',');
    var r := ParseCategories(CategoryText(Join(categories, ',')));
    forall i | 0 <= i < |categories| ensures r[i] == categories[i] {
      TrimClean(categories[i]);
    }
  }

  /** The existing account belongs to a provider rejected less than 24 hours before `now`. */
  predicate RecentlyRejected(s: Store, existing: User, now: int) {
    && existing.role == Provider
    && var pi := FindProfileOf(s.providers, existing.id);
    && pi.Some?
    && s.providers[pi.value].verificationStatus == Rejected
    && s.providers[pi.value].verifiedAt.Some?
    && now - s.providers[pi.value].verifiedAt.value < DayMillis
  }

  /** The profile a provider registration stores, before the schema's checks. */
  function ProfileFor(form: RegisterForm, userId: UserId, providerId: ProviderId): ProviderProfile
    requires form.profileImage.Some? && form.idProof.Some?
  {
    NewProfile(
      providerId, userId, ParseCategories(form.categories),
      UploadsPrefix + form.profileImage.value, UploadsPrefix + form.idProof.value,
      if form.optionalCert.Some? then Some(UploadsPrefix + form.optionalCert.value) else None,
      form.location, if form.address.Some? then form.address.value else "")
  }

  /** The account a valid form creates. */
  function AccountFor(form: RegisterForm, svc: Services): User
    requires |FailedFields(form, svc.isEmail)| == 0
  {
    assert FieldValid(form, svc.isEmail, "role") && FieldValid(form, svc.isEmail, "name");
    assert FieldValid(form, svc.isEmail, "email") && FieldValid(form, svc.isEmail, "phone");
    assert FieldValid(form, svc.isEmail, "password");
    User(svc.newUserId, form.name.value, form.email.value, form.phone.value, svc.hash(form.password.value),
         ParseRole(form.role.value).value)
  }

  /**
   * POST /auth/register. A provider registration that lacks its files, or
   * whose profile the schema refuses, still leaves the new account behind.
   */
  function Register(s: Store, form: RegisterForm, svc: Services): (rep: Reply<User>)
    ensures rep.events == []
    ensures |FailedFields(form, svc.isEmail)| > 0 ==>
              rep == Reply(s, [], Err(HttpError(400, FieldErrors(FailedFields(form, svc.isEmail)))))
    ensures |FailedFields(form, svc.isEmail)| == 0 && FindUserByEmail(s.users, form.email.value).Some? ==>
              var existing := s.users[FindUserByEmail(s.users, form.email.value).value];
              && rep.store == s
              && rep.outcome == Err(HttpError(400, Message(
                   if RecentlyRejected(s, existing, svc.now) then ReapplyLater else EmailTaken)))
    ensures rep.outcome.Ok? ==>
              && |FailedFields(form, svc.isEmail)| == 0
              && FindUserByEmail(s.users, form.email.value).None?
              && FindUser(s.users, svc.newUserId).None?
              && rep.outcome.value == AccountFor(form, svc)
              && rep.store.users == s.users + [rep.outcome.value]
              && rep.store.requests == s.requests
    ensures rep.outcome.Ok? && form.role == Some("CUSTOMER") ==> rep.store.providers == s.providers
    ensures rep.outcome.Ok? && form.role == Some("PROVIDER") ==>
              && form.multipart
              && |rep.store.providers| == |s.providers| + 1
              && rep.store.providers[..|s.providers|] == s.providers
              && var p := rep.store.providers[|s.providers|];
              && p.id == svc.newProviderId && p.userId == svc.newUserId
              && p.verificationStatus == Pending && p.availability == Offline && p.isActive
              && p.verifiedAt.None? && p.verificationNotes.None?
              && p.location == form.location && Coordinates(p.location) == [form.location.lng, form.location.lat]
              && p.categories == ParseCategories(form.categories)
              && RequiredProfileFields(p)
    ensures |FailedFields(form, svc.isEmail)| == 0 && FindUserByEmail(s.users, form.email.value).None?
              && FindUser(s.users, svc.newUserId).None? && form.role == Some("PROVIDER") && !form.multipart ==>
              rep == Reply(s.(users := s.users + [AccountFor(form, svc)]), [], Err(HttpError(500, Message(ServerError))))
    ensures |FailedFields(form, svc.isEmail)| == 0 && FindUserByEmail(s.users, form.email.value).None?
              && FindUser(s.users, svc.newUserId).None? && form.role == Some("PROVIDER") && form.multipart
              && (form.profileImage.None? || form.idProof.None?) ==>
              && rep.outcome == Err(HttpError(400, Message(FilesRequired)))
              && rep.store == s.(users := s.users + [AccountFor(form, svc)])
    ensures |FailedFields(form, svc.isEmail)| == 0 && FindUserByEmail(s.users, form.email.value).None?
              && FindUser(s.users, svc.newUserId).None? && form.role == Some("CUSTOMER") ==>
              rep == Reply(s.(users := s.users + [AccountFor(form, svc)]), [], Ok(AccountFor(form, svc)))
    ensures |FailedFields(form, svc.isEmail)| == 0 && FindUserByEmail(s.users, form.email.value).None?
              && FindUser(s.users, svc.newUserId).None? && form.role == Some("PROVIDER") && form.multipart
              && form.profileImage.Some? && form.idProof.Some? ==>
              var profile := ProfileFor(form, svc.newUserId, svc.newProviderId);
              && (rep.outcome.Ok? <==> RequiredProfileFields(profile) && FindProfile(s.providers, svc.newProviderId).None?)
              && (rep.outcome.Err? ==>
                    rep == Reply(s.(users := s.users + [AccountFor(form, svc)]), [], Err(HttpError(500, Message(ServerError)))))
              && (rep.outcome.Ok? ==>
                    rep == Reply(Store(s.users + [AccountFor(form, svc)], s.providers + [profile], s.requests), [],
                                 Ok(AccountFor(form, svc))))
  {
    var failed := FailedFields(form, svc.isEmail);
    if |failed| > 0 then Reply(s, [], Err(HttpError(400, FieldErrors(failed))))
    else
      assert FieldValid(form, svc.isEmail, "email");
      match FindUserByEmail(s.users, form.email.value)
      case Some(ui) =>
        var existing := s.users[ui];
        Refuse(s, 400, if RecentlyRejected(s, existing, svc.now) then ReapplyLater else EmailTaken)
      case None =>
        if FindUser(s.users, svc.newUserId).Some? then Refuse(s, 500, ServerError)
        else
          var user := AccountFor(form, svc);
          var s1 := s.(users := s.users + [user]);
          if user.role != Provider then Reply(s1, [], Ok(user))
          else if !form.multipart then Reply(s1, [], Err(HttpError(500, Message(ServerError))))
          else if form.profileImage.None? || form.idProof.None? then Reply(s1, [], Err(HttpError(400, Message(FilesRequired))))
          else
            var profile := ProfileFor(form, user.id, svc.newProviderId);
            if !RequiredProfileFields(profile) || FindProfile(s.providers, svc.newProviderId).Some? then
              Reply(s1, [], Err(HttpError(500, Message(ServerError))))
            else
              Reply(s1.(providers := s.providers + [profile]), [], Ok(user))
  }

  /** POST /auth/login; `matches` is the password-hash comparison. */
  function Login(
    users: seq<User>, email: Option<string>, password: Option<string>,
    isEmail: string -> bool, matches: (string, string) -> bool)
    : (r: Result<User, HttpError>)
    ensures r.Ok? <==>
              && email.Some? && isEmail(email.value) && Truthy(password)
              && FindUserByEmail(users, email.value).Some?
              && matches(password.value, users[FindUserByEmail(users, email.value).value].passwordHash)
    ensures r.Ok? ==> r.value in users && r.value.email == email.value
    ensures r.Err? && email.Some? && isEmail(email.value) && Truthy(password) ==>
              r.error == HttpError(400, Message(InvalidCredentials))
    ensures r.Err? ==> r.error.code == 400
  {
    var failed := (if email.Some? && isEmail(email.value) then [] else ["email"])
                  + (if Truthy(password) then [] else ["password"]);
    if |failed| > 0 then Err(HttpError(400, FieldErrors(failed)))
    else match FindUserByEmail(users, email.value)
      case None => Err(HttpError(400, Message(InvalidCredentials)))
      case Some(ui) =>
        if !matches(password.value, users[ui].passwordHash) then Err(HttpError(400, Message(InvalidCredentials)))
        else Ok(users[ui])
  }
}
