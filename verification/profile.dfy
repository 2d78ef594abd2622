/** The profile page: a form seeded from the fetched user, the edit toggle
    and the save handler. */
module Profile {
  import opened Entities
  import opened Rules
  import Register

  datatype ProfileForm = ProfileForm(
    name: Name,
    phone: string,
    email: string,
    password: string,
    image: Image,
    address: Address)

  const Blank := ProfileForm(
    Name("", "", ""), "", "", "", Image("", ""), Address("", "", "", "", "", ""))

  /** `fetched` is `fullUserData`, `{}` until the fetch resolves. */
  datatype ProfilePage = ProfilePage(fetched: Option<User>, isEditing: bool)

  /** The initial values: each field copied from the fetched user (a missing
      field is ""), the password always empty. */
  function InitialFrom(fetched: Option<User>): (f: ProfileForm)
    ensures f.password == ""
    ensures fetched.None? ==> f == Blank
  {
    match fetched
    case None => Blank
    case Some(u) => ProfileForm(u.name, u.phone, u.email, "", u.image, u.address)
  }

  /** The user record the form's values describe. */
  function Apply(u: User, f: ProfileForm): User
  {
    u.(name := f.name, phone := f.phone, email := f.email, image := f.image, address := f.address)
  }

  /** The initial values describe the fetched user exactly. */
  lemma InitialRoundTrip(u: User)
    ensures Apply(u, InitialFrom(Some(u))) == u
  {
  }

  /** The schema: every address field is required (house number with two
      characters), and so are the image URL and alt text. */
  ghost predicate Valid(k: Checks, f: ProfileForm)
  {
    && RequiredLength(f.name.first, 2, 256)
    && OptionalLength(f.name.middle, 2, 256)
    && RequiredLength(f.name.last, 2, 256)
    && PhoneField(f.phone)
    && RequiredEmail(k, f.email)
    && PasswordField(f.password)
    && f.image.url != "" && k.isUrl(f.image.url) && |f.image.url| >= 14
    && RequiredLength(f.image.alt, 2, 256)
    && RequiredLength(f.address.state, 2, 256)
    && RequiredLength(f.address.country, 2, 256)
    && RequiredLength(f.address.city, 2, 256)
    && RequiredLength(f.address.street, 2, 256)
    && RequiredLength(f.address.houseNumber, 2, 256)
    && RequiredLength(f.address.zip, 2, 256)
  }

  /** `disabled={!(formik.dirty && formik.isValid)}` on Save. */
  ghost predicate SaveDisabled(k: Checks, fetched: Option<User>, f: ProfileForm)
  {
    !SubmitEnabled(f, InitialFrom(fetched), Valid(k, f))
  }

  /** A freshly loaded form is invalid whatever the user: the password is
      required and starts empty. */
  lemma InitialNeverValid(k: Checks, fetched: Option<User>)
    ensures !Valid(k, InitialFrom(fetched))
    ensures SaveDisabled(k, fetched, InitialFrom(fetched))
  {
  }

  /** The same values in the registration form's shape. */
  function ToRegisterForm(f: ProfileForm, isBusiness: bool): Register.RegisterForm
  {
    Register.RegisterForm(f.name, f.phone, f.email, f.password, f.image, f.address, isBusiness)
  }

  /** Same phone, e-mail and password rules as registration, and stricter
      elsewhere: whatever the profile accepts, registration accepts. */
  lemma StricterThanRegister(k: Checks, f: ProfileForm, isBusiness: bool)
    requires Valid(k, f)
    ensures Register.Valid(k, ToRegisterForm(f, isBusiness))
  {
  }

  /** The converse fails: a one-character house number is enough to
      register but not to save a profile. */
  lemma HouseNumberExample(k: Checks, f: ProfileForm)
    requires Register.Valid(k, ToRegisterForm(f, false))
    requires |f.address.houseNumber| == 1
    ensures !Valid(k, f)
  {
  }

  /** `handleEditToggle`. */
  function ToggleEdit(p: ProfilePage): (r: ProfilePage)
    ensures r.isEditing != p.isEditing && r.fetched == p.fetched
  {
    p.(isEditing := !p.isEditing)
  }

  /** The save handler: the reply becomes the fetched user (and so the next
      initial values) and editing ends; a rejection changes nothing. */
  function OnSaveReply(p: ProfilePage, reply: Option<User>): (r: ProfilePage)
    ensures reply.None? ==> r == p
    ensures reply.Some? ==> !r.isEditing && r.fetched == reply
    ensures reply.Some? ==> InitialFrom(r.fetched) == InitialFrom(reply)
  {
    match reply
    case None => p
    case Some(u) => ProfilePage(Some(u), false)
  }

  /** When the server stores what was submitted, the saved values come back
      as the next initial values (the password excepted, which is never
      prefilled) and editing ends; the reinitialised form cannot be saved
      again until the password is typed anew. */
  lemma SavedValuesBecomeInitial(k: Checks, p: ProfilePage, u: User, f: ProfileForm)
    ensures var r := OnSaveReply(p, Some(Apply(u, f)));
      && InitialFrom(r.fetched) == f.(password := "")
      && !r.isEditing
      && SaveDisabled(k, r.fetched, f.(password := ""))
  {
  }

  lemma ToggleEditTwice(p: ProfilePage)
    ensures ToggleEdit(ToggleEdit(p)) == p
  {
  }
}
