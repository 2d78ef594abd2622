/** The registration form: initial values, schema and the submit gate. */
module Register {
  import opened Entities
  import opened Rules

  datatype RegisterForm = RegisterForm(
    name: Name,
    phone: string,
    email: string,
    password: string,
    image: Image,
    address: Address,
    isBusiness: bool)

  /** Every text field empty and `isBusiness` false. */
  const Initial := RegisterForm(
    Name("", "", ""), "", "", "", Image("", ""), Address("", "", "", "", "", ""), false)

  /** The schema. Middle name, image and state are optional; house number
      needs only one character. */
  ghost predicate Valid(k: Checks, f: RegisterForm)
  {
    && RequiredLength(f.name.first, 2, 256)
    && OptionalLength(f.name.middle, 2, 256)
    && RequiredLength(f.name.last, 2, 256)
    && PhoneField(f.phone)
    && RequiredEmail(k, f.email)
    && PasswordField(f.password)
    && (f.image.url == "" || (k.isUrl(f.image.url) && |f.image.url| >= 14))
    && OptionalLength(f.image.alt, 2, 256)
    && OptionalLength(f.address.state, 2, 256)
    && RequiredLength(f.address.country, 2, 256)
    && RequiredLength(f.address.city, 2, 256)
    && RequiredLength(f.address.street, 2, 256)
    && RequiredLength(f.address.houseNumber, 1, 256)
    && RequiredLength(f.address.zip, 2, 256)
  }

  /** `disabled={!(formik.dirty && formik.isValid)}`. */
  ghost predicate ButtonDisabled(k: Checks, f: RegisterForm)
  {
    !SubmitEnabled(f, Initial, Valid(k, f))
  }

  /** The untouched form is neither dirty nor valid. */
  lemma InitialDisabled(k: Checks)
    ensures !Valid(k, Initial)
    ensures ButtonDisabled(k, Initial)
  {
  }

  /** What an accepted form guarantees about its fields. */
  lemma ValidFieldBounds(k: Checks, f: RegisterForm)
    requires Valid(k, f)
    ensures 2 <= |f.name.first| <= 256 && 2 <= |f.name.last| <= 256
    ensures f.name.middle == "" || 2 <= |f.name.middle| <= 256
    ensures |f.phone| == 10 && f.phone[..2] == "05"
    ensures |f.password| >= 9 && k.isEmail(f.email)
    ensures 1 <= |f.address.houseNumber| <= 256
    ensures f.address.state == "" || 2 <= |f.address.state| <= 256
  {
  }
}
