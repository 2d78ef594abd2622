/** The create/edit card dialog: initial values from the current card, the
    schema, and the submit and close handlers that reset the form. */
module CardModal {
  import opened Entities
  import opened Rules

  datatype CardForm = CardForm(
    image: Image,
    title: string,
    description: string,
    subtitle: string,
    phone: string,
    email: string,
    web: string,
    address: Address)

  const Blank := CardForm(Image("", ""), "", "", "", "", "", "", Address("", "", "", "", "", ""))

  /** The form state; `initial` is recomputed when the current card changes. */
  datatype ModalState = ModalState(values: CardForm, initial: CardForm, show: bool)

  /** Each field mirrors the current card, "" when there is none. */
  function InitialFrom(current: Option<Card>): (f: CardForm)
    ensures current.None? ==> f == Blank
  {
    match current
    case None => Blank
    case Some(c) => CardForm(c.image, c.title, c.description, c.subtitle, c.phone, c.email, c.web, c.address)
  }

  /** The card the form's values describe. */
  function Apply(c: Card, f: CardForm): Card
  {
    c.(image := f.image, title := f.title, description := f.description, subtitle := f.subtitle,
       phone := f.phone, email := f.email, web := f.web, address := f.address)
  }

  /** The initial values describe the current card exactly. */
  lemma InitialRoundTrip(c: Card)
    ensures Apply(c, InitialFrom(Some(c))) == c
  {
  }

  /** The schema: URL required, alt at most 256, title and subtitle 2..256,
      phone 9..11 characters of any kind, street, country and city required;
      the other fields are free. */
  ghost predicate Valid(k: Checks, f: CardForm)
  {
    && f.image.url != "" && k.isUrl(f.image.url)
    && |f.image.alt| <= 256
    && RequiredLength(f.title, 2, 256)
    && RequiredLength(f.subtitle, 2, 256)
    && RequiredLength(f.phone, 9, 11)
    && Required(f.address.street)
    && Required(f.address.country)
    && Required(f.address.city)
  }

  /** Description, e-mail, web, state, house number and zip never decide
      validity. */
  lemma FreeFieldsIgnored(k: Checks, f: CardForm, description: string, email: string, web: string,
                          state: string, houseNumber: string, zip: string)
    ensures Valid(k, f) == Valid(k, f.(description := description, email := email, web := web,
      address := f.address.(state := state, houseNumber := houseNumber, zip := zip)))
  {
  }

  /** Opening the dialog for a card (or for none). */
  function Reinitialize(current: Option<Card>, show: bool): (m: ModalState)
    ensures m.values == m.initial && m.show == show
  {
    var f := InitialFrom(current);
    ModalState(f, f, show)
  }

  /** `disabled={!formik.isValid || !formik.dirty}` on Done. */
  ghost predicate DoneDisabled(k: Checks, m: ModalState)
  {
    !SubmitEnabled(m.values, m.initial, Valid(k, m.values))
  }

  /** `onSubmit`: hand the current values to the page's action, then reset
      the form; showing or hiding is the action's business. */
  function Submit(m: ModalState): (r: (CardForm, ModalState))
    ensures r.0 == m.values
    ensures r.1.values == m.initial && r.1.initial == m.initial && r.1.show == m.show
  {
    (m.values, m.(values := m.initial))
  }

  /** `onClose`: reset the form and hide the dialog. */
  function Close(m: ModalState): (r: ModalState)
    ensures !r.show && r.values == m.initial && r.initial == m.initial
  {
    m.(values := m.initial, show := false)
  }

  /** After opening, submitting or closing, Done stays disabled until the
      next edit. */
  lemma ResetDisablesDone(k: Checks, m: ModalState, current: Option<Card>, show: bool)
    ensures DoneDisabled(k, Reinitialize(current, show))
    ensures DoneDisabled(k, Submit(m).1)
    ensures DoneDisabled(k, Close(m)) && !Close(m).show
  {
  }

  /** What Submit hands to the page describes the edited card: submitting a
      dialog opened for `c` with its values untouched sends `c` back
      unchanged, and an edited field is exactly what changes. */
  lemma SubmitDescribesCard(c: Card, title: string)
    ensures Apply(c, Submit(Reinitialize(Some(c), true)).0) == c
    ensures var m := Reinitialize(Some(c), true);
      Apply(c, Submit(m.(values := m.values.(title := title))).0) == c.(title := title)
  {
  }

  /** A blank dialog is not valid: the title is required. */
  lemma BlankInvalid(k: Checks)
    ensures !Valid(k, Blank)
  {
  }
}
