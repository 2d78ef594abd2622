/** The records the client holds: cards and users as the server returns them,
    and the claims carried by a decoded access token. A field the server
    leaves out is the empty string, which the client treats the same way as
    a missing value. */
module Entities {

  datatype Option<T> = None | Some(value: T)

  datatype Name = Name(first: string, middle: string, last: string)

  datatype Image = Image(url: string, alt: string)

  datatype Address = Address(
    state: string,
    country: string,
    city: string,
    street: string,
    houseNumber: string,
    zip: string)

  /** A business card; `likes` holds the ids of the users who liked it. */
  datatype Card = Card(
    id: string,
    title: string,
    subtitle: string,
    description: string,
    phone: string,
    email: string,
    web: string,
    image: Image,
    address: Address,
    bizNumber: int,
    likes: seq<string>,
    createdAt: string)

  datatype User = User(
    id: string,
    name: Name,
    phone: string,
    email: string,
    image: Image,
    address: Address,
    isBusiness: bool,
    isAdmin: bool)

  /** The claims of a decoded token. A claim the token does not carry is
      `None` for the id and false for the role flags, which is how the pages
      read an undefined property. */
  datatype Claims = Claims(id: Option<string>, isBusiness: bool, isAdmin: bool)

  /** The empty object `{}` the session holds when nobody is logged in. */
  const NoClaims := Claims(None, false, false)

  /** `userData._id` is truthy: present and not the empty string. */
  predicate HasUserId(c: Claims)
  {
    c.id.Some? && c.id.value != ""
  }
}
