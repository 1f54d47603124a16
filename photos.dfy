/** The photo record both pages render: the shape of an Unsplash search
    result, which the placeholder generators imitate. A field that one
    producer leaves out is `None`. */
module Photos {
  import opened Wrappers

  datatype Urls = Urls(regular: string, thumb: string, small: Option<string>)

  datatype User = User(name: string, username: string, profileImageSmall: Option<string>)

  datatype Location = Location(city: string, country: Option<string>)

  /** `createdAt` is the instant of `created_at` in milliseconds since the
      epoch. `downloadLocation` is `links.download_location`; `None` stands
      for a record without `links`. */
  datatype Photo = Photo(
    id: string,
    urls: Urls,
    user: User,
    location: Location,
    createdAt: int,
    likes: int,
    description: string,
    altDescription: Option<string>,
    downloadLocation: Option<string>)

  /** Length of `Array.from({ length: count }, ...)` for an integral
      `count`: a negative length gives an empty array. */
  function ArrayLength(count: int): (n: nat)
    ensures count >= 0 ==> n == count
    ensures count < 0 ==> n == 0
  {
    if count < 0 then 0 else count
  }
}
