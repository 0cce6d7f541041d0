/** The fields of Go's `url.URL` that the proxy reads or rewrites. */
module NetUrl {
  import opened Outcomes

  /** `url.Userinfo`: a user name and an optional password. */
  datatype Userinfo = Userinfo(username: string, password: Option<string>)

  /**
   * A parsed URL. `user` is `None` where Go's `URL.User` is nil. Parsing
   * itself (`url.Parse`) is not part of this model.
   */
  datatype Url = Url(
    scheme: string,
    user: Option<Userinfo>,
    host: string,
    path: string,
    rawQuery: string,
    fragment: string)
}
