/** Values shared by every handler and component: optional values (JavaScript's
    `null`/`undefined`), uploaded files and the answer of the media host. */
module Common {

  /** `None` stands for JavaScript's `null` and `undefined` alike. */
  datatype Option<+T> = None | Some(value: T)

  /** A file picked in the browser or received in a multipart body:
      its name, its declared MIME type and its size in bytes. */
  datatype File = File(name: string, mime: string, size: nat)

  /** What the media host answers to an upload: the permanent `secure_url`,
      or a failure, which the handlers let propagate as a thrown error. */
  datatype Upload = Hosted(secureUrl: string) | HostFailed(message: string)

  /** JavaScript truthiness of a value that is either a string or absent:
      `undefined`, `null` and `""` are falsy. */
  predicate Truthy(o: Option<string>)
  {
    o.Some? && o.value != ""
  }

  /** `a || b` on a possibly absent string. */
  function OrElse(a: Option<string>, b: Option<string>): Option<string>
  {
    if Truthy(a) then a else b
  }
}
