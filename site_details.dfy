/** The site-wide "other details" document served at `/api/other-details`,
    as the components receive it: every field may be missing or null. */
module SiteDetails {
  import opened Js

  datatype Doc = Doc(
    name: Option<string>,
    roles: Option<seq<string>>,
    location: Option<string>,
    aboutParagraphs: Option<seq<string>>,
    email: Option<string>,
    phoneNumber: Option<string>,
    city: Option<string>,
    state: Option<string>,
    country: Option<string>,
    whatsappNumber: Option<string>,
    whatsappMessage: Option<string>,
    linkedinUrl: Option<string>,
    githubUrl: Option<string>)

  /** How a `fetch` of the document ended: a response with its `ok` flag and
      its parsed JSON body, or a thrown error (network failure, or a body
      that is not JSON). */
  datatype Response = Response(ok: bool, body: Doc) | Threw

  /** The fields a document fetched with `ok` carries, when `ok`; `None`
      for a non-ok response or a thrown error. */
  function OkBody(response: Response): (r: Option<Doc>)
    ensures r.Some? <==> response.Response? && response.ok
    ensures r.Some? ==> r.value == response.body
  {
    if response.Response? && response.ok then Some(response.body) else None
  }
}
