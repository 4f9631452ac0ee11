/** The site footer of src/components/footer.jsx: an e-mail and a phone
    link that start from built-in defaults and are overwritten, field by
    field, by whatever the fetched details carry. */
module SiteFooter {
  import opened Js
  import opened Seqs
  import opened Text
  import opened SiteDetails

  const DefaultEmail := "adarshpmanimandiram@gmail.com"
  const DefaultPhone := "+91 8137008256"

  /** The footer's `details` state. */
  datatype FooterDetails = FooterDetails(email: string, phoneNumber: string)

  const Defaults := FooterDetails(DefaultEmail, DefaultPhone)

  /** The effect of `fetchDetails` on `details`: on an ok response each of
      `email` and `phoneNumber` is replaced by the fetched value when that
      is truthy and kept otherwise; a non-ok response or a thrown error
      changes nothing. */
  function Merged(prev: FooterDetails, response: Response): (r: FooterDetails)
    ensures OkBody(response).None? ==> r == prev
    ensures OkBody(response).Some? ==>
              && r.email == OrElse(response.body.email, prev.email)
              && r.phoneNumber == OrElse(response.body.phoneNumber, prev.phoneNumber)
  {
    match OkBody(response)
    case None => prev
    case Some(body) =>
      var withEmail := if Truthy(body.email) then prev.(email := body.email.value) else prev;
      if Truthy(body.phoneNumber) then withEmail.(phoneNumber := body.phoneNumber.value) else withEmail
  }

  /** Each field is decided by its own fetched value alone: the fetched
      phone never affects the e-mail, and the other way round. */
  lemma MergedFieldsIndependent(prev: FooterDetails, body: Doc, phone: Option<string>, email: Option<string>)
    ensures Merged(prev, Response(true, body.(phoneNumber := phone))).email == Merged(prev, Response(true, body)).email
    ensures Merged(prev, Response(true, body.(email := email))).phoneNumber == Merged(prev, Response(true, body)).phoneNumber
  {
  }

  /** Applying the same answer twice is the same as applying it once. */
  lemma MergedIdempotent(prev: FooterDetails, response: Response)
    ensures Merged(Merged(prev, response), response) == Merged(prev, response)
  {
  }

  /** The footer never shows an empty e-mail or phone: starting from the
      defaults, every sequence of fetches keeps both non-empty. */
  lemma {:induction false} NeverBlank(prev: FooterDetails, responses: seq<Response>)
    requires prev.email != "" && prev.phoneNumber != ""
    ensures var r := MergedAll(prev, responses); r.email != "" && r.phoneNumber != ""
    decreases |responses|
  {
    if responses != [] {
      NeverBlank(Merged(prev, responses[0]), responses[1..]);
    }
  }

  function MergedAll(prev: FooterDetails, responses: seq<Response>): FooterDetails
    decreases |responses|
  {
    if responses == [] then prev else MergedAll(Merged(prev, responses[0]), responses[1..])
  }

  /** The footer component's state. */
  class Footer {
    var details: FooterDetails

    /** Mounting: the default e-mail and phone. */
    constructor ()
      ensures details == Defaults
    {
      details := Defaults;
    }

    /** `fetchDetails`: two separate conditional updates of `details`. */
    method FetchDetails(response: Response)
      modifies this
      ensures details == Merged(old(details), response)
    {
      if response.Response? && response.ok {
        var data := response.body;
        if Truthy(data.email) {
          details := details.(email := data.email.value);
        }
        if Truthy(data.phoneNumber) {
          details := details.(phoneNumber := data.phoneNumber.value);
        }
      }
    }
  }
}
