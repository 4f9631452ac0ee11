/** The contact page of src/components/contact.jsx: it fetches the site
    details (falling back to a fixed record when that fails) and renders
    an e-mail link, a location block, a `tel:` link and three social
    buttons, each only when its data is present. */
module Contact {
  import opened Js
  import opened Seqs
  import opened Text
  import opened SiteDetails

  const DefaultWhatsAppNumber := "918137008256"
  const DefaultWhatsAppMessage := "Hi, Adarsh"
  const WhatsAppPrefix := "https://wa.me/"
  const TextQuery := "?text="

  /** The record the page shows when the fetch fails or answers non-ok. */
  const Fallback := Doc(
    None, None, None, None,
    Some("adarshpmanimandiram@gmail.com"), Some("+91 8137008256"),
    Some("Kottayam"), Some("Kerala"), Some("India"),
    Some(DefaultWhatsAppNumber), Some(DefaultWhatsAppMessage),
    Some("https://www.linkedin.com/in/adarsh-varrier/"), Some("https://github.com/adarsh-varrier"))

  /** `fetchDetails`: the body of an ok response, otherwise the fallback. */
  function LoadedDetails(response: Response): (d: Doc)
    ensures response.Response? && response.ok ==> d == response.body
    ensures !(response.Response? && response.ok) ==> d == Fallback
  {
    match OkBody(response)
    case Some(body) => body
    case None => Fallback
  }

  /** `[a, b].filter(Boolean)`: the truthy members, unwrapped, in order.
      Wrapped back in `Some`, the result is exactly the truthy members. */
  function Compact(xs: seq<Option<string>>): (r: seq<string>)
    ensures forall i :: 0 <= i < |r| ==> r[i] != ""
    ensures Present(r) == Filter(Truthy, xs)
    decreases |xs|
  {
    if xs == [] then []
    else if Truthy(xs[0]) then
      var rest := Compact(xs[1..]);
      assert Present([xs[0].value] + rest) == [xs[0]] + Present(rest);
      [xs[0].value] + rest
    else Compact(xs[1..])
  }

  /** The strings of `r`, each wrapped in `Some`. */
  function Present(r: seq<string>): seq<Option<string>>
  {
    seq(|r|, i requires 0 <= i < |r| => Some(r[i]))
  }

  /** Every truthy member is kept as often as it occurs, and in order. */
  lemma CompactKeepsEveryValue(xs: seq<Option<string>>)
    ensures Subseq(Present(Compact(xs)), xs)
    ensures forall s :: s != "" ==> multiset(Present(Compact(xs)))[Some(s)] == multiset(xs)[Some(s)]
  {
    FilterIsSubseq(Truthy, xs);
    forall s | s != "" ensures multiset(Present(Compact(xs)))[Some(s)] == multiset(xs)[Some(s)] {
      FilterKeepsEverySatisfier(Truthy, xs, Some(s));
    }
  }

  /** The `<h3>` line of the location block: state and country joined with
      ", ", rendered only when one of them is present. */
  function LocationLine(d: Doc): Option<string>
  {
    if Truthy(d.state) || Truthy(d.country) then Some(Join(Compact([d.state, d.country]), ", "))
    else None
  }

  /** The four cases of the location line. */
  lemma LocationLineCases(d: Doc)
    ensures Truthy(d.state) && Truthy(d.country) ==>
              LocationLine(d) == Some(d.state.value + ", " + d.country.value)
    ensures Truthy(d.state) && !Truthy(d.country) ==> LocationLine(d) == Some(d.state.value)
    ensures !Truthy(d.state) && Truthy(d.country) ==> LocationLine(d) == Some(d.country.value)
    ensures !Truthy(d.state) && !Truthy(d.country) ==> LocationLine(d) == None
  {
    var xs := [d.state, d.country];
    assert xs[1..] == [d.country] && [d.country][1..] == [];
    var tail := Compact([d.country]);
    assert tail == if Truthy(d.country) then [d.country.value] else [];
    assert Compact(xs) == if Truthy(d.state) then [d.state.value] + tail else tail;
    if Truthy(d.state) && Truthy(d.country) {
      var parts := [d.state.value, d.country.value];
      assert Compact(xs) == parts && parts[1..] == [d.country.value];
      assert Join(parts, ", ") == d.state.value + ", " + Join([d.country.value], ", ");
    }
  }

  /** The number and message the WhatsApp button uses: the details' values,
      or the defaults when those are missing or empty. */
  function WhatsAppNumber(d: Doc): (n: string)
    ensures n != ""
    ensures Truthy(d.whatsappNumber) ==> n == d.whatsappNumber.value
    ensures !Truthy(d.whatsappNumber) ==> n == DefaultWhatsAppNumber
  {
    OrElse(d.whatsappNumber, DefaultWhatsAppNumber)
  }

  function WhatsAppMessage(d: Doc): (m: string)
    ensures m != ""
    ensures Truthy(d.whatsappMessage) ==> m == d.whatsappMessage.value
    ensures !Truthy(d.whatsappMessage) ==> m == DefaultWhatsAppMessage
  {
    OrElse(d.whatsappMessage, DefaultWhatsAppMessage)
  }

  /** The WhatsApp link: `https://wa.me/`, then the number, then `?text=`
      and the message encoded by `encode` (`encodeURIComponent`). */
  function WhatsAppUrl(d: Doc, encode: string -> string): (url: string)
    ensures |url| >= |WhatsAppPrefix| + |WhatsAppNumber(d)| + |TextQuery|
    ensures url[..|WhatsAppPrefix|] == WhatsAppPrefix
    ensures url[|WhatsAppPrefix|..|WhatsAppPrefix| + |WhatsAppNumber(d)|] == WhatsAppNumber(d)
    ensures url[|WhatsAppPrefix| + |WhatsAppNumber(d)|..][..|TextQuery|] == TextQuery
    ensures url[|WhatsAppPrefix| + |WhatsAppNumber(d)| + |TextQuery|..] == encode(WhatsAppMessage(d))
  {
    WhatsAppPrefix + WhatsAppNumber(d) + TextQuery + encode(WhatsAppMessage(d))
  }

  /** The location block: the city heading and the state/country line. */
  datatype LocationBlock = LocationBlock(city: Option<string>, line: Option<string>)

  /** A link as rendered: its `href` and its visible text. */
  datatype Link = Link(href: string, text: string)

  /** What the loaded page shows; `None` for a block that is not rendered. */
  datatype ContactView = ContactView(
    email: Option<Link>,
    location: Option<LocationBlock>,
    phone: Option<Link>,
    whatsApp: Option<string>,
    linkedin: Option<string>,
    github: Option<string>)

  function Render(d: Doc, encode: string -> string): ContactView
  {
    ContactView(
      if Truthy(d.email) then Some(Link("mailto:" + d.email.value, d.email.value)) else None,
      if Truthy(d.city) || Truthy(d.state) || Truthy(d.country) then
        Some(LocationBlock(if Truthy(d.city) then d.city else None, LocationLine(d)))
      else None,
      if Truthy(d.phoneNumber) then Some(Link(TelHref(d.phoneNumber.value), d.phoneNumber.value)) else None,
      if Truthy(d.whatsappNumber) then Some(WhatsAppUrl(d, encode)) else None,
      if Truthy(d.linkedinUrl) then d.linkedinUrl else None,
      if Truthy(d.githubUrl) then d.githubUrl else None)
  }

  /** Which blocks the page shows, and what the phone link dials: each
      block appears exactly when its data is present; the location block
      when any of city, state or country is; the `tel:` number is the phone
      with all whitespace removed and every other character kept in order. */
  lemma RenderSpec(d: Doc, encode: string -> string)
    ensures Render(d, encode).email.Some? <==> Truthy(d.email)
    ensures Render(d, encode).location.Some? <==> Truthy(d.city) || Truthy(d.state) || Truthy(d.country)
    ensures Render(d, encode).location.Some? ==>
              (Render(d, encode).location.value.city.Some? <==> Truthy(d.city))
              && (Render(d, encode).location.value.line.Some? <==> Truthy(d.state) || Truthy(d.country))
    ensures Render(d, encode).phone.Some? <==> Truthy(d.phoneNumber)
    ensures Render(d, encode).phone.Some? ==>
              var href := Render(d, encode).phone.value.href;
              && href[..4] == "tel:"
              && (forall i :: 4 <= i < |href| ==> !IsWhitespace(href[i]))
              && Subseq(href[4..], d.phoneNumber.value)
              && (forall c :: !IsWhitespace(c) ==> multiset(href[4..])[c] == multiset(d.phoneNumber.value)[c])
    ensures Render(d, encode).whatsApp.Some? <==> Truthy(d.whatsappNumber)
    ensures Render(d, encode).linkedin.Some? <==> Truthy(d.linkedinUrl)
    ensures Render(d, encode).github.Some? <==> Truthy(d.githubUrl)
  {
    if Truthy(d.phoneNumber) {
      var phone := d.phoneNumber.value;
      StripWhitespaceSpec(phone);
      assert TelHref(phone)[4..] == StripWhitespace(phone);
    }
  }

  /** The WhatsApp button is rendered only when the details carry a number,
      so the default number never reaches a rendered link: the button
      always dials the details' own number. */
  lemma WhatsAppButtonDialsOwnNumber(d: Doc, encode: string -> string)
    requires Render(d, encode).whatsApp.Some?
    ensures Render(d, encode).whatsApp.value ==
              WhatsAppPrefix + d.whatsappNumber.value + TextQuery + encode(WhatsAppMessage(d))
  {
  }

  /** The fallback record carries every field the page shows, so (by
      `RenderSpec`) a failed fetch renders every block; its location line
      reads "Kerala, India". */
  lemma FallbackPage()
    ensures Truthy(Fallback.email) && Truthy(Fallback.phoneNumber)
    ensures Truthy(Fallback.city) && Truthy(Fallback.state) && Truthy(Fallback.country)
    ensures Truthy(Fallback.whatsappNumber) && Truthy(Fallback.whatsappMessage)
    ensures Truthy(Fallback.linkedinUrl) && Truthy(Fallback.githubUrl)
    ensures LocationLine(Fallback) == Some("Kerala, India")
  {
    LocationLineCases(Fallback);
    assert Fallback.state.value + ", " + Fallback.country.value == "Kerala, India";
  }
}
