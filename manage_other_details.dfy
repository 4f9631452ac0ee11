/** The admin editor for the site-wide details, src/components/manageotherdetails.jsx.

    The editor keeps one `details` record. Its two lists, `roles` and
    `aboutParagraphs`, are edited element by element (replace, append a
    blank, remove at an index) and are never empty; its eleven text fields
    are set one at a time by the form's inputs. A fetch normalises the
    document into the record; a submit sends the record with the blank
    list entries dropped. */
module ManageOtherDetails {
  import opened Js
  import opened Seqs
  import opened Text
  import opened SiteDetails

  /** The editor's record: every text field a string, both lists present. */
  datatype Details = Details(
    name: string,
    roles: seq<string>,
    location: string,
    aboutParagraphs: seq<string>,
    email: string,
    phoneNumber: string,
    city: string,
    state: string,
    country: string,
    whatsappNumber: string,
    whatsappMessage: string,
    linkedinUrl: string,
    githubUrl: string)

  /** The `name` attributes of the form's text inputs. */
  datatype Field =
    | Name | Location | Email | PhoneNumber | City | State | Country
    | WhatsappNumber | WhatsappMessage | LinkedinUrl | GithubUrl

  /** The editor's state before the fetch: every field empty, each list one blank entry. */
  const Blank := Details("", [""], "", [""], "", "", "", "", "", "", "", "", "")

  /** The invariant of the editor: neither list is ever empty. */
  predicate ListsNonEmpty(d: Details)
  {
    |d.roles| > 0 && |d.aboutParagraphs| > 0
  }

  function FieldValue(d: Details, f: Field): string
  {
    match f
    case Name => d.name
    case Location => d.location
    case Email => d.email
    case PhoneNumber => d.phoneNumber
    case City => d.city
    case State => d.state
    case Country => d.country
    case WhatsappNumber => d.whatsappNumber
    case WhatsappMessage => d.whatsappMessage
    case LinkedinUrl => d.linkedinUrl
    case GithubUrl => d.githubUrl
  }

  function DocField(doc: Doc, f: Field): Option<string>
  {
    match f
    case Name => doc.name
    case Location => doc.location
    case Email => doc.email
    case PhoneNumber => doc.phoneNumber
    case City => doc.city
    case State => doc.state
    case Country => doc.country
    case WhatsappNumber => doc.whatsappNumber
    case WhatsappMessage => doc.whatsappMessage
    case LinkedinUrl => doc.linkedinUrl
    case GithubUrl => doc.githubUrl
  }

  /** `handleChange`: `{...prev, [name]: value}`. The named field takes the
      value; every other field and both lists are unchanged. */
  function WithField(d: Details, f: Field, v: string): (r: Details)
    ensures FieldValue(r, f) == v
    ensures forall g :: g != f ==> FieldValue(r, g) == FieldValue(d, g)
    ensures r.roles == d.roles && r.aboutParagraphs == d.aboutParagraphs
  {
    match f
    case Name => d.(name := v)
    case Location => d.(location := v)
    case Email => d.(email := v)
    case PhoneNumber => d.(phoneNumber := v)
    case City => d.(city := v)
    case State => d.(state := v)
    case Country => d.(country := v)
    case WhatsappNumber => d.(whatsappNumber := v)
    case WhatsappMessage => d.(whatsappMessage := v)
    case LinkedinUrl => d.(linkedinUrl := v)
    case GithubUrl => d.(githubUrl := v)
  }

  /** A fetched list: kept when present and non-empty, else one blank entry. */
  function ListOrBlank(list: Option<seq<string>>): (r: seq<string>)
    ensures |r| > 0
    ensures list.Some? && |list.value| > 0 ==> r == list.value
    ensures !(list.Some? && |list.value| > 0) ==> r == [""]
  {
    if list.Some? && |list.value| > 0 then list.value else [""]
  }

  /** The record `fetchDetails` builds from the document: each text field
      `data.f || ''`, each list through `ListOrBlank`. */
  function Normalize(doc: Doc): (r: Details)
    ensures ListsNonEmpty(r)
    ensures forall f :: FieldValue(r, f) == OrElse(DocField(doc, f), "")
    ensures r.roles == ListOrBlank(doc.roles) && r.aboutParagraphs == ListOrBlank(doc.aboutParagraphs)
  {
    Details(
      OrElse(doc.name, ""), ListOrBlank(doc.roles), OrElse(doc.location, ""),
      ListOrBlank(doc.aboutParagraphs), OrElse(doc.email, ""), OrElse(doc.phoneNumber, ""),
      OrElse(doc.city, ""), OrElse(doc.state, ""), OrElse(doc.country, ""),
      OrElse(doc.whatsappNumber, ""), OrElse(doc.whatsappMessage, ""),
      OrElse(doc.linkedinUrl, ""), OrElse(doc.githubUrl, ""))
  }

  /** The document the backend stores for a record it is sent: every field present. */
  function AsDoc(d: Details): Doc
  {
    Doc(
      Some(d.name), Some(d.roles), Some(d.location), Some(d.aboutParagraphs),
      Some(d.email), Some(d.phoneNumber), Some(d.city), Some(d.state), Some(d.country),
      Some(d.whatsappNumber), Some(d.whatsappMessage), Some(d.linkedinUrl), Some(d.githubUrl))
  }

  /** One of the three edits each list supports. */
  datatype ListEdit = Change(index: int, value: string) | Add | Remove(index: int)

  /** An edit is applicable when a `Change` names an entry that is shown. */
  predicate Applicable(s: seq<string>, e: ListEdit)
  {
    e.Change? ==> 0 <= e.index < |s|
  }

  /** The list handlers: `handleRoleChange`/`handleAboutChange` replace one
      entry, `addRole`/`addAboutParagraph` append a blank entry,
      `removeRole`/`removeAboutParagraph` drop the entry at an index, but
      only while the list has more than one entry. */
  function EditList(s: seq<string>, e: ListEdit): (r: seq<string>)
    requires Applicable(s, e)
    ensures |s| > 0 ==> |r| > 0
    ensures e.Change? ==> |r| == |s| && r[e.index] == e.value
                          && forall j :: 0 <= j < |s| && j != e.index ==> r[j] == s[j]
    ensures e.Add? ==> |r| == |s| + 1 && r[..|s|] == s && r[|s|] == ""
    ensures e.Remove? && |s| > 1 && 0 <= e.index < |s| ==>
              |r| == |s| - 1 && r[..e.index] == s[..e.index] && r[e.index..] == s[e.index + 1..]
    ensures e.Remove? && (|s| <= 1 || !(0 <= e.index < |s|)) ==> r == s
  {
    match e
    case Change(i, v) => s[i := v]
    case Add => s + [""]
    case Remove(i) => if |s| > 1 then RemoveIndex(s, i) else s
  }

  /** Removing the only entry of a list is refused: the list stays as it is. */
  lemma RemoveLastEntryRefused(v: string, i: int)
    ensures EditList([v], Remove(i)) == [v]
  {
  }

  /** Adding a blank entry and then removing it gives back the list. */
  lemma {:induction false} AddThenRemoveRestores(s: seq<string>)
    requires |s| > 0
    ensures EditList(EditList(s, Add), Remove(|s|)) == s
  {
    var t := EditList(s, Add);
    assert t[..|s|] == s;
  }

  /** The JSON body `handleSubmit` sends: the record with every blank entry
      of both lists dropped. */
  function SubmitPayload(d: Details): (r: Details)
    ensures r.(roles := d.roles, aboutParagraphs := d.aboutParagraphs) == d
    ensures |r.roles| <= |d.roles| && |r.aboutParagraphs| <= |d.aboutParagraphs|
  {
    d.(roles := KeepNonBlank(d.roles), aboutParagraphs := KeepNonBlank(d.aboutParagraphs))
  }

  /** The submitted lists are exactly the non-blank entries of the edited
      lists, in their order, with none lost. */
  lemma SubmitPayloadSpec(d: Details)
    ensures forall i :: 0 <= i < |SubmitPayload(d).roles| ==> !IsBlank(SubmitPayload(d).roles[i])
    ensures forall i :: 0 <= i < |SubmitPayload(d).aboutParagraphs| ==> !IsBlank(SubmitPayload(d).aboutParagraphs[i])
    ensures Subseq(SubmitPayload(d).roles, d.roles) && Subseq(SubmitPayload(d).aboutParagraphs, d.aboutParagraphs)
    ensures forall s :: !IsBlank(s) ==> multiset(SubmitPayload(d).roles)[s] == multiset(d.roles)[s]
    ensures forall s :: !IsBlank(s) ==> multiset(SubmitPayload(d).aboutParagraphs)[s] == multiset(d.aboutParagraphs)[s]
  {
    KeepNonBlankSpec(d.roles);
    KeepNonBlankSpec(d.aboutParagraphs);
  }

  /** Saving and fetching again: the text fields come back as sent, and
      each list comes back as its non-blank entries (or one blank entry if
      there are none). */
  lemma SaveThenReload(d: Details)
    ensures forall f :: FieldValue(Normalize(AsDoc(SubmitPayload(d))), f) == FieldValue(d, f)
    ensures Normalize(AsDoc(SubmitPayload(d))).roles == ListOrBlank(Some(KeepNonBlank(d.roles)))
    ensures Normalize(AsDoc(SubmitPayload(d))).aboutParagraphs == ListOrBlank(Some(KeepNonBlank(d.aboutParagraphs)))
  {
    forall f ensures FieldValue(Normalize(AsDoc(SubmitPayload(d))), f) == FieldValue(d, f) {
      match f
      case Name =>
      case Location =>
      case Email =>
      case PhoneNumber =>
      case City =>
      case State =>
      case Country =>
      case WhatsappNumber =>
      case WhatsappMessage =>
      case LinkedinUrl =>
      case GithubUrl =>
    }
  }

  /** A record whose list entries are all non-blank survives a save and a
      fetch unchanged. */
  lemma CleanRecordRoundTrips(d: Details)
    requires ListsNonEmpty(d)
    requires forall i :: 0 <= i < |d.roles| ==> !IsBlank(d.roles[i])
    requires forall i :: 0 <= i < |d.aboutParagraphs| ==> !IsBlank(d.aboutParagraphs[i])
    ensures Normalize(AsDoc(SubmitPayload(d))) == d
  {
    KeepNonBlankExtremes(d.roles);
    KeepNonBlankExtremes(d.aboutParagraphs);
    SaveThenReload(d);
  }

  /** What `handleSubmit`'s PUT came to: a response with its `ok` flag and
      the body's `message` (if any), or a thrown error with its message. */
  datatype SaveResponse = Saved(ok: bool, message: Option<string>) | SaveThrew(reason: string)

  const SavedMessage := "Details updated successfully!"
  const FetchFailedMessage := "Failed to fetch details"
  const SaveFailedMessage := "Failed to update details"

  /** The editor component's state: the record, the loading flag, and the
      error and success banners. */
  class OtherDetailsEditor {
    var details: Details
    var loading: bool
    var error: string
    var success: string

    ghost predicate Valid()
      reads this
    {
      ListsNonEmpty(details)
    }

    /** Mounting: the blank record, loading, no banners. */
    constructor ()
      ensures Valid()
      ensures details == Blank && loading && error == "" && success == ""
    {
      details := Blank;
      loading := true;
      error := "";
      success := "";
    }

    /** `fetchDetails`. The response's `ok` flag is not consulted: any JSON
        body is normalised into the record; only a thrown error keeps the
        record and raises the error banner. Loading ends either way. */
    method FetchDetails(response: Response)
      requires Valid()
      modifies this
      ensures Valid()
      ensures response.Response? ==> details == Normalize(response.body) && error == old(error)
      ensures response.Threw? ==> details == old(details) && error == FetchFailedMessage
      ensures !loading && success == old(success)
    {
      match response {
        case Response(_, body) =>
          details := Normalize(body);
        case Threw =>
          error := FetchFailedMessage;
      }
      loading := false;
    }

    /** `handleChange` for the input named `f`. */
    method HandleChange(f: Field, v: string)
      requires Valid()
      modifies this`details
      ensures Valid()
      ensures details == WithField(old(details), f, v)
    {
      details := WithField(details, f, v);
    }

    /** `handleRoleChange(index, value)`: copy the list, assign the entry. */
    method HandleRoleChange(index: int, value: string)
      requires Valid()
      requires 0 <= index < |details.roles|
      modifies this`details
      ensures Valid()
      ensures details == old(details).(roles := EditList(old(details.roles), Change(index, value)))
    {
      var newRoles := details.roles;
      newRoles := newRoles[index := value];
      details := details.(roles := newRoles);
    }

    /** `addRole`. */
    method AddRole()
      requires Valid()
      modifies this`details
      ensures Valid()
      ensures details == old(details).(roles := EditList(old(details.roles), Add))
    {
      details := details.(roles := details.roles + [""]);
    }

    /** `removeRole(index)`: acts only while there is more than one role. */
    method RemoveRole(index: int)
      requires Valid()
      modifies this`details
      ensures Valid()
      ensures details == old(details).(roles := EditList(old(details.roles), Remove(index)))
    {
      if |details.roles| > 1 {
        var newRoles := RemoveIndex(details.roles, index);
        details := details.(roles := newRoles);
      }
    }

    /** `handleAboutChange(index, value)`. */
    method HandleAboutChange(index: int, value: string)
      requires Valid()
      requires 0 <= index < |details.aboutParagraphs|
      modifies this`details
      ensures Valid()
      ensures details == old(details).(aboutParagraphs := EditList(old(details.aboutParagraphs), Change(index, value)))
    {
      var newParagraphs := details.aboutParagraphs;
      newParagraphs := newParagraphs[index := value];
      details := details.(aboutParagraphs := newParagraphs);
    }

    /** `addAboutParagraph`. */
    method AddAboutParagraph()
      requires Valid()
      modifies this`details
      ensures Valid()
      ensures details == old(details).(aboutParagraphs := EditList(old(details.aboutParagraphs), Add))
    {
      details := details.(aboutParagraphs := details.aboutParagraphs + [""]);
    }

    /** `removeAboutParagraph(index)`: acts only while there is more than one paragraph. */
    method RemoveAboutParagraph(index: int)
      requires Valid()
      modifies this`details
      ensures Valid()
      ensures details == old(details).(aboutParagraphs := EditList(old(details.aboutParagraphs), Remove(index)))
    {
      if |details.aboutParagraphs| > 1 {
        var newParagraphs := RemoveIndex(details.aboutParagraphs, index);
        details := details.(aboutParagraphs := newParagraphs);
      }
    }

    /** `handleSubmit`: clear both banners, send the payload, then raise the
        success banner on an ok response, or the error banner with the
        response's `message` (default "Failed to update details") or the
        thrown error's message. The record itself is not changed. */
    method HandleSubmit(response: SaveResponse) returns (payload: Details)
      requires Valid()
      modifies this`error, this`success
      ensures Valid()
      ensures payload == SubmitPayload(details)
      ensures response.Saved? && response.ok ==> success == SavedMessage && error == ""
      ensures response.Saved? && !response.ok ==> success == "" && error == OrElse(response.message, SaveFailedMessage)
      ensures response.SaveThrew? ==> success == "" && error == response.reason
    {
      error := "";
      success := "";
      payload := SubmitPayload(details);
      match response {
        case Saved(ok, message) =>
          if ok {
            success := SavedMessage;
          } else {
            error := OrElse(message, SaveFailedMessage);
          }
        case SaveThrew(reason) =>
          error := reason;
      }
    }
  }
}
