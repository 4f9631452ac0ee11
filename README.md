# Portfolio front end: admin session and site-details logic, in Dafny

This project models the logic at the core of a portfolio web front end
(React): the admin session controller, the admin editor for the site-wide
"other details" record, and the small string formatters of the public
contact, footer and project pages. Each source file becomes one module:

- `auth.dfy` (`Auth`): the session provider. A `Session` value holds the
  persistent store (`map<string, string>` with the keys `adminToken` and
  `adminData`) and the three state cells `token`, `admin` and `loading`.
  The pure functions `Initial`, `Reconciled` (boot), `LoggedIn` and
  `LoggedOut` give each step's meaning. The class `AuthProvider` performs
  the same steps by assignment, and its methods are proved to agree with
  them. The backend's answer to the boot request is an input, `WhoAmI`:
  `Ok(admin)`, `NotOk` or `Failed`. Lemmas prove that boot with no token
  sends no request, that a rejected or failed request fails closed, that
  logout is idempotent, and that login stores exactly what it was given.
  They also prove that every session reachable after boot is `Settled`:
  the `token` cell mirrors the stored token, and an admin is present
  exactly when the token is truthy. This holds under two conditions: a
  2xx answer to the boot request carries an `admin`, and every login
  token is non-empty. A 2xx body without `admin` leaves a truthy token
  beside a null admin.
- `manage_other_details.dfy` (`ManageOtherDetails`): the editor's
  `Details` record and its handlers. `EditList` is the replace, append
  and remove edit for either list. Fetch normalisation is `Normalize`, and
  the submit body is `SubmitPayload`. The class `OtherDetailsEditor` keeps
  the invariant that neither list is ever empty.
- `projects.dfy`, `contact.dfy`, `footer.dfy` (`Projects`, `Contact`,
  `SiteFooter`): the description-to-lines rule, the contact page's
  fallback record, WhatsApp link, location line and block visibility, and
  the footer's field-by-field merge.
- Shared modules: `js.dfy` (`Js`: `Option` for `null`/`undefined`,
  JavaScript truthiness of strings, `a || b`, store lookup); `seqs.dfy`
  (`Seqs`: `filter`, filter-by-index, `join`, `split`, with their laws);
  `text.dfy` (`Text`: the whitespace class of `trim()` and `\s`, `trim()`,
  `replace(/\s/g, '')`, the `tel:` link); `site_details.dfy`
  (`SiteDetails`: the fetched details document, every field optional, and
  the outcome of a fetch).

Truthiness follows the source. A stored `adminToken` of `""` is falsy, so
boot sends no request. The `token` cell then keeps the `""` it read at
mount, while `admin` stays null. That is why `Settled` speaks of a
*truthy* token, and why the reachability lemma needs every login token to
be non-empty.

Two observations about the source, proved in the model:

- The editor's fetch does not check `response.ok`. Any JSON body, including
  an error body, is normalised into the record (blank fields, one blank list
  entry). Only a thrown error keeps the record and shows the error banner
  (`OtherDetailsEditor.FetchDetails`).
- The contact page renders its WhatsApp button only when the details carry
  a number. So the `|| "918137008256"` default at line 48 of the contact page never
  feeds a rendered button: the button always dials the number of the
  details it shows (`Contact.WhatsAppButtonDialsOwnNumber`). The same
  string does appear on the page after a failed fetch, but as the number
  of the fallback record. The default message, by contrast, is used
  whenever the details carry a number but no message.

## Model

| member | source | states |
|---|---|---|
| `Auth.LoggedOut` | src/context/AuthContext.jsx:50-55 | logout removes exactly `adminToken` and `adminData`, keeps every other key, nulls `token` and `admin`, leaves `loading` alone |
| `Auth.LoggedIn` | src/context/AuthContext.jsx:43-48 | login maps `adminToken` to the token and `adminData` to the serialised admin, changes no other key, sets both cells, leaves `loading` alone |
| `Auth.BootRequest` | src/context/AuthContext.jsx:14-18 | boot sends a request exactly when the stored token is truthy, and then with that token |
| `Auth.Reconciled` | src/context/AuthContext.jsx:13-38 | boot ends with `loading` false whatever the outcome |
| `Auth.BootWithoutToken` | src/context/AuthContext.jsx:14-37 | with no truthy stored token, boot sends nothing, ignores any answer and only clears `loading` |
| `Auth.BootAccepted` | src/context/AuthContext.jsx:24-27 | a 2xx answer adopts the answer's admin and the stored token, and leaves the store untouched |
| `Auth.BootFailClosed` | src/context/AuthContext.jsx:28-35 | a non-2xx answer or a thrown error ends exactly like logout, with both keys removed and both cells null |
| `Auth.BootIgnoresCachedProfile` | src/context/AuthContext.jsx:14-27 | the cached `adminData` has no influence on the state boot produces |
| `Auth.LoadingWindow` | src/context/AuthContext.jsx:8-10 | at mount a stored token sits beside a null admin with `loading` true, so the token/admin agreement holds only after boot |
| `Auth.BootSettles` | src/context/AuthContext.jsx:12-41 | after boot the token cell mirrors the store and an admin is present iff the token is truthy (given a 2xx answer carries an admin) |
| `Auth.LogoutIdempotent` | src/context/AuthContext.jsx:50-55 | logging out twice equals logging out once |
| `Auth.LoginThenLogout` | src/context/AuthContext.jsx:43-55 | logout after login leaves the same state as logout alone: login leaves nothing behind |
| `Auth.RunKeepsSettled` | src/context/AuthContext.jsx:43-55 | any sequence of login/logout calls with non-empty tokens keeps a settled session settled |
| `Auth.ReachableSessionsAreSettled` | src/context/AuthContext.jsx:7-58 | mount, boot, then any login/logout calls: the session is settled (`token` mirrors the store, an admin is present exactly when the token is truthy), provided a 2xx boot answer carries an `admin` and every login token is non-empty |
| `Auth.AuthProvider.constructor` | src/context/AuthContext.jsx:8-10 | the provider starts with `admin` null, `token` read from the store, `loading` true |
| `Auth.AuthProvider.LoadAdmin` | src/context/AuthContext.jsx:13-38 | the imperative boot agrees with `Reconciled` and reports the request it sent (none without a truthy token) |
| `Auth.AuthProvider.Login` | src/context/AuthContext.jsx:43-48 | the imperative login agrees with `LoggedIn` |
| `Auth.AuthProvider.Logout` | src/context/AuthContext.jsx:50-55 | the imperative logout agrees with `LoggedOut` |
| `ManageOtherDetails.WithField` | src/components/manageotherdetails.jsx:61-67 | `handleChange` sets the named field and leaves every other field and both lists unchanged |
| `ManageOtherDetails.ListOrBlank` | src/components/manageotherdetails.jsx:41 | a fetched list is kept when present and non-empty, else becomes one blank entry; never empty |
| `ManageOtherDetails.Normalize` | src/components/manageotherdetails.jsx:39-53 | every text field is the fetched value or `''` when missing or empty; both lists non-empty |
| `ManageOtherDetails.EditList` | src/components/manageotherdetails.jsx:69-119 | change replaces only entry `i`; add appends one `''` keeping earlier entries; remove deletes exactly entry `i` when there is more than one entry and is a no-op otherwise; a non-empty list stays non-empty |
| `ManageOtherDetails.RemoveLastEntryRefused` | src/components/manageotherdetails.jsx:85-93 | removing from a one-entry list changes nothing |
| `ManageOtherDetails.AddThenRemoveRestores` | src/components/manageotherdetails.jsx:78-93 | adding a blank entry and removing it again restores the list |
| `ManageOtherDetails.SubmitPayload` | src/components/manageotherdetails.jsx:133-137 | the submit body keeps every text field as edited and never lengthens a list |
| `ManageOtherDetails.SubmitPayloadSpec` | src/components/manageotherdetails.jsx:135-136 | the submitted lists are exactly the non-blank entries, in order, none dropped |
| `ManageOtherDetails.SaveThenReload` | src/components/manageotherdetails.jsx:39-53 | fetching what was submitted gives back every text field, and each list as its non-blank entries or one blank entry |
| `ManageOtherDetails.CleanRecordRoundTrips` | src/components/manageotherdetails.jsx:133-137 | a record with no blank list entry survives submit and fetch unchanged |
| `ManageOtherDetails.OtherDetailsEditor.constructor` | src/components/manageotherdetails.jsx:9-26 | the editor starts with all fields empty, each list `['']`, loading, no banners |
| `ManageOtherDetails.OtherDetailsEditor.FetchDetails` | src/components/manageotherdetails.jsx:35-59 | any response body is normalised into the record; a thrown error keeps the record and sets the error banner; loading ends; lists stay non-empty |
| `ManageOtherDetails.OtherDetailsEditor.HandleChange` | src/components/manageotherdetails.jsx:61-67 | the record becomes `WithField` of the old one |
| `ManageOtherDetails.OtherDetailsEditor.HandleRoleChange` | src/components/manageotherdetails.jsx:69-76 | only role `index` is replaced; nothing else in the record changes |
| `ManageOtherDetails.OtherDetailsEditor.AddRole` | src/components/manageotherdetails.jsx:78-83 | one blank role is appended |
| `ManageOtherDetails.OtherDetailsEditor.RemoveRole` | src/components/manageotherdetails.jsx:85-93 | the role at `index` is removed only while there is more than one role |
| `ManageOtherDetails.OtherDetailsEditor.HandleAboutChange` | src/components/manageotherdetails.jsx:95-102 | only paragraph `index` is replaced |
| `ManageOtherDetails.OtherDetailsEditor.AddAboutParagraph` | src/components/manageotherdetails.jsx:104-109 | one blank paragraph is appended |
| `ManageOtherDetails.OtherDetailsEditor.RemoveAboutParagraph` | src/components/manageotherdetails.jsx:111-119 | the paragraph at `index` is removed only while there is more than one |
| `ManageOtherDetails.OtherDetailsEditor.HandleSubmit` | src/components/manageotherdetails.jsx:121-151 | sends `SubmitPayload` of the record; success banner on ok, else the response's message (default "Failed to update details") or the thrown message |
| `Projects.DescriptionLinesSpec` | src/components/projects.jsx:54 | the displayed lines are exactly the non-blank pieces of the newline split, in order; none contains a newline |
| `Projects.BlankDescriptionHasNoLines` | src/components/projects.jsx:54 | an empty or whitespace-only description shows no lines |
| `Projects.SingleLineDescription` | src/components/projects.jsx:54 | a non-blank description without a newline shows as one line, itself |
| `Projects.NoBlankLinesRoundTrip` | src/components/projects.jsx:53-54 | without blank lines, the displayed lines joined by newlines give back the description |
| `Contact.LoadedDetails` | src/components/contact.jsx:14-37 | an ok response's body is shown; a non-ok response or a thrown error shows the fixed fallback record |
| `Contact.FallbackPage` | src/components/contact.jsx:22-33 | the fallback record carries every displayed field; its location line is "Kerala, India" |
| `Contact.WhatsAppNumber` | src/components/contact.jsx:48 | the number is the details' number when non-empty, else `918137008256`; never empty |
| `Contact.WhatsAppMessage` | src/components/contact.jsx:49 | the message is the details' message when non-empty, else `Hi, Adarsh`; never empty |
| `Contact.WhatsAppUrl` | src/components/contact.jsx:50 | the link is `https://wa.me/`, then the chosen number, then `?text=` and the encoded message |
| `Contact.Compact` | src/components/contact.jsx:73 | `filter(Boolean)` keeps exactly the truthy members, unwrapped and in order: wrapped back in `Some`, the result equals `Filter(Truthy, xs)`, and every kept value is non-empty |
| `Contact.CompactKeepsEveryValue` | src/components/contact.jsx:73 | no truthy member is dropped (each non-empty value occurs as often as in the input) and the kept ones stay in input order |
| `Contact.LocationLineCases` | src/components/contact.jsx:72-73 | both present gives "S, C"; one present gives it alone; neither gives no line |
| `Contact.RenderSpec` | src/components/contact.jsx:56-110 | each block is shown iff its data is present; the location block iff city, state or country is; the `tel:` number is the phone without whitespace, other characters kept in order |
| `Contact.WhatsAppButtonDialsOwnNumber` | src/components/contact.jsx:87-94 | the rendered WhatsApp button always uses the details' own number |
| `SiteFooter.Merged` | src/components/footer.jsx:18-29 | on an ok response each field is overwritten only by a truthy fetched value; otherwise nothing changes |
| `SiteFooter.MergedFieldsIndependent` | src/components/footer.jsx:23-24 | the fetched phone never affects the e-mail and vice versa |
| `SiteFooter.MergedIdempotent` | src/components/footer.jsx:23-24 | applying the same answer twice equals applying it once |
| `SiteFooter.NeverBlank` | src/components/footer.jsx:9-29 | from non-empty details, any sequence of fetches keeps e-mail and phone non-empty |
| `SiteFooter.Footer.constructor` | src/components/footer.jsx:9-12 | the footer starts with the default e-mail and phone |
| `SiteFooter.Footer.FetchDetails` | src/components/footer.jsx:18-29 | the imperative fetch agrees with `Merged` |
| `Text.TelHref` | src/components/footer.jsx:42 | a `tel:` href is the scheme then the phone with every whitespace character removed |
| `Text.StripWhitespaceSpec` | src/components/contact.jsx:82 | stripping leaves no whitespace, keeps every other character, in order |
| `Text.TrimEmptyIffBlank` | src/components/manageotherdetails.jsx:135 | `trim()` is empty iff the string is all whitespace |
| `Text.KeepNonBlankSpec` | src/components/manageotherdetails.jsx:135-136 | the blank filter keeps exactly the non-blank strings, in order |
| `Seqs.RemoveIndex` | src/components/manageotherdetails.jsx:87 | filtering by index removes exactly the element at that index, or nothing when it is out of range |
| `Seqs.JoinSplit` | src/components/projects.jsx:54 | joining the pieces of a split with the separator gives back the input |

## Left out

- `ProtectedRoute`, the route guard imported by src/App.jsx, is not part of this model. No gate, loading screen or redirect is modelled.
- The race between `login` and a boot request still in flight is not modelled. A login made while boot's `fetch` is pending can be overwritten when the answer arrives. Boot is one atomic step here.
- `localStorage`, `fetch` and `JSON.stringify`/`JSON.parse` are abstract. The store is a map, a fetch is its outcome, and serialising an admin is a function supplied at construction. `adminData` is written and removed but never read back, so its format does not matter.
- `Auth.Reconciled`: every boot outcome is an answer or a thrown error. The boot `fetch` has no timeout, so a request that never answers leaves `loading` true for good. The model has no such outcome.
- `Projects.DescriptionLines`: the model takes a description string. A project without a `description` makes `split` throw, and that breaks the page render. This case is not modelled.
- `Auth.AuthProvider.Login`: the model takes a present token and admin. A call with `null` or `undefined` arguments is not modelled.
- `console.error` logging, the loading and error screens, and all markup and styling are left out.
- `ManageOtherDetails.OtherDetailsEditor.HandleRoleChange` and `HandleAboutChange` require an index of an entry that is shown, as the rendered inputs pass. JavaScript would grow the array with holes for a larger index.
- The handlers read `details` from the render that created them, and they update through `setDetails(prev => …)`. The model applies each handler to the current record, one at a time. It does not model interleavings of stale closures.
- The three-second `setTimeout` that clears the success banner is left out (a timer).
- Fetched fields are strings or absent. JSON numbers, booleans or objects in their place are not modelled.
- `encodeURIComponent` is an abstract `encode` function. `window.open` is left out.
- The contact page's `details` is `null` while loading, and also after an ok response whose JSON body is `null`. That page renders like a document with every field absent (`Render` of a `Doc` with every field `None`). The loading screen itself is left out. In the editor and the footer, reading a field of a `null` body throws, so there such a response is the thrown-error outcome `Threw`.
- Whitespace is the fixed set of code points that ECMA-262 counts as WhiteSpace or LineTerminator (with the Unicode space separators listed explicitly).
- The record managers for work experience, projects, certificates, education and miscellaneous entries are left out. So are the login form, the routing table, the theme toggle, the API configuration and the display-only pages. They are fetch/submit wrappers and presentation.
