# Hepsiburada link page builder — a Dafny model

The editor lets an affiliate keep a list of promotional campaign cards. Each card has a
title, a discount label, a description, a link, an image, a button text, an accent colour
and an active flag. The editor renders the list into one standalone HTML page and
publishes that page to a WordPress site through the REST API.

This project models the three pieces of logic behind that and proves what they promise:

- **The renderer** (`HtmlGenerator`). `GenerateStandaloneHtml` builds the page from the
  campaigns, the site settings and the current year.
  - A quick-links strip lists the active campaigns in input order. It is left out entirely
    when none is active.
  - Every campaign gets a card, in input order. The active and inactive branches differ.
  - A fixed document shell carries the page title, the description and the copyright line.
  - The long Tailwind and SVG literals are transcribed exactly as string constants. The
    lemmas state inclusion, order, the pill-to-card anchors and the shell.
- **The publisher** (`WordPressService`).
  - The four-field settings check.
  - The one-slash trim of the site URL and the REST endpoint.
  - The Basic credentials of section 2 of RFC 7617, built with the base 64 encoding of
    section 4 of RFC 4648 (`Base64`, with `btoa`'s refusal of non-Latin-1 text).
  - The mapping of the HTTP exchange to `{success, message}`.
  - The exchange itself is an input (`Outcome`), so the publisher is a total function and
    every path ends in a result.
- **The editor** (`App`).
  - The pure `prev => …` updaters are functions: replace, toggle and remove by id, the
    smart button text, the title auto-fill and the settings merge.
  - The component's state is the class `App.Editor`. Its methods are the handlers: save,
    toggle, delete, edit, cancel, the form and settings inputs, load, and the publish
    button with its guard.
  - Each method states its whole new state in terms of those functions. The lemmas beside
    the functions prove the source's promises about them: ids kept, the first-match rule
    order, manual edits surviving, and the merge round trip.

Supporting modules are `Strings` (prefix, containment, joins and `toLowerCase`), `Seqs`
(`filter`), `Decimal` (number printing), `UriComponent` (`encodeURIComponent`) and
`Types` (the records and the starting list of campaigns).

Randomness and the clock are parameters:
- the new campaign id;
- the `?lock=` number of a stock image;
- the year in the footer.

The code is looser than a careful publisher in three places, and the model follows the code:
- No field is HTML-escaped. Every value is interpolated verbatim.
- `pageId` goes into the endpoint without URL encoding.
- A thrown `Error` whose message is empty produces a failure with an empty message
  (`WordPressService.ResultFor` states exactly when that happens).

## Model

| member | source | states |
|---|---|---|
| HtmlGenerator.GenerateStandaloneHtml | services/htmlGenerator.ts:4-110 | the page itself; its promises are stated by the lemmas below (shell, title, heading, description, copyright, strip, cards, anchors) |
| HtmlGenerator.QuickLinksHtml | services/htmlGenerator.ts:7-18 | the quick-links strip; see QuickLinksEmptyIffNoneActive, StripAroundPills, QuickLinkInStrip and QuickLinksFollowInputOrder |
| HtmlGenerator.Card | services/htmlGenerator.ts:20-67 | one card; see CardCommonContents, ActiveCardContents and InactiveCardContents |
| HtmlGenerator.ActiveCampaignsAround | services/htmlGenerator.ts:5 | the active list is the input with inactive campaigns dropped and nothing moved: around any position it is the active ones before, that one if active, the active ones after |
| HtmlGenerator.QuickLinksEmptyIffNoneActive | services/htmlGenerator.ts:7-18 | the strip is the empty string if and only if no campaign is active (no empty wrapper) |
| HtmlGenerator.DocumentWithoutActiveCampaigns | services/htmlGenerator.ts:7-18 | with no active campaign the page is the shell with an empty strip and all the cards |
| HtmlGenerator.StripAroundPills | services/htmlGenerator.ts:7-18 | a non-empty strip is its fixed wrapper around the pills of the active campaigns, joined |
| HtmlGenerator.DocumentAroundStrip | services/htmlGenerator.ts:93-94 | the strip is embedded whole in the page |
| HtmlGenerator.DocumentAroundCards | services/htmlGenerator.ts:98-99 | the card list is embedded whole in the page |
| HtmlGenerator.QuickLinkInStrip | services/htmlGenerator.ts:10-15 | every active campaign's pill occurs in the strip |
| HtmlGenerator.QuickLinksFollowInputOrder | services/htmlGenerator.ts:5-15 | of two active campaigns the earlier one's pill occurs first: no re-sorting |
| HtmlGenerator.CardInDocument | services/htmlGenerator.ts:20-68 | every campaign, active or not, has its card in the page |
| HtmlGenerator.CardsFollowInputOrder | services/htmlGenerator.ts:20-68 | cards occur in input order, active and inactive interleaved as given |
| HtmlGenerator.QuickLinkTargetsCard | services/htmlGenerator.ts:11-21 | an active campaign's pill links to `#campaign-<id>` and the same page holds `id="campaign-<id>"` |
| HtmlGenerator.CardCommonContents | services/htmlGenerator.ts:21-48 | both branches of a card carry its anchor id, its title heading and its description verbatim |
| HtmlGenerator.ActiveCardContents | services/htmlGenerator.ts:25-60 | an active card shows the discount badge, the `#İşbirliği` marker, and a button with href `link`, background `accentColor` and label `buttonText` |
| HtmlGenerator.InactiveCardContents | services/htmlGenerator.ts:37-65 | an inactive card shows `YAKINDA` and `Şu an indirim yok` and is unchanged by any `link` or `buttonText` |
| HtmlGenerator.DocumentShell | services/htmlGenerator.ts:70-109 | the page starts with the doctype and ends with `</html>` |
| HtmlGenerator.DocumentShowsTitle | services/htmlGenerator.ts:75 | the page title is the document's `<title>` |
| HtmlGenerator.DocumentShowsHeading | services/htmlGenerator.ts:89 | the page title is the header's `<h1>` |
| HtmlGenerator.DocumentShowsDescription | services/htmlGenerator.ts:90 | the description is the header paragraph, verbatim |
| HtmlGenerator.DocumentShowsCopyright | services/htmlGenerator.ts:105 | the footer holds `&copy;`, the year, then the page title |
| HtmlGenerator.DocumentIgnoresOtherSettings | services/htmlGenerator.ts:4-110 | the page depends on the settings only through the page title and description |
| WordPressService.HasAllSettings | services/wordpressService.ts:16 | all four connection settings are non-empty; see UpdateWordPressPage and MissingSettingsSendNothing |
| WordPressService.BaseUrl | services/wordpressService.ts:23 | the result is the URL or the URL less one final `/`, and it is the latter exactly when the URL ends in `/` |
| WordPressService.TrailingSlashIrrelevant | services/wordpressService.ts:23-24 | `x/` and `x` give the same endpoint when `x` does not end in `/` |
| WordPressService.OnlyOneTrailingSlashRemoved | services/wordpressService.ts:23 | only one slash goes: `x//` becomes `x/` |
| WordPressService.Endpoint | services/wordpressService.ts:23-24 | the endpoint starts with the base URL, ends with the REST pages path and the unencoded page id, and is exactly as long as the two together, so nothing lies between them |
| WordPressService.GetAuthHeader | services/wordpressService.ts:6-8 | a header exists exactly when `username:appPassword` is Latin-1 (`btoa` throws otherwise), and it is `Basic ` followed by the canonical base 64 encoding of those bytes |
| WordPressService.UserId | services/wordpressService.ts:6-8 | the user-id of decoded credentials is a colon-free prefix of them |
| WordPressService.UserIdBeforeColon | services/wordpressService.ts:7 | a colon-free username is read back as the user-id |
| WordPressService.AuthHeaderDecodes | services/wordpressService.ts:6-8 | for any Latin-1 credentials the header is `Basic ` plus text that decodes back to `username:appPassword` |
| WordPressService.AuthHeaderRecoversCredentials | services/wordpressService.ts:6-8 | with a colon-free username the decoded credentials split at the first colon into exactly the username and the password |
| WordPressService.ResultFor | services/wordpressService.ts:37-48 | success exactly on a 2xx response, then with the fixed success message; a thrown failure carries the error's own message, or the fixed connection-error text when the thrown value is not an `Error`; the message is empty only for a thrown `Error` with an empty message |
| WordPressService.RejectionShowsStatus | services/wordpressService.ts:37-39 | a non-2xx response without a usable body message fails with exactly `Hata: <status> <statusText>`, a message holding the status number |
| WordPressService.RejectionShowsBodyMessage | services/wordpressService.ts:37-39 | a non-2xx response with a non-empty body message fails with exactly that message |
| WordPressService.UpdateWordPressPage | services/wordpressService.ts:10-50 | missing settings give the fixed failure and no request; a request is sent exactly when all four are set and the credentials are Latin-1, to the endpoint, with the header and the rendered page; success implies a request was sent and the success message; with all settings present but non-Latin-1 credentials nothing is sent and the result is the `btoa` failure |
| WordPressService.MissingSettingsSendNothing | services/wordpressService.ts:16-17 | with a setting missing the result does not depend on the network, nothing is sent, and it is a failure |
| Base64.Encode | services/wordpressService.ts:7 | the output has 4 characters per started group of 3 bytes, all from the base 64 alphabet or the pad |
| Base64.DecodeEncodeSextet | services/wordpressService.ts:7 | each alphabet character decodes to the 6-bit value it encodes |
| Base64.DecodeEncode | services/wordpressService.ts:7 | decoding undoes encoding for every byte sequence |
| Base64.Btoa | services/wordpressService.ts:7 | `btoa` succeeds exactly on Latin-1 text |
| Base64.AtobBtoa | services/wordpressService.ts:7 | `atob(btoa(s)) == s` for every Latin-1 `s` |
| Seqs.Filter | services/htmlGenerator.ts:5 | `filter` keeps only elements satisfying the predicate, all taken from the input, and keeps every element that satisfies it |
| Strings.LowerChar | App.tsx:107 | `toLowerCase` of one character is one or two characters; ASCII capitals map to their small letters and small letters are kept |
| Strings.ToLower | App.tsx:107 | `toLowerCase` maps each character to one or two, so the text grows by at most double; see DottedCapitalIMissesKeyword |
| Strings.FirstWord | App.tsx:136 | `split(' ')[0]` is the longest space-free prefix: it ends where the text or its first space does |
| Decimal.NatToString | services/htmlGenerator.ts:105 | the numeral is non-empty, all digits, with no leading zero |
| Decimal.ParseNatToString | services/htmlGenerator.ts:105 | reading the numeral back gives the number |
| Decimal.NatToStringInjective | services/wordpressService.ts:39 | distinct statuses print differently |
| UriComponent.Utf8 | App.tsx:137 | one to four bytes, a lead byte announcing the length and continuation bytes after it |
| UriComponent.Utf8RoundTrip | App.tsx:137 | the UTF-8 bytes of a character decode back to its code point |
| UriComponent.EncodeUriComponent | App.tsx:137 | the encoded keyword holds only unreserved characters and `%`, so it stays one path segment |
| UriComponent.EncodeUnreservedIdentity | App.tsx:137 | a keyword of unreserved characters is left as it is |
| App.WithId | App.tsx:192-195 | the saved campaign carries the given id and exactly the form's fields |
| App.FormOf | App.tsx:223-232 | the form `handleEdit` loads; see WithIdFormOf and Editor.Edit |
| App.WithIdFormOf | App.tsx:221-232 | loading a campaign into the form and putting its id back gives the campaign |
| App.ReplaceById | App.tsx:192 | same length; every campaign with the id becomes the form under that id, every other is unchanged |
| App.ReplaceByIdKeepsIds | App.tsx:192 | replacing keeps the multiset of ids, and keeps unique ids unique |
| App.ToggleById | App.tsx:211 | same length; every campaign with the id has its active flag flipped, every other is unchanged |
| App.ToggleTwice | App.tsx:211 | toggling the same id twice restores the list |
| App.ToggleByIdKeepsIds | App.tsx:211 | toggling keeps the multiset of ids |
| App.RemoveById | App.tsx:216 | survivors lack the id and come from the list; every campaign without the id survives |
| App.RemoveByIdAround | App.tsx:216 | the rest keep their order: around any position it is the survivors before, that campaign unless it has the id, the survivors after |
| App.RemoveByIdIds | App.tsx:216 | the id's count drops to zero, no other count changes, and the length falls by exactly that count |
| App.RemoveByIdKeepsUnique | App.tsx:216 | deleting keeps unique ids unique |
| App.AppendIds | App.tsx:195 | appending adds the new id once; unique ids stay unique exactly when the new id is fresh |
| App.EditThenSaveUnchanged | App.tsx:189-232 | with unique ids, loading a campaign into the form and saving it unchanged leaves the list as it was |
| App.IsEditingId | App.tsx:191 | `if (editingId)`: a present, non-empty id; see EmptyIdSaveAppends |
| App.SaveList | App.tsx:191-196 | while editing: same length, campaigns with the edited id become the form under that id, the rest unchanged; otherwise the old list with one campaign appended under the new id |
| App.SaveListIds | App.tsx:191-196 | saving while editing keeps the ids; appending adds the new id once; unique ids stay unique when editing or when the new id is fresh |
| App.EmptyIdSaveAppends | App.tsx:191 | an empty editing id is falsy, so saving appends a copy instead of replacing |
| App.GetSmartButtonText | App.tsx:106-115 | the label is always one of the seven fixed labels |
| App.FirstMatchingLabel | App.tsx:106-115 | the label of the first rule with a keyword in the text, or the fallback when none matches |
| App.SmartButtonFollowsRules | App.tsx:106-115 | the if-chain equals the first-match search over the six keyword groups in source order on the lower-cased title, defaulting to `Hemen İncele` |
| App.DottedCapitalIMissesKeyword | App.tsx:107-110 | `KİTAP` lower-cases to `ki̇tap`, which misses `kitap`, while `KITAP` hits it |
| App.ImageKeyword | App.tsx:136 | the keyword is non-empty and space-free: the title's first space-separated word, or `shopping` exactly when that word is empty (or is itself `shopping`) |
| App.StockImageUrl | App.tsx:137 | the image URL is the LoremFlickr 800x600 prefix, then exactly the percent-encoded keyword, then `?lock=` and the lock number; it counts as automatic |
| App.PlainKeywordInImageUrl | App.tsx:136-137 | a title whose first word needs no escaping puts that word (or `shopping`) verbatim into the image URL |
| App.ApplyTitleChange | App.tsx:121-142 | the title updater; see TitleChangeEffect, AutoImageStaysAuto and KeywordLabelFreezes |
| App.ApplyInput | App.tsx:117-143 | one form change; see OtherInputsTouchOneField and the two Manual…Survives lemmas |
| App.IsAutoButtonText | App.tsx:127 | the button texts a title edit may overwrite; see TitleChangeEffect |
| App.IsAutoImageUrl | App.tsx:132 | the images a title edit may overwrite; see TitleChangeEffect and AutoImageStaysAuto |
| App.TitleChangeEffect | App.tsx:125-141 | a title edit sets the title, rewrites the button text exactly when it was automatic and the image exactly when it was automatic, and touches nothing else |
| App.AutoImageStaysAuto | App.tsx:131-138 | an automatic image is replaced by a stock image, which is automatic again |
| App.KeywordLabelFreezes | App.tsx:127-128 | once a title picks a keyword label, later title edits leave the button text alone |
| App.ManualButtonTextSurvives | App.tsx:117-143 | a typed-in, non-automatic button text survives any edits that do not set it, titles included |
| App.ManualImageSurvives | App.tsx:131-141 | a non-stock image survives any edits that do not set the image |
| App.OtherInputsTouchOneField | App.tsx:117-143 | every input but the title sets its own field and leaves every other field as it was (no auto-fill) |
| App.MergeSettings | App.tsx:40 | `{ ...defaults, ...saved }`; see MergeSettingsFields and SettingsRoundTrip |
| App.MergeWPSettings | App.tsx:41 | the same merge for the connection settings; see MergeWPSettingsFields and WPSettingsRoundTrip |
| App.ApplySettingsInput | App.tsx:160-163 | one page-setting change; see Editor.ChangeSettings |
| App.ApplyWPInput | App.tsx:165-168 | one connection-setting change; see Editor.ChangeWPSettings |
| App.MergeSettingsFields | App.tsx:40 | in the loaded settings a saved field wins and a missing one keeps its default |
| App.SettingsRoundTrip | App.tsx:40 | settings saved in full load back unchanged; merging is idempotent; nothing saved gives the defaults |
| App.MergeWPSettingsFields | App.tsx:41 | in the loaded connection settings a saved field wins and a missing one keeps its default |
| App.WPSettingsRoundTrip | App.tsx:41 | connection settings saved in full load back unchanged; merging is idempotent; nothing saved gives the defaults |
| App.CanPublish | App.tsx:171 | the publish guard: site URL and page id non-empty; see GuardWeakerThanPublisher and Editor.UpdateWP |
| App.GuardWeakerThanPublisher | App.tsx:171-174 | the publish guard passes whenever the publisher's check does, and also passes with a credential missing |
| App.Editor.constructor | App.tsx:26-100 | the editor starts with the default campaigns, default settings, no editing, the empty form and an idle status |
| App.Editor.Save | App.tsx:189-208 | the list becomes the save of the old form, editing ends, the ids change as stated, uniqueness is kept when the new id is fresh, the form resets, nothing else changes |
| App.Editor.ToggleStatus | App.tsx:210-212 | the list becomes the toggle by id, the ids are kept, nothing else changes |
| App.Editor.Delete | App.tsx:214-219 | the list loses exactly the id's campaigns, uniqueness is kept, editing that id ends, nothing else changes |
| App.Editor.Edit | App.tsx:221-234 | the campaign's fields fill the form, its id is remembered, and saving would rebuild it; nothing else changes |
| App.Editor.CancelEdit | App.tsx:323-334 | editing ends and the form resets; nothing else changes |
| App.Editor.ChangeInput | App.tsx:117-143 | the form takes the input; after a title edit an automatic button text becomes one of the seven labels and an automatic image stays automatic; nothing else changes |
| App.Editor.SetDiscountPreset | App.tsx:156-158 | only the form's discount label changes |
| App.Editor.ChangeSettings | App.tsx:160-163 | only the edited page setting changes |
| App.Editor.ChangeWPSettings | App.tsx:165-168 | only the edited connection setting changes |
| App.Editor.Load | App.tsx:38-62 | stored campaigns replace the list; stored settings are merged over the defaults; absent values leave the state as it was |
| App.Editor.UpdateWP | App.tsx:170-187 | without a site URL or page id nothing is sent and the status stays; otherwise the publisher runs on the current state and its result sets the status and the message; the list, form and settings never change |

## Left out

- Persistence is not modelled: the `/api/db` fetches, `localStorage`, and the choice between them are I/O. `App.Editor.Load` takes whatever one source returned.
- App.Editor.Load: does not model the check that a loaded object has keys, or a `JSON.parse` failure. Both are decided by the I/O layer.
- App.Editor.Load: a saved field holding JSON `null` is not modelled. An absent field is `None`; a present one is a string.
- App.Editor.UpdateWP: does not model the transient `loading` status or the 5-second timer that resets a success to idle, because both are timing effects. The `alert` on a failed guard is a browser dialog and is left out.
- App.Editor.Delete: models a delete that the `confirm` dialog has already approved. A declined dialog changes nothing.
- The file upload (`FileReader`) is modelled only by its result, an `ImageUrlInput` carrying the data URL. The file-input reset after a save is a DOM effect.
- Copying to the clipboard, the copy status, scrolling, and all JSX markup are browser effects or display.
- `components/CampaignCard.tsx` (display only) and `vite.config.ts` (the development server's file store) are not part of this model.
- `Math.random` (new ids and the image lock) and `new Date().getFullYear()` are parameters. Ids are not assumed unique; the list lemmas cover every campaign sharing an id.
- WordPressService.UpdateWordPressPage: the JSON encoding of the request body is not modelled. The request carries the page text as `content`. The `Content-Type` header is fixed and not represented.
- WordPressService.UpdateWordPressPage: a `btoa` failure is modelled as a failure whose message stands in for the browser's wording of the `InvalidCharacterError`.
- WordPressService.ResultFor: a response body that is not JSON is modelled as a body without a message, which is what the `catch(() => ({}))` fallback yields.
- WordPressService.ResultFor: a non-2xx response whose JSON body is `null` makes reading `message` throw a `TypeError`. The I/O layer must present that as `Thrown(Some(<the TypeError's message>))`, not as a response, because the model's `Responded` case always reaches the `Hata:` fallback.
- WordPressService.ResultFor: a truthy `message` that is not a string (a number or an object) is stringified by `new Error(...)`. The I/O layer must pass its string form as the body message, because `Outcome` carries only strings.
- The `console.error` logging is a side effect and is left out.
- Strings.ToLower: covers ASCII, Latin-1, the Turkish capitals, U+0130 and U+212A. Other characters are left unchanged, because the full Unicode case tables are out of scope.
- HTML escaping is not modelled, and no injection-safety property is claimed. The code interpolates every field verbatim, and the model does the same.
- The discount presets (constants.tsx:4-12) are only buttons beside a free-text field, and the colour palette (constants.tsx:39-45) is not used by the editor, whose colour input accepts any colour. The model therefore takes any string for both fields.
- The Tailwind class text and SVG markup are opaque constants. No property about the styling is stated.
