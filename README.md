# Claims backend mail routes and city lookup, in Dafny

This project models the request handlers of the claims backend in
`server.js`. The backend serves a plumbing-fixtures retailer. The model
covers:

- the transactional mails it sends through `sendEmail`: the claim
  confirmation, the partner assignment, the feedback survey, the
  resolution notices and the status-change notice;
- the `/api/cities` lookup, which searches Geonames once per country,
  caches the deduplicated list and filters it by a name prefix.

The files:

- `values.dfy` (module `Values`) holds the JavaScript values the handlers
  read from a request body.
  - `Field` is a field that is absent (`undefined`), `null` or a string.
  - It defines truthiness, what a template literal prints, `||` with a
    fallback, and `toLowerCase`, `toUpperCase` and `trim` over the
    characters the model knows.
- `transport.dfy` (module `Transport`) holds the mail transport.
  - A `Mailer` object records every `sendEmail` call in its `outbox`,
    together with whether the call resolved or threw.
  - A call to an absent or `null` address always throws; for any other
    call the environment chooses the outcome.
- `templates.dfy` (module `Templates`) holds the two template tables.
  - `/send-confirmation` is keyed by language, with `lt` as the fallback.
  - `/notify-status-change` is keyed by status, with a generic message as
    the fallback.
- `partner.dfy` (module `PartnerMail`) holds the partner-assignment body.
  - The model names each piece that `body += ...` appends.
  - It builds the body with the handler's own sequence of appends, and
    proves that sequence equal to the text of the list of pieces.
  - It then reads the body's sections off that text.
- `routes.dfy` (module `Routes`) holds the mail routes as methods on a
  `Mailer`: which mails they send, in which order, and how they answer.
- `cities.dfy` (module `Cities`) holds `/api/cities`.
  - It covers the mapping of the Geonames answer, the deduplication loop,
    the prefix filter and the cap of 50.
  - It covers the cache key, the cache as an object updated in place, and
    the route itself, with the upstream search as an object whose answers
    come from the environment.

## Model

| member | source | states |
|---|---|---|
| Values.Truthy | server.js:141 | a field is truthy exactly when it is a non-empty string; stated through `Values.OrElse` and the routes that test fields (`PartnerMail.ContactBlockIffCustomer`, `PartnerMail.LinkLineIffClaimLink`, `Routes.SendFeedbackSurvey`) |
| Values.Render | server.js:110 | a string field is printed as itself, an absent one as `undefined`, a `null` one as `null` |
| Values.OrElse | server.js:141 | `note \|\| fallback` is the note when it is a non-empty string and the fallback otherwise |
| Values.Lower | server.js:318 | lower-casing keeps the length and maps every character on its own |
| Values.Upper | server.js:280 | upper-casing keeps the length and maps every character on its own |
| Values.LowerIdempotent | server.js:318 | lower-casing twice is lower-casing once |
| Values.UpperIdempotent | server.js:280 | upper-casing twice is upper-casing once |
| Values.LowerPrefix | server.js:318 | the lower-cased prefix of a name is the prefix of the lower-cased name |
| Values.Trim | server.js:281 | the trimmed text is a slice of the input with only white space cut from both ends, and it neither starts nor ends with white space |
| Values.TrimIdempotent | server.js:281 | trimming twice is trimming once |
| Transport.StatusCode | server.js:197-218 | a route answers 200 exactly on success, 400 exactly for missing fields and 500 exactly when sending failed |
| Transport.Mailer.Send | server.js:31-80 | each `sendEmail` call adds exactly that mail and its outcome to the end of the outbox; a mail to an absent or `null` address always throws, at `to.split('@')` |
| Transport.Mailer.Dispatch | server.js:126-132 | one send; the answer is success when it resolved and 500 when it threw, so always 500 for an absent or `null` address |
| Templates.Find | server.js:123 | an object lookup finds an own key exactly when the table has it, and nothing exactly when the key is neither own nor inherited |
| Templates.MissingFieldIsNoKey | server.js:106 | an absent or `null` field is never a language, a status or an inherited name |
| Templates.EffectiveLanguage | server.js:106-124 | the language used is always `lt` or `en`: the requested one when the table has it, `lt` otherwise |
| Templates.ConfirmationTemplate | server.js:108-121 | one entry of the table: the subject and body around the claim ID, with the login link for a registered customer and the ID to quote otherwise; stated by `Templates.LinkWhenRegistered` and `Templates.IdWhenUnregistered` |
| Templates.Confirmation | server.js:108-124 | the confirmation of the corrected selection; stated by `Templates.UnsupportedLanguageIsLithuanian`, `Templates.RegisteredGetsLoginLink`, `Templates.UnregisteredGetsClaimId` and `Templates.ConfirmationSubjectQuotesId` |
| Templates.UnsupportedLanguageIsLithuanian | server.js:106-124 | any other language, absent included, gets exactly the Lithuanian message and its subject |
| Templates.IdLabelled | server.js:113-119 | in both wordings the claim ID is introduced by `ID: ` |
| Templates.LinkWhenRegistered | server.js:111-112 | a registered customer's body holds the login link for the claim |
| Templates.IdWhenUnregistered | server.js:113 | an unregistered customer's body quotes the claim ID and, when the ID has no `?`, holds no login link |
| Templates.RegisteredGetsLoginLink | server.js:108-124 | in every language a registered customer gets the login link for the claim |
| Templates.UnregisteredGetsClaimId | server.js:108-124 | in every language an unregistered customer gets the claim ID to quote and, when it has no `?`, no login link |
| Templates.ConfirmationSubjectQuotesId | server.js:110-116 | every confirmation subject quotes `#` and the claim ID |
| Templates.StatusTemplate | server.js:248-257 | the two own entries of the status table; stated by `Templates.KnownStatusTemplate` |
| Templates.GenericStatusTemplate | server.js:259-262 | the fallback message naming the new status; stated by `Templates.GenericStatusNamesStatus` |
| Templates.StatusChange | server.js:259-262 | the status message of the corrected selection; stated by `Templates.KnownStatusTemplate` and `Templates.OtherStatusIsGeneric` |
| Templates.KnownStatusTemplate | server.js:248-256 | the two listed statuses get their own wording |
| Templates.OtherStatusIsGeneric | server.js:259-262 | every other status, absent included, gets the generic message |
| Templates.GenericStatusNamesStatus | server.js:261 | the generic message states the new status in its body |
| Templates.ConfirmationAsWritten | server.js:123-124 | as written, an inherited name as language selects no template at all |
| Templates.StatusChangeAsWritten | server.js:259-262 | as written, an inherited name as status selects no template at all |
| Templates.ConfirmationInheritedKey | server.js:123-124 | `language: "constructor"` loses the message where the Lithuanian one was meant; on every other language the code as written and the model agree |
| Templates.StatusInheritedKey | server.js:259-262 | `status: "toString"` loses the message where the generic one was meant; on every other status the two agree |
| PartnerMail.WordingWellMarked | server.js:139-167 | of the fixed text, only the contact heading has `🔹` and only the link heading has `ž` |
| PartnerMail.NoteText | server.js:141 | the recommendation is the note when it is truthy and the "no remarks" text otherwise |
| PartnerMail.PieceText | server.js:139-167 | the text one `body +=` appends for each kind of piece; stated piece by piece by `PartnerMail.RecommendationLine`, `PartnerMail.AttachmentsText`, `PartnerMail.LinkHeadingWithClaimLink` and `PartnerMail.TextLacks` |
| PartnerMail.Pieces | server.js:139-167 | the pieces of a request in the order the handler appends them; stated by `PartnerMail.OpeningAndFooter`, `PartnerMail.ContactBlockIffCustomer`, `PartnerMail.AttachmentsPlace` and `PartnerMail.LinkLineIffClaimLink` |
| PartnerMail.PartnerText | server.js:137-167 | the partner body, or nothing when `attachments` is `null`; `PartnerMail.ComposePartnerText` builds it as the handler does |
| PartnerMail.PartnerSubject | server.js:169 | the partner subject; stated by `PartnerMail.PartnerSubjectQuotesId` |
| PartnerMail.PartnerSubjectQuotesId | server.js:169 | the partner subject names the claim |
| PartnerMail.AttachmentPieces | server.js:155-157 | one attachment piece per attachment, in input order |
| PartnerMail.ComposePartnerText | server.js:137-167 | the appends of the handler build exactly the text of the request's pieces, and nothing when `attachments` is `null` |
| PartnerMail.AppendOpening | server.js:139-141 | the body starts as the greeting, then the ID line, then the recommendation line, and these are the first three pieces |
| PartnerMail.AppendContact | server.js:144-150 | the body grows by exactly the text of the contact block, which is empty when no customer is given |
| PartnerMail.AppendAttachments | server.js:153-160 | the body grows by exactly the attachments section: the heading, then the attachment lines or the placeholder line when there are none |
| PartnerMail.AppendAttachmentLines | server.js:155-157 | the loop appends the attachment lines joined in input order |
| PartnerMail.LinesAreAttachmentPieces | server.js:155-157 | the joined attachment lines are the text of the attachment pieces |
| PartnerMail.AppendLink | server.js:163-165 | the body grows by exactly the link line when `claimLink` is truthy, and stays as it was otherwise |
| PartnerMail.Append | server.js:139-167 | one `body +=`: the piece's text goes at the end and the body stays the text of its pieces |
| PartnerMail.OpeningAndFooter | server.js:139-167 | every body starts with the greeting, ID and recommendation pieces and ends with the footer |
| PartnerMail.AttachmentsSectionShape | server.js:153-160 | the attachments section is the heading followed by one piece per attachment in order, or by the placeholder alone |
| PartnerMail.AttachmentsPlace | server.js:144-160 | the attachments section comes right after the opening and the contact block |
| PartnerMail.AttachmentsText | server.js:153-160 | the section's text is the heading followed by the joined lines, or by the placeholder when there are none |
| PartnerMail.AttachmentsTextInBody | server.js:153-160 | that text appears in the body as one unbroken stretch |
| PartnerMail.AttachmentLinesInOrder | server.js:155-157 | the line of an earlier attachment is written before the line of a later one |
| PartnerMail.LineCount | server.js:156 | an attachment without line breaks in its name and URL gives exactly one line |
| PartnerMail.AttachmentLinesCount | server.js:155-157 | such attachments give exactly as many lines as there are attachments |
| PartnerMail.ContactBlockIffCustomer | server.js:144-150 | the contact block is among the pieces exactly when a customer is given, and then holds the heading, name, phone, e-mail and address in that order |
| PartnerMail.LinkLineIffClaimLink | server.js:163-165 | a link piece is written exactly when `claimLink` is truthy, and then it carries that link |
| PartnerMail.RecommendationLine | server.js:141 | the body holds the note line with the note, or with the "no remarks" text when the note is missing or empty |
| PartnerMail.PiecesLack | server.js:139-167 | a character none of the request's fields holds is in none of the interpolated data |
| PartnerMail.TextLacks | server.js:139-167 | a mark appears in a piece's text only through its data or its own heading |
| PartnerMail.ContactHeadingIffCustomer | server.js:144-150 | the contact heading appears in the body text exactly when a customer is given |
| PartnerMail.LinkHeadingWithClaimLink | server.js:163-165 | with a truthy `claimLink` the body text holds the link heading followed by the link |
| PartnerMail.NoLinkHeadingWithoutClaimLink | server.js:163-165 | without a truthy `claimLink` the link heading is nowhere in the body text |
| Routes.ConfirmationMail | server.js:124-127 | the confirmation handed to `sendEmail`: addressed to `email`, with the subject and body of `Templates.Confirmation`; sent by `Routes.SendConfirmation` |
| Routes.SendConfirmation | server.js:105-133 | one send to `email` of the confirmation of the corrected selection; the answer follows its outcome, and is 500 whenever `email` is absent or `null` |
| Routes.PartnerMessage | server.js:169-172 | the partner mail goes to `partnerEmail` under the subject quoting the claim, with the built body; stated through `Routes.SendToPartner` and `PartnerMail.PartnerSubjectQuotesId` |
| Routes.SendToPartner | server.js:136-178 | a `null` attachments list sends nothing and the model answers `Crashed` (what the client receives is not modelled); otherwise one send of the built body under the subject quoting the claim, answered 500 whenever `partnerEmail` is absent or `null` |
| Routes.SurveyMail | server.js:207-208 | the survey mail; stated by `Routes.SurveyMailQuotesLink` |
| Routes.SurveyComplete | server.js:200 | the guard holds exactly when `email`, `claimId` and `feedbackLink` are all truthy; stated through `Routes.SendFeedbackSurvey`, which answers 400 exactly when it fails |
| Routes.SendFeedbackSurvey | server.js:197-218 | 400 exactly when `email`, `claimId` or `feedbackLink` is falsy, and then nothing is sent; otherwise one send of the survey mail |
| Routes.SurveyMailQuotesLink | server.js:207-208 | the survey mail carries the feedback link, and its subject the claim ID |
| Routes.NotifyResolved | server.js:221-242 | the customer is mailed first; the quality team only after the customer mail went out; success exactly when every send went out, and 500 otherwise; without a customer address the one send fails and the quality team is never mailed |
| Routes.ResolvedCustomerMail | server.js:226-227 | the customer's resolution mail; stated by `Routes.CustomerMailQuotesClaim` and sent first by `Routes.NotifyResolved` |
| Routes.ResolvedQualityMail | server.js:232-233 | the quality team's resolution mail; stated by `Routes.QualityMailQuotesClaim` and sent second by `Routes.NotifyResolved` |
| Routes.CustomerMailQuotesClaim | server.js:226-227 | the customer's mail names the claim in its subject and the product in its text |
| Routes.QualityMailQuotesClaim | server.js:232-233 | the quality team's mail names the claim and the product and links to the claim's page |
| Routes.StatusMail | server.js:259-265 | the status mail handed to `sendEmail`: addressed to `customerEmail`, with the subject and body of `Templates.StatusChange` |
| Routes.NotifyStatusChange | server.js:245-271 | one send to the customer of the status template of the corrected selection; the answer follows its outcome, and is 500 whenever `customerEmail` is absent or `null` |
| Cities.ToCities | server.js:300-304 | a missing `geonames` list gives no cities; otherwise one city per place, in order, with its name, region and country |
| Cities.Key | server.js:308 | the deduplication key of a city: its printed name and region |
| Cities.KeysAre | server.js:306-312 | a key is among the seen keys exactly when some city has it |
| Cities.Unique | server.js:306-312 | the cities the filter keeps; stated by `Cities.UniqueIsFirstOccurrences`, `Cities.UniqueDistinct`, `Cities.UniqueKeepsKeys`, `Cities.UniqueOfDistinct` and `Cities.UniqueIdempotent` |
| Cities.FirstIndices | server.js:306-312 | the positions of the first occurrence of each key, each within the list; stated by `Cities.FirstIndicesAreFirsts` and `Cities.FirstIndicesIncreasing` |
| Cities.Dedup | server.js:306-312 | the filter with its `seen` set keeps exactly the specified first occurrences |
| Cities.UniqueKeepsKeys | server.js:306-312 | deduplication loses no key |
| Cities.UniqueDistinct | server.js:306-312 | no two kept cities share a key |
| Cities.UniqueIsFirstOccurrences | server.js:306-312 | the kept cities are the first occurrence of each key, in input order |
| Cities.FirstIndicesAreFirsts | server.js:306-312 | an index is kept exactly when no earlier city has its key |
| Cities.FirstIndicesIncreasing | server.js:306-312 | the kept indices increase, so the input order is kept |
| Cities.IsFirstIffNew | server.js:308-311 | a city is a first occurrence exactly when its key is not yet in `seen` |
| Cities.UniqueOfDistinct | server.js:306-312 | a list without repeated keys passes unchanged |
| Cities.UniqueIdempotent | server.js:306-312 | deduplicating twice is deduplicating once |
| Cities.NameMatches | server.js:318 | a city passes the filter exactly when its name is a string whose lower-cased form starts with the lower-cased query; stated through `Cities.Matching`, `Cities.Respond` and `Cities.TypedPrefixMatches` |
| Cities.Matching | server.js:317-318 | the matching cities are exactly those whose lower-cased name starts with the lower-cased query; the filter fails exactly when some name is not a string |
| Cities.MatchingAppend | server.js:318 | the filter keeps the input order |
| Cities.MatchingIgnoresQueryCase | server.js:318 | lower-casing the query first gives the same matches: the filter ignores the case of the query |
| Cities.TypedPrefixMatches | server.js:318 | a name that starts with the query exactly as typed matches it |
| Cities.Cap | server.js:321 | at most 50 cities: the first 50, or all of them when there are fewer |
| Cities.NormaliseCountry | server.js:280 | the country the route uses; stated by `Cities.CountryNormalised` |
| Cities.NormaliseQuery | server.js:281 | the query the route uses; stated by `Cities.QueryNormalised` |
| Cities.CountryNormalised | server.js:280 | the country is upper case, is `LT` when missing, and otherwise keeps the length |
| Cities.QueryNormalised | server.js:281 | the query is already trimmed, and empty when missing |
| Cities.CacheKey | server.js:287 | the key is `cities:` followed by the country |
| Cities.CacheKeyInjective | server.js:287 | two countries share a key only when they are the same |
| Cities.CityStatus | server.js:283-324 | 200 exactly for a list, 502 exactly for an upstream status that is not ok, and 500 exactly for a missing user name or a lookup that threw |
| Cities.Respond | server.js:317-324 | a list of at most 50 or a failure; the first 50 cities when the query is empty; otherwise the first 50 matching cities in input order, and failure exactly when some name is not a string |
| Cities.RespondComplete | server.js:317-321 | a matching city is answered whenever the matches fit within the cap |
| Cities.CityCache.Set | server.js:314 | stores the list under the key and changes no other entry |
| Cities.Geonames.Search | server.js:296-298 | each search adds exactly that country and its outcome to the log |
| Cities.Fetched | server.js:300-314 | the stored list has no two cities with the same key |
| Cities.Refresh | server.js:291-315 | a miss makes exactly one search; a non-ok status gives 502 and a throw gives 500, each leaving the cache alone; an answer is stored deduplicated and then filtered |
| Cities.CitiesRoute | server.js:279-326 | with no user name the route answers 500 and touches nothing; on a cache hit it makes no search and answers from the cached list; on a miss it makes exactly one search, for the upper-cased country |
| Cities.LookupTwice | server.js:287-314 | the first request makes at most one search; after a listed answer, the second request for the same country makes no search, and with the same trimmed query it gets the same answer |

## Left out

- `/send-password-reset` and `/notify-quality` are not part of this model.
- The rest of the server is not part of this model. This covers
  `/api/countries`, the `public/sw.js` service worker, Express routing, CORS
  and JSON body parsing.
- The Mailjet REST exchange inside `sendEmail` is not modelled. This
  covers authentication, the request body, the recipient name built by
  `to.split('@')`, and the error text. Only whether a call resolved or
  threw is kept. A call to an absent or `null` address always throws; for
  any other call the environment chooses the outcome. This includes a
  missing quality-team address in the environment.
- The Geonames request is not modelled. This covers its URL,
  `encodeURIComponent` and JSON parsing. A search ends with a status that is
  not ok, a throw, or an answer whose `geonames` list may be missing, as the
  environment chooses.
- Cities.CityCache: the LRU cache's 24-hour expiry and its 5000-entry
  eviction are left out. The modelled cache never forgets, so a hit in the
  model may be a miss in the server once an entry expires.
- Error bodies and console logging are left out. A reply carries its
  status, not its message text.
- Values.Lower, Values.Upper: case mapping covers ASCII and the nine
  Lithuanian letters only. Full Unicode case mapping is left out.
- Cities.Key: the deduplication key is the pair of name and region. The
  source joins them as one string with `||`, so two different pairs that
  print the same joined string are merged by the server and kept apart by
  the model.
- Request fields are strings, absent or `null`. Other JSON values (numbers,
  arrays, objects) in string fields are left out, and so are attachment
  entries that are not objects. `isRegistered` is modelled by its
  truthiness.
- Routes.SendToPartner: a non-array `attachments` value is left out. For
  `null`, the handler throws before its `try` block, and the model answers
  `Crashed` without modelling what Express then sends.
- PartnerMail.ContactHeadingIffCustomer: holds only when no interpolated
  field contains `🔹`. A field may hold the mark and fake the heading.
- PartnerMail.NoLinkHeadingWithoutClaimLink: holds only when no
  interpolated field contains `ž`. A field may hold the mark and fake the
  heading.
- Templates.IdWhenUnregistered, Templates.UnregisteredGetsClaimId: "no login
  link" holds only when the claim ID has no `?`, since the ID itself could
  spell out the link.
- Languages: `server.js` has templates for `lt` and `en` only. Any other
  language, `ru` and `lv` included, gets the Lithuanian message.
- Routes.SendConfirmation, Routes.NotifyStatusChange: these send the
  template of the corrected selection. For a language or status that is
  one of the twelve names every JavaScript object inherits, they therefore
  send the Lithuanian or the generic message. The code as written hands
  `sendEmail` an `undefined` subject and text instead; see "## Findings".
- Concurrency: each request runs to completion before the next begins.
  The server reads the cache before awaiting the Geonames fetch and its
  JSON, and writes it only after both. Two overlapping requests for an
  uncached country can therefore each search Geonames and each overwrite
  the entry. Cities.LookupTwice holds only for requests made one after the
  other.

## Findings

| source | as written | input that shows it | evidently intended | confidence | as-written member | corrected member |
|---|---|---|---|---|---|---|
| server.js:123-124 | `templates[language]` is truthy for a name every object inherits, so that name is used as the language, and the destructured `subject` and `body` are `undefined` | `language: "constructor"` | any language without its own template falls back to `lt` | not executed | Templates.ConfirmationAsWritten, Templates.ConfirmationInheritedKey | Templates.EffectiveLanguage, Templates.UnsupportedLanguageIsLithuanian |
| server.js:259-262 | `templates[status] \|\| {...}` picks the inherited member for a name every object inherits, which has no `subject` or `body` | `status: "toString"` | any status without its own template gets the generic message | not executed | Templates.StatusChangeAsWritten, Templates.StatusInheritedKey | Templates.OtherStatusIsGeneric, Templates.GenericStatusNamesStatus |
