# heyreach-client, modelled in Dafny

heyreach-client is a WebAssembly (WASI) component. It wraps the HeyReach
REST API: campaigns, lead lists, leads, the LinkedIn inbox, LinkedIn accounts
and webhooks. This project models its three core files. It then proves what
they promise.

- `src/models.rs` holds the wire records (DTOs). serde reads and writes them
  as JSON. `Models` gives one decoder per record the client reads, and one
  encoder per record it sends. For records written as JSON objects, serde's
  rules are written out:
  - a missing or `null` optional field reads as `None`;
  - a missing `#[serde(default)]` field reads as its default;
  - unknown keys are ignored;
  - a missing required field makes the record fail;
  - camelCase renaming applies, and so do the explicit renames (`id`, `read`,
    `linkedInUserListName`, `linkedInUserListId`).

  A JSON object is a map from `Json.Key` to `Json.Json`. Every key the records
  use has a constructor, and `Other(name)` stands for any other key.
- `src/http.rs` is the transport, modelled in `Http`. It covers:
  - the ordered stages of a request, and the error each failing stage reports;
  - the two response-read loops, as `while` loops proved against one function
    of the stream's reads;
  - the status classification and the choice of error message;
  - the UTF-8 and JSON error mapping of `make_request`;
  - `make_request_empty`, which looks at the status before reading the body.

  The host's behaviour is an input (`Host`): which stages fail, the status, and
  the sequence of stream reads. UTF-8 decoding and JSON parsing are an input
  too (`Parsers`).
- `src/client.rs` is the API surface, modelled in `Client`:
  - the enum parsers and printers;
  - the DTO-to-domain converters and their inverses;
  - for every operation, the request body it builds, and the mapping of the
    transport's `Result` to its own `Result`.

  What the transport returns for an operation is a parameter of type
  `Result<Dto, ApiError>`.

`Api` holds the domain types of `lib.rs` (records, enums, `ApiError`).
`Common` holds `Option`/`Result`, the integer widths, ASCII case folding and
decimal formatting. `Json` holds the JSON value and the serde field rules.

## Model

| member | source | states |
|---|---|---|
| Common.Map | src/client.rs:111-118 | `into_iter().map(f).collect()` keeps the length and maps each element in place |
| Common.MapInverse | src/client.rs:101-143 | mapping with a function and then with a left inverse of it gives the input back |
| Common.ToLowerEqualIff | src/client.rs:8 | comparing lowercased strings is case-insensitive equality, in both directions |
| Common.ToLowerOfLowercase | src/client.rs:8-15 | a token with no upper-case letter is its own lowercase form |
| Common.Decimal | src/http.rs:208 | `format!("{}", n)` writes only digits, at least one, with no leading zero |
| Common.DecimalRoundTrip | src/http.rs:208 | reading back the digits written for `n` gives `n` |
| Json.DecodeEach | src/models.rs:84 | a JSON array reads as a `Vec` exactly when every element reads, and element i reads as item i |
| Json.ListRoundTrip | src/models.rs:22-23 | a `Vec` written as a JSON array reads back unchanged whenever its elements do |
| Json.OptionalRoundTrip | src/models.rs:21 | an `Option` field reads back what was written: `Some` from the value, `None` from `null` or from a missing key |
| Json.AbsentIsNull | src/models.rs:48 | for an `Option` field, a missing key and a `null` value both read as `None` |
| Json.AbsentIsDefault | src/models.rs:35-38 | for a `#[serde(default)]` field, a missing key reads the same as the default written out |
| Json.NamedSpellingNotOther | src/models.rs:41-77 | once keys are classified by spelling, as serde's derived `Deserialize` does, the spelling of a declared field never counts as an undeclared key |
| Models.PageInfoDtoRoundTrip | src/models.rs:5-11 | the pagination record reads back what it writes |
| Models.DecodePageDto | src/models.rs:79-85 | a page envelope written as a JSON object reads when it has `totalCount` and `items`, and not otherwise; the count is the u32 read from `totalCount`, and item i is what the item reader gives for element i |
| Models.PageDtoRoundTrip | src/models.rs:79-85 | a page envelope reads back what was written, whenever its items do |
| Models.NestedEnvelopeRejected | src/models.rs:79-85 | an envelope that nests the count under `page` without a `totalCount` key is rejected |
| Models.CampaignFilterDtoJsonFields | src/models.rs:15-24 | the campaign filter writes offset, limit and both lists in full under their camelCase keys, and writes `keyword` exactly when it is `Some` |
| Models.ProgressStatsDtoRoundTrip | src/models.rs:26-39 | progress statistics read back what they write |
| Models.ProgressStatsDtoDefaults | src/models.rs:35-38 | the two `#[serde(default)]` counters read as 0 when their keys are missing |
| Models.ProgressStatsDtoRequired | src/models.rs:26-34 | the record is rejected when any of the required counters is missing |
| Models.ProgressStatsDtoSigns | src/models.rs:29-33 | a negative value for a required counter is accepted exactly when the counter is `totalUsersInProgress`, the one `i32` among them; the four `u32` counters reject it |
| Models.DecodeCampaignSummaryDtoSpec | src/models.rs:41-77 | an object reads as a campaign summary `d` exactly when each field of `d` is what its serde rule reads from the object |
| Models.CampaignSummaryDtoReadsRequired | src/models.rs:44-52 | the required fields read back from any object that agrees with `d` |
| Models.CampaignSummaryDtoReadsList | src/models.rs:47-51 | the renamed list name and list id read as `d`'s values when present and as `None` when absent; the account ids read back |
| Models.CampaignSummaryDtoReadsStats | src/models.rs:53-76 | nested progress statistics and `excludeNoProfilePicture` read as `d`'s values when present and as `None` when absent |
| Models.CampaignSummaryDtoReadsFlags | src/models.rs:56-61 | the three defaulted flags read as `d`'s values when present and as `false` when absent |
| Models.CampaignSummaryDtoReadsIds | src/models.rs:61-64 | the exclude-list and organisation-unit ids read as `d`'s values when present and as `None` when absent |
| Models.CampaignSummaryDtoReadsMessaged | src/models.rs:66-70 | the two already-messaged flags read as `d`'s values when present and as `None` when absent |
| Models.CampaignSummaryDtoReadsFirstConnection | src/models.rs:71-74 | the two first-connection flags read as `d`'s values when present and as `None` when absent |
| Models.CampaignSummaryDtoReads | src/models.rs:41-77 | any object with the required keys whose present values agree with `d` reads as `d`, with every missing optional field `None` and every missing defaulted field `false` |
| Models.CampaignSummaryDtoRoundTrip | src/models.rs:41-77 | a campaign summary written with every key reads back unchanged |
| Models.CampaignSummaryDtoDefaults | src/models.rs:56-61 | leaving out the defaulted flags reads them as `false` and keeps every other field |
| Models.CampaignSummaryDtoObjectAgrees | src/models.rs:41-77 | any choice of keys that includes the required ones gives an object that agrees with `d` |
| Models.CampaignSummaryDtoPresentWithoutFlags | src/models.rs:56-61 | without the flag keys, the fields read are exactly `d` with the flags reset |
| Models.CampaignSummaryDtoOptionalsAbsent | src/models.rs:48-76 | leaving out every `Option` key reads those fields as `None` and keeps the rest |
| Models.CampaignSummaryDtoPresentWithoutOptionals | src/models.rs:48-76 | without the optional keys, the fields read are exactly `d` with the optionals cleared |
| Models.CampaignSummaryDtoListSpellings | src/models.rs:47-50 | the list fields are spelled `linkedInUserListName` and `linkedInUserListId`, and the default camelCase spelling is not a key the record reads |
| Models.CampaignSummaryDtoListKeys | src/models.rs:47-50 | an object without the renamed keys still reads, with both list fields `None` |
| Models.CustomUserFieldDtoRoundTrip | src/models.rs:87-92 | a custom user field reads back what it writes |
| Models.CustomUserFieldListRoundTrip | src/models.rs:113 | a list of custom user fields reads back what it writes |
| Models.LeadDtoJsonKeys | src/models.rs:94-106 | a lead's JSON always has the name, profile URL and custom-field keys, and has location, summary and company name exactly when they are `Some` |
| Models.LeadDtoJsonContactKeys | src/models.rs:106-111 | a lead's JSON has position, about and email address exactly when they are `Some` |
| Models.LeadDtoJsonDeclared | src/models.rs:94-114 | a lead's JSON uses no key outside the record's own fields |
| Models.DecodeLeadDtoSpec | src/models.rs:94-114 | an object reads as lead `d` exactly when each field of `d` is what its serde rule reads from the object |
| Models.LeadDtoReadsNames | src/models.rs:97-99 | the first name, last name and profile URL read back from any object that agrees with `d` |
| Models.LeadDtoReadsPlace | src/models.rs:100-105 | location, summary and company name read as `d`'s values when present and as `None` when absent |
| Models.LeadDtoReadsContact | src/models.rs:106-111 | position, about and email address read as `d`'s values when present and as `None` when absent |
| Models.LeadDtoReadsCustomFields | src/models.rs:112-113 | the custom fields read as `d`'s when present and as empty when absent |
| Models.LeadDtoReads | src/models.rs:94-114 | any object with the required keys whose present values agree with `d` reads as `d`, with missing optionals `None` and missing custom fields empty |
| Models.LeadDtoJsonFields | src/models.rs:94-114 | a lead's JSON carries every field of the lead under its serde rule |
| Models.LeadDtoJsonNames | src/models.rs:97-113 | the names, profile URL and custom fields read back from a lead's JSON |
| Models.LeadDtoJsonPlace | src/models.rs:100-105 | location, summary and company name read back from a lead's JSON |
| Models.LeadDtoJsonContact | src/models.rs:106-111 | position, about and email address read back from a lead's JSON |
| Models.LeadDtoRoundTrip | src/models.rs:94-114 | a lead reads back what it writes, including a lead whose optionals are skipped |
| Models.LeadDtoCustomFieldsDefault | src/models.rs:112-113 | removing the custom-field key from an object that reads as a lead gives the same lead with no custom fields |
| Models.AccountLeadPairDtoJsonFields | src/models.rs:116-122 | the account/lead pair writes the nested lead, and writes the account id exactly when it is `Some` |
| Models.CampaignAddLeadsRequestDtoJsonFields | src/models.rs:124-129 | the add-leads request writes the campaign id and every pair, in order |
| Models.CampaignAddLeadsV2ResultDtoRoundTrip | src/models.rs:131-137 | the v2 add-leads counts read back what they write |
| Models.KeywordFilterDtoJsonFields | src/models.rs:141-148 | the list and account filters write offset and limit, and write `keyword` exactly when it is `Some` |
| Models.ListSummaryDtoRoundTrip | src/models.rs:150-159 | a list summary reads back what it writes |
| Models.ListSummaryDtoRequired | src/models.rs:150-159 | removing any field of a list summary makes it fail to read |
| Models.ListGetLeadsRequestDtoJsonFields | src/models.rs:177-185 | the get-leads request writes list id, offset, limit and keyword |
| Models.LeadListRoundTrip | src/models.rs:169-175 | a list of leads reads back what it writes |
| Models.ListAddLeadsRequestDtoJsonFields | src/models.rs:187-192 | the list add-leads request writes the list id and every lead, in order |
| Models.ListLeadDeleteRequestDtoJsonFields | src/models.rs:194-199 | the delete request writes the list id and the member ids |
| Models.ListLeadDeleteByProfileUrlRequestDtoJsonFields | src/models.rs:201-206 | the delete-by-URL request writes the list id and the profile URLs |
| Models.ListLeadDeleteByProfileUrlResponseDtoRoundTrip | src/models.rs:208-212 | the delete-by-URL response reads back the URLs not found |
| Models.LeadGetRequestDtoJsonFields | src/models.rs:216-220 | the lead request writes only the profile URL |
| Models.LeadListsRequestDtoJsonFields | src/models.rs:222-233 | the lead-lists request writes offset and limit, and writes email, LinkedIn id and profile URL each exactly when it is `Some` |
| Models.LeadListSummaryDtoRoundTrip | src/models.rs:235-240 | a lead-list summary reads back what it writes |
| Models.LeadTagsResponseDtoRoundTrip | src/models.rs:250-253 | the tags response reads back what it writes |
| Models.LeadReplaceTagsRequestDtoJsonFields | src/models.rs:255-264 | the replace-tags request writes the tags and the create flag, and writes each lead identifier exactly when it is `Some` |
| Models.LeadReplaceTagsResponseDtoRoundTrip | src/models.rs:266-270 | the replace-tags response reads back what it writes |
| Models.InboxFiltersDtoJsonKeys | src/models.rs:274-287 | the inbox filters always write both id lists, write each optional field exactly when it is `Some`, and write no other key |
| Models.InboxFiltersDtoJsonLists | src/models.rs:274-287 | the inbox filters write both id lists in full |
| Models.InboxFiltersDtoJsonOptionals | src/models.rs:277-286 | each optional inbox filter reads back from the written object as the value it had |
| Models.InboxGetConversationsRequestDtoJsonFields | src/models.rs:289-295 | the conversations request writes the nested filters, offset and limit |
| Models.InboxConversationSummaryDtoRoundTrip | src/models.rs:297-307 | a conversation summary reads back what it writes |
| Models.InboxConversationSummaryDtoRenames | src/models.rs:299-306 | the id and read flag are spelled `id` and `read`; camelCase spellings of the field names are ignored, and an object without `id` or `read` does not read |
| Models.InboxSendMessageRequestDtoJsonFields | src/models.rs:317-326 | the send-message request writes the conversation id under `id`, the message and account id under camelCase keys, and the subject exactly when it is `Some` |
| Models.LiAccountSummaryDtoRoundTrip | src/models.rs:339-356 | an account summary reads back what it writes |
| Models.LiAccountSummaryDtoDefaults | src/models.rs:346-355 | without the five defaulted keys, the flags read as `false` and the campaign count as 0, and the other fields are kept |
| Models.LiAccountSummaryDtoAuthIndependent | src/models.rs:350-351 | changing the authentication flag changes only that field |
| Models.LiAccountSummaryDtoNavigatorIndependent | src/models.rs:352-353 | changing the Sales Navigator flag changes only that field |
| Models.LiAccountSummaryDtoRecruiterIndependent | src/models.rs:354-355 | changing the Recruiter flag changes only that field |
| Models.WebhookDtoRoundTrip | src/models.rs:369-378 | a webhook reads back what it writes |
| Models.WebhookDtoActiveRequired | src/models.rs:377 | a webhook without `isActive` does not read |
| Models.CreateWebhookRequestDtoJsonFields | src/models.rs:380-388 | the create-webhook request writes exactly its five fields: name, URL, event type, campaign ids and active flag |
| Models.GetWebhooksFilterDtoJsonFields | src/models.rs:390-395 | the webhook filter writes only offset and limit |
| Http.StageError | src/http.rs:22-160 | a failing stage is `Unauthorized` exactly for the API-key header, `BadRequest` exactly for body serialisation (with the serde text appended), and `Unknown` otherwise |
| Http.FirstFailure | src/http.rs:22-160 | the stages run in order, and the first failing one is the one reported; when none fails, nothing is |
| Http.ApiKeyFailureUnauthorized | src/http.rs:38-43 | a failing API-key header after a successful content-type header is reported as `Unauthorized` with its fixed message, whatever fails later |
| Http.SerializeFailureBadRequest | src/http.rs:83-91 | a body that cannot be serialised gives `BadRequest` "Failed to serialize body: …" once the setup stages succeed, before any body or send stage runs |
| Http.SendErrorCodes | src/http.rs:22-145 | a failure before the response arrives is `Unauthorized`, `BadRequest` or `Unknown`, and `BadRequest` only for a body that did not serialise |
| Http.ClassifyStatus | src/http.rs:190-197 | 400, 401, 404, 422 and 429 map one to one onto their codes; every other status is `Unknown` |
| Http.StatusTextReadsBack | src/http.rs:208 | the fallback message is "HTTP " followed by the status in decimal, and reads back to the status |
| Http.MessageField | src/http.rs:201-206 | a message is only ever taken from a value of the error object |
| Http.ErrorMessageFirstKeyDecides | src/http.rs:199-215 | the first of `detail`, `errorMessage`, `message` that the object has decides: its text if it is a string, "HTTP n" otherwise |
| Http.ErrorMessageNoKey | src/http.rs:199-215 | JSON with none of the three keys gives "HTTP n" |
| Http.SpellingsArriveNamed | src/http.rs:201-206 | with a JSON parser that classifies keys by spelling, `detail`, `errorMessage`, `message` (and every other declared spelling) arrive as the keys that are looked up, never as an undeclared key |
| Http.ErrorMessageFallbacks | src/http.rs:209-215 | text that is not JSON is the message as it is; bytes that are not UTF-8 give "HTTP n" |
| Http.StopIndex | src/http.rs:164-183 | the loop stops at the first read that is not a non-empty chunk |
| Http.ReadResponse | src/http.rs:162-183 | the `make_request` loop yields the chunks before the stop in order, or "Failed to read response" when the stop is a stream error |
| Http.ReadErrorBody | src/http.rs:388-397 | the `make_request_empty` loop keeps the chunks before the stop, whatever the stop is |
| Http.BufferedCons | src/http.rs:169-172 | a non-empty chunk is appended and the loop goes on |
| Http.BufferedIgnoresTail | src/http.rs:173-182 | nothing after the stop is read: appending reads there changes neither loop's result |
| Http.LoopsAgree | src/http.rs:162-183 | both loops gather the same bytes, and `make_request`'s fails exactly when the stop is a stream error |
| Http.StatusError | src/http.rs:188-217 | a failing status gives the error whose code is the status's classification |
| Http.MakeRequest | src/http.rs:14-237 | `make_request` runs the request stages, opens and reads the whole body, and only then checks the status and parses the text |
| Http.MakeRequestEmpty | src/http.rs:239-438 | `make_request_empty` runs the request stages and checks the status first; it reads the body only for a failing status |
| Http.ErrorPathIff | src/http.rs:185-236 | with every stage succeeding and a stream that does not fail, `make_request` errors with the status's code and message exactly when the status is at least 400; otherwise it parses the body |
| Http.SuccessPathCases | src/http.rs:220-236 | with a status below 400 and a readable body, non-UTF-8 bytes give `Unknown` "Invalid UTF-8 in response", text that does not parse gives `Unknown` "Failed to parse response: " followed by the parser's message, and parsed text gives the record |
| Http.ReadFailureWins | src/http.rs:176-181 | a stream error gives "Failed to read response" whatever the status |
| Http.EmptySuccessIgnoresBody | src/http.rs:431-437 | `make_request_empty` succeeds on a status below 400 whatever the body holds, even when the body cannot be opened |
| Http.SendErrorIgnoresResponseStages | src/http.rs:147-160 | the response-body stages play no part in errors before the response arrives |
| Http.FirstFailureIgnores | src/http.rs:22-160 | failures of stages outside the sequence do not change which stage is reported |
| Http.CallSitesAgree | src/http.rs:188-218 | for a failing status with healthy stages and a stream that does not fail, the two request functions give the same error |
| Client.LowerTokenIff | src/client.rs:8 | lowercasing a string gives a lowercase token exactly when the string equals it ignoring case |
| Client.MapCampaignStatusIff | src/client.rs:7-16 | a string parses as a known campaign status exactly when it equals that status's name ignoring case |
| Client.MapCampaignStatusUnknown | src/client.rs:14 | a string parses as `Unknown` exactly when it matches none of the known names |
| Client.CampaignStatusRoundTrip | src/client.rs:18-28 | every status prints as a lowercase token that parses back to it |
| Client.MapListTypeIff | src/client.rs:30-36 | `leads` and `companies` parse case-insensitively, and everything else is `Unknown` |
| Client.ParseLowerEventTypeIff | src/client.rs:40-50 | a lowercase token gives a known event type exactly when it is one of that type's spellings: no separator, `_` or `-` |
| Client.SpellingsLowercase | src/client.rs:40-50 | every spelling the event parser accepts is lowercase |
| Client.MapWebhookEventTypeKnown | src/client.rs:38-52 | a string parses as a known event type exactly when it equals one of its spellings ignoring case |
| Client.MapWebhookEventTypeUnknown | src/client.rs:51 | a string parses as `Unknown` exactly when it matches no spelling of a known type |
| Client.PascalTokenLowers | src/client.rs:54-63 | each printed event type lowercases to a spelling the parser accepts |
| Client.WebhookEventTypeRoundTrip | src/client.rs:38-63 | every event type prints as a name that parses back to it |
| Client.ConvertProgressStats | src/client.rs:65-75 | every counter goes to the counter of the same name, the signed in-progress count unchanged |
| Client.ConvertCampaignSummary | src/client.rs:77-99 | the status is the parsed one, statistics are converted counter by counter and present exactly when the DTO has them, and each of the other sixteen fields is copied to the field of the same name |
| Client.ConvertCustomUserFieldDto | src/client.rs:115-118 | a custom field keeps its name and value |
| Client.ConvertCustomUserField | src/client.rs:137-140 | a custom field keeps its name and value |
| Client.ConvertLeadDto | src/client.rs:101-121 | each of the nine lead fields is copied to the field of the same name, and the custom fields one by one, in order |
| Client.ConvertLead | src/client.rs:123-143 | each of the nine lead fields is copied to the field of the same name, and the custom fields one by one, in order |
| Client.ConvertListSummary | src/client.rs:296-303 | the list type is the parsed one, and id, name, item count, creation time and campaign ids are copied to the fields of the same name |
| Client.ConvertWebhook | src/client.rs:630-637 | the event type is the parsed one, and id, name, URL, campaign ids and active flag are copied to the fields of the same name |
| Client.ConvertAddLeadsV2Result | src/client.rs:267-271 | the added, updated and failed counts each go to the count of the same name |
| Client.ConvertLeadListSummary | src/client.rs:467-470 | the list id and name are copied |
| Client.ConvertInboxConversation | src/client.rs:545-551 | the conversation id, account id, profile URL, snippet and seen flag are copied to the fields of the same name |
| Client.ConvertLiAccount | src/client.rs:596-606 | each of the nine account fields, the three validity flags included, is copied to the field of the same name |
| Client.ConvertAccountLeadPair | src/client.rs:227-230 | a pair keeps its account id, and its lead goes through `convert_lead` |
| Client.ConvertProgressStatsLossless | src/client.rs:65-75 | two progress-statistics records convert alike exactly when they are equal, the signed in-progress counter included |
| Client.ConvertCampaignSummaryIff | src/client.rs:77-99 | two summaries convert alike exactly when their statuses parse alike and every other field is equal; the status is the parsed one, and statistics are present exactly when the DTO has them |
| Client.LeadConversionsInverse | src/client.rs:101-143 | the two lead conversions are inverse to each other, and custom fields keep their count, order, names and values |
| Client.ConvertListSummaryIff | src/client.rs:291-305 | two list summaries convert alike exactly when their list types parse alike and every other field is equal |
| Client.ConvertWebhookIff | src/client.rs:630-637 | two webhooks convert alike exactly when their event types parse alike and every other field is equal |
| Client.ConvertAddLeadsV2ResultLossless | src/client.rs:267-271 | the v2 add-leads counts convert one to one: two results convert alike exactly when they are equal |
| Client.ConvertLeadListSummaryLossless | src/client.rs:467-470 | lead-list summaries convert one to one |
| Client.ConvertInboxConversationLossless | src/client.rs:545-551 | conversation summaries convert one to one |
| Client.ConvertLiAccountLossless | src/client.rs:596-606 | account summaries convert one to one, validity flags included |
| Client.ConvertPage | src/client.rs:179-186 | a converted page keeps the total count and the number of items, and converts each item in place |
| Client.CampaignsGetAllBodyRoundTrip | src/client.rs:159-169 | the filter's statuses are printed as lowercase tokens that parse back to them, and the other fields are copied |
| Client.CampaignsGetAllResult | src/client.rs:158-187 | a transport error is passed on unchanged; a page is converted item by item |
| Client.CampaignsGetByIdResult | src/client.rs:189-198 | a transport error is passed on unchanged; a summary is converted |
| Client.CampaignsAddLeadsBodyLossless | src/client.rs:222-232 | the request keeps the campaign id, and every pair's account id and lead, in order |
| Client.AddLeadsV2Result | src/client.rs:244-272 | a transport error is passed on unchanged; the counts are copied |
| Client.ListsGetAllBodyOnWire | src/client.rs:277-281 | the list filter goes on the wire as its offset, limit and keyword |
| Client.ListsGetAllResult | src/client.rs:276-306 | a transport error is passed on unchanged; each list summary is converted with its list type parsed |
| Client.ListsGetByIdResult | src/client.rs:308-324 | a transport error is passed on unchanged; the summary is converted |
| Client.ListsGetLeadsBodyOnWire | src/client.rs:333-338 | the list id, offset, limit and keyword go on the wire as given |
| Client.ListsGetLeadsResult | src/client.rs:326-352 | a transport error is passed on unchanged; each lead is converted |
| Client.ListsAddLeadsBodyLossless | src/client.rs:354-390 | the request keeps the list id, and its leads convert back to the leads given |
| Client.ListsDeleteLeadsBodyOnWire | src/client.rs:392-404 | the list id and member ids go on the wire as given |
| Client.ListsDeleteLeadsByProfileUrlBodyOnWire | src/client.rs:406-425 | the list id and profile URLs go on the wire as given |
| Client.ListsDeleteLeadsByProfileUrlResult | src/client.rs:406-425 | a transport error is passed on unchanged; the URLs not found are copied |
| Client.LeadGetBodyOnWire | src/client.rs:429-440 | the request holds the profile URL and nothing else |
| Client.LeadGetResult | src/client.rs:429-440 | a transport error is passed on unchanged; the lead is converted |
| Client.LeadGetListsBodyOnWire | src/client.rs:442-473 | the request's five fields go on the wire as given |
| Client.LeadGetListsResult | src/client.rs:442-473 | a transport error is passed on unchanged; each lead-list summary is copied |
| Client.LeadGetTagsResult | src/client.rs:475-488 | a transport error is passed on unchanged; the tags are copied |
| Client.LeadReplaceTagsBodyOnWire | src/client.rs:490-511 | the request's fields go on the wire as given |
| Client.LeadReplaceTagsResult | src/client.rs:490-511 | a transport error is passed on unchanged; the newly assigned tags are copied |
| Client.InboxGetConversationsBodyOnWire | src/client.rs:519-530 | the request writes exactly the nested filters, offset and limit, and the filters carry the request's values |
| Client.InboxGetConversationsResult | src/client.rs:515-554 | a transport error is passed on unchanged; each conversation is copied |
| Client.InboxSendMessageBodyOnWire | src/client.rs:556-570 | the conversation id goes on the wire under `id`, with the message and account fields as given |
| Client.LiAccountGetAllBodyOnWire | src/client.rs:574-609 | the account filter goes on the wire as its offset, limit and keyword |
| Client.LiAccountGetAllResult | src/client.rs:574-609 | a transport error is passed on unchanged; each account is copied |
| Client.WebhooksCreateBodyOnWire | src/client.rs:614-621 | the event type is printed as a name that parses back to the requested type, and the other fields are written as given |
| Client.WebhookResponseEndToEnd | src/client.rs:640-659 | when every stage succeeds, the status is below 400 and the body, however chunked, is the JSON text of webhook `d`, the operation returns `d` converted: transport, decoder and converter compose |
| Client.WebhookResult | src/client.rs:630-659 | for create and get-by-id, a transport error is passed on unchanged; the webhook is converted with its event type parsed |
| Client.WebhooksGetAllBodyOnWire | src/client.rs:661-690 | the filter writes exactly offset and limit |
| Client.WebhooksGetAllResult | src/client.rs:661-690 | a transport error is passed on unchanged; each webhook is converted |

## Left out

- The array form of records: serde's derived `Deserialize` also reads a record from a JSON array of its fields in declaration order (`[3, []]` is a page with total count 3 and no items). Every decoder in `Models` rejects an array where a record is expected, so `Client.ParseRecord` gives an error for that text, where serde would succeed.
- The WASI plumbing (`wasi:http` resources, headers, futures and stream
  handles) is not modelled. The `println!` logging, the 8192-byte read size
  and the fixed scheme and authority values are left out too. Each fallible
  WASI call is a `Stage`. The host says which stages fail, what status comes
  back, and what each body-stream read returns.
- The endpoint paths and HTTP methods of every operation are left out. The v1
  and v2 add-leads operations of campaigns and of lists send the same payload
  (`Client.CampaignsAddLeadsBody`, `Client.ListsAddLeadsBody`). They differ in
  what they read back: `campaigns_add_leads` returns the bare `u32` the
  transport decodes, `lists_add_leads` goes through `make_request_empty`, and
  both v2 operations read the counts record (`Client.AddLeadsV2Result`).
- UTF-8 decoding, the JSON grammar and serde's error texts are parameters
  (`Http.Parsers`, the `parse` function). JSON numbers are integers, since no
  record has a floating-point field. Duplicate keys and key order in a JSON
  object are not modelled: an object is a map.
- A stream is a finite list of reads, and a read past its end returns
  `Closed`. A stream that never ends is not modelled.
- `Common.ToLower` folds ASCII letters only. Rust's Unicode lowercasing also
  maps the Kelvin sign (U+212A) to `k`. No status, list-type or event token
  contains a `k`, so no parser result differs.
- `ListGetAllFilterDto` and `LiAccountFilterDto` have the same three fields.
  One `KeywordFilterDto` models both.
- The page records (`CampaignPageDto`, `ListPageDto`, `ListLeadsPageDto`,
  `LeadListsResponseDto`, `InboxConversationPageDto`, `LiAccountPageDto`,
  `WebhookPageDto`) share one generic `PageDto`.
- An earlier design of the API describes the page envelope as
  `{page: {offset, limit, totalCount}, items}`. The code reads
  `{totalCount, items}`, and the model follows the code.
  `Models.NestedEnvelopeRejected` states what this means for the nested form.
- Some operations add nothing beyond the transport result or their body
  builder, so they have no member of their own:
  - `check_api_key`, `campaigns_resume`, `campaigns_pause`,
    `webhooks_delete`, `lists_add_leads`, `lists_delete_leads` and
    `inbox_send_message` return the `make_request_empty` result unchanged;
  - `campaigns_add_leads` returns the transport's `u32` unchanged.
- `CampaignSummaryDto` is only ever read. Its `#[serde(skip_serializing)]`
  attributes therefore have no effect, and the model's writer for it
  (`CampaignSummaryDtoWire`) writes every key.
