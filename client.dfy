/** The operations of `client.rs`, with the transport taken out: each
    operation is a pair of a request builder (domain input to wire record)
    and a response mapper (the transport's `Result` to the domain result,
    returning a transport error unchanged as `?` does). Also the enum
    parsers and serialisers and the record converters they use. */
module Client {
  import opened Common
  import opened Api
  import opened Models
  import J = Json
  import Http

  // -------- campaign status --------

  /** `map_campaign_status`: the five known tokens in any letter case. */
  function MapCampaignStatus(status: string): CampaignStatus
  {
    var t := ToLower(status);
    if t == "draft" then Draft
    else if t == "active" then Active
    else if t == "paused" then Paused
    else if t == "finished" then Finished
    else if t == "canceled" then Canceled
    else CampaignStatus.Unknown
  }

  /** `campaign_status_to_string`. */
  function CampaignStatusToString(status: CampaignStatus): string
  {
    match status
    case Draft => "draft"
    case Active => "active"
    case Paused => "paused"
    case Finished => "finished"
    case Canceled => "canceled"
    case Unknown => "unknown"
  }

  /** Lowercasing `s` gives a lower-case `token` exactly when the two differ
      only in letter case. */
  lemma LowerTokenIff(s: string, token: string)
    requires IsLowercase(token)
    ensures ToLower(s) == token <==> EqualsIgnoringCase(s, token)
  {
    ToLowerEqualIff(s, token);
    ToLowerOfLowercase(token);
  }

  /** A known status is parsed from exactly the spellings of its token that
      differ from it only in letter case. */
  lemma MapCampaignStatusIff(s: string, c: CampaignStatus)
    requires c != CampaignStatus.Unknown
    ensures MapCampaignStatus(s) == c <==> EqualsIgnoringCase(s, CampaignStatusToString(c))
  {
    LowerTokenIff(s, CampaignStatusToString(c));
  }

  /** Every other string is `Unknown`. */
  lemma MapCampaignStatusUnknown(s: string)
    ensures MapCampaignStatus(s) == CampaignStatus.Unknown <==>
      forall c :: c != CampaignStatus.Unknown ==> !EqualsIgnoringCase(s, CampaignStatusToString(c))
  {
    forall c | c != CampaignStatus.Unknown
      ensures MapCampaignStatus(s) == c <==> EqualsIgnoringCase(s, CampaignStatusToString(c))
    {
      MapCampaignStatusIff(s, c);
    }
    var parsed := MapCampaignStatus(s);
    if parsed != CampaignStatus.Unknown {
      MapCampaignStatusIff(s, parsed);
    }
  }

  /** Serialising and parsing back gives the status, `Unknown` included, and
      the token has no upper-case letter. */
  lemma CampaignStatusRoundTrip(c: CampaignStatus)
    ensures MapCampaignStatus(CampaignStatusToString(c)) == c
    ensures IsLowercase(CampaignStatusToString(c))
  {
    var token := CampaignStatusToString(c);
    assert IsLowercase(token);
    ToLowerOfLowercase(token);
  }

  // -------- list type --------

  /** `map_list_type`. */
  function MapListType(listType: string): ListType
  {
    var t := ToLower(listType);
    if t == "leads" then Leads
    else if t == "companies" then Companies
    else ListType.Unknown
  }

  /** Both known tokens in any letter case; every other string is `Unknown`. */
  lemma MapListTypeIff(s: string)
    ensures MapListType(s) == Leads <==> EqualsIgnoringCase(s, "leads")
    ensures MapListType(s) == Companies <==> EqualsIgnoringCase(s, "companies")
    ensures MapListType(s) == ListType.Unknown <==> !EqualsIgnoringCase(s, "leads") && !EqualsIgnoringCase(s, "companies")
  {
    LowerTokenIff(s, "leads");
    LowerTokenIff(s, "companies");
  }

  // -------- webhook event type --------

  /** `map_webhook_event_type`: each event in three spellings (words run
      together, or joined by `_` or by `-`), in any letter case. */
  function MapWebhookEventType(eventType: string): WebhookEventType
  {
    ParseLowerEventType(ToLower(eventType))
  }

  /** The `match` of `map_webhook_event_type` on the lowercased text. */
  function ParseLowerEventType(t: string): WebhookEventType
  {
    if t == "connectionrequestsent" || t == "connection_request_sent" || t == "connection-request-sent" then
      ConnectionRequestSent
    else if t == "connectionaccepted" || t == "connection_accepted" || t == "connection-accepted" then
      ConnectionAccepted
    else if t == "messagesent" || t == "message_sent" || t == "message-sent" then
      MessageSent
    else if t == "messagereplied" || t == "message_replied" || t == "message-replied" then
      MessageReplied
    else WebhookEventType.Unknown
  }

  /** `webhook_event_type_to_string`. */
  function WebhookEventTypeToString(eventType: WebhookEventType): string
  {
    match eventType
    case ConnectionRequestSent => "ConnectionRequestSent"
    case ConnectionAccepted => "ConnectionAccepted"
    case MessageSent => "MessageSent"
    case MessageReplied => "MessageReplied"
    case Unknown => "Unknown"
  }

  /** The three lower-case spellings of an event's words: run together,
      joined by `_`, and joined by `-`. */
  function EventSpellings(e: WebhookEventType): set<string>
  {
    match e
    case ConnectionRequestSent => {"connectionrequestsent", "connection_request_sent", "connection-request-sent"}
    case ConnectionAccepted => {"connectionaccepted", "connection_accepted", "connection-accepted"}
    case MessageSent => {"messagesent", "message_sent", "message-sent"}
    case MessageReplied => {"messagereplied", "message_replied", "message-replied"}
    case Unknown => {}
  }

  /** The lowercased text names a known event exactly when it is one of the
      event's spellings. */
  lemma ParseLowerEventTypeIff(t: string, e: WebhookEventType)
    requires e != WebhookEventType.Unknown
    ensures ParseLowerEventType(t) == e <==> t in EventSpellings(e)
  {
  }

  /** Every spelling of an event is lower case. */
  lemma SpellingsLowercase(e: WebhookEventType)
    ensures forall w :: w in EventSpellings(e) ==> IsLowercase(w)
  {
    match e {
      case ConnectionRequestSent => ConnectionRequestSentLowercase();
      case ConnectionAccepted => ConnectionAcceptedLowercase();
      case MessageSent => MessageSentLowercase();
      case MessageReplied => MessageRepliedLowercase();
      case Unknown =>
    }
  }

  // One lemma per event type: evaluating every spelling literal of all four
  // types in a single proof is more than the solver's budget allows.
  lemma ConnectionRequestSentLowercase()
    ensures forall w :: w in EventSpellings(ConnectionRequestSent) ==> IsLowercase(w)
  {
  }

  lemma ConnectionAcceptedLowercase()
    ensures forall w :: w in EventSpellings(ConnectionAccepted) ==> IsLowercase(w)
  {
  }

  lemma MessageSentLowercase()
    ensures forall w :: w in EventSpellings(MessageSent) ==> IsLowercase(w)
  {
  }

  lemma MessageRepliedLowercase()
    ensures forall w :: w in EventSpellings(MessageReplied) ==> IsLowercase(w)
  {
  }

  /** A known event is parsed from exactly its spellings, in any letter case. */
  lemma MapWebhookEventTypeKnown(s: string, e: WebhookEventType)
    requires e != WebhookEventType.Unknown
    ensures MapWebhookEventType(s) == e <==> exists w :: w in EventSpellings(e) && EqualsIgnoringCase(s, w)
  {
    ParseLowerEventTypeIff(ToLower(s), e);
    SpellingsLowercase(e);
    forall w | w in EventSpellings(e)
      ensures ToLower(s) == w <==> EqualsIgnoringCase(s, w)
    {
      LowerTokenIff(s, w);
    }
  }

  /** Text that matches no spelling of any event, in any letter case, is
      `Unknown`, and only such text. */
  lemma MapWebhookEventTypeUnknown(s: string)
    ensures MapWebhookEventType(s) == WebhookEventType.Unknown <==>
      forall e, w :: w in EventSpellings(e) ==> !EqualsIgnoringCase(s, w)
  {
    forall e | e != WebhookEventType.Unknown
      ensures MapWebhookEventType(s) == e <==> exists w :: w in EventSpellings(e) && EqualsIgnoringCase(s, w)
    {
      MapWebhookEventTypeKnown(s, e);
    }
    var parsed := MapWebhookEventType(s);
    if parsed != WebhookEventType.Unknown {
      MapWebhookEventTypeKnown(s, parsed);
    }
  }

  /** Lowercasing a serialised event gives its unseparated spelling. */
  lemma PascalTokenLowers(e: WebhookEventType)
    requires e != WebhookEventType.Unknown
    ensures ToLower(WebhookEventTypeToString(e)) in EventSpellings(e)
  {
    match e {
      case ConnectionRequestSent => ToLowerPointwise("ConnectionRequestSent", "connectionrequestsent");
      case ConnectionAccepted => ToLowerPointwise("ConnectionAccepted", "connectionaccepted");
      case MessageSent => ToLowerPointwise("MessageSent", "messagesent");
      case MessageReplied => ToLowerPointwise("MessageReplied", "messagereplied");
    }
  }

  /** The serialiser writes the event's words run together with capital
      initials, which the parser reads back; `Unknown` round-trips too. */
  lemma WebhookEventTypeRoundTrip(e: WebhookEventType)
    ensures MapWebhookEventType(WebhookEventTypeToString(e)) == e
  {
    if e == WebhookEventType.Unknown {
      ToLowerPointwise("Unknown", "unknown");
    } else {
      PascalTokenLowers(e);
      ParseLowerEventTypeIff(ToLower(WebhookEventTypeToString(e)), e);
    }
  }

  // -------- converters --------

  /** `convert_progress_stats`: each counter goes to the counter of the same
      name, the signed in-progress count unchanged. */
  function ConvertProgressStats(dto: ProgressStatsDto): (r: ProgressStats)
    ensures r.totalUsers == dto.totalUsers
    ensures r.totalUsersInProgress == dto.totalUsersInProgress
    ensures r.totalUsersPending == dto.totalUsersPending
    ensures r.totalUsersFinished == dto.totalUsersFinished
    ensures r.totalUsersFailed == dto.totalUsersFailed
    ensures r.totalUsersManuallyStopped == dto.totalUsersManuallyStopped
    ensures r.totalUsersExcluded == dto.totalUsersExcluded
  {
    Api.ProgressStats(dto.totalUsers, dto.totalUsersInProgress, dto.totalUsersPending, dto.totalUsersFinished,
                      dto.totalUsersFailed, dto.totalUsersManuallyStopped, dto.totalUsersExcluded)
  }

  /** Every counter, the signed in-progress one included, is carried over:
      two records convert alike only when they are equal. */
  lemma ConvertProgressStatsLossless(a: ProgressStatsDto, b: ProgressStatsDto)
    ensures ConvertProgressStats(a) == ConvertProgressStats(b) <==> a == b
  {
  }

  /** `convert_campaign_summary`: the status is parsed, the statistics are
      converted, and every other field is copied to the field of the same name. */
  function ConvertCampaignSummary(dto: CampaignSummaryDto): (r: CampaignSummary)
    ensures r.id == dto.id && r.name == dto.name && r.creationTime == dto.creationTime
    ensures r.linkedinUserListName == dto.linkedinUserListName
    ensures r.linkedinUserListId == dto.linkedinUserListId
    ensures r.campaignAccountIds == dto.campaignAccountIds
    ensures r.status == MapCampaignStatus(dto.status)
    ensures r.progressStats.None? <==> dto.progressStats.None?
    ensures dto.progressStats.Some? ==> r.progressStats.value == ConvertProgressStats(dto.progressStats.value)
    ensures r.excludeAlreadyMessagedGlobal == dto.excludeAlreadyMessagedGlobal
    ensures r.excludeAlreadyMessagedCampaignAccounts == dto.excludeAlreadyMessagedCampaignAccounts
    ensures r.excludeFirstConnectionCampaignAccounts == dto.excludeFirstConnectionCampaignAccounts
    ensures r.excludeFirstConnectionGlobal == dto.excludeFirstConnectionGlobal
    ensures r.excludeNoProfilePicture == dto.excludeNoProfilePicture
    ensures r.excludeListId == dto.excludeListId
    ensures r.excludeInOtherCampaigns == dto.excludeInOtherCampaigns
    ensures r.excludeHasOtherAccConversations == dto.excludeHasOtherAccConversations
    ensures r.excludeContactedFromSenderInOtherCampaign == dto.excludeContactedFromSenderInOtherCampaign
    ensures r.organizationUnitId == dto.organizationUnitId
  {
    CampaignSummary(
      dto.id, dto.name, dto.creationTime, dto.linkedinUserListName, dto.linkedinUserListId,
      dto.campaignAccountIds,
      MapCampaignStatus(dto.status),
      match dto.progressStats case None => None case Some(p) => Some(ConvertProgressStats(p)),
      dto.excludeAlreadyMessagedGlobal, dto.excludeAlreadyMessagedCampaignAccounts,
      dto.excludeFirstConnectionCampaignAccounts, dto.excludeFirstConnectionGlobal,
      dto.excludeNoProfilePicture, dto.excludeListId,
      dto.excludeInOtherCampaigns, dto.excludeHasOtherAccConversations,
      dto.excludeContactedFromSenderInOtherCampaign, dto.organizationUnitId)
  }

  /** The status is the only field that is not copied: two summaries convert
      alike exactly when they agree on every other field and their statuses
      parse alike. Missing progress statistics stay missing. */
  lemma ConvertCampaignSummaryIff(a: CampaignSummaryDto, b: CampaignSummaryDto)
    ensures ConvertCampaignSummary(a) == ConvertCampaignSummary(b) <==>
      a.(status := "") == b.(status := "") && MapCampaignStatus(a.status) == MapCampaignStatus(b.status)
    ensures ConvertCampaignSummary(a).status == MapCampaignStatus(a.status)
    ensures ConvertCampaignSummary(a).progressStats.None? <==> a.progressStats.None?
  {
    if ConvertCampaignSummary(a) == ConvertCampaignSummary(b) {
      if a.progressStats.Some? && b.progressStats.Some? {
        ConvertProgressStatsLossless(a.progressStats.value, b.progressStats.value);
      }
    }
  }

  function ConvertCustomUserFieldDto(f: CustomUserFieldDto): (r: CustomUserField)
    ensures r.name == f.name && r.value == f.value
  {
    CustomUserField(f.name, f.value)
  }

  function ConvertCustomUserField(f: CustomUserField): (r: CustomUserFieldDto)
    ensures r.name == f.name && r.value == f.value
  {
    CustomUserFieldDto(f.name, f.value)
  }

  /** `convert_lead_dto`: every field is copied to the field of the same
      name, and the custom fields one by one, in order. */
  function ConvertLeadDto(dto: LeadDto): (r: Lead)
    ensures r.firstName == dto.firstName && r.lastName == dto.lastName && r.profileUrl == dto.profileUrl
    ensures r.location == dto.location && r.summary == dto.summary && r.companyName == dto.companyName
    ensures r.position == dto.position && r.about == dto.about && r.emailAddress == dto.emailAddress
    ensures |r.customUserFields| == |dto.customUserFields|
    ensures forall i :: 0 <= i < |r.customUserFields| ==>
      r.customUserFields[i].name == dto.customUserFields[i].name &&
      r.customUserFields[i].value == dto.customUserFields[i].value
  {
    Api.Lead(dto.firstName, dto.lastName, dto.profileUrl, dto.location, dto.summary, dto.companyName,
             dto.position, dto.about, dto.emailAddress, Map(dto.customUserFields, ConvertCustomUserFieldDto))
  }

  /** `convert_lead`: every field is copied to the field of the same name,
      and the custom fields one by one, in order. */
  function ConvertLead(lead: Lead): (r: LeadDto)
    ensures r.firstName == lead.firstName && r.lastName == lead.lastName && r.profileUrl == lead.profileUrl
    ensures r.location == lead.location && r.summary == lead.summary && r.companyName == lead.companyName
    ensures r.position == lead.position && r.about == lead.about && r.emailAddress == lead.emailAddress
    ensures |r.customUserFields| == |lead.customUserFields|
    ensures forall i :: 0 <= i < |r.customUserFields| ==>
      r.customUserFields[i].name == lead.customUserFields[i].name &&
      r.customUserFields[i].value == lead.customUserFields[i].value
  {
    LeadDto(lead.firstName, lead.lastName, lead.profileUrl, lead.location, lead.summary, lead.companyName,
            lead.position, lead.about, lead.emailAddress, Map(lead.customUserFields, ConvertCustomUserField))
  }

  /** The two lead conversions are mutual inverses, and custom fields keep
      their number and order. */
  lemma LeadConversionsInverse(dto: LeadDto, lead: Lead)
    ensures ConvertLead(ConvertLeadDto(dto)) == dto
    ensures ConvertLeadDto(ConvertLead(lead)) == lead
    ensures var fields := ConvertLeadDto(dto).customUserFields;
      |fields| == |dto.customUserFields| &&
      forall i :: 0 <= i < |fields| ==>
        fields[i].name == dto.customUserFields[i].name && fields[i].value == dto.customUserFields[i].value
  {
    MapInverse(dto.customUserFields, ConvertCustomUserFieldDto, ConvertCustomUserField);
    MapInverse(lead.customUserFields, ConvertCustomUserField, ConvertCustomUserFieldDto);
  }

  /** The list-summary mapping of `lists_get_all` and `lists_get_by_id`. */
  function ConvertListSummary(dto: ListSummaryDto): (r: ListSummary)
    ensures r.id == dto.id && r.name == dto.name && r.totalItemsCount == dto.totalItemsCount
    ensures r.listType == MapListType(dto.listType)
    ensures r.creationTime == dto.creationTime && r.campaignIds == dto.campaignIds
  {
    ListSummary(dto.id, dto.name, dto.totalItemsCount, MapListType(dto.listType), dto.creationTime, dto.campaignIds)
  }

  /** The list type is the only field that is not copied. */
  lemma ConvertListSummaryIff(a: ListSummaryDto, b: ListSummaryDto)
    ensures ConvertListSummary(a) == ConvertListSummary(b) <==>
      a.(listType := "") == b.(listType := "") && MapListType(a.listType) == MapListType(b.listType)
  {
  }

  /** The webhook mapping of `webhooks_create`, `webhooks_get_by_id` and
      `webhooks_get_all`. */
  function ConvertWebhook(dto: WebhookDto): (r: Webhook)
    ensures r.id == dto.id && r.webhookName == dto.webhookName && r.webhookUrl == dto.webhookUrl
    ensures r.eventType == MapWebhookEventType(dto.eventType)
    ensures r.campaignIds == dto.campaignIds && r.isActive == dto.isActive
  {
    Webhook(dto.id, dto.webhookName, dto.webhookUrl, MapWebhookEventType(dto.eventType), dto.campaignIds, dto.isActive)
  }

  /** The event type is the only field that is not copied. */
  lemma ConvertWebhookIff(a: WebhookDto, b: WebhookDto)
    ensures ConvertWebhook(a) == ConvertWebhook(b) <==>
      a.(eventType := "") == b.(eventType := "") && MapWebhookEventType(a.eventType) == MapWebhookEventType(b.eventType)
  {
  }

  /** The result mapping of `campaigns_add_leads_v2`: the three counts, each
      to the count of the same name. */
  function ConvertAddLeadsV2Result(dto: CampaignAddLeadsV2ResultDto): (r: CampaignAddLeadsV2Result)
    ensures r.addedLeadsCount == dto.addedLeadsCount
    ensures r.updatedLeadsCount == dto.updatedLeadsCount
    ensures r.failedLeadsCount == dto.failedLeadsCount
  {
    CampaignAddLeadsV2Result(dto.addedLeadsCount, dto.updatedLeadsCount, dto.failedLeadsCount)
  }

  /** The item mapping of `lead_get_lists`. */
  function ConvertLeadListSummary(dto: LeadListSummaryDto): (r: LeadListSummary)
    ensures r.listId == dto.listId && r.listName == dto.listName
  {
    LeadListSummary(dto.listId, dto.listName)
  }

  /** The item mapping of `inbox_get_conversations_v2`. */
  function ConvertInboxConversation(dto: InboxConversationSummaryDto): (r: InboxConversationSummary)
    ensures r.conversationId == dto.conversationId && r.linkedInAccountId == dto.linkedInAccountId
    ensures r.leadProfileUrl == dto.leadProfileUrl && r.lastMessageSnippet == dto.lastMessageSnippet
    ensures r.seen == dto.seen
  {
    InboxConversationSummary(dto.conversationId, dto.linkedInAccountId, dto.leadProfileUrl, dto.lastMessageSnippet, dto.seen)
  }

  /** The item mapping of `li_account_get_all`. */
  function ConvertLiAccount(dto: LiAccountSummaryDto): (r: LiAccountSummary)
    ensures r.id == dto.id && r.emailAddress == dto.emailAddress
    ensures r.firstName == dto.firstName && r.lastName == dto.lastName
    ensures r.isActive == dto.isActive && r.activeCampaigns == dto.activeCampaigns
    ensures r.authIsValid == dto.authIsValid
    ensures r.isValidNavigator == dto.isValidNavigator
    ensures r.isValidRecruiter == dto.isValidRecruiter
  {
    LiAccountSummary(dto.id, dto.emailAddress, dto.firstName, dto.lastName, dto.isActive, dto.activeCampaigns,
                     dto.authIsValid, dto.isValidNavigator, dto.isValidRecruiter)
  }

  // The remaining mappings copy every field, so each loses nothing.

  lemma ConvertAddLeadsV2ResultLossless(r1: CampaignAddLeadsV2ResultDto, r2: CampaignAddLeadsV2ResultDto)
    ensures ConvertAddLeadsV2Result(r1) == ConvertAddLeadsV2Result(r2) <==> r1 == r2
  {
  }

  lemma ConvertLeadListSummaryLossless(l1: LeadListSummaryDto, l2: LeadListSummaryDto)
    ensures ConvertLeadListSummary(l1) == ConvertLeadListSummary(l2) <==> l1 == l2
  {
  }

  lemma ConvertInboxConversationLossless(c1: InboxConversationSummaryDto, c2: InboxConversationSummaryDto)
    ensures ConvertInboxConversation(c1) == ConvertInboxConversation(c2) <==> c1 == c2
  {
  }

  lemma ConvertLiAccountLossless(a1: LiAccountSummaryDto, a2: LiAccountSummaryDto)
    ensures ConvertLiAccount(a1) == ConvertLiAccount(a2) <==> a1 == a2
  {
  }

  // -------- pages and results --------

  /** `q` keeps the total of `p` and holds the images of its items under `f`,
      one to one and in order; the items are not checked against the total. */
  predicate PageMapped<A, B(==)>(p: PageDto<A>, q: Page<B>, f: A -> B)
  {
    q.totalCount == p.totalCount && |q.items| == |p.items| &&
    forall i :: 0 <= i < |p.items| ==> q.items[i] == f(p.items[i])
  }

  function ConvertPage<A, B(==)>(p: PageDto<A>, f: A -> B): (q: Page<B>)
    ensures PageMapped(p, q, f)
  {
    Page(p.totalCount, Map(p.items, f))
  }

  /** A transport error is returned unchanged, as `?` does. */
  predicate Propagated<A, B>(response: Result<A, ApiError>, r: Result<B, ApiError>)
  {
    response.Err? ==> r == Err(response.error)
  }

  /** The result of an operation that returns one converted record. */
  predicate ItemResult<A, B(==)>(response: Result<A, ApiError>, r: Result<B, ApiError>, f: A -> B)
  {
    Propagated(response, r) && (response.Ok? ==> r == Ok(f(response.value)))
  }

  /** The result of an operation that returns a converted page. */
  predicate PageResult<A, B(==)>(response: Result<PageDto<A>, ApiError>, r: Result<Page<B>, ApiError>, f: A -> B)
  {
    Propagated(response, r) && (response.Ok? ==> r.Ok? && PageMapped(response.value, r.value, f))
  }

  // -------- campaigns --------

  /** The filter `campaigns_get_all` sends. */
  function CampaignsGetAllBody(filter: CampaignFilter): CampaignFilterDto
  {
    CampaignFilterDto(filter.offset, filter.limit, filter.keyword, Map(filter.statuses, CampaignStatusToString), filter.accountIds)
  }

  /** Statuses are sent as lower-case tokens, one per status and in order,
      that parse back to the statuses; the other fields are copied. */
  lemma CampaignsGetAllBodyRoundTrip(filter: CampaignFilter)
    ensures var d := CampaignsGetAllBody(filter);
      && Map(d.statuses, MapCampaignStatus) == filter.statuses
      && (forall i :: 0 <= i < |d.statuses| ==> IsLowercase(d.statuses[i]))
      && d.offset == filter.offset && d.limit == filter.limit
      && d.keyword == filter.keyword && d.accountIds == filter.accountIds
  {
    forall c: CampaignStatus ensures MapCampaignStatus(CampaignStatusToString(c)) == c && IsLowercase(CampaignStatusToString(c)) {
      CampaignStatusRoundTrip(c);
    }
    MapInverse(filter.statuses, CampaignStatusToString, MapCampaignStatus);
  }

  function CampaignsGetAllResult(response: Result<PageDto<CampaignSummaryDto>, ApiError>): (r: Result<Page<CampaignSummary>, ApiError>)
    ensures PageResult(response, r, ConvertCampaignSummary)
  {
    var page :- response;
    Ok(ConvertPage(page, ConvertCampaignSummary))
  }

  function CampaignsGetByIdResult(response: Result<CampaignSummaryDto, ApiError>): (r: Result<CampaignSummary, ApiError>)
    ensures ItemResult(response, r, ConvertCampaignSummary)
  {
    var dto :- response;
    Ok(ConvertCampaignSummary(dto))
  }

  /** The payload of `campaigns_add_leads` and `campaigns_add_leads_v2`. */
  function CampaignsAddLeadsBody(payload: CampaignAddLeadsRequest): CampaignAddLeadsRequestDto
  {
    CampaignAddLeadsRequestDto(payload.campaignId, Map(payload.accountLeadPairs, ConvertAccountLeadPair))
  }

  function ConvertAccountLeadPair(p: AccountLeadPair): (r: AccountLeadPairDto)
    ensures r.linkedInAccountId == p.linkedInAccountId && r.lead == ConvertLead(p.lead)
  {
    AccountLeadPairDto(p.linkedInAccountId, ConvertLead(p.lead))
  }

  /** Every pair is sent, in order, with its account id, and its lead converts
      back to the caller's lead. */
  lemma CampaignsAddLeadsBodyLossless(payload: CampaignAddLeadsRequest)
    ensures var d := CampaignsAddLeadsBody(payload);
      && d.campaignId == payload.campaignId
      && |d.accountLeadPairs| == |payload.accountLeadPairs|
      && forall i :: 0 <= i < |d.accountLeadPairs| ==>
           d.accountLeadPairs[i].linkedInAccountId == payload.accountLeadPairs[i].linkedInAccountId &&
           ConvertLeadDto(d.accountLeadPairs[i].lead) == payload.accountLeadPairs[i].lead
  {
    var d := CampaignsAddLeadsBody(payload);
    forall i | 0 <= i < |d.accountLeadPairs|
      ensures ConvertLeadDto(d.accountLeadPairs[i].lead) == payload.accountLeadPairs[i].lead
    {
      LeadConversionsInverse(d.accountLeadPairs[i].lead, payload.accountLeadPairs[i].lead);
    }
  }

  /** The result mapping of `campaigns_add_leads_v2` and `lists_add_leads_v2`. */
  function AddLeadsV2Result(response: Result<CampaignAddLeadsV2ResultDto, ApiError>): (r: Result<CampaignAddLeadsV2Result, ApiError>)
    ensures ItemResult(response, r, ConvertAddLeadsV2Result)
  {
    var dto :- response;
    Ok(ConvertAddLeadsV2Result(dto))
  }

  // -------- lists --------

  function ListsGetAllBody(filter: ListGetAllFilter): KeywordFilterDto
  {
    KeywordFilterDto(filter.offset, filter.limit, filter.keyword)
  }

  /** What the service receives reads back as the caller's filter; the
      keyword is left out when absent. */
  lemma ListsGetAllBodyOnWire(filter: ListGetAllFilter)
    ensures var m := KeywordFilterDtoJson(ListsGetAllBody(filter)).fields;
      && (J.Keyword in m <==> filter.keyword.Some?)
      && J.Required(m, J.Offset, J.AsU32) == Some(filter.offset)
      && J.Required(m, J.Limit, J.AsU32) == Some(filter.limit)
      && J.Optional(m, J.Keyword, J.AsStr) == Some(filter.keyword)
  {
    KeywordFilterDtoJsonFields(ListsGetAllBody(filter));
  }

  function ListsGetAllResult(response: Result<PageDto<ListSummaryDto>, ApiError>): (r: Result<Page<ListSummary>, ApiError>)
    ensures PageResult(response, r, ConvertListSummary)
  {
    var page :- response;
    Ok(ConvertPage(page, ConvertListSummary))
  }

  function ListsGetByIdResult(response: Result<ListSummaryDto, ApiError>): (r: Result<ListSummary, ApiError>)
    ensures ItemResult(response, r, ConvertListSummary)
  {
    var dto :- response;
    Ok(ConvertListSummary(dto))
  }

  function ListsGetLeadsBody(listId: u64, offset: u32, limit: u32, keyword: Option<string>): ListGetLeadsRequestDto
  {
    ListGetLeadsRequestDto(listId, offset, limit, keyword)
  }

  lemma ListsGetLeadsBodyOnWire(listId: u64, offset: u32, limit: u32, keyword: Option<string>)
    ensures var m := ListGetLeadsRequestDtoJson(ListsGetLeadsBody(listId, offset, limit, keyword)).fields;
      && (J.Keyword in m <==> keyword.Some?)
      && J.Required(m, J.ListId, J.AsU64) == Some(listId)
      && J.Required(m, J.Offset, J.AsU32) == Some(offset)
      && J.Required(m, J.Limit, J.AsU32) == Some(limit)
      && J.Optional(m, J.Keyword, J.AsStr) == Some(keyword)
  {
    ListGetLeadsRequestDtoJsonFields(ListsGetLeadsBody(listId, offset, limit, keyword));
  }

  function ListsGetLeadsResult(response: Result<PageDto<LeadDto>, ApiError>): (r: Result<Page<Lead>, ApiError>)
    ensures PageResult(response, r, ConvertLeadDto)
  {
    var page :- response;
    Ok(ConvertPage(page, ConvertLeadDto))
  }

  /** The payload of `lists_add_leads` and `lists_add_leads_v2`. */
  function ListsAddLeadsBody(listId: u64, leads: seq<Lead>): ListAddLeadsRequestDto
  {
    ListAddLeadsRequestDto(listId, Map(leads, ConvertLead))
  }

  /** Every lead is sent, in order, and converts back to the caller's lead. */
  lemma ListsAddLeadsBodyLossless(listId: u64, leads: seq<Lead>)
    ensures ListsAddLeadsBody(listId, leads).listId == listId
    ensures Map(ListsAddLeadsBody(listId, leads).leads, ConvertLeadDto) == leads
  {
    forall lead: Lead ensures ConvertLeadDto(ConvertLead(lead)) == lead {
      LeadConversionsInverse(ConvertLead(lead), lead);
    }
    MapInverse(leads, ConvertLead, ConvertLeadDto);
  }

  function ListsDeleteLeadsBody(request: ListLeadDeleteRequest): ListLeadDeleteRequestDto
  {
    ListLeadDeleteRequestDto(request.listId, request.leadMemberIds)
  }

  lemma ListsDeleteLeadsBodyOnWire(request: ListLeadDeleteRequest)
    ensures var m := ListLeadDeleteRequestDtoJson(ListsDeleteLeadsBody(request)).fields;
      && J.Required(m, J.ListId, J.AsU64) == Some(request.listId)
      && J.Required(m, J.LeadMemberIds, StrList) == Some(request.leadMemberIds)
  {
    ListLeadDeleteRequestDtoJsonFields(ListsDeleteLeadsBody(request));
  }

  function ListsDeleteLeadsByProfileUrlBody(request: ListLeadDeleteByProfileUrlRequest): ListLeadDeleteByProfileUrlRequestDto
  {
    ListLeadDeleteByProfileUrlRequestDto(request.listId, request.profileUrls)
  }

  lemma ListsDeleteLeadsByProfileUrlBodyOnWire(request: ListLeadDeleteByProfileUrlRequest)
    ensures var m := ListLeadDeleteByProfileUrlRequestDtoJson(ListsDeleteLeadsByProfileUrlBody(request)).fields;
      && J.Required(m, J.ListId, J.AsU64) == Some(request.listId)
      && J.Required(m, J.ProfileUrls, StrList) == Some(request.profileUrls)
  {
    ListLeadDeleteByProfileUrlRequestDtoJsonFields(ListsDeleteLeadsByProfileUrlBody(request));
  }

  function ListsDeleteLeadsByProfileUrlResult(response: Result<ListLeadDeleteByProfileUrlResponseDto, ApiError>)
    : (r: Result<ListLeadDeleteByProfileUrlResponse, ApiError>)
    ensures ItemResult(response, r, (dto: ListLeadDeleteByProfileUrlResponseDto) => ListLeadDeleteByProfileUrlResponse(dto.notFoundInList))
  {
    var dto :- response;
    Ok(ListLeadDeleteByProfileUrlResponse(dto.notFoundInList))
  }

  // -------- leads and tags --------

  /** The body of `lead_get` and `lead_get_tags`. */
  function LeadGetBody(profileUrl: string): LeadGetRequestDto
  {
    LeadGetRequestDto(profileUrl)
  }

  lemma LeadGetBodyOnWire(profileUrl: string)
    ensures var m := LeadGetRequestDtoJson(LeadGetBody(profileUrl)).fields;
      m.Keys == {J.ProfileUrl} && J.Required(m, J.ProfileUrl, J.AsStr) == Some(profileUrl)
  {
    LeadGetRequestDtoJsonFields(LeadGetBody(profileUrl));
  }

  function LeadGetResult(response: Result<LeadDto, ApiError>): (r: Result<Lead, ApiError>)
    ensures ItemResult(response, r, ConvertLeadDto)
  {
    var dto :- response;
    Ok(ConvertLeadDto(dto))
  }

  function LeadGetListsBody(request: LeadListsRequest): LeadListsRequestDto
  {
    LeadListsRequestDto(request.email, request.linkedinId, request.profileUrl, request.offset, request.limit)
  }

  /** Each lookup key is sent exactly when the caller gave it. */
  lemma LeadGetListsBodyOnWire(request: LeadListsRequest)
    ensures var m := LeadListsRequestDtoJson(LeadGetListsBody(request)).fields;
      && (J.Email in m <==> request.email.Some?)
      && (J.LinkedinId in m <==> request.linkedinId.Some?)
      && (J.ProfileUrl in m <==> request.profileUrl.Some?)
      && J.Optional(m, J.Email, J.AsStr) == Some(request.email)
      && J.Optional(m, J.LinkedinId, J.AsStr) == Some(request.linkedinId)
      && J.Optional(m, J.ProfileUrl, J.AsStr) == Some(request.profileUrl)
      && J.Required(m, J.Offset, J.AsU32) == Some(request.offset)
      && J.Required(m, J.Limit, J.AsU32) == Some(request.limit)
  {
    LeadListsRequestDtoJsonFields(LeadGetListsBody(request));
  }

  function LeadGetListsResult(response: Result<PageDto<LeadListSummaryDto>, ApiError>): (r: Result<Page<LeadListSummary>, ApiError>)
    ensures PageResult(response, r, ConvertLeadListSummary)
  {
    var page :- response;
    Ok(ConvertPage(page, ConvertLeadListSummary))
  }

  function LeadGetTagsResult(response: Result<LeadTagsResponseDto, ApiError>): (r: Result<LeadTagsResponse, ApiError>)
    ensures ItemResult(response, r, (dto: LeadTagsResponseDto) => LeadTagsResponse(dto.tags))
  {
    var dto :- response;
    Ok(LeadTagsResponse(dto.tags))
  }

  function LeadReplaceTagsBody(request: LeadReplaceTagsRequest): LeadReplaceTagsRequestDto
  {
    LeadReplaceTagsRequestDto(request.leadProfileUrl, request.leadLinkedInId, request.tags, request.createTagIfNotExisting)
  }

  lemma LeadReplaceTagsBodyOnWire(request: LeadReplaceTagsRequest)
    ensures var m := LeadReplaceTagsRequestDtoJson(LeadReplaceTagsBody(request)).fields;
      && (J.LeadProfileUrl in m <==> request.leadProfileUrl.Some?)
      && (J.LeadLinkedInId in m <==> request.leadLinkedInId.Some?)
      && J.Optional(m, J.LeadProfileUrl, J.AsStr) == Some(request.leadProfileUrl)
      && J.Optional(m, J.LeadLinkedInId, J.AsStr) == Some(request.leadLinkedInId)
      && J.Required(m, J.Tags, StrList) == Some(request.tags)
      && J.Required(m, J.CreateTagIfNotExisting, J.AsBool) == Some(request.createTagIfNotExisting)
  {
    LeadReplaceTagsRequestDtoJsonFields(LeadReplaceTagsBody(request));
  }

  function LeadReplaceTagsResult(response: Result<LeadReplaceTagsResponseDto, ApiError>): (r: Result<LeadReplaceTagsResponse, ApiError>)
    ensures ItemResult(response, r, (dto: LeadReplaceTagsResponseDto) => LeadReplaceTagsResponse(dto.newAssignedTags))
  {
    var dto :- response;
    Ok(LeadReplaceTagsResponse(dto.newAssignedTags))
  }

  // -------- inbox --------

  function InboxGetConversationsBody(request: InboxGetConversationsRequest): InboxGetConversationsRequestDto
  {
    var f := request.filters;
    InboxGetConversationsRequestDto(
      InboxFiltersDto(f.linkedInAccountIds, f.campaignIds, f.searchString, f.leadLinkedInId, f.leadProfileUrl, f.seen),
      request.offset, request.limit)
  }

  /** The filters travel as a nested object whose every filter reads back,
      the read flag under `seen`; offset and limit sit beside it. */
  lemma InboxGetConversationsBodyOnWire(request: InboxGetConversationsRequest)
    ensures var m := InboxGetConversationsRequestDtoJson(InboxGetConversationsBody(request)).fields;
      && m.Keys == {J.Filters, J.Offset, J.Limit}
      && m[J.Filters].JObj?
      && var fm := m[J.Filters].fields;
      && J.Required(fm, J.LinkedInAccountIds, U32List) == Some(request.filters.linkedInAccountIds)
      && J.Required(fm, J.CampaignIds, U64List) == Some(request.filters.campaignIds)
      && J.Optional(fm, J.SearchString, J.AsStr) == Some(request.filters.searchString)
      && J.Optional(fm, J.LeadLinkedInId, J.AsStr) == Some(request.filters.leadLinkedInId)
      && J.Optional(fm, J.LeadProfileUrl, J.AsStr) == Some(request.filters.leadProfileUrl)
      && J.Optional(fm, J.Seen, J.AsBool) == Some(request.filters.seen)
      && J.Required(m, J.Offset, J.AsU32) == Some(request.offset)
      && J.Required(m, J.Limit, J.AsU32) == Some(request.limit)
  {
    var d := InboxGetConversationsBody(request);
    InboxGetConversationsRequestDtoJsonFields(d);
    InboxFiltersDtoJsonLists(d.filters);
    InboxFiltersDtoJsonOptionals(d.filters);
  }

  function InboxGetConversationsResult(response: Result<PageDto<InboxConversationSummaryDto>, ApiError>)
    : (r: Result<Page<InboxConversationSummary>, ApiError>)
    ensures PageResult(response, r, ConvertInboxConversation)
  {
    var page :- response;
    Ok(ConvertPage(page, ConvertInboxConversation))
  }

  function InboxSendMessageBody(request: InboxSendMessageRequest): InboxSendMessageRequestDto
  {
    InboxSendMessageRequestDto(request.message, request.subject, request.conversationId, request.linkedInAccountId)
  }

  /** The conversation id is sent under `id`; the subject only when given. */
  lemma InboxSendMessageBodyOnWire(request: InboxSendMessageRequest)
    ensures var m := InboxSendMessageRequestDtoJson(InboxSendMessageBody(request)).fields;
      && (J.Subject in m <==> request.subject.Some?)
      && J.Required(m, J.Id, J.AsStr) == Some(request.conversationId)
      && J.Required(m, J.Message, J.AsStr) == Some(request.message)
      && J.Optional(m, J.Subject, J.AsStr) == Some(request.subject)
      && J.Required(m, J.LinkedInAccountId, J.AsU32) == Some(request.linkedInAccountId)
  {
    InboxSendMessageRequestDtoJsonFields(InboxSendMessageBody(request));
  }

  // -------- LinkedIn accounts --------

  function LiAccountGetAllBody(filter: LiAccountFilter): KeywordFilterDto
  {
    KeywordFilterDto(filter.offset, filter.limit, filter.keyword)
  }

  lemma LiAccountGetAllBodyOnWire(filter: LiAccountFilter)
    ensures var m := KeywordFilterDtoJson(LiAccountGetAllBody(filter)).fields;
      && (J.Keyword in m <==> filter.keyword.Some?)
      && J.Required(m, J.Offset, J.AsU32) == Some(filter.offset)
      && J.Required(m, J.Limit, J.AsU32) == Some(filter.limit)
      && J.Optional(m, J.Keyword, J.AsStr) == Some(filter.keyword)
  {
    KeywordFilterDtoJsonFields(LiAccountGetAllBody(filter));
  }

  function LiAccountGetAllResult(response: Result<PageDto<LiAccountSummaryDto>, ApiError>): (r: Result<Page<LiAccountSummary>, ApiError>)
    ensures PageResult(response, r, ConvertLiAccount)
  {
    var page :- response;
    Ok(ConvertPage(page, ConvertLiAccount))
  }

  // -------- webhooks --------

  function WebhooksCreateBody(request: CreateWebhookRequest): CreateWebhookRequestDto
  {
    CreateWebhookRequestDto(request.webhookName, request.webhookUrl, WebhookEventTypeToString(request.eventType),
                            request.campaignIds, request.isActive)
  }

  /** The event type is sent as its serialised token, which parses back to
      it; the other fields read back from the wire. */
  lemma WebhooksCreateBodyOnWire(request: CreateWebhookRequest)
    ensures MapWebhookEventType(WebhooksCreateBody(request).eventType) == request.eventType
    ensures var m := CreateWebhookRequestDtoJson(WebhooksCreateBody(request)).fields;
      && J.Required(m, J.WebhookName, J.AsStr) == Some(request.webhookName)
      && J.Required(m, J.WebhookUrl, J.AsStr) == Some(request.webhookUrl)
      && J.Required(m, J.EventType, J.AsStr) == Some(WebhookEventTypeToString(request.eventType))
      && J.Required(m, J.CampaignIds, U64List) == Some(request.campaignIds)
      && J.Required(m, J.IsActive, J.AsBool) == Some(request.isActive)
  {
    WebhookEventTypeRoundTrip(request.eventType);
    CreateWebhookRequestDtoJsonFields(WebhooksCreateBody(request));
  }

  /** The result mapping of `webhooks_create` and `webhooks_get_by_id`. */
  function WebhookResult(response: Result<WebhookDto, ApiError>): (r: Result<Webhook, ApiError>)
    ensures ItemResult(response, r, ConvertWebhook)
  {
    var dto :- response;
    Ok(ConvertWebhook(dto))
  }

  /** `serde_json::from_str` into a record, for records written as JSON
      objects: the text is parsed as JSON and the value read by the record's
      decoder; `why` stands for serde's message. The array form of a record,
      which serde also accepts, is rejected here. */
  function ParseRecord<T>(p: Http.Parsers, decode: J.Json -> Option<T>, why: string -> string): string -> Result<T, string>
  {
    text =>
      match p.json(text)
      case None => Err(why(text))
      case Some(v) =>
        match decode(v)
        case None => Err(why(text))
        case Some(record) => Ok(record)
  }

  /** From the bytes on the wire to the domain record, for `webhooks_create`
      and `webhooks_get_by_id`: when every stage succeeds, the status is below
      400 and the body, however it is split into chunks, is the JSON text of
      webhook `d`, the operation returns `d` converted. */
  lemma WebhookResponseEndToEnd(req: Http.Request, host: Http.Host, p: Http.Parsers, why: string -> string, text: string, d: WebhookDto)
    requires Http.Healthy(host) && (req.body.Some? ==> req.body.value.Ok?)
    requires host.status < 400
    requires Http.ReadAt(host.outcomes, Http.StopIndex(host.outcomes)) != Http.Failed
    requires p.utf8(Http.ErrorBodyBytes(host.outcomes)) == Some(text)
    requires p.json(text) == Some(WebhookDtoJson(d))
    ensures WebhookResult(Http.RequestOutcome(req, host, p, ParseRecord(p, DecodeWebhookDto, why))) == Ok(ConvertWebhook(d))
  {
    Http.ErrorPathIff(req, host, p, ParseRecord(p, DecodeWebhookDto, why));
    WebhookDtoRoundTrip(d);
  }

  function WebhooksGetAllBody(filter: GetWebhooksFilter): GetWebhooksFilterDto
  {
    GetWebhooksFilterDto(filter.offset, filter.limit)
  }

  lemma WebhooksGetAllBodyOnWire(filter: GetWebhooksFilter)
    ensures var m := GetWebhooksFilterDtoJson(WebhooksGetAllBody(filter)).fields;
      && m.Keys == {J.Offset, J.Limit}
      && J.Required(m, J.Offset, J.AsU32) == Some(filter.offset)
      && J.Required(m, J.Limit, J.AsU32) == Some(filter.limit)
  {
    GetWebhooksFilterDtoJsonFields(WebhooksGetAllBody(filter));
  }

  function WebhooksGetAllResult(response: Result<PageDto<WebhookDto>, ApiError>): (r: Result<Page<Webhook>, ApiError>)
    ensures PageResult(response, r, ConvertWebhook)
  {
    var page :- response;
    Ok(ConvertPage(page, ConvertWebhook))
  }
}
