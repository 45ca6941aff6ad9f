/** The caller-facing domain types of the client interface (the WIT records
    and enums that `client.rs` builds and returns), and the error type that
    every operation returns on failure. Domain values are only ever produced
    by conversion from a wire record or supplied by the caller. */
module Api {
  import opened Common

  // -------- errors --------

  datatype ApiErrorCode = Unauthorized | NotFound | TooManyRequests | BadRequest | Validation | Unknown

  datatype ApiError = ApiError(code: ApiErrorCode, message: string)

  // -------- enumerations --------

  datatype CampaignStatus = Draft | Active | Paused | Finished | Canceled | Unknown

  datatype ListType = Leads | Companies | Unknown

  datatype WebhookEventType = ConnectionRequestSent | ConnectionAccepted | MessageSent | MessageReplied | Unknown

  // -------- pages --------

  /** Every paged result (campaign, list, list-lead, lead-list, conversation,
      account and webhook pages) has this one shape. */
  datatype Page<T> = Page(totalCount: u32, items: seq<T>)

  // -------- campaigns --------

  datatype ProgressStats = ProgressStats(
    totalUsers: u32,
    totalUsersInProgress: i32,
    totalUsersPending: u32,
    totalUsersFinished: u32,
    totalUsersFailed: u32,
    totalUsersManuallyStopped: u32,
    totalUsersExcluded: u32)

  datatype CampaignSummary = CampaignSummary(
    id: u64,
    name: string,
    creationTime: string,
    linkedinUserListName: Option<string>,
    linkedinUserListId: Option<u64>,
    campaignAccountIds: seq<u32>,
    status: CampaignStatus,
    progressStats: Option<ProgressStats>,
    excludeAlreadyMessagedGlobal: Option<bool>,
    excludeAlreadyMessagedCampaignAccounts: Option<bool>,
    excludeFirstConnectionCampaignAccounts: Option<bool>,
    excludeFirstConnectionGlobal: Option<bool>,
    excludeNoProfilePicture: Option<bool>,
    excludeListId: Option<u64>,
    excludeInOtherCampaigns: bool,
    excludeHasOtherAccConversations: bool,
    excludeContactedFromSenderInOtherCampaign: bool,
    organizationUnitId: Option<u64>)

  datatype CampaignFilter = CampaignFilter(
    offset: u32,
    limit: u32,
    keyword: Option<string>,
    statuses: seq<CampaignStatus>,
    accountIds: seq<u32>)

  datatype CustomUserField = CustomUserField(name: string, value: string)

  datatype Lead = Lead(
    firstName: string,
    lastName: string,
    profileUrl: string,
    location: Option<string>,
    summary: Option<string>,
    companyName: Option<string>,
    position: Option<string>,
    about: Option<string>,
    emailAddress: Option<string>,
    customUserFields: seq<CustomUserField>)

  datatype AccountLeadPair = AccountLeadPair(linkedInAccountId: Option<u32>, lead: Lead)

  datatype CampaignAddLeadsRequest = CampaignAddLeadsRequest(campaignId: u64, accountLeadPairs: seq<AccountLeadPair>)

  datatype CampaignAddLeadsV2Result = CampaignAddLeadsV2Result(
    addedLeadsCount: u32,
    updatedLeadsCount: u32,
    failedLeadsCount: u32)

  // -------- lists --------

  datatype ListGetAllFilter = ListGetAllFilter(offset: u32, limit: u32, keyword: Option<string>)

  datatype ListSummary = ListSummary(
    id: u64,
    name: string,
    totalItemsCount: u32,
    listType: ListType,
    creationTime: string,
    campaignIds: seq<u64>)

  datatype ListLeadDeleteRequest = ListLeadDeleteRequest(listId: u64, leadMemberIds: seq<string>)

  datatype ListLeadDeleteByProfileUrlRequest = ListLeadDeleteByProfileUrlRequest(listId: u64, profileUrls: seq<string>)

  datatype ListLeadDeleteByProfileUrlResponse = ListLeadDeleteByProfileUrlResponse(notFoundInList: seq<string>)

  // -------- leads and tags --------

  datatype LeadListsRequest = LeadListsRequest(
    email: Option<string>,
    linkedinId: Option<string>,
    profileUrl: Option<string>,
    offset: u32,
    limit: u32)

  datatype LeadListSummary = LeadListSummary(listId: u64, listName: string)

  datatype LeadTagsResponse = LeadTagsResponse(tags: seq<string>)

  datatype LeadReplaceTagsRequest = LeadReplaceTagsRequest(
    leadProfileUrl: Option<string>,
    leadLinkedInId: Option<string>,
    tags: seq<string>,
    createTagIfNotExisting: bool)

  datatype LeadReplaceTagsResponse = LeadReplaceTagsResponse(newAssignedTags: seq<string>)

  // -------- inbox --------

  datatype InboxFilters = InboxFilters(
    linkedInAccountIds: seq<u32>,
    campaignIds: seq<u64>,
    searchString: Option<string>,
    leadLinkedInId: Option<string>,
    leadProfileUrl: Option<string>,
    seen: Option<bool>)

  datatype InboxGetConversationsRequest = InboxGetConversationsRequest(filters: InboxFilters, offset: u32, limit: u32)

  datatype InboxConversationSummary = InboxConversationSummary(
    conversationId: string,
    linkedInAccountId: u32,
    leadProfileUrl: Option<string>,
    lastMessageSnippet: Option<string>,
    seen: bool)

  datatype InboxSendMessageRequest = InboxSendMessageRequest(
    message: string,
    subject: Option<string>,
    conversationId: string,
    linkedInAccountId: u32)

  // -------- LinkedIn accounts --------

  datatype LiAccountFilter = LiAccountFilter(offset: u32, limit: u32, keyword: Option<string>)

  datatype LiAccountSummary = LiAccountSummary(
    id: u32,
    emailAddress: string,
    firstName: string,
    lastName: string,
    isActive: bool,
    activeCampaigns: u32,
    authIsValid: bool,
    isValidNavigator: bool,
    isValidRecruiter: bool)

  // -------- webhooks --------

  datatype CreateWebhookRequest = CreateWebhookRequest(
    webhookName: string,
    webhookUrl: string,
    eventType: WebhookEventType,
    campaignIds: seq<u64>,
    isActive: bool)

  datatype Webhook = Webhook(
    id: u64,
    webhookName: string,
    webhookUrl: string,
    eventType: WebhookEventType,
    campaignIds: seq<u64>,
    isActive: bool)

  datatype GetWebhooksFilter = GetWebhooksFilter(offset: u32, limit: u32)
}
