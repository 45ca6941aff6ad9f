/** The wire records of `models.rs`. For each struct deriving `Deserialize`
    there is a decoder from a JSON value that follows the struct's serde
    attributes (`rename_all = "camelCase"`, `rename`, `default`, `Option`
    fields); for each struct deriving `Serialize` there is an encoder
    (`...Json`) that writes the camelCase keys and leaves out the `None`
    fields marked `skip_serializing_if`. A record that is only ever decoded
    also has `...Wire`: the object the remote service sends for it (every key
    present, `None` written as `null`), against which the decoder is proved. */
module Models {
  import opened Common
  import opened Json

  // -------- list readers --------

  function StrList(j: Json): Option<seq<string>> { AsList(j, AsStr) }
  function U32List(j: Json): Option<seq<u32>> { AsList(j, AsU32) }
  function U64List(j: Json): Option<seq<u64>> { AsList(j, AsU64) }

  // -------- pagination --------

  /** Declared in the source but used by no page record. */
  datatype PageInfoDto = PageInfoDto(offset: u32, limit: u32, totalCount: u32)

  function DecodePageInfoDto(j: Json): Option<PageInfoDto>
  {
    if !j.JObj? then None
    else
      var m := j.fields;
      var offset :- Required(m, Offset, AsU32);
      var limit :- Required(m, Limit, AsU32);
      var totalCount :- Required(m, TotalCount, AsU32);
      Some(PageInfoDto(offset, limit, totalCount))
  }

  function PageInfoDtoJson(d: PageInfoDto): Json
  {
    JObj(map[Offset := U32Json(d.offset), Limit := U32Json(d.limit), TotalCount := U32Json(d.totalCount)])
  }

  lemma PageInfoDtoRoundTrip(d: PageInfoDto)
    ensures DecodePageInfoDto(PageInfoDtoJson(d)) == Some(d)
  {
  }

  /** Every `*PageDto` record (`CampaignPageDto`, `ListPageDto`,
      `ListLeadsPageDto`, `LeadListsResponseDto`, `InboxConversationPageDto`,
      `LiAccountPageDto`, `WebhookPageDto`): `totalCount` and `items` as
      top-level keys. */
  datatype PageDto<T> = PageDto(totalCount: u32, items: seq<T>)

  /** A page decodes exactly when both keys are present and readable; the
      items keep the number and order of the array's elements. */
  function DecodePageDto<T>(j: Json, item: Json -> Option<T>): (r: Option<PageDto<T>>)
    ensures r.Some? <==> j.JObj? && TotalCount in j.fields && Items in j.fields
                         && AsU32(j.fields[TotalCount]).Some? && AsList(j.fields[Items], item).Some?
    ensures r.Some? ==> AsU32(j.fields[TotalCount]) == Some(r.value.totalCount)
    ensures r.Some? ==> j.fields[Items].JArr? && |r.value.items| == |j.fields[Items].elems|
    ensures r.Some? ==> forall i :: 0 <= i < |r.value.items| ==> item(j.fields[Items].elems[i]) == Some(r.value.items[i])
  {
    if !j.JObj? then None
    else
      var m := j.fields;
      var totalCount :- Required(m, TotalCount, AsU32);
      var items :- Required(m, Items, (v: Json) => AsList(v, item));
      Some(PageDto(totalCount, items))
  }

  function PageDtoWire<T>(p: PageDto<T>, item: T -> Json): Json
  {
    JObj(map[TotalCount := U32Json(p.totalCount), Items := ListJson(p.items, item)])
  }

  lemma PageDtoRoundTrip<T>(p: PageDto<T>, item: T -> Json, read: Json -> Option<T>)
    requires forall x :: read(item(x)) == Some(x)
    ensures DecodePageDto(PageDtoWire(p, item), read) == Some(p)
  {
    ListRoundTrip(p.items, item, read);
  }

  /** The nested `{page: {offset, limit, totalCount}, items}` envelope does
      not decode as a page: there is no fallback to a nested `page` object. */
  lemma NestedEnvelopeRejected<T>(info: PageInfoDto, items: seq<Json>, item: Json -> Option<T>)
    ensures DecodePageDto(JObj(map[Other("page") := PageInfoDtoJson(info), Items := JArr(items)]), item) == None
  {
  }

  // -------- campaigns --------

  datatype CampaignFilterDto = CampaignFilterDto(
    offset: u32,
    limit: u32,
    keyword: Option<string>,
    statuses: seq<string>,
    accountIds: seq<u32>)

  function CampaignFilterDtoJson(d: CampaignFilterDto): Json
  {
    var m := map[
      Offset := U32Json(d.offset),
      Limit := U32Json(d.limit),
      Statuses := ListJson(d.statuses, StrJson),
      AccountIds := ListJson(d.accountIds, U32Json)];
    JObj(match d.keyword
      case None => m
      case Some(w) => m[Keyword := StrJson(w)])
  }

  /** `keyword` is left out when `None`; `statuses` and `accountIds` are
      written even when empty; every field reads back from its key. */
  lemma CampaignFilterDtoJsonFields(d: CampaignFilterDto)
    ensures var m := CampaignFilterDtoJson(d).fields;
      && m.Keys <= {Offset, Limit, Keyword, Statuses, AccountIds}
      && (Keyword in m <==> d.keyword.Some?)
      && Required(m, Offset, AsU32) == Some(d.offset)
      && Required(m, Limit, AsU32) == Some(d.limit)
      && Optional(m, Keyword, AsStr) == Some(d.keyword)
      && Required(m, Statuses, StrList) == Some(d.statuses)
      && Required(m, AccountIds, U32List) == Some(d.accountIds)
  {
    ListRoundTrip(d.statuses, StrJson, AsStr);
    ListRoundTrip(d.accountIds, U32Json, AsU32);
  }

  datatype ProgressStatsDto = ProgressStatsDto(
    totalUsers: u32,
    totalUsersInProgress: i32,
    totalUsersPending: u32,
    totalUsersFinished: u32,
    totalUsersFailed: u32,
    totalUsersManuallyStopped: u32,
    totalUsersExcluded: u32)

  function DecodeProgressStatsDto(j: Json): Option<ProgressStatsDto>
  {
    if !j.JObj? then None
    else
      var m := j.fields;
      var totalUsers :- Required(m, TotalUsers, AsU32);
      var inProgress :- Required(m, TotalUsersInProgress, AsI32);
      var pending :- Required(m, TotalUsersPending, AsU32);
      var finished :- Required(m, TotalUsersFinished, AsU32);
      var failed :- Required(m, TotalUsersFailed, AsU32);
      var stopped :- Defaulted(m, TotalUsersManuallyStopped, AsU32, 0);
      var excluded :- Defaulted(m, TotalUsersExcluded, AsU32, 0);
      Some(ProgressStatsDto(totalUsers, inProgress, pending, finished, failed, stopped, excluded))
  }

  function ProgressStatsDtoWire(d: ProgressStatsDto): Json
  {
    JObj(map[
      TotalUsers := U32Json(d.totalUsers),
      TotalUsersInProgress := I32Json(d.totalUsersInProgress),
      TotalUsersPending := U32Json(d.totalUsersPending),
      TotalUsersFinished := U32Json(d.totalUsersFinished),
      TotalUsersFailed := U32Json(d.totalUsersFailed),
      TotalUsersManuallyStopped := U32Json(d.totalUsersManuallyStopped),
      TotalUsersExcluded := U32Json(d.totalUsersExcluded)])
  }

  /** Every counter, including a negative in-progress count, reads back. */
  lemma ProgressStatsDtoRoundTrip(d: ProgressStatsDto)
    ensures DecodeProgressStatsDto(ProgressStatsDtoWire(d)) == Some(d)
  {
  }

  /** A record without `totalUsersManuallyStopped` and `totalUsersExcluded`
      decodes with both counters 0. */
  lemma ProgressStatsDtoDefaults(d: ProgressStatsDto)
    ensures DecodeProgressStatsDto(JObj(ProgressStatsDtoWire(d).fields - {TotalUsersManuallyStopped, TotalUsersExcluded}))
         == Some(d.(totalUsersManuallyStopped := 0, totalUsersExcluded := 0))
  {
  }

  const ProgressStatsRequired: set<Key> :=
    {TotalUsers, TotalUsersInProgress, TotalUsersPending, TotalUsersFinished, TotalUsersFailed}

  /** Each of the other five counters is required. */
  lemma ProgressStatsDtoRequired(m: map<Key, Json>, key: Key)
    requires key in ProgressStatsRequired && key !in m
    ensures DecodeProgressStatsDto(JObj(m)) == None
  {
  }

  /** Of the five required counters only the in-progress one may be negative. */
  lemma ProgressStatsDtoSigns(d: ProgressStatsDto, key: Key)
    requires key in ProgressStatsRequired
    ensures DecodeProgressStatsDto(JObj(ProgressStatsDtoWire(d).fields[key := JNum(-1)])).Some?
        <==> key == TotalUsersInProgress
  {
  }

  datatype CampaignSummaryDto = CampaignSummaryDto(
    id: u64,
    name: string,
    creationTime: string,
    linkedinUserListName: Option<string>,
    linkedinUserListId: Option<u64>,
    campaignAccountIds: seq<u32>,
    status: string,
    progressStats: Option<ProgressStatsDto>,
    excludeInOtherCampaigns: bool,
    excludeHasOtherAccConversations: bool,
    excludeContactedFromSenderInOtherCampaign: bool,
    excludeListId: Option<u64>,
    organizationUnitId: Option<u64>,
    excludeAlreadyMessagedGlobal: Option<bool>,
    excludeAlreadyMessagedCampaignAccounts: Option<bool>,
    excludeFirstConnectionCampaignAccounts: Option<bool>,
    excludeFirstConnectionGlobal: Option<bool>,
    excludeNoProfilePicture: Option<bool>)

  /** The list name and id are read from `linkedInUserListName` and
      `linkedInUserListId` (explicit renames), the three newer `exclude*` flags
      default to `false`, and every `Option` field reads an absent key as `None`. */
  function DecodeCampaignSummaryDto(j: Json): Option<CampaignSummaryDto>
  {
    if !j.JObj? then None
    else
      var m := j.fields;
      var id :- Required(m, Id, AsU64);
      var name :- Required(m, Name, AsStr);
      var creationTime :- Required(m, CreationTime, AsStr);
      var listName :- Optional(m, LinkedInUserListName, AsStr);
      var listId :- Optional(m, LinkedInUserListId, AsU64);
      var accountIds :- Required(m, CampaignAccountIds, U32List);
      var status :- Required(m, Status, AsStr);
      var progressStats :- Optional(m, ProgressStats, DecodeProgressStatsDto);
      var inOther :- Defaulted(m, ExcludeInOtherCampaigns, AsBool, false);
      var hasOther :- Defaulted(m, ExcludeHasOtherAccConversations, AsBool, false);
      var contacted :- Defaulted(m, ExcludeContactedFromSenderInOtherCampaign, AsBool, false);
      var excludeListId :- Optional(m, ExcludeListId, AsU64);
      var unitId :- Optional(m, OrganizationUnitId, AsU64);
      var messagedGlobal :- Optional(m, ExcludeAlreadyMessagedGlobal, AsBool);
      var messagedAccounts :- Optional(m, ExcludeAlreadyMessagedCampaignAccounts, AsBool);
      var firstAccounts :- Optional(m, ExcludeFirstConnectionCampaignAccounts, AsBool);
      var firstGlobal :- Optional(m, ExcludeFirstConnectionGlobal, AsBool);
      var noPicture :- Optional(m, ExcludeNoProfilePicture, AsBool);
      Some(CampaignSummaryDto(id, name, creationTime, listName, listId, accountIds, status, progressStats,
        inOther, hasOther, contacted, excludeListId, unitId,
        messagedGlobal, messagedAccounts, firstAccounts, firstGlobal, noPicture))
  }

  const CampaignSummaryDtoKeys: set<Key> :=
    {Id, Name, CreationTime, LinkedInUserListName, LinkedInUserListId, CampaignAccountIds, Status, ProgressStats,
     ExcludeInOtherCampaigns, ExcludeHasOtherAccConversations, ExcludeContactedFromSenderInOtherCampaign,
     ExcludeListId, OrganizationUnitId, ExcludeAlreadyMessagedGlobal, ExcludeAlreadyMessagedCampaignAccounts,
     ExcludeFirstConnectionCampaignAccounts, ExcludeFirstConnectionGlobal, ExcludeNoProfilePicture}

  /** The JSON form of the field of `d` read from the key `k`. */
  function CampaignSummaryDtoValue(d: CampaignSummaryDto, k: Key): Json
  {
    match k
    case Id => U64Json(d.id)
    case Name => StrJson(d.name)
    case CreationTime => StrJson(d.creationTime)
    case LinkedInUserListName => OptionJson(d.linkedinUserListName, StrJson)
    case LinkedInUserListId => OptionJson(d.linkedinUserListId, U64Json)
    case CampaignAccountIds => ListJson(d.campaignAccountIds, U32Json)
    case Status => StrJson(d.status)
    case ProgressStats => OptionJson(d.progressStats, ProgressStatsDtoWire)
    case ExcludeInOtherCampaigns => BoolJson(d.excludeInOtherCampaigns)
    case ExcludeHasOtherAccConversations => BoolJson(d.excludeHasOtherAccConversations)
    case ExcludeContactedFromSenderInOtherCampaign => BoolJson(d.excludeContactedFromSenderInOtherCampaign)
    case ExcludeListId => OptionJson(d.excludeListId, U64Json)
    case OrganizationUnitId => OptionJson(d.organizationUnitId, U64Json)
    case ExcludeAlreadyMessagedGlobal => OptionJson(d.excludeAlreadyMessagedGlobal, BoolJson)
    case ExcludeAlreadyMessagedCampaignAccounts => OptionJson(d.excludeAlreadyMessagedCampaignAccounts, BoolJson)
    case ExcludeFirstConnectionCampaignAccounts => OptionJson(d.excludeFirstConnectionCampaignAccounts, BoolJson)
    case ExcludeFirstConnectionGlobal => OptionJson(d.excludeFirstConnectionGlobal, BoolJson)
    case ExcludeNoProfilePicture => OptionJson(d.excludeNoProfilePicture, BoolJson)
    case _ => JNull
  }

  /** The keys `keys` of the object the remote service sends for `d`. */
  function CampaignSummaryDtoObject(d: CampaignSummaryDto, keys: set<Key>): map<Key, Json>
  {
    map k | k in keys && k in CampaignSummaryDtoKeys :: CampaignSummaryDtoValue(d, k)
  }

  /** The object the remote service sends for a campaign. */
  function CampaignSummaryDtoWire(d: CampaignSummaryDto): Json
  {
    JObj(CampaignSummaryDtoObject(d, CampaignSummaryDtoKeys))
  }

  /** Every declared key that `m` holds carries the JSON form of `d`'s field;
      `m` may lack declared keys and hold undeclared ones. */
  predicate CampaignSummaryDtoAgrees(m: map<Key, Json>, d: CampaignSummaryDto)
  {
    forall k :: k in CampaignSummaryDtoKeys && k in m ==> m[k] == CampaignSummaryDtoValue(d, k)
  }

  /** What each key of `m` must read as, under its serde rule, for `m` to
      decode as `d`. */
  predicate CampaignSummaryDtoFields(m: map<Key, Json>, d: CampaignSummaryDto)
  {
    && Required(m, Id, AsU64) == Some(d.id)
    && Required(m, Name, AsStr) == Some(d.name)
    && Required(m, CreationTime, AsStr) == Some(d.creationTime)
    && Optional(m, LinkedInUserListName, AsStr) == Some(d.linkedinUserListName)
    && Optional(m, LinkedInUserListId, AsU64) == Some(d.linkedinUserListId)
    && Required(m, CampaignAccountIds, U32List) == Some(d.campaignAccountIds)
    && Required(m, Status, AsStr) == Some(d.status)
    && Optional(m, ProgressStats, DecodeProgressStatsDto) == Some(d.progressStats)
    && Defaulted(m, ExcludeInOtherCampaigns, AsBool, false) == Some(d.excludeInOtherCampaigns)
    && Defaulted(m, ExcludeHasOtherAccConversations, AsBool, false) == Some(d.excludeHasOtherAccConversations)
    && Defaulted(m, ExcludeContactedFromSenderInOtherCampaign, AsBool, false)
       == Some(d.excludeContactedFromSenderInOtherCampaign)
    && Optional(m, ExcludeListId, AsU64) == Some(d.excludeListId)
    && Optional(m, OrganizationUnitId, AsU64) == Some(d.organizationUnitId)
    && Optional(m, ExcludeAlreadyMessagedGlobal, AsBool) == Some(d.excludeAlreadyMessagedGlobal)
    && Optional(m, ExcludeAlreadyMessagedCampaignAccounts, AsBool) == Some(d.excludeAlreadyMessagedCampaignAccounts)
    && Optional(m, ExcludeFirstConnectionCampaignAccounts, AsBool) == Some(d.excludeFirstConnectionCampaignAccounts)
    && Optional(m, ExcludeFirstConnectionGlobal, AsBool) == Some(d.excludeFirstConnectionGlobal)
    && Optional(m, ExcludeNoProfilePicture, AsBool) == Some(d.excludeNoProfilePicture)
  }

  /** A campaign object decodes as `d` exactly when every field reads as `d`'s. */
  lemma DecodeCampaignSummaryDtoSpec(m: map<Key, Json>, d: CampaignSummaryDto)
    ensures DecodeCampaignSummaryDto(JObj(m)) == Some(d) <==> CampaignSummaryDtoFields(m, d)
  {
  }

  lemma CampaignSummaryDtoReadsRequired(m: map<Key, Json>, d: CampaignSummaryDto)
    requires CampaignSummaryDtoAgrees(m, d)
    ensures Id in m ==> Required(m, Id, AsU64) == Some(d.id)
    ensures Name in m ==> Required(m, Name, AsStr) == Some(d.name)
    ensures CreationTime in m ==> Required(m, CreationTime, AsStr) == Some(d.creationTime)
    ensures Status in m ==> Required(m, Status, AsStr) == Some(d.status)
  {
  }

  lemma CampaignSummaryDtoReadsList(m: map<Key, Json>, d: CampaignSummaryDto)
    requires CampaignSummaryDtoAgrees(m, d)
    ensures Optional(m, LinkedInUserListName, AsStr) == Some(if LinkedInUserListName in m then d.linkedinUserListName else None)
    ensures Optional(m, LinkedInUserListId, AsU64) == Some(if LinkedInUserListId in m then d.linkedinUserListId else None)
    ensures CampaignAccountIds in m ==> Required(m, CampaignAccountIds, U32List) == Some(d.campaignAccountIds)
  {
    ListRoundTrip(d.campaignAccountIds, U32Json, AsU32);
  }

  lemma CampaignSummaryDtoReadsStats(m: map<Key, Json>, d: CampaignSummaryDto)
    requires CampaignSummaryDtoAgrees(m, d)
    ensures Optional(m, ProgressStats, DecodeProgressStatsDto) == Some(if ProgressStats in m then d.progressStats else None)
    ensures Optional(m, ExcludeNoProfilePicture, AsBool)
         == Some(if ExcludeNoProfilePicture in m then d.excludeNoProfilePicture else None)
  {
    if d.progressStats.Some? {
      ProgressStatsDtoRoundTrip(d.progressStats.value);
    }
  }

  lemma CampaignSummaryDtoReadsFlags(m: map<Key, Json>, d: CampaignSummaryDto)
    requires CampaignSummaryDtoAgrees(m, d)
    ensures Defaulted(m, ExcludeInOtherCampaigns, AsBool, false)
         == Some(ExcludeInOtherCampaigns in m && d.excludeInOtherCampaigns)
    ensures Defaulted(m, ExcludeHasOtherAccConversations, AsBool, false)
         == Some(ExcludeHasOtherAccConversations in m && d.excludeHasOtherAccConversations)
    ensures Defaulted(m, ExcludeContactedFromSenderInOtherCampaign, AsBool, false)
         == Some(ExcludeContactedFromSenderInOtherCampaign in m && d.excludeContactedFromSenderInOtherCampaign)
  {
  }

  lemma CampaignSummaryDtoReadsIds(m: map<Key, Json>, d: CampaignSummaryDto)
    requires CampaignSummaryDtoAgrees(m, d)
    ensures Optional(m, ExcludeListId, AsU64) == Some(if ExcludeListId in m then d.excludeListId else None)
    ensures Optional(m, OrganizationUnitId, AsU64) == Some(if OrganizationUnitId in m then d.organizationUnitId else None)
  {
  }

  lemma CampaignSummaryDtoReadsMessaged(m: map<Key, Json>, d: CampaignSummaryDto)
    requires CampaignSummaryDtoAgrees(m, d)
    ensures Optional(m, ExcludeAlreadyMessagedGlobal, AsBool)
         == Some(if ExcludeAlreadyMessagedGlobal in m then d.excludeAlreadyMessagedGlobal else None)
    ensures Optional(m, ExcludeAlreadyMessagedCampaignAccounts, AsBool)
         == Some(if ExcludeAlreadyMessagedCampaignAccounts in m then d.excludeAlreadyMessagedCampaignAccounts else None)
  {
  }

  lemma CampaignSummaryDtoReadsFirstConnection(m: map<Key, Json>, d: CampaignSummaryDto)
    requires CampaignSummaryDtoAgrees(m, d)
    ensures Optional(m, ExcludeFirstConnectionCampaignAccounts, AsBool)
         == Some(if ExcludeFirstConnectionCampaignAccounts in m then d.excludeFirstConnectionCampaignAccounts else None)
    ensures Optional(m, ExcludeFirstConnectionGlobal, AsBool)
         == Some(if ExcludeFirstConnectionGlobal in m then d.excludeFirstConnectionGlobal else None)
  {
  }

  const CampaignSummaryDtoRequired: set<Key> := {Id, Name, CreationTime, CampaignAccountIds, Status}

  /** `d` as read from an object that holds only the keys in `keys`: each
      field with a default or of `Option` type whose key is missing takes
      its default (`false`, `None`). */
  function CampaignSummaryDtoPresent(d: CampaignSummaryDto, keys: set<Key>): CampaignSummaryDto
  {
    d.(linkedinUserListName := if LinkedInUserListName in keys then d.linkedinUserListName else None,
       linkedinUserListId := if LinkedInUserListId in keys then d.linkedinUserListId else None,
       progressStats := if ProgressStats in keys then d.progressStats else None,
       excludeInOtherCampaigns := ExcludeInOtherCampaigns in keys && d.excludeInOtherCampaigns,
       excludeHasOtherAccConversations := ExcludeHasOtherAccConversations in keys && d.excludeHasOtherAccConversations,
       excludeContactedFromSenderInOtherCampaign :=
         ExcludeContactedFromSenderInOtherCampaign in keys && d.excludeContactedFromSenderInOtherCampaign,
       excludeListId := if ExcludeListId in keys then d.excludeListId else None,
       organizationUnitId := if OrganizationUnitId in keys then d.organizationUnitId else None,
       excludeAlreadyMessagedGlobal := if ExcludeAlreadyMessagedGlobal in keys then d.excludeAlreadyMessagedGlobal else None,
       excludeAlreadyMessagedCampaignAccounts :=
         if ExcludeAlreadyMessagedCampaignAccounts in keys then d.excludeAlreadyMessagedCampaignAccounts else None,
       excludeFirstConnectionCampaignAccounts :=
         if ExcludeFirstConnectionCampaignAccounts in keys then d.excludeFirstConnectionCampaignAccounts else None,
       excludeFirstConnectionGlobal := if ExcludeFirstConnectionGlobal in keys then d.excludeFirstConnectionGlobal else None,
       excludeNoProfilePicture := if ExcludeNoProfilePicture in keys then d.excludeNoProfilePicture else None)
  }

  /** Any object holding the five required keys, with every declared key it
      holds written as in `d`, decodes as `d` with the missing optional and
      defaulted fields reset; keys the record does not declare are ignored. */
  lemma CampaignSummaryDtoReads(m: map<Key, Json>, d: CampaignSummaryDto)
    requires CampaignSummaryDtoAgrees(m, d)
    requires CampaignSummaryDtoRequired <= m.Keys
    ensures DecodeCampaignSummaryDto(JObj(m)) == Some(CampaignSummaryDtoPresent(d, m.Keys))
  {
    CampaignSummaryDtoReadsRequired(m, d);
    CampaignSummaryDtoReadsList(m, d);
    CampaignSummaryDtoReadsStats(m, d);
    CampaignSummaryDtoReadsFlags(m, d);
    CampaignSummaryDtoReadsIds(m, d);
    CampaignSummaryDtoReadsMessaged(m, d);
    CampaignSummaryDtoReadsFirstConnection(m, d);
    DecodeCampaignSummaryDtoSpec(m, CampaignSummaryDtoPresent(d, m.Keys));
  }

  lemma CampaignSummaryDtoRoundTrip(d: CampaignSummaryDto)
    ensures DecodeCampaignSummaryDto(CampaignSummaryDtoWire(d)) == Some(d)
  {
    CampaignSummaryDtoObjectAgrees(d, CampaignSummaryDtoKeys);
    CampaignSummaryDtoReads(CampaignSummaryDtoWire(d).fields, d);
  }

  const CampaignSummaryDtoFlags: set<Key> :=
    {ExcludeInOtherCampaigns, ExcludeHasOtherAccConversations, ExcludeContactedFromSenderInOtherCampaign}

  /** Without the three newer `exclude*` flags, a campaign record decodes
      with each of them `false`. */
  lemma CampaignSummaryDtoDefaults(d: CampaignSummaryDto)
    ensures DecodeCampaignSummaryDto(JObj(CampaignSummaryDtoObject(d, CampaignSummaryDtoKeys - CampaignSummaryDtoFlags)))
         == Some(d.(excludeInOtherCampaigns := false, excludeHasOtherAccConversations := false,
                    excludeContactedFromSenderInOtherCampaign := false))
  {
    var keys := CampaignSummaryDtoKeys - CampaignSummaryDtoFlags;
    CampaignSummaryDtoObjectAgrees(d, keys);
    CampaignSummaryDtoReads(CampaignSummaryDtoObject(d, keys), d);
    CampaignSummaryDtoPresentWithoutFlags(d);
  }

  /** The object holding the declared keys among `keys` agrees with `d`. */
  lemma CampaignSummaryDtoObjectAgrees(d: CampaignSummaryDto, keys: set<Key>)
    requires CampaignSummaryDtoRequired <= keys
    ensures CampaignSummaryDtoAgrees(CampaignSummaryDtoObject(d, keys), d)
    ensures CampaignSummaryDtoRequired <= CampaignSummaryDtoObject(d, keys).Keys
  {
  }

  lemma CampaignSummaryDtoPresentWithoutFlags(d: CampaignSummaryDto)
    ensures CampaignSummaryDtoPresent(d, CampaignSummaryDtoObject(d, CampaignSummaryDtoKeys - CampaignSummaryDtoFlags).Keys)
         == d.(excludeInOtherCampaigns := false, excludeHasOtherAccConversations := false,
               excludeContactedFromSenderInOtherCampaign := false)
  {
  }

  const CampaignSummaryDtoOptional: set<Key> :=
    {LinkedInUserListName, LinkedInUserListId, ProgressStats, ExcludeListId, OrganizationUnitId,
     ExcludeAlreadyMessagedGlobal, ExcludeAlreadyMessagedCampaignAccounts,
     ExcludeFirstConnectionCampaignAccounts, ExcludeFirstConnectionGlobal, ExcludeNoProfilePicture}

  /** Without any of the `Option` fields, a campaign record decodes with each
      of them `None`. */
  lemma CampaignSummaryDtoOptionalsAbsent(d: CampaignSummaryDto)
    ensures DecodeCampaignSummaryDto(JObj(CampaignSummaryDtoObject(d, CampaignSummaryDtoKeys - CampaignSummaryDtoOptional)))
         == Some(d.(linkedinUserListName := None, linkedinUserListId := None, progressStats := None,
                    excludeListId := None, organizationUnitId := None,
                    excludeAlreadyMessagedGlobal := None, excludeAlreadyMessagedCampaignAccounts := None,
                    excludeFirstConnectionCampaignAccounts := None, excludeFirstConnectionGlobal := None,
                    excludeNoProfilePicture := None))
  {
    var keys := CampaignSummaryDtoKeys - CampaignSummaryDtoOptional;
    CampaignSummaryDtoObjectAgrees(d, keys);
    CampaignSummaryDtoReads(CampaignSummaryDtoObject(d, keys), d);
    CampaignSummaryDtoPresentWithoutOptionals(d);
  }

  lemma CampaignSummaryDtoPresentWithoutOptionals(d: CampaignSummaryDto)
    ensures CampaignSummaryDtoPresent(d, CampaignSummaryDtoObject(d, CampaignSummaryDtoKeys - CampaignSummaryDtoOptional).Keys)
         == d.(linkedinUserListName := None, linkedinUserListId := None, progressStats := None,
               excludeListId := None, organizationUnitId := None,
               excludeAlreadyMessagedGlobal := None, excludeAlreadyMessagedCampaignAccounts := None,
               excludeFirstConnectionCampaignAccounts := None, excludeFirstConnectionGlobal := None,
               excludeNoProfilePicture := None)
  {
  }

  /** The list name and id keys are spelt with a capital `I` in `In`; the
      plain camelCase spelling is not a key of the campaign record. */
  lemma CampaignSummaryDtoListSpellings()
    ensures Spelling(LinkedInUserListName) == "linkedInUserListName"
    ensures Spelling(LinkedInUserListId) == "linkedInUserListId"
    ensures Other("linkedinUserListName") !in CampaignSummaryDtoKeys
  {
  }

  /** The list name and id are read only under the spellings
      `linkedInUserListName` and `linkedInUserListId`. An object without
      those two keys decodes with both `None`, whatever it holds under other
      spellings (such as the plain camelCase `linkedinUserListName`, which
      is an undeclared key). */
  lemma CampaignSummaryDtoListKeys(m: map<Key, Json>, d: CampaignSummaryDto)
    requires CampaignSummaryDtoAgrees(m, d)
    requires CampaignSummaryDtoRequired <= m.Keys
    requires LinkedInUserListName !in m && LinkedInUserListId !in m
    ensures var r := DecodeCampaignSummaryDto(JObj(m));
      r.Some? && r.value.linkedinUserListName == None && r.value.linkedinUserListId == None
  {
    CampaignSummaryDtoReads(m, d);
  }

  datatype CustomUserFieldDto = CustomUserFieldDto(name: string, value: string)

  function DecodeCustomUserFieldDto(j: Json): Option<CustomUserFieldDto>
  {
    if !j.JObj? then None
    else
      var name :- Required(j.fields, Name, AsStr);
      var value :- Required(j.fields, Value, AsStr);
      Some(CustomUserFieldDto(name, value))
  }

  function CustomUserFieldDtoJson(d: CustomUserFieldDto): Json
  {
    JObj(map[Name := StrJson(d.name), Value := StrJson(d.value)])
  }

  lemma CustomUserFieldDtoRoundTrip(d: CustomUserFieldDto)
    ensures DecodeCustomUserFieldDto(CustomUserFieldDtoJson(d)) == Some(d)
  {
  }

  function CustomUserFieldList(j: Json): Option<seq<CustomUserFieldDto>>
  {
    AsList(j, DecodeCustomUserFieldDto)
  }

  lemma CustomUserFieldListRoundTrip(fields: seq<CustomUserFieldDto>)
    ensures CustomUserFieldList(ListJson(fields, CustomUserFieldDtoJson)) == Some(fields)
  {
    forall f: CustomUserFieldDto
      ensures DecodeCustomUserFieldDto(CustomUserFieldDtoJson(f)) == Some(f)
    {
      CustomUserFieldDtoRoundTrip(f);
    }
    ListRoundTrip(fields, CustomUserFieldDtoJson, DecodeCustomUserFieldDto);
  }

  datatype LeadDto = LeadDto(
    firstName: string,
    lastName: string,
    profileUrl: string,
    location: Option<string>,
    summary: Option<string>,
    companyName: Option<string>,
    position: Option<string>,
    about: Option<string>,
    emailAddress: Option<string>,
    customUserFields: seq<CustomUserFieldDto>)

  /** An absent `customUserFields` reads as the empty list. */
  function DecodeLeadDto(j: Json): Option<LeadDto>
  {
    if !j.JObj? then None
    else
      var m := j.fields;
      var firstName :- Required(m, FirstName, AsStr);
      var lastName :- Required(m, LastName, AsStr);
      var profileUrl :- Required(m, ProfileUrl, AsStr);
      var location :- Optional(m, Location, AsStr);
      var summary :- Optional(m, Summary, AsStr);
      var companyName :- Optional(m, CompanyName, AsStr);
      var position :- Optional(m, Position, AsStr);
      var about :- Optional(m, About, AsStr);
      var emailAddress :- Optional(m, EmailAddress, AsStr);
      var customUserFields :- Defaulted(m, CustomUserFields, CustomUserFieldList, []);
      Some(LeadDto(firstName, lastName, profileUrl, location, summary, companyName, position, about,
        emailAddress, customUserFields))
  }

  const LeadDtoKeys: set<Key> :=
    {FirstName, LastName, ProfileUrl, Location, Summary, CompanyName, Position, About, EmailAddress, CustomUserFields}

  const LeadDtoRequired: set<Key> := {FirstName, LastName, ProfileUrl}

  function LeadDtoValue(d: LeadDto, k: Key): Json
  {
    match k
    case FirstName => StrJson(d.firstName)
    case LastName => StrJson(d.lastName)
    case ProfileUrl => StrJson(d.profileUrl)
    case Location => OptionJson(d.location, StrJson)
    case Summary => OptionJson(d.summary, StrJson)
    case CompanyName => OptionJson(d.companyName, StrJson)
    case Position => OptionJson(d.position, StrJson)
    case About => OptionJson(d.about, StrJson)
    case EmailAddress => OptionJson(d.emailAddress, StrJson)
    case CustomUserFields => ListJson(d.customUserFields, CustomUserFieldDtoJson)
    case _ => JNull
  }

  /** The object the client writes for `d`: each `Option` field is skipped
      when `None` (`skip_serializing_if = "Option::is_none"`). */
  function LeadDtoJson(d: LeadDto): Json
  {
    var m0 := map[
      FirstName := StrJson(d.firstName),
      LastName := StrJson(d.lastName),
      ProfileUrl := StrJson(d.profileUrl),
      CustomUserFields := ListJson(d.customUserFields, CustomUserFieldDtoJson)];
    var m1 := match d.location case None => m0 case Some(x) => m0[Location := StrJson(x)];
    var m2 := match d.summary case None => m1 case Some(x) => m1[Summary := StrJson(x)];
    var m3 := match d.companyName case None => m2 case Some(x) => m2[CompanyName := StrJson(x)];
    var m4 := match d.position case None => m3 case Some(x) => m3[Position := StrJson(x)];
    var m5 := match d.about case None => m4 case Some(x) => m4[About := StrJson(x)];
    JObj(match d.emailAddress case None => m5 case Some(x) => m5[EmailAddress := StrJson(x)])
  }

  /** Each `Option` field is written exactly when it is `Some`; the names,
      the profile URL and the custom fields are always written. */
  lemma LeadDtoJsonKeys(d: LeadDto)
    ensures var m := LeadDtoJson(d).fields;
      && FirstName in m && LastName in m && ProfileUrl in m && CustomUserFields in m
      && (Location in m <==> d.location.Some?)
      && (Summary in m <==> d.summary.Some?)
      && (CompanyName in m <==> d.companyName.Some?)
  {
  }

  lemma LeadDtoJsonContactKeys(d: LeadDto)
    ensures var m := LeadDtoJson(d).fields;
      && (Position in m <==> d.position.Some?)
      && (About in m <==> d.about.Some?)
      && (EmailAddress in m <==> d.emailAddress.Some?)
  {
  }

  /** Only declared keys are written. */
  lemma LeadDtoJsonDeclared(d: LeadDto)
    ensures LeadDtoJson(d).fields.Keys <= LeadDtoKeys
  {
  }

  predicate LeadDtoAgrees(m: map<Key, Json>, d: LeadDto)
  {
    forall k :: k in LeadDtoKeys && k in m ==> m[k] == LeadDtoValue(d, k)
  }

  predicate LeadDtoFields(m: map<Key, Json>, d: LeadDto)
  {
    && Required(m, FirstName, AsStr) == Some(d.firstName)
    && Required(m, LastName, AsStr) == Some(d.lastName)
    && Required(m, ProfileUrl, AsStr) == Some(d.profileUrl)
    && Optional(m, Location, AsStr) == Some(d.location)
    && Optional(m, Summary, AsStr) == Some(d.summary)
    && Optional(m, CompanyName, AsStr) == Some(d.companyName)
    && Optional(m, Position, AsStr) == Some(d.position)
    && Optional(m, About, AsStr) == Some(d.about)
    && Optional(m, EmailAddress, AsStr) == Some(d.emailAddress)
    && Defaulted(m, CustomUserFields, CustomUserFieldList, []) == Some(d.customUserFields)
  }

  /** A lead object decodes as `d` exactly when every field reads as `d`'s. */
  lemma DecodeLeadDtoSpec(m: map<Key, Json>, d: LeadDto)
    ensures DecodeLeadDto(JObj(m)) == Some(d) <==> LeadDtoFields(m, d)
  {
  }

  lemma LeadDtoReadsNames(m: map<Key, Json>, d: LeadDto)
    requires LeadDtoAgrees(m, d)
    ensures FirstName in m ==> Required(m, FirstName, AsStr) == Some(d.firstName)
    ensures LastName in m ==> Required(m, LastName, AsStr) == Some(d.lastName)
    ensures ProfileUrl in m ==> Required(m, ProfileUrl, AsStr) == Some(d.profileUrl)
  {
  }

  lemma LeadDtoReadsPlace(m: map<Key, Json>, d: LeadDto)
    requires LeadDtoAgrees(m, d)
    ensures Optional(m, Location, AsStr) == Some(if Location in m then d.location else None)
    ensures Optional(m, Summary, AsStr) == Some(if Summary in m then d.summary else None)
    ensures Optional(m, CompanyName, AsStr) == Some(if CompanyName in m then d.companyName else None)
  {
  }

  lemma LeadDtoReadsContact(m: map<Key, Json>, d: LeadDto)
    requires LeadDtoAgrees(m, d)
    ensures Optional(m, Position, AsStr) == Some(if Position in m then d.position else None)
    ensures Optional(m, About, AsStr) == Some(if About in m then d.about else None)
    ensures Optional(m, EmailAddress, AsStr) == Some(if EmailAddress in m then d.emailAddress else None)
  {
  }

  lemma LeadDtoReadsCustomFields(m: map<Key, Json>, d: LeadDto)
    requires LeadDtoAgrees(m, d)
    ensures Defaulted(m, CustomUserFields, CustomUserFieldList, [])
         == Some(if CustomUserFields in m then d.customUserFields else [])
  {
    CustomUserFieldListRoundTrip(d.customUserFields);
  }

  /** `d` as read from an object that holds only the keys in `keys`. */
  function LeadDtoPresent(d: LeadDto, keys: set<Key>): LeadDto
  {
    d.(location := if Location in keys then d.location else None,
       summary := if Summary in keys then d.summary else None,
       companyName := if CompanyName in keys then d.companyName else None,
       position := if Position in keys then d.position else None,
       about := if About in keys then d.about else None,
       emailAddress := if EmailAddress in keys then d.emailAddress else None,
       customUserFields := if CustomUserFields in keys then d.customUserFields else [])
  }

  /** Any object holding the two names and the profile URL, with every
      declared key it holds written as in `d`, decodes as `d` with the
      missing `Option` fields `None` and missing custom fields empty. */
  lemma LeadDtoReads(m: map<Key, Json>, d: LeadDto)
    requires LeadDtoAgrees(m, d)
    requires LeadDtoRequired <= m.Keys
    ensures DecodeLeadDto(JObj(m)) == Some(LeadDtoPresent(d, m.Keys))
  {
    LeadDtoReadsNames(m, d);
    LeadDtoReadsPlace(m, d);
    LeadDtoReadsContact(m, d);
    LeadDtoReadsCustomFields(m, d);
    DecodeLeadDtoSpec(m, LeadDtoPresent(d, m.Keys));
  }

  /** Every field of a lead written by the client reads back from its key. */
  lemma LeadDtoJsonFields(d: LeadDto)
    ensures LeadDtoFields(LeadDtoJson(d).fields, d)
  {
    LeadDtoJsonNames(d);
    LeadDtoJsonPlace(d);
    LeadDtoJsonContact(d);
  }

  lemma LeadDtoJsonNames(d: LeadDto)
    ensures var m := LeadDtoJson(d).fields;
      && Required(m, FirstName, AsStr) == Some(d.firstName)
      && Required(m, LastName, AsStr) == Some(d.lastName)
      && Required(m, ProfileUrl, AsStr) == Some(d.profileUrl)
      && Defaulted(m, CustomUserFields, CustomUserFieldList, []) == Some(d.customUserFields)
  {
    CustomUserFieldListRoundTrip(d.customUserFields);
  }

  lemma LeadDtoJsonPlace(d: LeadDto)
    ensures var m := LeadDtoJson(d).fields;
      && Optional(m, Location, AsStr) == Some(d.location)
      && Optional(m, Summary, AsStr) == Some(d.summary)
      && Optional(m, CompanyName, AsStr) == Some(d.companyName)
  {
  }

  lemma LeadDtoJsonContact(d: LeadDto)
    ensures var m := LeadDtoJson(d).fields;
      && Optional(m, Position, AsStr) == Some(d.position)
      && Optional(m, About, AsStr) == Some(d.about)
      && Optional(m, EmailAddress, AsStr) == Some(d.emailAddress)
  {
  }

  /** A lead written by the client reads back as the same lead. */
  lemma LeadDtoRoundTrip(d: LeadDto)
    ensures DecodeLeadDto(LeadDtoJson(d)) == Some(d)
  {
    LeadDtoJsonFields(d);
    DecodeLeadDtoSpec(LeadDtoJson(d).fields, d);
  }

  /** Dropping `customUserFields` from a lead object that decodes leaves
      it decodable, with no custom fields and every other field as before. */
  lemma LeadDtoCustomFieldsDefault(m: map<Key, Json>, d: LeadDto)
    requires DecodeLeadDto(JObj(m)) == Some(d)
    ensures DecodeLeadDto(JObj(m - {CustomUserFields})) == Some(d.(customUserFields := []))
  {
    DecodeLeadDtoSpec(m, d);
    DecodeLeadDtoSpec(m - {CustomUserFields}, d.(customUserFields := []));
  }

  datatype AccountLeadPairDto = AccountLeadPairDto(linkedInAccountId: Option<u32>, lead: LeadDto)

  function AccountLeadPairDtoJson(d: AccountLeadPairDto): Json
  {
    var lead := map[Lead := LeadDtoJson(d.lead)];
    JObj(match d.linkedInAccountId
      case None => lead
      case Some(id) => lead[LinkedInAccountId := U32Json(id)])
  }

  /** The account id is left out when `None`; the lead is written as its own
      object and reads back. */
  lemma AccountLeadPairDtoJsonFields(d: AccountLeadPairDto)
    ensures var m := AccountLeadPairDtoJson(d).fields;
      && m.Keys <= {LinkedInAccountId, Lead}
      && (LinkedInAccountId in m <==> d.linkedInAccountId.Some?)
      && Optional(m, LinkedInAccountId, AsU32) == Some(d.linkedInAccountId)
      && Required(m, Lead, DecodeLeadDto) == Some(d.lead)
  {
    LeadDtoRoundTrip(d.lead);
  }

  datatype CampaignAddLeadsRequestDto = CampaignAddLeadsRequestDto(campaignId: u64, accountLeadPairs: seq<AccountLeadPairDto>)

  function CampaignAddLeadsRequestDtoJson(d: CampaignAddLeadsRequestDto): Json
  {
    JObj(map[CampaignId := U64Json(d.campaignId), AccountLeadPairs := ListJson(d.accountLeadPairs, AccountLeadPairDtoJson)])
  }

  /** The campaign id reads back, and the pairs are written as an array of
      pair objects, one per pair, in order. */
  lemma CampaignAddLeadsRequestDtoJsonFields(d: CampaignAddLeadsRequestDto)
    ensures var m := CampaignAddLeadsRequestDtoJson(d).fields;
      && m.Keys == {CampaignId, AccountLeadPairs}
      && Required(m, CampaignId, AsU64) == Some(d.campaignId)
      && m[AccountLeadPairs].JArr?
      && |m[AccountLeadPairs].elems| == |d.accountLeadPairs|
      && forall i :: 0 <= i < |d.accountLeadPairs| ==>
           m[AccountLeadPairs].elems[i] == AccountLeadPairDtoJson(d.accountLeadPairs[i])
  {
  }

  datatype CampaignAddLeadsV2ResultDto = CampaignAddLeadsV2ResultDto(
    addedLeadsCount: u32,
    updatedLeadsCount: u32,
    failedLeadsCount: u32)

  function DecodeCampaignAddLeadsV2ResultDto(j: Json): Option<CampaignAddLeadsV2ResultDto>
  {
    if !j.JObj? then None
    else
      var added :- Required(j.fields, AddedLeadsCount, AsU32);
      var updated :- Required(j.fields, UpdatedLeadsCount, AsU32);
      var failed :- Required(j.fields, FailedLeadsCount, AsU32);
      Some(CampaignAddLeadsV2ResultDto(added, updated, failed))
  }

  function CampaignAddLeadsV2ResultDtoWire(d: CampaignAddLeadsV2ResultDto): Json
  {
    JObj(map[AddedLeadsCount := U32Json(d.addedLeadsCount), UpdatedLeadsCount := U32Json(d.updatedLeadsCount),
             FailedLeadsCount := U32Json(d.failedLeadsCount)])
  }

  lemma CampaignAddLeadsV2ResultDtoRoundTrip(d: CampaignAddLeadsV2ResultDto)
    ensures DecodeCampaignAddLeadsV2ResultDto(CampaignAddLeadsV2ResultDtoWire(d)) == Some(d)
  {
  }

  // -------- lists --------

  /** The filter of `lists_get_all` and of `li_account_get_all`: the records
      `ListGetAllFilterDto` and `LiAccountFilterDto` are declared alike. */
  datatype KeywordFilterDto = KeywordFilterDto(offset: u32, limit: u32, keyword: Option<string>)

  function KeywordFilterDtoJson(d: KeywordFilterDto): Json
  {
    var m := map[Offset := U32Json(d.offset), Limit := U32Json(d.limit)];
    JObj(match d.keyword
      case None => m
      case Some(w) => m[Keyword := StrJson(w)])
  }

  /** `keyword` is left out when `None`; every field reads back. */
  lemma KeywordFilterDtoJsonFields(d: KeywordFilterDto)
    ensures var m := KeywordFilterDtoJson(d).fields;
      && m.Keys <= {Offset, Limit, Keyword}
      && (Keyword in m <==> d.keyword.Some?)
      && Required(m, Offset, AsU32) == Some(d.offset)
      && Required(m, Limit, AsU32) == Some(d.limit)
      && Optional(m, Keyword, AsStr) == Some(d.keyword)
  {
  }

  datatype ListSummaryDto = ListSummaryDto(
    id: u64,
    name: string,
    totalItemsCount: u32,
    listType: string,
    creationTime: string,
    campaignIds: seq<u64>)

  function DecodeListSummaryDto(j: Json): Option<ListSummaryDto>
  {
    if !j.JObj? then None
    else
      var m := j.fields;
      var id :- Required(m, Id, AsU64);
      var name :- Required(m, Name, AsStr);
      var count :- Required(m, TotalItemsCount, AsU32);
      var listType :- Required(m, ListType, AsStr);
      var creationTime :- Required(m, CreationTime, AsStr);
      var campaignIds :- Required(m, CampaignIds, U64List);
      Some(ListSummaryDto(id, name, count, listType, creationTime, campaignIds))
  }

  function ListSummaryDtoWire(d: ListSummaryDto): Json
  {
    JObj(map[
      Id := U64Json(d.id),
      Name := StrJson(d.name),
      TotalItemsCount := U32Json(d.totalItemsCount),
      ListType := StrJson(d.listType),
      CreationTime := StrJson(d.creationTime),
      CampaignIds := ListJson(d.campaignIds, U64Json)])
  }

  lemma ListSummaryDtoRoundTrip(d: ListSummaryDto)
    ensures DecodeListSummaryDto(ListSummaryDtoWire(d)) == Some(d)
  {
    ListRoundTrip(d.campaignIds, U64Json, AsU64);
  }

  /** All six list fields are required. */
  lemma ListSummaryDtoRequired(d: ListSummaryDto, key: Key)
    requires key in {Id, Name, TotalItemsCount, ListType, CreationTime, CampaignIds}
    ensures DecodeListSummaryDto(JObj(ListSummaryDtoWire(d).fields - {key})) == None
  {
  }

  datatype ListGetLeadsRequestDto = ListGetLeadsRequestDto(listId: u64, offset: u32, limit: u32, keyword: Option<string>)

  function ListGetLeadsRequestDtoJson(d: ListGetLeadsRequestDto): Json
  {
    var m := map[ListId := U64Json(d.listId), Offset := U32Json(d.offset), Limit := U32Json(d.limit)];
    JObj(match d.keyword
      case None => m
      case Some(w) => m[Keyword := StrJson(w)])
  }

  /** `keyword` is left out when `None`; every field reads back. */
  lemma ListGetLeadsRequestDtoJsonFields(d: ListGetLeadsRequestDto)
    ensures var m := ListGetLeadsRequestDtoJson(d).fields;
      && m.Keys <= {ListId, Offset, Limit, Keyword}
      && (Keyword in m <==> d.keyword.Some?)
      && Required(m, ListId, AsU64) == Some(d.listId)
      && Required(m, Offset, AsU32) == Some(d.offset)
      && Required(m, Limit, AsU32) == Some(d.limit)
      && Optional(m, Keyword, AsStr) == Some(d.keyword)
  {
  }

  datatype ListAddLeadsRequestDto = ListAddLeadsRequestDto(listId: u64, leads: seq<LeadDto>)

  function LeadList(j: Json): Option<seq<LeadDto>> { AsList(j, DecodeLeadDto) }

  lemma LeadListRoundTrip(leads: seq<LeadDto>)
    ensures LeadList(ListJson(leads, LeadDtoJson)) == Some(leads)
  {
    forall l: LeadDto
      ensures DecodeLeadDto(LeadDtoJson(l)) == Some(l)
    {
      LeadDtoRoundTrip(l);
    }
    ListRoundTrip(leads, LeadDtoJson, DecodeLeadDto);
  }

  function ListAddLeadsRequestDtoJson(d: ListAddLeadsRequestDto): Json
  {
    JObj(map[ListId := U64Json(d.listId), Leads := ListJson(d.leads, LeadDtoJson)])
  }

  /** The list id and every lead, in order, read back. */
  lemma ListAddLeadsRequestDtoJsonFields(d: ListAddLeadsRequestDto)
    ensures var m := ListAddLeadsRequestDtoJson(d).fields;
      && m.Keys == {ListId, Leads}
      && Required(m, ListId, AsU64) == Some(d.listId)
      && Required(m, Leads, LeadList) == Some(d.leads)
  {
    LeadListRoundTrip(d.leads);
  }

  datatype ListLeadDeleteRequestDto = ListLeadDeleteRequestDto(listId: u64, leadMemberIds: seq<string>)

  function ListLeadDeleteRequestDtoJson(d: ListLeadDeleteRequestDto): Json
  {
    JObj(map[ListId := U64Json(d.listId), LeadMemberIds := ListJson(d.leadMemberIds, StrJson)])
  }

  lemma ListLeadDeleteRequestDtoJsonFields(d: ListLeadDeleteRequestDto)
    ensures var m := ListLeadDeleteRequestDtoJson(d).fields;
      && m.Keys == {ListId, LeadMemberIds}
      && Required(m, ListId, AsU64) == Some(d.listId)
      && Required(m, LeadMemberIds, StrList) == Some(d.leadMemberIds)
  {
    ListRoundTrip(d.leadMemberIds, StrJson, AsStr);
  }

  datatype ListLeadDeleteByProfileUrlRequestDto = ListLeadDeleteByProfileUrlRequestDto(listId: u64, profileUrls: seq<string>)

  function ListLeadDeleteByProfileUrlRequestDtoJson(d: ListLeadDeleteByProfileUrlRequestDto): Json
  {
    JObj(map[ListId := U64Json(d.listId), ProfileUrls := ListJson(d.profileUrls, StrJson)])
  }

  lemma ListLeadDeleteByProfileUrlRequestDtoJsonFields(d: ListLeadDeleteByProfileUrlRequestDto)
    ensures var m := ListLeadDeleteByProfileUrlRequestDtoJson(d).fields;
      && m.Keys == {ListId, ProfileUrls}
      && Required(m, ListId, AsU64) == Some(d.listId)
      && Required(m, ProfileUrls, StrList) == Some(d.profileUrls)
  {
    ListRoundTrip(d.profileUrls, StrJson, AsStr);
  }

  datatype ListLeadDeleteByProfileUrlResponseDto = ListLeadDeleteByProfileUrlResponseDto(notFoundInList: seq<string>)

  function DecodeListLeadDeleteByProfileUrlResponseDto(j: Json): Option<ListLeadDeleteByProfileUrlResponseDto>
  {
    if !j.JObj? then None
    else
      var notFound :- Required(j.fields, NotFoundInList, StrList);
      Some(ListLeadDeleteByProfileUrlResponseDto(notFound))
  }

  function ListLeadDeleteByProfileUrlResponseDtoWire(d: ListLeadDeleteByProfileUrlResponseDto): Json
  {
    JObj(map[NotFoundInList := ListJson(d.notFoundInList, StrJson)])
  }

  lemma ListLeadDeleteByProfileUrlResponseDtoRoundTrip(d: ListLeadDeleteByProfileUrlResponseDto)
    ensures DecodeListLeadDeleteByProfileUrlResponseDto(ListLeadDeleteByProfileUrlResponseDtoWire(d)) == Some(d)
  {
    ListRoundTrip(d.notFoundInList, StrJson, AsStr);
  }

  // -------- leads and tags --------

  datatype LeadGetRequestDto = LeadGetRequestDto(profileUrl: string)

  function LeadGetRequestDtoJson(d: LeadGetRequestDto): Json
  {
    JObj(map[ProfileUrl := StrJson(d.profileUrl)])
  }

  lemma LeadGetRequestDtoJsonFields(d: LeadGetRequestDto)
    ensures var m := LeadGetRequestDtoJson(d).fields;
      m.Keys == {ProfileUrl} && Required(m, ProfileUrl, AsStr) == Some(d.profileUrl)
  {
  }

  datatype LeadListsRequestDto = LeadListsRequestDto(
    email: Option<string>,
    linkedinId: Option<string>,
    profileUrl: Option<string>,
    offset: u32,
    limit: u32)

  /** Each lookup key is left out when `None`. */
  function LeadListsRequestDtoJson(d: LeadListsRequestDto): Json
  {
    var m0 := map[Offset := U32Json(d.offset), Limit := U32Json(d.limit)];
    var m1 := match d.email case None => m0 case Some(s) => m0[Email := StrJson(s)];
    var m2 := match d.linkedinId case None => m1 case Some(s) => m1[LinkedinId := StrJson(s)];
    JObj(match d.profileUrl case None => m2 case Some(s) => m2[ProfileUrl := StrJson(s)])
  }

  /** The three lookup keys are each written exactly when present; every
      field reads back. */
  lemma LeadListsRequestDtoJsonFields(d: LeadListsRequestDto)
    ensures var m := LeadListsRequestDtoJson(d).fields;
      && m.Keys <= {Email, LinkedinId, ProfileUrl, Offset, Limit}
      && (Email in m <==> d.email.Some?)
      && (LinkedinId in m <==> d.linkedinId.Some?)
      && (ProfileUrl in m <==> d.profileUrl.Some?)
      && Optional(m, Email, AsStr) == Some(d.email)
      && Optional(m, LinkedinId, AsStr) == Some(d.linkedinId)
      && Optional(m, ProfileUrl, AsStr) == Some(d.profileUrl)
      && Required(m, Offset, AsU32) == Some(d.offset)
      && Required(m, Limit, AsU32) == Some(d.limit)
  {
  }

  datatype LeadListSummaryDto = LeadListSummaryDto(listId: u64, listName: string)

  function DecodeLeadListSummaryDto(j: Json): Option<LeadListSummaryDto>
  {
    if !j.JObj? then None
    else
      var listId :- Required(j.fields, ListId, AsU64);
      var listName :- Required(j.fields, ListName, AsStr);
      Some(LeadListSummaryDto(listId, listName))
  }

  function LeadListSummaryDtoWire(d: LeadListSummaryDto): Json
  {
    JObj(map[ListId := U64Json(d.listId), ListName := StrJson(d.listName)])
  }

  lemma LeadListSummaryDtoRoundTrip(d: LeadListSummaryDto)
    ensures DecodeLeadListSummaryDto(LeadListSummaryDtoWire(d)) == Some(d)
  {
  }

  /** Declared without `rename_all`; its one field `tags` is spelled alike
      either way. */
  datatype LeadTagsResponseDto = LeadTagsResponseDto(tags: seq<string>)

  function DecodeLeadTagsResponseDto(j: Json): Option<LeadTagsResponseDto>
  {
    if !j.JObj? then None
    else
      var tags :- Required(j.fields, Tags, StrList);
      Some(LeadTagsResponseDto(tags))
  }

  function LeadTagsResponseDtoWire(d: LeadTagsResponseDto): Json
  {
    JObj(map[Tags := ListJson(d.tags, StrJson)])
  }

  lemma LeadTagsResponseDtoRoundTrip(d: LeadTagsResponseDto)
    ensures DecodeLeadTagsResponseDto(LeadTagsResponseDtoWire(d)) == Some(d)
  {
    ListRoundTrip(d.tags, StrJson, AsStr);
  }

  datatype LeadReplaceTagsRequestDto = LeadReplaceTagsRequestDto(
    leadProfileUrl: Option<string>,
    leadLinkedInId: Option<string>,
    tags: seq<string>,
    createTagIfNotExisting: bool)

  /** Each lead identifier is left out when `None`. */
  function LeadReplaceTagsRequestDtoJson(d: LeadReplaceTagsRequestDto): Json
  {
    var m0 := map[Tags := ListJson(d.tags, StrJson), CreateTagIfNotExisting := BoolJson(d.createTagIfNotExisting)];
    var m1 := match d.leadProfileUrl case None => m0 case Some(s) => m0[LeadProfileUrl := StrJson(s)];
    JObj(match d.leadLinkedInId case None => m1 case Some(s) => m1[LeadLinkedInId := StrJson(s)])
  }

  /** The two lead identifiers are each written exactly when present; the
      tags and the create flag always are; every field reads back. */
  lemma LeadReplaceTagsRequestDtoJsonFields(d: LeadReplaceTagsRequestDto)
    ensures var m := LeadReplaceTagsRequestDtoJson(d).fields;
      && m.Keys <= {LeadProfileUrl, LeadLinkedInId, Tags, CreateTagIfNotExisting}
      && (LeadProfileUrl in m <==> d.leadProfileUrl.Some?)
      && (LeadLinkedInId in m <==> d.leadLinkedInId.Some?)
      && Optional(m, LeadProfileUrl, AsStr) == Some(d.leadProfileUrl)
      && Optional(m, LeadLinkedInId, AsStr) == Some(d.leadLinkedInId)
      && Required(m, Tags, StrList) == Some(d.tags)
      && Required(m, CreateTagIfNotExisting, AsBool) == Some(d.createTagIfNotExisting)
  {
    ListRoundTrip(d.tags, StrJson, AsStr);
  }

  datatype LeadReplaceTagsResponseDto = LeadReplaceTagsResponseDto(newAssignedTags: seq<string>)

  function DecodeLeadReplaceTagsResponseDto(j: Json): Option<LeadReplaceTagsResponseDto>
  {
    if !j.JObj? then None
    else
      var tags :- Required(j.fields, NewAssignedTags, StrList);
      Some(LeadReplaceTagsResponseDto(tags))
  }

  function LeadReplaceTagsResponseDtoWire(d: LeadReplaceTagsResponseDto): Json
  {
    JObj(map[NewAssignedTags := ListJson(d.newAssignedTags, StrJson)])
  }

  lemma LeadReplaceTagsResponseDtoRoundTrip(d: LeadReplaceTagsResponseDto)
    ensures DecodeLeadReplaceTagsResponseDto(LeadReplaceTagsResponseDtoWire(d)) == Some(d)
  {
    ListRoundTrip(d.newAssignedTags, StrJson, AsStr);
  }

  // -------- inbox --------

  datatype InboxFiltersDto = InboxFiltersDto(
    linkedInAccountIds: seq<u32>,
    campaignIds: seq<u64>,
    searchString: Option<string>,
    leadLinkedInId: Option<string>,
    leadProfileUrl: Option<string>,
    seen: Option<bool>)

  /** The read flag is written under `seen` here (the conversation record
      reads it from `read`); each optional filter is left out when `None`. */
  function InboxFiltersDtoJson(d: InboxFiltersDto): Json
  {
    var m0 := map[LinkedInAccountIds := ListJson(d.linkedInAccountIds, U32Json),
                  CampaignIds := ListJson(d.campaignIds, U64Json)];
    var m1 := match d.searchString case None => m0 case Some(s) => m0[SearchString := StrJson(s)];
    var m2 := match d.leadLinkedInId case None => m1 case Some(s) => m1[LeadLinkedInId := StrJson(s)];
    var m3 := match d.leadProfileUrl case None => m2 case Some(s) => m2[LeadProfileUrl := StrJson(s)];
    JObj(match d.seen case None => m3 case Some(b) => m3[Seen := BoolJson(b)])
  }

  /** The two id lists are always written (even when empty); the other four
      filters are each written exactly when present. */
  lemma InboxFiltersDtoJsonKeys(d: InboxFiltersDto)
    ensures var m := InboxFiltersDtoJson(d).fields;
      && m.Keys <= {LinkedInAccountIds, CampaignIds, SearchString, LeadLinkedInId, LeadProfileUrl, Seen}
      && LinkedInAccountIds in m && CampaignIds in m
      && (SearchString in m <==> d.searchString.Some?)
      && (LeadLinkedInId in m <==> d.leadLinkedInId.Some?)
      && (LeadProfileUrl in m <==> d.leadProfileUrl.Some?)
      && (Seen in m <==> d.seen.Some?)
  {
  }

  /** The two id lists read back from their keys. */
  lemma InboxFiltersDtoJsonLists(d: InboxFiltersDto)
    ensures var m := InboxFiltersDtoJson(d).fields;
      && Required(m, LinkedInAccountIds, U32List) == Some(d.linkedInAccountIds)
      && Required(m, CampaignIds, U64List) == Some(d.campaignIds)
  {
    var m := InboxFiltersDtoJson(d).fields;
    assert m[LinkedInAccountIds] == ListJson(d.linkedInAccountIds, U32Json);
    assert m[CampaignIds] == ListJson(d.campaignIds, U64Json);
    ListRoundTrip(d.linkedInAccountIds, U32Json, AsU32);
    ListRoundTrip(d.campaignIds, U64Json, AsU64);
  }

  /** The four optional filters read back from their keys. */
  lemma InboxFiltersDtoJsonOptionals(d: InboxFiltersDto)
    ensures var m := InboxFiltersDtoJson(d).fields;
      && Optional(m, SearchString, AsStr) == Some(d.searchString)
      && Optional(m, LeadLinkedInId, AsStr) == Some(d.leadLinkedInId)
      && Optional(m, LeadProfileUrl, AsStr) == Some(d.leadProfileUrl)
      && Optional(m, Seen, AsBool) == Some(d.seen)
  {
  }

  datatype InboxGetConversationsRequestDto = InboxGetConversationsRequestDto(filters: InboxFiltersDto, offset: u32, limit: u32)

  function InboxGetConversationsRequestDtoJson(d: InboxGetConversationsRequestDto): Json
  {
    JObj(map[Filters := InboxFiltersDtoJson(d.filters), Offset := U32Json(d.offset), Limit := U32Json(d.limit)])
  }

  /** The filters are nested as their own object under `filters`; offset and
      limit sit beside it. */
  lemma InboxGetConversationsRequestDtoJsonFields(d: InboxGetConversationsRequestDto)
    ensures var m := InboxGetConversationsRequestDtoJson(d).fields;
      && m.Keys == {Filters, Offset, Limit}
      && m[Filters] == InboxFiltersDtoJson(d.filters)
      && Required(m, Offset, AsU32) == Some(d.offset)
      && Required(m, Limit, AsU32) == Some(d.limit)
  {
  }

  datatype InboxConversationSummaryDto = InboxConversationSummaryDto(
    conversationId: string,
    linkedInAccountId: u32,
    leadProfileUrl: Option<string>,
    lastMessageSnippet: Option<string>,
    seen: bool)

  /** The conversation id is read from `id` and the read flag from `read`
      (explicit renames); the read flag has no default. */
  function DecodeInboxConversationSummaryDto(j: Json): Option<InboxConversationSummaryDto>
  {
    if !j.JObj? then None
    else
      var m := j.fields;
      var conversationId :- Required(m, Id, AsStr);
      var accountId :- Required(m, LinkedInAccountId, AsU32);
      var profileUrl :- Optional(m, LeadProfileUrl, AsStr);
      var snippet :- Optional(m, LastMessageSnippet, AsStr);
      var seen :- Required(m, Read, AsBool);
      Some(InboxConversationSummaryDto(conversationId, accountId, profileUrl, snippet, seen))
  }

  function InboxConversationSummaryDtoWire(d: InboxConversationSummaryDto): Json
  {
    JObj(map[
      Id := StrJson(d.conversationId),
      LinkedInAccountId := U32Json(d.linkedInAccountId),
      LeadProfileUrl := OptionJson(d.leadProfileUrl, StrJson),
      LastMessageSnippet := OptionJson(d.lastMessageSnippet, StrJson),
      Read := BoolJson(d.seen)])
  }

  lemma InboxConversationSummaryDtoRoundTrip(d: InboxConversationSummaryDto)
    ensures DecodeInboxConversationSummaryDto(InboxConversationSummaryDtoWire(d)) == Some(d)
  {
  }

  /** The field names themselves are not read: neither `conversationId` nor
      `seen` takes part in decoding, and a record without `id` or without
      `read` is rejected. */
  lemma InboxConversationSummaryDtoRenames(m: map<Key, Json>, conversationId: Json, seen: Json)
    ensures Spelling(Id) == "id" && Spelling(Read) == "read"
    ensures DecodeInboxConversationSummaryDto(JObj(m[Other("conversationId") := conversationId][Seen := seen]))
         == DecodeInboxConversationSummaryDto(JObj(m))
    ensures Id !in m ==> DecodeInboxConversationSummaryDto(JObj(m)) == None
    ensures Read !in m ==> DecodeInboxConversationSummaryDto(JObj(m)) == None
  {
  }

  datatype InboxSendMessageRequestDto = InboxSendMessageRequestDto(
    message: string,
    subject: Option<string>,
    conversationId: string,
    linkedInAccountId: u32)

  function InboxSendMessageRequestDtoJson(d: InboxSendMessageRequestDto): Json
  {
    var m := map[Message := StrJson(d.message), Id := StrJson(d.conversationId),
                 LinkedInAccountId := U32Json(d.linkedInAccountId)];
    JObj(match d.subject
      case None => m
      case Some(s) => m[Subject := StrJson(s)])
  }

  /** The conversation id is written under `id`; `subject` is left out when
      `None`; every field reads back. */
  lemma InboxSendMessageRequestDtoJsonFields(d: InboxSendMessageRequestDto)
    ensures var m := InboxSendMessageRequestDtoJson(d).fields;
      && m.Keys <= {Message, Subject, Id, LinkedInAccountId}
      && (Subject in m <==> d.subject.Some?)
      && Required(m, Message, AsStr) == Some(d.message)
      && Optional(m, Subject, AsStr) == Some(d.subject)
      && Required(m, Id, AsStr) == Some(d.conversationId)
      && Required(m, LinkedInAccountId, AsU32) == Some(d.linkedInAccountId)
  {
  }

  // -------- LinkedIn accounts --------

  datatype LiAccountSummaryDto = LiAccountSummaryDto(
    id: u32,
    emailAddress: string,
    firstName: string,
    lastName: string,
    isActive: bool,
    activeCampaigns: u32,
    authIsValid: bool,
    isValidNavigator: bool,
    isValidRecruiter: bool)

  /** The activity and validity fields default to `false` and 0. */
  function DecodeLiAccountSummaryDto(j: Json): Option<LiAccountSummaryDto>
  {
    if !j.JObj? then None
    else
      var m := j.fields;
      var id :- Required(m, Id, AsU32);
      var email :- Required(m, EmailAddress, AsStr);
      var firstName :- Required(m, FirstName, AsStr);
      var lastName :- Required(m, LastName, AsStr);
      var isActive :- Defaulted(m, IsActive, AsBool, false);
      var campaigns :- Defaulted(m, ActiveCampaigns, AsU32, 0);
      var authIsValid :- Defaulted(m, AuthIsValid, AsBool, false);
      var navigator :- Defaulted(m, IsValidNavigator, AsBool, false);
      var recruiter :- Defaulted(m, IsValidRecruiter, AsBool, false);
      Some(LiAccountSummaryDto(id, email, firstName, lastName, isActive, campaigns, authIsValid, navigator, recruiter))
  }

  function LiAccountSummaryDtoWire(d: LiAccountSummaryDto): Json
  {
    JObj(map[
      Id := U32Json(d.id),
      EmailAddress := StrJson(d.emailAddress),
      FirstName := StrJson(d.firstName),
      LastName := StrJson(d.lastName),
      IsActive := BoolJson(d.isActive),
      ActiveCampaigns := U32Json(d.activeCampaigns),
      AuthIsValid := BoolJson(d.authIsValid),
      IsValidNavigator := BoolJson(d.isValidNavigator),
      IsValidRecruiter := BoolJson(d.isValidRecruiter)])
  }

  lemma LiAccountSummaryDtoRoundTrip(d: LiAccountSummaryDto)
    ensures DecodeLiAccountSummaryDto(LiAccountSummaryDtoWire(d)) == Some(d)
  {
  }

  /** An account record with only its id, e-mail and names decodes as
      inactive, with no campaigns and no valid authentication or seats. */
  lemma LiAccountSummaryDtoDefaults(d: LiAccountSummaryDto)
    ensures DecodeLiAccountSummaryDto(JObj(LiAccountSummaryDtoWire(d).fields
              - {IsActive, ActiveCampaigns, AuthIsValid, IsValidNavigator, IsValidRecruiter}))
         == Some(d.(isActive := false, activeCampaigns := 0, authIsValid := false,
                    isValidNavigator := false, isValidRecruiter := false))
  {
  }

  /** The three validity flags are independent fields: changing one on the
      wire changes that field and nothing else. */
  lemma LiAccountSummaryDtoAuthIndependent(d: LiAccountSummaryDto, b: bool)
    ensures DecodeLiAccountSummaryDto(JObj(LiAccountSummaryDtoWire(d).fields[AuthIsValid := JBool(b)]))
         == Some(d.(authIsValid := b))
  {
  }

  lemma LiAccountSummaryDtoNavigatorIndependent(d: LiAccountSummaryDto, b: bool)
    ensures DecodeLiAccountSummaryDto(JObj(LiAccountSummaryDtoWire(d).fields[IsValidNavigator := JBool(b)]))
         == Some(d.(isValidNavigator := b))
  {
  }

  lemma LiAccountSummaryDtoRecruiterIndependent(d: LiAccountSummaryDto, b: bool)
    ensures DecodeLiAccountSummaryDto(JObj(LiAccountSummaryDtoWire(d).fields[IsValidRecruiter := JBool(b)]))
         == Some(d.(isValidRecruiter := b))
  {
  }

  // -------- webhooks --------

  datatype WebhookDto = WebhookDto(
    id: u64,
    webhookName: string,
    webhookUrl: string,
    eventType: string,
    campaignIds: seq<u64>,
    isActive: bool)

  function DecodeWebhookDto(j: Json): Option<WebhookDto>
  {
    if !j.JObj? then None
    else
      var m := j.fields;
      var id :- Required(m, Id, AsU64);
      var name :- Required(m, WebhookName, AsStr);
      var url :- Required(m, WebhookUrl, AsStr);
      var eventType :- Required(m, EventType, AsStr);
      var campaignIds :- Required(m, CampaignIds, U64List);
      var isActive :- Required(m, IsActive, AsBool);
      Some(WebhookDto(id, name, url, eventType, campaignIds, isActive))
  }

  function WebhookDtoJson(d: WebhookDto): Json
  {
    JObj(map[
      Id := U64Json(d.id),
      WebhookName := StrJson(d.webhookName),
      WebhookUrl := StrJson(d.webhookUrl),
      EventType := StrJson(d.eventType),
      CampaignIds := ListJson(d.campaignIds, U64Json),
      IsActive := BoolJson(d.isActive)])
  }

  lemma WebhookDtoRoundTrip(d: WebhookDto)
    ensures DecodeWebhookDto(WebhookDtoJson(d)) == Some(d)
  {
    ListRoundTrip(d.campaignIds, U64Json, AsU64);
  }

  /** Unlike the account flags, `isActive` of a webhook has no default. */
  lemma WebhookDtoActiveRequired(d: WebhookDto)
    ensures DecodeWebhookDto(JObj(WebhookDtoJson(d).fields - {IsActive})) == None
  {
  }

  datatype CreateWebhookRequestDto = CreateWebhookRequestDto(
    webhookName: string,
    webhookUrl: string,
    eventType: string,
    campaignIds: seq<u64>,
    isActive: bool)

  function CreateWebhookRequestDtoJson(d: CreateWebhookRequestDto): Json
  {
    JObj(map[
      WebhookName := StrJson(d.webhookName),
      WebhookUrl := StrJson(d.webhookUrl),
      EventType := StrJson(d.eventType),
      CampaignIds := ListJson(d.campaignIds, U64Json),
      IsActive := BoolJson(d.isActive)])
  }

  /** Every field is written and reads back; a new webhook has no `id`. */
  lemma CreateWebhookRequestDtoJsonFields(d: CreateWebhookRequestDto)
    ensures var m := CreateWebhookRequestDtoJson(d).fields;
      && m.Keys == {WebhookName, WebhookUrl, EventType, CampaignIds, IsActive}
      && Required(m, WebhookName, AsStr) == Some(d.webhookName)
      && Required(m, WebhookUrl, AsStr) == Some(d.webhookUrl)
      && Required(m, EventType, AsStr) == Some(d.eventType)
      && Required(m, CampaignIds, U64List) == Some(d.campaignIds)
      && Required(m, IsActive, AsBool) == Some(d.isActive)
  {
    ListRoundTrip(d.campaignIds, U64Json, AsU64);
  }

  datatype GetWebhooksFilterDto = GetWebhooksFilterDto(offset: u32, limit: u32)

  function GetWebhooksFilterDtoJson(d: GetWebhooksFilterDto): Json
  {
    JObj(map[Offset := U32Json(d.offset), Limit := U32Json(d.limit)])
  }

  lemma GetWebhooksFilterDtoJsonFields(d: GetWebhooksFilterDto)
    ensures var m := GetWebhooksFilterDtoJson(d).fields;
      && m.Keys == {Offset, Limit}
      && Required(m, Offset, AsU32) == Some(d.offset)
      && Required(m, Limit, AsU32) == Some(d.limit)
  {
  }
}
