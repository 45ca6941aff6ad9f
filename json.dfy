/** An abstract JSON value (`serde_json::Value` without floating-point numbers)
    and the rules by which serde's derived `Deserialize` reads one struct field
    from a JSON object, and derived `Serialize` writes one: a required field,
    a field with `#[serde(default)]`, an `Option` field (absent and `null` both
    read as `None`), a `Vec` field, and `skip_serializing_if = "Option::is_none"`.
    Keys that a struct does not declare are ignored on decoding. */
module Json {
  import opened Common

  datatype Json =
    | JNull
    | JBool(b: bool)
    | JNum(n: int)
    | JStr(s: string)
    | JArr(elems: seq<Json>)
    | JObj(fields: map<Key, Json>)

  /** An object key, as serde's derived `Deserialize` classifies it: one
      constructor for every key some wire record of this program declares
      (named after its spelling, with the first letter capitalised, and
      spelled on the wire as `Spelling` says), and `Other` for every other
      spelling. A parser that classifies keys as serde does never gives
      `Other` with a named key's spelling; `CanonicalKey` says so. */
  datatype Key =
    | Offset
    | Limit
    | TotalCount
    | Keyword
    | Statuses
    | AccountIds
    | TotalUsers
    | TotalUsersInProgress
    | TotalUsersPending
    | TotalUsersFinished
    | TotalUsersFailed
    | TotalUsersManuallyStopped
    | TotalUsersExcluded
    | Id
    | Name
    | CreationTime
    | LinkedInUserListName
    | LinkedInUserListId
    | CampaignAccountIds
    | Status
    | ProgressStats
    | ExcludeInOtherCampaigns
    | ExcludeHasOtherAccConversations
    | ExcludeContactedFromSenderInOtherCampaign
    | ExcludeListId
    | OrganizationUnitId
    | ExcludeAlreadyMessagedGlobal
    | ExcludeAlreadyMessagedCampaignAccounts
    | ExcludeFirstConnectionCampaignAccounts
    | ExcludeFirstConnectionGlobal
    | ExcludeNoProfilePicture
    | Items
    | Value
    | FirstName
    | LastName
    | ProfileUrl
    | Location
    | Summary
    | CompanyName
    | Position
    | About
    | EmailAddress
    | CustomUserFields
    | LinkedInAccountId
    | Lead
    | CampaignId
    | AccountLeadPairs
    | AddedLeadsCount
    | UpdatedLeadsCount
    | FailedLeadsCount
    | TotalItemsCount
    | ListType
    | CampaignIds
    | ListId
    | Leads
    | LeadMemberIds
    | ProfileUrls
    | NotFoundInList
    | Email
    | LinkedinId
    | ListName
    | Tags
    | LeadProfileUrl
    | LeadLinkedInId
    | CreateTagIfNotExisting
    | NewAssignedTags
    | LinkedInAccountIds
    | SearchString
    | Seen
    | Filters
    | LastMessageSnippet
    | Read
    | Message
    | Subject
    | IsActive
    | ActiveCampaigns
    | AuthIsValid
    | IsValidNavigator
    | IsValidRecruiter
    | WebhookName
    | WebhookUrl
    | EventType
    | Detail
    | ErrorMessage
    | Other(name: string)

  /** The text of a key on the wire. */
  function Spelling(k: Key): string
  {
    match k
    case Offset => "offset"
    case Limit => "limit"
    case TotalCount => "totalCount"
    case Keyword => "keyword"
    case Statuses => "statuses"
    case AccountIds => "accountIds"
    case TotalUsers => "totalUsers"
    case TotalUsersInProgress => "totalUsersInProgress"
    case TotalUsersPending => "totalUsersPending"
    case TotalUsersFinished => "totalUsersFinished"
    case TotalUsersFailed => "totalUsersFailed"
    case TotalUsersManuallyStopped => "totalUsersManuallyStopped"
    case TotalUsersExcluded => "totalUsersExcluded"
    case Id => "id"
    case Name => "name"
    case CreationTime => "creationTime"
    case LinkedInUserListName => "linkedInUserListName"
    case LinkedInUserListId => "linkedInUserListId"
    case CampaignAccountIds => "campaignAccountIds"
    case Status => "status"
    case ProgressStats => "progressStats"
    case ExcludeInOtherCampaigns => "excludeInOtherCampaigns"
    case ExcludeHasOtherAccConversations => "excludeHasOtherAccConversations"
    case ExcludeContactedFromSenderInOtherCampaign => "excludeContactedFromSenderInOtherCampaign"
    case ExcludeListId => "excludeListId"
    case OrganizationUnitId => "organizationUnitId"
    case ExcludeAlreadyMessagedGlobal => "excludeAlreadyMessagedGlobal"
    case ExcludeAlreadyMessagedCampaignAccounts => "excludeAlreadyMessagedCampaignAccounts"
    case ExcludeFirstConnectionCampaignAccounts => "excludeFirstConnectionCampaignAccounts"
    case ExcludeFirstConnectionGlobal => "excludeFirstConnectionGlobal"
    case ExcludeNoProfilePicture => "excludeNoProfilePicture"
    case Items => "items"
    case Value => "value"
    case FirstName => "firstName"
    case LastName => "lastName"
    case ProfileUrl => "profileUrl"
    case Location => "location"
    case Summary => "summary"
    case CompanyName => "companyName"
    case Position => "position"
    case About => "about"
    case EmailAddress => "emailAddress"
    case CustomUserFields => "customUserFields"
    case LinkedInAccountId => "linkedInAccountId"
    case Lead => "lead"
    case CampaignId => "campaignId"
    case AccountLeadPairs => "accountLeadPairs"
    case AddedLeadsCount => "addedLeadsCount"
    case UpdatedLeadsCount => "updatedLeadsCount"
    case FailedLeadsCount => "failedLeadsCount"
    case TotalItemsCount => "totalItemsCount"
    case ListType => "listType"
    case CampaignIds => "campaignIds"
    case ListId => "listId"
    case Leads => "leads"
    case LeadMemberIds => "leadMemberIds"
    case ProfileUrls => "profileUrls"
    case NotFoundInList => "notFoundInList"
    case Email => "email"
    case LinkedinId => "linkedinId"
    case ListName => "listName"
    case Tags => "tags"
    case LeadProfileUrl => "leadProfileUrl"
    case LeadLinkedInId => "leadLinkedInId"
    case CreateTagIfNotExisting => "createTagIfNotExisting"
    case NewAssignedTags => "newAssignedTags"
    case LinkedInAccountIds => "linkedInAccountIds"
    case SearchString => "searchString"
    case Seen => "seen"
    case Filters => "filters"
    case LastMessageSnippet => "lastMessageSnippet"
    case Read => "read"
    case Message => "message"
    case Subject => "subject"
    case IsActive => "isActive"
    case ActiveCampaigns => "activeCampaigns"
    case AuthIsValid => "authIsValid"
    case IsValidNavigator => "isValidNavigator"
    case IsValidRecruiter => "isValidRecruiter"
    case WebhookName => "webhookName"
    case WebhookUrl => "webhookUrl"
    case EventType => "eventType"
    case Detail => "detail"
    case ErrorMessage => "errorMessage"
    case Other(name) => name
  }

  /** A key classified by its spelling: `Other` is never used for the
      spelling of a named key. */
  ghost predicate CanonicalKey(k: Key)
  {
    k.Other? ==> forall n: Key :: !n.Other? ==> Spelling(n) != k.name
  }

  /** Once keys are classified by spelling, `Other` never carries the
      spelling of a named key. */
  lemma NamedSpellingNotOther(n: Key)
    requires !n.Other?
    ensures !CanonicalKey(Other(Spelling(n)))
  {
  }

  // -------- reading one value as a Rust type --------

  function AsBool(j: Json): Option<bool>
  {
    if j.JBool? then Some(j.b) else None
  }

  function AsStr(j: Json): Option<string>
  {
    if j.JStr? then Some(j.s) else None
  }

  function AsU32(j: Json): Option<u32>
  {
    if j.JNum? && 0 <= j.n < 0x1_0000_0000 then Some(j.n) else None
  }

  function AsU64(j: Json): Option<u64>
  {
    if j.JNum? && 0 <= j.n < 0x1_0000_0000_0000_0000 then Some(j.n) else None
  }

  function AsI32(j: Json): Option<i32>
  {
    if j.JNum? && -0x8000_0000 <= j.n < 0x8000_0000 then Some(j.n) else None
  }

  /** `Option<T>`: `null` is `None`, anything else must read as a `T`. */
  function AsOption<T>(j: Json, item: Json -> Option<T>): Option<Option<T>>
  {
    if j.JNull? then Some(None)
    else match item(j)
      case None => None
      case Some(v) => Some(Some(v))
  }

  /** `Vec<T>`: an array whose every element reads as a `T`. */
  function AsList<T>(j: Json, item: Json -> Option<T>): Option<seq<T>>
  {
    if j.JArr? then DecodeEach(j.elems, item) else None
  }

  /** Reads every element with `item`; fails exactly when one element fails,
      and otherwise keeps the number and order of the elements. */
  function DecodeEach<T>(js: seq<Json>, item: Json -> Option<T>): (r: Option<seq<T>>)
    ensures r.Some? <==> forall i :: 0 <= i < |js| ==> item(js[i]).Some?
    ensures r.Some? ==> |r.value| == |js| && forall i :: 0 <= i < |js| ==> item(js[i]) == Some(r.value[i])
  {
    if js == [] then Some([])
    else match item(js[0])
      case None => None
      case Some(x) =>
        match DecodeEach(js[1..], item)
        case None => None
        case Some(xs) => Some([x] + xs)
  }

  // -------- reading one field of an object --------

  /** A field without a default: a missing key is an error. */
  function Required<T>(m: map<Key, Json>, key: Key, item: Json -> Option<T>): Option<T>
  {
    if key in m then item(m[key]) else None
  }

  /** A field with `#[serde(default)]`: a missing key reads as `default`. */
  function Defaulted<T>(m: map<Key, Json>, key: Key, item: Json -> Option<T>, default: T): Option<T>
  {
    if key in m then item(m[key]) else Some(default)
  }

  /** An `Option` field: a missing key reads as `None`. */
  function Optional<T>(m: map<Key, Json>, key: Key, item: Json -> Option<T>): Option<Option<T>>
  {
    if key in m then AsOption(m[key], item) else Some(None)
  }

  // -------- writing --------

  function U32Json(n: u32): Json { JNum(n) }
  function U64Json(n: u64): Json { JNum(n) }
  function I32Json(n: i32): Json { JNum(n) }
  function StrJson(s: string): Json { JStr(s) }
  function BoolJson(b: bool): Json { JBool(b) }

  /** A `Vec<T>`, element by element. */
  function ListJson<T>(xs: seq<T>, item: T -> Json): Json
  {
    JArr(Map(xs, item))
  }

  /** The JSON value of an `Option` field: `null` for `None`. (A field under
      `skip_serializing_if = "Option::is_none"` is not written at all for `None`.) */
  function OptionJson<T>(o: Option<T>, item: T -> Json): Json
  {
    match o
    case None => JNull
    case Some(v) => item(v)
  }

  // -------- round trips of the field rules --------

  /** A list written element by element reads back as the same list,
      whenever each element reads back as itself. */
  lemma ListRoundTrip<T>(xs: seq<T>, item: T -> Json, read: Json -> Option<T>)
    requires forall x :: read(item(x)) == Some(x)
    ensures AsList(ListJson(xs, item), read) == Some(xs)
  {
    var js := Map(xs, item);
    assert forall i :: 0 <= i < |js| ==> read(js[i]) == Some(xs[i]);
    var r := DecodeEach(js, read);
    assert r.Some?;
    assert r.value == xs;
  }

  /** An `Option` field written as its value or `null` reads back as the
      same `Option`, and so does a skipped `None`. */
  lemma OptionalRoundTrip<T>(m: map<Key, Json>, key: Key, o: Option<T>, item: T -> Json, read: Json -> Option<T>)
    requires forall x :: read(item(x)) == Some(x)
    requires forall x :: item(x) != JNull
    ensures Optional(m[key := OptionJson(o, item)], key, read) == Some(o)
    ensures key !in m && o.None? ==> Optional(m, key, read) == Some(o)
  {
  }

  /** For an `Option` field an absent key and an explicit `null` read alike. */
  lemma AbsentIsNull<T>(m: map<Key, Json>, key: Key, item: Json -> Option<T>)
    requires key !in m
    ensures Optional(m, key, item) == Optional(m[key := JNull], key, item) == Some(None)
  {
  }

  /** For a field with a default, an absent key reads as the key holding the
      default's JSON form. */
  lemma AbsentIsDefault<T>(m: map<Key, Json>, key: Key, item: Json -> Option<T>, default: T, write: T -> Json)
    requires key !in m
    requires item(write(default)) == Some(default)
    ensures Defaulted(m, key, item, default) == Defaulted(m[key := write(default)], key, item, default)
  {
  }
}
