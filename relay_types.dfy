/**
 * The relay vocabulary: the user's availability status, how a message was
 * relayed, the relay-log record, the relay command, the urgent keywords and
 * the status messages used in auto-responses.
 */
module RelayTypes {
  import opened Wrappers
  import opened Text

  /** `UserStatusEnum`. */
  datatype UserStatus = Available | Busy | Away | Sleep | Dnd

  function StatusName(s: UserStatus): string {
    match s
    case Available => "available"
    case Busy => "busy"
    case Away => "away"
    case Sleep => "sleep"
    case Dnd => "dnd"
  }

  /** `UserStatusEnum.safeParse`: only the five enum spellings are accepted. */
  function ParseStatus(raw: string): (r: Option<UserStatus>)
    ensures r.Some? ==> StatusName(r.value) == raw
    ensures r.None? ==> forall s: UserStatus :: StatusName(s) != raw
  {
    if raw == "available" then Some(Available)
    else if raw == "busy" then Some(Busy)
    else if raw == "away" then Some(Away)
    else if raw == "sleep" then Some(Sleep)
    else if raw == "dnd" then Some(Dnd)
    else None
  }

  lemma ParseStatusName(s: UserStatus)
    ensures ParseStatus(StatusName(s)) == Some(s)
  {
  }

  /** `RelayMethodEnum`. */
  datatype RelayMethod = Manual | Auto | Urgent

  function MethodName(m: RelayMethod): string {
    match m
    case Manual => "manual"
    case Auto => "auto"
    case Urgent => "urgent"
  }

  function ParseMethod(raw: string): (r: Option<RelayMethod>)
    ensures r.Some? ==> MethodName(r.value) == raw
    ensures r.None? ==> forall m: RelayMethod :: MethodName(m) != raw
  {
    if raw == "manual" then Some(Manual)
    else if raw == "auto" then Some(Auto)
    else if raw == "urgent" then Some(Urgent)
    else None
  }

  /** A row of the relay log (`RelayMessageSchema`). The optional fields of
      the schema are `Option`s; `createdAt` is the store's timestamp in
      milliseconds. */
  datatype RelayRecord = RelayRecord(
    id: Option<string>,
    conversationId: string,
    fromUser: string,
    toUser: string,
    originalText: string,
    relayedText: Option<string>,
    relayMethod: RelayMethod,
    wasAutoResponded: bool,
    isUrgent: bool,
    createdAt: Option<int>)

  predicate IsHexDigit(c: char) {
    '0' <= c <= '9' || 'a' <= c <= 'f' || 'A' <= c <= 'F'
  }

  /** `z.string().uuid()`: five groups of 8-4-4-4-12 hex digits. */
  predicate IsUuid(s: string) {
    |s| == 36 &&
    forall k :: 0 <= k < 36 ==>
      if k == 8 || k == 13 || k == 18 || k == 23 then s[k] == '-' else IsHexDigit(s[k])
  }

  /** What `RelayMessageSchema.parse` checks beyond the field types. */
  predicate ValidRecord(r: RelayRecord) {
    IsUuid(r.conversationId) && (r.id.Some? ==> IsUuid(r.id.value))
  }

  /** `RelayCommandTypeEnum`. */
  datatype RelayCommandType = Send | Reply | Broadcast

  /** `RelayCommandSchema`. */
  datatype RelayCommand = RelayCommand(kind: RelayCommandType, target: string, message: string)

  /** `URGENT_KEYWORDS`. */
  const UrgentKeywords: seq<string> := [
    "emergency", "urgent", "asap", "now", "immediately", "help",
    "911", "critical", "important", "hospital", "police"
  ]

  /** A keyword that a lower-cased text can contain: lower case, no
      whitespace, at least three characters. */
  predicate KeywordShape(w: string) {
    |w| >= 3 && NoWhitespace(w) && NoAsciiUpper(w)
  }

  predicate LowerAlnum(w: string) {
    forall k :: 0 <= k < |w| ==> 'a' <= w[k] <= 'z' || '0' <= w[k] <= '9'
  }

  lemma LowerAlnumShape(w: string)
    requires |w| >= 3 && LowerAlnum(w)
    ensures KeywordShape(w)
  {
  }

  /** Eleven keywords of that shape, `now` and `911` among them. */
  lemma UrgentKeywordsShape()
    ensures |UrgentKeywords| == 11
    ensures "now" in UrgentKeywords && "911" in UrgentKeywords
    ensures forall k :: 0 <= k < |UrgentKeywords| ==> KeywordShape(UrgentKeywords[k])
  {
    forall k | 0 <= k < |UrgentKeywords| ensures KeywordShape(UrgentKeywords[k]) {
      LowerAlnumShape(UrgentKeywords[k]);
    }
  }

  /** `STATUS_MESSAGES`: a message for every status except `available`. */
  const StatusMessages: map<UserStatus, string> := map[
    Away := "I'm currently away",
    Busy := "I'm busy at the moment",
    Sleep := "I'm sleeping right now",
    Dnd := "I'm unavailable"
  ]

  lemma StatusMessagesDomain()
    ensures forall s: UserStatus :: s in StatusMessages <==> s != Available
  {
  }
}
