/**
 * The relay manager (`RelayManager` of lib/relay): the user's status, the
 * contact preferences and the relay log live in a store, modelled as the
 * fields of the class; `reachable` is false when every store query fails.
 * The generated reply of the language model is an input.
 */
module Relay {
  import opened Wrappers
  import opened Text
  import opened RelayTypes
  import opened Urgency
  import opened Digest
  import opened DigestBuilder

  /** The fields of an incoming message the relay manager reads. */
  datatype Message = Message(text: string, isFromMe: bool, sender: string)

  /** `—` as the source spells it, in bytes read as Mac Roman. */
  const SignatureDash: string := "\U{201A}\U{00C4}\U{00EE}"

  /** The signature appended to a generated reply that lacks one. */
  const Signature: string := "\n\n" + SignatureDash + " Theia (AI Assistant)"

  /** The reply sent when the language model fails. */
  const FallbackReply: string :=
    "Thanks for your message! The person you're trying to reach is currently unavailable. They'll get back to you soon."
    + Signature

  /** The decision of `shouldAutoRespond` once the status, the urgency and the
      contact's preference row are known: never for an urgent message or a
      contact who opted out, never while available, otherwise always. */
  function AutoRespondDecision(status: UserStatus, urgent: bool, allow: Option<bool>): (b: bool)
    ensures b <==> !urgent && allow != Some(false) && status != Available
  {
    if urgent then false
    else if allow.Some? && !allow.value then false
    else
      match status
      case Available => false
      case Busy => !urgent
      case Away => true
      case Sleep => true
      case Dnd => true
  }

  /** The signature post-processing of `generateAutoResponse`: `None` is a
      failing call of the language model. */
  function SignReply(generated: Option<string>): (reply: string)
    ensures generated.Some? && !Contains(generated.value, "Theia") ==> reply == generated.value + Signature
    ensures generated.Some? && Contains(generated.value, "Theia") ==> reply == Trim(generated.value)
  {
    match generated
    case None => FallbackReply
    case Some(text) => if !Contains(text, "Theia") then text + Signature else Trim(text)
  }

  lemma SignatureHasTheia()
    ensures Contains(Signature, "Theia")
  {
    assert Signature[6..11] == "Theia";
    OccursImpliesContains(Signature, "Theia", 6);
  }

  /** Every reply carries the name: the signature is appended when the text
      lacks it, trimming keeps a name that has no whitespace, and the fallback
      ends in the signature. */
  lemma SignedReplyHasTheia(generated: Option<string>)
    ensures Contains(SignReply(generated), "Theia")
  {
    SignatureHasTheia();
    match generated
    case None =>
      var head := "Thanks for your message! The person you're trying to reach is currently unavailable. They'll get back to you soon.";
      ContainsInSuffix(head, Signature, "Theia");
    case Some(text) =>
      if !Contains(text, "Theia") {
        ContainsInSuffix(text, Signature, "Theia");
      } else {
        ContainsSurvivesTrim(text, "Theia");
      }
  }

  /** The position of the most recent record addressed to `you`: the query
      of `getLastSender`, newest first, limit one. */
  function LastToYou(log: seq<RelayRecord>, you: string): (i: Option<nat>)
    ensures i.Some? ==> i.value < |log| && log[i.value].toUser == you
    ensures i.Some? ==> forall j :: i.value < j < |log| ==> log[j].toUser != you
    ensures i.None? ==> forall j :: 0 <= j < |log| ==> log[j].toUser != you
  {
    if log == [] then None
    else if log[|log| - 1].toUser == you then Some(|log| - 1)
    else
      var i := LastToYou(log[..|log| - 1], you);
      assert forall j :: 0 <= j < |log| - 1 ==> log[j] == log[..|log| - 1][j];
      i
  }

  /** The sender of that record. */
  function LastSenderIn(log: seq<RelayRecord>, you: string): (r: Option<string>)
    ensures r.Some? <==> LastToYou(log, you).Some?
    ensures r.Some? ==> r.value == log[LastToYou(log, you).value].fromUser
  {
    match LastToYou(log, you)
    case None => None
    case Some(i) => Some(log[i].fromUser)
  }

  /** A new record addressed to `you` decides the last sender; any other
      record leaves it as it was. */
  lemma LastSenderAfterAppend(log: seq<RelayRecord>, r: RelayRecord, you: string)
    ensures LastSenderIn(log + [r], you) == if r.toUser == you then Some(r.fromUser) else LastSenderIn(log, you)
  {
    assert (log + [r])[..|log|] == log;
  }

  /** What `logRelay` stores: the conversation id, or the fresh one if it is
      empty, and the store's timestamp. */
  function StoredRecord(entry: RelayRecord, freshUuid: string, now: int): (r: RelayRecord)
    ensures r.conversationId == (if entry.conversationId != "" then entry.conversationId else freshUuid)
    ensures r.createdAt == Some(now) && r.id.None?
    ensures r.(conversationId := entry.conversationId, createdAt := entry.createdAt, id := entry.id) == entry
  {
    entry.(conversationId := if entry.conversationId != "" then entry.conversationId else freshUuid,
           id := None, createdAt := Some(now))
  }

  const HourMillis: int := 60 * 60 * 1000

  class RelayManager {
    const yourPhone: string
    /** The status column of the user's row, if the row exists. */
    var statusRow: Option<string>
    /** `allow_auto_respond` of the contact preference rows. */
    var prefs: map<string, bool>
    /** The relay log, in the order records were written. */
    var relays: seq<RelayRecord>
    var reachable: bool

    constructor(yourPhone: string, statusRow: Option<string>, prefs: map<string, bool>,
                relays: seq<RelayRecord>, reachable: bool)
      ensures this.yourPhone == yourPhone && this.statusRow == statusRow && this.prefs == prefs
      ensures this.relays == relays && this.reachable == reachable
    {
      this.yourPhone := yourPhone;
      this.statusRow := statusRow;
      this.prefs := prefs;
      this.relays := relays;
      this.reachable := reachable;
    }

    /** `isFromYou`. */
    predicate IsFromYou(msg: Message) {
      msg.isFromMe || msg.sender == yourPhone
    }

    /** `getStatus`: the stored status, or `available` when the store fails,
        the row is missing or its value is not a status. */
    function GetStatus(): (s: UserStatus)
      reads this
      ensures s != Available ==> reachable && statusRow == Some(StatusName(s))
      ensures reachable && statusRow.Some? && ParseStatus(statusRow.value).Some? ==>
        s == ParseStatus(statusRow.value).value
    {
      if !reachable || statusRow.None? then Available
      else ParseStatus(statusRow.value).GetOr(Available)
    }

    /** `setStatus`: an upsert of the user's row, which throws when the
        store fails; `ok` is false exactly then. */
    method SetStatus(s: UserStatus) returns (ok: bool)
      modifies this
      ensures ok == reachable
      ensures statusRow == if ok then Some(StatusName(s)) else old(statusRow)
      ensures ok ==> GetStatus() == s
      ensures prefs == old(prefs) && relays == old(relays) && reachable == old(reachable)
    {
      ok := reachable;
      if ok {
        statusRow := Some(StatusName(s));
      }
      ParseStatusName(s);
    }

    /** The contact's preference row: `None` when there is none or the store
        fails, since the query's error leaves `prefs` null. */
    function PreferenceOf(contact: string): (allow: Option<bool>)
      reads this
      ensures allow.Some? <==> reachable && contact in prefs
    {
      if reachable && contact in prefs then Some(prefs[contact]) else None
    }

    /** `shouldAutoRespond`. */
    function ShouldAutoRespond(msg: Message): (b: bool)
      reads this
      ensures b <==> !DetectUrgency(msg.text) && PreferenceOf(msg.sender) != Some(false) && GetStatus() != Available
    {
      AutoRespondDecision(GetStatus(), DetectUrgency(msg.text), PreferenceOf(msg.sender))
    }

    /** A failing store means the status reads `available`, so no message is
        auto-answered. */
    lemma UnreachableNeverAutoResponds(msg: Message)
      requires !reachable
      ensures !ShouldAutoRespond(msg)
    {
    }

    /** `logRelay`: the record is stored when it passes the schema and the
        store accepts it; every failure is swallowed. */
    method LogRelay(entry: RelayRecord, freshUuid: string, now: int)
      modifies this
      ensures relays == if reachable && ValidRecord(StoredRecord(entry, freshUuid, now))
        then old(relays) + [StoredRecord(entry, freshUuid, now)] else old(relays)
      ensures statusRow == old(statusRow) && prefs == old(prefs) && reachable == old(reachable)
    {
      var r := StoredRecord(entry, freshUuid, now);
      if ValidRecord(r) && reachable {
        relays := relays + [r];
      }
    }

    /** `getLastSender`. */
    function GetLastSender(): (r: Option<string>)
      reads this
      ensures r.Some? <==> reachable && LastToYou(relays, yourPhone).Some?
      ensures r.Some? ==> r.value == relays[LastToYou(relays, yourPhone).value].fromUser
    {
      if !reachable then None else LastSenderIn(relays, yourPhone)
    }

    /** What `getDigest(hoursBack)` returns at time `now`. */
    function DigestAt(hoursBack: nat, now: int): string
      reads this
    {
      if !reachable then NoMessagesDigest(hoursBack)
      else DigestText(Window(relays, now - hoursBack * HourMillis), yourPhone, hoursBack)
    }

    /** `getDigest`: the tallies of the window are accumulated as the
        `reduce` does, then the lines are appended one per tally. */
    method GetDigest(hoursBack: nat, now: int) returns (digest: string)
      ensures digest == DigestAt(hoursBack, now)
    {
      if !reachable {
        return NoMessagesDigest(hoursBack);
      }
      var rs := Window(relays, now - hoursBack * HourMillis);
      if rs == [] {
        return NoMessagesDigest(hoursBack);
      }
      var ts := AccumulateTallies(rs, yourPhone);
      digest := AppendLines(DigestHeader(hoursBack) + TotalLine(|rs|), ts);
      digest := Trim(digest);
    }
  }

  /** A record addressed to the user that reaches the log becomes the last
      sender. */
  lemma LoggedSenderIsLast(rm: RelayManager, entry: RelayRecord)
    requires rm.reachable && rm.relays != [] && rm.relays[|rm.relays| - 1] == entry
    requires entry.toUser == rm.yourPhone
    ensures rm.GetLastSender() == Some(entry.fromUser)
  {
  }
}
