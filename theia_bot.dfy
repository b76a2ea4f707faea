/**
 * The `new-message` handler of the relay bot: one pass over one inbound
 * event. For the user's own messages it tries `/status`, `/digest` and the
 * relay commands; for a contact's message it relays urgent messages, answers
 * automatically when the status and the preferences allow it, and forwards
 * everything else. Every branch is a short fixed sequence of sends, at most
 * one status write and at most one relay-log record.
 *
 * `Plan` says what a branch does; `Run` says what doing it changes, with the
 * failures a send or a status write can raise; `HandleNewMessage` is the
 * handler's code, proved to have exactly that effect.
 */
module TheiaBot {
  import opened Wrappers
  import opened Text
  import opened RelayTypes
  import opened RelayCommands
  import opened Urgency
  import opened Relay

  /** One `sendMessage` call that got through. */
  datatype Outgoing = Outgoing(chatGuid: string, text: string)

  /** The messaging SDK: the `n`-th send attempt (from 0) throws when `n` is
      in `failing`. */
  class Transport {
    var outbox: seq<Outgoing>
    var attempts: nat
    const failing: set<nat>

    constructor(failing: set<nat>)
      ensures outbox == [] && attempts == 0 && this.failing == failing
    {
      outbox := [];
      attempts := 0;
      this.failing := failing;
    }

    /** `sdk.messages.sendMessage`; `ok` is false when it throws. */
    method SendMessage(chatGuid: string, text: string) returns (ok: bool)
      modifies this
      ensures ok == (old(attempts) !in failing)
      ensures attempts == old(attempts) + 1
      ensures outbox == if ok then old(outbox) + [Outgoing(chatGuid, text)] else old(outbox)
    {
      ok := attempts !in failing;
      if ok {
        outbox := outbox + [Outgoing(chatGuid, text)];
      }
      attempts := attempts + 1;
    }
  }

  /** The fields of a `new-message` event the handler reads; an absent text
      is the empty one. */
  datatype NewMessage = NewMessage(
    text: string,
    /** The guids of `message.chats`. */
    chats: seq<string>,
    isFromMe: bool,
    sender: string,
    /** `message.handle?.address`. */
    handleAddress: Option<string>,
    /** `message.chatGuid`, where the auto-response goes. */
    contactChat: string)

  /** One effect of the handler. */
  datatype Action =
    | SendAction(chatGuid: string, text: string)
    | SetStatusAction(status: UserStatus)
    | LogAction(entry: RelayRecord)

  /** What can throw: a send, or the status upsert. */
  datatype Failure = SendFailed | StatusWriteFailed

  const StatusSetPrefix: string := "\U{2705} Status set to: "
  const InvalidStatusText: string := "\U{274C} Invalid status command. Use: /status [available|busy|away|sleep|dnd|check]"
  const SentToPrefix: string := "\U{2705} Sent to "
  const NoRecentText: string := "\U{274C} No recent conversation to reply to"
  const UrgentPrefix: string := "\U{1F6A8} URGENT from "
  const AutoPrefix: string := "\U{2705} Auto-responded to "
  const ForwardPrefix: string := "\U{1F4E8} From "
  const ReplyHint: string := "\n\nReply with: Reply: [your message]"
  const ErrorPrefix: string := "\U{274C} Error: "

  function YourChat(you: string): string { "any;-;" + you }

  /** `message.handle?.address || 'unknown'`. */
  function SenderOf(ev: NewMessage): string {
    if ev.handleAddress.Some? && ev.handleAddress.value != "" then ev.handleAddress.value else "unknown"
  }

  function UrgentText(sender: string, text: string): string {
    UrgentPrefix + sender + ":\n\"" + text + "\""
  }

  function AutoNotice(sender: string, text: string, reply: string): string {
    AutoPrefix + sender + ":\n\nTheir message:\n\"" + text + "\"\n\nMy response:\n\"" + reply + "\""
  }

  function ForwardText(sender: string, text: string): string {
    ForwardPrefix + sender + ":\n\"" + text + "\"" + ReplyHint
  }

  function ErrorText(f: Failure, sendError: string, storeError: string): string {
    ErrorPrefix + (match f case SendFailed => sendError case StatusWriteFailed => "Failed to update status: " + storeError)
  }

  /** The record of a manual relay by the user. */
  function ManualLog(uuid: string, you: string, to: string, message: string): RelayRecord {
    RelayRecord(None, uuid, you, to, message, Some(message), Manual, false, false, None)
  }

  /** `/status ...`, given what `getStatus` returns: the trimmed text split
      on whitespace; the second word is `check`, a status, or anything else. */
  function StatusPlan(status: UserStatus, text: string, chat: string): seq<Action> {
    var parts := SplitWhitespace(Trim(text));
    if |parts| > 1 && parts[1] == "check" then [SendAction(chat, "Current status: " + StatusName(status))]
    else if |parts| > 1 && ParseStatus(parts[1]).Some? then
      [SetStatusAction(ParseStatus(parts[1]).value), SendAction(chat, StatusSetPrefix + parts[1])]
    else [SendAction(chat, InvalidStatusText)]
  }

  /** `Reply: ...`, given what `getLastSender` returns; an empty sender is
      as good as none. */
  function ReplyPlan(you: string, last: Option<string>, message: string, chat: string, uuid: string): seq<Action> {
    if last.Some? && last.value != "" then
      [SendAction("iMessage;-;" + last.value, message), SendAction(chat, SentToPrefix + last.value),
       LogAction(ManualLog(uuid, you, last.value, message))]
    else [SendAction(chat, NoRecentText)]
  }

  /** `@target send ...`. */
  function SendPlan(you: string, target: string, message: string, chat: string, uuid: string): seq<Action> {
    [SendAction("any;-;" + target, message), SendAction(chat, SentToPrefix + target),
     LogAction(ManualLog(uuid, you, target, message))]
  }

  /** Scenario 1, a message from the user. A broadcast command, or no
      command at all, is a message to the assistant and does nothing here. */
  function OwnPlan(rm: RelayManager, text: string, chat: string, uuid: string, now: int): seq<Action>
    reads rm
  {
    if StartsWith(text, "/status") then StatusPlan(rm.GetStatus(), text, chat)
    else if StartsWith(text, "/digest") then [SendAction(chat, rm.DigestAt(2, now))]
    else
      match ParseRelayCommand(text)
      case Some(RelayCommand(Reply, _, message)) => ReplyPlan(rm.yourPhone, rm.GetLastSender(), message, chat, uuid)
      case Some(RelayCommand(Send, target, message)) => SendPlan(rm.yourPhone, target, message, chat, uuid)
      case _ => []
  }

  /** An urgent message from a contact, relayed whatever the status. */
  function UrgentPlan(you: string, sender: string, text: string, uuid: string): seq<Action> {
    var urgent := UrgentText(sender, text);
    [SendAction(YourChat(you), urgent),
     LogAction(RelayRecord(None, uuid, sender, you, text, Some(urgent), Urgent, false, true, None))]
  }

  /** An automatic answer `reply` to the contact, and a notice to the user. */
  function AutoPlan(you: string, sender: string, text: string, contactChat: string, reply: string, uuid: string)
    : seq<Action>
  {
    [SendAction(contactChat, reply), SendAction(YourChat(you), AutoNotice(sender, text, reply)),
     LogAction(RelayRecord(None, uuid, sender, sender, text, Some(reply), Auto, true, false, None))]
  }

  /** The message forwarded to the user. */
  function ForwardPlan(you: string, sender: string, text: string, uuid: string): seq<Action> {
    var forward := ForwardText(sender, text);
    [SendAction(YourChat(you), forward),
     LogAction(RelayRecord(None, uuid, sender, you, text, Some(forward), Manual, false, false, None))]
  }

  /** Scenario 2, a message from a contact. */
  function ContactPlan(rm: RelayManager, ev: NewMessage, generated: Option<string>, uuid: string): seq<Action>
    reads rm
  {
    if DetectUrgency(ev.text) then UrgentPlan(rm.yourPhone, SenderOf(ev), ev.text, uuid)
    else if rm.ShouldAutoRespond(Message(ev.text, ev.isFromMe, ev.sender)) then
      AutoPlan(rm.yourPhone, SenderOf(ev), ev.text, ev.contactChat, SignReply(generated), uuid)
    else ForwardPlan(rm.yourPhone, SenderOf(ev), ev.text, uuid)
  }

  /** The effects the handler attempts for an event, in order, given the
      store as it is when the event arrives and the text the language model
      would generate. */
  function Plan(rm: RelayManager, ev: NewMessage, generated: Option<string>, uuid: string, now: int): seq<Action>
    reads rm
  {
    if ev.text == [] || ev.chats == [] then []
    else if rm.IsFromYou(Message(ev.text, ev.isFromMe, ev.sender)) then OwnPlan(rm, ev.text, ev.chats[0], uuid, now)
    else ContactPlan(rm, ev, generated, uuid)
  }

  /** The state the handler changes: the status row and the relay log of the
      store, the sends that got through and the number of send attempts. */
  datatype World = World(statusRow: Option<string>, relays: seq<RelayRecord>, outbox: seq<Outgoing>, attempts: nat)

  /** What decides which effects fail. */
  datatype Faults = Faults(reachable: bool, failing: set<nat>)

  datatype Outcome = Outcome(world: World, failure: Option<Failure>)

  /** One effect. A log write never fails: `logRelay` swallows its errors. */
  function Step(a: Action, w: World, f: Faults, uuid: string, now: int): (o: Outcome)
    ensures o.world.attempts == w.attempts + (if a.SendAction? then 1 else 0)
  {
    match a
    case SendAction(chat, text) =>
      var ok := w.attempts !in f.failing;
      Outcome(w.(outbox := if ok then w.outbox + [Outgoing(chat, text)] else w.outbox, attempts := w.attempts + 1),
              if ok then None else Some(SendFailed))
    case SetStatusAction(s) =>
      if f.reachable then Outcome(w.(statusRow := Some(StatusName(s))), None)
      else Outcome(w, Some(StatusWriteFailed))
    case LogAction(entry) =>
      var r := StoredRecord(entry, uuid, now);
      Outcome(w.(relays := if f.reachable && ValidRecord(r) then w.relays + [r] else w.relays), None)
  }

  /** The effects of `plan` from index `i` on, up to the first that throws. */
  function Run(plan: seq<Action>, i: nat, w: World, f: Faults, uuid: string, now: int): Outcome
    requires i <= |plan|
    decreases |plan| - i
  {
    if i == |plan| then Outcome(w, None)
    else
      var o := Step(plan[i], w, f, uuid, now);
      if o.failure.Some? then o else Run(plan, i + 1, o.world, f, uuid, now)
  }

  /** The whole handler: the plan run to completion or to its first failure,
      then, after a failure, one best-effort error message to the user. */
  function Handle(plan: seq<Action>, w: World, f: Faults, you: string, uuid: string, now: int,
                  sendError: string, storeError: string): World
  {
    var o := Run(plan, 0, w, f, uuid, now);
    match o.failure
    case None => o.world
    case Some(e) => Step(SendAction(YourChat(you), ErrorText(e, sendError, storeError)), o.world, f, uuid, now).world
  }

  /** The last effect of a plan decides how it ends. */
  lemma RunLast(plan: seq<Action>, w: World, f: Faults, uuid: string, now: int)
    requires plan != []
    ensures Run(plan, |plan| - 1, w, f, uuid, now) == Step(plan[|plan| - 1], w, f, uuid, now)
  {
  }

  /** A plan of one, two or three effects, run. */
  lemma RunOne(a: Action, w: World, f: Faults, uuid: string, now: int)
    ensures Run([a], 0, w, f, uuid, now) == Step(a, w, f, uuid, now)
  {
    RunLast([a], w, f, uuid, now);
  }

  lemma RunTwo(a: Action, b: Action, w: World, f: Faults, uuid: string, now: int)
    ensures Run([a, b], 0, w, f, uuid, now) ==
      var o := Step(a, w, f, uuid, now);
      if o.failure.Some? then o else Step(b, o.world, f, uuid, now)
  {
    var o := Step(a, w, f, uuid, now);
    if o.failure.None? {
      RunLast([a, b], o.world, f, uuid, now);
    }
  }

  lemma RunThree(a: Action, b: Action, c: Action, w: World, f: Faults, uuid: string, now: int)
    ensures Run([a, b, c], 0, w, f, uuid, now) ==
      var o := Step(a, w, f, uuid, now);
      if o.failure.Some? then o else Run([b, c], 0, o.world, f, uuid, now)
  {
    var o := Step(a, w, f, uuid, now);
    if o.failure.None? {
      var o2 := Step(b, o.world, f, uuid, now);
      RunTwo(b, c, o.world, f, uuid, now);
      if o2.failure.None? {
        RunLast([a, b, c], o2.world, f, uuid, now);
      }
    }
  }

  function WorldOf(rm: RelayManager, tx: Transport): World
    reads rm, tx
  {
    World(rm.statusRow, rm.relays, tx.outbox, tx.attempts)
  }

  /** What the handler leaves behind for `ev`. */
  function Handled(rm: RelayManager, tx: Transport, ev: NewMessage, generated: Option<string>,
                   uuid: string, now: int, sendError: string, storeError: string): World
    reads rm, tx
  {
    Handle(Plan(rm, ev, generated, uuid, now), WorldOf(rm, tx), Faults(rm.reachable, tx.failing),
           rm.yourPhone, uuid, now, sendError, storeError)
  }

  // The handler's code. Each part returns the failure that would make the
  // `try` block throw, and is proved to do what running its plan does.

  /** The `/status` branch. */
  method HandleStatus(rm: RelayManager, tx: Transport, text: string, chat: string, uuid: string, now: int)
    returns (failure: Option<Failure>)
    modifies rm, tx
    ensures Outcome(WorldOf(rm, tx), failure) ==
      old(Run(StatusPlan(rm.GetStatus(), text, chat), 0, WorldOf(rm, tx), Faults(rm.reachable, tx.failing), uuid, now))
    ensures rm.prefs == old(rm.prefs) && rm.reachable == old(rm.reachable)
  {
    ghost var w0, f := WorldOf(rm, tx), Faults(rm.reachable, tx.failing);
    var parts := SplitWhitespace(Trim(text));
    if |parts| > 1 && parts[1] == "check" {
      var status := rm.GetStatus();
      RunOne(SendAction(chat, "Current status: " + StatusName(status)), w0, f, uuid, now);
      var ok := tx.SendMessage(chat, "Current status: " + StatusName(status));
      return if ok then None else Some(SendFailed);
    }
    if |parts| > 1 && ParseStatus(parts[1]).Some? {
      RunTwo(SetStatusAction(ParseStatus(parts[1]).value), SendAction(chat, StatusSetPrefix + parts[1]), w0, f, uuid, now);
      var ok := rm.SetStatus(ParseStatus(parts[1]).value);
      if !ok {
        return Some(StatusWriteFailed);
      }
      ok := tx.SendMessage(chat, StatusSetPrefix + parts[1]);
      return if ok then None else Some(SendFailed);
    }
    RunOne(SendAction(chat, InvalidStatusText), w0, f, uuid, now);
    var ok := tx.SendMessage(chat, InvalidStatusText);
    return if ok then None else Some(SendFailed);
  }

  /** The `reply` command. */
  method HandleReply(rm: RelayManager, tx: Transport, message: string, chat: string, uuid: string, now: int)
    returns (failure: Option<Failure>)
    modifies rm, tx
    ensures Outcome(WorldOf(rm, tx), failure) ==
      old(Run(ReplyPlan(rm.yourPhone, rm.GetLastSender(), message, chat, uuid), 0, WorldOf(rm, tx),
              Faults(rm.reachable, tx.failing), uuid, now))
    ensures rm.prefs == old(rm.prefs) && rm.reachable == old(rm.reachable)
  {
    ghost var w0, f := WorldOf(rm, tx), Faults(rm.reachable, tx.failing);
    var last := rm.GetLastSender();
    if last.Some? && last.value != "" {
      var entry := ManualLog(uuid, rm.yourPhone, last.value, message);
      RunThree(SendAction("iMessage;-;" + last.value, message), SendAction(chat, SentToPrefix + last.value),
               LogAction(entry), w0, f, uuid, now);
      var ok := tx.SendMessage("iMessage;-;" + last.value, message);
      if !ok {
        return Some(SendFailed);
      }
      RunTwo(SendAction(chat, SentToPrefix + last.value), LogAction(entry), WorldOf(rm, tx), f, uuid, now);
      ok := tx.SendMessage(chat, SentToPrefix + last.value);
      if !ok {
        return Some(SendFailed);
      }
      rm.LogRelay(entry, uuid, now);
      return None;
    }
    RunOne(SendAction(chat, NoRecentText), w0, f, uuid, now);
    var ok := tx.SendMessage(chat, NoRecentText);
    return if ok then None else Some(SendFailed);
  }

  /** The `send` command. */
  method HandleSend(rm: RelayManager, tx: Transport, target: string, message: string, chat: string,
                    uuid: string, now: int)
    returns (failure: Option<Failure>)
    modifies rm, tx
    ensures Outcome(WorldOf(rm, tx), failure) ==
      old(Run(SendPlan(rm.yourPhone, target, message, chat, uuid), 0, WorldOf(rm, tx),
              Faults(rm.reachable, tx.failing), uuid, now))
    ensures rm.prefs == old(rm.prefs) && rm.reachable == old(rm.reachable)
  {
    ghost var w0, f := WorldOf(rm, tx), Faults(rm.reachable, tx.failing);
    var entry := ManualLog(uuid, rm.yourPhone, target, message);
    RunThree(SendAction("any;-;" + target, message), SendAction(chat, SentToPrefix + target),
             LogAction(entry), w0, f, uuid, now);
    var ok := tx.SendMessage("any;-;" + target, message);
    if !ok {
      return Some(SendFailed);
    }
    RunTwo(SendAction(chat, SentToPrefix + target), LogAction(entry), WorldOf(rm, tx), f, uuid, now);
    ok := tx.SendMessage(chat, SentToPrefix + target);
    if !ok {
      return Some(SendFailed);
    }
    rm.LogRelay(entry, uuid, now);
    return None;
  }

  /** Scenario 1. */
  method HandleOwnMessage(rm: RelayManager, tx: Transport, text: string, chat: string, uuid: string, now: int)
    returns (failure: Option<Failure>)
    modifies rm, tx
    ensures Outcome(WorldOf(rm, tx), failure) ==
      old(Run(OwnPlan(rm, text, chat, uuid, now), 0, WorldOf(rm, tx), Faults(rm.reachable, tx.failing), uuid, now))
    ensures rm.prefs == old(rm.prefs) && rm.reachable == old(rm.reachable)
  {
    if StartsWith(text, "/status") {
      failure := HandleStatus(rm, tx, text, chat, uuid, now);
      return;
    }
    if StartsWith(text, "/digest") {
      var digest := rm.GetDigest(2, now);
      RunOne(SendAction(chat, digest), WorldOf(rm, tx), Faults(rm.reachable, tx.failing), uuid, now);
      var ok := tx.SendMessage(chat, digest);
      return if ok then None else Some(SendFailed);
    }
    var command := ParseRelayCommand(text);
    if command.Some? && command.value.kind == Reply {
      failure := HandleReply(rm, tx, command.value.message, chat, uuid, now);
      return;
    }
    if command.Some? && command.value.kind == Send {
      failure := HandleSend(rm, tx, command.value.target, command.value.message, chat, uuid, now);
      return;
    }
    return None;
  }

  /** An urgent message from a contact. */
  method HandleUrgent(rm: RelayManager, tx: Transport, sender: string, text: string, uuid: string, now: int)
    returns (failure: Option<Failure>)
    modifies rm, tx
    ensures Outcome(WorldOf(rm, tx), failure) ==
      old(Run(UrgentPlan(rm.yourPhone, sender, text, uuid), 0, WorldOf(rm, tx), Faults(rm.reachable, tx.failing), uuid, now))
    ensures rm.prefs == old(rm.prefs) && rm.reachable == old(rm.reachable)
  {
    var urgent := UrgentText(sender, text);
    var entry := RelayRecord(None, uuid, sender, rm.yourPhone, text, Some(urgent), Urgent, false, true, None);
    RunTwo(SendAction(YourChat(rm.yourPhone), urgent), LogAction(entry), WorldOf(rm, tx),
           Faults(rm.reachable, tx.failing), uuid, now);
    var ok := tx.SendMessage(YourChat(rm.yourPhone), urgent);
    if !ok {
      return Some(SendFailed);
    }
    rm.LogRelay(entry, uuid, now);
    return None;
  }

  /** The automatic answer; `reply` is what `generateAutoResponse` returns. */
  method HandleAutoResponse(rm: RelayManager, tx: Transport, sender: string, text: string, contactChat: string,
                            reply: string, uuid: string, now: int)
    returns (failure: Option<Failure>)
    modifies rm, tx
    ensures Outcome(WorldOf(rm, tx), failure) ==
      old(Run(AutoPlan(rm.yourPhone, sender, text, contactChat, reply, uuid), 0, WorldOf(rm, tx),
              Faults(rm.reachable, tx.failing), uuid, now))
    ensures rm.prefs == old(rm.prefs) && rm.reachable == old(rm.reachable)
  {
    ghost var f := Faults(rm.reachable, tx.failing);
    var notice := AutoNotice(sender, text, reply);
    var entry := RelayRecord(None, uuid, sender, sender, text, Some(reply), Auto, true, false, None);
    RunThree(SendAction(contactChat, reply), SendAction(YourChat(rm.yourPhone), notice), LogAction(entry),
             WorldOf(rm, tx), f, uuid, now);
    var ok := tx.SendMessage(contactChat, reply);
    if !ok {
      return Some(SendFailed);
    }
    RunTwo(SendAction(YourChat(rm.yourPhone), notice), LogAction(entry), WorldOf(rm, tx), f, uuid, now);
    ok := tx.SendMessage(YourChat(rm.yourPhone), notice);
    if !ok {
      return Some(SendFailed);
    }
    rm.LogRelay(entry, uuid, now);
    return None;
  }

  /** The message forwarded to the user. */
  method HandleForward(rm: RelayManager, tx: Transport, sender: string, text: string, uuid: string, now: int)
    returns (failure: Option<Failure>)
    modifies rm, tx
    ensures Outcome(WorldOf(rm, tx), failure) ==
      old(Run(ForwardPlan(rm.yourPhone, sender, text, uuid), 0, WorldOf(rm, tx), Faults(rm.reachable, tx.failing), uuid, now))
    ensures rm.prefs == old(rm.prefs) && rm.reachable == old(rm.reachable)
  {
    var forward := ForwardText(sender, text);
    var entry := RelayRecord(None, uuid, sender, rm.yourPhone, text, Some(forward), Manual, false, false, None);
    RunTwo(SendAction(YourChat(rm.yourPhone), forward), LogAction(entry), WorldOf(rm, tx),
           Faults(rm.reachable, tx.failing), uuid, now);
    var ok := tx.SendMessage(YourChat(rm.yourPhone), forward);
    if !ok {
      return Some(SendFailed);
    }
    rm.LogRelay(entry, uuid, now);
    return None;
  }

  /** Scenario 2; `generated` is what the language model answers. */
  method HandleContactMessage(rm: RelayManager, tx: Transport, ev: NewMessage, generated: Option<string>,
                              uuid: string, now: int)
    returns (failure: Option<Failure>)
    modifies rm, tx
    ensures Outcome(WorldOf(rm, tx), failure) ==
      old(Run(ContactPlan(rm, ev, generated, uuid), 0, WorldOf(rm, tx), Faults(rm.reachable, tx.failing), uuid, now))
    ensures rm.prefs == old(rm.prefs) && rm.reachable == old(rm.reachable)
  {
    var sender := SenderOf(ev);
    if DetectUrgency(ev.text) {
      failure := HandleUrgent(rm, tx, sender, ev.text, uuid, now);
      return;
    }
    if rm.ShouldAutoRespond(Message(ev.text, ev.isFromMe, ev.sender)) {
      var reply := SignReply(generated);
      failure := HandleAutoResponse(rm, tx, sender, ev.text, ev.contactChat, reply, uuid, now);
    } else {
      failure := HandleForward(rm, tx, sender, ev.text, uuid, now);
    }
  }

  /** The `new-message` handler: skip an empty text or a message without a
      chat, dispatch on who wrote it, and after a failure try once to tell
      the user, ignoring a failure of that send. */
  method HandleNewMessage(rm: RelayManager, tx: Transport, ev: NewMessage, generated: Option<string>,
                          uuid: string, now: int, sendError: string, storeError: string)
    modifies rm, tx
    ensures WorldOf(rm, tx) == old(Handled(rm, tx, ev, generated, uuid, now, sendError, storeError))
    ensures rm.prefs == old(rm.prefs) && rm.reachable == old(rm.reachable)
  {
    if ev.text == [] || ev.chats == [] {
      return;
    }
    ghost var run := Run(Plan(rm, ev, generated, uuid, now), 0, WorldOf(rm, tx), Faults(rm.reachable, tx.failing), uuid, now);
    var chat := ev.chats[0];
    var failure;
    if rm.IsFromYou(Message(ev.text, ev.isFromMe, ev.sender)) {
      failure := HandleOwnMessage(rm, tx, ev.text, chat, uuid, now);
    } else {
      failure := HandleContactMessage(rm, tx, ev, generated, uuid, now);
    }
    assert Outcome(WorldOf(rm, tx), failure) == run;
    if failure.Some? {
      var delivered := tx.SendMessage(YourChat(rm.yourPhone), ErrorText(failure.value, sendError, storeError));
    }
  }

  // What the handler does, stated against the plan and the run.

  /** Every plan has at most three effects, a status write only first and a
      log record only last. */
  predicate WellShaped(plan: seq<Action>) {
    && |plan| <= 3
    && (forall i :: 0 < i < |plan| ==> !plan[i].SetStatusAction?)
    && (forall i :: 0 <= i < |plan| - 1 ==> !plan[i].LogAction?)
  }

  /** The `/status` plan writes a status exactly when the second word is
      one, and then it writes that word. */
  lemma StatusPlanShape(status: UserStatus, text: string, chat: string)
    ensures var plan := StatusPlan(status, text, chat);
      var parts := SplitWhitespace(Trim(text));
      && WellShaped(plan) && plan != []
      && (plan[0].SetStatusAction? <==> |parts| > 1 && ParseStatus(parts[1]).Some?)
      && (plan[0].SetStatusAction? ==> StatusName(plan[0].status) == parts[1])
      && (plan[0].SetStatusAction? ==> |plan| == 2 && plan[1].SendAction? && plan[1].chatGuid == chat)
      && (!plan[0].SetStatusAction? ==> |plan| == 1 && plan[0].SendAction? && plan[0].chatGuid == chat)
  {
    var parts := SplitWhitespace(Trim(text));
    if |parts| > 1 && parts[1] == "check" {
      assert ParseStatus("check").None?;
    }
  }

  /** No status write. */
  predicate KeepsStatus(plan: seq<Action>) {
    forall i :: 0 <= i < |plan| ==> !plan[i].SetStatusAction?
  }

  lemma ReplyPlanShape(you: string, last: Option<string>, message: string, chat: string, uuid: string)
    ensures WellShaped(ReplyPlan(you, last, message, chat, uuid)) && KeepsStatus(ReplyPlan(you, last, message, chat, uuid))
  {
  }

  lemma SendPlanShape(you: string, target: string, message: string, chat: string, uuid: string)
    ensures WellShaped(SendPlan(you, target, message, chat, uuid)) && KeepsStatus(SendPlan(you, target, message, chat, uuid))
  {
  }

  lemma OwnPlanShape(rm: RelayManager, text: string, chat: string, uuid: string, now: int)
    ensures var plan := OwnPlan(rm, text, chat, uuid, now);
      var parts := SplitWhitespace(Trim(text));
      && WellShaped(plan)
      && (plan != [] && plan[0].SetStatusAction? ==>
            StartsWith(text, "/status") && |parts| > 1 && ParseStatus(parts[1]).Some?
            && StatusName(plan[0].status) == parts[1])
  {
    if StartsWith(text, "/status") {
      StatusPlanShape(rm.GetStatus(), text, chat);
    } else if !StartsWith(text, "/digest") {
      var command := ParseRelayCommand(text);
      if command.Some? {
        var cmd := command.value;
        ReplyPlanShape(rm.yourPhone, rm.GetLastSender(), cmd.message, chat, uuid);
        SendPlanShape(rm.yourPhone, cmd.target, cmd.message, chat, uuid);
      }
    }
  }

  lemma ContactPlanShape(rm: RelayManager, ev: NewMessage, generated: Option<string>, uuid: string)
    ensures var plan := ContactPlan(rm, ev, generated, uuid);
      WellShaped(plan) && KeepsStatus(plan)
  {
  }

  lemma PlanWellShaped(rm: RelayManager, ev: NewMessage, generated: Option<string>, uuid: string, now: int)
    ensures WellShaped(Plan(rm, ev, generated, uuid, now))
  {
    if ev.text != [] && ev.chats != [] {
      OwnPlanShape(rm, ev.text, ev.chats[0], uuid, now);
      ContactPlanShape(rm, ev, generated, uuid);
    }
  }

  /** An empty message, or one without a chat, is skipped. */
  lemma DroppedEventChangesNothing(rm: RelayManager, tx: Transport, ev: NewMessage, generated: Option<string>,
                                   uuid: string, now: int, sendError: string, storeError: string)
    requires ev.text == [] || ev.chats == []
    ensures Handled(rm, tx, ev, generated, uuid, now, sendError, storeError) == WorldOf(rm, tx)
  {
  }

  /** Without a status write in it, a run keeps the status row. */
  lemma {:induction false} RunKeepsStatusRow(plan: seq<Action>, i: nat, w: World, f: Faults, uuid: string, now: int)
    requires i <= |plan|
    requires forall j :: i <= j < |plan| ==> !plan[j].SetStatusAction?
    ensures Run(plan, i, w, f, uuid, now).world.statusRow == w.statusRow
    decreases |plan| - i
  {
    if i < |plan| {
      var o := Step(plan[i], w, f, uuid, now);
      if o.failure.None? {
        RunKeepsStatusRow(plan, i + 1, o.world, f, uuid, now);
      }
    }
  }

  /** The error message after a failure is a send, which keeps the row. */
  lemma HandleKeepsRunStatusRow(plan: seq<Action>, w: World, f: Faults, you: string, uuid: string, now: int,
                                sendError: string, storeError: string)
    ensures Handle(plan, w, f, you, uuid, now, sendError, storeError).statusRow ==
      Run(plan, 0, w, f, uuid, now).world.statusRow
  {
  }

  /** The status row changes only for the user's own `/status <status>`, and
      then it holds exactly the word typed. */
  lemma StatusChangesOnlyByCommand(rm: RelayManager, tx: Transport, ev: NewMessage, generated: Option<string>,
                                   uuid: string, now: int, sendError: string, storeError: string)
    ensures var after := Handled(rm, tx, ev, generated, uuid, now, sendError, storeError);
      after.statusRow == rm.statusRow ||
      (var parts := SplitWhitespace(Trim(ev.text));
       && ev.text != [] && ev.chats != []
       && rm.IsFromYou(Message(ev.text, ev.isFromMe, ev.sender))
       && StartsWith(ev.text, "/status")
       && |parts| > 1 && ParseStatus(parts[1]).Some?
       && after.statusRow == Some(parts[1]))
  {
    var plan := Plan(rm, ev, generated, uuid, now);
    var w, f := WorldOf(rm, tx), Faults(rm.reachable, tx.failing);
    HandleKeepsRunStatusRow(plan, w, f, rm.yourPhone, uuid, now, sendError, storeError);
    PlanWellShaped(rm, ev, generated, uuid, now);
    if plan != [] && plan[0].SetStatusAction? {
      if ev.text != [] && ev.chats != [] && rm.IsFromYou(Message(ev.text, ev.isFromMe, ev.sender)) {
        OwnPlanShape(rm, ev.text, ev.chats[0], uuid, now);
      } else {
        ContactPlanShape(rm, ev, generated, uuid);
      }
      var o := Step(plan[0], w, f, uuid, now);
      if o.failure.None? {
        RunKeepsStatusRow(plan, 1, o.world, f, uuid, now);
      }
    } else {
      RunKeepsStatusRow(plan, 0, w, f, uuid, now);
    }
  }

  /** A failed run stops before the log record, which comes last. */
  lemma {:induction false} FailedRunLogsNothing(plan: seq<Action>, i: nat, w: World, f: Faults, uuid: string, now: int)
    requires i <= |plan|
    requires forall j :: i <= j < |plan| - 1 ==> !plan[j].LogAction?
    ensures Run(plan, i, w, f, uuid, now).failure.Some? ==> Run(plan, i, w, f, uuid, now).world.relays == w.relays
    decreases |plan| - i
  {
    if i < |plan| {
      var o := Step(plan[i], w, f, uuid, now);
      if o.failure.None? && i + 1 < |plan| {
        FailedRunLogsNothing(plan, i + 1, o.world, f, uuid, now);
      }
    }
  }

  /** A message whose handling fails is never logged, whatever failed. */
  lemma FailedHandlingLogsNothing(rm: RelayManager, tx: Transport, ev: NewMessage, generated: Option<string>,
                                  uuid: string, now: int, sendError: string, storeError: string)
    requires Run(Plan(rm, ev, generated, uuid, now), 0, WorldOf(rm, tx), Faults(rm.reachable, tx.failing), uuid, now)
      .failure.Some?
    ensures Handled(rm, tx, ev, generated, uuid, now, sendError, storeError).relays == rm.relays
  {
    PlanWellShaped(rm, ev, generated, uuid, now);
    FailedRunLogsNothing(Plan(rm, ev, generated, uuid, now), 0, WorldOf(rm, tx), Faults(rm.reachable, tx.failing), uuid, now);
  }

  /** The message an effect sends, if it is a send. */
  function SendOf(a: Action): seq<Outgoing> {
    match a
    case SendAction(c, t) => [Outgoing(c, t)]
    case _ => []
  }

  /** The record an effect stores when the store is up. */
  function LogOf(a: Action, uuid: string, now: int): seq<RelayRecord> {
    match a
    case LogAction(e) => if ValidRecord(StoredRecord(e, uuid, now)) then [StoredRecord(e, uuid, now)] else []
    case _ => []
  }

  /** The messages a plan sends from index `i` on. */
  function SendsFrom(plan: seq<Action>, i: nat): (out: seq<Outgoing>)
    requires i <= |plan|
    ensures |out| <= |plan| - i
    decreases |plan| - i
  {
    if i == |plan| then [] else SendOf(plan[i]) + SendsFrom(plan, i + 1)
  }

  /** The records a plan stores from index `i` on. */
  function LogsFrom(plan: seq<Action>, i: nat, uuid: string, now: int): seq<RelayRecord>
    requires i <= |plan|
    decreases |plan| - i
  {
    if i == |plan| then [] else LogOf(plan[i], uuid, now) + LogsFrom(plan, i + 1, uuid, now)
  }

  /** One effect with the store up and its send (if any) going through. */
  lemma HealthyStep(a: Action, w: World, f: Faults, uuid: string, now: int)
    requires f.reachable && w.attempts !in f.failing
    ensures var o := Step(a, w, f, uuid, now);
      && o.failure.None?
      && o.world.outbox == w.outbox + SendOf(a)
      && o.world.relays == w.relays + LogOf(a, uuid, now)
  {
  }

  lemma ConcatAssoc<T>(a: seq<T>, b: seq<T>, c: seq<T>)
    ensures a + b + c == a + (b + c)
  {
  }

  /** With the store up and no send failing, a run carries out every effect
      of its plan. */
  lemma {:induction false} HealthyRun(plan: seq<Action>, i: nat, w: World, f: Faults, uuid: string, now: int)
    requires i <= |plan| && f.reachable
    requires forall n :: w.attempts <= n < w.attempts + (|plan| - i) ==> n !in f.failing
    ensures Run(plan, i, w, f, uuid, now).failure.None?
    ensures Run(plan, i, w, f, uuid, now).world.outbox == w.outbox + SendsFrom(plan, i)
    ensures Run(plan, i, w, f, uuid, now).world.relays == w.relays + LogsFrom(plan, i, uuid, now)
    decreases |plan| - i
  {
    if i < |plan| {
      HealthyStep(plan[i], w, f, uuid, now);
      var o := Step(plan[i], w, f, uuid, now);
      HealthyRun(plan, i + 1, o.world, f, uuid, now);
      ConcatAssoc(w.outbox, SendOf(plan[i]), SendsFrom(plan, i + 1));
      ConcatAssoc(w.relays, LogOf(plan[i], uuid, now), LogsFrom(plan, i + 1, uuid, now));
    }
  }

  /** The healthy handler: every message of the plan goes out, in order,
      every valid record of it is stored, and no error message is sent. */
  lemma HealthyHandling(rm: RelayManager, tx: Transport, ev: NewMessage, generated: Option<string>,
                        uuid: string, now: int, sendError: string, storeError: string)
    requires rm.reachable
    requires forall n :: tx.attempts <= n < tx.attempts + 3 ==> n !in tx.failing
    ensures var plan := Plan(rm, ev, generated, uuid, now);
      var after := Handled(rm, tx, ev, generated, uuid, now, sendError, storeError);
      after.outbox == tx.outbox + SendsFrom(plan, 0) && after.relays == rm.relays + LogsFrom(plan, 0, uuid, now)
  {
    PlanWellShaped(rm, ev, generated, uuid, now);
    HealthyRun(Plan(rm, ev, generated, uuid, now), 0, WorldOf(rm, tx), Faults(rm.reachable, tx.failing), uuid, now);
  }

  /** Whatever the status and the preferences, an urgent message from a
      contact goes to the user and is logged as urgent. */
  lemma UrgentIsAlwaysRelayed(rm: RelayManager, ev: NewMessage, generated: Option<string>, uuid: string, now: int)
    requires ev.text != [] && ev.chats != [] && !rm.IsFromYou(Message(ev.text, ev.isFromMe, ev.sender))
    requires DetectUrgency(ev.text)
    ensures Plan(rm, ev, generated, uuid, now) == UrgentPlan(rm.yourPhone, SenderOf(ev), ev.text, uuid)
    ensures Plan(rm, ev, generated, uuid, now)[0] == SendAction(YourChat(rm.yourPhone), UrgentText(SenderOf(ev), ev.text))
  {
  }

  /** A contact's message yields exactly one log record, the last effect,
      whose method says which rule applied. */
  lemma ContactMessageLoggedOnce(rm: RelayManager, ev: NewMessage, generated: Option<string>, uuid: string, now: int)
    requires ev.text != [] && ev.chats != [] && !rm.IsFromYou(Message(ev.text, ev.isFromMe, ev.sender))
    ensures var plan := Plan(rm, ev, generated, uuid, now);
      var urgent := DetectUrgency(ev.text);
      var auto := rm.ShouldAutoRespond(Message(ev.text, ev.isFromMe, ev.sender));
      && plan != [] && plan[|plan| - 1].LogAction?
      && (forall i :: 0 <= i < |plan| - 1 ==> plan[i].SendAction?)
      && plan[|plan| - 1].entry.fromUser == SenderOf(ev)
      && plan[|plan| - 1].entry.originalText == ev.text
      && plan[|plan| - 1].entry.isUrgent == urgent
      && plan[|plan| - 1].entry.wasAutoResponded == auto
      && plan[|plan| - 1].entry.relayMethod == (if urgent then Urgent else if auto then Auto else Manual)
      && plan[|plan| - 1].entry.toUser == (if auto then SenderOf(ev) else rm.yourPhone)
  {
    var auto := rm.ShouldAutoRespond(Message(ev.text, ev.isFromMe, ev.sender));
    if auto {
      assert !DetectUrgency(ev.text);
    }
  }

  /** An automatic answer always carries the assistant's name. */
  lemma AutoResponseIsSigned(rm: RelayManager, ev: NewMessage, generated: Option<string>, uuid: string, now: int)
    requires ev.text != [] && ev.chats != [] && !rm.IsFromYou(Message(ev.text, ev.isFromMe, ev.sender))
    requires rm.ShouldAutoRespond(Message(ev.text, ev.isFromMe, ev.sender))
    ensures Plan(rm, ev, generated, uuid, now)[0].SendAction?
    ensures Plan(rm, ev, generated, uuid, now)[0].chatGuid == ev.contactChat
    ensures Contains(Plan(rm, ev, generated, uuid, now)[0].text, "Theia")
  {
    SignedReplyHasTheia(generated);
  }

  /** `Reply:` goes to whoever last wrote to the user. */
  lemma ReplyGoesToLastSender(rm: RelayManager, ev: NewMessage, generated: Option<string>, uuid: string, now: int)
    requires ev.text != [] && ev.chats != [] && rm.IsFromYou(Message(ev.text, ev.isFromMe, ev.sender))
    requires !StartsWith(ev.text, "/status") && !StartsWith(ev.text, "/digest")
    requires ParseRelayCommand(ev.text).Some? && ParseRelayCommand(ev.text).value.kind == Reply
    requires rm.GetLastSender().Some? && rm.GetLastSender().value != ""
    ensures Plan(rm, ev, generated, uuid, now)[0] ==
      SendAction("iMessage;-;" + rm.GetLastSender().value, ParseRelayCommand(ev.text).value.message)
  {
  }

  /** A forwarded or urgent message, handled with the store up and the
      sends going through, makes its sender the one `Reply:` answers. */
  lemma RelayedSenderBecomesLastSender(rm: RelayManager, tx: Transport, ev: NewMessage, generated: Option<string>,
                                       uuid: string, now: int, sendError: string, storeError: string)
    requires ev.text != [] && ev.chats != [] && !rm.IsFromYou(Message(ev.text, ev.isFromMe, ev.sender))
    requires !rm.ShouldAutoRespond(Message(ev.text, ev.isFromMe, ev.sender))
    requires rm.reachable && IsUuid(uuid)
    requires forall n :: tx.attempts <= n < tx.attempts + 3 ==> n !in tx.failing
    ensures LastSenderIn(Handled(rm, tx, ev, generated, uuid, now, sendError, storeError).relays, rm.yourPhone)
      == Some(SenderOf(ev))
  {
    HealthyHandling(rm, tx, ev, generated, uuid, now, sendError, storeError);
    var plan := Plan(rm, ev, generated, uuid, now);
    var entry := plan[1].entry;
    assert |plan| == 2 && plan[1].LogAction? && entry.toUser == rm.yourPhone && entry.fromUser == SenderOf(ev);
    var r := StoredRecord(entry, uuid, now);
    assert ValidRecord(r);
    assert LogsFrom(plan, 2, uuid, now) == [];
    assert LogsFrom(plan, 0, uuid, now) == [r];
    LastSenderAfterAppend(rm.relays, r, rm.yourPhone);
  }

  /** The user's own message, kept and not yet dispatched. */
  predicate OwnEvent(rm: RelayManager, ev: NewMessage)
    reads rm
  {
    ev.text != [] && ev.chats != [] && rm.IsFromYou(Message(ev.text, ev.isFromMe, ev.sender))
  }

  /** A message of the user's that is no command is a message to the
      assistant: the handler changes nothing. */
  lemma OwnChatterChangesNothing(rm: RelayManager, tx: Transport, ev: NewMessage, generated: Option<string>,
                                 uuid: string, now: int, sendError: string, storeError: string)
    requires OwnEvent(rm, ev)
    requires !StartsWith(ev.text, "/status") && !StartsWith(ev.text, "/digest")
    requires ParseRelayCommand(ev.text).None?
    ensures Plan(rm, ev, generated, uuid, now) == []
    ensures Handled(rm, tx, ev, generated, uuid, now, sendError, storeError) == WorldOf(rm, tx)
  {
  }

  /** `Reply:` with nobody to answer sends one notice to the user's chat and
      logs nothing. */
  lemma ReplyWithoutLastSender(rm: RelayManager, tx: Transport, ev: NewMessage, generated: Option<string>,
                               uuid: string, now: int, sendError: string, storeError: string)
    requires OwnEvent(rm, ev)
    requires !StartsWith(ev.text, "/status") && !StartsWith(ev.text, "/digest")
    requires ParseRelayCommand(ev.text).Some? && ParseRelayCommand(ev.text).value.kind == Reply
    requires rm.GetLastSender().None? || rm.GetLastSender().value == ""
    ensures Plan(rm, ev, generated, uuid, now) == [SendAction(ev.chats[0], NoRecentText)]
    ensures tx.attempts !in tx.failing ==>
      Handled(rm, tx, ev, generated, uuid, now, sendError, storeError)
        == WorldOf(rm, tx).(outbox := tx.outbox + [Outgoing(ev.chats[0], NoRecentText)], attempts := tx.attempts + 1)
  {
    RunOne(SendAction(ev.chats[0], NoRecentText), WorldOf(rm, tx), Faults(rm.reachable, tx.failing), uuid, now);
  }

  /** `/digest` sends the two-hour digest to the user's chat and changes
      nothing else. */
  lemma DigestCommand(rm: RelayManager, tx: Transport, ev: NewMessage, generated: Option<string>,
                      uuid: string, now: int, sendError: string, storeError: string)
    requires OwnEvent(rm, ev) && StartsWith(ev.text, "/digest")
    ensures Plan(rm, ev, generated, uuid, now) == [SendAction(ev.chats[0], rm.DigestAt(2, now))]
    ensures tx.attempts !in tx.failing ==>
      Handled(rm, tx, ev, generated, uuid, now, sendError, storeError)
        == WorldOf(rm, tx).(outbox := tx.outbox + [Outgoing(ev.chats[0], rm.DigestAt(2, now))], attempts := tx.attempts + 1)
  {
    StartsWithDiffer(ev.text[1..], ev.text[1..7], "status");
    RunOne(SendAction(ev.chats[0], rm.DigestAt(2, now)), WorldOf(rm, tx), Faults(rm.reachable, tx.failing), uuid, now);
  }

  /** After a failure the handler makes exactly one more send attempt, the
      error message to the user's chat; whether it goes through decides only
      whether it is in the outbox. The status row and the log stay as the
      failed run left them. */
  lemma FailureReportedOnce(rm: RelayManager, tx: Transport, ev: NewMessage, generated: Option<string>,
                            uuid: string, now: int, sendError: string, storeError: string)
    requires Run(Plan(rm, ev, generated, uuid, now), 0, WorldOf(rm, tx), Faults(rm.reachable, tx.failing), uuid, now)
      .failure.Some?
    ensures var o := Run(Plan(rm, ev, generated, uuid, now), 0, WorldOf(rm, tx), Faults(rm.reachable, tx.failing), uuid, now);
      var error := Outgoing(YourChat(rm.yourPhone), ErrorText(o.failure.value, sendError, storeError));
      Handled(rm, tx, ev, generated, uuid, now, sendError, storeError)
        == o.world.(outbox := o.world.outbox + (if o.world.attempts in tx.failing then [] else [error]),
                    attempts := o.world.attempts + 1)
  {
  }

  /** `@target send: message` sends the message to the target, confirms to
      the user's chat and logs a manual relay; with the store up and both
      sends going through, all three take effect. */
  lemma SendCommand(rm: RelayManager, tx: Transport, ev: NewMessage, generated: Option<string>,
                    uuid: string, now: int, sendError: string, storeError: string, target: string, message: string)
    requires OwnEvent(rm, ev)
    requires !StartsWith(ev.text, "/status") && !StartsWith(ev.text, "/digest")
    requires ParseRelayCommand(ev.text) == Some(RelayCommand(Send, target, message))
    ensures Plan(rm, ev, generated, uuid, now) ==
      [SendAction("any;-;" + target, message), SendAction(ev.chats[0], SentToPrefix + target),
       LogAction(ManualLog(uuid, rm.yourPhone, target, message))]
  {
  }

  /** The same command handled with the store up and both sends going
      through. */
  lemma SendCommandTakesEffect(rm: RelayManager, tx: Transport, ev: NewMessage, generated: Option<string>,
                               uuid: string, now: int, sendError: string, storeError: string,
                               target: string, message: string)
    requires OwnEvent(rm, ev)
    requires !StartsWith(ev.text, "/status") && !StartsWith(ev.text, "/digest")
    requires ParseRelayCommand(ev.text) == Some(RelayCommand(Send, target, message))
    requires rm.reachable && IsUuid(uuid)
    requires forall n :: tx.attempts <= n < tx.attempts + 2 ==> n !in tx.failing
    ensures var after := Handled(rm, tx, ev, generated, uuid, now, sendError, storeError);
      && after.statusRow == rm.statusRow
      && after.outbox == tx.outbox + [Outgoing("any;-;" + target, message), Outgoing(ev.chats[0], SentToPrefix + target)]
      && after.relays == rm.relays + [StoredRecord(ManualLog(uuid, rm.yourPhone, target, message), uuid, now)]
  {
    SendCommand(rm, tx, ev, generated, uuid, now, sendError, storeError, target, message);
    ManualLogValid(uuid, rm.yourPhone, target, message, now);
    HandleSendPlan("any;-;" + target, message, ev.chats[0], SentToPrefix + target,
                   ManualLog(uuid, rm.yourPhone, target, message), Plan(rm, ev, generated, uuid, now),
                   WorldOf(rm, tx), Faults(rm.reachable, tx.failing), rm.yourPhone, uuid, now, sendError, storeError);
  }

  /** Handling two sends and a record when all of them take effect. */
  lemma HandleSendPlan(a: string, m: string, b: string, c: string, e: RelayRecord, plan: seq<Action>,
                       w: World, f: Faults, you: string, uuid: string, now: int, sendError: string, storeError: string)
    requires plan == [SendAction(a, m), SendAction(b, c), LogAction(e)]
    requires f.reachable && ValidRecord(StoredRecord(e, uuid, now))
    requires forall n :: w.attempts <= n < w.attempts + 2 ==> n !in f.failing
    ensures Handle(plan, w, f, you, uuid, now, sendError, storeError)
      == w.(outbox := w.outbox + [Outgoing(a, m), Outgoing(b, c)],
            relays := w.relays + [StoredRecord(e, uuid, now)], attempts := w.attempts + 2)
  {
    RunSendPlan(a, m, b, c, e, w, f, uuid, now);
    HandleOfRun(plan, w, f, you, uuid, now, sendError, storeError);
  }

  /** A run that does not fail is the whole handling. */
  lemma HandleOfRun(plan: seq<Action>, w: World, f: Faults, you: string, uuid: string, now: int,
                    sendError: string, storeError: string)
    requires Run(plan, 0, w, f, uuid, now).failure.None?
    ensures Handle(plan, w, f, you, uuid, now, sendError, storeError) == Run(plan, 0, w, f, uuid, now).world
  {
  }

  lemma ManualLogValid(uuid: string, you: string, to: string, message: string, now: int)
    requires IsUuid(uuid)
    ensures ValidRecord(StoredRecord(ManualLog(uuid, you, to, message), uuid, now))
  {
  }

  /** Two sends and a record, all taking effect. */
  lemma RunSendPlan(a: string, m: string, b: string, c: string, e: RelayRecord, w: World, f: Faults, uuid: string, now: int)
    requires f.reachable && ValidRecord(StoredRecord(e, uuid, now))
    requires forall n :: w.attempts <= n < w.attempts + 2 ==> n !in f.failing
    ensures Run([SendAction(a, m), SendAction(b, c), LogAction(e)], 0, w, f, uuid, now)
      == Outcome(w.(outbox := w.outbox + [Outgoing(a, m), Outgoing(b, c)],
                    relays := w.relays + [StoredRecord(e, uuid, now)], attempts := w.attempts + 2), None)
  {
    var plan := [SendAction(a, m), SendAction(b, c), LogAction(e)];
    RunThree(plan[0], plan[1], plan[2], w, f, uuid, now);
    var o := Step(plan[0], w, f, uuid, now);
    RunTwo(plan[1], plan[2], o.world, f, uuid, now);
    assert w.outbox + [Outgoing(a, m)] + [Outgoing(b, c)] == w.outbox + [Outgoing(a, m), Outgoing(b, c)];
  }
}
