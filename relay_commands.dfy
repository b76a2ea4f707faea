/**
 * The relay-command parser of the relay manager (`parseRelayCommand`): the
 * user's own message `@<target> send: <message>` sends to a target, and
 * `reply: <message>` answers the last sender. Both patterns are anchored
 * regular expressions with the `i` and `s` flags; the scanning functions
 * below follow what those expressions match, including their backtracking.
 */
module RelayCommands {
  import opened Wrappers
  import opened Text
  import opened RelayTypes

  /** The regular expression flag `i` on an all-lower-case literal: `s`
      equals `lit` once its ASCII letters are lower-cased. */
  predicate MatchesIgnoringCase(s: string, lit: string) {
    |s| == |lit| && forall k :: 0 <= k < |s| ==> LowerChar(s[k]) == lit[k]
  }

  /** `[\w\+\-]`. */
  predicate IsTargetChar(c: char) { IsWordChar(c) || c == '+' || c == '-' }

  predicate AllTargetChars(s: string) {
    forall k :: 0 <= k < |s| ==> IsTargetChar(s[k])
  }

  /** The length of the longest prefix of target characters. */
  function TargetRun(s: string): (n: nat)
    ensures n <= |s| && AllTargetChars(s[..n])
    ensures n < |s| ==> !IsTargetChar(s[n])
  {
    if s != [] && IsTargetChar(s[0]) then
      var n := 1 + TargetRun(s[1..]);
      assert s[..n] == [s[0]] + s[1..][..n - 1];
      n
    else 0
  }

  /** What the tail `\s*(.+)$` captures of a string, with the `s` flag:
      the greedy `\s*` gives back one character when nothing else is left. */
  function TailCapture(rest: string): (g: Option<string>)
    ensures g.Some? <==> rest != []
  {
    if rest == [] then None
    else
      var w := LeadingWhitespace(rest);
      if w == |rest| then Some(rest[|rest| - 1..]) else Some(rest[w..])
  }

  /** Trimming the capture of `\s*(.+)` gives the trimmed tail. */
  lemma TailCaptureTrim(rest: string)
    requires rest != []
    ensures Trim(TailCapture(rest).value) == Trim(rest)
  {
    var w := LeadingWhitespace(rest);
    if w == |rest| {
      var last := rest[|rest| - 1..];
      assert LeadingWhitespace(last) == 1;
    } else {
      var t := rest[w..];
      assert LeadingWhitespace(t) == 0;
      assert TrimStart(t) == t;
    }
  }

  lemma {:induction false} LeadingWhitespaceOf(w: string, u: string)
    requires AllWhitespace(w)
    requires u == [] || !IsWhitespace(u[0])
    ensures LeadingWhitespace(w + u) == |w|
    decreases |w|
  {
    if w != [] {
      assert (w + u)[1..] == w[1..] + u;
      LeadingWhitespaceOf(w[1..], u);
    }
  }

  /** `/^@([\w\+\-]+)\s+send:\s*(.+)$/is`: the two captures, if it matches.
      Neither `+` can give characters back: the character after the target
      run is not whitespace, and the one after the whitespace run is not
      whitespace either. */
  function MatchSend(text: string): Option<(string, string)> {
    if text == [] || text[0] != '@' then None
    else
      var t := TargetRun(text[1..]);
      if t == 0 then None else MatchAfterTarget(text[1..1 + t], text[1 + t..])
  }

  /** `\s+send:\s*(.+)$` after the target capture. */
  function MatchAfterTarget(target: string, u: string): Option<(string, string)> {
    var w := LeadingWhitespace(u);
    if w == 0 then None else MatchKeyword(target, u[w..])
  }

  /** `send:\s*(.+)$`, the keyword in any case. */
  function MatchKeyword(target: string, v: string): Option<(string, string)> {
    if |v| < 5 || !MatchesIgnoringCase(v[..5], "send:") then None
    else
      var g := TailCapture(v[5..]);
      if g.None? then None else Some((target, g.value))
  }

  /** `/^reply:\s*(.+)$/is`: the capture, if it matches. */
  function MatchReply(text: string): Option<string> {
    if |text| < 6 || !MatchesIgnoringCase(text[..6], "reply:") then None
    else TailCapture(text[6..])
  }

  /** `parseRelayCommand`: the send form is tried first, then the reply form;
      both captures are trimmed. The parser never yields `broadcast`. */
  function ParseRelayCommand(text: string): (r: Option<RelayCommand>)
    ensures r.Some? ==> r.value.kind != Broadcast
    ensures r.Some? && r.value.kind == Reply ==> r.value.target == ""
  {
    if text == [] then None
    else
      match MatchSend(text)
      case Some((target, message)) => Some(RelayCommand(Send, Trim(target), Trim(message)))
      case None =>
        match MatchReply(text)
        case Some(message) => Some(RelayCommand(Reply, "", Trim(message)))
        case None => None
  }

  /** A text of the shape `@<target><whitespace>send:<rest>`, with a
      non-empty target, non-empty whitespace, the keyword in any case and a
      non-empty rest. */
  ghost predicate SendShape(text: string, target: string, space: string, keyword: string, rest: string) {
    && text == "@" + target + space + keyword + rest
    && target != [] && AllTargetChars(target)
    && space != [] && AllWhitespace(space)
    && |keyword| == 5 && MatchesIgnoringCase(keyword, "send:")
    && rest != []
  }

  lemma {:induction false} TargetRunOf(t: string, u: string)
    requires AllTargetChars(t)
    requires u == [] || !IsTargetChar(u[0])
    ensures TargetRun(t + u) == |t|
    decreases |t|
  {
    if t != [] {
      assert (t + u)[1..] == t[1..] + u;
      TargetRunOf(t[1..], u);
    }
  }

  /** Every text of the send shape parses to `send(target, trim(rest))`. */
  lemma SendShapeParses(text: string, target: string, space: string, keyword: string, rest: string)
    requires SendShape(text, target, space, keyword, rest)
    ensures ParseRelayCommand(text) == Some(RelayCommand(Send, target, Trim(rest)))
  {
    MatchSendOfShape(text, target, space, keyword, rest);
    TailCaptureTrim(rest);
    TargetHasNoWhitespace(target);
    TrimOfTrimmed(target);
  }

  lemma MatchSendOfShape(text: string, target: string, space: string, keyword: string, rest: string)
    requires SendShape(text, target, space, keyword, rest)
    ensures MatchSend(text) == Some((target, TailCapture(rest).value))
  {
    var u := space + keyword + rest;
    assert text[1..] == target + u;
    assert u[0] == space[0];
    TargetRunOf(target, u);
    assert text[1..1 + |target|] == target;
    assert text[1 + |target|..] == u;
    MatchAfterTargetOf(target, space, keyword, rest);
  }

  lemma MatchAfterTargetOf(target: string, space: string, keyword: string, rest: string)
    requires space != [] && AllWhitespace(space)
    requires |keyword| == 5 && MatchesIgnoringCase(keyword, "send:") && rest != []
    ensures MatchAfterTarget(target, space + keyword + rest) == Some((target, TailCapture(rest).value))
  {
    var v := keyword + rest;
    assert keyword[0] == 's' || keyword[0] == 'S' by {
      assert LowerChar(keyword[0]) == 's';
    }
    assert space + keyword + rest == space + v;
    LeadingWhitespaceOf(space, v);
    assert (space + v)[|space|..] == v;
    assert v[..5] == keyword;
    assert v[5..] == rest;
  }

  lemma TargetHasNoWhitespace(t: string)
    requires AllTargetChars(t)
    ensures t == [] || (!IsWhitespace(t[0]) && !IsWhitespace(t[|t| - 1]))
  {
  }

  /** Every send command the parser yields comes from a text of the send
      shape; the lemma returns the pieces. */
  lemma SendParsesFromShape(text: string) returns (space: string, keyword: string, rest: string)
    requires ParseRelayCommand(text).Some? && ParseRelayCommand(text).value.kind == Send
    ensures SendShape(text, ParseRelayCommand(text).value.target, space, keyword, rest)
    ensures ParseRelayCommand(text).value.message == Trim(rest)
  {
    var m := ParseSendMatch(text);
    var target;
    target, space, keyword, rest := SendShapeOfMatch(text);
    TailCaptureTrim(rest);
    TargetHasNoWhitespace(target);
    TrimOfTrimmed(target);
  }

  lemma ParseSendMatch(text: string) returns (m: (string, string))
    requires ParseRelayCommand(text).Some? && ParseRelayCommand(text).value.kind == Send
    ensures MatchSend(text) == Some(m)
    ensures ParseRelayCommand(text).value == RelayCommand(Send, Trim(m.0), Trim(m.1))
  {
    m := MatchSend(text).value;
  }

  lemma SendShapeOfMatch(text: string) returns (target: string, space: string, keyword: string, rest: string)
    requires MatchSend(text).Some?
    ensures SendShape(text, target, space, keyword, rest)
    ensures MatchSend(text) == Some((target, TailCapture(rest).value))
  {
    var u;
    target, u := MatchSendPieces(text);
    space, keyword, rest := MatchAfterTargetPieces(target, u);
    Regroup("@", target, space, keyword, rest);
  }

  /** The target capture of a successful send match and what follows it. */
  lemma MatchSendPieces(text: string) returns (target: string, u: string)
    requires MatchSend(text).Some?
    ensures text == "@" + (target + u)
    ensures target != [] && AllTargetChars(target)
    ensures MatchSend(text) == MatchAfterTarget(target, u)
  {
    var t := TargetRun(text[1..]);
    target, u := text[1..1 + t], text[1 + t..];
    assert text[1..][..t] == target;
    assert text[1..] == target + u;
    assert text == "@" + text[1..];
  }

  /** The pieces a successful `\s+send:\s*(.+)$` match splits its input into. */
  lemma MatchAfterTargetPieces(target: string, u: string) returns (space: string, keyword: string, rest: string)
    requires MatchAfterTarget(target, u).Some?
    ensures u == space + (keyword + rest)
    ensures space != [] && AllWhitespace(space)
    ensures |keyword| == 5 && MatchesIgnoringCase(keyword, "send:") && rest != []
    ensures MatchAfterTarget(target, u) == Some((target, TailCapture(rest).value))
  {
    var w := LeadingWhitespace(u);
    space := u[..w];
    var v := u[w..];
    assert u == space + v;
    keyword, rest := v[..5], v[5..];
    assert v == keyword + rest;
  }

  lemma Regroup(a: string, b: string, c: string, d: string, e: string)
    ensures a + (b + (c + (d + e))) == a + b + c + d + e
  {
  }

  /** A text `reply:<rest>` with the keyword in any case and a non-empty
      rest parses to `reply('', trim(rest))`. */
  lemma ReplyShapeParses(text: string, keyword: string, rest: string)
    requires text == keyword + rest && |keyword| == 6 && MatchesIgnoringCase(keyword, "reply:")
    requires rest != []
    ensures ParseRelayCommand(text) == Some(RelayCommand(Reply, "", Trim(rest)))
  {
    assert LowerChar(keyword[0]) == 'r';
    assert text[0] == keyword[0];
    assert text[..6] == keyword && text[6..] == rest;
    TailCaptureTrim(rest);
  }

  /** Every reply command the parser yields comes from `reply:<rest>`. */
  lemma ReplyParsesFromShape(text: string) returns (keyword: string, rest: string)
    requires ParseRelayCommand(text).Some? && ParseRelayCommand(text).value.kind == Reply
    ensures text == keyword + rest && |keyword| == 6 && MatchesIgnoringCase(keyword, "reply:") && rest != []
    ensures ParseRelayCommand(text).value.message == Trim(rest)
  {
    keyword, rest := text[..6], text[6..];
    TailCaptureTrim(rest);
  }

  /** Text that has neither shape is not a command. In particular `/status`
      and `/digest` are not parsed here. */
  lemma SlashIsNoCommand(text: string)
    requires text != [] && text[0] == '/'
    ensures ParseRelayCommand(text) == None
  {
    if |text| >= 6 {
      assert LowerChar(text[..6][0]) == '/';
    }
  }

  lemma ExampleSend()
    ensures ParseRelayCommand("@henry Send: call me") == Some(RelayCommand(Send, "henry", "call me"))
  {
    ExampleSendShape();
    SendShapeParses("@henry Send: call me", "henry", " ", "Send:", " call me");
    ExampleTrim();
  }

  lemma ExampleSendShape()
    ensures SendShape("@henry Send: call me", "henry", " ", "Send:", " call me")
  {
    assert "@henry Send: call me" == "@" + "henry" + " " + "Send:" + " call me";
    assert AllTargetChars("henry");
    assert AllWhitespace(" ");
    assert MatchesIgnoringCase("Send:", "send:");
  }

  lemma ExampleTrim()
    ensures Trim(" call me") == "call me"
  {
    assert LeadingWhitespace(" call me") == 1;
    assert TrailingWhitespace("call me") == 0;
  }
}
