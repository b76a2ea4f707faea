/**
 * The relay directive of src/relay (`RelayManager` there): the status, send
 * policy and context stored in the first row of the user status table, the
 * update-or-insert of the send policy, and the deterministic draft body built
 * from a directive and an incoming text.
 */
module Directive {
  import opened Wrappers
  import opened Text

  /** `SendPolicy`. */
  datatype SendPolicy = Draft | Yolo

  function PolicyName(p: SendPolicy): (name: string)
    ensures name == "draft" || name == "yolo"
  {
    match p
    case Draft => "draft"
    case Yolo => "yolo"
  }

  lemma PolicyNameInjective(p: SendPolicy, q: SendPolicy)
    ensures PolicyName(p) == PolicyName(q) <==> p == q
  {
  }

  /** The columns of a user status row these operations touch. */
  datatype StatusRow = StatusRow(id: Option<string>, status: Option<string>,
                                 sendPolicy: Option<string>, context: Option<string>)

  /** `RelayDirective`. The send policy is the text the row holds: the cast
      in the source checks nothing. */
  datatype RelayDirective = RelayDirective(status: Option<string>, sendPolicy: string, context: Option<string>)

  /** The error a failing store raises. */
  datatype StoreError = StoreError

  /** A JavaScript truthy string: present and not empty. */
  predicate Truthy(o: Option<string>) {
    o.Some? && o.value != ""
  }

  /** The directive the first row yields, with the defaults of a missing row
      or column: no status, the `draft` policy, no context. */
  function DirectiveOf(rows: seq<StatusRow>): (d: RelayDirective)
    ensures rows == [] ==> d == RelayDirective(None, "draft", None)
    ensures rows != [] ==> d.status == rows[0].status && d.context == rows[0].context
    ensures d.sendPolicy != "draft" ==> rows != [] && rows[0].sendPolicy == Some(d.sendPolicy)
  {
    if rows == [] then RelayDirective(None, "draft", None)
    else RelayDirective(rows[0].status, rows[0].sendPolicy.GetOr("draft"), rows[0].context)
  }

  /** The table after `setSendPolicy`: when the first row has a truthy id,
      every row carrying that id gets the policy; otherwise one row is
      inserted, with the id the store assigns and nothing else set. */
  function SetPolicyOn(rows: seq<StatusRow>, p: SendPolicy, freshId: string): seq<StatusRow>
  {
    if rows != [] && Truthy(rows[0].id) then
      seq(|rows|, j requires 0 <= j < |rows| =>
        if rows[j].id == rows[0].id then rows[j].(sendPolicy := Some(PolicyName(p))) else rows[j])
    else
      rows + [StatusRow(Some(freshId), None, Some(PolicyName(p)), None)]
  }

  /** An update changes the policy column only, and only of the rows that
      share the first row's id; the table keeps its size. */
  lemma UpdateTouchesOnlyPolicy(rows: seq<StatusRow>, p: SendPolicy, freshId: string)
    requires rows != [] && Truthy(rows[0].id)
    ensures var t := SetPolicyOn(rows, p, freshId);
      && |t| == |rows|
      && t[0] == rows[0].(sendPolicy := Some(PolicyName(p)))
      && forall j :: 0 <= j < |rows| ==>
           t[j] == (if rows[j].id == rows[0].id then rows[j].(sendPolicy := Some(PolicyName(p))) else rows[j])
  {
  }

  /** With unique ids only the first row changes. */
  lemma UpdateOnlyFirstRow(rows: seq<StatusRow>, p: SendPolicy, freshId: string)
    requires rows != [] && Truthy(rows[0].id)
    requires forall j :: 0 < j < |rows| ==> rows[j].id != rows[0].id
    ensures var t := SetPolicyOn(rows, p, freshId);
      && |t| == |rows|
      && t[0] == rows[0].(sendPolicy := Some(PolicyName(p)))
      && t[1..] == rows[1..]
  {
    var t := SetPolicyOn(rows, p, freshId);
    assert forall j :: 0 <= j < |rows| - 1 ==> t[1..][j] == t[j + 1];
  }

  /** Without a first row with a truthy id exactly one row is inserted, at
      the end, holding only the policy and the new id. */
  lemma InsertsExactlyOne(rows: seq<StatusRow>, p: SendPolicy, freshId: string)
    requires rows == [] || !Truthy(rows[0].id)
    ensures var t := SetPolicyOn(rows, p, freshId);
      && |t| == |rows| + 1
      && t[..|rows|] == rows
      && t[|rows|] == StatusRow(Some(freshId), None, Some(PolicyName(p)), None)
  {
    var t := SetPolicyOn(rows, p, freshId);
    assert t[..|rows|] == rows;
  }

  /** Reading the directive after setting the policy gives that policy and
      the status and context as they were, provided the write lands on the
      row the read returns. */
  lemma SetThenGet(rows: seq<StatusRow>, p: SendPolicy, freshId: string)
    requires rows == [] || Truthy(rows[0].id)
    ensures DirectiveOf(SetPolicyOn(rows, p, freshId)) == DirectiveOf(rows).(sendPolicy := PolicyName(p))
  {
    if rows != [] {
      UpdateTouchesOnlyPolicy(rows, p, freshId);
    }
  }

  /** When the first row has no truthy id the inserted row comes after it,
      so the read still shows the old directive. */
  lemma FalsyIdHidesWrite(rows: seq<StatusRow>, p: SendPolicy, freshId: string)
    requires rows != [] && !Truthy(rows[0].id)
    ensures DirectiveOf(SetPolicyOn(rows, p, freshId)) == DirectiveOf(rows)
  {
    InsertsExactlyOne(rows, p, freshId);
  }

  /** Setting the same policy twice is setting it once. */
  lemma SetPolicyIdempotent(rows: seq<StatusRow>, p: SendPolicy, freshId: string, freshId2: string)
    requires (rows == [] && freshId != "") || (rows != [] && Truthy(rows[0].id))
    ensures SetPolicyOn(SetPolicyOn(rows, p, freshId), p, freshId2) == SetPolicyOn(rows, p, freshId)
  {
    var t := SetPolicyOn(rows, p, freshId);
    var t2 := SetPolicyOn(t, p, freshId2);
    if rows != [] {
      UpdateTouchesOnlyPolicy(rows, p, freshId);
      UpdateTouchesOnlyPolicy(t, p, freshId2);
      assert t2 == t;
    }
  }

  /** The user status table, as the store holds it; `reachable` is false when
      every query fails. */
  class DirectiveStore {
    var rows: seq<StatusRow>
    var reachable: bool

    constructor(rows: seq<StatusRow>, reachable: bool)
      ensures this.rows == rows && this.reachable == reachable
    {
      this.rows := rows;
      this.reachable := reachable;
    }

    /** `getDirective`: the error of a failing store propagates. */
    method GetDirective() returns (r: Result<RelayDirective, StoreError>)
      ensures r.Err? <==> !reachable
      ensures r.Ok? ==> r.value == DirectiveOf(rows)
    {
      if !reachable {
        return Err(StoreError);
      }
      r := Ok(DirectiveOf(rows));
    }

    /** `setSendPolicy`; `ok` is false when it throws, and then nothing is
        written. */
    method SetSendPolicy(p: SendPolicy, freshId: string) returns (ok: bool)
      modifies this
      ensures ok == old(reachable) && reachable == old(reachable)
      ensures rows == if ok then SetPolicyOn(old(rows), p, freshId) else old(rows)
    {
      if !reachable {
        return false;
      }
      ok := true;
      if rows != [] && Truthy(rows[0].id) {
        var before, id := rows, rows[0].id;
        rows := seq(|before|, j requires 0 <= j < |before| =>
          if before[j].id == id then before[j].(sendPolicy := Some(PolicyName(p))) else before[j]);
      } else {
        rows := rows + [StatusRow(Some(freshId), None, Some(PolicyName(p)), None)];
      }
    }
  }

  /** `Context: …` when the context is truthy. */
  function ContextLine(d: RelayDirective): string {
    if Truthy(d.context) then "Context: " + d.context.value + "\n" else ""
  }

  /** `Status: …` when the status is truthy. */
  function StatusLine(d: RelayDirective): string {
    if Truthy(d.status) then "Status: " + d.status.value + "\n" else ""
  }

  /** The trimmed seed of the draft. */
  function Seed(d: RelayDirective, incomingText: string): string {
    Trim(ContextLine(d) + StatusLine(d) + "Incoming: " + incomingText)
  }

  /** A piece of `split(/\r?\n/)`, which a `\r` before its `\n` does not
      belong to. */
  function StripCR(piece: string): (r: string)
    ensures '\n' in r ==> '\n' in piece
    ensures '\r' !in piece ==> r == piece
  {
    if piece != [] && piece[|piece| - 1] == '\r' then piece[..|piece| - 1] else piece
  }

  /** `split(/\r?\n/)`: both `\n` and `\r\n` end a line. */
  function Lines(s: string): (r: seq<string>)
    ensures |r| >= 1
    ensures forall k :: 0 <= k < |r| ==> '\n' !in r[k]
    decreases |s|
  {
    var i := FirstIndexOf(s, '\n');
    if i == |s| then [s]
    else
      var head := StripCR(s[..i]);
      var tail := Lines(s[i + 1..]);
      assert forall k :: 1 <= k < |tail| + 1 ==> ([head] + tail)[k] == tail[k - 1];
      [head] + tail
  }

  /** `slice(0, n)`. */
  function Take<T>(xs: seq<T>, n: nat): (r: seq<T>)
    ensures |r| == if |xs| < n then |xs| else n
    ensures r == xs[..|r|]
  {
    if |xs| <= n then xs else xs[..n]
  }

  /** `generateDraftBodyForContact`: the first six lines of the seed, joined
      by `\n`. */
  function DraftBody(d: RelayDirective, incomingText: string): string {
    DraftOfSeed(Seed(d, incomingText))
  }

  /** `seed.split(/\r?\n/).slice(0, 6).join('\n')`. */
  function DraftOfSeed(seed: string): string {
    Join(Take(Lines(seed), 6), "\n")
  }

  /** The draft's lines are the seed's first lines, at most six of them. */
  lemma DraftLines(d: RelayDirective, incomingText: string)
    ensures var lines := Lines(Seed(d, incomingText));
      SplitOn(DraftBody(d, incomingText), '\n') == Take(lines, 6)
    ensures |SplitOn(DraftBody(d, incomingText), '\n')| <= 6
  {
    var kept := Take(Lines(Seed(d, incomingText)), 6);
    SplitJoin(kept, '\n');
  }

  /** A line break, `\n` or `\r\n`, ends a line that holds neither. */
  lemma LineBreaks(a: string, b: string)
    requires '\n' !in a && '\r' !in a
    ensures Lines(a + "\n" + b) == [a] + Lines(b)
    ensures Lines(a + "\r\n" + b) == [a] + Lines(b)
  {
    FirstIndexAfter(a, '\n', b);
    var a' := a + "\r";
    assert '\n' !in a';
    FirstIndexAfter(a', '\n', b);
    assert a + "\r\n" + b == a' + "\n" + b;
    assert (a + "\n" + b)[..|a|] == a;
    assert (a + "\n" + b)[|a| + 1..] == b;
    assert (a' + "\n" + b)[..|a'|] == a';
    assert (a' + "\n" + b)[|a'| + 1..] == b;
  }

  /** Without `\r` the lines are the pieces of a split on `\n`. */
  lemma {:induction false} LinesWithoutCR(s: string)
    requires '\r' !in s
    ensures Lines(s) == SplitOn(s, '\n')
    decreases |s|
  {
    var i := FirstIndexOf(s, '\n');
    if i < |s| {
      assert '\r' !in s[..i];
      assert '\r' !in s[i + 1..];
      LinesWithoutCR(s[i + 1..]);
    }
  }

  /** A seed of at most six lines and no `\r` is the draft itself. */
  lemma ShortSeedIsDraft(d: RelayDirective, incomingText: string)
    requires '\r' !in Seed(d, incomingText) && |SplitOn(Seed(d, incomingText), '\n')| <= 6
    ensures DraftBody(d, incomingText) == Seed(d, incomingText)
  {
    var seed := Seed(d, incomingText);
    LinesWithoutCR(seed);
    JoinSplit(seed, '\n');
  }

  /** The text the draft starts with: the context label, else the status
      label, else the incoming label. */
  function Head(d: RelayDirective): string {
    if Truthy(d.context) then "Context: "
    else if Truthy(d.status) then "Status: "
    else "Incoming:"
  }

  /** What the draft's start reveals: the head holds no line break, and its
      first character tells which label it is. */
  lemma HeadFacts(d: RelayDirective)
    ensures var h := Head(d);
      && h != [] && '\n' !in h && '\r' !in h
      && (h[0] == 'C' <==> Truthy(d.context))
      && (!Truthy(d.context) ==> (h[0] == 'S' <==> Truthy(d.status)))
  {
  }

  /** The first line starts with a prefix of the text that has no line
      break. */
  lemma FirstLineStarts(s: string, p: string)
    requires StartsWith(s, p) && '\n' !in p && '\r' !in p
    ensures StartsWith(Lines(s)[0], p)
  {
    var i := FirstIndexOf(s, '\n');
    if i < |s| {
      assert s[..i][..|p|] == p;
      if i == |p| && i > 0 {
        assert s[i - 1] == p[i - 1];
      }
    }
  }

  /** The seed starts with the head, whatever the incoming text: trimming
      stops at the colon of the incoming label. */
  lemma SeedStarts(d: RelayDirective, incomingText: string)
    ensures StartsWith(Seed(d, incomingText), Head(d))
  {
    var p := ContextLine(d) + StatusLine(d) + "Incoming:";
    assert ContextLine(d) + StatusLine(d) + "Incoming: " + incomingText == p + (" " + incomingText);
    assert StartsWith(p, Head(d));
    TrimKeepsPrefix(p, " " + incomingText);
    StartsWithTrans(Seed(d, incomingText), p, Head(d));
  }

  /** The kept lines start as the text does, for a start without line
      breaks. */
  lemma KeptLinesStart(seed: string, h: string)
    requires StartsWith(seed, h) && '\n' !in h && '\r' !in h
    ensures StartsWith(DraftOfSeed(seed), h)
  {
    FirstLineStarts(seed, h);
    var kept := Take(Lines(seed), 6);
    JoinStartsWithFirst(kept, "\n");
    StartsWithTrans(Join(kept, "\n"), kept[0], h);
  }

  lemma DraftStarts(d: RelayDirective, incomingText: string)
    ensures StartsWith(DraftBody(d, incomingText), Head(d))
  {
    SeedStarts(d, incomingText);
    HeadFacts(d);
    KeptLinesStart(Seed(d, incomingText), Head(d));
  }

  /** The draft starts with a context line exactly when the context is
      truthy. */
  lemma DraftContextIff(d: RelayDirective, incomingText: string)
    ensures StartsWith(DraftBody(d, incomingText), "Context: ") <==> Truthy(d.context)
  {
    var b := DraftBody(d, incomingText);
    DraftStarts(d, incomingText);
    HeadFacts(d);
    if !Truthy(d.context) {
      StartsWithDiffer(b, Head(d), "Context: ");
    }
  }

  /** Without a context, it starts with a status line exactly when the status
      is truthy. */
  lemma DraftStatusIff(d: RelayDirective, incomingText: string)
    requires !Truthy(d.context)
    ensures StartsWith(DraftBody(d, incomingText), "Status: ") <==> Truthy(d.status)
  {
    var b := DraftBody(d, incomingText);
    DraftStarts(d, incomingText);
    HeadFacts(d);
    if !Truthy(d.status) {
      StartsWithDiffer(b, Head(d), "Status: ");
    }
  }
}
