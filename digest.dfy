/**
 * The message digest of the relay manager (`getDigest`): the relay-log
 * records of a time window, newest first, are tallied per counterpart (the
 * recipient of what the user sent, the sender of everything else) and
 * rendered as a text summary. This module holds the specification; the
 * loops that build the digest are in `DigestBuilder`.
 */
module Digest {
  import opened Wrappers
  import opened Text
  import opened RelayTypes

  /** The per-counterpart statistics of the `reduce` accumulator. */
  datatype Tally = Tally(key: string, count: nat, urgent: nat, autoResponded: nat)

  /** The key a record is counted under. */
  function Counterpart(r: RelayRecord, you: string): string {
    if r.fromUser == you then r.toUser else r.fromUser
  }

  /** `.gte('created_at', since)`: a record without a timestamp never
      satisfies the filter. */
  predicate InWindow(r: RelayRecord, since: int) {
    r.createdAt.Some? && r.createdAt.value >= since
  }

  /** The query of the digest: the records of the window, newest first. The
      log holds records in the order they were written, so newest first is
      the reverse of that order. */
  function Window(log: seq<RelayRecord>, since: int): (w: seq<RelayRecord>)
    ensures |w| <= |log|
    ensures forall r :: r in w <==> r in log && InWindow(r, since)
    ensures forall r :: multiset(w)[r] == if InWindow(r, since) then multiset(log)[r] else 0
  {
    if log == [] then []
    else
      var last := log[|log| - 1];
      var older := Window(log[..|log| - 1], since);
      assert log == log[..|log| - 1] + [last];
      assert multiset(log) == multiset(log[..|log| - 1]) + multiset{last};
      if InWindow(last, since) then [last] + older else older
  }

  /** The records of the window in the order they were written: an
      independent reference for `Window`. */
  function Selected(log: seq<RelayRecord>, since: int): seq<RelayRecord> {
    if log == [] then []
    else (if InWindow(log[0], since) then [log[0]] else []) + Selected(log[1..], since)
  }

  function Reversed(s: seq<RelayRecord>): seq<RelayRecord> {
    if s == [] then [] else Reversed(s[1..]) + [s[0]]
  }

  /** The window lists the selected records newest first, that is, in the
      reverse of the order they were written. */
  lemma {:induction false} WindowNewestFirst(log: seq<RelayRecord>, since: int)
    ensures Window(log, since) == Reversed(Selected(log, since))
    decreases |log|
  {
    if log != [] {
      var p := log[..|log| - 1];
      var last := log[|log| - 1];
      assert log == p + [last];
      WindowNewestFirst(p, since);
      SelectedSnoc(p, last, since);
      ReversedSnoc(Selected(p, since), if InWindow(last, since) then [last] else []);
    }
  }

  lemma {:induction false} SelectedSnoc(p: seq<RelayRecord>, r: RelayRecord, since: int)
    ensures Selected(p + [r], since) == Selected(p, since) + (if InWindow(r, since) then [r] else [])
    decreases |p|
  {
    if p == [] {
      assert [] + [r] == [r];
      assert [r][1..] == [];
    } else {
      assert (p + [r])[0] == p[0];
      assert (p + [r])[1..] == p[1..] + [r];
      SelectedSnoc(p[1..], r, since);
    }
  }

  lemma {:induction false} ReversedSnoc(s: seq<RelayRecord>, t: seq<RelayRecord>)
    requires |t| <= 1
    ensures Reversed(s + t) == t + Reversed(s)
    decreases |s|
  {
    if s == [] {
      assert s + t == t;
      if t != [] {
        assert t[1..] == [];
      }
    } else {
      assert (s + t)[0] == s[0];
      assert (s + t)[1..] == s[1..] + t;
      ReversedSnoc(s[1..], t);
    }
  }

  /** The number of records counted under `key`, and how many of them are
      urgent or auto-responded: the reference the tallies are checked against. */
  function CountFor(rs: seq<RelayRecord>, you: string, key: string): nat {
    if rs == [] then 0
    else CountFor(rs[..|rs| - 1], you, key) + (if Counterpart(rs[|rs| - 1], you) == key then 1 else 0)
  }

  function UrgentFor(rs: seq<RelayRecord>, you: string, key: string): nat {
    if rs == [] then 0
    else
      var r := rs[|rs| - 1];
      UrgentFor(rs[..|rs| - 1], you, key) + (if Counterpart(r, you) == key && r.isUrgent then 1 else 0)
  }

  function AutoFor(rs: seq<RelayRecord>, you: string, key: string): nat {
    if rs == [] then 0
    else
      var r := rs[|rs| - 1];
      AutoFor(rs[..|rs| - 1], you, key) + (if Counterpart(r, you) == key && r.wasAutoResponded then 1 else 0)
  }

  /** The tally of `key` as the reference counts give it. */
  function TallyFor(rs: seq<RelayRecord>, you: string, key: string): Tally {
    Tally(key, CountFor(rs, you, key), UrgentFor(rs, you, key), AutoFor(rs, you, key))
  }

  /** Where `key` sits among the tallies, or `|ts|` if it has none yet:
      the lookup `acc[sender]`. */
  function FindKey(ts: seq<Tally>, key: string): (i: nat)
    ensures i <= |ts|
    ensures i < |ts| ==> ts[i].key == key
    ensures forall j :: 0 <= j < i ==> ts[j].key != key
  {
    if ts == [] then 0
    else if ts[0].key == key then 0
    else 1 + FindKey(ts[1..], key)
  }

  /** The counters of a tally raised for one more record. */
  function Bump(t: Tally, r: RelayRecord): Tally {
    Tally(t.key, t.count + 1,
          t.urgent + (if r.isUrgent then 1 else 0),
          t.autoResponded + (if r.wasAutoResponded then 1 else 0))
  }

  /** The properties every object literal inherits from `Object.prototype`.
      For these keys `acc[sender]` is already truthy on the `{}` the `reduce`
      starts from, so no own entry is made, the counter updates land on the
      inherited value, and `Object.entries` does not list the key. */
  const InheritedKeys: set<string> := {
    "constructor", "__proto__", "__defineGetter__", "__defineSetter__",
    "__lookupGetter__", "__lookupSetter__", "hasOwnProperty", "isPrototypeOf",
    "propertyIsEnumerable", "toLocaleString", "toString", "valueOf"
  }

  /** One step of the `reduce`: a new tally for a new key, then the counters
      of the record's tally raised; an inherited key leaves no trace. */
  function AddRecord(ts: seq<Tally>, r: RelayRecord, you: string): seq<Tally> {
    var key := Counterpart(r, you);
    if key in InheritedKeys then ts
    else
      var i := FindKey(ts, key);
      var ts' := if i == |ts| then ts + [Tally(key, 0, 0, 0)] else ts;
      ts'[i := Bump(ts'[i], r)]
  }

  /** `relays.reduce(...)`: the tallies, in the order their keys are first
      met. */
  function Tallies(rs: seq<RelayRecord>, you: string): (ts: seq<Tally>)
    ensures |ts| <= |rs|
  {
    if rs == [] then [] else AddRecord(Tallies(rs[..|rs| - 1], you), rs[|rs| - 1], you)
  }

  predicate DistinctKeys(ts: seq<Tally>) {
    forall a, b :: 0 <= a < b < |ts| ==> ts[a].key != ts[b].key
  }

  predicate HasKey(ts: seq<Tally>, key: string) {
    exists k :: 0 <= k < |ts| && ts[k].key == key
  }

  /** The number of records counted under an inherited key. */
  function InheritedCount(rs: seq<RelayRecord>, you: string): nat {
    if rs == [] then 0
    else InheritedCount(rs[..|rs| - 1], you) + (if Counterpart(rs[|rs| - 1], you) in InheritedKeys then 1 else 0)
  }

  function SumCounts(ts: seq<Tally>): nat {
    if ts == [] then 0 else SumCounts(ts[..|ts| - 1]) + ts[|ts| - 1].count
  }

  /** What one `reduce` step does to the tallies: nothing for an inherited
      key; otherwise the record's tally is at the first index with its key (a
      new last one if there is none), its counters are raised, and every other
      tally is unchanged. */
  lemma AddRecordShape(ts: seq<Tally>, r: RelayRecord, you: string) returns (i: nat)
    ensures i == FindKey(ts, Counterpart(r, you)) && i <= |ts|
    ensures Counterpart(r, you) in InheritedKeys ==> AddRecord(ts, r, you) == ts
    ensures Counterpart(r, you) !in InheritedKeys ==> var ts2 := AddRecord(ts, r, you);
      && |ts2| == (if i == |ts| then |ts| + 1 else |ts|)
      && ts2[i].key == Counterpart(r, you)
      && ts2[i].count == (if i == |ts| then 0 else ts[i].count) + 1
      && ts2[i].urgent == (if i == |ts| then 0 else ts[i].urgent) + (if r.isUrgent then 1 else 0)
      && ts2[i].autoResponded == (if i == |ts| then 0 else ts[i].autoResponded) + (if r.wasAutoResponded then 1 else 0)
      && forall k :: 0 <= k < |ts| && k != i ==> ts2[k] == ts[k]
  {
    i := FindKey(ts, Counterpart(r, you));
  }

  /** The reference counts of `rs` against those of all but its last record. */
  lemma TallyForStep(rs: seq<RelayRecord>, you: string, key: string)
    requires rs != []
    ensures var r := rs[|rs| - 1]; var p := rs[..|rs| - 1];
      TallyFor(rs, you, key) == if Counterpart(r, you) != key then TallyFor(p, you, key)
        else Tally(key, CountFor(p, you, key) + 1,
                   UrgentFor(p, you, key) + (if r.isUrgent then 1 else 0),
                   AutoFor(p, you, key) + (if r.wasAutoResponded then 1 else 0))
  {
  }

  /** A key has a tally exactly when it is not inherited and some record is
      counted under it. */
  lemma {:induction false} TalliesCover(rs: seq<RelayRecord>, you: string)
    ensures forall key :: HasKey(Tallies(rs, you), key) <==> key !in InheritedKeys && CountFor(rs, you, key) > 0
  {
    if rs != [] {
      var p := rs[..|rs| - 1];
      var r := rs[|rs| - 1];
      TalliesCover(p, you);
      var ts := Tallies(p, you);
      var ts2 := Tallies(rs, you);
      var i := AddRecordShape(ts, r, you);
      forall key ensures HasKey(ts2, key) <==> key !in InheritedKeys && CountFor(rs, you, key) > 0 {
        TallyForStep(rs, you, key);
        if Counterpart(r, you) in InheritedKeys {
          assert ts2 == ts;
        } else if key == Counterpart(r, you) {
          assert ts2[i].key == key;
        } else if key !in InheritedKeys && CountFor(p, you, key) > 0 {
          var k :| 0 <= k < |ts| && ts[k].key == key;
          assert ts2[k].key == key;
        } else {
          forall k | 0 <= k < |ts2| ensures ts2[k].key != key {
            if k != i {
              assert !(ts[k].key == key);
            }
          }
        }
      }
    }
  }

  /** No key has two tallies. */
  lemma {:induction false} TalliesDistinct(rs: seq<RelayRecord>, you: string)
    ensures DistinctKeys(Tallies(rs, you))
  {
    if rs != [] {
      var p := rs[..|rs| - 1];
      var r := rs[|rs| - 1];
      TalliesDistinct(p, you);
      var ts := Tallies(p, you);
      var i := AddRecordShape(ts, r, you);
    }
  }

  /** Every tally holds the reference counts of its key. */
  lemma {:induction false} TalliesMatch(rs: seq<RelayRecord>, you: string)
    ensures forall k :: 0 <= k < |Tallies(rs, you)| ==>
      Tallies(rs, you)[k] == TallyFor(rs, you, Tallies(rs, you)[k].key)
  {
    if rs != [] {
      var p := rs[..|rs| - 1];
      var r := rs[|rs| - 1];
      TalliesMatch(p, you);
      TalliesDistinct(p, you);
      var ts := Tallies(p, you);
      var ts2 := Tallies(rs, you);
      var i := AddRecordShape(ts, r, you);
      var key := Counterpart(r, you);
      if key in InheritedKeys {
        TalliesCover(p, you);
        forall k | 0 <= k < |ts2| ensures ts2[k] == TallyFor(rs, you, ts2[k].key) {
          assert ts2[k] == ts[k];
          assert HasKey(ts, ts[k].key);
          TallyForStep(rs, you, ts2[k].key);
        }
      } else {
        forall k | 0 <= k < |ts2| ensures ts2[k] == TallyFor(rs, you, ts2[k].key) {
          TallyForStep(rs, you, ts2[k].key);
          if k == i && i == |ts| {
            TalliesCover(p, you);
            assert !HasKey(ts, key);
            UrgentAtMostCount(p, you, key);
            AutoAtMostCount(p, you, key);
          }
        }
      }
    }
  }

  lemma {:induction false} UrgentAtMostCount(rs: seq<RelayRecord>, you: string, key: string)
    ensures UrgentFor(rs, you, key) <= CountFor(rs, you, key)
  {
    if rs != [] {
      UrgentAtMostCount(rs[..|rs| - 1], you, key);
    }
  }

  lemma {:induction false} AutoAtMostCount(rs: seq<RelayRecord>, you: string, key: string)
    ensures AutoFor(rs, you, key) <= CountFor(rs, you, key)
  {
    if rs != [] {
      AutoAtMostCount(rs[..|rs| - 1], you, key);
    }
  }

  /** The group counts and the records under inherited keys add up to the
      number of records, which is the `Total` figure. */
  lemma {:induction false} TalliesSum(rs: seq<RelayRecord>, you: string)
    ensures SumCounts(Tallies(rs, you)) + InheritedCount(rs, you) == |rs|
  {
    if rs != [] {
      var p := rs[..|rs| - 1];
      var r := rs[|rs| - 1];
      TalliesSum(p, you);
      var ts := Tallies(p, you);
      var i := AddRecordShape(ts, r, you);
      var ts2 := Tallies(rs, you);
      if Counterpart(r, you) in InheritedKeys {
      } else if i == |ts| {
        var ts' := ts + [Tally(Counterpart(r, you), 0, 0, 0)];
        assert ts'[..|ts|] == ts;
        assert ts2 == ts'[i := ts2[i]];
        SumCountsUpdate(ts', i, ts2[i]);
      } else {
        assert ts2 == ts[i := ts2[i]];
        SumCountsUpdate(ts, i, ts2[i]);
      }
    }
  }

  /** A record whose counterpart is an inherited key is in the `Total` but
      gets no line: `@constructor send: hi`, once logged, gives a digest of
      the header and `Total: 1 messages` alone. */
  lemma PrototypeNameGetsNoLine(r: RelayRecord, you: string, hoursBack: nat)
    requires r.fromUser == you && r.toUser == "constructor"
    ensures Tallies([r], you) == []
    ensures DigestText([r], you, hoursBack) == DigestHeader(hoursBack) + "Total: 1 messages"
  {
    assert [r][..0] == [];
    OnlyInheritedDigest([r], you, hoursBack);
  }

  /** Replacing the tally at `i` changes the sum by the difference of counts. */
  lemma {:induction false} SumCountsUpdate(ts: seq<Tally>, i: nat, t: Tally)
    requires i < |ts|
    ensures SumCounts(ts[i := t]) + ts[i].count == SumCounts(ts) + t.count
    decreases |ts|
  {
    var ts' := ts[i := t];
    if i < |ts| - 1 {
      assert ts'[..|ts| - 1] == ts[..|ts| - 1][i := t];
      SumCountsUpdate(ts[..|ts| - 1], i, t);
    } else {
      assert ts'[..|ts| - 1] == ts[..|ts| - 1];
    }
  }

  /** The mojibake bullet and chart icon exactly as the source spells them. */
  const Bullet: string := "\U{201A}\U{00C4}\U{00A2}"
  const ChartIcon: string := "\U{F8FF}\U{00FC}\U{00EC}\U{00E4}"

  function DigestHeader(hoursBack: nat): string {
    ChartIcon + " Message Digest (last " + NatToString(hoursBack) + " hours):\n"
  }

  /** The digest of an empty window (or of an unreachable store). */
  function NoMessagesDigest(hoursBack: nat): string {
    DigestHeader(hoursBack) + "No messages during this period."
  }

  function TotalLine(total: nat): string {
    "Total: " + NatToString(total) + " messages\n\n"
  }

  /** One line of the digest, without its newline. */
  function TallyLine(t: Tally): string {
    Bullet + " " + t.key + ": " + NatToString(t.count) + " message" + (if t.count > 1 then "s" else "")
    + (if t.urgent > 0 then " (" + NatToString(t.urgent) + " urgent)" else "")
    + (if t.autoResponded > 0 then " (" + NatToString(t.autoResponded) + " auto-responded)" else "")
  }

  function RenderTallies(ts: seq<Tally>): string {
    if ts == [] then "" else RenderTallies(ts[..|ts| - 1]) + TallyLine(ts[|ts| - 1]) + "\n"
  }

  /** `getDigest` on the records of the window, newest first: the fixed text
      for none, otherwise the trimmed header, total and one line per tally. */
  function DigestText(rs: seq<RelayRecord>, you: string, hoursBack: nat): string {
    if rs == [] then NoMessagesDigest(hoursBack)
    else Trim(DigestHeader(hoursBack) + TotalLine(|rs|) + RenderTallies(Tallies(rs, you)))
  }

  /** A tally line ends in a letter or `)`, never in whitespace. */
  lemma TallyLineEnd(t: Tally)
    ensures |TallyLine(t)| > 0 && !IsWhitespace(TallyLine(t)[|TallyLine(t)| - 1])
  {
    var l := TallyLine(t);
    var a := Bullet + " " + t.key + ": " + NatToString(t.count) + " message";
    var b := if t.count > 1 then "s" else "";
    var c := if t.urgent > 0 then " (" + NatToString(t.urgent) + " urgent)" else "";
    var d := if t.autoResponded > 0 then " (" + NatToString(t.autoResponded) + " auto-responded)" else "";
    assert l == a + b + c + d;
    LastOfConcat(a, b, c, d);
  }

  lemma LastOfConcat(a: string, b: string, c: string, d: string)
    requires a != []
    ensures (a + b + c + d)[|a + b + c + d| - 1] ==
      if d != [] then d[|d| - 1] else if c != [] then c[|c| - 1] else if b != [] then b[|b| - 1] else a[|a| - 1]
  {
  }

  /** The trim at the end of `getDigest` removes the final newline and
      nothing else: the header starts with the icon and the last line ends in
      a non-blank character. */
  lemma DigestTrimsLastNewline(rs: seq<RelayRecord>, you: string, hoursBack: nat)
    requires rs != [] && Tallies(rs, you) != []
    ensures var body := DigestHeader(hoursBack) + TotalLine(|rs|) + RenderTallies(Tallies(rs, you));
      body != [] && body[|body| - 1] == '\n' && DigestText(rs, you, hoursBack) == body[..|body| - 1]
  {
    BodyTrim(hoursBack, |rs|, Tallies(rs, you));
  }

  /** When every record of the window is under an inherited key there is no
      line at all, and the trim removes both newlines after the total. */
  lemma OnlyInheritedDigest(rs: seq<RelayRecord>, you: string, hoursBack: nat)
    requires rs != [] && Tallies(rs, you) == []
    ensures DigestText(rs, you, hoursBack) == DigestHeader(hoursBack) + "Total: " + NatToString(|rs|) + " messages"
  {
    var h := DigestHeader(hoursBack);
    assert h[0] == ChartIcon[0];
    TrimTotalOnly(h, NatToString(|rs|));
  }

  /** The trim of a header and a total line with nothing after them. */
  lemma TrimTotalOnly(h: string, n: string)
    requires h != [] && !IsWhitespace(h[0])
    ensures Trim(h + ("Total: " + n + " messages\n\n") + "") == h + "Total: " + n + " messages"
  {
    var head := h + "Total: " + n + " messages";
    assert h + ("Total: " + n + " messages\n\n") + "" == [] + head + "\n\n";
    assert head[0] == h[0];
    assert head[|head| - 1] == 's';
    TrimIgnoresSurrounding([], head, "\n\n");
    TrimOfTrimmed(head);
  }

  lemma BodyTrim(hoursBack: nat, total: nat, ts: seq<Tally>)
    requires ts != []
    ensures var body := DigestHeader(hoursBack) + TotalLine(total) + RenderTallies(ts);
      body != [] && body[|body| - 1] == '\n' && Trim(body) == body[..|body| - 1]
  {
    RenderTalliesEnd(ts);
    HeadStartsWithIcon(hoursBack, total);
    TrimJoined(DigestHeader(hoursBack) + TotalLine(total), RenderTallies(ts));
  }

  lemma TrimJoined(head: string, lines: string)
    requires head != [] && !IsWhitespace(head[0])
    requires |lines| >= 2 && lines[|lines| - 1] == '\n' && !IsWhitespace(lines[|lines| - 2])
    ensures var s := head + lines; s != [] && s[|s| - 1] == '\n' && Trim(s) == s[..|s| - 1]
  {
    JoinEnds(head, lines);
    TrimOfNewlineTerminated(head + lines);
  }

  lemma HeadStartsWithIcon(hoursBack: nat, total: nat)
    ensures var head := DigestHeader(hoursBack) + TotalLine(total); head != [] && !IsWhitespace(head[0])
  {
    assert (DigestHeader(hoursBack) + TotalLine(total))[0] == ChartIcon[0];
  }

  lemma JoinEnds(a: string, b: string)
    requires a != [] && |b| >= 2
    ensures var s := a + b; |s| >= 2 && s[0] == a[0] && s[|s| - 1] == b[|b| - 1] && s[|s| - 2] == b[|b| - 2]
  {
  }

  /** The rendering of at least one tally ends in a newline after a
      non-blank character. */
  lemma RenderTalliesEnd(ts: seq<Tally>)
    requires ts != []
    ensures var s := RenderTallies(ts); |s| >= 2 && s[|s| - 1] == '\n' && !IsWhitespace(s[|s| - 2])
  {
    var l := TallyLine(ts[|ts| - 1]);
    TallyLineEnd(ts[|ts| - 1]);
    var s := RenderTallies(ts);
    assert s == (RenderTallies(ts[..|ts| - 1]) + l) + "\n";
  }

  /** The trim of a text that starts with a non-blank character and ends in
      a newline after a non-blank one drops that newline. */
  lemma TrimOfNewlineTerminated(body: string)
    requires |body| >= 2 && body[|body| - 1] == '\n'
    requires !IsWhitespace(body[0]) && !IsWhitespace(body[|body| - 2])
    ensures Trim(body) == body[..|body| - 1]
  {
    assert LeadingWhitespace(body) == 0;
    var s := body[..|body| - 1];
    assert TrailingWhitespace(s) == 0;
    assert TrailingWhitespace(body) == 1;
  }
}
