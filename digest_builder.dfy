/**
 * The two loops of `getDigest`: the `reduce` that accumulates the tallies
 * and the `for` loop that appends one line per tally, each proved against
 * its specification in `Digest`.
 */
module DigestBuilder {
  import opened Text
  import opened RelayTypes
  import opened Digest

  /** The `reduce` of `getDigest`: each record raises the counters of its
      counterpart's tally, which is created on first sight; a counterpart
      named after an inherited property gets no tally. */
  method AccumulateTallies(rs: seq<RelayRecord>, you: string) returns (ts: seq<Tally>)
    ensures ts == Tallies(rs, you)
  {
    ts := [];
    var i := 0;
    while i < |rs|
      invariant 0 <= i <= |rs|
      invariant ts == Tallies(rs[..i], you)
    {
      var r := rs[i];
      var key := Counterpart(r, you);
      ghost var prior := ts;
      if key !in InheritedKeys {
        ts := BumpTally(ts, r, you);
      }
      assert ts == AddRecord(prior, r, you);
      TalliesSnoc(rs, i);
      i := i + 1;
    }
    assert rs[..|rs|] == rs;
  }

  /** One step of the `reduce` for a counterpart that is an own key: its
      tally is created at the end on first sight, then its counters raised. */
  method BumpTally(ts0: seq<Tally>, r: RelayRecord, you: string) returns (ts: seq<Tally>)
    requires Counterpart(r, you) !in InheritedKeys
    ensures ts == AddRecord(ts0, r, you)
  {
    var key := Counterpart(r, you);
    ts := ts0;
    var j := FindKey(ts, key);
    if j == |ts| {
      ts := ts + [Tally(key, 0, 0, 0)];
    }
    AddRecordUnfold(ts0, r, you, j, ts);
    var t := ts[j];
    t := t.(count := t.count + 1);
    if r.isUrgent {
      t := t.(urgent := t.urgent + 1);
    }
    if r.wasAutoResponded {
      t := t.(autoResponded := t.autoResponded + 1);
    }
    ts := ts[j := t];
  }

  /** The `for` loop of `getDigest`: one line per tally appended to `head`. */
  method AppendLines(head: string, ts: seq<Tally>) returns (digest: string)
    ensures digest == head + RenderTallies(ts)
  {
    digest := head;
    var k := 0;
    while k < |ts|
      invariant 0 <= k <= |ts|
      invariant digest == head + RenderTallies(ts[..k])
    {
      var t := ts[k];
      var line := Bullet + " " + t.key + ": " + NatToString(t.count) + " message" + (if t.count > 1 then "s" else "");
      ghost var base := line;
      if t.urgent > 0 {
        line := line + " (" + NatToString(t.urgent) + " urgent)";
      }
      ghost var withUrgent := line;
      if t.autoResponded > 0 {
        line := line + " (" + NatToString(t.autoResponded) + " auto-responded)";
      }
      LineParts(t, base, withUrgent, line);
      RenderStep(head, ts, k);
      digest := digest + line + "\n";
      k := k + 1;
    }
    assert ts[..|ts|] == ts;
  }

  lemma TalliesSnoc(rs: seq<RelayRecord>, i: nat)
    requires i < |rs|
    ensures forall you :: Tallies(rs[..i + 1], you) == AddRecord(Tallies(rs[..i], you), rs[i], you)
  {
    assert rs[..i + 1][..i] == rs[..i];
  }

  lemma AddRecordUnfold(ts: seq<Tally>, r: RelayRecord, you: string, j: nat, ts1: seq<Tally>)
    requires Counterpart(r, you) !in InheritedKeys && j == FindKey(ts, Counterpart(r, you))
    requires ts1 == if j == |ts| then ts + [Tally(Counterpart(r, you), 0, 0, 0)] else ts
    ensures j < |ts1| && AddRecord(ts, r, you) == ts1[j := Bump(ts1[j], r)]
  {
  }

  lemma LineParts(t: Tally, base: string, withUrgent: string, line: string)
    requires base == Bullet + " " + t.key + ": " + NatToString(t.count) + " message" + (if t.count > 1 then "s" else "")
    requires withUrgent == if t.urgent > 0 then base + " (" + NatToString(t.urgent) + " urgent)" else base
    requires line == if t.autoResponded > 0 then withUrgent + " (" + NatToString(t.autoResponded) + " auto-responded)" else withUrgent
    ensures line == TallyLine(t)
  {
  }

  lemma RenderStep(head: string, ts: seq<Tally>, k: nat)
    requires k < |ts|
    ensures head + RenderTallies(ts[..k + 1]) == head + RenderTallies(ts[..k]) + TallyLine(ts[k]) + "\n"
  {
    RenderSnoc(ts, k);
    Assoc(head, RenderTallies(ts[..k]), TallyLine(ts[k]) + "\n");
    Assoc(head + RenderTallies(ts[..k]), TallyLine(ts[k]), "\n");
  }

  lemma RenderSnoc(ts: seq<Tally>, k: nat)
    requires k < |ts|
    ensures RenderTallies(ts[..k + 1]) == RenderTallies(ts[..k]) + (TallyLine(ts[k]) + "\n")
  {
    var p := ts[..k + 1];
    assert p[..k] == ts[..k] && p[k] == ts[k];
  }

  lemma Assoc(a: string, b: string, c: string)
    ensures a + (b + c) == a + b + c
  {
  }
}
