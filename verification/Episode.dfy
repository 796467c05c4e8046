/** Episodes stored as flat memory records, and read back. */
module Episode {
  import opened Wrappers
  import Decimal

  datatype EpisodeRecord = EpisodeRecord(
    episodeId: string, runId: string, taskSummary: string, outcome: string,
    keyDecisions: seq<string>, errorMessages: seq<string>, stepCount: int, recordedAt: string)

  datatype MemoryRecord = MemoryRecord(
    memoryId: string, namespace: string, key: string, memoryType: string, content: string,
    importance: real, updatedAt: string, metadata: map<string, string>)

  const BAR := '|'

  function Join(parts: seq<string>): string {
    if parts == [] then ""
    else if |parts| == 1 then parts[0]
    else parts[0] + [BAR] + Join(parts[1..])
  }

  /** `text.split("|")`: always at least one part. */
  function Split(text: string): (parts: seq<string>)
    ensures parts != []
  {
    if text == "" then [""]
    else
      var rest := Split(text[1..]);
      if text[0] == BAR then [""] + rest else [[text[0]] + rest[0]] + rest[1..]
  }

  predicate BarFree(part: string) { '|' !in part }

  predicate AllBarFree(parts: seq<string>) { forall i :: 0 <= i < |parts| ==> BarFree(parts[i]) }

  function Importance(errors: nat): real {
    var i := 1.0 - errors as real * 0.2;
    if i > 0.1 then i else 0.1
  }

  /** `now` is the timestamp given to the new record. */
  function ToMemoryRecord(e: EpisodeRecord, namespace: string, now: string): MemoryRecord {
    MemoryRecord(
      e.episodeId, namespace, "episode_" + e.runId, "episodic", e.taskSummary, Importance(|e.errorMessages|), now,
      map["episode_id" := e.episodeId,
          "run_id" := e.runId,
          "outcome" := e.outcome,
          "step_count" := Decimal.PrintInt(e.stepCount),
          "decisions" := Join(e.keyDecisions),
          "errors" := Join(e.errorMessages)])
  }

  function Field(m: map<string, string>, key: string, fallback: string): string {
    if key in m then m[key] else fallback
  }

  function Parts(text: string): seq<string> { if text == "" then [] else Split(text) }

  /** `None` when the stored step count is not a number. */
  function FromMemoryRecord(r: MemoryRecord): Option<EpisodeRecord> {
    var m := r.metadata;
    match Decimal.ParseInt(Field(m, "step_count", "0"))
    case None => None
    case Some(steps) =>
      Some(EpisodeRecord(
        Field(m, "episode_id", r.memoryId), Field(m, "run_id", ""), r.content, Field(m, "outcome", "unknown"),
        Parts(Field(m, "decisions", "")), Parts(Field(m, "errors", "")), steps, r.updatedAt))
  }

  lemma {:induction false} SplitIsBarFree(text: string)
    ensures AllBarFree(Split(text))
  {
    if text != "" {
      SplitIsBarFree(text[1..]);
    }
  }

  lemma {:induction false} SplitAfterPart(part: string, rest: string)
    requires BarFree(part)
    ensures Split(part + [BAR] + rest) == [part] + Split(rest)
  {
    var text := part + [BAR] + rest;
    if part == "" {
      assert text[1..] == rest;
    } else {
      assert text[1..] == part[1..] + [BAR] + rest;
      SplitAfterPart(part[1..], rest);
      assert [part[0]] + part[1..] == part && part[0] in part;
      assert ([part[1..]] + Split(rest))[1..] == Split(rest);
    }
  }

  lemma {:induction false} SplitOnePart(part: string)
    requires BarFree(part)
    ensures Split(part) == [part]
  {
    if part != "" {
      SplitOnePart(part[1..]);
      assert [part[0]] + part[1..] == part;
    }
  }

  lemma {:induction false} SplitJoin(parts: seq<string>)
    requires parts != [] && AllBarFree(parts)
    ensures Split(Join(parts)) == parts
    decreases |parts|
  {
    if |parts| == 1 {
      SplitOnePart(parts[0]);
    } else {
      SplitJoin(parts[1..]);
      SplitAfterPart(parts[0], Join(parts[1..]));
    }
  }

  lemma JoinEmpty(parts: seq<string>)
    ensures Join(parts) == "" <==> parts == [] || parts == [""]
  {
  }

  /** A list survives exactly when it is not one empty string and no element contains the separator. */
  lemma PartsRoundTrip(parts: seq<string>)
    ensures Parts(Join(parts)) == parts <==> parts != [""] && AllBarFree(parts)
  {
    JoinEmpty(parts);
    SplitIsBarFree(Join(parts));
    if parts != [] && AllBarFree(parts) {
      SplitJoin(parts);
    }
  }

  /** A record that was not stored as an episode reads back as one of unknown outcome, without run, lists or steps. */
  lemma PlainRecordReadsBack(r: MemoryRecord)
    requires r.metadata == map[]
    ensures FromMemoryRecord(r) == Some(EpisodeRecord(r.memoryId, "", r.content, "unknown", [], [], 0, r.updatedAt))
  {
    Decimal.PrintParse(0);
    assert Decimal.PrintInt(0) == "0";
  }

  /** Reading back fails exactly on a stored step count that is no number. */
  lemma ReadingFailsExactly(r: MemoryRecord)
    ensures FromMemoryRecord(r) == None <==>
            "step_count" in r.metadata && Decimal.ParseInt(r.metadata["step_count"]) == None
  {
    Decimal.PrintParse(0);
    assert Decimal.PrintInt(0) == "0";
  }

  /** Each of the first four errors costs a fifth; from the fifth on an episode keeps a tenth. */
  lemma ImportanceFalls(errors: nat)
    ensures errors <= 4 ==> Importance(errors) == 1.0 - 0.2 * errors as real
    ensures errors >= 5 ==> Importance(errors) == 0.1
    ensures 0.1 <= Importance(errors + 1) <= Importance(errors) <= 1.0
  {
  }

  /** How an episode is filed: under its run, as episodic, in the namespace asked for. */
  lemma FiledUnderItsRun(e: EpisodeRecord, other: EpisodeRecord, namespace: string, now: string)
    ensures var r := ToMemoryRecord(e, namespace, now);
      && r.memoryType == "episodic" && r.namespace == namespace && r.memoryId == e.episodeId
      && r.key == "episode_" + e.runId
      && (r.key == ToMemoryRecord(other, namespace, now).key <==> e.runId == other.runId)
  {
    var a, b := "episode_" + e.runId, "episode_" + other.runId;
    assert a[8..] == e.runId && b[8..] == other.runId;
  }

  /**
   * Reading back a stored episode always succeeds, stamps it with the record's time, and restores every
   * other field exactly when both string lists survive.
   */
  lemma EpisodeRoundTrip(e: EpisodeRecord, namespace: string, now: string)
    ensures var back := FromMemoryRecord(ToMemoryRecord(e, namespace, now));
      && back.Some?
      && (back.value == e.(recordedAt := now) <==>
            e.keyDecisions != [""] && AllBarFree(e.keyDecisions) && e.errorMessages != [""]
              && AllBarFree(e.errorMessages))
  {
    Decimal.PrintParse(e.stepCount);
    PartsRoundTrip(e.keyDecisions);
    PartsRoundTrip(e.errorMessages);
  }
}
