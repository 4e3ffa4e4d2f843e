// The fixed discipline log and its queries (src/data/discipline.ts).

module Discipline {
  import opened Common
  import opened Sorting

  datatype DisciplineRecord = DisciplineRecord(
    studentId: string,
    date: string,
    infraction: string,
    action: string,
    location: string)

  const R01: DisciplineRecord := DisciplineRecord("STU009", "10/15/2024", "Disruptive behavior", "Verbal warning", "Classroom")
  const R02: DisciplineRecord := DisciplineRecord("STU009", "01/22/2025", "Verbal altercation", "Parent contact", "Cafeteria")
  const R03: DisciplineRecord := DisciplineRecord("STU013", "09/28/2024", "Horseplay", "Verbal warning", "Playground")
  const R04: DisciplineRecord := DisciplineRecord("STU013", "11/14/2024", "Disruptive behavior", "Lunch detention", "Classroom")
  const R05: DisciplineRecord := DisciplineRecord("STU013", "02/05/2025", "Verbal altercation", "Office referral", "Hallway")
  const R06: DisciplineRecord := DisciplineRecord("STU018", "10/03/2024", "Tardy to class", "Verbal warning", "Classroom")
  const R07: DisciplineRecord := DisciplineRecord("STU018", "12/11/2024", "Disruptive behavior", "Parent contact", "Classroom")
  const R08: DisciplineRecord := DisciplineRecord("STU019", "09/19/2024", "Tardy to class", "Verbal warning", "Classroom")
  const R09: DisciplineRecord := DisciplineRecord("STU019", "11/07/2024", "Disruptive behavior", "Lunch detention", "Cafeteria")
  const R10: DisciplineRecord := DisciplineRecord("STU019", "01/30/2025", "Verbal altercation", "After-school detention", "Hallway")
  const R11: DisciplineRecord := DisciplineRecord("STU024", "10/22/2024", "Cell phone use", "Parent contact", "Classroom")
  const R12: DisciplineRecord := DisciplineRecord("STU024", "03/04/2025", "Dress code violation", "Verbal warning", "Hallway")
  const R13: DisciplineRecord := DisciplineRecord("STU029", "11/20/2024", "Horseplay", "Lunch detention", "Playground")
  const R14: DisciplineRecord := DisciplineRecord("STU029", "02/12/2025", "Disruptive behavior", "Office referral", "Classroom")

  /** The 14 demo records, grouped by student. */
  const DisciplineRecords: seq<DisciplineRecord> := [
    R01, R02, R03, R04, R05, R06,
    R07, R08, R09, R10, R11, R12, R13, R14
  ]

  function OwnerTest(studentId: string): DisciplineRecord -> bool
  {
    (r: DisciplineRecord) => r.studentId == studentId
  }

  /** `getStudentDiscipline`: the records carrying that id, in log order. */
  function GetStudentDiscipline(records: seq<DisciplineRecord>, studentId: string): (r: seq<DisciplineRecord>)
    ensures IsSubseq(r, records)
    ensures forall i :: 0 <= i < |r| ==> r[i].studentId == studentId
    ensures forall i :: 0 <= i < |records| && records[i].studentId == studentId ==> records[i] in r
  {
    FilterIsSubseq(records, OwnerTest(studentId));
    FilterMembers(records, OwnerTest(studentId));
    Filter(records, OwnerTest(studentId))
  }

  /** The student id of each record, in log order. */
  function StudentIds(records: seq<DisciplineRecord>): (r: seq<string>)
    ensures |r| == |records| && forall i :: 0 <= i < |records| ==> r[i] == records[i].studentId
  {
    seq(|records|, i requires 0 <= i < |records| => records[i].studentId)
  }

  lemma {:induction false} FilterCountsIds(records: seq<DisciplineRecord>, studentId: string)
    ensures |Filter(records, OwnerTest(studentId))| == CountIn(StudentIds(records), studentId)
  {
    if records != [] {
      var front := records[..|records| - 1];
      FilterCountsIds(front, studentId);
      FilterSnoc(records, OwnerTest(studentId));
      assert StudentIds(records)[..|records| - 1] == StudentIds(front);
    }
  }

  /** `getStudentDisciplineCount`: the same filter's length, which is the
      number of times the id occurs in the log. */
  function GetStudentDisciplineCount(records: seq<DisciplineRecord>, studentId: string): (n: nat)
    ensures n == |GetStudentDiscipline(records, studentId)|
    ensures n == CountIn(StudentIds(records), studentId)
  {
    FilterCountsIds(records, studentId);
    |Filter(records, OwnerTest(studentId))|
  }

  /** `getStudentsWithDisciplineRecords`: each id with a record once, in
      order of first appearance, and no other id. */
  function GetStudentsWithDisciplineRecords(records: seq<DisciplineRecord>): (r: seq<string>)
    ensures NoDup(r)
    ensures forall i :: 0 <= i < |r| ==> GetStudentDisciplineCount(records, r[i]) > 0
    ensures forall i :: 0 <= i < |records| ==> records[i].studentId in r
  {
    var r := Dedup(StudentIds(records));
    assert forall i :: 0 <= i < |r| ==> CountIn(StudentIds(records), r[i]) > 0 by {
      forall i | 0 <= i < |r| ensures CountIn(StudentIds(records), r[i]) > 0 {
        CountInPositive(StudentIds(records), r[i]);
      }
    }
    assert forall i :: 0 <= i < |records| ==> records[i].studentId in r by {
      forall i | 0 <= i < |records| ensures records[i].studentId in r {
        assert StudentIds(records)[i] == records[i].studentId;
      }
    }
    r
  }

  // ---------------------------------------------------------------------
  // Summary by infraction

  datatype SummaryEntry = SummaryEntry(infraction: string, count: int)

  /** The infraction of each record, in log order. */
  function Infractions(records: seq<DisciplineRecord>): (r: seq<string>)
    ensures |r| == |records| && forall i :: 0 <= i < |records| ==> r[i] == records[i].infraction
  {
    seq(|records|, i requires 0 <= i < |records| => records[i].infraction)
  }

  /** The entries in `Object.entries(counts)` order: each infraction once, at
      its first occurrence, with the number of records naming it. */
  function Entries(records: seq<DisciplineRecord>): seq<SummaryEntry>
  {
    EntriesOf(Infractions(records))
  }

  function EntriesOf(seen: seq<string>): seq<SummaryEntry>
  {
    var keys := Dedup(seen);
    seq(|keys|, j requires 0 <= j < |keys| => SummaryEntry(keys[j], CountIn(seen, keys[j])))
  }

  /** The dictionary and its key order after tallying `seen`. */
  ghost predicate Tallied(seen: seq<string>, keys: seq<string>, counts: map<string, int>)
  {
    && keys == Dedup(seen)
    && (forall k :: k in counts <==> k in keys)
    && (forall k :: k in counts ==> counts[k] == CountIn(seen, k))
  }

  /** One step of the tally loop, in each of its two branches. */
  lemma TallyStep(seen: seq<string>, x: string, keys: seq<string>, counts: map<string, int>)
    requires Tallied(seen, keys, counts)
    ensures x in counts ==> Tallied(seen + [x], keys, counts[x := counts[x] + 1])
    ensures x !in counts ==> Tallied(seen + [x], keys + [x], counts[x := 0 + 1])
  {
    DedupSnoc(seen, x);
    if x in counts {
      TallyKnown(seen, x, keys, counts);
    } else {
      TallyNew(seen, x, keys, counts);
    }
  }

  lemma TallyKnown(seen: seq<string>, x: string, keys: seq<string>, counts: map<string, int>)
    requires Tallied(seen, keys, counts) && x in counts
    requires Dedup(seen + [x]) == keys
    ensures Tallied(seen + [x], keys, counts[x := counts[x] + 1])
  {
    var counts' := counts[x := counts[x] + 1];
    forall k | k in counts' ensures counts'[k] == CountIn(seen + [x], k) {
      CountInSnoc(seen, x, k);
    }
  }

  lemma TallyNew(seen: seq<string>, x: string, keys: seq<string>, counts: map<string, int>)
    requires Tallied(seen, keys, counts) && x !in counts
    requires Dedup(seen + [x]) == keys + [x]
    ensures Tallied(seen + [x], keys + [x], counts[x := 0 + 1])
  {
    assert x !in seen;
    NewKeyListed(keys, x, counts);
    NewKeyCounted(seen, x, counts);
  }

  lemma NewKeyListed(keys: seq<string>, x: string, counts: map<string, int>)
    requires forall k :: k in counts <==> k in keys
    ensures forall k :: k in counts[x := 0 + 1] <==> k in keys + [x]
  {
    forall k ensures k in counts[x := 0 + 1] <==> k in keys + [x] {
      assert k in keys + [x] <==> k in keys || k == x;
    }
  }

  lemma NewKeyCounted(seen: seq<string>, x: string, counts: map<string, int>)
    requires forall k :: k in counts ==> counts[k] == CountIn(seen, k)
    requires x !in seen
    ensures forall k :: k in counts[x := 0 + 1] ==> counts[x := 0 + 1][k] == CountIn(seen + [x], k)
  {
    forall k | k in counts[x := 0 + 1] ensures counts[x := 0 + 1][k] == CountIn(seen + [x], k) {
      CountInSnoc(seen, x, k);
    }
  }

  /** Listing the tallied dictionary in key order gives EntriesOf. */
  lemma TalliedEntries(seen: seq<string>, keys: seq<string>, counts: map<string, int>)
    requires Tallied(seen, keys, counts)
    ensures forall j :: 0 <= j < |keys| ==> keys[j] in counts
    ensures seq(|keys|, j requires 0 <= j < |keys| && keys[j] in counts => SummaryEntry(keys[j], counts[keys[j]])) == EntriesOf(seen)
  {
  }

  function EntryCount(): SummaryEntry -> int
  {
    (e: SummaryEntry) => e.count
  }

  lemma InfractionsSnoc(records: seq<DisciplineRecord>, i: int)
    requires 0 <= i < |records|
    ensures Infractions(records[..i + 1]) == Infractions(records[..i]) + [records[i].infraction]
  {
  }

  /** `getDisciplineSummary`: tally the infractions into a dictionary, list
      its entries and sort them by count, largest first (a stable sort). */
  method GetDisciplineSummary(records: seq<DisciplineRecord>) returns (summary: seq<SummaryEntry>)
    ensures summary == SortByKeyDesc(Entries(records), EntryCount())
  {
    var counts: map<string, int> := map[];
    var keys: seq<string> := [];
    var i := 0;
    while i < |records|
      invariant 0 <= i <= |records|
      invariant Tallied(Infractions(records[..i]), keys, counts)
    {
      var infraction := records[i].infraction;
      InfractionsSnoc(records, i);
      TallyStep(Infractions(records[..i]), infraction, keys, counts);
      if infraction in counts {
        counts := counts[infraction := counts[infraction] + 1];
      } else {
        counts := counts[infraction := 0 + 1];
        keys := keys + [infraction];
      }
      i := i + 1;
    }
    assert records[..i] == records;
    TalliedEntries(Infractions(records), keys, counts);
    var entries := seq(|keys|, j requires 0 <= j < |keys| && keys[j] in counts => SummaryEntry(keys[j], counts[keys[j]]));
    summary := SortByKeyDesc(entries, EntryCount());
  }

  /** Each entry of Entries counts one infraction of the log, every
      infraction of the log has an entry, and no infraction has two. */
  lemma EntriesFacts(records: seq<DisciplineRecord>)
    ensures var entries := Entries(records);
            (forall j :: 0 <= j < |entries| ==>
               entries[j].infraction in Infractions(records)
               && entries[j].count == CountIn(Infractions(records), entries[j].infraction))
            && (forall i :: 0 <= i < |records| ==>
                  exists j :: 0 <= j < |entries| && entries[j].infraction == records[i].infraction)
            && (forall j, k :: 0 <= j < k < |entries| ==> entries[j].infraction != entries[k].infraction)
  {
    var keys := Dedup(Infractions(records));
    var entries := Entries(records);
    forall i | 0 <= i < |records|
      ensures exists j :: 0 <= j < |entries| && entries[j].infraction == records[i].infraction
    {
      assert Infractions(records)[i] in keys;
      var j :| 0 <= j < |keys| && keys[j] == records[i].infraction;
      assert entries[j].infraction == keys[j];
    }
  }

  lemma {:induction false} EntriesSumOver(keys: seq<string>, infractions: seq<string>)
    ensures SumOf(seq(|keys|, j requires 0 <= j < |keys| => SummaryEntry(keys[j], CountIn(infractions, keys[j]))), EntryCount())
            == SumOf(keys, CountsIn(infractions))
  {
    if keys != [] {
      var e := seq(|keys|, j requires 0 <= j < |keys| => SummaryEntry(keys[j], CountIn(infractions, keys[j])));
      var tail := keys[1..];
      EntriesSumOver(tail, infractions);
      assert e[1..] == seq(|tail|, j requires 0 <= j < |tail| => SummaryEntry(tail[j], CountIn(infractions, tail[j])));
    }
  }

  /** The counts of the entries add up to the number of records. */
  lemma EntriesSum(records: seq<DisciplineRecord>)
    ensures SumOf(Entries(records), EntryCount()) == |records|
  {
    EntriesSumOver(Dedup(Infractions(records)), Infractions(records));
    DedupCountsSum(Infractions(records));
  }

  /** Each summary entry carries the number of records naming its
      infraction, and that number is positive. */
  lemma SummaryCounts(records: seq<DisciplineRecord>)
    ensures var summary := SortByKeyDesc(Entries(records), EntryCount());
            forall i :: 0 <= i < |summary| ==>
              summary[i].count == CountIn(Infractions(records), summary[i].infraction) > 0
  {
    var entries := Entries(records);
    var summary := SortByKeyDesc(entries, EntryCount());
    EntriesFacts(records);
    forall i | 0 <= i < |summary|
      ensures summary[i].count == CountIn(Infractions(records), summary[i].infraction) > 0
    {
      assert summary[i] in multiset(entries);
      CountInPositive(Infractions(records), summary[i].infraction);
    }
  }

  /** Every record's infraction has an entry in the summary, and no
      infraction has two. */
  lemma SummaryCoversOnce(records: seq<DisciplineRecord>)
    ensures var summary := SortByKeyDesc(Entries(records), EntryCount());
            (forall i :: 0 <= i < |records| ==>
               exists j :: 0 <= j < |summary| && summary[j].infraction == records[i].infraction)
            && (forall i, j :: 0 <= i < j < |summary| ==> summary[i].infraction != summary[j].infraction)
  {
    var entries := Entries(records);
    var summary := SortByKeyDesc(entries, EntryCount());
    EntriesFacts(records);
    assert NoDup(entries);
    NoDupPermutation(entries, summary);
    forall i | 0 <= i < |records|
      ensures exists j :: 0 <= j < |summary| && summary[j].infraction == records[i].infraction
    {
      var k :| 0 <= k < |entries| && entries[k].infraction == records[i].infraction;
      assert entries[k] in multiset(summary);
    }
    forall i, j | 0 <= i < j < |summary| ensures summary[i].infraction != summary[j].infraction {
      assert summary[i] in multiset(entries) && summary[j] in multiset(entries);
    }
  }

  /** The summary's counts add up to the number of records. */
  lemma SummarySum(records: seq<DisciplineRecord>)
    ensures SumOf(SortByKeyDesc(Entries(records), EntryCount()), EntryCount()) == |records|
  {
    var entries := Entries(records);
    SumOfPermutation(entries, SortByKeyDesc(entries, EntryCount()), EntryCount());
    EntriesSum(records);
  }

  // ---------------------------------------------------------------------
  // The demo log

  /** In the demo log every student who has a record has at least two, so
      each of them meets the two-record rule. */
  lemma DemoLogAtLeastTwo()
    ensures forall i :: 0 <= i < |DisciplineRecords| ==>
              GetStudentDisciplineCount(DisciplineRecords, DisciplineRecords[i].studentId) >= 2
  {
    var ids := StudentIds(DisciplineRecords);
    forall i | 0 <= i < |DisciplineRecords|
      ensures GetStudentDisciplineCount(DisciplineRecords, DisciplineRecords[i].studentId) >= 2
    {
      var p := if i == 0 || i == 2 || i == 5 || i == 7 || i == 10 || i == 12 then i + 1 else i - 1;
      assert ids[i] == ids[p];
      CountInAtLeastTwo(ids, i, p);
    }
  }
}
