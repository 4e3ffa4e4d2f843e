// The fixed demo roster and its three lookups (src/data/students.ts).

module Students {
  import opened Common

  datatype Gender = Male | Female

  /** The spelling the source stores: 'male' or 'female'. */
  function GenderName(g: Gender): string
  {
    match g
    case Male => "male"
    case Female => "female"
  }

  datatype Student = Student(
    id: string,
    studentNumber: string,
    firstName: string,
    lastName: string,
    grade: string,
    homeroom: string,
    gender: Gender,
    dateOfBirth: string)

  const S01: Student := Student("STU001", "10045678", "Alex", "Anderson", "K", "Ms. Rodriguez", Male, "03/14/2019")
  const S02: Student := Student("STU002", "10045679", "Jordan", "Bennett", "K", "Ms. Rodriguez", Female, "07/22/2019")
  const S03: Student := Student("STU003", "10045680", "Taylor", "Chen", "K", "Ms. Rodriguez", Female, "01/09/2019")
  const S04: Student := Student("STU004", "10045681", "Morgan", "Davis", "K", "Ms. Rodriguez", Male, "11/30/2019")
  const S05: Student := Student("STU005", "10045682", "Casey", "Edwards", "K", "Ms. Rodriguez", Female, "05/18/2019")
  const S06: Student := Student("STU006", "10045683", "Riley", "Foster", "1", "Mr. Chen", Female, "08/03/2018")
  const S07: Student := Student("STU007", "10045684", "Quinn", "Garcia", "1", "Mr. Chen", Male, "02/15/2018")
  const S08: Student := Student("STU008", "10045685", "Avery", "Harris", "1", "Mr. Chen", Female, "10/27/2018")
  const S09: Student := Student("STU009", "10045686", "Drew", "Iverson", "1", "Mr. Chen", Male, "04/11/2018")
  const S10: Student := Student("STU010", "10045687", "Skyler", "Jackson", "1", "Mr. Chen", Female, "12/06/2018")
  const S11: Student := Student("STU011", "10045688", "Dakota", "Kim", "2", "Mrs. Davis", Male, "06/19/2017")
  const S12: Student := Student("STU012", "10045689", "Reese", "Lopez", "2", "Mrs. Davis", Female, "09/02/2017")
  const S13: Student := Student("STU013", "10045690", "Cameron", "Martinez", "2", "Mrs. Davis", Male, "01/25/2017")
  const S14: Student := Student("STU014", "10045691", "Sage", "Nelson", "2", "Mrs. Davis", Female, "07/08/2017")
  const S15: Student := Student("STU015", "10045692", "Finley", "Ortiz", "2", "Mrs. Davis", Male, "03/30/2017")
  const S16: Student := Student("STU016", "10045693", "Emerson", "Patel", "3", "Ms. Patel", Female, "11/14/2016")
  const S17: Student := Student("STU017", "10045694", "Parker", "Quinn", "3", "Ms. Patel", Male, "05/22/2016")
  const S18: Student := Student("STU018", "10045695", "Hayden", "Rivera", "3", "Ms. Patel", Male, "08/17/2016")
  const S19: Student := Student("STU019", "10045696", "Rowan", "Smith", "3", "Ms. Patel", Female, "02/03/2016")
  const S20: Student := Student("STU020", "10045697", "Charlie", "Thompson", "3", "Ms. Patel", Male, "10/09/2016")
  const S21: Student := Student("STU021", "10045698", "Blake", "Valdez", "4", "Mr. Thompson", Male, "04/26/2015")
  const S22: Student := Student("STU022", "10045699", "Peyton", "Williams", "4", "Mr. Thompson", Female, "12/13/2015")
  const S23: Student := Student("STU023", "10045700", "Jamie", "Xavier", "4", "Mr. Thompson", Female, "06/07/2015")
  const S24: Student := Student("STU024", "10045701", "Logan", "Young", "4", "Mr. Thompson", Male, "09/19/2015")
  const S25: Student := Student("STU025", "10045702", "River", "Zhang", "4", "Mr. Thompson", Female, "01/31/2015")
  const S26: Student := Student("STU026", "10045703", "Phoenix", "Adams", "5", "Mrs. Kim", Male, "07/15/2014")
  const S27: Student := Student("STU027", "10045704", "Eden", "Baker", "5", "Mrs. Kim", Female, "03/08/2014")
  const S28: Student := Student("STU028", "10045705", "Kendall", "Carter", "5", "Mrs. Kim", Female, "10/21/2014")
  const S29: Student := Student("STU029", "10045706", "Marley", "Diaz", "5", "Mrs. Kim", Male, "05/04/2014")
  const S30: Student := Student("STU030", "10045707", "Oakley", "Evans", "5", "Mrs. Kim", Female, "08/28/2014")

  /** The 30 demo students, five per grade K to 5, one homeroom per grade. */
  const Roster: seq<Student> := [
    S01, S02, S03, S04, S05, S06,
    S07, S08, S09, S10, S11, S12,
    S13, S14, S15, S16, S17, S18,
    S19, S20, S21, S22, S23, S24,
    S25, S26, S27, S28, S29, S30
  ]

  /** `students.find(s => s.id === id)`: the first student with that id, or
      nothing when no student has it. */
  function GetStudentById(roster: seq<Student>, id: string): (r: Option<Student>)
    ensures r.None? <==> forall i :: 0 <= i < |roster| ==> roster[i].id != id
    ensures r.Some? ==> exists i :: 0 <= i < |roster| && roster[i] == r.value
                          && forall j :: 0 <= j < i ==> roster[j].id != id
    ensures r.Some? ==> r.value.id == id
  {
    if roster == [] then None
    else if roster[0].id == id then Some(roster[0])
    else
      var r := GetStudentById(roster[1..], id);
      assert r.Some? ==> exists i :: 0 <= i < |roster| && roster[i] == r.value
                          && forall j :: 0 <= j < i ==> roster[j].id != id by {
        if r.Some? {
          var k :| 0 <= k < |roster| - 1 && roster[1..][k] == r.value
                   && forall j :: 0 <= j < k ==> roster[1..][j].id != id;
          assert roster[k + 1] == r.value;
          assert forall j :: 1 <= j < k + 1 ==> roster[j].id == roster[1..][j - 1].id;
        }
      }
      r
  }

  /** `students.filter(s => s.grade === grade)`. */
  function GetStudentsByGrade(roster: seq<Student>, grade: string): (r: seq<Student>)
    ensures IsSubseq(r, roster)
    ensures forall i :: 0 <= i < |r| ==> r[i].grade == grade
    ensures forall i :: 0 <= i < |roster| && roster[i].grade == grade ==> roster[i] in r
  {
    var p := (s: Student) => s.grade == grade;
    FilterIsSubseq(roster, p);
    FilterMembers(roster, p);
    Filter(roster, p)
  }

  /** `students.filter(s => s.homeroom === homeroom)`. */
  function GetStudentsByHomeroom(roster: seq<Student>, homeroom: string): (r: seq<Student>)
    ensures IsSubseq(r, roster)
    ensures forall i :: 0 <= i < |r| ==> r[i].homeroom == homeroom
    ensures forall i :: 0 <= i < |roster| && roster[i].homeroom == homeroom ==> roster[i] in r
  {
    var p := (s: Student) => s.homeroom == homeroom;
    FilterIsSubseq(roster, p);
    FilterMembers(roster, p);
    Filter(roster, p)
  }

  function Ids(roster: seq<Student>): (r: seq<string>)
    ensures |r| == |roster| && forall i :: 0 <= i < |roster| ==> r[i] == roster[i].id
  {
    seq(|roster|, i requires 0 <= i < |roster| => roster[i].id)
  }

  // ---------------------------------------------------------------------
  // Student ids "STU001" .. "STU030", as assessments.ts, grades.ts and
  // attendance.ts build them: `STU${String(i + 1).padStart(3, '0')}`.

  function Digit(d: int): char
    requires 0 <= d < 10
  {
    ('0' as int + d) as char
  }

  /** `String(n).padStart(3, '0')` for n in [0, 1000). */
  function Pad3(n: int): (r: string)
    requires 0 <= n < 1000
    ensures |r| == 3
  {
    [Digit(n / 100), Digit(n / 10 % 10), Digit(n % 10)]
  }

  function StudentId(n: int): string
    requires 0 <= n < 1000
  {
    "STU" + Pad3(n)
  }

  /** `Array.from({ length: 30 }, (_, i) => `STU${...}`)`. */
  function AllStudentIds(): (r: seq<string>)
    ensures |r| == 30
  {
    seq(30, i requires 0 <= i < 30 => StudentId(i + 1))
  }

  lemma StudentIdInjective(m: int, n: int)
    requires 0 <= m < 1000 && 0 <= n < 1000 && StudentId(m) == StudentId(n)
    ensures m == n
  {
    assert Pad3(m) == StudentId(m)[3..] == StudentId(n)[3..] == Pad3(n);
    DigitInjective(m / 100, n / 100);
    DigitInjective(m / 10 % 10, n / 10 % 10);
    DigitInjective(m % 10, n % 10);
    Decompose(m);
    Decompose(n);
  }

  lemma DigitInjective(a: int, b: int)
    requires 0 <= a < 10 && 0 <= b < 10 && Digit(a) == Digit(b)
    ensures a == b
  {
  }

  /** A number below 1000 is its three decimal digits. */
  lemma Decompose(n: int)
    requires 0 <= n < 1000
    ensures n == 100 * (n / 100) + 10 * (n / 10 % 10) + n % 10
  {
    var q := n / 10;
    assert n == 10 * q + n % 10;
    assert q == 10 * (q / 10) + q % 10;
    assert q / 10 == n / 100;
  }

  /** The generated id list never repeats an id. */
  lemma AllStudentIdsDistinct()
    ensures NoDup(AllStudentIds())
  {
    var ids := AllStudentIds();
    forall i, j | 0 <= i < j < |ids| ensures ids[i] != ids[j] {
      if ids[i] == ids[j] { StudentIdInjective(i + 1, j + 1); }
    }
  }

  /** The grade levels in roster order. */
  const GradeLevels: seq<string> := ["K", "1", "2", "3", "4", "5"]

  lemma RosterIds0()
    ensures forall i :: 0 <= i < 2 ==> Roster[i].id == StudentId(i + 1)
  {
    assert Pad3(1) == "001";
    assert Roster[0].id == "STU001";
    assert Pad3(2) == "002";
    assert Roster[1].id == "STU002";
  }

  lemma RosterIds1()
    ensures forall i :: 2 <= i < 4 ==> Roster[i].id == StudentId(i + 1)
  {
    assert Pad3(3) == "003";
    assert Roster[2].id == "STU003";
    assert Pad3(4) == "004";
    assert Roster[3].id == "STU004";
  }

  lemma RosterIds2()
    ensures forall i :: 4 <= i < 6 ==> Roster[i].id == StudentId(i + 1)
  {
    assert Pad3(5) == "005";
    assert Roster[4].id == "STU005";
    assert Pad3(6) == "006";
    assert Roster[5].id == "STU006";
  }

  lemma RosterIds3()
    ensures forall i :: 6 <= i < 8 ==> Roster[i].id == StudentId(i + 1)
  {
    assert Pad3(7) == "007";
    assert Roster[6].id == "STU007";
    assert Pad3(8) == "008";
    assert Roster[7].id == "STU008";
  }

  lemma RosterIds4()
    ensures forall i :: 8 <= i < 10 ==> Roster[i].id == StudentId(i + 1)
  {
    assert Pad3(9) == "009";
    assert Roster[8].id == "STU009";
    assert Pad3(10) == "010";
    assert Roster[9].id == "STU010";
  }

  lemma RosterIds5()
    ensures forall i :: 10 <= i < 12 ==> Roster[i].id == StudentId(i + 1)
  {
    assert Pad3(11) == "011";
    assert Roster[10].id == "STU011";
    assert Pad3(12) == "012";
    assert Roster[11].id == "STU012";
  }

  lemma RosterIds6()
    ensures forall i :: 12 <= i < 14 ==> Roster[i].id == StudentId(i + 1)
  {
    assert Pad3(13) == "013";
    assert Roster[12].id == "STU013";
    assert Pad3(14) == "014";
    assert Roster[13].id == "STU014";
  }

  lemma RosterIds7()
    ensures forall i :: 14 <= i < 16 ==> Roster[i].id == StudentId(i + 1)
  {
    assert Pad3(15) == "015";
    assert Roster[14].id == "STU015";
    assert Pad3(16) == "016";
    assert Roster[15].id == "STU016";
  }

  lemma RosterIds8()
    ensures forall i :: 16 <= i < 18 ==> Roster[i].id == StudentId(i + 1)
  {
    assert Pad3(17) == "017";
    assert Roster[16].id == "STU017";
    assert Pad3(18) == "018";
    assert Roster[17].id == "STU018";
  }

  lemma RosterIds9()
    ensures forall i :: 18 <= i < 20 ==> Roster[i].id == StudentId(i + 1)
  {
    assert Pad3(19) == "019";
    assert Roster[18].id == "STU019";
    assert Pad3(20) == "020";
    assert Roster[19].id == "STU020";
  }

  lemma RosterIds10()
    ensures forall i :: 20 <= i < 22 ==> Roster[i].id == StudentId(i + 1)
  {
    assert Pad3(21) == "021";
    assert Roster[20].id == "STU021";
    assert Pad3(22) == "022";
    assert Roster[21].id == "STU022";
  }

  lemma RosterIds11()
    ensures forall i :: 22 <= i < 24 ==> Roster[i].id == StudentId(i + 1)
  {
    assert Pad3(23) == "023";
    assert Roster[22].id == "STU023";
    assert Pad3(24) == "024";
    assert Roster[23].id == "STU024";
  }

  lemma RosterIds12()
    ensures forall i :: 24 <= i < 26 ==> Roster[i].id == StudentId(i + 1)
  {
    assert Pad3(25) == "025";
    assert Roster[24].id == "STU025";
    assert Pad3(26) == "026";
    assert Roster[25].id == "STU026";
  }

  lemma RosterIds13()
    ensures forall i :: 26 <= i < 28 ==> Roster[i].id == StudentId(i + 1)
  {
    assert Pad3(27) == "027";
    assert Roster[26].id == "STU027";
    assert Pad3(28) == "028";
    assert Roster[27].id == "STU028";
  }

  lemma RosterIds14()
    ensures forall i :: 28 <= i < 30 ==> Roster[i].id == StudentId(i + 1)
  {
    assert Pad3(29) == "029";
    assert Roster[28].id == "STU029";
    assert Pad3(30) == "030";
    assert Roster[29].id == "STU030";
  }

  lemma RosterGrades()
    ensures forall i :: 0 <= i < 30 ==> Roster[i].grade == GradeLevels[i / 5]
  {
  }

  /** The roster is STU001..STU030 in order (so no id repeats), in six blocks
      of five students, one block per grade K to 5. */
  lemma RosterLayout()
    ensures |Roster| == 30
    ensures Ids(Roster) == AllStudentIds()
    ensures NoDup(Ids(Roster))
    ensures forall i :: 0 <= i < 30 ==> Roster[i].grade == GradeLevels[i / 5]
  {
    RosterIds0(); RosterIds1(); RosterIds2(); RosterIds3(); RosterIds4();
    RosterIds5(); RosterIds6(); RosterIds7(); RosterIds8(); RosterIds9();
    RosterIds10(); RosterIds11(); RosterIds12(); RosterIds13(); RosterIds14();
    RosterGrades();
    AllStudentIdsDistinct();
    assert Ids(Roster) == AllStudentIds();
  }
}
