// What the two assistant chats (the full page, src/mockup/MockupNoriPage.tsx,
// and the floating bubble, src/mockup/MockupNoriBubble.tsx) share: reading
// the typed message, finding a named student, grading a rate or a GPA into
// three tiers, ranking students, the message list and the `renderText`
// splitting of `**bold**` markup.

module Chat {
  import opened Common
  import opened Sorting
  import Students

  // ---------------------------------------------------------------------
  // Reading the message

  /** `userMessage.toLowerCase().trim()`. */
  function Normalize(text: string): string
  {
    Trim(Lower(text))
  }

  /** Some keyword of the list is a substring of the message. */
  predicate MentionsAny(msg: string, words: seq<string>)
  {
    exists i :: 0 <= i < |words| && Contains(msg, words[i])
  }

  /** The message names the student: it contains their lowercased first or
      last name. */
  predicate Names(msg: string, s: Students.Student)
  {
    Contains(msg, Lower(s.firstName)) || Contains(msg, Lower(s.lastName))
  }

  function NameTest(msg: string): Students.Student -> bool
  {
    (s: Students.Student) => Names(msg, s)
  }

  /** `students.find(...)`: the first roster student the message names. */
  function MatchStudent(roster: seq<Students.Student>, msg: string): (r: Option<Students.Student>)
    ensures r.None? <==> forall i :: 0 <= i < |roster| ==> !Names(msg, roster[i])
    ensures r.Some? ==> exists i :: 0 <= i < |roster| && roster[i] == r.value
                          && Names(msg, roster[i])
                          && forall j :: 0 <= j < i ==> !Names(msg, roster[j])
  {
    Find(roster, NameTest(msg))
  }

  /** The greeting test both chats use: "hello", "hi", "good morning" or
      "good afternoon" anywhere, or exactly "hey". */
  predicate IsGreeting(msg: string)
  {
    Contains(msg, "hello") || Contains(msg, "hi") || msg == "hey"
    || Contains(msg, "good morning") || Contains(msg, "good afternoon")
  }

  // ---------------------------------------------------------------------
  // Tiers

  /** The three wordings a reply gives a rate or a GPA. */
  datatype Tier = Strong | Middling | Weak

  /** An attendance rate in tenths of a percent: 95% and up, 90% and up,
      below 90%. */
  function AttendanceTier(rate: int): (t: Tier)
    ensures t == Strong <==> rate >= 950
    ensures t == Weak <==> rate < 900
  {
    if rate >= 950 then Strong else if rate >= 900 then Middling else Weak
  }

  /** A GPA in hundredths: 3.0 and up, 2.0 and up, below 2.0. */
  function GpaTier(gpa: int): (t: Tier)
    ensures t == Strong <==> gpa >= 300
    ensures t == Weak <==> gpa < 200
  {
    if gpa >= 300 then Strong else if gpa >= 200 then Middling else Weak
  }

  // ---------------------------------------------------------------------
  // Ranking

  /** A student with the figure a reply ranks them by. */
  datatype Scored = Scored(student: Students.Student, value: int)

  function ValueOf(): Scored -> int
  {
    (x: Scored) => x.value
  }

  /** `students.map(s => ({ student: s, value: f(s) }))`. */
  function ScoreAll(roster: seq<Students.Student>, f: Students.Student -> int): (r: seq<Scored>)
    ensures |r| == |roster|
    ensures forall i :: 0 <= i < |r| ==> r[i] == Scored(roster[i], f(roster[i]))
  {
    seq(|roster|, i requires 0 <= i < |roster| => Scored(roster[i], f(roster[i])))
  }

  /** The five highest: `.sort((a, b) => b.value - a.value).slice(0, 5)`. */
  function TopFive(roster: seq<Students.Student>, f: Students.Student -> int): seq<Scored>
  {
    Take(SortByKeyDesc(ScoreAll(roster, f), ValueOf()), 5)
  }

  /** The top five hold five roster students (fewer when the roster is
      smaller) with their figures, highest first, and no student left out
      has a higher figure than any of them. */
  lemma TopFiveFacts(roster: seq<Students.Student>, f: Students.Student -> int)
    ensures var r := TopFive(roster, f);
            && |r| == Min(5, |roster|)
            && (forall i, j :: 0 <= i < j < |r| ==> r[i].value >= r[j].value)
            && (forall i :: 0 <= i < |r| ==> r[i].student in roster && r[i].value == f(r[i].student))
            && exists rest: seq<Scored> :: multiset(r) + multiset(rest) == multiset(ScoreAll(roster, f))
                              && forall x, y :: x in rest && y in r ==> x.value <= y.value
  {
    var all := ScoreAll(roster, f);
    var sorted := SortByKeyDesc(all, ValueOf());
    var r := TopFive(roster, f);
    var rest := sorted[|r|..];
    assert sorted == r + rest;
    assert multiset(r) + multiset(rest) == multiset(all);
    forall i | 0 <= i < |r| ensures r[i].student in roster && r[i].value == f(r[i].student) {
      assert r[i] == sorted[i];
      ScoredMember(roster, f, sorted, i);
    }
    forall x, y | x in rest && y in r ensures x.value <= y.value {
      var a :| 0 <= a < |rest| && rest[a] == x;
      var b :| 0 <= b < |r| && r[b] == y;
      assert sorted[b] == y && sorted[|r| + a] == x;
    }
  }

  /** An element of a reordering of the scores is a roster student with
      their own figure. */
  lemma ScoredMember(roster: seq<Students.Student>, f: Students.Student -> int, sorted: seq<Scored>, i: int)
    requires multiset(sorted) == multiset(ScoreAll(roster, f)) && 0 <= i < |sorted|
    ensures sorted[i].student in roster && sorted[i].value == f(sorted[i].student)
  {
    var all := ScoreAll(roster, f);
    assert sorted[i] in multiset(sorted);
    assert sorted[i] in all;
    var k :| 0 <= k < |all| && all[k] == sorted[i];
    assert all[k].student == roster[k];
  }

  /** Every element kept by the filter, in ascending order of figure: the
      attendance list. */
  function AscendingBelow(roster: seq<Students.Student>, f: Students.Student -> int, bound: int): seq<Scored>
  {
    SortByKeyAsc(Filter(ScoreAll(roster, f), BelowTest(bound)), ValueOf())
  }

  function BelowTest(bound: int): Scored -> bool
  {
    (x: Scored) => x.value < bound
  }

  /** The list holds exactly the roster students whose figure is below the
      bound (as many times as the roster holds them), lowest first. */
  lemma AscendingBelowFacts(roster: seq<Students.Student>, f: Students.Student -> int, bound: int)
    ensures var r := AscendingBelow(roster, f, bound);
            && (forall i, j :: 0 <= i < j < |r| ==> r[i].value <= r[j].value)
            && (forall i :: 0 <= i < |r| ==>
                  r[i].value < bound && r[i].student in roster && r[i].value == f(r[i].student))
            && (forall s :: s in roster && f(s) < bound ==> Scored(s, f(s)) in r)
            && multiset(r) == multiset(Filter(ScoreAll(roster, f), BelowTest(bound)))
  {
    var all := ScoreAll(roster, f);
    var kept := Filter(all, BelowTest(bound));
    var r := AscendingBelow(roster, f, bound);
    FilterMembers(all, BelowTest(bound));
    forall i | 0 <= i < |r|
      ensures r[i].value < bound && r[i].student in roster && r[i].value == f(r[i].student)
    {
      assert r[i] in multiset(r);
      assert r[i] in kept;
      var k :| 0 <= k < |all| && all[k] == r[i];
    }
    forall s | s in roster && f(s) < bound ensures Scored(s, f(s)) in r {
      var k :| 0 <= k < |roster| && roster[k] == s;
      assert all[k] == Scored(s, f(s));
      assert Scored(s, f(s)) in kept;
      assert Scored(s, f(s)) in multiset(kept);
    }
  }

  // ---------------------------------------------------------------------
  // Sending

  /** A chat line: the user's text, or an assistant reply of type `R`. */
  datatype Message<R> = Welcome | FromUser(text: string) | FromNori(reply: R)

  /** `handleSend`'s guard: something is left after trimming and no reply
      is pending. */
  predicate CanSend(trimmed: string, isThinking: bool)
  {
    trimmed != [] && !isThinking
  }

  // ---------------------------------------------------------------------
  // renderText

  /** A `**bold**` span as the pattern `\*\*[^*]+\*\*` matches it: two
      stars, at least one other character, two stars. */
  predicate IsMarked(p: string)
  {
    |p| >= 5 && p[0] == '*' && p[1] == '*' && p[|p| - 2] == '*' && p[|p| - 1] == '*'
    && forall k :: 2 <= k < |p| - 2 ==> p[k] != '*'
  }

  /** The characters from `i` up to the next star (or the end). */
  function RunWithoutStar(s: string, i: nat): (n: nat)
    requires i <= |s|
    ensures i + n <= |s|
    ensures forall k :: i <= k < i + n ==> s[k] != '*'
    ensures i + n < |s| ==> s[i + n] == '*'
    decreases |s| - i
  {
    if i == |s| || s[i] == '*' then 0 else 1 + RunWithoutStar(s, i + 1)
  }

  /** The length of the match starting at `i`, if one starts there. */
  function MatchAt(s: string, i: nat): (r: Option<nat>)
    requires i <= |s|
    ensures r.Some? ==> r.value >= 5 && i + r.value <= |s| && IsMarked(s[i..i + r.value])
  {
    if i + 2 <= |s| && s[i] == '*' && s[i + 1] == '*' then
      var run := RunWithoutStar(s, i + 2);
      if run >= 1 && i + run + 4 <= |s| && s[i + run + 2] == '*' && s[i + run + 3] == '*' then
        Some(run + 4)
      else
        None
    else
      None
  }

  /** Since `[^*]+` cannot take a star, a span starting at `i` is marked
      exactly when it is the match found there. */
  lemma MatchAtUnique(s: string, i: nat, n: nat)
    requires i + n <= |s| && IsMarked(s[i..i + n])
    ensures MatchAt(s, i) == Some(n)
  {
    var p := s[i..i + n];
    assert s[i] == p[0] && s[i + 1] == p[1];
    assert s[i + n - 2] == p[n - 2] && s[i + n - 1] == p[n - 1];
    forall k | i + 2 <= k < i + n - 2 ensures s[k] != '*' {
      assert s[k] == p[k - i];
    }
  }

  /** The leftmost match at or after `i`. */
  function FirstMatch(s: string, i: nat): (r: Option<(nat, nat)>)
    requires i <= |s|
    ensures r.Some? ==> i <= r.value.0 <= |s| && MatchAt(s, r.value.0) == Some(r.value.1)
    ensures r.Some? ==> forall k :: i <= k < r.value.0 ==> MatchAt(s, k).None?
    ensures r.None? ==> forall k :: i <= k <= |s| ==> MatchAt(s, k).None?
    decreases |s| - i
  {
    if i == |s| then None
    else if MatchAt(s, i).Some? then Some((i, MatchAt(s, i).value))
    else FirstMatch(s, i + 1)
  }

  /** `text.split(/(\*\*[^*]+\*\*)/g)`: the text between matches, with each
      (captured) match in between, so the matches sit at the odd indices. */
  function Parts(s: string): (r: seq<string>)
    ensures |r| % 2 == 1
    ensures forall k :: 0 <= k < |r| && k % 2 == 1 ==> IsMarked(r[k])
    decreases |s|
  {
    match FirstMatch(s, 0)
    case None => [s]
    case Some((start, n)) =>
      var rest := Parts(s[start + n..]);
      var r := [s[..start], s[start..start + n]] + rest;
      assert forall k :: 2 <= k < |r| ==> r[k] == rest[k - 2];
      r
  }

  function Concat(parts: seq<string>): string
  {
    if parts == [] then [] else parts[0] + Concat(parts[1..])
  }

  /** The parts put back together are the text. */
  lemma {:induction false} PartsConcat(s: string)
    ensures Concat(Parts(s)) == s
    decreases |s|
  {
    match FirstMatch(s, 0)
    case None =>
    case Some((start, n)) =>
      var rest := Parts(s[start + n..]);
      PartsConcat(s[start + n..]);
      assert Parts(s) == [s[..start], s[start..start + n]] + rest;
      ConcatTwoMore(s[..start], s[start..start + n], rest);
      assert s == s[..start] + s[start..start + n] + s[start + n..];
  }

  lemma ConcatTwoMore(a: string, b: string, rest: seq<string>)
    ensures Concat([a, b] + rest) == a + b + Concat(rest)
  {
    var r := [a, b] + rest;
    assert r[1..] == [b] + rest;
    assert r[1..][1..] == rest;
  }

  /** How a part is shown: bold without its markers, or as it is. */
  datatype Segment = Bold(text: string) | Plain(text: string)

  /** `part.slice(2, -2)`. */
  function Inner(p: string): string
  {
    if |p| >= 4 then p[2..|p| - 2] else ""
  }

  /** `renderText`: the matched spans bold without their markers, the rest
      plain. */
  function RenderText(s: string): (r: seq<Segment>)
    ensures |r| == |Parts(s)|
  {
    var parts := Parts(s);
    seq(|parts|, k requires 0 <= k < |parts| => if k % 2 == 1 then Bold(Inner(parts[k])) else Plain(parts[k]))
  }

  /** The markup a segment stands for. */
  function Markup(seg: Segment): string
  {
    match seg
    case Bold(t) => "**" + t + "**"
    case Plain(t) => t
  }

  function Unrender(segs: seq<Segment>): string
  {
    Concat(seq(|segs|, k requires 0 <= k < |segs| => Markup(segs[k])))
  }

  /** What the reader sees: the segments' text, markers gone. */
  function Displayed(segs: seq<Segment>): string
  {
    Concat(seq(|segs|, k requires 0 <= k < |segs| => segs[k].text))
  }

  /** Rendering loses nothing: putting the markers back around the bold
      segments gives the message again. */
  lemma RenderRoundTrip(s: string)
    ensures Unrender(RenderText(s)) == s
  {
    var parts := Parts(s);
    var segs := RenderText(s);
    var marked := seq(|segs|, k requires 0 <= k < |segs| => Markup(segs[k]));
    forall k | 0 <= k < |parts| ensures marked[k] == parts[k] {
      if k % 2 == 1 {
        var p := parts[k];
        assert p == "**" + p[2..|p| - 2] + "**";
      }
    }
    assert marked == parts;
    PartsConcat(s);
  }

  /** The condition as written for showing a part in bold: it starts and
      ends with two stars. */
  function RenderPartAsWritten(p: string): Segment
  {
    if StartsWith(p, "**") && EndsWith(p, "**") then Bold(Inner(p)) else Plain(p)
  }

  function RenderTextAsWritten(s: string): (r: seq<Segment>)
    ensures |r| == |Parts(s)|
  {
    var parts := Parts(s);
    seq(|parts|, k requires 0 <= k < |parts| => RenderPartAsWritten(parts[k]))
  }

  /** The test as written agrees on every matched span, but a message of
      just two stars is no match, yet starts and ends with two stars: it is
      shown as an empty bold span and the stars vanish. */
  lemma RenderAsWrittenDropsStars()
    ensures Parts("**") == ["**"]
    ensures RenderTextAsWritten("**") == [Bold("")] && Displayed(RenderTextAsWritten("**")) == ""
    ensures RenderText("**") == [Plain("**")] && Displayed(RenderText("**")) == "**"
    ensures Unrender(RenderTextAsWritten("**")) != "**"
  {
    assert MatchAt("**", 0).None?;
    assert Parts("**") == ["**"];
    var w := RenderTextAsWritten("**");
    assert StartsWith("**", "**") && EndsWith("**", "**");
    assert Inner("**") == "";
    assert RenderPartAsWritten("**") == Bold("");
    assert w[0] == Bold("");
    assert seq(1, k requires 0 <= k < 1 => w[k].text) == [""];
    assert Concat([""]) == "";
    assert Markup(w[0]) == "****";
    assert seq(1, k requires 0 <= k < 1 => Markup(w[k])) == ["****"];
    assert Concat(["****"]) == "****";
    var c := RenderText("**");
    assert c[0] == Plain("**");
    assert seq(1, k requires 0 <= k < 1 => c[k].text) == ["**"];
    assert Concat(["**"]) == "**";
  }

  /** On a matched span the test as written picks bold, as intended. */
  lemma RenderAsWrittenOnMatches(s: string, k: int)
    requires 0 <= k < |Parts(s)| && k % 2 == 1
    ensures RenderTextAsWritten(s)[k] == RenderText(s)[k]
  {
    var p := Parts(s)[k];
    assert p[..2] == "**";
    assert p[|p| - 2..] == "**";
  }
}
