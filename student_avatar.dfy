// The round initials badge (src/components/StudentAvatar.tsx).

module StudentAvatar {
  import opened Common

  datatype Size = Xs | Sm | Md | Lg | Xl

  /** The size used when none is given. */
  const DefaultSize := Md

  /** `s?.charAt(0) || ''`: the first character, or nothing. */
  function FirstChar(s: Option<string>): (r: string)
    ensures |r| <= 1
    ensures r == [] <==> s.None? || s.value == []
    ensures r != [] ==> r[0] == s.value[0]
  {
    if s.Some? && s.value != [] then [s.value[0]] else []
  }

  /** `getInitials`: the first characters of the two names, upper-cased. */
  function Initials(firstName: Option<string>, lastName: Option<string>): (r: string)
    ensures |r| == |FirstChar(firstName)| + |FirstChar(lastName)| <= 2
    ensures forall i :: 0 <= i < |r| ==> !IsLowerAscii(r[i])
    ensures firstName.Some? && firstName.value != [] ==> r[0] == UpperChar(firstName.value[0])
    ensures lastName.Some? && lastName.value != [] ==> r[|r| - 1] == UpperChar(lastName.value[0])
  {
    Upper(FirstChar(firstName) + FirstChar(lastName))
  }

  /** The badge's gradient. */
  datatype Palette = Pink | Blue | Gray

  /** `getGradientColors`: the lowercased gender is tested for an 'f' first,
      then for an 'm'; anything else, or no gender, is gray. */
  function GradientColors(gender: Option<string>): (r: Palette)
    ensures var g := Lower(if gender.Some? then gender.value else "");
            && (r == Pink <==> Contains(g, "f"))
            && (r == Blue <==> !Contains(g, "f") && Contains(g, "m"))
            && (r == Gray <==> !Contains(g, "f") && !Contains(g, "m"))
  {
    var g := Lower(if gender.Some? then gender.value else "");
    assert g == "female" ==> OccursAt(g, "f", 0);
    assert g == "male" ==> OccursAt(g, "m", 0);
    if Contains(g, "f") || g == "female" then Pink
    else if Contains(g, "m") || g == "male" then Blue
    else Gray
  }

  /** "female" is pink although it also holds an 'm'; "male" is blue;
      "other", "undisclosed" and no gender are gray. */
  lemma GenderColors()
    ensures GradientColors(Some("female")) == Pink
    ensures GradientColors(Some("male")) == Blue
    ensures GradientColors(Some("other")) == Gray
    ensures GradientColors(Some("undisclosed")) == Gray
    ensures GradientColors(None) == Gray
  {
    assert Lower("female") == "female" && OccursAt("female", "f", 0);
    assert Lower("male") == "male" && OccursAt("male", "m", 0);
    assert Lower("male")[1..] == "ale";
    assert !Contains("male", "f") by {
      forall i | 0 <= i <= 3 ensures !OccursAt("male", "f", i) {
        assert "male"[i..i + 1][0] == "male"[i];
      }
    }
    var o := Lower("other");
    assert o == "other";
    assert !Contains(o, "f") && !Contains(o, "m") by {
      forall i | 0 <= i <= 4 ensures !OccursAt(o, "f", i) && !OccursAt(o, "m", i) {
        assert o[i..i + 1][0] == o[i];
      }
    }
    var u := Lower("undisclosed");
    assert u == "undisclosed";
    assert !Contains(u, "f") && !Contains(u, "m") by {
      forall i | 0 <= i <= 10 ensures !OccursAt(u, "f", i) && !OccursAt(u, "m", i) {
        assert u[i..i + 1][0] == u[i];
      }
    }
  }
}
