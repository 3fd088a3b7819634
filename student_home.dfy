/** The student's teacher search: a case-insensitive text search on name and
    style combined with a case-sensitive category match, and the count line. */
module StudentHome {
  import opened Wrappers
  import Lists
  import Text
  import opened DataContext

  /** The category button that matches every teacher. */
  const AllCategories := "Tous"

  /** Name or style contains the query, both lowered. */
  predicate MatchesSearch(t: Teacher, query: string)
    ensures query == "" ==> MatchesSearch(t, query)
  {
    Text.ContainsEmpty(Text.Lower(t.name));
    Text.Contains(Text.Lower(t.name), Text.Lower(query))
    || Text.Contains(Text.Lower(t.style), Text.Lower(query))
  }

  /** The category is "Tous", or some entry of `styles` or `style` contains it,
      without lowering. */
  predicate MatchesCategory(t: Teacher, category: string)
    ensures category == AllCategories ==> MatchesCategory(t, category)
    ensures category in t.styles || category == t.style ==> MatchesCategory(t, category)
  {
    category == AllCategories
    || (exists i :: 0 <= i < |t.styles| && Text.Contains(t.styles[i], category))
    || Text.Contains(t.style, category)
  }

  predicate Matches(t: Teacher, query: string, category: string)
  {
    MatchesSearch(t, query) && MatchesCategory(t, category)
  }

  /** `filteredTeachers`: the teachers kept are exactly those matching both
      the search and the category, in their original order. */
  function FilteredTeachers(ts: seq<Teacher>, query: string, category: string): (r: seq<Teacher>)
    ensures forall t :: t in r <==> t in ts && MatchesSearch(t, query) && MatchesCategory(t, category)
    ensures forall t :: multiset(r)[t] == if Matches(t, query, category) then multiset(ts)[t] else 0
    ensures Lists.IsSubsequence(r, ts)
  {
    Lists.FilterMultiplicity(t => Matches(t, query, category), ts);
    Lists.FilterIsSubsequence(t => Matches(t, query, category), ts);
    Lists.Filter(t => Matches(t, query, category), ts)
  }

  /** An empty search under "Tous" lists every teacher. */
  lemma EmptySearchListsAll(ts: seq<Teacher>)
    ensures FilteredTeachers(ts, "", AllCategories) == ts
  {
    forall t | t in ts ensures Matches(t, "", AllCategories) {
      Text.ContainsEmpty(Text.Lower(t.name));
    }
    Lists.FilterKeepsAll(t => Matches(t, "", AllCategories), ts);
  }

  /** The search ignores case: two queries that lower to the same text give
      the same result; in particular lowering the query changes nothing. */
  lemma SearchIgnoresCase(ts: seq<Teacher>, q1: string, q2: string, category: string)
    requires Text.Lower(q1) == Text.Lower(q2)
    ensures FilteredTeachers(ts, q1, category) == FilteredTeachers(ts, q2, category)
    ensures FilteredTeachers(ts, Text.Lower(q1), category) == FilteredTeachers(ts, q1, category)
  {
    Text.LowerIdempotent(q1);
    Lists.FilterAgree(t => Matches(t, q1, category), t => Matches(t, q2, category), ts);
    Lists.FilterAgree(t => Matches(t, Text.Lower(q1), category), t => Matches(t, q1, category), ts);
  }

  /** The category test does not lower: a teacher of style "Ballet" is found
      by the search "ballet" but not under the category "ballet". */
  lemma CategoryIsCaseSensitive()
    ensures var t := Teacher(1, "Sophie", "Ballet", ["Ballet"], "Paris", "30", None);
      && MatchesSearch(t, "ballet") && MatchesCategory(t, "Ballet") && !MatchesCategory(t, "ballet")
  {
    var t := Teacher(1, "Sophie", "Ballet", ["Ballet"], "Paris", "30", None);
    assert Text.Lower("ballet") == "ballet";
    assert Text.Lower("Ballet") == "ballet";
    assert Text.StartsWith(Text.Lower(t.style), Text.Lower("ballet"));
    assert Text.StartsWith(t.style, "Ballet");
    Text.ContainsIff(t.style, "ballet");
    Text.ContainsIff("Ballet", "ballet");
    assert !Text.OccursAt("Ballet", "ballet", 0) by { assert "Ballet"[0] != "ballet"[0]; }
  }

  const PluralNoun := "Professeurs trouvés"
  const SingularNoun := "Professeur trouvé"

  /** The noun of the count line: plural exactly for more than one teacher. */
  function ResultNoun(n: nat): (noun: string)
    ensures noun == PluralNoun <==> n > 1
  {
    if n > 1 then PluralNoun else SingularNoun
  }

  /** The count line for `n` teachers: `parseInt` reads `n` back from it,
      and what follows the number is the plural noun exactly when `n > 1`. */
  function CountLine(n: nat): (line: string)
    ensures Text.ParseInt(line) == Some(n)
    ensures |Text.NatToString(n)| < |line|
    ensures line[|Text.NatToString(n)|..] == " " + PluralNoun <==> n > 1
  {
    var digits := Text.NatToString(n);
    var rest := " " + ResultNoun(n);
    assert rest[0] == ' ';
    Text.ParseIntLeadingDigits(digits, rest);
    var line := digits + rest;
    assert line[|digits|..] == rest;
    assert rest == " " + PluralNoun <==> ResultNoun(n) == PluralNoun by {
      if rest == " " + PluralNoun { assert rest[1..] == ResultNoun(n); }
    }
    line
  }

  /** The line above the results. */
  function ResultLine(ts: seq<Teacher>, query: string, category: string): (line: string)
    ensures Text.ParseInt(line) == Some(|FilteredTeachers(ts, query, category)|)
    ensures |FilteredTeachers(ts, query, category)| <= |ts|
  {
    CountLine(|FilteredTeachers(ts, query, category)|)
  }
}
