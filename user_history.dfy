/** The archive page (project/src/components/UserHistory.tsx): the row type
    it receives, the search/role/company filter and the duplicate-free
    option lists of its two drop-downs. Case folding is ASCII only. */
module UserHistoryPage {

  /** One display row of a completed interview. */
  datatype Interview = Interview(
    id: string,
    date: string,
    time: string,
    role: string,
    company: string,
    score: real,
    status: string)

  // ---------------------------------------------------------------------
  // Sequences: subsequences and duplicate freedom
  // ---------------------------------------------------------------------

  /** `a` is `b` with some elements dropped and the rest in their order. */
  predicate IsSubsequence<T(==)>(a: seq<T>, b: seq<T>)
    decreases |b|
  {
    a == [] || (b != [] && ((a[0] == b[0] && IsSubsequence(a[1..], b[1..])) || IsSubsequence(a, b[1..])))
  }

  predicate NoDuplicates<T(==)>(s: seq<T>) {
    forall i, j :: 0 <= i < j < |s| ==> s[i] != s[j]
  }

  /** `Array.from(new Set(s))`: the distinct elements of `s`. */
  function Distinct(s: seq<string>): (r: seq<string>)
    ensures NoDuplicates(r)
    ensures forall x :: x in r <==> x in s
    decreases |s|
  {
    if s == [] then []
    else
      var d := Distinct(s[..|s| - 1]);
      var x := s[|s| - 1];
      assert forall y :: y in s <==> y in s[..|s| - 1] || y == x by {
        assert s == s[..|s| - 1] + [x];
      }
      if x in d then d else d + [x]
  }

  /** The role drop-down: each role that occurs in the archive, once. */
  function UniqueRoles(interviews: seq<Interview>): (r: seq<string>)
    ensures NoDuplicates(r)
    ensures forall x :: x in r <==> exists k :: 0 <= k < |interviews| && interviews[k].role == x
  {
    var roles := seq(|interviews|, k requires 0 <= k < |interviews| => interviews[k].role);
    assert forall x :: x in roles <==> exists k :: 0 <= k < |interviews| && interviews[k].role == x by {
      forall x ensures x in roles <==> exists k :: 0 <= k < |interviews| && interviews[k].role == x {
        if x in roles {
          var k :| 0 <= k < |roles| && roles[k] == x;
          assert interviews[k].role == x;
        }
        if exists k :: 0 <= k < |interviews| && interviews[k].role == x {
          var k :| 0 <= k < |interviews| && interviews[k].role == x;
          assert roles[k] == x;
        }
      }
    }
    Distinct(roles)
  }

  /** The company drop-down: each company that occurs in the archive, once. */
  function UniqueCompanies(interviews: seq<Interview>): (r: seq<string>)
    ensures NoDuplicates(r)
    ensures forall x :: x in r <==> exists k :: 0 <= k < |interviews| && interviews[k].company == x
  {
    var companies := seq(|interviews|, k requires 0 <= k < |interviews| => interviews[k].company);
    assert forall x :: x in companies <==> exists k :: 0 <= k < |interviews| && interviews[k].company == x by {
      forall x ensures x in companies <==> exists k :: 0 <= k < |interviews| && interviews[k].company == x {
        if x in companies {
          var k :| 0 <= k < |companies| && companies[k] == x;
          assert interviews[k].company == x;
        }
        if exists k :: 0 <= k < |interviews| && interviews[k].company == x {
          var k :| 0 <= k < |interviews| && interviews[k].company == x;
          assert companies[k] == x;
        }
      }
    }
    Distinct(companies)
  }

  // ---------------------------------------------------------------------
  // The filter
  // ---------------------------------------------------------------------

  predicate IsUpper(c: char) {
    'A' <= c <= 'Z'
  }

  function ToLowerChar(c: char): char {
    if IsUpper(c) then (c as int + 32) as char else c
  }

  /** `toLowerCase`, restricted to ASCII letters: no capital letter is left,
      each capital becomes its small letter (code point + 32), and every
      other character is kept. */
  function ToLower(s: string): (r: string)
    ensures |r| == |s|
    ensures forall i :: 0 <= i < |r| ==> !IsUpper(r[i])
    ensures forall i :: 0 <= i < |s| && IsUpper(s[i]) ==> r[i] as int == s[i] as int + 32
    ensures forall i :: 0 <= i < |s| && !IsUpper(s[i]) ==> r[i] == s[i]
  {
    seq(|s|, i requires 0 <= i < |s| => ToLowerChar(s[i]))
  }

  /** Lower-casing twice is lower-casing once. */
  lemma ToLowerIdempotent(s: string)
    ensures ToLower(ToLower(s)) == ToLower(s)
  {
  }

  /** `s.includes(sub)`: `sub` starts at some position of `s`. */
  predicate Includes(s: string, sub: string)
    decreases |s|
  {
    sub <= s || (s != [] && Includes(s[1..], sub))
  }

  /** The three conditions a row must meet to be listed. */
  predicate Matches(row: Interview, searchTerm: string, filterRole: string, filterCompany: string) {
    && (Includes(ToLower(row.role), ToLower(searchTerm)) || Includes(ToLower(row.company), ToLower(searchTerm)))
    && (filterRole == "" || row.role == filterRole)
    && (filterCompany == "" || row.company == filterCompany)
  }

  /** The search is case-insensitive: a lower-cased search term selects the
      same rows as the term as typed. */
  lemma MatchesIgnoresSearchCase(row: Interview, searchTerm: string, filterRole: string, filterCompany: string)
    ensures Matches(row, ToLower(searchTerm), filterRole, filterCompany)
            == Matches(row, searchTerm, filterRole, filterCompany)
  {
    ToLowerIdempotent(searchTerm);
  }

  /** `filteredInterviews`: the matching rows, in archive order. */
  function FilterInterviews(interviews: seq<Interview>, searchTerm: string, filterRole: string, filterCompany: string)
    : (r: seq<Interview>)
    ensures IsSubsequence(r, interviews)
    ensures forall x :: multiset(r)[x] == if Matches(x, searchTerm, filterRole, filterCompany) then multiset(interviews)[x] else 0
    decreases |interviews|
  {
    if interviews == [] then []
    else
      var rest := FilterInterviews(interviews[1..], searchTerm, filterRole, filterCompany);
      assert interviews == [interviews[0]] + interviews[1..];
      if Matches(interviews[0], searchTerm, filterRole, filterCompany) then [interviews[0]] + rest else rest
  }

  /** Every listed row meets all three conditions. */
  lemma FilteredRowsMatch(interviews: seq<Interview>, searchTerm: string, filterRole: string, filterCompany: string)
    ensures forall x :: x in FilterInterviews(interviews, searchTerm, filterRole, filterCompany) ==>
              x in interviews && Matches(x, searchTerm, filterRole, filterCompany)
  {
  }

  /** With an empty search and no role or company filter, every row is listed. */
  lemma {:induction false} EmptyFilterKeepsAll(interviews: seq<Interview>)
    ensures FilterInterviews(interviews, "", "", "") == interviews
    decreases |interviews|
  {
    if interviews != [] {
      assert ToLower("") == "";
      EmptyFilterKeepsAll(interviews[1..]);
    }
  }

  /** Filtering an already filtered list changes nothing. */
  lemma {:induction false} FilterIdempotent(interviews: seq<Interview>, searchTerm: string, filterRole: string, filterCompany: string)
    ensures var once := FilterInterviews(interviews, searchTerm, filterRole, filterCompany);
            FilterInterviews(once, searchTerm, filterRole, filterCompany) == once
    decreases |interviews|
  {
    if interviews != [] {
      FilterIdempotent(interviews[1..], searchTerm, filterRole, filterCompany);
    }
  }
}
