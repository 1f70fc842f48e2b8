/** The dashboard's city list (`populateFilters`) and the city part of its filter
    (`applyFilters`, `resetFilters`). */
module Cities {
  import opened Json
  import opened Rows

  /** `row['Ville']`. */
  function VilleOf(row: Row): Value
  {
    if "Ville" in row.cells then row.cells["Ville"] else Null
  }

  /** c is a non-empty city name some row carries. */
  predicate IsCity(rows: seq<Row>, c: string)
  {
    c != "" && exists i :: 0 <= i < |rows| && VilleOf(rows[i]) == Str(c)
  }

  // ---------------------------------------------------------------------------
  // The order of Array.prototype.sort on strings

  /** Lexicographic order on character codes; a proper prefix comes first. */
  predicate LexLess(a: string, b: string)
    decreases |a|
  {
    |b| > 0 && (|a| == 0 || a[0] < b[0] || (a[0] == b[0] && LexLess(a[1..], b[1..])))
  }

  lemma {:induction false} LexLessIrreflexive(a: string)
    ensures !LexLess(a, a)
    decreases |a|
  {
    if |a| > 0 {
      LexLessIrreflexive(a[1..]);
    }
  }

  lemma {:induction false} LexLessTransitive(a: string, b: string, c: string)
    requires LexLess(a, b) && LexLess(b, c)
    ensures LexLess(a, c)
    decreases |a|
  {
    if |a| > 0 && a[0] == b[0] && b[0] == c[0] {
      LexLessTransitive(a[1..], b[1..], c[1..]);
    }
  }

  lemma {:induction false} LexLessTotal(a: string, b: string)
    requires a != b
    ensures LexLess(a, b) || LexLess(b, a)
    decreases |a|
  {
    if |a| > 0 && |b| > 0 && a[0] == b[0] {
      assert a == [a[0]] + a[1..] && b == [b[0]] + b[1..];
      LexLessTotal(a[1..], b[1..]);
    }
  }

  /** Sorted with no duplicates. */
  predicate StrictlySorted(s: seq<string>)
  {
    forall i, j :: 0 <= i < j < |s| ==> LexLess(s[i], s[j])
  }

  /** Put x in its place in a sorted list, unless it is already there. */
  function Insert(x: string, s: seq<string>): (r: seq<string>)
    requires StrictlySorted(s)
    ensures StrictlySorted(r)
    ensures forall y :: y in r <==> y == x || y in s
  {
    if s == [] then [x]
    else if x == s[0] then s
    else if LexLess(x, s[0]) then
      forall j | 0 < j < |s| ensures LexLess(x, s[j]) {
        LexLessTransitive(x, s[0], s[j]);
      }
      [x] + s
    else
      LexLessTotal(x, s[0]);
      var t := Insert(x, s[1..]);
      assert forall j :: 0 <= j < |t| ==> LexLess(s[0], t[j]) by {
        forall j | 0 <= j < |t| ensures LexLess(s[0], t[j]) {
          if t[j] != x {
            assert t[j] in t;
            assert t[j] in s[1..];
            var k :| 0 <= k < |s[1..]| && s[1..][k] == t[j];
            assert s[k + 1] == t[j];
          }
        }
      }
      [s[0]] + t
  }

  /** `[...new Set(data.map(r => r['Ville']).filter(Boolean))].sort()`, for text cities:
      every city exactly once, sorted. */
  function CityList(rows: seq<Row>): (r: seq<string>)
    ensures StrictlySorted(r)
    ensures forall c :: c in r <==> IsCity(rows, c)
  {
    if rows == [] then []
    else
      var init := rows[..|rows| - 1];
      var rest := CityList(init);
      var last := VilleOf(rows[|rows| - 1]);
      assert forall i :: 0 <= i < |init| ==> init[i] == rows[i];
      assert forall c :: IsCity(rows, c) <==> IsCity(init, c) || (c != "" && last == Str(c)) by {
        forall c ensures IsCity(rows, c) <==> IsCity(init, c) || (c != "" && last == Str(c)) {
          if IsCity(rows, c) && !(c != "" && last == Str(c)) {
            var i :| 0 <= i < |rows| && VilleOf(rows[i]) == Str(c);
            assert i < |init| && VilleOf(init[i]) == Str(c);
          }
          if IsCity(init, c) {
            var i :| 0 <= i < |init| && VilleOf(init[i]) == Str(c);
            assert VilleOf(rows[i]) == Str(c);
          }
        }
      }
      if last.Str? && last.s != "" then Insert(last.s, rest) else rest
  }

  /** The list's contract fixes it: two sorted lists of the same cities are equal. */
  lemma {:induction false} SortedListsAreUnique(a: seq<string>, b: seq<string>)
    requires StrictlySorted(a) && StrictlySorted(b)
    requires forall x :: x in a <==> x in b
    ensures a == b
    decreases |a|
  {
    if a != [] {
      assert a[0] in b;
    }
    if b != [] {
      assert b[0] in a;
    }
    if a != [] && b != [] {
      if a[0] != b[0] {
        assert b[0] in b && a[0] in a;
        var ka :| 0 <= ka < |a| && a[ka] == b[0];
        var kb :| 0 <= kb < |b| && b[kb] == a[0];
        assert ka > 0 && kb > 0;
        LexLessTransitive(a[0], a[ka], a[0]);
        LexLessIrreflexive(a[0]);
      }
      forall x ensures x in a[1..] <==> x in b[1..] {
        if x in a[1..] {
          var k :| 0 <= k < |a[1..]| && a[1..][k] == x;
          assert a[k + 1] == x && LexLess(a[0], x);
          LexLessIrreflexive(x);
          assert x in b;
          var m :| 0 <= m < |b| && b[m] == x;
          assert m != 0 && b[1..][m - 1] == x;
        }
        if x in b[1..] {
          var k :| 0 <= k < |b[1..]| && b[1..][k] == x;
          assert b[k + 1] == x && LexLess(b[0], x);
          LexLessIrreflexive(x);
          assert x in a;
          var m :| 0 <= m < |a| && a[m] == x;
          assert m != 0 && a[1..][m - 1] == x;
        }
      }
      SortedListsAreUnique(a[1..], b[1..]);
      assert a == [a[0]] + a[1..] && b == [b[0]] + b[1..];
    }
  }

  // ---------------------------------------------------------------------------
  // applyFilters, city part

  /** The filter's predicate: the city clause, then the date clause (given; its comparisons of
      JavaScript dates are not modelled). */
  predicate Keep(row: Row, ville: string, dateMatch: Row -> bool)
  {
    (ville == "" || VilleOf(row) == Str(ville)) && dateMatch(row)
  }

  /** a can be obtained from b by deleting elements. */
  predicate IsSubsequence<T(==)>(a: seq<T>, b: seq<T>)
    decreases |b|
  {
    if a == [] then true
    else if b == [] then false
    else (a[0] == b[0] && IsSubsequence(a[1..], b[1..])) || IsSubsequence(a, b[1..])
  }

  /** `this.data.filter(...)`: the kept rows, in their order. */
  function FilterRows(rows: seq<Row>, ville: string, dateMatch: Row -> bool): (r: seq<Row>)
    ensures IsSubsequence(r, rows)
    ensures forall x :: x in r ==> Keep(x, ville, dateMatch)
    ensures forall i :: 0 <= i < |rows| && Keep(rows[i], ville, dateMatch) ==> rows[i] in r
    ensures forall y :: multiset(r)[y] == if Keep(y, ville, dateMatch) then multiset(rows)[y] else 0
  {
    if rows == [] then []
    else
      var rest := FilterRows(rows[1..], ville, dateMatch);
      assert forall i :: 1 <= i < |rows| ==> rows[i] == rows[1..][i - 1];
      assert rows == [rows[0]] + rows[1..];
      assert multiset(rows) == multiset{rows[0]} + multiset(rows[1..]);
      if Keep(rows[0], ville, dateMatch) then
        assert ([rows[0]] + rest)[1..] == rest;
        [rows[0]] + rest
      else rest
  }

  /** With no city and no date clause the filter keeps everything: the same rows that
      `resetFilters` puts back. */
  lemma {:induction false} FilterWithoutCriteriaKeepsAll(rows: seq<Row>, dateMatch: Row -> bool)
    requires forall row :: dateMatch(row)
    ensures FilterRows(rows, "", dateMatch) == rows
  {
    if rows != [] {
      FilterWithoutCriteriaKeepsAll(rows[1..], dateMatch);
    }
  }

  /** With no date clause set, choosing any offered city shows at least one row of that city. */
  lemma ListedCityHasRows(rows: seq<Row>, c: string, dateMatch: Row -> bool)
    requires c in CityList(rows)
    requires forall row :: dateMatch(row)
    ensures exists x :: x in FilterRows(rows, c, dateMatch) && VilleOf(x) == Str(c)
  {
    var i :| 0 <= i < |rows| && VilleOf(rows[i]) == Str(c);
    assert Keep(rows[i], c, dateMatch);
  }
}
