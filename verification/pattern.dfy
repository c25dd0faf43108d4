/** The two regular expressions backend/server.js applies to the slicing
    engine's standard output, `/Filament used: ([0-9.]+)m/` and
    `/Print time: ([0-9.]+)min/`: a literal tag, a captured non-empty run
    of digits and dots, and a literal unit. `String.prototype.match`
    without the global flag returns the leftmost match. */
module Pattern {
  import opened Wrappers
  import opened Text

  const FilamentLabel: string := "Filament used: "
  const FilamentUnit: string := "m"
  const TimeLabel: string := "Print time: "
  const TimeUnit: string := "min"

  /** The character class `[0-9.]`. */
  predicate RunChar(c: char)
  {
    IsDigit(c) || c == '.'
  }

  predicate AllRun(s: string)
  {
    forall i :: 0 <= i < |s| ==> RunChar(s[i])
  }

  /** The regular expression `tag([0-9.]+)unit` matches `s` at index `i`
      with capture `cap`: this is its meaning, independent of how a matcher
      searches. */
  predicate MatchesWith(s: string, i: nat, tag: string, cap: string, unit: string)
  {
    i <= |s| && |cap| > 0 && AllRun(cap) && StartsWith(s[i..], tag + cap + unit)
  }

  /** Length of the run of `[0-9.]` characters starting at `p`. */
  function RunLength(s: string, p: nat): (n: nat)
    requires p <= |s|
    ensures p + n <= |s|
    ensures forall k :: p <= k < p + n ==> RunChar(s[k])
    ensures p + n < |s| ==> !RunChar(s[p + n])
    decreases |s| - p
  {
    if p < |s| && RunChar(s[p]) then 1 + RunLength(s, p + 1) else 0
  }

  /** A greedy attempt at index `i`: the tag, then the longest run, then
      the unit. */
  function MatchAt(s: string, i: nat, tag: string, unit: string): (r: Option<string>)
    requires i <= |s|
  {
    if !StartsWith(s[i..], tag) then None
    else
      var p := i + |tag|;
      var n := RunLength(s, p);
      if n > 0 && StartsWith(s[p + n..], unit) then Some(s[p..p + n]) else None
  }

  /** A unit that does not begin with a run character. Then a capture can
      only end where the run ends, so the greedy attempt finds every match
      that backtracking would. */
  predicate UnitStopsRun(unit: string)
  {
    |unit| > 0 && !RunChar(unit[0])
  }

  /** The greedy attempt succeeds exactly when the expression matches, and
      then captures what the expression captures. */
  lemma MatchAtIff(s: string, i: nat, tag: string, unit: string, cap: string)
    requires i <= |s| && UnitStopsRun(unit)
    ensures MatchAt(s, i, tag, unit) == Some(cap) <==> MatchesWith(s, i, tag, cap, unit)
  {
    if MatchAt(s, i, tag, unit) == Some(cap) {
      var p := i + |tag|;
      var n := RunLength(s, p);
      assert s[i..][..|tag + cap + unit|] == tag + cap + unit by {
        assert s[i..][..|tag|] == tag;
        assert s[p..p + n] == cap;
        assert s[p + n..][..|unit|] == unit;
        assert s[i..][..|tag + cap + unit|] == s[i..][..|tag|] + s[p..p + n] + s[p + n..][..|unit|];
      }
    }
    if MatchesWith(s, i, tag, cap, unit) {
      MatchesPinned(s, i, tag, cap, unit);
    }
  }

  lemma MatchesPinned(s: string, i: nat, tag: string, cap: string, unit: string)
    requires MatchesWith(s, i, tag, cap, unit) && UnitStopsRun(unit)
    ensures MatchAt(s, i, tag, unit) == Some(cap)
  {
    var w := tag + cap + unit;
    var p := i + |tag|;
    var e := p + |cap|;
    assert forall j :: i <= j < i + |w| ==> s[j] == w[j - i] by {
      assert forall j :: 0 <= j < |w| ==> s[i..][..|w|][j] == s[i + j];
    }
    assert s[i..][..|tag|] == tag;
    forall k | p <= k < e
      ensures RunChar(s[k])
    {
      assert s[k] == w[k - i] == cap[k - p];
    }
    assert !RunChar(s[e]) by {
      assert s[e] == w[e - i] == unit[0];
    }
    RunLengthIs(s, p, |cap|);
    assert s[p..e] == cap by {
      assert forall k :: 0 <= k < |cap| ==> s[p..e][k] == w[|tag| + k];
    }
    assert s[e..][..|unit|] == unit by {
      assert forall k :: 0 <= k < |unit| ==> s[e..][..|unit|][k] == w[|tag| + |cap| + k];
    }
  }

  /** `RunLength` is the length of the maximal run. */
  lemma {:induction false} RunLengthIs(s: string, p: nat, m: nat)
    requires p + m <= |s|
    requires forall k :: p <= k < p + m ==> RunChar(s[k])
    requires p + m < |s| ==> !RunChar(s[p + m])
    ensures RunLength(s, p) == m
    decreases m
  {
    if m > 0 {
      RunLengthIs(s, p + 1, m - 1);
    }
  }

  /** At most one capture can follow the tag at a given index. */
  lemma CaptureUnique(s: string, i: nat, tag: string, c1: string, c2: string, unit: string)
    requires UnitStopsRun(unit)
    requires MatchesWith(s, i, tag, c1, unit) && MatchesWith(s, i, tag, c2, unit)
    ensures c1 == c2
  {
    MatchesPinned(s, i, tag, c1, unit);
    MatchesPinned(s, i, tag, c2, unit);
  }

  /** The leftmost match at or after `from`. */
  function FirstMatch(s: string, tag: string, unit: string, from: nat): (r: Option<string>)
    requires from <= |s|
    decreases |s| - from
  {
    var here := MatchAt(s, from, tag, unit);
    if here.Some? then here
    else if from == |s| then None
    else FirstMatch(s, tag, unit, from + 1)
  }

  /** `FirstMatch` returns the attempt at the first index where one
      succeeds, and None when none does. */
  lemma {:induction false} FirstMatchIsFirst(s: string, tag: string, unit: string, from: nat)
    requires from <= |s|
    ensures FirstMatch(s, tag, unit, from).Some? ==>
      exists i :: from <= i <= |s| && MatchAt(s, i, tag, unit) == FirstMatch(s, tag, unit, from)
        && forall j :: from <= j < i ==> MatchAt(s, j, tag, unit).None?
    ensures FirstMatch(s, tag, unit, from).None? ==>
      forall i :: from <= i <= |s| ==> MatchAt(s, i, tag, unit).None?
    decreases |s| - from
  {
    if MatchAt(s, from, tag, unit).Some? {
      assert NoMatchBetween(s, tag, unit, from, from);
    } else if from < |s| {
      FirstMatchIsFirst(s, tag, unit, from + 1);
      var r := FirstMatch(s, tag, unit, from + 1);
      if r.Some? {
        var i :| from + 1 <= i <= |s| && MatchAt(s, i, tag, unit) == r
          && forall j :: from + 1 <= j < i ==> MatchAt(s, j, tag, unit).None?;
        NoMatchExtends(s, tag, unit, from, i);
      }
    }
  }

  /** No attempt succeeds at an index in `[from, i)`. */
  predicate NoMatchBetween(s: string, tag: string, unit: string, from: nat, i: nat)
    requires i <= |s| + 1
  {
    forall j :: from <= j < i ==> MatchAt(s, j, tag, unit).None?
  }

  lemma NoMatchExtends(s: string, tag: string, unit: string, from: nat, i: nat)
    requires from < i <= |s|
    requires MatchAt(s, from, tag, unit).None?
    requires NoMatchBetween(s, tag, unit, from + 1, i)
    ensures NoMatchBetween(s, tag, unit, from, i)
  {
  }

  /** `s.match(/tag([0-9.]+)unit/)?.[1]`. */
  function Capture(s: string, tag: string, unit: string): Option<string>
  {
    FirstMatch(s, tag, unit, 0)
  }

  /** A capture is a non-empty run of digits and dots that the expression
      matches at the leftmost index where it matches at all. */
  lemma CaptureIsLeftmost(s: string, tag: string, unit: string)
    requires UnitStopsRun(unit)
    ensures Capture(s, tag, unit).Some? ==>
      var c := Capture(s, tag, unit).value;
      |c| > 0 && AllRun(c) &&
      exists i :: 0 <= i <= |s| && MatchesWith(s, i, tag, c, unit) &&
        forall j, d :: 0 <= j < i ==> !MatchesWith(s, j, tag, d, unit)
    ensures Capture(s, tag, unit).None? ==>
      forall i, d :: 0 <= i <= |s| ==> !MatchesWith(s, i, tag, d, unit)
  {
    var r := Capture(s, tag, unit);
    FirstMatchIsFirst(s, tag, unit, 0);
    if r.Some? {
      var i :| 0 <= i <= |s| && MatchAt(s, i, tag, unit) == r
        && forall j :: 0 <= j < i ==> MatchAt(s, j, tag, unit).None?;
      MatchAtIff(s, i, tag, unit, r.value);
      forall j, d | 0 <= j < i
        ensures !MatchesWith(s, j, tag, d, unit)
      {
        MatchAtIff(s, j, tag, unit, d);
      }
    } else {
      forall i, d | 0 <= i <= |s|
        ensures !MatchesWith(s, i, tag, d, unit)
      {
        MatchAtIff(s, i, tag, unit, d);
      }
    }
  }

  lemma UnitsStopRuns()
    ensures UnitStopsRun(FilamentUnit) && UnitStopsRun(TimeUnit)
  {
  }

  /** The engine's usual line yields the number before the unit. */
  lemma CaptureExample()
    ensures Capture("Filament used: 12.5m", FilamentLabel, FilamentUnit) == Some("12.5")
  {
    var s := "Filament used: 12.5m";
    assert s == FilamentLabel + "12.5" + FilamentUnit;
    MatchesPinned(s, 0, FilamentLabel, "12.5", FilamentUnit);
  }
}
