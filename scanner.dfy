/**
 * The relay's reading of the downloader's output: each chunk written to
 * standard output or standard error is searched for a percentage with the
 * regular expression `(\d+\.\d)%`, and standard-error chunks without one are
 * checked for the word "error" in any letter case.
 */
module Scanner {
  import opened Wrappers
  import opened Text
  import opened Events

  datatype Stream = Stdout | Stderr

  /**
   * The expression `\d+\.\d%` matches `s` at `i` with its run of digits
   * ending at `k`: digits `s[i..k]`, then `.`, one digit and `%`.
   */
  predicate MatchSpan(s: string, i: nat, k: nat) {
    i < k && k + 3 <= |s| && AllDigits(s[i..k]) && s[k] == '.' && IsDigit(s[k + 1]) && s[k + 2] == '%'
  }

  /** Some match of the expression starts at `i`. */
  ghost predicate MatchesAt(s: string, i: nat) {
    exists k: nat :: MatchSpan(s, i, k)
  }

  /** The chunk contains a percentage anywhere. */
  ghost predicate HasMatch(s: string) {
    exists i: nat :: MatchesAt(s, i)
  }

  /** The match at `i`..`k` is the one a regular-expression search reports: no match starts earlier. */
  ghost predicate IsLeftmost(s: string, i: nat, k: nat) {
    MatchSpan(s, i, k) && forall j: nat :: j < i ==> !MatchesAt(s, j)
  }

  /** The percentage, in tenths, that `parseFloat` reads from the captured group of a match. */
  function Tenths(s: string, i: nat, k: nat): nat
    requires MatchSpan(s, i, k)
  {
    DigitsValue(s[i..k]) * 10 + DigitValue(s[k + 1])
  }

  /** The end of the maximal run of digits that starts at `i`. */
  function RunEnd(s: string, i: nat): (j: nat)
    requires i <= |s|
    ensures i <= j <= |s| && AllDigits(s[i..j])
    ensures j < |s| ==> !IsDigit(s[j])
    decreases |s| - i
  {
    if i < |s| && IsDigit(s[i]) then
      var j := RunEnd(s, i + 1);
      assert s[i..j] == [s[i]] + s[i + 1..j];
      j
    else
      i
  }

  /**
   * Every match that starts inside a run of digits uses the whole rest of
   * that run: `\d+` cannot stop before the `.`, and cannot cross it.
   */
  lemma SpanEndsAtRunEnd(s: string, i: nat, k: nat, j: nat)
    requires i <= j <= |s| && AllDigits(s[i..j]) && (j < |s| ==> !IsDigit(s[j]))
    requires MatchSpan(s, i, k)
    ensures k == j
  {
  }

  /** When the run of digits from `from` to `j` is not followed by `.`, a digit and `%`, no match starts inside it. */
  lemma NoMatchInsideRun(s: string, from: nat, j: nat)
    requires from <= j <= |s| && AllDigits(s[from..j]) && (j < |s| ==> !IsDigit(s[j]))
    requires !(j + 3 <= |s| && s[j] == '.' && IsDigit(s[j + 1]) && s[j + 2] == '%')
    ensures forall m: nat :: from <= m < j ==> !MatchesAt(s, m)
  {
    forall m: nat, k: nat | from <= m < j
      ensures !MatchSpan(s, m, k)
    {
      if MatchSpan(s, m, k) {
        assert s[from..j][m - from..] == s[m..j];
        SpanEndsAtRunEnd(s, m, k, j);
      }
    }
  }

  datatype Found = Found(start: nat, dot: nat)

  /** The leftmost match starting at or after `from`, found one run of digits at a time. */
  function FindFrom(s: string, from: nat): (r: Option<Found>)
    requires from <= |s|
    ensures r.Some? ==> MatchSpan(s, r.value.start, r.value.dot)
    decreases |s| - from
  {
    if from == |s| then
      None
    else if !IsDigit(s[from]) then
      FindFrom(s, from + 1)
    else
      var j := RunEnd(s, from);
      if j + 3 <= |s| && s[j] == '.' && IsDigit(s[j + 1]) && s[j + 2] == '%' then
        Some(Found(from, j))
      else
        FindFrom(s, j)
  }

  /**
   * The scan reports a match at or after `from` exactly when there is one,
   * and then the leftmost one.
   */
  lemma {:induction false} FindFromMeaning(s: string, from: nat)
    requires from <= |s|
    ensures var r := FindFrom(s, from);
      && (r.Some? ==> from <= r.value.start)
      && (r.Some? ==> forall j: nat :: from <= j < r.value.start ==> !MatchesAt(s, j))
      && (r.None? ==> forall j: nat :: from <= j ==> !MatchesAt(s, j))
    decreases |s| - from
  {
    if from == |s| {
      assert forall j: nat, k: nat :: from <= j ==> !MatchSpan(s, j, k);
    } else if !IsDigit(s[from]) {
      FindFromMeaning(s, from + 1);
      NoMatchAtNonDigit(s, from);
    } else {
      var j := RunEnd(s, from);
      if !(j + 3 <= |s| && s[j] == '.' && IsDigit(s[j + 1]) && s[j + 2] == '%') {
        NoMatchInsideRun(s, from, j);
        FindFromMeaning(s, j);
      }
    }
  }

  /** Two matches that start at the same place end at the same place. */
  lemma SpanUnique(s: string, i: nat, k1: nat, k2: nat)
    requires MatchSpan(s, i, k1) && MatchSpan(s, i, k2)
    ensures k1 == k2
  {
    var j := RunEnd(s, i);
    SpanEndsAtRunEnd(s, i, k1, j);
    SpanEndsAtRunEnd(s, i, k2, j);
  }

  /**
   * The percentage the relay reads from a chunk: present exactly when the
   * chunk contains a match, and then the value of the leftmost match.
   */
  function ExtractPercent(s: string): (r: Option<nat>)
    ensures r.Some? ==> exists i: nat, k: nat :: IsLeftmost(s, i, k) && r.value == Tenths(s, i, k)
    ensures r.None? ==> !HasMatch(s)
  {
    FindFromMeaning(s, 0);
    match FindFrom(s, 0)
    case None =>
      assert forall i: nat, k: nat :: MatchSpan(s, i, k) ==> MatchesAt(s, i);
      None
    case Some(f) =>
      assert IsLeftmost(s, f.start, f.dot);
      Some(Tenths(s, f.start, f.dot))
  }

  lemma ExtractPercentMeaning(s: string)
    ensures ExtractPercent(s).Some? <==> HasMatch(s)
    ensures forall i: nat, k: nat :: IsLeftmost(s, i, k) ==> ExtractPercent(s) == Some(Tenths(s, i, k))
  {
    FindFromMeaning(s, 0);
    match FindFrom(s, 0)
    case None =>
      assert forall i: nat, k: nat :: MatchSpan(s, i, k) ==> MatchesAt(s, i);
    case Some(f) =>
      assert MatchesAt(s, f.start);
      LeftmostIsFound(s, f);
  }

  lemma LeftmostIsFound(s: string, f: Found)
    requires MatchSpan(s, f.start, f.dot)
    requires forall j: nat :: j < f.start ==> !MatchesAt(s, j)
    ensures forall i: nat, k: nat :: IsLeftmost(s, i, k) ==> i == f.start && k == f.dot
  {
    forall i: nat, k: nat | IsLeftmost(s, i, k)
      ensures i == f.start && k == f.dot
    {
      assert MatchesAt(s, i);
      assert MatchesAt(s, f.start);
      SpanUnique(s, i, k, f.dot);
    }
  }

  /**
   * The captured integer part is a whole run of digits: the reported match
   * never starts right after another digit.
   */
  lemma LeftmostTakesWholeRun(s: string, i: nat, k: nat)
    requires IsLeftmost(s, i, k)
    ensures i == 0 || !IsDigit(s[i - 1])
  {
    if i > 0 && IsDigit(s[i - 1]) {
      ExtendLeft(s, i, k);
    }
  }

  lemma ExtendLeft(s: string, i: nat, k: nat)
    requires MatchSpan(s, i, k) && i > 0 && IsDigit(s[i - 1])
    ensures MatchesAt(s, i - 1)
  {
    assert s[i - 1..k] == [s[i - 1]] + s[i..k];
    assert MatchSpan(s, i - 1, k);
  }

  /** No match starts at a character that is not a digit. */
  lemma NoMatchAtNonDigit(s: string, j: nat)
    requires j < |s| && !IsDigit(s[j])
    ensures !MatchesAt(s, j)
  {
    forall k: nat | MatchSpan(s, j, k) ensures false {
    }
  }

  /** The chunk, lower-cased in ASCII, contains `error`. */
  ghost predicate MentionsError(s: string) {
    exists i: nat :: OccursAt(Lower(s), "error", i)
  }

  /**
   * What the relay broadcasts for one chunk: a percentage from either
   * stream, else, on standard error only, the fixed failure message when the
   * chunk mentions an error, else nothing. So a chunk never yields a
   * completion or the exit failure, and standard output never yields an error.
   */
  function Classify(stream: Stream, chunk: string): (r: Option<Event>)
    ensures r.Some? ==> r.value.Progress? || r.value == Failure(ChunkErrorMessage)
    ensures stream == Stdout ==> r.None? || r.value.Progress?
  {
    match ExtractPercent(chunk)
    case Some(t) => Some(Progress(t))
    case None =>
      if stream == Stderr && Contains(Lower(chunk), "error") then Some(Failure(ChunkErrorMessage)) else None
  }

  /**
   * Standard output yields a percentage or nothing; a percentage, from the
   * leftmost match, wins on either stream; otherwise a standard-error chunk
   * that mentions an error yields the fixed failure message.
   */
  lemma ClassifyMeaning(stream: Stream, chunk: string)
    ensures var r := Classify(stream, chunk);
      && (stream == Stdout ==> r.None? || r.value.Progress?)
      && ((r.Some? && r.value.Progress?) <==> HasMatch(chunk))
      && (forall i: nat, k: nat :: IsLeftmost(chunk, i, k) ==> r == Some(Progress(Tenths(chunk, i, k))))
      && ((r.Some? && r.value.Failure?) <==> stream == Stderr && !HasMatch(chunk) && MentionsError(chunk))
      && (r.Some? && r.value.Failure? ==> r.value.message == ChunkErrorMessage)
      && (r.Some? ==> !r.value.Completed?)
  {
    ExtractPercentMeaning(chunk);
  }

  /** A chunk without `%` holds no percentage. */
  lemma NoPercentSignNoMatch(s: string)
    requires forall q :: 0 <= q < |s| ==> s[q] != '%'
    ensures !HasMatch(s)
  {
    forall i: nat, k: nat | MatchSpan(s, i, k) ensures false {
      assert s[k + 2] == '%';
    }
  }

  lemma ExampleLeadingText()
    ensures ExtractPercent("  12.3% of 10MiB") == Some(123)
  {
    var s := "  12.3% of 10MiB";
    ExtractPercentMeaning(s);
    NoMatchAtNonDigit(s, 0);
    NoMatchAtNonDigit(s, 1);
    assert s[2..4] == "12" && "12"[..1] == "1" && "1"[..0] == "";
    assert IsLeftmost(s, 2, 4);
    assert Tenths(s, 2, 4) == 123;
  }

  lemma ExampleWholeRun()
    ensures ExtractPercent("x912.3%") == Some(9123)
  {
    var s := "x912.3%";
    ExtractPercentMeaning(s);
    NoMatchAtNonDigit(s, 0);
    assert s[1..4] == "912";
    assert DigitsValue("9") == 9 by { assert "9"[..0] == ""; }
    assert DigitsValue("91") == 91 by { assert "91"[..1] == "9"; }
    assert DigitsValue("912") == 912 by { assert "912"[..2] == "91"; }
    assert IsLeftmost(s, 1, 4);
    assert Tenths(s, 1, 4) == 9123;
  }

  lemma ExampleNotClamped()
    ensures ExtractPercent("250.0%") == Some(2500)
  {
    var s := "250.0%";
    ExtractPercentMeaning(s);
    assert s[0..3] == "250" && "250"[..2] == "25" && "25"[..1] == "2" && "2"[..0] == "";
    assert IsLeftmost(s, 0, 3);
    assert Tenths(s, 0, 3) == 2500;
  }

  lemma ExampleTwoFractionDigits()
    ensures ExtractPercent("12.34%") == None
  {
    var s := "12.34%";
    ExtractPercentMeaning(s);
    forall i: nat, k: nat | MatchSpan(s, i, k) ensures false {
    }
  }

  lemma ExampleFirstMatchWins()
    ensures ExtractPercent("5.0% then 7.5%") == Some(50)
  {
    var s := "5.0% then 7.5%";
    ExtractPercentMeaning(s);
    assert s[0..1] == "5" && "5"[..0] == "";
    assert IsLeftmost(s, 0, 1);
    assert Tenths(s, 0, 1) == 50;
  }

  /**
   * A standard-error chunk without a percentage that contains `error` in any
   * letter case, such as `ERROR:` or `Error`, is reported as a failure; the
   * same chunk on standard output is ignored.
   */
  lemma ErrorInAnyCase(s: string, i: nat)
    requires i + 5 <= |s| && Lower(s[i..i + 5]) == "error"
    requires forall q :: 0 <= q < |s| ==> s[q] != '%'
    ensures Classify(Stderr, s) == Some(Failure(ChunkErrorMessage))
    ensures Classify(Stdout, s) == None
  {
    assert Lower(s)[i..i + 5] == Lower(s[i..i + 5]);
    assert OccursAt(Lower(s), "error", i);
    NoPercentSignNoMatch(s);
    ClassifyMeaning(Stderr, s);
    ClassifyMeaning(Stdout, s);
  }

  /** `ERROR:` on standard error, in capitals, is reported as the chunk error. */
  lemma ExampleCapitalError()
    ensures Classify(Stderr, "ERROR: x") == Some(Failure(ChunkErrorMessage))
  {
    var s := "ERROR: x";
    assert Lower(s[0..5]) == "error";
    ErrorInAnyCase(s, 0);
  }
}
