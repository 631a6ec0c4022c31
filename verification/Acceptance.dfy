/** Which stored schedules a success or a resume accepts (backend/schedule/errors.go),
  * without the branch cascade that decides it.
  */
module Acceptance {
  import opened Model
  import opened Schedule
  import opened Rows

  // ------------------------------------------------------------- words of a string

  predicate Word(w: string) {
    |w| > 0 && forall k :: 0 <= k < |w| ==> !IsSpace(w[k])
  }

  predicate Blank(s: string) {
    forall k :: 0 <= k < |s| ==> IsSpace(s[k])
  }

  // The string is the words in order, separated by blanks and perhaps surrounded by some.
  ghost predicate Splits(s: string, words: seq<string>)
    decreases |words|, 1
  {
    if |words| == 0 then Blank(s) else exists i: nat, j: nat :: SplitsAt(s, words, i, j)
  }

  ghost predicate SplitsAt(s: string, words: seq<string>, i: nat, j: nat)
    requires |words| > 0
    decreases |words|, 0
  {
    EndsWith(s, i, j, words[|words| - 1]) && Splits(s[..i], words[..|words| - 1])
  }

  // The last word of s lies from i to j.
  predicate EndsWith(s: string, i: nat, j: nat, word: string) {
    i < j <= |s| && s[i..j] == word && Word(word) && Blank(s[j..]) && (i == 0 || IsSpace(s[i - 1]))
  }

  ghost predicate HasWords(s: string, n: nat) {
    exists words :: |words| == n && Splits(s, words)
  }

  lemma {:induction false} BlankHasNoWord(s: string)
    requires Blank(s)
    ensures FieldCount(s) == 0
  {
    if |s| > 0 {
      assert IsSpace(s[|s| - 1]);
      BlankHasNoWord(s[..|s| - 1]);
    }
  }

  lemma {:induction false} TrailingBlanks(s: string, j: nat)
    requires j <= |s| && Blank(s[j..])
    ensures FieldCount(s) == FieldCount(s[..j])
    decreases |s|
  {
    var last := |s| - 1;
    if j == |s| {
      assert s[..j] == s;
    } else {
      assert IsSpace(s[j..][last - j]);
      assert s[..last][j..] == s[j..][..last - j] && s[..last][..j] == s[..j];
      TrailingBlanks(s[..last], j);
    }
  }

  lemma {:induction false} LastWordCounts(s: string, i: nat)
    requires i < |s| && Word(s[i..]) && (i == 0 || IsSpace(s[i - 1]))
    ensures FieldCount(s) == FieldCount(s[..i]) + 1
    decreases |s|
  {
    var last := |s| - 1;
    assert !IsSpace(s[i..][last - i]);
    if i == last {
      assert s[..last] == s[..i];
    } else {
      assert !IsSpace(s[i..][last - 1 - i]);
      assert s[..last][i..] == s[i..][..last - i] && s[..last][..i] == s[..i];
      LastWordCounts(s[..last], i);
    }
  }

  // A string of n words has n fields.
  lemma {:induction false} FieldsAreWords(s: string, words: seq<string>)
    requires Splits(s, words)
    ensures FieldCount(s) == |words|
    decreases |words|
  {
    if |words| == 0 {
      BlankHasNoWord(s);
    } else {
      var n := |words| - 1;
      var i: nat, j: nat :| SplitsAt(s, words, i, j);
      FieldsAreWords(s[..i], words[..n]);
      TrailingBlanks(s, j);
      assert s[..j][i..] == s[i..j] && s[..j][..i] == s[..i];
      LastWordCounts(s[..j], i);
    }
  }

  // Where the last word of a string that does not end in a blank begins.
  lemma {:induction false} LastWordBegins(s: string) returns (i: nat)
    requires |s| > 0 && !IsSpace(s[|s| - 1])
    ensures i < |s| && Word(s[i..]) && (i == 0 || IsSpace(s[i - 1]))
    decreases |s|
  {
    var last := |s| - 1;
    if last == 0 || IsSpace(s[last - 1]) {
      i := last;
    } else {
      i := LastWordBegins(s[..last]);
      forall k | 0 <= k < |s[i..]|
        ensures !IsSpace(s[i..][k])
      {
        if k < last - i { assert s[..last][i..][k] == s[i..][k]; }
      }
    }
  }

  // Every string is the words it has.
  lemma {:induction false} SplitsSomehow(s: string) returns (words: seq<string>)
    ensures Splits(s, words)
    decreases |s|
  {
    if |s| == 0 {
      words := [];
    } else if IsSpace(s[|s| - 1]) {
      words := SplitsSomehow(s[..|s| - 1]);
      OneMoreBlank(s, words);
    } else {
      var i := LastWordBegins(s);
      var front := SplitsSomehow(s[..i]);
      words := front + [s[i..]];
      assert words[..|words| - 1] == front;
      assert SplitsAt(s, words, i, |s|);
    }
  }

  lemma OneMoreBlank(s: string, words: seq<string>)
    requires |s| > 0 && IsSpace(s[|s| - 1]) && Splits(s[..|s| - 1], words)
    ensures Splits(s, words)
  {
    var n, front := |words| - 1, s[..|s| - 1];
    if |words| > 0 {
      assert Splits(front, words);
      var i: nat, j: nat :| SplitsAt(front, words, i, j);
      assert front[..i] == s[..i] && front[i..j] == s[i..j];
      forall k | 0 <= k < |s[j..]|
        ensures IsSpace(s[j..][k])
      {
        if k < |front[j..]| { assert front[j..][k] == s[j..][k]; }
      }
      assert SplitsAt(s, words, i, j);
    }
  }

  lemma FieldsIffWords(s: string, n: nat)
    ensures FieldCount(s) == n <==> HasWords(s, n)
  {
    var words := SplitsSomehow(s);
    FieldsAreWords(s, words);
    if HasWords(s, n) {
      var others :| |others| == n && Splits(s, others);
      FieldsAreWords(s, others);
    }
  }

  // Visible ASCII characters only, and at least one.
  predicate Visible(w: string) {
    |w| > 0 && forall k :: 0 <= k < |w| ==> '!' <= w[k] <= '~'
  }

  function JoinedByBlank(words: seq<string>): string {
    if |words| == 0 then ""
    else if |words| == 1 then words[0]
    else JoinedByBlank(words[..|words| - 1]) + " " + words[|words| - 1]
  }

  // Any n visible words joined by single blanks have n fields.
  lemma {:induction false} JoinedWordsCount(words: seq<string>)
    requires forall k :: 0 <= k < |words| ==> Visible(words[k])
    ensures FieldCount(JoinedByBlank(words)) == |words|
  {
    if |words| == 1 {
      assert words[0][0..] == words[0];
      LastWordCounts(words[0], 0);
    } else if |words| > 1 {
      var n := |words| - 1;
      var front := JoinedByBlank(words[..n]);
      var s := front + " " + words[n];
      JoinedWordsCount(words[..n]);
      assert s[|front| + 1..] == words[n] && s[..|front| + 1] == front + " ";
      LastWordCounts(s, |front| + 1);
      TrailingBlanks(front + " ", |front|);
      assert (front + " ")[..|front|] == front;
    }
  }

  // ----------------------------------------------------------------- the conditions

  predicate ZoneOk(cal: Calendar, m: Monitor) {
    m.tz != "" && cal.zoneKnown(m.tz)
  }

  // One minute to thirty days.
  predicate GraceOk(m: Monitor) {
    m.graceS.Some? && 60 <= m.graceS.value <= 2_592_000
  }

  // Five words without `=` that the cron library parses.
  ghost predicate CronOk(cal: Calendar, expr: string) {
    '=' !in expr && HasWords(expr, 5) && cal.cronParses(expr)
  }

  // One minute to a year for a period schedule, and no cron expression; for a cron
  // schedule a good expression and no period.
  ghost predicate TimingOk(cal: Calendar, m: Monitor) {
    (m.scheduleKind == Some(Period) ==>
       m.cronExpr == "" && m.periodS.Some? && 60 <= m.periodS.value <= 31_536_000) &&
    (m.scheduleKind == Some(Cron) ==>
       (m.periodS.None? || m.periodS.value == 0) && CronOk(cal, m.cronExpr))
  }

  // A success or a resume of the monitor is accepted: it has no deadline to compute, or
  // one whose schedule is in order.
  ghost predicate Accepts(cal: Calendar, m: Monitor) {
    m.kind.Heartbeat? && m.scheduleKind.Some? ==> ZoneOk(cal, m) && GraceOk(m) && TimingOk(cal, m)
  }

  // The deadline of a monitor that is heard of at `now`: a period later, or at the next
  // cron instant; none without a heartbeat schedule.
  function ArmedAt(cal: Calendar, m: Monitor, now: Time): Option<Time> {
    if m.kind.Http? || m.scheduleKind.None? then None
    else if m.scheduleKind == Some(Period) then (if m.periodS.Some? then Some(now + m.periodS.value) else None)
    else Some(cal.cronNext(m.cronExpr, m.tz, now))
  }

  // A field is blamed in the order zone, grace, cron expression or period.
  ghost predicate Blames(cal: Calendar, m: Monitor, field: InvalidField) {
    match field
    case BadZone => !ZoneOk(cal, m)
    case BadGrace => ZoneOk(cal, m) && !GraceOk(m)
    case BadCron =>
      ZoneOk(cal, m) && GraceOk(m) &&
      (m.scheduleKind == Some(Period) ==> m.cronExpr != "") &&
      (m.scheduleKind == Some(Cron) ==> (m.periodS.None? || m.periodS.value == 0) && !CronOk(cal, m.cronExpr))
    case BadPeriod =>
      ZoneOk(cal, m) && GraceOk(m) &&
      (m.scheduleKind == Some(Period) ==>
         m.cronExpr == "" && (m.periodS.None? || m.periodS.value < 60 || m.periodS.value > 31_536_000)) &&
      (m.scheduleKind == Some(Cron) ==> m.periodS.Some? && m.periodS.value != 0)
  }

  // The deadline computation succeeds exactly on the accepted schedules, with that
  // deadline, and otherwise blames the first field that is wrong.
  lemma DeadlineIffAccepted(cal: Calendar, m: Monitor, now: Time)
    ensures NextDeadlineFor(cal, m, now).Ok? <==> Accepts(cal, m)
    ensures Accepts(cal, m) ==> NextDeadlineFor(cal, m, now) == Ok(ArmedAt(cal, m, now))
    ensures !Accepts(cal, m) ==> Blames(cal, m, NextDeadlineFor(cal, m, now).error)
  {
    FieldsIffWords(m.cronExpr, 5);
    if HasWords(m.cronExpr, 5) { FieldsIffWords("", 5); }
  }

  // A cron schedule of five visible words joined by single blanks is accepted.
  lemma FiveWordsAreAccepted(cal: Calendar, m: Monitor, words: seq<string>, now: Time)
    requires m.kind.Heartbeat? && m.scheduleKind == Some(Cron) && m.periodS.None? && m.cronExpr == JoinedByBlank(words)
    requires |words| == 5 && forall k :: 0 <= k < 5 ==> Visible(words[k])
    requires '=' !in m.cronExpr && cal.cronParses(m.cronExpr) && m.tz != "" && cal.zoneKnown(m.tz)
    requires m.graceS.Some? && 60 <= m.graceS.value <= 2_592_000
    ensures NextDeadlineFor(cal, m, now) == Ok(Some(cal.cronNext(m.cronExpr, m.tz, now)))
  {
    JoinedWordsCount(words);
    FieldsIffWords(m.cronExpr, 5);
    DeadlineIffAccepted(cal, m, now);
  }

  lemma JoinOneMore(words: seq<string>, w: string)
    requires |words| > 0
    ensures JoinedByBlank(words + [w]) == JoinedByBlank(words) + " " + w
  {
    assert (words + [w])[..|words|] == words;
  }

  // So "0 3 * * *" is.
  lemma NightlyIsAccepted(cal: Calendar, m: Monitor, now: Time)
    requires m.kind.Heartbeat? && m.scheduleKind == Some(Cron) && m.periodS.None? && m.cronExpr == "0 3 * * *"
    requires cal.cronParses(m.cronExpr) && m.tz == "UTC" && cal.zoneKnown(m.tz) && m.graceS == Some(300)
    ensures NextDeadlineFor(cal, m, now) == Ok(Some(cal.cronNext("0 3 * * *", "UTC", now)))
  {
    var words := ["0", "3", "*", "*", "*"];
    assert JoinedByBlank(words) == "0 3 * * *" by {
      JoinOneMore(["0"], "3");
      assert ["0"] + ["3"] == ["0", "3"];
      JoinOneMore(["0", "3"], "*");
      assert ["0", "3"] + ["*"] == ["0", "3", "*"];
      JoinOneMore(["0", "3", "*"], "*");
      assert ["0", "3", "*"] + ["*"] == ["0", "3", "*", "*"];
      JoinOneMore(["0", "3", "*", "*"], "*");
      assert ["0", "3", "*", "*"] + ["*"] == words;
    }
    FiveWordsAreAccepted(cal, m, words, now);
  }
}
