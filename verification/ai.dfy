/** The summariser of lib/ai.ts: the deterministic fallback summary built from
    per-severity counts, the truncation of the findings placed in the remote
    prompt, the remote call's error handling, and the dispatch that falls back
    to the deterministic summary when there is no key or the remote call fails. */
module Summary {
  import opened Types
  import opened Text

  /* ------------------------------------------------------ severity counts */

  /** The severities of the findings, in order. */
  function Severities(fs: seq<Finding>): seq<Severity> {
    seq(|fs|, i requires 0 <= i < |fs| => fs[i].severity)
  }

  /** How many findings carry severity s (the reference definition). */
  function CountOf(fs: seq<Finding>, s: Severity): nat {
    multiset(Severities(fs))[s]
  }

  /** One step of the reduce over the findings: add one to the entry for the
      finding's severity, an absent entry counting as zero. */
  function Bump(acc: map<Severity, nat>, s: Severity): map<Severity, nat> {
    acc[s := (if s in acc then acc[s] else 0) + 1]
  }

  /** The `countsBySeverity` record: a left fold of Bump over the findings,
      starting from the empty record. */
  function Tally(fs: seq<Finding>): map<Severity, nat> {
    if |fs| == 0 then map[] else Bump(Tally(fs[..|fs| - 1]), fs[|fs| - 1].severity)
  }

  const AllSeverities: set<Severity> := {Critical, High, Medium, Low, Info}

  lemma AllSeveritiesListed()
    ensures forall s: Severity :: s in AllSeverities
  {
    forall s: Severity ensures s in AllSeverities {
      match s
      case Critical =>
      case High =>
      case Medium =>
      case Low =>
      case Info =>
    }
  }

  /** The severities that occur, each with its number of occurrences. */
  function PositiveCounts(fs: seq<Finding>): (m: map<Severity, nat>)
    ensures forall s :: s in m <==> CountOf(fs, s) > 0
    ensures forall s :: s in m ==> m[s] == CountOf(fs, s)
  {
    AllSeveritiesListed();
    map s | s in AllSeverities && CountOf(fs, s) > 0 :: CountOf(fs, s)
  }

  /** Adding one finding at the end adds one to its severity's count only. */
  lemma CountOfSnoc(fs: seq<Finding>, s: Severity)
    requires |fs| > 0
    ensures CountOf(fs, s) == CountOf(fs[..|fs| - 1], s) + (if s == fs[|fs| - 1].severity then 1 else 0)
  {
    assert Severities(fs) == Severities(fs[..|fs| - 1]) + [fs[|fs| - 1].severity];
  }

  /** The record built by the reduce holds a key exactly for each severity
      that occurs, and that key's value is the number of occurrences. */
  lemma {:induction false} TallyCounts(fs: seq<Finding>)
    ensures forall s :: s in Tally(fs) <==> CountOf(fs, s) > 0
    ensures forall s :: s in Tally(fs) ==> Tally(fs)[s] == CountOf(fs, s)
    decreases |fs|
  {
    if |fs| > 0 {
      var init := fs[..|fs| - 1];
      TallyCounts(init);
      forall s ensures CountOf(fs, s) == CountOf(init, s) + (if s == fs[|fs| - 1].severity then 1 else 0) {
        CountOfSnoc(fs, s);
      }
    }
  }

  lemma TallyIsPositiveCounts(fs: seq<Finding>)
    ensures Tally(fs) == PositiveCounts(fs)
  {
    TallyCounts(fs);
    assert Tally(fs).Keys == PositiveCounts(fs).Keys;
  }

  /** The five counts add up to the number of findings. */
  lemma {:induction false} CountsSumToLength(fs: seq<Finding>)
    ensures CountOf(fs, Critical) + CountOf(fs, High) + CountOf(fs, Medium)
          + CountOf(fs, Low) + CountOf(fs, Info) == |fs|
    decreases |fs|
  {
    if |fs| > 0 {
      var init := fs[..|fs| - 1];
      CountsSumToLength(init);
      CountOfSnoc(fs, Critical);
      CountOfSnoc(fs, High);
      CountOfSnoc(fs, Medium);
      CountOfSnoc(fs, Low);
      CountOfSnoc(fs, Info);
    }
  }

  /* ------------------------------------------------------- fallback text */

  /** The fixed order in which the severity lines are emitted. */
  const SeverityOrder: seq<Severity> := [Critical, High, Medium, Low, Info]

  /** Position of a severity in SeverityOrder. */
  function Rank(s: Severity): (k: nat)
    ensures k < |SeverityOrder| && SeverityOrder[k] == s
  {
    match s
    case Critical => 0
    case High => 1
    case Medium => 2
    case Low => 3
    case Info => 4
  }

  function NoIssues(url: string): string {
    "No issues were detected for " + url + " in this scan."
  }

  function Header(url: string): string {
    "Security scan summary for " + url + ":"
  }

  /** The text following the count on each severity's line. The longer
      texts are written as two literals so that each piece stays short enough
      for the verifier to reason about character by character. */
  function LineText(s: Severity): string {
    match s
    case Critical => " critical issues detected." + " You should fix these before shipping."
    case High => " high severity issues found." + " Prioritise these."
    case Medium => " medium issues worth addressing soon."
    case Low => " low severity findings" + " (hardening and best practices)."
    case Info => " informational findings."
  }

  function SeverityLine(s: Severity, n: nat): string {
    "- " + NatToString(n) + LineText(s)
  }

  /** A record entry is truthy when it is present and not zero. */
  predicate Truthy(counts: map<Severity, nat>, s: Severity) {
    s in counts && counts[s] != 0
  }

  /** Append the line for severity s when its entry in the counts record is
      truthy, and leave the parts alone otherwise. */
  function PushIfCounted(parts: seq<string>, counts: map<Severity, nat>, s: Severity): seq<string> {
    if Truthy(counts, s) then parts + [SeverityLine(s, counts[s])] else parts
  }

  /** The `parts` array: the header, then one line per truthy entry, tested
      in the order critical, high, medium, low, info. */
  function FallbackLines(url: string, counts: map<Severity, nat>): seq<string> {
    var p1 := PushIfCounted([Header(url)], counts, Critical);
    var p2 := PushIfCounted(p1, counts, High);
    var p3 := PushIfCounted(p2, counts, Medium);
    var p4 := PushIfCounted(p3, counts, Low);
    PushIfCounted(p4, counts, Info)
  }

  /** generateFallbackSummary. */
  function FallbackSummary(url: string, findings: seq<Finding>): (r: string)
    ensures |findings| == 0 ==> r == NoIssues(url)
    ensures |findings| > 0 ==> Header(url) <= r
  {
    if |findings| == 0 then NoIssues(url)
    else Join(FallbackLines(url, Tally(findings)), '\n')
  }

  /** The severities that occur among the findings, in emission order
      (the reference for which lines the summary carries). */
  function PresentIn(order: seq<Severity>, fs: seq<Finding>): seq<Severity> {
    if |order| == 0 then []
    else (if CountOf(fs, order[0]) > 0 then [order[0]] else []) + PresentIn(order[1..], fs)
  }

  function Present(fs: seq<Finding>): seq<Severity> {
    PresentIn(SeverityOrder, fs)
  }

  /** The severity lines for the given severities, each with its count. */
  function LinesFor(ss: seq<Severity>, fs: seq<Finding>): seq<string> {
    if |ss| == 0 then [] else [SeverityLine(ss[0], CountOf(fs, ss[0]))] + LinesFor(ss[1..], fs)
  }

  lemma {:induction false} PresentInMembers(order: seq<Severity>, fs: seq<Finding>)
    ensures |PresentIn(order, fs)| <= |order|
    ensures forall s :: s in PresentIn(order, fs) <==> s in order && CountOf(fs, s) > 0
    decreases |order|
  {
    if |order| > 0 {
      PresentInMembers(order[1..], fs);
      assert forall s :: s in order <==> s == order[0] || s in order[1..];
    }
  }

  predicate RankIncreasing(ss: seq<Severity>) {
    forall i, j :: 0 <= i < j < |ss| ==> Rank(ss[i]) < Rank(ss[j])
  }

  lemma {:induction false} PresentInOrdered(order: seq<Severity>, fs: seq<Finding>)
    requires RankIncreasing(order)
    ensures RankIncreasing(PresentIn(order, fs))
    decreases |order|
  {
    if |order| > 0 {
      var tail := order[1..];
      assert RankIncreasing(tail) by {
        forall i, j | 0 <= i < j < |tail| ensures Rank(tail[i]) < Rank(tail[j]) {
          assert tail[i] == order[i + 1] && tail[j] == order[j + 1];
        }
      }
      PresentInOrdered(tail, fs);
      PresentInMembers(tail, fs);
      var rest := PresentIn(tail, fs);
      forall k | 0 <= k < |rest| ensures Rank(order[0]) < Rank(rest[k]) {
        assert rest[k] in tail;
        var j :| 0 <= j < |tail| && tail[j] == rest[k];
        assert tail[j] == order[j + 1];
      }
    }
  }

  /** Which severities get a line, and in which order: exactly those that
      occur, in the order critical, high, medium, low, info, at most five. */
  lemma PresentSeverities(fs: seq<Finding>)
    ensures forall s :: s in Present(fs) <==> CountOf(fs, s) > 0
    ensures RankIncreasing(Present(fs))
    ensures |Present(fs)| <= 5
  {
    PresentInMembers(SeverityOrder, fs);
    PresentInOrdered(SeverityOrder, fs);
    forall s ensures s in SeverityOrder {
      assert SeverityOrder[Rank(s)] == s;
    }
  }

  /** The severity, as a one-element list, if it occurs; otherwise nothing. */
  function IfOccurs(fs: seq<Finding>, s: Severity): seq<Severity> {
    if CountOf(fs, s) > 0 then [s] else []
  }

  /** The severity's line, as a one-element list, if it occurs; otherwise nothing. */
  function LineIfOccurs(fs: seq<Finding>, s: Severity): seq<string> {
    if CountOf(fs, s) > 0 then [SeverityLine(s, CountOf(fs, s))] else []
  }

  lemma PresentUnrolled(fs: seq<Finding>)
    ensures Present(fs) == IfOccurs(fs, Critical) + (IfOccurs(fs, High) + (IfOccurs(fs, Medium)
                         + (IfOccurs(fs, Low) + IfOccurs(fs, Info))))
  {
    assert [Info][1..] == [];
    assert [Low, Info][1..] == [Info];
    assert [Medium, Low, Info][1..] == [Low, Info];
    assert [High, Medium, Low, Info][1..] == [Medium, Low, Info];
    assert SeverityOrder[1..] == [High, Medium, Low, Info];
    assert PresentIn([Info], fs) == IfOccurs(fs, Info) + PresentIn([], fs);
    assert PresentIn([Low, Info], fs) == IfOccurs(fs, Low) + PresentIn([Info], fs);
    assert PresentIn([Medium, Low, Info], fs) == IfOccurs(fs, Medium) + PresentIn([Low, Info], fs);
    assert PresentIn([High, Medium, Low, Info], fs) == IfOccurs(fs, High) + PresentIn([Medium, Low, Info], fs);
    assert PresentIn(SeverityOrder, fs) == IfOccurs(fs, Critical) + PresentIn([High, Medium, Low, Info], fs);
  }

  lemma PushIfCountedTally(parts: seq<string>, fs: seq<Finding>, s: Severity)
    ensures PushIfCounted(parts, Tally(fs), s) == parts + LineIfOccurs(fs, s)
  {
    TallyCounts(fs);
  }

  lemma FallbackLinesUnrolled(url: string, fs: seq<Finding>)
    ensures FallbackLines(url, Tally(fs)) == [Header(url)] + (LineIfOccurs(fs, Critical) + (LineIfOccurs(fs, High)
                                           + (LineIfOccurs(fs, Medium) + (LineIfOccurs(fs, Low) + LineIfOccurs(fs, Info)))))
  {
    var c, h, m, l, i := LineIfOccurs(fs, Critical), LineIfOccurs(fs, High), LineIfOccurs(fs, Medium),
                         LineIfOccurs(fs, Low), LineIfOccurs(fs, Info);
    var p0 := [Header(url)];
    PushIfCountedTally(p0, fs, Critical);
    PushIfCountedTally(p0 + c, fs, High);
    PushIfCountedTally(p0 + c + h, fs, Medium);
    PushIfCountedTally(p0 + c + h + m, fs, Low);
    PushIfCountedTally(p0 + c + h + m + l, fs, Info);
    ConcatRight(p0, c, h, m, l, i);
  }

  lemma ConcatRight<T>(a: seq<T>, b: seq<T>, c: seq<T>, d: seq<T>, e: seq<T>, f: seq<T>)
    ensures a + b + c + d + e + f == a + (b + (c + (d + (e + f))))
  {
  }

  /** The parts the source pushes are the header followed by one line for
      each occurring severity, in emission order, carrying its count. */
  lemma FallbackLinesInOrder(url: string, fs: seq<Finding>)
    ensures FallbackLines(url, Tally(fs)) == [Header(url)] + LinesFor(Present(fs), fs)
  {
    FallbackLinesUnrolled(url, fs);
    PresentLinesUnrolled(fs);
  }

  lemma PresentLinesUnrolled(fs: seq<Finding>)
    ensures LinesFor(Present(fs), fs) == LineIfOccurs(fs, Critical) + (LineIfOccurs(fs, High)
                                      + (LineIfOccurs(fs, Medium) + (LineIfOccurs(fs, Low) + LineIfOccurs(fs, Info))))
  {
    PresentUnrolled(fs);
    var c, h, m, l, i := IfOccurs(fs, Critical), IfOccurs(fs, High), IfOccurs(fs, Medium), IfOccurs(fs, Low), IfOccurs(fs, Info);
    LinesForAppend(c, h + (m + (l + i)), fs);
    LinesForAppend(h, m + (l + i), fs);
    LinesForAppend(m, l + i, fs);
    LinesForAppend(l, i, fs);
    LinesForIfOccurs(fs, Critical);
    LinesForIfOccurs(fs, High);
    LinesForIfOccurs(fs, Medium);
    LinesForIfOccurs(fs, Low);
    LinesForIfOccurs(fs, Info);
  }

  lemma LinesForIfOccurs(fs: seq<Finding>, s: Severity)
    ensures LinesFor(IfOccurs(fs, s), fs) == LineIfOccurs(fs, s)
  {
    if CountOf(fs, s) > 0 { assert [s][1..] == []; }
  }

  lemma {:induction false} LinesForAppend(a: seq<Severity>, b: seq<Severity>, fs: seq<Finding>)
    ensures LinesFor(a + b, fs) == LinesFor(a, fs) + LinesFor(b, fs)
    decreases |a|
  {
    if |a| == 0 {
      assert a + b == b;
    } else {
      assert (a + b)[1..] == a[1..] + b;
      LinesForAppend(a[1..], b, fs);
    }
  }

  /* ------------------------------------------------------ reading it back */

  /** The severity whose line text is t, if any. */
  function SeverityOfLineText(t: string): (r: Option<Severity>)
    ensures forall s :: r == Some(s) <==> LineText(s) == t
  {
    if t == LineText(Critical) then Some(Critical)
    else if t == LineText(High) then Some(High)
    else if t == LineText(Medium) then Some(Medium)
    else if t == LineText(Low) then Some(Low)
    else if t == LineText(Info) then Some(Info)
    else None
  }

  /** Reads a severity line: "- ", a decimal count, then one of the five
      line texts. Anything else is not a severity line. */
  function ParseSeverityLine(line: string): Option<(Severity, nat)> {
    if |line| < 2 || line[..2] != "- " then None
    else
      var digits := TakeDigits(line[2..]);
      if |digits| == 0 then None
      else
        match SeverityOfLineText(line[2 + |digits|..])
        case Some(s) => Some((s, DigitsValue(digits)))
        case None => None
  }

  lemma SeverityLineShape(n: nat, t: string)
    requires t == "" || !IsDigit(t[0])
    ensures |"- " + NatToString(n) + t| >= 2
    ensures ("- " + NatToString(n) + t)[..2] == "- "
    ensures TakeDigits(("- " + NatToString(n) + t)[2..]) == NatToString(n)
    ensures ("- " + NatToString(n) + t)[2 + |NatToString(n)|..] == t
  {
    var ds := NatToString(n);
    var line := "- " + ds + t;
    assert line[2..] == ds + t;
    TakeDigitsOfNumber(ds, t);
  }

  lemma ParseLineParts(n: nat, t: string, s: Severity)
    requires SeverityOfLineText(t) == Some(s)
    requires t == "" || !IsDigit(t[0])
    ensures ParseSeverityLine("- " + NatToString(n) + t) == Some((s, n))
  {
    SeverityLineShape(n, t);
    DigitsValueOfNatToString(n);
  }

  /** Every severity line reads back as the severity and count it was made from. */
  lemma ParseSeverityLineRoundTrip(s: Severity, n: nat)
    ensures ParseSeverityLine(SeverityLine(s, n)) == Some((s, n))
  {
    var t := LineText(s);
    assert t[0] == ' ';
    ParseLineParts(n, t, s);
  }

  /** The counts a summary text reports: every line that reads as a severity
      line contributes its severity and count. */
  function ReadCounts(lines: seq<string>): map<Severity, nat> {
    if |lines| == 0 then map[]
    else
      var later := ReadCounts(lines[1..]);
      match ParseSeverityLine(lines[0])
      case Some((s, n)) => later[s := n]
      case None => later
  }

  function ReadSummaryCounts(text: string): map<Severity, nat> {
    ReadCounts(Split(text, '\n'))
  }

  lemma {:induction false} ReadLinesFor(ss: seq<Severity>, fs: seq<Finding>)
    ensures forall s :: s in ReadCounts(LinesFor(ss, fs)) <==> s in ss
    ensures forall s :: s in ReadCounts(LinesFor(ss, fs)) ==> ReadCounts(LinesFor(ss, fs))[s] == CountOf(fs, s)
    decreases |ss|
  {
    if |ss| > 0 {
      ReadLinesFor(ss[1..], fs);
      ParseSeverityLineRoundTrip(ss[0], CountOf(fs, ss[0]));
      var lines := LinesFor(ss, fs);
      assert lines[1..] == LinesFor(ss[1..], fs);
      assert forall s :: s in ss <==> s == ss[0] || s in ss[1..];
    }
  }

  lemma NoNewlineInCriticalText() ensures '\n' !in LineText(Critical) { }
  lemma NoNewlineInHighText() ensures '\n' !in LineText(High) { }
  lemma NoNewlineInMediumText() ensures '\n' !in LineText(Medium) { }
  lemma NoNewlineInLowText() ensures '\n' !in LineText(Low) { }
  lemma NoNewlineInInfoText() ensures '\n' !in LineText(Info) { }

  lemma NoNewlineInLineText(s: Severity)
    ensures '\n' !in LineText(s)
  {
    match s
    case Critical => NoNewlineInCriticalText();
    case High => NoNewlineInHighText();
    case Medium => NoNewlineInMediumText();
    case Low => NoNewlineInLowText();
    case Info => NoNewlineInInfoText();
  }

  lemma NoNewlineInSeverityLine(s: Severity, n: nat)
    ensures '\n' !in SeverityLine(s, n)
  {
    var ds := NatToString(n);
    assert '\n' !in ds by {
      forall i | 0 <= i < |ds| ensures ds[i] != '\n' { assert IsDigit(ds[i]); }
    }
    NoNewlineInLineText(s);
  }

  lemma {:induction false} NoNewlineInLinesFor(ss: seq<Severity>, fs: seq<Finding>)
    ensures forall i :: 0 <= i < |LinesFor(ss, fs)| ==> '\n' !in LinesFor(ss, fs)[i]
    decreases |ss|
  {
    if |ss| > 0 {
      NoNewlineInLinesFor(ss[1..], fs);
      NoNewlineInSeverityLine(ss[0], CountOf(fs, ss[0]));
    }
  }

  /** When the url has no line break, the summary of a non-empty findings
      list has exactly one line more than there are occurring severities: the
      header, then one line per occurring severity in emission order. */
  lemma FallbackSummaryLines(url: string, fs: seq<Finding>)
    requires '\n' !in url
    requires |fs| > 0
    ensures Split(FallbackSummary(url, fs), '\n') == [Header(url)] + LinesFor(Present(fs), fs)
    ensures |Split(FallbackSummary(url, fs), '\n')| == 1 + |Present(fs)| <= 6
  {
    FallbackLinesInOrder(url, fs);
    var parts := [Header(url)] + LinesFor(Present(fs), fs);
    SummaryPartsHaveNoNewline(url, fs);
    SplitJoin(parts, '\n');
    PresentSeverities(fs);
    LinesForLength(Present(fs), fs);
  }

  lemma SummaryPartsHaveNoNewline(url: string, fs: seq<Finding>)
    requires '\n' !in url
    ensures forall i :: 0 <= i < |[Header(url)] + LinesFor(Present(fs), fs)|
              ==> '\n' !in ([Header(url)] + LinesFor(Present(fs), fs))[i]
  {
    var parts := [Header(url)] + LinesFor(Present(fs), fs);
    NoNewlineInLinesFor(Present(fs), fs);
    assert '\n' !in "Security scan summary for ";
    forall i | 0 <= i < |parts| ensures '\n' !in parts[i] {
      if i > 0 { assert parts[i] == LinesFor(Present(fs), fs)[i - 1]; }
    }
  }

  lemma {:induction false} LinesForLength(ss: seq<Severity>, fs: seq<Finding>)
    ensures |LinesFor(ss, fs)| == |ss|
    decreases |ss|
  {
    if |ss| > 0 { LinesForLength(ss[1..], fs); }
  }

  lemma NoIssuesReportsNothing(url: string)
    requires '\n' !in url
    ensures ReadSummaryCounts(NoIssues(url)) == map[]
  {
    var text := NoIssues(url);
    assert '\n' !in text by {
      assert '\n' !in "No issues were detected for ";
      assert '\n' !in " in this scan.";
    }
    var lines: seq<string> := [text];
    assert Split(text, '\n') == lines by {
      SplitJoin(lines, '\n');
    }
    assert ParseSeverityLine(text) == None by {
      assert text[..2] == "No";
    }
    assert ReadCounts(lines) == ReadCounts(lines[1..]);
    assert lines[1..] == [];
  }

  lemma SummaryLinesReportCounts(url: string, fs: seq<Finding>)
    ensures forall s :: s in ReadCounts([Header(url)] + LinesFor(Present(fs), fs)) <==> CountOf(fs, s) > 0
    ensures forall s :: s in ReadCounts([Header(url)] + LinesFor(Present(fs), fs))
                     ==> ReadCounts([Header(url)] + LinesFor(Present(fs), fs))[s] == CountOf(fs, s)
  {
    var lines := [Header(url)] + LinesFor(Present(fs), fs);
    assert Header(url)[..2] == "Se";
    assert lines[1..] == LinesFor(Present(fs), fs);
    assert ReadCounts(lines) == ReadCounts(LinesFor(Present(fs), fs));
    ReadLinesFor(Present(fs), fs);
    PresentSeverities(fs);
  }

  /** Reading the fallback summary back recovers the severity counts exactly:
      a line for a severity appears if and only if the severity occurs, and it
      states how many findings have it. With no findings nothing is reported. */
  lemma FallbackSummaryReportsCounts(url: string, fs: seq<Finding>)
    requires '\n' !in url
    ensures ReadSummaryCounts(FallbackSummary(url, fs)) == PositiveCounts(fs)
  {
    if |fs| == 0 {
      NoIssuesReportsNothing(url);
      assert PositiveCounts(fs) == map[];
    } else {
      FallbackSummaryLines(url, fs);
      SummaryLinesReportCounts(url, fs);
      var got := ReadSummaryCounts(FallbackSummary(url, fs));
      assert got.Keys == PositiveCounts(fs).Keys;
    }
  }

  /** The fallback summary depends only on the url and on how many findings
      have each severity: reordering the findings or changing their other
      fields leaves it unchanged. */
  lemma FallbackIgnoresOrderAndDetail(url: string, f1: seq<Finding>, f2: seq<Finding>)
    requires multiset(Severities(f1)) == multiset(Severities(f2))
    ensures FallbackSummary(url, f1) == FallbackSummary(url, f2)
  {
    assert |f1| == |multiset(Severities(f1))| == |multiset(Severities(f2))| == |f2|;
    TallyIsPositiveCounts(f1);
    TallyIsPositiveCounts(f2);
    assert forall s :: CountOf(f1, s) == CountOf(f2, s);
    assert PositiveCounts(f1) == PositiveCounts(f2);
  }

  /* ------------------------------------------------------ remote summary */

  /** At most this many findings are placed in the remote prompt. */
  const PromptFindingLimit: nat := 50

  /** The variable parts of the prompt sent to the completion API. */
  datatype Prompt = Prompt(targetUrl: string, shown: seq<Finding>, truncatedNote: string)

  const NotePrefix: string := "\n\nNote: Showing first 50 of "

  /** The prompt for a url and its findings: the first fifty findings, and a
      note stating the total when some were left out. */
  function BuildPrompt(url: string, fs: seq<Finding>): (p: Prompt)
    ensures p.targetUrl == url
    ensures p.shown <= fs
    ensures |p.shown| == if |fs| <= PromptFindingLimit then |fs| else PromptFindingLimit
    ensures p.truncatedNote != "" <==> |fs| > PromptFindingLimit
  {
    var shown := if |fs| <= PromptFindingLimit then fs else fs[..PromptFindingLimit];
    var note := if |fs| > PromptFindingLimit then NotePrefix + NatToString(|fs|) + " findings." else "";
    Prompt(url, shown, note)
  }

  /** The total a truncation note states, if the text is such a note. */
  function NoteTotal(note: string): Option<nat> {
    if |note| < |NotePrefix| || note[..|NotePrefix|] != NotePrefix then None
    else
      var digits := TakeDigits(note[|NotePrefix|..]);
      if |digits| == 0 || note[|NotePrefix| + |digits|..] != " findings." then None
      else Some(DigitsValue(digits))
  }

  /** The truncation note, when present, states the total number of findings. */
  lemma TruncationNoteStatesTotal(url: string, fs: seq<Finding>)
    requires |fs| > PromptFindingLimit
    ensures NoteTotal(BuildPrompt(url, fs).truncatedNote) == Some(|fs|)
  {
    var note := BuildPrompt(url, fs).truncatedNote;
    var ds := NatToString(|fs|);
    assert note[..|NotePrefix|] == NotePrefix;
    assert note[|NotePrefix|..] == ds + " findings.";
    TakeDigitsOfNumber(ds, " findings.");
    assert note[|NotePrefix| + |ds|..] == " findings.";
    DigitsValueOfNatToString(|fs|);
  }

  /** What the completion endpoint can answer: a non-success HTTP status with
      its body text, a parsed reply (whose first choice's message content is
      a string or is missing), or a failure of the request itself. */
  datatype ApiReply =
    | HttpFailure(status: nat, errorText: string)
    | Completion(content: Option<string>)
    | RequestFailure(message: string)

  /** The API key is usable when it is set and not empty. */
  predicate KeyConfigured(apiKey: Option<string>) {
    apiKey.Some? && apiKey.value != ""
  }

  /** generateDeepSeekSummary: the trimmed reply content, or the message of
      the error it throws. The remote endpoint is the parameter `remote`. */
  function DeepSeekSummary(apiKey: Option<string>, url: string, fs: seq<Finding>,
                           remote: Prompt -> ApiReply): (r: Result<string, string>)
    ensures !KeyConfigured(apiKey) ==> r == Failure("DEEPSEEK_API_KEY not set")
    ensures r.Success? <==> KeyConfigured(apiKey) && remote(BuildPrompt(url, fs)).Completion?
                            && remote(BuildPrompt(url, fs)).content.Some?
                            && remote(BuildPrompt(url, fs)).content.value != ""
    ensures r.Success? ==> r.value == Trim(remote(BuildPrompt(url, fs)).content.value)
  {
    if !KeyConfigured(apiKey) then Failure("DEEPSEEK_API_KEY not set")
    else
      match remote(BuildPrompt(url, fs))
      case HttpFailure(status, text) =>
        Failure("DeepSeek API error (" + NatToString(status) + "): " + text)
      case Completion(content) =>
        if content.None? || content.value == "" then
          Failure("No summary content in DeepSeek API response")
        else Success(Trim(content.value))
      case RequestFailure(message) => Failure(message)
  }

  /** summariseFindings: the remote summary when a key is set and the call
      succeeds, the fallback summary otherwise. It never fails. */
  function SummariseFindings(apiKey: Option<string>, url: string, fs: seq<Finding>,
                             remote: Prompt -> ApiReply): (r: string)
    ensures !KeyConfigured(apiKey) ==> r == FallbackSummary(url, fs)
    ensures DeepSeekSummary(apiKey, url, fs, remote).Failure? ==> r == FallbackSummary(url, fs)
    ensures KeyConfigured(apiKey) && remote(BuildPrompt(url, fs)).Completion?
            && remote(BuildPrompt(url, fs)).content.Some? && remote(BuildPrompt(url, fs)).content.value != ""
            ==> r == Trim(remote(BuildPrompt(url, fs)).content.value)
  {
    if !KeyConfigured(apiKey) then FallbackSummary(url, fs)
    else
      match DeepSeekSummary(apiKey, url, fs, remote)
      case Success(summary) => summary
      case Failure(_) => FallbackSummary(url, fs)
  }
}
