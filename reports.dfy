/**
 * lib/reports.ts: the wellbeing report engine. Per student it classifies the mood
 * history into a trend and an alert level and runs a fixed chain of rules that append
 * problem areas and recommendations; for the cohort it computes statistics and insights,
 * and it orders the students by priority. The roster is the constant `MockUsers()`, the
 * entries are those in browser storage, and the week/year of the weekly report are
 * parameters (the source reads them from the clock).
 */
module Reports {

  import opened Wrappers
  import opened Auth
  import opened Records
  import opened Builtins
  import opened Sorting
  import opened Storage
  import opened Emotions

  datatype Trend = Improving | Stable | Declining

  /** "none" | "warning" | "critical". */
  datatype AlertLevel = NoAlert | Warning | Critical

  /** The problem areas, one per rule, declared in the order the rules run. */
  datatype ProblemArea =
    | PersistentlyLow | Worsening | LowEngagement | ExtremeSwings
    | SocialIsolation | SleepIssues | AcademicStress
  {
    /** Position of the rule that raises this area in the chain. */
    function Rank(): (k: nat)
      ensures k < 7
    {
      match this
      case PersistentlyLow => 0
      case Worsening => 1
      case LowEngagement => 2
      case ExtremeSwings => 3
      case SocialIsolation => 4
      case SleepIssues => 5
      case AcademicStress => 6
    }

    function Text(): string
    {
      match this
      case PersistentlyLow => "Bem-estar emocional consistentemente baixo"
      case Worsening => "Tendência de piora no bem-estar"
      case LowEngagement => "Baixo engajamento com o sistema"
      case ExtremeSwings => "Variações extremas de humor"
      case SocialIsolation => "Possível isolamento social"
      case SleepIssues => "Fadiga ou problemas de sono"
      case AcademicStress => "Estresse acadêmico"
    }
  }

  datatype Recommendation =
    | IndividualConversation | PsychologistReferral
    | CloseMonitoring | InvestigateChanges
    | EncourageLogging | ExplainSelfAwareness
    | EvaluateTriggers | TeachRegulation
    | GroupActivities
    | SleepRoutine
    | PedagogicalSupport | StressManagement
    | KeepFollowUp | PositiveExample
  {
    function Text(): string
    {
      match this
      case IndividualConversation => "Agendar conversa individual para entender causas do mal-estar"
      case PsychologistReferral => "Considerar encaminhamento para psicólogo escolar"
      case CloseMonitoring => "Monitorar de perto nas próximas semanas"
      case InvestigateChanges => "Investigar mudanças recentes na vida do aluno (família, amigos, escola)"
      case EncourageLogging => "Incentivar o aluno a registrar suas emoções regularmente"
      case ExplainSelfAwareness => "Explicar a importância do autoconhecimento emocional"
      case EvaluateTriggers => "Avaliar possíveis gatilhos emocionais"
      case TeachRegulation => "Ensinar técnicas de regulação emocional"
      case GroupActivities => "Promover atividades em grupo e integração social"
      case SleepRoutine => "Conversar sobre rotina de sono e hábitos saudáveis"
      case PedagogicalSupport => "Oferecer apoio pedagógico adicional"
      case StressManagement => "Ensinar técnicas de gerenciamento de estresse"
      case KeepFollowUp => "Aluno está bem! Manter acompanhamento regular"
      case PositiveExample => "Considerar como exemplo positivo para outros alunos"
    }
  }

  /** The recommendations a rule pushes together with its problem area. */
  function RecommendationsFor(p: ProblemArea): (rs: seq<Recommendation>)
    ensures 1 <= |rs| <= 2
    ensures KeepFollowUp !in rs && PositiveExample !in rs
  {
    match p
    case PersistentlyLow => [IndividualConversation, PsychologistReferral]
    case Worsening => [CloseMonitoring, InvestigateChanges]
    case LowEngagement => [EncourageLogging, ExplainSelfAwareness]
    case ExtremeSwings => [EvaluateTriggers, TeachRegulation]
    case SocialIsolation => [GroupActivities]
    case SleepIssues => [SleepRoutine]
    case AcademicStress => [PedagogicalSupport, StressManagement]
  }

  /** The pair pushed last for a student who is doing well. */
  function PositiveReinforcement(): seq<Recommendation>
  {
    [KeepFollowUp, PositiveExample]
  }

  /** The recommendations of a list of problem areas, in that order. */
  function AllRecommendations(ps: seq<ProblemArea>): seq<Recommendation>
  {
    if ps == [] then [] else AllRecommendations(ps[..|ps| - 1]) + RecommendationsFor(ps[|ps| - 1])
  }

  datatype StudentReport = StudentReport(
    studentId: string,
    studentName: string,
    totalEntries: nat,
    averageEmotion: real,
    lastEntry: Option<EmotionEntry>,
    trend: Trend,
    alertLevel: AlertLevel,
    recentEmotions: seq<EmotionEntry>,
    problemAreas: seq<ProblemArea>,
    recommendations: seq<Recommendation>)

  const UnknownStudentName: string := "Aluno Desconhecido"

  // ---------------------------------------------------------------------------
  // The classification rules, stated over plain indices.

  /** The last three entries. */
  function RecentWindow(es: seq<EmotionEntry>): seq<EmotionEntry>
    requires |es| >= 3
  {
    es[|es| - 3..]
  }

  /** The up to three entries before the recent window: es[max(0, n-6) .. n-3]. */
  function OlderWindow(es: seq<EmotionEntry>): seq<EmotionEntry>
    requires |es| >= 3
  {
    es[Max(0, |es| - 6)..|es| - 3]
  }

  /** Improving: more than three entries and the recent mean exceeds the older mean by more than 0.5. */
  predicate Improves(es: seq<EmotionEntry>)
  {
    |es| > 3 && WeeklyAverage(RecentWindow(es)) > WeeklyAverage(OlderWindow(es)) + 0.5
  }

  /** Declining: more than three entries and the recent mean is below the older mean by more than 0.5. */
  predicate Declines(es: seq<EmotionEntry>)
  {
    |es| > 3 && WeeklyAverage(RecentWindow(es)) < WeeklyAverage(OlderWindow(es)) - 0.5
  }

  /** The two most recent entries are both at most 2. */
  predicate LastTwoLow(es: seq<EmotionEntry>)
  {
    |es| >= 2 && es[|es| - 1].emotion <= 2 && es[|es| - 2].emotion <= 2
  }

  /** Number of entries with emotion at most 2. */
  function LowCount(es: seq<EmotionEntry>): (c: nat)
    ensures c <= |es|
  {
    if es == [] then 0 else LowCount(es[..|es| - 1]) + (if es[|es| - 1].emotion <= 2 then 1 else 0)
  }

  /** Number of entries with emotion at least 4. */
  function PositiveCount(es: seq<EmotionEntry>): (c: nat)
    ensures c <= |es|
  {
    if es == [] then 0 else PositiveCount(es[..|es| - 1]) + (if es[|es| - 1].emotion >= 4 then 1 else 0)
  }

  /** `lowEmotionPercentage > 50`, with the percentage computed as the source does. */
  predicate MostlyLow(es: seq<EmotionEntry>)
  {
    es != [] && (LowCount(es) as real / |es| as real) * 100.0 > 50.0
  }

  /** Two chronologically adjacent entries differ by 3 or more. */
  predicate HasExtremeSwing(es: seq<EmotionEntry>)
  {
    exists i | 1 <= i < |es| :: Abs(es[i].emotion - es[i - 1].emotion) >= 3
  }

  /**
   * The notes of the given entries that are present and not blank, in order: every note kept is
   * the note of one of the entries and is not blank, and every such note is kept.
   */
  function NonBlankNotes(es: seq<EmotionEntry>): (notes: seq<string>)
    ensures |notes| <= |es|
    ensures forall n :: n in notes ==> !TrimsToEmpty(n)
    ensures forall n :: n in notes ==> exists i :: 0 <= i < |es| && es[i].note == Some(n)
    ensures forall i :: 0 <= i < |es| && es[i].note.Some? && !TrimsToEmpty(es[i].note.value) ==> es[i].note.value in notes
  {
    if es == [] then []
    else
      var front := es[..|es| - 1];
      var e := es[|es| - 1];
      var notes := NonBlankNotes(front) + (if e.note.Some? && !TrimsToEmpty(e.note.value) then [e.note.value] else []);
      assert forall i :: 0 <= i < |front| ==> front[i] == es[i];
      notes
  }

  /** The filter works entry by entry: the notes of two runs of entries are the notes of each, in order. */
  lemma {:induction false} NonBlankNotesAppend(a: seq<EmotionEntry>, b: seq<EmotionEntry>)
    ensures NonBlankNotes(a + b) == NonBlankNotes(a) + NonBlankNotes(b)
    decreases |b|
  {
    if b == [] {
      assert a + b == a;
    } else {
      var front := b[..|b| - 1];
      assert (a + b)[..|a + b| - 1] == a + front;
      NonBlankNotesAppend(a, front);
    }
  }

  /** The non-blank notes among the last three entries. */
  function RecentNotes(es: seq<EmotionEntry>): seq<string>
  {
    NonBlankNotes(Slice(es, -3, |es|))
  }

  /** The lower-cased recent notes joined by single spaces. */
  function NotesText(es: seq<EmotionEntry>): string
  {
    Join(Map(Lower, RecentNotes(es)), " ")
  }

  /** The text contains one of the words. */
  predicate MentionsAny(text: string, words: seq<string>)
  {
    words != [] && (Contains(text, words[0]) || MentionsAny(text, words[1..]))
  }

  /** Some recent note mentions one of the words (the text is searched only when there are notes). */
  predicate NotesMention(es: seq<EmotionEntry>, words: seq<string>)
  {
    RecentNotes(es) != [] && MentionsAny(NotesText(es), words)
  }

  /** The condition of the rule that raises problem area p. */
  predicate Fires(p: ProblemArea, es: seq<EmotionEntry>)
  {
    match p
    case PersistentlyLow => MostlyLow(es)
    case Worsening => Declines(es)
    case LowEngagement => |es| < 3
    case ExtremeSwings => HasExtremeSwing(es)
    case SocialIsolation => NotesMention(es, ["sozinho", "isolado"])
    case SleepIssues => NotesMention(es, ["cansado", "sono"])
    case AcademicStress => NotesMention(es, ["prova", "nota", "dificuldade"])
  }

  /** Problem areas appear in rule order, each at most once. */
  predicate RuleOrdered(ps: seq<ProblemArea>)
  {
    forall i, j :: 0 <= i < j < |ps| ==> ps[i].Rank() < ps[j].Rank()
  }

  /** The area whose rule is at position k of the chain. */
  function AreaAt(k: nat): (p: ProblemArea)
    requires k < 7
    ensures p.Rank() == k
  {
    if k == 0 then PersistentlyLow
    else if k == 1 then Worsening
    else if k == 2 then LowEngagement
    else if k == 3 then ExtremeSwings
    else if k == 4 then SocialIsolation
    else if k == 5 then SleepIssues
    else AcademicStress
  }

  /** The verdicts of the seven rules on a history, in chain order. */
  function Verdicts(es: seq<EmotionEntry>): (fired: seq<bool>)
    ensures |fired| == 7
  {
    seq(7, k requires 0 <= k < 7 => Fires(AreaAt(k), es))
  }

  /** The areas raised by the first k rules of the chain, given the rules' verdicts. */
  function FiredBelow(fired: seq<bool>, k: nat): seq<ProblemArea>
    requires k <= |fired| <= 7
  {
    if k == 0 then []
    else FiredBelow(fired, k - 1) + (if fired[k - 1] then [AreaAt(k - 1)] else [])
  }

  /** The areas the whole rule chain raises. */
  function FiredAreas(es: seq<EmotionEntry>): seq<ProblemArea>
  {
    FiredBelow(Verdicts(es), 7)
  }

  /** Distinct areas have distinct ranks. */
  lemma RankInjective(p: ProblemArea, q: ProblemArea)
    requires p.Rank() == q.Rank()
    ensures p == q
  {
  }

  /** The first k rules raise exactly the areas of rank below k whose verdict is positive, in rule order. */
  lemma {:induction false} FiredBelowSpec(fired: seq<bool>, k: nat)
    requires k <= |fired| <= 7
    ensures forall p :: p in FiredBelow(fired, k) <==> p.Rank() < k && fired[p.Rank()]
    ensures RuleOrdered(FiredBelow(fired, k))
  {
    if k > 0 {
      FiredBelowSpec(fired, k - 1);
      forall p: ProblemArea | p.Rank() == k - 1 ensures p == AreaAt(k - 1) {
        RankInjective(p, AreaAt(k - 1));
      }
    }
  }

  /** The verdict at an area's rank is that area's rule. */
  lemma VerdictOf(es: seq<EmotionEntry>, p: ProblemArea)
    ensures Verdicts(es)[p.Rank()] == Fires(p, es)
  {
    RankInjective(p, AreaAt(p.Rank()));
  }

  /** The whole chain raises exactly the areas whose rule fires, each once, in rule order. */
  lemma FiredAreasSpec(es: seq<EmotionEntry>)
    ensures forall p :: p in FiredAreas(es) <==> Fires(p, es)
    ensures RuleOrdered(FiredAreas(es))
  {
    FiredBelowSpec(Verdicts(es), 7);
    forall p: ProblemArea ensures Verdicts(es)[p.Rank()] == Fires(p, es) {
      VerdictOf(es, p);
    }
  }

  function ReportName(student: Option<User>): string
  {
    if student.Some? && student.value.name != "" then student.value.name else UnknownStudentName
  }

  /** The neutral report: nothing to analyse. */
  ghost predicate IsNeutral(r: StudentReport)
  {
    && r.totalEntries == 0 && r.averageEmotion == 0.0 && r.lastEntry.None?
    && r.trend == Stable && r.alertLevel == NoAlert
    && r.recentEmotions == [] && r.problemAreas == [] && r.recommendations == []
  }

  /** Every analysed field of r is tied to the (non-empty) chronological entries of its student. */
  ghost predicate Describes(r: StudentReport, entries: seq<EmotionEntry>)
    requires entries != []
  {
    var n := |entries|;
    && r.totalEntries == n
    && r.averageEmotion == WeeklyAverage(entries)
    && r.lastEntry == Some(entries[n - 1])
    && |r.recentEmotions| == Min(5, n)
    && (forall i :: 0 <= i < |r.recentEmotions| ==> r.recentEmotions[i] == entries[n - 1 - i])
    && (r.trend == Improving <==> Improves(entries))
    && (r.trend == Declining <==> Declines(entries))
    && (r.alertLevel == Critical <==> LastTwoLow(entries))
    && (r.alertLevel == Warning <==> !LastTwoLow(entries) && WeeklyAverage(entries) < 2.5)
    && r.problemAreas == FiredAreas(entries)
    && r.recommendations == AllRecommendations(r.problemAreas)
         + (if r.alertLevel == NoAlert && r.averageEmotion >= 4.0 then PositiveReinforcement() else [])
  }

  /** The trend of a chronological history, decided by the two window means. */
  function TrendOf(es: seq<EmotionEntry>): (t: Trend)
    ensures t == Improving <==> Improves(es)
    ensures t == Declining <==> Declines(es)
  {
    if Improves(es) then Improving else if Declines(es) then Declining else Stable
  }

  /** The alert of a chronological history: two low entries last, else a low mean. */
  function AlertOf(es: seq<EmotionEntry>): (a: AlertLevel)
    ensures a == Critical <==> LastTwoLow(es)
    ensures a == Warning <==> !LastTwoLow(es) && WeeklyAverage(es) < 2.5
  {
    if LastTwoLow(es) then Critical else if WeeklyAverage(es) < 2.5 then Warning else NoAlert
  }

  /** The last five entries (or all of them), most recent first. */
  function RecentOf(es: seq<EmotionEntry>): (r: seq<EmotionEntry>)
    ensures |r| == Min(5, |es|)
    ensures forall i :: 0 <= i < |r| ==> r[i] == es[|es| - 1 - i]
  {
    Reverse(es[|es| - Min(5, |es|)..])
  }

  /** The recommendations for a history: those of the raised areas, then the positive pair for a student doing well. */
  function RecommendationsOf(es: seq<EmotionEntry>): seq<Recommendation>
  {
    AllRecommendations(FiredAreas(es))
      + (if AlertOf(es) == NoAlert && WeeklyAverage(es) >= 4.0 then PositiveReinforcement() else [])
  }

  /**
   * The report on `studentId` for the stored log `all`: the neutral report for an unknown id, a
   * non-student or a student without entries; otherwise the analysis of that student's entries.
   */
  function ReportOf(all: seq<EmotionEntry>, studentId: string): (r: StudentReport)
    ensures r.studentId == studentId
  {
    var entries := SelectEntries(all, Some(studentId));
    var student := FindStudent(MockUsers(), studentId);
    var n := |entries|;
    if student.None? || n == 0 then
      StudentReport(studentId, ReportName(student), 0, 0.0, None, Stable, NoAlert, [], [], [])
    else
      StudentReport(studentId, student.value.name, n, WeeklyAverage(entries), Some(entries[n - 1]),
                    TrendOf(entries), AlertOf(entries), RecentOf(entries), FiredAreas(entries),
                    RecommendationsOf(entries))
  }

  /**
   * What the report promises: an unknown id, a non-student or a student without entries gets the
   * neutral report (named "Aluno Desconhecido" when the id is unknown); otherwise every field is tied
   * to the chronological entries of that student.
   */
  lemma ReportOfSpec(all: seq<EmotionEntry>, studentId: string)
    ensures var r := ReportOf(all, studentId);
            var entries := SelectEntries(all, Some(studentId));
            var student := FindStudent(MockUsers(), studentId);
            && r.studentId == studentId
            && (student.None? ==> r.studentName == UnknownStudentName)
            && if student.None? || entries == [] then IsNeutral(r)
               else r.studentName == student.value.name && Describes(r, entries)
  {
  }

  /** AllRecommendations distributes over appending one problem area. */
  lemma {:induction false} RuleStep(ps: seq<ProblemArea>, p: ProblemArea)
    ensures AllRecommendations(ps + [p]) == AllRecommendations(ps) + RecommendationsFor(p)
  {
    assert (ps + [p])[..|ps + [p]| - 1] == ps;
  }

  /** The state of the rule chain after the rules of rank below k have run. */
  ghost predicate ChainSoFar(ps: seq<ProblemArea>, recs: seq<Recommendation>, es: seq<EmotionEntry>, k: nat)
  {
    k <= 7 && ps == FiredBelow(Verdicts(es), k) && recs == AllRecommendations(ps)
  }

  /** A rule that fires appends its area and its recommendations: the chain moves from rank k to k + 1. */
  lemma ChainFired(ps: seq<ProblemArea>, recs: seq<Recommendation>, es: seq<EmotionEntry>, p: ProblemArea)
    requires ChainSoFar(ps, recs, es, p.Rank())
    requires Fires(p, es)
    ensures ChainSoFar(ps + [p], recs + RecommendationsFor(p), es, p.Rank() + 1)
  {
    RuleStep(ps, p);
    VerdictOf(es, p);
    RankInjective(p, AreaAt(p.Rank()));
  }

  /** A rule that does not fire leaves the lists alone: the chain still moves from rank k to k + 1. */
  lemma ChainSkipped(ps: seq<ProblemArea>, recs: seq<Recommendation>, es: seq<EmotionEntry>, p: ProblemArea)
    requires ChainSoFar(ps, recs, es, p.Rank())
    requires !Fires(p, es)
    ensures ChainSoFar(ps, recs, es, p.Rank() + 1)
  {
    VerdictOf(es, p);
  }

  /** The windows the source takes with negative slices, in plain indices. */
  lemma TrendWindows(es: seq<EmotionEntry>)
    requires |es| >= 3
    ensures Slice(es, -3, |es|) == RecentWindow(es)
    ensures |Slice(es, -6, -3)| > 0 <==> |es| > 3
    ensures |es| > 3 ==> Slice(es, -6, -3) == OlderWindow(es)
  {
  }

  /** `entries.slice(-2)` has two elements, both at most 2, exactly when the last two entries are low. */
  lemma LastTwoSlice(es: seq<EmotionEntry>)
    ensures (|Slice(es, -2, |es|)| >= 2 && forall e | e in Slice(es, -2, |es|) :: e.emotion <= 2) <==> LastTwoLow(es)
  {
    if |es| >= 2 {
      assert Slice(es, -2, |es|) == [es[|es| - 2], es[|es| - 1]];
    }
  }

  /** The trend computation of `generateStudentReport`. */
  method ComputeTrend(entries: seq<EmotionEntry>) returns (trend: Trend)
    ensures trend == TrendOf(entries)
  {
    var n := |entries|;
    trend := Stable;
    if n >= 3 {
      TrendWindows(entries);
      var recent := Slice(entries, -3, n);
      var older := Slice(entries, -6, -3);
      if |older| > 0 {
        var recentAvg := WeeklyAverage(recent);
        var olderAvg := WeeklyAverage(older);
        if recentAvg > olderAvg + 0.5 {
          trend := Improving;
        } else if recentAvg < olderAvg - 0.5 {
          trend := Declining;
        }
      }
    }
  }

  /** The alert computation of `generateStudentReport`. */
  method ComputeAlert(entries: seq<EmotionEntry>) returns (alertLevel: AlertLevel)
    ensures alertLevel == AlertOf(entries)
  {
    var n := |entries|;
    alertLevel := NoAlert;
    var lastTwoWeeks := Slice(entries, -2, n);
    LastTwoSlice(entries);
    if |lastTwoWeeks| >= 2 && (forall e | e in lastTwoWeeks :: e.emotion <= 2) {
      alertLevel := Critical;
    } else if WeeklyAverage(entries) < 2.5 {
      alertLevel := Warning;
    }
  }

  /** The four rules over the emotion values: persistently low, worsening, low engagement, swings. */
  method ScoreRules(entries: seq<EmotionEntry>, trend: Trend) returns (problemAreas: seq<ProblemArea>, recommendations: seq<Recommendation>)
    requires entries != []
    requires trend == TrendOf(entries)
    ensures ChainSoFar(problemAreas, recommendations, entries, 4)
  {
    problemAreas := [];
    recommendations := [];
    assert ChainSoFar(problemAreas, recommendations, entries, 0);
    problemAreas, recommendations := LowRule(entries, problemAreas, recommendations);
    problemAreas, recommendations := DecliningRule(entries, trend, problemAreas, recommendations);
    problemAreas, recommendations := EngagementRule(entries, problemAreas, recommendations);
    problemAreas, recommendations := SwingRule(entries, problemAreas, recommendations);
  }

  /** Consistently low emotions: more than half of the entries at most 2. */
  method LowRule(entries: seq<EmotionEntry>, ps: seq<ProblemArea>, recs: seq<Recommendation>)
    returns (problemAreas: seq<ProblemArea>, recommendations: seq<Recommendation>)
    requires entries != []
    requires ChainSoFar(ps, recs, entries, PersistentlyLow.Rank())
    ensures ChainSoFar(problemAreas, recommendations, entries, PersistentlyLow.Rank() + 1)
  {
    problemAreas, recommendations := ps, recs;
    var lowEmotionCount := LowCount(entries);
    var lowEmotionPercentage := (lowEmotionCount as real / |entries| as real) * 100.0;
    if lowEmotionPercentage > 50.0 {
      ChainFired(problemAreas, recommendations, entries, PersistentlyLow);
      problemAreas := problemAreas + [PersistentlyLow];
      recommendations := recommendations + [IndividualConversation, PsychologistReferral];
    } else {
      ChainSkipped(problemAreas, recommendations, entries, PersistentlyLow);
    }
  }

  /** Declining trend. */
  method DecliningRule(entries: seq<EmotionEntry>, trend: Trend, ps: seq<ProblemArea>, recs: seq<Recommendation>)
    returns (problemAreas: seq<ProblemArea>, recommendations: seq<Recommendation>)
    requires trend == TrendOf(entries)
    requires ChainSoFar(ps, recs, entries, Worsening.Rank())
    ensures ChainSoFar(problemAreas, recommendations, entries, Worsening.Rank() + 1)
  {
    problemAreas, recommendations := ps, recs;
    if trend == Declining {
      ChainFired(problemAreas, recommendations, entries, Worsening);
      problemAreas := problemAreas + [Worsening];
      recommendations := recommendations + [CloseMonitoring, InvestigateChanges];
    } else {
      ChainSkipped(problemAreas, recommendations, entries, Worsening);
    }
  }

  /** Lack of engagement: fewer than three entries. */
  method EngagementRule(entries: seq<EmotionEntry>, ps: seq<ProblemArea>, recs: seq<Recommendation>)
    returns (problemAreas: seq<ProblemArea>, recommendations: seq<Recommendation>)
    requires ChainSoFar(ps, recs, entries, LowEngagement.Rank())
    ensures ChainSoFar(problemAreas, recommendations, entries, LowEngagement.Rank() + 1)
  {
    problemAreas, recommendations := ps, recs;
    if |entries| < 3 {
      ChainFired(problemAreas, recommendations, entries, LowEngagement);
      problemAreas := problemAreas + [LowEngagement];
      recommendations := recommendations + [EncourageLogging, ExplainSelfAwareness];
    } else {
      ChainSkipped(problemAreas, recommendations, entries, LowEngagement);
    }
  }

  /** Extreme variations between adjacent entries. */
  method SwingRule(entries: seq<EmotionEntry>, ps: seq<ProblemArea>, recs: seq<Recommendation>)
    returns (problemAreas: seq<ProblemArea>, recommendations: seq<Recommendation>)
    requires ChainSoFar(ps, recs, entries, ExtremeSwings.Rank())
    ensures ChainSoFar(problemAreas, recommendations, entries, ExtremeSwings.Rank() + 1)
  {
    problemAreas, recommendations := ps, recs;
    var hasExtremeVariation := exists i | 1 <= i < |entries| :: Abs(entries[i].emotion - entries[i - 1].emotion) >= 3;
    if hasExtremeVariation {
      ChainFired(problemAreas, recommendations, entries, ExtremeSwings);
      problemAreas := problemAreas + [ExtremeSwings];
      recommendations := recommendations + [EvaluateTriggers, TeachRegulation];
    } else {
      ChainSkipped(problemAreas, recommendations, entries, ExtremeSwings);
    }
  }

  /** With recent notes present, the keyword rules fire exactly on the searches the source makes. */
  lemma NoteRulesFire(es: seq<EmotionEntry>, notesText: string)
    requires RecentNotes(es) != [] && notesText == NotesText(es)
    ensures Fires(SocialIsolation, es) == (Contains(notesText, "sozinho") || Contains(notesText, "isolado"))
    ensures Fires(SleepIssues, es) == (Contains(notesText, "cansado") || Contains(notesText, "sono"))
    ensures Fires(AcademicStress, es) == (Contains(notesText, "prova") || Contains(notesText, "nota") || Contains(notesText, "dificuldade"))
  {
    MentionsTwo(notesText, "sozinho", "isolado");
    MentionsTwo(notesText, "cansado", "sono");
    var academic := ["prova", "nota", "dificuldade"];
    assert academic[1..] == ["nota", "dificuldade"];
    MentionsTwo(notesText, "nota", "dificuldade");
  }

  /** A two-word list is mentioned iff one of its two words is. */
  lemma MentionsTwo(text: string, w1: string, w2: string)
    ensures MentionsAny(text, [w1, w2]) == (Contains(text, w1) || Contains(text, w2))
  {
    assert [w1, w2][1..] == [w2];
    assert [w2][1..] == [];
    assert !MentionsAny(text, []);
    assert MentionsAny(text, [w2]) == Contains(text, w2);
  }

  /** Without recent notes no keyword rule fires. */
  lemma NoNotesNoKeywords(es: seq<EmotionEntry>)
    requires RecentNotes(es) == []
    ensures !Fires(SocialIsolation, es) && !Fires(SleepIssues, es) && !Fires(AcademicStress, es)
  {
  }

  /** The isolation rule: "sozinho" or "isolado" in the recent notes. */
  method IsolationRule(entries: seq<EmotionEntry>, notesText: string, ps: seq<ProblemArea>, recs: seq<Recommendation>)
    returns (problemAreas: seq<ProblemArea>, recommendations: seq<Recommendation>)
    requires RecentNotes(entries) != [] && notesText == NotesText(entries)
    requires ChainSoFar(ps, recs, entries, SocialIsolation.Rank())
    ensures ChainSoFar(problemAreas, recommendations, entries, SocialIsolation.Rank() + 1)
  {
    problemAreas, recommendations := ps, recs;
    NoteRulesFire(entries, notesText);
    if Contains(notesText, "sozinho") || Contains(notesText, "isolado") {
      ChainFired(problemAreas, recommendations, entries, SocialIsolation);
      problemAreas := problemAreas + [SocialIsolation];
      recommendations := recommendations + [GroupActivities];
    } else {
      ChainSkipped(problemAreas, recommendations, entries, SocialIsolation);
    }
  }

  /** The sleep rule: "cansado" or "sono" in the recent notes. */
  method SleepRule(entries: seq<EmotionEntry>, notesText: string, ps: seq<ProblemArea>, recs: seq<Recommendation>)
    returns (problemAreas: seq<ProblemArea>, recommendations: seq<Recommendation>)
    requires RecentNotes(entries) != [] && notesText == NotesText(entries)
    requires ChainSoFar(ps, recs, entries, SleepIssues.Rank())
    ensures ChainSoFar(problemAreas, recommendations, entries, SleepIssues.Rank() + 1)
  {
    problemAreas, recommendations := ps, recs;
    NoteRulesFire(entries, notesText);
    if Contains(notesText, "cansado") || Contains(notesText, "sono") {
      ChainFired(problemAreas, recommendations, entries, SleepIssues);
      problemAreas := problemAreas + [SleepIssues];
      recommendations := recommendations + [SleepRoutine];
    } else {
      ChainSkipped(problemAreas, recommendations, entries, SleepIssues);
    }
  }

  /** The academic rule: "prova", "nota" or "dificuldade" in the recent notes. */
  method AcademicRule(entries: seq<EmotionEntry>, notesText: string, ps: seq<ProblemArea>, recs: seq<Recommendation>)
    returns (problemAreas: seq<ProblemArea>, recommendations: seq<Recommendation>)
    requires RecentNotes(entries) != [] && notesText == NotesText(entries)
    requires ChainSoFar(ps, recs, entries, AcademicStress.Rank())
    ensures ChainSoFar(problemAreas, recommendations, entries, AcademicStress.Rank() + 1)
  {
    problemAreas, recommendations := ps, recs;
    NoteRulesFire(entries, notesText);
    if Contains(notesText, "prova") || Contains(notesText, "nota") || Contains(notesText, "dificuldade") {
      ChainFired(problemAreas, recommendations, entries, AcademicStress);
      problemAreas := problemAreas + [AcademicStress];
      recommendations := recommendations + [PedagogicalSupport, StressManagement];
    } else {
      ChainSkipped(problemAreas, recommendations, entries, AcademicStress);
    }
  }

  /** The three keyword rules, which run only when some recent note is not blank. */
  method NoteRules(entries: seq<EmotionEntry>, ps: seq<ProblemArea>, recs: seq<Recommendation>)
    returns (problemAreas: seq<ProblemArea>, recommendations: seq<Recommendation>)
    requires ChainSoFar(ps, recs, entries, 4)
    ensures ChainSoFar(problemAreas, recommendations, entries, 7)
  {
    problemAreas, recommendations := ps, recs;
    var recentNotes := RecentNotes(entries);
    if |recentNotes| > 0 {
      var notesText := NotesText(entries);
      problemAreas, recommendations := IsolationRule(entries, notesText, problemAreas, recommendations);
      problemAreas, recommendations := SleepRule(entries, notesText, problemAreas, recommendations);
      problemAreas, recommendations := AcademicRule(entries, notesText, problemAreas, recommendations);
    } else {
      NoNotesNoKeywords(entries);
      ChainSkipped(problemAreas, recommendations, entries, SocialIsolation);
      ChainSkipped(problemAreas, recommendations, entries, SleepIssues);
      ChainSkipped(problemAreas, recommendations, entries, AcademicStress);
    }
  }

  /** The analysed report on a student with entries, assembled from its parts. */
  lemma AnalysedReport(all: seq<EmotionEntry>, studentId: string, entries: seq<EmotionEntry>, student: User,
                       ps: seq<ProblemArea>, recs: seq<Recommendation>)
    requires entries == SelectEntries(all, Some(studentId)) && entries != []
    requires FindStudent(MockUsers(), studentId) == Some(student)
    requires ChainSoFar(ps, recs, entries, 7)
    ensures ReportOf(all, studentId)
            == StudentReport(studentId, student.name, |entries|, WeeklyAverage(entries), Some(entries[|entries| - 1]),
                             TrendOf(entries), AlertOf(entries), RecentOf(entries), ps,
                             recs + (if AlertOf(entries) == NoAlert && WeeklyAverage(entries) >= 4.0
                                     then PositiveReinforcement() else []))
  {
  }

  /** `entries.slice(-5).reverse()`. */
  method RecentEmotions(entries: seq<EmotionEntry>) returns (recent: seq<EmotionEntry>)
    ensures recent == RecentOf(entries)
  {
    SliceLast(entries, 5);
    recent := Reverse(Slice(entries, -5, |entries|));
  }

  /** `generateStudentReport(studentId)`. */
  method GenerateStudentReport(st: LocalStorage, studentId: string) returns (r: StudentReport)
    ensures r == ReportOf(StoredEntries(st), studentId)
  {
    var entries := GetEmotionEntries(st, Some(studentId));
    var student := FindStudent(MockUsers(), studentId);
    var n := |entries|;

    if student.None? || n == 0 {
      return StudentReport(studentId, ReportName(student), 0, 0.0, None, Stable, NoAlert, [], [], []);
    }

    var averageEmotion := WeeklyAverage(entries);
    var recentEmotions := RecentEmotions(entries);
    var lastEntry := entries[n - 1];

    var trend := ComputeTrend(entries);
    var alertLevel := ComputeAlert(entries);
    var problemAreas, recommendations := ScoreRules(entries, trend);
    problemAreas, recommendations := NoteRules(entries, problemAreas, recommendations);
    AnalysedReport(StoredEntries(st), studentId, entries, student.value, problemAreas, recommendations);

    // Positive reinforcement
    if alertLevel == NoAlert && averageEmotion >= 4.0 {
      recommendations := recommendations + [KeepFollowUp, PositiveExample];
    }

    r := StudentReport(studentId, student.value.name, n, averageEmotion, Some(lastEntry),
                       trend, alertLevel, recentEmotions, problemAreas, recommendations);
  }

  // ---------------------------------------------------------------------------
  // Properties of the per-student report.

  /** Each rule pushes one or two recommendations with its area, so there are at least as many recommendations as areas. */
  lemma {:induction false} RecommendationsCoverProblems(ps: seq<ProblemArea>)
    ensures |ps| <= |AllRecommendations(ps)| <= 2 * |ps|
  {
    if ps != [] {
      RecommendationsCoverProblems(ps[..|ps| - 1]);
    }
  }

  /** No rule pushes either recommendation of the positive pair. */
  lemma {:induction false} RulesNeverPraise(ps: seq<ProblemArea>)
    ensures KeepFollowUp !in AllRecommendations(ps)
    ensures PositiveExample !in AllRecommendations(ps)
  {
    if ps != [] {
      RulesNeverPraise(ps[..|ps| - 1]);
    }
  }

  /**
   * The positive pair closes the recommendations exactly when the alert is none and the average at
   * least 4; it never comes with a problem area of its own.
   */
  lemma PositivePairIff(r: StudentReport, entries: seq<EmotionEntry>)
    requires entries != [] && Describes(r, entries)
    ensures KeepFollowUp in r.recommendations <==> r.alertLevel == NoAlert && r.averageEmotion >= 4.0
    ensures r.alertLevel == NoAlert && r.averageEmotion >= 4.0 ==>
              r.recommendations[|r.recommendations| - 2..] == PositiveReinforcement()
    ensures |r.problemAreas| <= |r.recommendations|
  {
    RulesNeverPraise(r.problemAreas);
    RecommendationsCoverProblems(r.problemAreas);
  }

  /** `lowEmotionPercentage > 50` holds exactly when more than half of the entries are low. */
  lemma MostlyLowIff(es: seq<EmotionEntry>)
    ensures MostlyLow(es) <==> 2 * LowCount(es) > |es|
  {
    if es != [] {
      RatioAboveHalf(LowCount(es) as real, |es| as real);
    }
  }

  /** (c / n) * 100 > 50 exactly when 2c > n, for positive n. */
  lemma RatioAboveHalf(c: real, n: real)
    requires n > 0.0
    ensures (c / n) * 100.0 > 50.0 <==> 2.0 * c > n
  {
    var q := c / n;
    assert q * n == c;
    if q > 0.5 {
      assert (q - 0.5) * n > 0.0;
    } else {
      assert (0.5 - q) * n >= 0.0;
    }
  }

  /** With at most three entries the trend is stable. */
  lemma StableWhenFew(r: StudentReport, entries: seq<EmotionEntry>)
    requires entries != [] && Describes(r, entries)
    requires |entries| <= 3
    ensures r.trend == Stable
  {
  }

  /** A lone entry of 1 raises a warning, not a critical alert: the critical rule needs two entries. */
  lemma SingleLowEntryWarns(r: StudentReport, e: EmotionEntry)
    requires e.emotion == 1 && e.note.None?
    requires Describes(r, [e])
    ensures r.alertLevel == Warning
    ensures r.problemAreas == [PersistentlyLow, LowEngagement]
    ensures r.recommendations == [IndividualConversation, PsychologistReferral, EncourageLogging, ExplainSelfAwareness]
  {
    var es := [e];
    assert WeeklyAverage(es) == 1.0 by {
      assert SumEmotions(es) == SumEmotions([]) + 1;
    }
    MostlyLowIff(es);
    assert LowCount(es) == LowCount([]) + 1;
    assert RecentNotes(es) == NonBlankNotes(es) by {
      assert Slice(es, -3, 1) == es;
    }
    assert NonBlankNotes(es) == NonBlankNotes([]);
    NoNotesNoKeywords(es);
    assert !HasExtremeSwing(es);
    assert !Declines(es);
    var verdicts := [true, false, true, false, false, false, false];
    assert Verdicts(es) == verdicts;
    assert FiredBelow(verdicts, 7) == [PersistentlyLow, LowEngagement];
    assert AllRecommendations(r.problemAreas) == AllRecommendations([PersistentlyLow]) + RecommendationsFor(LowEngagement);
    assert [PersistentlyLow][..0] == [];
  }

  /** The report's problem areas are the one rule-ordered list of the areas whose rule fires. */
  lemma ProblemAreasDetermined(r: StudentReport, entries: seq<EmotionEntry>, ps: seq<ProblemArea>)
    requires entries != [] && Describes(r, entries)
    requires RuleOrdered(ps) && forall p :: p in ps <==> Fires(p, entries)
    ensures r.problemAreas == ps
  {
    FiredAreasSpec(entries);
    RuleOrderedUnique(r.problemAreas, ps);
  }

  /** The rule order fixes the list: two rule-ordered lists with the same areas are equal. */
  lemma {:induction false} RuleOrderedUnique(ps: seq<ProblemArea>, qs: seq<ProblemArea>)
    requires RuleOrdered(ps) && RuleOrdered(qs)
    requires forall p :: p in ps <==> p in qs
    ensures ps == qs
    decreases |ps|
  {
    SameEmptiness(ps, qs);
    if ps != [] {
      HeadIsFirst(ps, qs[0]);
      HeadIsFirst(qs, ps[0]);
      RankInjective(ps[0], qs[0]);
      OrderedTail(ps);
      OrderedTail(qs);
      RuleOrderedUnique(ps[1..], qs[1..]);
    }
  }

  /** Two lists with the same elements are empty together. */
  lemma SameEmptiness(ps: seq<ProblemArea>, qs: seq<ProblemArea>)
    requires forall p :: p in ps <==> p in qs
    ensures ps == [] <==> qs == []
  {
    if ps != [] {
      assert ps[0] in ps;
    }
    if qs != [] {
      assert qs[0] in qs;
    }
  }

  /** The head of a rule-ordered list has the lowest rank in it. */
  lemma HeadIsFirst(ps: seq<ProblemArea>, p: ProblemArea)
    requires RuleOrdered(ps) && p in ps
    ensures ps[0].Rank() <= p.Rank()
  {
  }

  /** The tail of a rule-ordered list is rule-ordered and holds every area but the head. */
  lemma OrderedTail(ps: seq<ProblemArea>)
    requires RuleOrdered(ps) && ps != []
    ensures RuleOrdered(ps[1..])
    ensures forall p :: p in ps[1..] <==> p in ps && p != ps[0]
  {
    assert ps == [ps[0]] + ps[1..];
    forall p | p in ps[1..] ensures p != ps[0] {
      var k :| 0 <= k < |ps| - 1 && ps[1..][k] == p;
      assert ps[0].Rank() < ps[k + 1].Rank();
    }
  }

  /** A report with entries has its average on the emotion scale when every stored value is. */
  lemma ReportAverageOnScale(r: StudentReport, entries: seq<EmotionEntry>)
    requires entries != [] && Describes(r, entries)
    requires forall i :: 0 <= i < |entries| ==> OnScale(entries[i])
    ensures 1.0 <= r.averageEmotion <= 5.0
  {
    AverageBounds(entries, 1, 5);
  }

  // ---------------------------------------------------------------------------
  // The cohort: all student reports in priority order.

  /** `alertOrder`: critical 0, warning 1, none 2. */
  function AlertRank(a: AlertLevel): (k: nat)
    ensures k <= 2
    ensures a == Critical <==> k == 0
    ensures a == Warning <==> k == 1
  {
    match a
    case Critical => 0
    case Warning => 1
    case NoAlert => 2
  }

  /** The comparator of `getAllStudentReports`: alert order first, then lower average first. */
  predicate PriorityLe(a: StudentReport, b: StudentReport)
  {
    AlertRank(a.alertLevel) < AlertRank(b.alertLevel)
    || (AlertRank(a.alertLevel) == AlertRank(b.alertLevel) && a.averageEmotion <= b.averageEmotion)
  }

  /** The comparator is a total preorder, so sorting by it is well defined. */
  lemma PriorityIsTotalPreorder()
    ensures TotalPreorder(PriorityLe)
  {
  }

  function StudentIdOf(r: StudentReport): string { r.studentId }

  function UserId(u: User): string { u.id }

  /**
   * `getAllStudentReports`: one report per student of the roster, critical first, then by rising
   * average; the sort is stable, so reports already in that order keep roster order.
   */
  method GetAllStudentReports(st: LocalStorage) returns (reports: seq<StudentReport>)
    ensures |reports| == |Students(MockUsers())|
    ensures multiset(Map(StudentIdOf, reports)) == multiset(Map(UserId, Students(MockUsers())))
    ensures forall r :: r in reports ==> r == ReportOf(StoredEntries(st), r.studentId)
    ensures SortedBy(reports, PriorityLe)
    ensures var inRosterOrder := ReportsOf(ReportOn(StoredEntries(st)), Students(MockUsers()));
            SortedBy(inRosterOrder, PriorityLe) ==> reports == inRosterOrder
  {
    var students := Students(MockUsers());
    reports := ReportsByPriority(st, students);
  }

  /** The reports on the given students, most urgent first. */
  method ReportsByPriority(st: LocalStorage, students: seq<User>) returns (reports: seq<StudentReport>)
    ensures |reports| == |students|
    ensures multiset(Map(StudentIdOf, reports)) == multiset(Map(UserId, students))
    ensures forall r :: r in reports ==> r == ReportOf(StoredEntries(st), r.studentId)
    ensures SortedBy(reports, PriorityLe)
    ensures var inOrder := ReportsOf(ReportOn(StoredEntries(st)), students);
            SortedBy(inOrder, PriorityLe) ==> reports == inOrder
  {
    var generated := GenerateReports(st, students);
    ReportsOfSpec(ReportOn(StoredEntries(st)), students);
    assert Map(StudentIdOf, generated) == Map(UserId, students);
    reports := SortByPriority(generated);
    MapPermutation(StudentIdOf, reports, generated);
    ReportsPermuted(generated, reports, StoredEntries(st));
  }

  /** `reports.sort(...)` with the priority comparator: a stable sort, so reports already in order stay as they are. */
  method SortByPriority(generated: seq<StudentReport>) returns (reports: seq<StudentReport>)
    ensures multiset(reports) == multiset(generated)
    ensures |reports| == |generated|
    ensures SortedBy(reports, PriorityLe)
    ensures SortedBy(generated, PriorityLe) ==> reports == generated
  {
    PriorityIsTotalPreorder();
    reports := SortBy(generated, PriorityLe);
    SortBySorted(generated, PriorityLe);
  }

  /** Reordering reports keeps each one the report on its own student. */
  lemma ReportsPermuted(generated: seq<StudentReport>, reports: seq<StudentReport>, all: seq<EmotionEntry>)
    requires multiset(generated) == multiset(reports)
    requires forall j :: 0 <= j < |generated| ==> generated[j] == ReportOf(all, generated[j].studentId)
    ensures forall r :: r in reports ==> r == ReportOf(all, r.studentId)
  {
    forall r | r in reports ensures r == ReportOf(all, r.studentId) {
      assert r in multiset(generated);
    }
  }

  /** `generateStudentReport` as a function of the student, for the stored log `all`. */
  function ReportOn(all: seq<EmotionEntry>): User -> StudentReport
  {
    (u: User) => ReportOf(all, u.id)
  }

  /** The reports `report` gives on the given students, in roster order. */
  ghost function ReportsOf(report: User -> StudentReport, students: seq<User>): seq<StudentReport>
  {
    if students == [] then []
    else ReportsOf(report, students[..|students| - 1]) + [report(students[|students| - 1])]
  }

  /** ReportsOf holds one report per student, at the student's own position. */
  lemma {:induction false} ReportsOfSpec(report: User -> StudentReport, students: seq<User>)
    ensures |ReportsOf(report, students)| == |students|
    ensures forall j :: 0 <= j < |students| ==> ReportsOf(report, students)[j] == report(students[j])
  {
    if students != [] {
      var init := students[..|students| - 1];
      ReportsOfSpec(report, init);
      forall j | 0 <= j < |students| ensures ReportsOf(report, students)[j] == report(students[j]) {
        if j < |init| {
          assert init[j] == students[j];
        }
      }
    }
  }

  /** `students.map((student) => generateStudentReport(student.id))`. */
  method GenerateReports(st: LocalStorage, students: seq<User>) returns (generated: seq<StudentReport>)
    ensures generated == ReportsOf(ReportOn(StoredEntries(st)), students)
  {
    generated := [];
    for i := 0 to |students|
      invariant generated == ReportsOf(ReportOn(StoredEntries(st)), students[..i])
    {
      var report := GenerateStudentReport(st, students[i].id);
      assert students[..i + 1][..i] == students[..i];
      generated := generated + [report];
    }
    assert students[..|students|] == students;
  }

  // ---------------------------------------------------------------------------
  // The weekly cohort report.

  datatype Insight =
    | Excellent | Satisfactory | BelowExpected
    | ImmediateAttention(count: nat)
    | CollectiveActivities | MostlyPositive
  {
    function Text(): string
    {
      match this
      case Excellent => "O bem-estar geral dos alunos está excelente. Continue com as práticas atuais."
      case Satisfactory => "O bem-estar dos alunos está em nível satisfatório, mas há espaço para melhorias."
      case BelowExpected => "Atenção: O bem-estar geral está abaixo do esperado. Considere intervenções."
      case ImmediateAttention(count) =>
        NatToString(count) + " aluno(s) necessitam de atenção imediata. Recomenda-se acompanhamento individual."
      case CollectiveActivities => "Alta porcentagem de emoções negativas. Considere atividades de bem-estar coletivo."
      case MostlyPositive => "Excelente! A maioria dos alunos está com emoções positivas."
    }

    /** True for the three wellbeing-tier messages. */
    predicate IsTier()
    {
      this == Excellent || this == Satisfactory || this == BelowExpected
    }
  }

  datatype WeeklyReport = WeeklyReport(
    week: int,
    year: int,
    totalStudents: nat,
    activeStudents: nat,
    averageWellbeing: real,
    positivePercentage: real,
    negativePercentage: real,
    criticalCases: nat,
    insights: seq<Insight>)

  /** `(count / total) * 100`, or 0 when there is nothing to count. */
  function Percentage(count: nat, total: nat): (pct: real)
    requires count <= total
    ensures 0.0 <= pct <= 100.0
    ensures total == 0 ==> pct == 0.0
    ensures total > 0 ==> pct * total as real == count as real * 100.0
  {
    if total > 0 then
      var q := count as real / total as real;
      assert q * total as real == count as real;
      q * 100.0
    else 0.0
  }

  /** Two disjoint counts of the same list never add up to more than 100%. */
  lemma PercentagesSum(a: nat, b: nat, total: nat)
    requires a + b <= total
    ensures Percentage(a, total) + Percentage(b, total) <= 100.0
  {
    if total > 0 {
      var t := total as real;
      var s := Percentage(a, total) + Percentage(b, total);
      assert s * t == (a + b) as real * 100.0;
      assert s * t <= 100.0 * t;
    }
  }

  /** No entry is both positive (>= 4) and low (<= 2). */
  lemma {:induction false} PositiveAndLowDisjoint(es: seq<EmotionEntry>)
    ensures PositiveCount(es) + LowCount(es) <= |es|
  {
    if es != [] {
      PositiveAndLowDisjoint(es[..|es| - 1]);
    }
  }

  /** `new Set(allEntries.map((e) => e.userId))`. */
  function UserIds(es: seq<EmotionEntry>): (ids: set<string>)
    ensures |ids| <= |es|
    ensures forall u :: u in ids <==> exists e :: e in es && e.userId == u
  {
    if es == [] then {}
    else
      var rest := UserIds(es[..|es| - 1]);
      assert forall e :: e in es <==> e in es[..|es| - 1] || e == es[|es| - 1];
      rest + {es[|es| - 1].userId}
  }

  /** A student whose report is critical: on the roster, with two low entries last. */
  ghost predicate IsCritical(all: seq<EmotionEntry>, studentId: string)
  {
    FindStudent(MockUsers(), studentId).Some? && LastTwoLow(SelectEntries(all, Some(studentId)))
  }

  /** The number of the given students whose report is critical. */
  ghost function CriticalCount(all: seq<EmotionEntry>, students: seq<User>): (c: nat)
    ensures c <= |students|
  {
    if students == [] then 0
    else CriticalCount(all, students[..|students| - 1]) + (if IsCritical(all, students[|students| - 1].id) then 1 else 0)
  }

  lemma CriticalCountSnoc(all: seq<EmotionEntry>, students: seq<User>, i: nat)
    requires i < |students|
    ensures CriticalCount(all, students[..i + 1])
            == CriticalCount(all, students[..i]) + (if IsCritical(all, students[i].id) then 1 else 0)
  {
    assert students[..i + 1][..i] == students[..i];
  }

  /** A report's alert is critical exactly when its student is critical. */
  lemma CriticalIff(r: StudentReport, all: seq<EmotionEntry>, studentId: string)
    requires r == ReportOf(all, studentId)
    ensures r.alertLevel == Critical <==> IsCritical(all, studentId)
  {
  }

  /** `generateStudentReport(student.id).alertLevel === 'critical'`. */
  method IsCriticalReport(st: LocalStorage, studentId: string) returns (critical: bool)
    ensures critical == IsCritical(StoredEntries(st), studentId)
  {
    var report := GenerateStudentReport(st, studentId);
    CriticalIff(report, StoredEntries(st), studentId);
    critical := report.alertLevel == Critical;
  }

  /** The `criticalCases++` loop of `generateWeeklyReport`. */
  method CountCriticalCases(st: LocalStorage, students: seq<User>) returns (criticalCases: nat)
    ensures criticalCases == CriticalCount(StoredEntries(st), students)
  {
    criticalCases := 0;
    for i := 0 to |students|
      invariant criticalCases == CriticalCount(StoredEntries(st), students[..i])
    {
      var critical := IsCriticalReport(st, students[i].id);
      if critical {
        criticalCases := criticalCases + 1;
      }
      CriticalCountSnoc(StoredEntries(st), students, i);
    }
    assert students[..|students|] == students;
  }

  /** `generateWeeklyReport`, for the given week and year (read from the clock in the source). */
  method GenerateWeeklyReport(st: LocalStorage, week: int, year: int) returns (r: WeeklyReport)
    ensures r.week == week && r.year == year
    ensures r.totalStudents == |Students(MockUsers())|
    ensures r.activeStudents == |UserIds(StoredEntries(st))| <= |StoredEntries(st)|
    ensures r.averageWellbeing == WeeklyAverage(StoredEntries(st))
    ensures r.positivePercentage == Percentage(PositiveCount(StoredEntries(st)), |StoredEntries(st)|)
    ensures r.negativePercentage == Percentage(LowCount(StoredEntries(st)), |StoredEntries(st)|)
    ensures r.positivePercentage + r.negativePercentage <= 100.0
    ensures r.criticalCases == CriticalCount(StoredEntries(st), Students(MockUsers())) <= r.totalStudents
    ensures r.insights == InsightsFor(r.averageWellbeing, r.criticalCases, r.negativePercentage, r.positivePercentage)
    ensures WeeklyInsightsOf(r.insights, r.averageWellbeing, r.criticalCases, r.negativePercentage, r.positivePercentage)
  {
    var students := Students(MockUsers());
    var allEntries := GetEmotionEntries(st, None);

    var activeStudents := |UserIds(allEntries)|;
    var averageWellbeing := WeeklyAverage(allEntries);

    var positiveCount := PositiveCount(allEntries);
    var negativeCount := LowCount(allEntries);
    var positivePercentage := Percentage(positiveCount, |allEntries|);
    var negativePercentage := Percentage(negativeCount, |allEntries|);
    PositiveAndLowDisjoint(allEntries);
    PercentagesSum(positiveCount, negativeCount, |allEntries|);

    var criticalCases := CountCriticalCases(st, students);

    var insights := WeeklyInsights(averageWellbeing, criticalCases, negativePercentage, positivePercentage);
    InsightsShape(averageWellbeing, criticalCases, negativePercentage, positivePercentage);
    r := WeeklyReport(week, year, |students|, activeStudents, averageWellbeing,
                      positivePercentage, negativePercentage, criticalCases, insights);
  }

  /** The wellbeing-tier message for a cohort average. */
  function TierInsight(averageWellbeing: real): (i: Insight)
    ensures i.IsTier()
  {
    if averageWellbeing >= 4.0 then Excellent
    else if averageWellbeing >= 3.0 then Satisfactory
    else BelowExpected
  }

  /** The insights of the weekly report, in push order. */
  function InsightsFor(averageWellbeing: real, criticalCases: nat, negativePercentage: real, positivePercentage: real): (r: seq<Insight>)
    ensures 1 <= |r| <= 4
    ensures r[0] == TierInsight(averageWellbeing)
    ensures forall i :: 1 <= i < |r| ==> !r[i].IsTier()
  {
    [TierInsight(averageWellbeing)]
    + (if criticalCases > 0 then [ImmediateAttention(criticalCases)] else [])
    + (if negativePercentage > 30.0 then [CollectiveActivities] else [])
    + (if positivePercentage > 70.0 then [MostlyPositive] else [])
  }

  /**
   * The insights start with exactly one wellbeing tier and then carry the critical-cases, negative
   * and positive messages exactly when their thresholds are passed, in that order.
   */
  ghost predicate WeeklyInsightsOf(insights: seq<Insight>, averageWellbeing: real, criticalCases: nat,
                                   negativePercentage: real, positivePercentage: real)
  {
    && 1 <= |insights| <= 4
    && (insights[0] == Excellent <==> averageWellbeing >= 4.0)
    && (insights[0] == Satisfactory <==> 3.0 <= averageWellbeing < 4.0)
    && (insights[0] == BelowExpected <==> averageWellbeing < 3.0)
    && (forall i :: 1 <= i < |insights| ==> !insights[i].IsTier())
    && (ImmediateAttention(criticalCases) in insights <==> criticalCases > 0)
    && (CollectiveActivities in insights <==> negativePercentage > 30.0)
    && (MostlyPositive in insights <==> positivePercentage > 70.0)
    && (forall i, j :: 0 <= i < j < |insights| ==> InsightRank(insights[i]) < InsightRank(insights[j]))
  }

  lemma InsightsShape(averageWellbeing: real, criticalCases: nat, negativePercentage: real, positivePercentage: real)
    ensures WeeklyInsightsOf(InsightsFor(averageWellbeing, criticalCases, negativePercentage, positivePercentage),
                             averageWellbeing, criticalCases, negativePercentage, positivePercentage)
  {
    var t := TierInsight(averageWellbeing);
    var ia := ImmediateAttention(criticalCases);
    var ins := InsightsFor(averageWellbeing, criticalCases, negativePercentage, positivePercentage);
    if criticalCases > 0 {
      if negativePercentage > 30.0 {
        if positivePercentage > 70.0 {
          assert ins == [t, ia, CollectiveActivities, MostlyPositive];
        } else {
          assert ins == [t, ia, CollectiveActivities];
        }
      } else {
        if positivePercentage > 70.0 {
          assert ins == [t, ia, MostlyPositive];
        } else {
          assert ins == [t, ia];
        }
      }
    } else {
      if negativePercentage > 30.0 {
        if positivePercentage > 70.0 {
          assert ins == [t, CollectiveActivities, MostlyPositive];
        } else {
          assert ins == [t, CollectiveActivities];
        }
      } else {
        if positivePercentage > 70.0 {
          assert ins == [t, MostlyPositive];
        } else {
          assert ins == [t];
        }
      }
    }
  }

  /** The insight pushes of `generateWeeklyReport`. */
  method WeeklyInsights(averageWellbeing: real, criticalCases: nat, negativePercentage: real, positivePercentage: real)
    returns (insights: seq<Insight>)
    ensures insights == InsightsFor(averageWellbeing, criticalCases, negativePercentage, positivePercentage)
  {
    insights := [];
    if averageWellbeing >= 4.0 {
      insights := insights + [Excellent];
    } else if averageWellbeing >= 3.0 {
      insights := insights + [Satisfactory];
    } else {
      insights := insights + [BelowExpected];
    }
    if criticalCases > 0 {
      insights := insights + [ImmediateAttention(criticalCases)];
    }
    if negativePercentage > 30.0 {
      insights := insights + [CollectiveActivities];
    }
    if positivePercentage > 70.0 {
      insights := insights + [MostlyPositive];
    }
  }

  /** The position of an insight's push in `generateWeeklyReport`. */
  function InsightRank(i: Insight): nat
  {
    match i
    case Excellent => 0
    case Satisfactory => 0
    case BelowExpected => 0
    case ImmediateAttention(_) => 1
    case CollectiveActivities => 2
    case MostlyPositive => 3
  }
}
