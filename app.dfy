/**
 * The request lifecycle of App.tsx.
 *
 * Each of the four generative features (tips, schedule, score, qa) has a
 * loading flag and an error slot, kept in the `isLoading` and `error`
 * objects keyed by feature, and a result slot of its own.  A handler is a
 * `Begin` step (set loading, clear the error, and for tips and qa clear
 * the result) followed by a `Complete` step (store the result or the
 * feature's fixed failure message, then clear loading as the `finally`
 * block does).  The remote call between the two steps is not modelled: its
 * outcome is a parameter of `Complete`.
 */
module App {
  import opened Wrappers

  /** The four views that issue requests. */
  datatype Feature = Tips | Schedule | Score | Qa

  /** The `ActiveView` union: the dashboard or one of the feature views. */
  datatype View = Dashboard | Page(feature: Feature)

  /** `pageTitleMap`. */
  function PageTitle(v: View): (title: string)
    ensures title != ""
  {
    match v
    case Dashboard => "Painel de Controle"
    case Page(Tips) => "Gerador de Dicas de Estudo"
    case Page(Schedule) => "Gerador de Cronograma"
    case Page(Score) => "Simulador de Nota TRI"
    case Page(Qa) => "Tira-Dúvidas Rápido"
  }

  /** Different views have different titles. */
  lemma PageTitlesDistinct(v: View, w: View)
    requires v != w
    ensures PageTitle(v) != PageTitle(w)
  {
  }

  datatype YoutubeSuggestion = YoutubeSuggestion(title: string, description: string, query: string)
  datatype StudyTipWithVideo = StudyTipWithVideo(tip: string, video: YoutubeSuggestion)
  datatype QuickAnswerResponse = QuickAnswerResponse(answerText: string, video: Option<YoutubeSuggestion>)

  /** A feature's result slot, whatever its type. */
  datatype Payload =
    | TipsResult(tips: seq<StudyTipWithVideo>)
    | ScheduleResult(schedule: string)
    | ScoreResult(score: string)
    | AnswerResult(answer: Option<QuickAnswerResponse>)

  /** How the awaited service call settled. */
  datatype Outcome = Succeeded(payload: Payload) | Failed

  /** The payload has the type the feature's service function returns. */
  predicate Fits(f: Feature, p: Payload) {
    match f
    case Tips => p.TipsResult?
    case Schedule => p.ScheduleResult?
    case Score => p.ScoreResult?
    case Qa => p.AnswerResult? && p.answer.Some?
  }

  /**
   * The fixed failure messages.  The error slots hold one of these; its
   * text is what the feature component shows.
   */
  datatype FailureNotice = TipsFailed | ScheduleFailed | ScoreFailed | QaFailed

  function NoticeText(n: FailureNotice): (text: string)
    ensures text != ""
  {
    match n
    case TipsFailed => "Ocorreu um erro ao gerar o conteúdo. Por favor, tente novamente."
    case ScheduleFailed => "Falha ao gerar cronograma."
    case ScoreFailed => "Falha ao simular nota."
    case QaFailed => "Falha ao buscar resposta."
  }

  /** The message each feature shows when its request fails. */
  function FailureMessage(f: Feature): FailureNotice
  {
    match f
    case Tips => TipsFailed
    case Schedule => ScheduleFailed
    case Score => ScoreFailed
    case Qa => QaFailed
  }

  /** No two features share a failure message. */
  lemma FailureMessagesDistinct(f: Feature, g: Feature)
    requires f != g
    ensures FailureMessage(f) != FailureMessage(g)
    ensures NoticeText(FailureMessage(f)) != NoticeText(FailureMessage(g))
  {
  }

  class AppState {
    var activeView: View
    var isLoading: map<Feature, bool>
    var error: map<Feature, Option<FailureNotice>>
    var studyTips: seq<StudyTipWithVideo>
    var schedule: string
    var scoreResult: string
    var qaResult: Option<QuickAnswerResponse>

    /** The `isLoading` prop a feature's component receives: `!!isLoading[f]`. */
    function Loading(f: Feature): (loading: bool)
      reads this`isLoading
      ensures f !in isLoading ==> !loading
      ensures f in isLoading ==> loading == isLoading[f]
    {
      f in isLoading && isLoading[f]
    }

    /** The `error` prop a feature's component receives: `error[f] ?? null`. */
    function ErrorOf(f: Feature): (e: Option<FailureNotice>)
      reads this`error
      ensures f !in error ==> e == None
      ensures f in error ==> e == error[f]
    {
      if f in error then error[f] else None
    }

    /** The `result` prop a feature's component receives. */
    function ResultOf(f: Feature): (p: Payload)
      reads this`studyTips, this`schedule, this`scoreResult, this`qaResult
      ensures Fits(f, p) || (f == Qa && p == AnswerResult(None))
    {
      match f
      case Tips => TipsResult(studyTips)
      case Schedule => ScheduleResult(schedule)
      case Score => ScoreResult(scoreResult)
      case Qa => AnswerResult(qaResult)
    }

    /**
     * While a request is pending its feature shows no error, and the tips
     * and qa features show no stale result next to their spinner.
     */
    ghost predicate Valid()
      reads this
    {
      (Loading(Tips) ==> ErrorOf(Tips) == None) &&
      (Loading(Schedule) ==> ErrorOf(Schedule) == None) &&
      (Loading(Score) ==> ErrorOf(Score) == None) &&
      (Loading(Qa) ==> ErrorOf(Qa) == None) &&
      (Loading(Tips) ==> ResultOf(Tips) == TipsResult([])) &&
      (Loading(Qa) ==> ResultOf(Qa) == AnswerResult(None))
    }

    /** The component's initial state. */
    constructor ()
      ensures activeView == Dashboard
      ensures isLoading == map[] && error == map[]
      ensures studyTips == [] && schedule == "" && scoreResult == "" && qaResult == None
      ensures Valid()
      ensures forall f: Feature :: !Loading(f) && ErrorOf(f) == None
    {
      activeView := Dashboard;
      isLoading, error := map[], map[];
      studyTips, schedule, scoreResult, qaResult := [], "", "", None;
    }

    /** `setActiveView`, as the sidebar calls it. */
    method SetActiveView(v: View)
      modifies this`activeView
      ensures activeView == v
    {
      activeView := v;
    }

    /**
     * The first half of a handler: loading on, error cleared, and for tips
     * and qa the previous result cleared.  No other feature changes.
     */
    method Begin(f: Feature)
      requires Valid()
      modifies this`isLoading, this`error, this`studyTips, this`qaResult
      ensures isLoading == old(isLoading)[f := true]
      ensures error == old(error)[f := None]
      ensures studyTips == (if f == Tips then [] else old(studyTips))
      ensures qaResult == (if f == Qa then None else old(qaResult))
      ensures Loading(f) && ErrorOf(f) == None
      ensures forall g: Feature :: g != f ==> Loading(g) == old(Loading(g))
      ensures forall g: Feature :: g != f ==> ErrorOf(g) == old(ErrorOf(g))
      ensures forall g: Feature :: g != f ==> ResultOf(g) == old(ResultOf(g))
      ensures Valid()
    {
      isLoading := isLoading[f := true];
      error := error[f := None];
      if f == Tips {
        studyTips := [];
      } else if f == Qa {
        qaResult := None;
      }
    }

    /**
     * The second half of a handler: on success the result slot takes the
     * returned value, on failure the error slot takes the feature's fixed
     * message and the result slot keeps what it had; either way loading
     * ends.  No other feature changes.
     */
    method Complete(f: Feature, outcome: Outcome)
      requires Valid()
      requires outcome.Succeeded? ==> Fits(f, outcome.payload)
      modifies this`isLoading, this`error, this`studyTips, this`schedule, this`scoreResult, this`qaResult
      ensures isLoading == old(isLoading)[f := false]
      ensures error == if outcome.Failed? then old(error)[f := Some(FailureMessage(f))] else old(error)
      ensures ResultOf(f) == if outcome.Succeeded? then outcome.payload else old(ResultOf(f))
      ensures !Loading(f)
      ensures forall g: Feature :: g != f ==> Loading(g) == old(Loading(g))
      ensures forall g: Feature :: g != f ==> ErrorOf(g) == old(ErrorOf(g))
      ensures forall g: Feature :: g != f ==> ResultOf(g) == old(ResultOf(g))
      ensures Valid()
    {
      if outcome.Succeeded? {
        StoreResult(f, outcome.payload);
      } else {
        error := error[f := Some(FailureMessage(f))];
      }
      isLoading := isLoading[f := false];
    }

    /** Writes a returned value into its feature's result slot and no other. */
    method StoreResult(f: Feature, p: Payload)
      requires Fits(f, p)
      modifies this`studyTips, this`schedule, this`scoreResult, this`qaResult
      ensures ResultOf(f) == p
      ensures forall g: Feature :: g != f ==> ResultOf(g) == old(ResultOf(g))
    {
      match p
      case TipsResult(tips) => studyTips := tips;
      case ScheduleResult(text) => schedule := text;
      case ScoreResult(text) => scoreResult := text;
      case AnswerResult(answer) => qaResult := answer;
    }
  }

  /** A failed schedule request keeps the last schedule next to the error. */
  method ScheduleFailureScenario()
  {
    var app := new AppState();
    app.Begin(Schedule);
    app.Complete(Schedule, Succeeded(ScheduleResult("| Seg | ... |")));
    app.Begin(Schedule);
    app.Complete(Schedule, Failed);
    assert app.schedule == "| Seg | ... |";
    assert app.ErrorOf(Schedule) == Some(ScheduleFailed);
    assert !app.Loading(Tips) && app.ErrorOf(Tips) == None;
  }
}
