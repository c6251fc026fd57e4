/** The page's concept-analysis panel: whether the modal is open, the
    concept being typed, the last stored analysis and the loading flag.
    The asynchronous `handleAnalyze` is split into `Begin`, its
    synchronous part up to the awaited call, and `Complete`, what runs
    when the call settles. How the call settles is a parameter. */
module AnalysisSession {
  import opened Wrappers
  import opened Json
  import opened AnalysisSchema
  import opened GeminiService

  datatype Session = Session(showModal: bool, concept: string, analysis: Option<Json>, loading: bool)

  const InitialSession: Session := Session(false, "", None, false)

  /** How the awaited analysis call settled: it returned a parsed value,
      or it threw (endpoint failure or unparsable text alike). */
  datatype Outcome = Returned(result: Json) | Threw

  /** `setAnalysis(result)`: a parsed `null` clears the panel like the
      initial `null` does; any other value is stored as it is. */
  function Stored(j: Json): (a: Option<Json>)
    ensures a == None <==> j == JNull
    ensures a.Some? ==> a.value == j
  {
    if j == JNull then None else Some(j)
  }

  /** The header's "AI suite" button. */
  function OpenModal(s: Session): (q: Session)
    ensures q.showModal && q.(showModal := s.showModal) == s
  {
    s.(showModal := true)
  }

  /** Typing in the concept box. */
  function EditConcept(s: Session, text: string): (q: Session)
    ensures q.concept == text && q.(concept := s.concept) == s
  {
    s.(concept := text)
  }

  /** The analyze button's `disabled` condition, negated. */
  predicate AnalyzeEnabled(s: Session)
  {
    !s.loading && s.concept != ""
  }

  /** The state after `handleAnalyze`'s synchronous part, and the concept
      of the call it issued, if any. */
  datatype Started = Started(session: Session, call: Option<string>)

  /** Up to the await: an empty concept returns at once with no call; any
      other concept, however blank, sets `loading` and issues one call
      carrying the concept verbatim. `loading` itself is not checked here. */
  function Begin(s: Session): (r: Started)
    ensures r.call.None? <==> s.concept == ""
    ensures r.call.None? ==> r.session == s
    ensures r.call.Some? ==> r.call.value == s.concept && r.session.loading
    ensures r.session.(loading := s.loading) == s
  {
    if s.concept == "" then Started(s, None)
    else Started(s.(loading := true), Some(s.concept))
  }

  /** After the await: a returned value replaces the stored analysis
      outright; a thrown error is only logged, so the stored analysis
      stays. Either way `loading` ends false. */
  function Complete(s: Session, o: Outcome): (q: Session)
    ensures !q.loading
    ensures o.Returned? ==> q.analysis == Stored(o.result)
    ensures o.Threw? ==> q.analysis == s.analysis
    ensures q.(loading := s.loading, analysis := s.analysis) == s
  {
    match o
    case Returned(j) => s.(analysis := Stored(j), loading := false)
    case Threw => s.(loading := false)
  }

  /** The modal's close button: hides the modal and clears the analysis;
      the typed concept and the loading flag are kept. */
  function CloseModal(s: Session): (q: Session)
    ensures !q.showModal && q.analysis == None
    ensures q.concept == s.concept && q.loading == s.loading
  {
    s.(showModal := false, analysis := None)
  }

  /** What the endpoint did with the page's request: replied with some
      text (possibly none), or failed before any text. */
  datatype Reply = ReplyText(text: Option<string>) | CallFailed

  /** How the page's inlined analysis call settles for a reply. */
  function CallOutcome(reply: Reply, parse: string -> Option<Json>): (o: Outcome)
    ensures o.Returned? <==> reply.ReplyText? && PageDecode(reply.text, parse).Success?
    ensures o.Returned? ==> o.result == PageDecode(reply.text, parse).value
  {
    match reply
    case CallFailed => Threw
    case ReplyText(t) =>
      match PageDecode(t, parse)
      case Success(j) => Returned(j)
      case Failure(_) => Threw
  }

  // ----- Properties of single transitions -----

  /** An empty concept issues no call and changes nothing; a blank one is
      sent as it is. */
  lemma EmptyConceptIsIgnored(s: Session)
    requires s.concept == ""
    ensures Begin(s) == Started(s, None)
  {
  }

  lemma BlankConceptIsSent(s: Session)
    requires s.concept != ""
    requires forall i :: 0 <= i < |s.concept| ==> s.concept[i] in " \t\n\r"
    ensures Begin(s).call == Some(s.concept) && Begin(s).session.loading
  {
  }

  /** The stored analysis after a returned value depends on that value
      alone: two sessions that differ only in their previous analysis end
      up identical. */
  lemma ReturnedReplacesWholesale(s1: Session, s2: Session, j: Json)
    requires s1.(analysis := s2.analysis) == s2
    ensures Complete(s1, Returned(j)) == Complete(s2, Returned(j))
  {
  }

  /** A failed call leaves everything but `loading` as it was. */
  lemma FailureOnlyEndsLoading(s: Session)
    ensures Complete(s, Threw) == s.(loading := false)
  {
  }

  /** A reply that does not parse, or no reply at all, keeps the previous
      analysis on the panel. */
  lemma UnparsableReplyKeepsAnalysis(s: Session, text: Option<string>, parse: string -> Option<Json>)
    requires parse(EffectiveText(text)).None?
    ensures Complete(s, CallOutcome(ReplyText(text), parse)).analysis == s.analysis
    ensures Complete(s, CallOutcome(CallFailed, parse)).analysis == s.analysis
  {
  }

  /** An empty reply is stored as an empty object, which has none of the
      fields the panel reads. */
  lemma EmptyReplyStoresEmptyObject(s: Session, parse: string -> Option<Json>)
    requires parse(EmptyReplyText) == Some(JObject([]))
    ensures Complete(s, CallOutcome(ReplyText(None), parse)).analysis == Some(JObject([]))
    ensures FromJson(JObject([])).None?
  {
    EmptyObjectDoesNotConform();
  }

  // ----- Event traces -----

  /** A session together with the analysis calls issued and not yet
      settled, oldest first, each with the concept it carries. */
  datatype World = World(ui: Session, pending: seq<string>)

  const InitialWorld: World := World(InitialSession, [])

  datatype UiEvent =
    | ClickOpen
    | TypeConcept(text: string)
    | ClickAnalyze
    | ClickClose
    | CallSettles(outcome: Outcome)

  /** One event. The concept box and the analyze and close buttons exist
      only while the modal is open (its exit fade, during which they stay
      clickable, is not modelled); a disabled button does nothing; a
      call can settle only if one is pending. */
  function Step(w: World, e: UiEvent): (r: World)
    ensures e == ClickAnalyze && !(w.ui.showModal && AnalyzeEnabled(w.ui)) ==> r == w
    ensures e == ClickAnalyze && w.ui.showModal && AnalyzeEnabled(w.ui) ==>
      r.ui == w.ui.(loading := true) && r.pending == w.pending + [w.ui.concept]
    ensures (e.TypeConcept? || e == ClickClose) && !w.ui.showModal ==> r == w
    ensures e.CallSettles? && w.pending == [] ==> r == w
  {
    match e
    case ClickOpen => w.(ui := OpenModal(w.ui))
    case TypeConcept(text) =>
      if w.ui.showModal then w.(ui := EditConcept(w.ui, text)) else w
    case ClickAnalyze =>
      if w.ui.showModal && AnalyzeEnabled(w.ui) then
        var r := Begin(w.ui);
        World(r.session, w.pending + (if r.call.Some? then [r.call.value] else []))
      else w
    case ClickClose =>
      if w.ui.showModal then w.(ui := CloseModal(w.ui)) else w
    case CallSettles(o) =>
      if |w.pending| > 0 then World(Complete(w.ui, o), w.pending[1..]) else w
  }

  function Run(w: World, es: seq<UiEvent>): (r: World)
    decreases |es|
  {
    if es == [] then w else Run(Step(w, es[0]), es[1..])
  }

  /** At most one call is pending, `loading` says whether one is, and no
      pending call carries an empty concept. */
  predicate Consistent(w: World)
  {
    && |w.pending| <= 1
    && (w.ui.loading <==> |w.pending| == 1)
    && (forall i :: 0 <= i < |w.pending| ==> w.pending[i] != "")
  }

  lemma StepKeepsConsistent(w: World, e: UiEvent)
    requires Consistent(w)
    ensures Consistent(Step(w, e))
  {
  }

  lemma {:induction false} RunKeepsConsistent(w: World, es: seq<UiEvent>)
    requires Consistent(w)
    ensures Consistent(Run(w, es))
    decreases |es|
  {
    if es != [] {
      StepKeepsConsistent(w, es[0]);
      RunKeepsConsistent(Step(w, es[0]), es[1..]);
    }
  }

  /** From the initial page, whatever the user does and however calls
      settle, no two analysis calls are ever in flight together, and no
      call is ever issued for an empty concept. */
  lemma AtMostOneCallInFlight(es: seq<UiEvent>)
    ensures |Run(InitialWorld, es).pending| <= 1
    ensures Run(InitialWorld, es).ui.loading <==> |Run(InitialWorld, es).pending| == 1
    ensures forall c :: c in Run(InitialWorld, es).pending ==> c != ""
  {
    RunKeepsConsistent(InitialWorld, es);
  }

  /** While a call is in flight the analyze button is inert. */
  lemma AnalyzeWhileLoadingIsInert(w: World)
    requires w.ui.loading
    ensures Step(w, ClickAnalyze) == w
  {
  }

  /** Clicking analyze with a non-empty concept puts one call in flight
      and shows the spinner; when the call settles, successfully or not,
      the spinner is gone and nothing is pending. */
  lemma LoadingBracketsTheCall(w: World, o: Outcome)
    requires Consistent(w) && w.ui.showModal && AnalyzeEnabled(w.ui)
    ensures Step(w, ClickAnalyze).ui.loading
    ensures Step(w, ClickAnalyze).pending == [w.ui.concept]
    ensures !Run(w, [ClickAnalyze, CallSettles(o)]).ui.loading
    ensures Run(w, [ClickAnalyze, CallSettles(o)]).pending == []
  {
    var w1 := Step(w, ClickAnalyze);
    assert Run(w, [ClickAnalyze, CallSettles(o)]) == Run(w1, [CallSettles(o)]);
    assert Run(w1, [CallSettles(o)]) == Step(w1, CallSettles(o));
  }

  /** Nothing cancels a call: if the modal is closed while a call is in
      flight and the call then returns, its value is stored anyway and is
      the panel's analysis when the modal is next opened. Whether it is
      drawn depends on the value, which is not modelled (README, "Left
      out", rendering of the stored analysis). */
  lemma LateReplyIsStoredForReopen(w: World, j: Json)
    requires Consistent(w) && w.ui.showModal && w.ui.loading && j != JNull
    ensures Run(w, [ClickClose, CallSettles(Returned(j))]).ui.analysis == Some(j)
    ensures !Run(w, [ClickClose, CallSettles(Returned(j))]).ui.showModal
    ensures var w3 := Run(w, [ClickClose, CallSettles(Returned(j)), ClickOpen]);
            w3.ui.showModal && w3.ui.analysis == Some(j)
  {
    var w1 := Step(w, ClickClose);
    var w2 := Step(w1, CallSettles(Returned(j)));
    var w3 := Step(w2, ClickOpen);
    assert Run(w, [ClickClose, CallSettles(Returned(j))]) == w2 by {
      assert Run(w, [ClickClose, CallSettles(Returned(j))]) == Run(w1, [CallSettles(Returned(j))]);
      assert Run(w1, [CallSettles(Returned(j))]) == Run(w2, []);
    }
    assert Run(w, [ClickClose, CallSettles(Returned(j)), ClickOpen]) == w3 by {
      assert [ClickClose, CallSettles(Returned(j)), ClickOpen][1..] == [CallSettles(Returned(j)), ClickOpen];
      assert Run(w1, [CallSettles(Returned(j)), ClickOpen]) == Run(w2, [ClickOpen]);
      assert Run(w2, [ClickOpen]) == Run(w3, []);
    }
  }

  /** Closing the modal never touches the typed concept, and a closed modal
      shows no analysis until a call returns. */
  lemma CloseKeepsConcept(w: World)
    requires w.ui.showModal
    ensures Step(w, ClickClose).ui.concept == w.ui.concept
    ensures Step(w, ClickClose).ui.analysis == None
    ensures Step(w, ClickClose).pending == w.pending
  {
  }
}
