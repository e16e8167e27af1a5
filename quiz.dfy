/**
 * The answer-collection state machine: one quiz session as an object whose
 * handlers validate input, record answers and pain counters in the
 * session's data map, and move the session from state to state.
 *
 * Message handlers run only in their FSM state, so they require it.
 * Callback handlers are matched on callback data alone, whatever the
 * current state, so they require nothing of it: pressing an old button
 * again re-applies its handler.
 */
module Quiz {
  import opened Wrappers
  import opened Zones
  import opened PyStrings
  import opened Keyboards
  import Scoring

  /** The conversation's FSM states. No handler moves a session into `QuestionPerceived`. */
  datatype QuizState =
    | WaitingForName | WaitingForNiche
    | Question1 | Question2 | Question3
    | QuestionPerceived
    | Question4 | Question5 | Question6 | Question7 | Question8
    | ShowResult

  /** A value in the session's data map: a text answer or a pain counter. */
  datatype Value = Text(text: string) | Count(n: int)

  /**
   * A key of the session's data map: "name", "niche", "question_<n>" for
   * the recorded answer to question n, and "<zone>_pain" for a zone's
   * pain counter.
   */
  datatype Key = Name | Niche | Answer(question: nat) | Pain(zone: Zone)

  type SessionData = map<Key, Value>

  /** The niche phrases of the preset niche buttons. */
  const KnownNiches: map<string, string> := map[
    "niche_infoproducts" := "инфопродуктах",
    "niche_consulting" := "консалтинге",
    "niche_sales" := "продажах",
    "niche_business" := "бизнесе"
  ]

  /** The niche stored for a preset button: its phrase, or "бизнесе" for any other `niche_` data. */
  function ChosenNiche(choice: string): (niche: string)
    ensures niche in KnownNiches.Values
    ensures choice in KnownNiches ==> niche == KnownNiches[choice]
    ensures choice !in KnownNiches ==> niche == "бизнесе"
  {
    assert KnownNiches["niche_business"] == "бизнесе";
    if choice in KnownNiches then KnownNiches[choice] else "бизнесе"
  }

  /**
   * The niche stored for a typed answer: stripped and lower-cased, refused
   * (None) when shorter than 3 characters, and prefixed with "в сфере "
   * unless it already starts with "в".
   */
  function CustomNiche(text: string): (r: Option<string>)
    ensures var typed := Lower(Strip(text));
      && (r.None? <==> |typed| < 3)
      && (r.Some? ==>
            && |r.value| >= |typed| && r.value[0] == 'в'
            && r.value[|r.value| - |typed|..] == typed
            && (typed[0] == 'в' ==> r.value == typed)
            && (typed[0] != 'в' ==> r.value == "в сфере " + typed))
  {
    var niche := Lower(Strip(text));
    if |niche| < 3 then None
    else if StartsWith(niche, "в ") || StartsWith(niche, "в") then Some(niche)
    else
      var prefixed := "в сфере " + niche;
      assert prefixed[|prefixed| - |niche|..] == niche;
      Some(prefixed)
  }

  /** `data.get(Pain(z), 0)`. */
  function Counter(data: SessionData, z: Zone): int {
    if Pain(z) in data && data[Pain(z)].Count? then data[Pain(z)].n else 0
  }

  /** No diagnostic question answered yet. */
  function NoAnswers(): map<Zone, nat> {
    map[Product := 0, Traffic := 0, Content := 0, Sales := 0, System := 0]
  }

  /**
   * The counter invariant: pain keys hold counts, and each counter is
   * between 0 and `PainMax` times the number of answers it has received
   * since the counters were last zeroed.
   */
  ghost predicate CountersWithin(data: SessionData, answered: map<Zone, nat>) {
    && (forall z :: z in answered)
    && (forall z :: Pain(z) in data ==> data[Pain(z)].Count?)
    && (forall z {:trigger Counter(data, z)} :: 0 <= Counter(data, z) <= answered[z] * PainMax(z))
  }

  /** `NoAnswers` has an entry, 0, for every zone. */
  lemma NoAnswersTotal()
    ensures forall z :: z in NoAnswers() && NoAnswers()[z] == 0
  {
    forall z ensures z in NoAnswers() && NoAnswers()[z] == 0 {
      match z
      case Product =>
      case Traffic =>
      case Content =>
      case Sales =>
      case System =>
    }
  }

  /** Storing a text answer under a non-counter key keeps every counter and the invariant. */
  lemma TextWriteKeepsCounters(data: SessionData, answered: map<Zone, nat>, k: Key, t: string)
    requires !k.Pain?
    ensures forall z :: Counter(data[k := Text(t)], z) == Counter(data, z)
    ensures CountersWithin(data, answered) ==> CountersWithin(data[k := Text(t)], answered)
  {
    var written := data[k := Text(t)];
    forall z ensures Pain(z) in written <==> Pain(z) in data
      ensures Pain(z) in data ==> written[Pain(z)] == data[Pain(z)]
    {
      assert Pain(z) != k;
    }
    if CountersWithin(data, answered) {
      forall z ensures Pain(z) in written ==> written[Pain(z)].Count? {
      }
      forall z ensures 0 <= Counter(written, z) <= answered[z] * PainMax(z) {
        assert Counter(written, z) == Counter(data, z);
      }
    }
  }

  /** The counters' reset: every pain key set to 0. */
  function ZeroCounters(data: SessionData): SessionData {
    data[Pain(Product) := Count(0)][Pain(Traffic) := Count(0)][Pain(Content) := Count(0)]
      [Pain(Sales) := Count(0)][Pain(System) := Count(0)]
  }

  /** After the reset every counter holds 0 and every other key is as before. */
  lemma ZeroCountersZeroes(data: SessionData)
    ensures forall z :: Pain(z) in ZeroCounters(data) && ZeroCounters(data)[Pain(z)] == Count(0)
    ensures forall k: Key :: !k.Pain? ==> (k in ZeroCounters(data) <==> k in data)
    ensures forall k: Key :: !k.Pain? && k in data ==> ZeroCounters(data)[k] == data[k]
  {
    forall z ensures Pain(z) in ZeroCounters(data) && ZeroCounters(data)[Pain(z)] == Count(0) {
      match z
      case Product =>
      case Traffic =>
      case Content =>
      case Sales =>
      case System =>
    }
  }

  /** After the reset every counter is 0 and the invariant holds with no answers counted. */
  lemma {:induction false} ZeroCountersRestart(data: SessionData)
    ensures forall z :: Counter(ZeroCounters(data), z) == 0
    ensures CountersWithin(ZeroCounters(data), NoAnswers())
  {
    ZeroCountersZeroes(data);
    NoAnswersTotal();
  }

  /**
   * Storing a counter that grew by at most `PainMax(z)` keeps the invariant
   * once the zone is credited with one more answer, and leaves the other
   * zones' counters alone.
   */
  lemma {:induction false} CounterWriteKeepsInvariant(data: SessionData, answered: map<Zone, nat>, z: Zone, c: int)
    requires CountersWithin(data, answered)
    requires 0 <= c <= answered[z] * PainMax(z) + PainMax(z)
    ensures Counter(data[Pain(z) := Count(c)], z) == c
    ensures forall y :: y != z ==> Counter(data[Pain(z) := Count(c)], y) == Counter(data, y)
    ensures CountersWithin(data[Pain(z) := Count(c)], answered[z := answered[z] + 1])
  {
    var written := data[Pain(z) := Count(c)];
    var credited := answered[z := answered[z] + 1];
    var n := answered[z];
    assert (n + 1) * PainMax(z) == n * PainMax(z) + PainMax(z);
    forall y ensures 0 <= Counter(written, y) <= credited[y] * PainMax(y) {
      if y != z {
        assert Counter(written, y) == Counter(data, y);
      }
    }
  }

  /** The raw scores the engine reads from a session, in the order of a fresh answer record. */
  function CollectedScores(data: SessionData): ZoneDict<int> {
    [(Product, Counter(data, Product)), (Traffic, Counter(data, Traffic)), (Content, Counter(data, Content)),
     (Sales, Counter(data, Sales)), (System, Counter(data, System))]
  }

  /** The collected scores are the five counters, listed in zone order. */
  lemma {:induction false} CollectedScoresOf(data: SessionData, product: int, traffic: int, content: int, sales: int, system: int)
    requires Counter(data, Product) == product && Counter(data, Traffic) == traffic
    requires Counter(data, Content) == content && Counter(data, Sales) == sales && Counter(data, System) == system
    ensures CollectedScores(data) == [(Product, product), (Traffic, traffic), (Content, content), (Sales, sales), (System, system)]
  {
  }

  /** The collected scores form a dictionary over all five zones, each holding that zone's counter. */
  lemma {:induction false} CollectedScoresShape(data: SessionData)
    ensures var scores := CollectedScores(data);
      && IsDict(scores) && Keys(scores) == [Product, Traffic, Content, Sales, System]
      && forall i :: 0 <= i < |scores| ==> scores[i].1 == Counter(data, scores[i].0)
  {
    var scores := CollectedScores(data);
    assert Keys(scores) == [Product, Traffic, Content, Sales, System];
  }

  /** The reset at question 3 leaves the session holding the scores of a fresh answer record. */
  lemma {:induction false} ResetCollectsFreshScores(data: SessionData)
    ensures CollectedScores(ZeroCounters(data)) == Scoring.FreshAnswers().scores
  {
    ZeroCountersRestart(data);
  }

  /**
   * After at most one answer per diagnostic question since the counters
   * were zeroed, every collected score is within its zone's `PainMax`; so
   * with configured maxima at least those, every normalised score is in [0, 1].
   */
  lemma OnePassNormalizesIntoUnitInterval(data: SessionData, answered: map<Zone, nat>, zoneMax: map<Zone, int>)
    requires CountersWithin(data, answered)
    requires forall z :: answered[z] <= 1
    requires forall z :: z in zoneMax && zoneMax[z] >= PainMax(z)
    ensures var scores := CollectedScores(data);
      && Scoring.MaxConfigured(zoneMax, scores) && Scoring.WithinMax(zoneMax, scores)
      && forall i :: 0 <= i < |scores| ==> 0.0 <= Scoring.NormalizeScores(scores, zoneMax)[i].1 <= 1.0
  {
    var scores := CollectedScores(data);
    CollectedScoresShape(data);
    forall z ensures 0 <= Counter(data, z) <= PainMax(z) {
      assert answered[z] * PainMax(z) <= PainMax(z);
    }
    Scoring.NormalizedInUnitInterval(scores, zoneMax);
  }

  /**
   * The engine accepts the scores collected after one pass. With no
   * perceived zone and no complaint recorded, `compute_result` succeeds on
   * them and keeps them as the raw scores. Its bottleneck is the zone the
   * priority tie-break designates, there is no twist, and every
   * normalised score is in [0, 1].
   */
  lemma {:induction false} OnePassResult(data: SessionData, answered: map<Zone, nat>, cfg: Scoring.ScoringConfig)
    requires CountersWithin(data, answered)
    requires forall z :: answered[z] <= 1
    requires forall z :: z in cfg.zoneMax && cfg.zoneMax[z] >= PainMax(z)
    ensures var state := Scoring.AnswersState(CollectedScores(data), None, None);
      && IsDict(state.scores) && Scoring.MaxConfigured(cfg.zoneMax, state.scores)
      && Scoring.ComputeResult(state, cfg).Success?
      && var res := Scoring.ComputeResult(state, cfg).value;
      && res.rawScores == CollectedScores(data)
      && Scoring.PriorityWinner(res.normScores, cfg.priority, res.bottleneck)
      && res.perceived.None? && !res.twist
      && forall i :: 0 <= i < |res.normScores| ==> 0.0 <= res.normScores[i].1 <= 1.0
  {
    var state := Scoring.AnswersState(CollectedScores(data), None, None);
    CollectedScoresShape(data);
    OnePassNormalizesIntoUnitInterval(data, answered, cfg.zoneMax);
    Scoring.BottleneckFollowsPriority(state, cfg);
    Scoring.TwistDecision(state, cfg);
    Scoring.ResultScoresInUnitInterval(state, cfg);
  }

  class QuizSession {
    /** The FSM state; None before the quiz is started. */
    var current: Option<QuizState>
    /** The FSM data: answers, name, niche and pain counters. */
    var data: SessionData
    /** How many diagnostic answers each zone's counter has received since it was last zeroed. */
    ghost var answered: map<Zone, nat>
    /**
     * The answer texts the handlers record. A separate field so that the
     * handlers' contracts name a table rather than its long literals; the
     * bot creates its sessions with `BotCopy`.
     */
    const copy: AnswerCopy

    ghost predicate Valid()
      reads this
    {
      CountersWithin(data, answered)
    }

    /** A session no one has started: no state, no data. */
    constructor (copy: AnswerCopy)
      ensures Valid()
      ensures current == None && data == map[] && answered == NoAnswers()
      ensures this.copy == copy
    {
      this.copy := copy;
      current := None;
      data := map[];
      answered := NoAnswers();
      NoAnswersTotal();
    }

    /** `start_quiz`: the "yes" button asks for the name. */
    method StartQuiz()
      requires Valid()
      modifies this
      ensures Valid()
      ensures current == Some(WaitingForName) && data == old(data) && answered == old(answered)
    {
      current := Some(WaitingForName);
    }

    /** `process_name`: a name of at least 2 characters after stripping is stored and the niche is asked for. */
    method ProcessName(text: string)
      requires Valid() && current == Some(WaitingForName)
      modifies this
      ensures Valid() && answered == old(answered)
      ensures |Strip(text)| < 2 ==> current == old(current) && data == old(data)
      ensures |Strip(text)| >= 2 ==>
        current == Some(WaitingForNiche) && data == old(data)[Name := Text(Strip(text))]
    {
      var name := Strip(text);
      if |name| < 2 {
        return;
      }
      TextWriteKeepsCounters(data, answered, Name, name);
      data := data[Name := Text(name)];
      current := Some(WaitingForNiche);
    }

    /** `process_niche_choice`: the custom button changes nothing; any other `niche_` button stores a phrase and asks question 1. */
    method ProcessNicheChoice(choice: string)
      requires Valid() && StartsWith(choice, "niche_")
      modifies this
      ensures Valid() && answered == old(answered)
      ensures choice == "niche_custom" ==> current == old(current) && data == old(data)
      ensures choice != "niche_custom" ==>
        current == Some(Question1) && data == old(data)[Niche := Text(ChosenNiche(choice))]
    {
      if choice == "niche_custom" {
        return;
      }
      var niche := ChosenNiche(choice);
      TextWriteKeepsCounters(data, answered, Niche, niche);
      data := data[Niche := Text(niche)];
      current := Some(Question1);
    }

    /** `process_custom_niche`: a typed niche of at least 3 characters is stored (see `CustomNiche`) and question 1 is asked. */
    method ProcessCustomNiche(text: string)
      requires Valid() && current == Some(WaitingForNiche)
      modifies this
      ensures Valid() && answered == old(answered)
      ensures CustomNiche(text).None? ==> current == old(current) && data == old(data)
      ensures CustomNiche(text).Some? ==>
        current == Some(Question1) && data == old(data)[Niche := Text(CustomNiche(text).value)]
    {
      var niche := CustomNiche(text);
      if niche.None? {
        return;
      }
      TextWriteKeepsCounters(data, answered, Niche, niche.value);
      data := data[Niche := Text(niche.value)];
      current := Some(Question1);
    }

    /** `handle_question_1`: records the answer and asks question 2. */
    method HandleQuestion1(b: YearButton)
      requires Valid()
      modifies this
      ensures Valid() && answered == old(answered)
      ensures current == Some(Question2) && data == old(data)[Answer(1) := Text(copy.year(b))]
    {
      TextWriteKeepsCounters(data, answered, Answer(1), copy.year(b));
      data := data[Answer(1) := Text(copy.year(b))];
      current := Some(Question2);
    }

    /** `handle_question_2`: records the answer and asks question 3. */
    method HandleQuestion2(b: IncomeButton)
      requires Valid()
      modifies this
      ensures Valid() && answered == old(answered)
      ensures current == Some(Question3) && data == old(data)[Answer(2) := Text(copy.income(b))]
    {
      TextWriteKeepsCounters(data, answered, Answer(2), copy.income(b));
      data := data[Answer(2) := Text(copy.income(b))];
      current := Some(Question3);
    }

    /** `handle_question_3`: records the answer, zeroes all five pain counters and asks question 4. */
    method HandleQuestion3(b: GoalButton)
      requires Valid()
      modifies this
      ensures Valid() && answered == NoAnswers()
      ensures current == Some(Question4)
      ensures data == ZeroCounters(old(data)[Answer(3) := Text(copy.goal(b))])
      ensures forall z :: Counter(data, z) == 0
    {
      ZeroCountersRestart(data[Answer(3) := Text(copy.goal(b))]);
      data := ZeroCounters(data[Answer(3) := Text(copy.goal(b))]);
      answered := NoAnswers();
      current := Some(Question4);
    }

    /**
     * The shape shared by the five diagnostic handlers: read the zone's
     * counter (0 when missing), add the button's points, store the counter
     * with the answer text, move to `next`.
     */
    method Diagnose(z: Zone, b: Severity, text: string, next: QuizState)
      requires Valid()
      modifies this
      ensures Valid()
      ensures answered == old(answered)[z := old(answered)[z] + 1]
      ensures current == Some(next)
      ensures data == old(data)[Answer(QuestionOf(z)) := Text(text)]
        [Pain(z) := Count(Counter(old(data), z) + PainPoints(z, b))]
      ensures Counter(data, z) == Counter(old(data), z) + PainPoints(z, b)
      ensures forall y :: y != z ==> Counter(data, y) == Counter(old(data), y)
    {
      var pain := Counter(data, z) + PainPoints(z, b);
      TextWriteKeepsCounters(data, answered, Answer(QuestionOf(z)), text);
      var withAnswer := data[Answer(QuestionOf(z)) := Text(text)];
      CounterWriteKeepsInvariant(withAnswer, answered, z, pain);
      data := withAnswer[Pain(z) := Count(pain)];
      answered := answered[z := answered[z] + 1];
      current := Some(next);
    }

    /** `handle_question_4`: the product question. */
    method HandleQuestion4(b: Severity)
      requires Valid()
      modifies this
      ensures Valid()
      ensures answered == old(answered)[Product := old(answered)[Product] + 1]
      ensures current == Some(Question5)
      ensures data == old(data)[Answer(4) := Text(copy.diagnostic(Product, b))]
        [Pain(Product) := Count(Counter(old(data), Product) + PainPoints(Product, b))]
      ensures Counter(data, Product) == Counter(old(data), Product) + PainPoints(Product, b)
      ensures forall y :: y != Product ==> Counter(data, y) == Counter(old(data), y)
    {
      Diagnose(Product, b, copy.diagnostic(Product, b), Question5);
    }

    /** `handle_question_5`: the traffic question. */
    method HandleQuestion5(b: Severity)
      requires Valid()
      modifies this
      ensures Valid()
      ensures answered == old(answered)[Traffic := old(answered)[Traffic] + 1]
      ensures current == Some(Question6)
      ensures data == old(data)[Answer(5) := Text(copy.diagnostic(Traffic, b))]
        [Pain(Traffic) := Count(Counter(old(data), Traffic) + PainPoints(Traffic, b))]
      ensures Counter(data, Traffic) == Counter(old(data), Traffic) + PainPoints(Traffic, b)
      ensures forall y :: y != Traffic ==> Counter(data, y) == Counter(old(data), y)
    {
      Diagnose(Traffic, b, copy.diagnostic(Traffic, b), Question6);
    }

    /** `handle_question_6`: the content question. */
    method HandleQuestion6(b: Severity)
      requires Valid()
      modifies this
      ensures Valid()
      ensures answered == old(answered)[Content := old(answered)[Content] + 1]
      ensures current == Some(Question7)
      ensures data == old(data)[Answer(6) := Text(copy.diagnostic(Content, b))]
        [Pain(Content) := Count(Counter(old(data), Content) + PainPoints(Content, b))]
      ensures Counter(data, Content) == Counter(old(data), Content) + PainPoints(Content, b)
      ensures forall y :: y != Content ==> Counter(data, y) == Counter(old(data), y)
    {
      Diagnose(Content, b, copy.diagnostic(Content, b), Question7);
    }

    /** `handle_question_7`: the sales question. */
    method HandleQuestion7(b: Severity)
      requires Valid()
      modifies this
      ensures Valid()
      ensures answered == old(answered)[Sales := old(answered)[Sales] + 1]
      ensures current == Some(Question8)
      ensures data == old(data)[Answer(7) := Text(copy.diagnostic(Sales, b))]
        [Pain(Sales) := Count(Counter(old(data), Sales) + PainPoints(Sales, b))]
      ensures Counter(data, Sales) == Counter(old(data), Sales) + PainPoints(Sales, b)
      ensures forall y :: y != Sales ==> Counter(data, y) == Counter(old(data), y)
    {
      Diagnose(Sales, b, copy.diagnostic(Sales, b), Question8);
    }

    /** `handle_question_8`: the system question; the session moves on to showing the result. */
    method HandleQuestion8(b: Severity)
      requires Valid()
      modifies this
      ensures Valid()
      ensures answered == old(answered)[System := old(answered)[System] + 1]
      ensures current == Some(ShowResult)
      ensures data == old(data)[Answer(8) := Text(copy.diagnostic(System, b))]
        [Pain(System) := Count(Counter(old(data), System) + PainPoints(System, b))]
      ensures Counter(data, System) == Counter(old(data), System) + PainPoints(System, b)
      ensures forall y :: y != System ==> Counter(data, y) == Counter(old(data), y)
    {
      Diagnose(System, b, copy.diagnostic(System, b), ShowResult);
    }
  }

  /**
   * From the "yes" button to question 3: the session asks question 4 with
   * every counter at 0, whatever name and niche button were given (a
   * refused name leaves the state alone, but the callback handlers that
   * follow do not look at it).
   */
  method Onboard(session: QuizSession, name: string, choice: string, a1: YearButton, a2: IncomeButton, a3: GoalButton)
    requires session.Valid() && StartsWith(choice, "niche_")
    modifies session
    ensures session.Valid() && session.answered == NoAnswers()
    ensures session.current == Some(Question4)
    ensures forall z :: Counter(session.data, z) == 0
  {
    session.StartQuiz();
    session.ProcessName(name);
    session.ProcessNicheChoice(choice);
    session.HandleQuestion1(a1);
    session.HandleQuestion2(a2);
    session.HandleQuestion3(a3);
  }

  /** Questions 4 and 5 from zeroed counters: the product and traffic counters hold their answers' points, the others 0. */
  method AnswerProductAndTraffic(session: QuizSession, a4: Severity, a5: Severity)
    requires session.Valid() && forall z :: Counter(session.data, z) == 0
    modifies session
    ensures session.Valid() && session.current == Some(Question6)
    ensures Counter(session.data, Product) == PainPoints(Product, a4)
    ensures Counter(session.data, Traffic) == PainPoints(Traffic, a5)
    ensures Counter(session.data, Content) == 0 && Counter(session.data, Sales) == 0
    ensures Counter(session.data, System) == 0
  {
    session.HandleQuestion4(a4);
    session.HandleQuestion5(a5);
  }

  /** Questions 6 to 8: the content, sales and system counters grow by their answers' points, the others stay. */
  method AnswerContentSalesSystem(session: QuizSession, a6: Severity, a7: Severity, a8: Severity)
    requires session.Valid()
    modifies session
    ensures session.Valid() && session.current == Some(ShowResult)
    ensures Counter(session.data, Product) == Counter(old(session.data), Product)
    ensures Counter(session.data, Traffic) == Counter(old(session.data), Traffic)
    ensures Counter(session.data, Content) == Counter(old(session.data), Content) + PainPoints(Content, a6)
    ensures Counter(session.data, Sales) == Counter(old(session.data), Sales) + PainPoints(Sales, a7)
    ensures Counter(session.data, System) == Counter(old(session.data), System) + PainPoints(System, a8)
  {
    session.HandleQuestion6(a6);
    session.HandleQuestion7(a7);
    session.HandleQuestion8(a8);
  }

  /**
   * A whole session, from the "yes" button to the last diagnostic answer,
   * with any answer copy: it ends in `ShowResult`, and each collected score
   * is exactly the points of the one answer given for its zone, hence
   * within `PainMax`.
   */
  method CompleteQuiz(
    copy: AnswerCopy, name: string, choice: string, a1: YearButton, a2: IncomeButton, a3: GoalButton,
    a4: Severity, a5: Severity, a6: Severity, a7: Severity, a8: Severity)
    returns (final: Option<QuizState>, scores: ZoneDict<int>)
    requires StartsWith(choice, "niche_")
    ensures final == Some(ShowResult)
    ensures scores == [(Product, PainPoints(Product, a4) as int), (Traffic, PainPoints(Traffic, a5) as int),
                       (Content, PainPoints(Content, a6) as int), (Sales, PainPoints(Sales, a7) as int),
                       (System, PainPoints(System, a8) as int)]
    ensures forall i :: 0 <= i < |scores| ==> 0 <= scores[i].1 <= PainMax(scores[i].0)
  {
    var session := new QuizSession(copy);
    Onboard(session, name, choice, a1, a2, a3);
    AnswerProductAndTraffic(session, a4, a5);
    AnswerContentSalesSystem(session, a6, a7, a8);
    final := session.current;
    scores := CollectedScores(session.data);
    CollectedScoresOf(session.data, PainPoints(Product, a4), PainPoints(Traffic, a5), PainPoints(Content, a6),
                      PainPoints(Sales, a7), PainPoints(System, a8));
  }

  /**
   * Callback handlers ignore the session's state: pressing the critical
   * sales button twice after the counters are zeroed counts it twice,
   * taking the sales counter past `PainMax(Sales)`.
   */
  method ReplayCountsTwice() returns (sales: int)
    ensures sales == 2 * PainMax(Sales) && sales > PainMax(Sales)
  {
    var session := new QuizSession(BotCopy);
    session.HandleQuestion3(X100);
    session.HandleQuestion7(Critical);
    session.HandleQuestion7(Critical);
    sales := Counter(session.data, Sales);
  }
}
