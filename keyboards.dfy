/**
 * The inline keyboards of the quiz's questions: each button, the callback
 * data it sends, the answer text recorded when it is pressed and, for the
 * five diagnostic questions, the pain points it adds to its zone.
 *
 * A handler is registered for an exact list of callback data, so it only
 * ever sees one of its own keyboard's buttons; the `Parse` functions are
 * those filters, and each is the inverse of its keyboard's callback data.
 */
module Keyboards {
  import opened Wrappers
  import opened Zones

  /** Question 1: how this year is going. */
  datatype YearButton = Better | Same | Worse

  /** Question 2: monthly income. */
  datatype IncomeButton = Under50 | From50To100 | From100To300 | Over300

  /** Question 3: the goal. */
  datatype GoalButton = X2X3 | X5X10 | X100 | Survive

  /**
   * The three buttons of each diagnostic question (4 to 8), in keyboard
   * order: the healthy answer, the strained one and the critical one.
   */
  datatype Severity = Healthy | Strained | Critical

  function YearCallback(b: YearButton): string {
    match b
    case Better => "q1_better"
    case Same => "q1_same"
    case Worse => "q1_worse"
  }

  function YearText(b: YearButton): string {
    match b
    case Better => "Лучше, чем предыдущие годы"
    case Same => "Примерно на том же уровне"
    case Worse => "Хуже, чем хотелось бы"
  }

  function IncomeCallback(b: IncomeButton): string {
    match b
    case Under50 => "q2_under50"
    case From50To100 => "q2_50to100"
    case From100To300 => "q2_100to300"
    case Over300 => "q2_over300"
  }

  function IncomeText(b: IncomeButton): string {
    match b
    case Under50 => "До 50 000 в месяц"
    case From50To100 => "50–100 000"
    case From100To300 => "100–300 000"
    case Over300 => "300 000+"
  }

  function GoalCallback(b: GoalButton): string {
    match b
    case X2X3 => "q3_x2x3"
    case X5X10 => "q3_x5x10"
    case X100 => "q3_x100"
    case Survive => "q3_survive"
  }

  function GoalText(b: GoalButton): string {
    match b
    case X2X3 => "Стабильно x2–x3 от того, что есть сейчас"
    case X5X10 => "Резкий рывок x5–x10, готов(а) вкалывать"
    case X100 => "Мечтаю про x100, но не понимаю \"как\""
    case Survive => "Хочу перестать выживать и нормально жить"
  }

  /** The number of the diagnostic question that feeds each zone's counter. */
  function QuestionOf(z: Zone): (q: nat)
    ensures 4 <= q <= 8
  {
    match z
    case Product => 4
    case Traffic => 5
    case Content => 6
    case Sales => 7
    case System => 8
  }

  function DiagnosticCallback(z: Zone, b: Severity): string {
    match z
    case Product => (match b case Healthy => "q4_clear" case Strained => "q4_medium" case Critical => "q4_chaos")
    case Traffic => (match b case Healthy => "q5_stable" case Strained => "q5_unstable" case Critical => "q5_stagnant")
    case Content => (match b case Healthy => "q6_regular" case Strained => "q6_irregular" case Critical => "q6_no_funnel")
    case Sales => (match b case Healthy => "q7_regular" case Strained => "q7_sometimes" case Critical => "q7_ashamed")
    case System => (match b case Healthy => "q8_scale" case Strained => "q8_struggle" case Critical => "q8_burnout")
  }

  function DiagnosticText(z: Zone, b: Severity): string {
    match z
    case Product =>
      (match b
       case Healthy => "Да, у меня есть понятное предложение"
       case Strained => "Примерно могу, но запинаюсь"
       case Critical => "Нет, у меня миллион идей и форматов")
    case Traffic =>
      (match b
       case Healthy => "Новые люди стабильно приходят каждую неделю"
       case Strained => "Иногда прибавляется кто-то, иногда тишина"
       case Critical => "Практически одни и те же лица везде, никого нового")
    case Content =>
      (match b
       case Healthy => "Регулярно, с понятными темами и рубриками"
       case Strained => "Пишу когда есть вдохновение, как попало"
       case Critical => "Часто даю пользу, но почти не веду к продукту")
    case Sales =>
      (match b
       case Healthy => "Регулярно, мне ок с продажами. Не стесняюсь"
       case Strained => "Иногда, когда уже прижало"
       case Critical => "Стыдно продавать, надеюсь, что сами догадаются")
    case System =>
      (match b
       case Healthy => "Распланирую и справлюсь"
       case Strained => "Придётся напрячься, но вытяну"
       case Critical => "Сгорю, запутаюсь и начну сливать")
  }

  /** The answer texts a session records, one table per question. */
  datatype AnswerCopy = AnswerCopy(
    year: YearButton -> string,
    income: IncomeButton -> string,
    goal: GoalButton -> string,
    diagnostic: (Zone, Severity) -> string)

  /** The bot's own answer texts. */
  const BotCopy := AnswerCopy(YearText, IncomeText, GoalText, DiagnosticText)

  /** The most points a single answer adds to a zone's counter. */
  function PainMax(z: Zone): nat {
    match z
    case Product => 2
    case Traffic => 2
    case Content => 2
    case Sales => 3
    case System => 2
  }

  /**
   * The pain table of each diagnostic question: the healthy answer alone
   * scores nothing, the critical one scores the zone's `PainMax`, and the
   * content question scores only 0 or 2.
   */
  function PainPoints(z: Zone, b: Severity): (p: nat)
    ensures p <= PainMax(z)
    ensures p == 0 <==> b == Healthy
    ensures b == Critical ==> p == PainMax(z)
    ensures z == Content ==> p == 0 || p == 2
  {
    match z
    case Product => (match b case Healthy => 0 case Strained => 1 case Critical => 2)
    case Traffic => (match b case Healthy => 0 case Strained => 1 case Critical => 2)
    case Content => (match b case Healthy => 0 case Strained => 2 case Critical => 2)
    case Sales => (match b case Healthy => 0 case Strained => 1 case Critical => 3)
    case System => (match b case Healthy => 0 case Strained => 1 case Critical => 2)
  }

  /** The callback filter of question 1's handler. */
  function ParseYear(data: string): Option<YearButton> {
    if data == "q1_better" then Some(Better)
    else if data == "q1_same" then Some(Same)
    else if data == "q1_worse" then Some(Worse)
    else None
  }

  /** The callback filter of question 2's handler. */
  function ParseIncome(data: string): Option<IncomeButton> {
    if data == "q2_under50" then Some(Under50)
    else if data == "q2_50to100" then Some(From50To100)
    else if data == "q2_100to300" then Some(From100To300)
    else if data == "q2_over300" then Some(Over300)
    else None
  }

  /** The callback filter of question 3's handler. */
  function ParseGoal(data: string): Option<GoalButton> {
    if data == "q3_x2x3" then Some(X2X3)
    else if data == "q3_x5x10" then Some(X5X10)
    else if data == "q3_x100" then Some(X100)
    else if data == "q3_survive" then Some(Survive)
    else None
  }

  /** The callback filter of the diagnostic question that feeds `z`. */
  function ParseDiagnostic(z: Zone, data: string): Option<Severity> {
    if data == DiagnosticCallback(z, Healthy) then Some(Healthy)
    else if data == DiagnosticCallback(z, Strained) then Some(Strained)
    else if data == DiagnosticCallback(z, Critical) then Some(Critical)
    else None
  }

  /** Question 1's filter accepts exactly its buttons' callback data, and recognises each button. */
  lemma {:induction false} YearRoundTrip(b: YearButton, data: string)
    ensures ParseYear(YearCallback(b)) == Some(b)
    ensures ParseYear(data).Some? ==> YearCallback(ParseYear(data).value) == data
  {
    match b
    case Better =>
    case Same =>
      assert YearCallback(b)[3] != "q1_better"[3];
    case Worse =>
      assert YearCallback(b)[3] != "q1_better"[3];
      assert YearCallback(b)[3] != "q1_same"[3];
  }

  /** Question 2's filter accepts exactly its buttons' callback data, and recognises each button. */
  lemma {:induction false} IncomeRoundTrip(b: IncomeButton, data: string)
    ensures ParseIncome(IncomeCallback(b)) == Some(b)
    ensures ParseIncome(data).Some? ==> IncomeCallback(ParseIncome(data).value) == data
  {
    match b
    case Under50 =>
    case From50To100 =>
      assert IncomeCallback(b)[3] != "q2_under50"[3];
    case From100To300 =>
      assert IncomeCallback(b)[3] != "q2_under50"[3];
      assert IncomeCallback(b)[3] != "q2_50to100"[3];
    case Over300 =>
      assert IncomeCallback(b)[3] != "q2_under50"[3];
      assert IncomeCallback(b)[3] != "q2_50to100"[3];
      assert IncomeCallback(b)[3] != "q2_100to300"[3];
  }

  /** Question 3's filter accepts exactly its buttons' callback data, and recognises each button. */
  lemma {:induction false} GoalRoundTrip(b: GoalButton, data: string)
    ensures ParseGoal(GoalCallback(b)) == Some(b)
    ensures ParseGoal(data).Some? ==> GoalCallback(ParseGoal(data).value) == data
  {
    match b
    case X2X3 =>
    case X5X10 =>
      assert GoalCallback(b)[4] != "q3_x2x3"[4];
    case X100 =>
      assert GoalCallback(b)[4] != "q3_x2x3"[4];
      assert GoalCallback(b)[4] != "q3_x5x10"[4];
    case Survive =>
      assert GoalCallback(b)[3] != "q3_x2x3"[3];
      assert GoalCallback(b)[3] != "q3_x5x10"[3];
      assert GoalCallback(b)[3] != "q3_x100"[3];
  }

  /** A diagnostic question's three buttons send three different callback data. */
  lemma {:induction false} DiagnosticCallbacksDistinct(z: Zone)
    ensures DiagnosticCallback(z, Healthy) != DiagnosticCallback(z, Strained)
    ensures DiagnosticCallback(z, Healthy) != DiagnosticCallback(z, Critical)
    ensures DiagnosticCallback(z, Strained) != DiagnosticCallback(z, Critical)
  {
    match z
    case Product =>
      assert DiagnosticCallback(z, Healthy)[4] != DiagnosticCallback(z, Strained)[4];
      assert DiagnosticCallback(z, Healthy)[4] != DiagnosticCallback(z, Critical)[4];
      assert DiagnosticCallback(z, Strained)[3] != DiagnosticCallback(z, Critical)[3];
    case Traffic =>
      assert DiagnosticCallback(z, Strained)[3] != DiagnosticCallback(z, Critical)[3];
    case Content =>
      assert DiagnosticCallback(z, Healthy)[3] != DiagnosticCallback(z, Strained)[3];
      assert DiagnosticCallback(z, Healthy)[3] != DiagnosticCallback(z, Critical)[3];
    case Sales =>
      assert DiagnosticCallback(z, Healthy)[3] != DiagnosticCallback(z, Strained)[3];
      assert DiagnosticCallback(z, Healthy)[3] != DiagnosticCallback(z, Critical)[3];
      assert DiagnosticCallback(z, Strained)[3] != DiagnosticCallback(z, Critical)[3];
    case System =>
      assert DiagnosticCallback(z, Healthy)[4] != DiagnosticCallback(z, Strained)[4];
      assert DiagnosticCallback(z, Healthy)[3] != DiagnosticCallback(z, Critical)[3];
      assert DiagnosticCallback(z, Strained)[4] != DiagnosticCallback(z, Critical)[4];
  }

  /** A diagnostic question's filter accepts exactly its buttons' callback data, and recognises each button. */
  lemma {:induction false} DiagnosticRoundTrip(z: Zone, b: Severity, data: string)
    ensures ParseDiagnostic(z, DiagnosticCallback(z, b)) == Some(b)
    ensures ParseDiagnostic(z, data).Some? ==> DiagnosticCallback(z, ParseDiagnostic(z, data).value) == data
  {
    DiagnosticCallbacksDistinct(z);
  }
}
