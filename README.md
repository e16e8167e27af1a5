# Quiz bot: diagnostic engine and answer collection, in Dafny

The bot runs a Telegram quiz that looks for a business's "X100 thief". The
quiz asks for a name and a niche, then three warm-up questions, then five
diagnostic questions. Each diagnostic answer adds pain points to the
counter of one zone: product, traffic, content, sales or system. The
scoring engine then does four things:
- it normalises the counters by per-zone maxima;
- it picks the bottleneck zone, breaking ties by a priority list;
- it decides whether the result is a "twist" (the user believes another
  zone is the problem, and the gap reaches a threshold) or a
  "confirmation";
- it renders the final message and the follow-up buttons from authored
  templates.

The model has seven modules:
- `Wrappers`: `Option` and `Result`.
- `Zones`: the five zones, and Python's insertion-ordered `Dict[Zone, V]`
  as a list of entries with distinct keys. The tie-break's last resort
  depends on dictionary order.
- `PyStrings`: the `str` operations the bot relies on: `replace`,
  `strip`, `lower`, `startswith` and `in`. It also has `split`/`join` as
  an independent reference that `replace` is proved equal to.
- `Scoring`: `AnswersState`, `normalize_scores`, `pick_max_zone`,
  `pick_perceived_fallback`, `DiagnosticResult` and `compute_result`.
  Scores are exact rationals (`real`). The exceptions Python raises on a
  session's data are `Failure` results.
- `Rendering`: `build_final_message` and `get_result_buttons`.
- `Keyboards`: the inline keyboards of questions 1 to 8. Each button is a
  datatype constructor, with its callback data, its answer text and its
  pain points. Each handler's callback filter is proved to be the inverse
  of its keyboard's callback data.
- `Quiz`: the conversation's FSM states, and one session as a class
  (`QuizSession`). The session holds the current state and the FSM data
  map, and has one method per handler of `handlers/start.py`. A ghost
  count of diagnostic answers per zone since the counters were zeroed
  carries the invariant that bounds every counter.

The configuration module the engine imports is not part of this model. It
holds `ZONE_MAX`, `ZONE_PRIORITY`, `TWIST_THRESHOLD`, `DEFAULT_TEMPLATE`,
`COMMON_COMPLAINTS` and `RESULT_SERIES_MAP`. These tables are parameters:
`Scoring.ScoringConfig` and `Rendering.Content`.

Three behaviours of the code are easy to miss, and the model keeps them:
- `compute_result` has failure modes besides configuration errors. An
  empty score dictionary makes `max()` raise, and a perceived zone that
  has no score raises `KeyError` on the normalised scores. Both are
  `Scoring.ScoringError` values.
- The tie-break does not use priority order alone. When no tied zone is
  listed in `ZONE_PRIORITY`, the first tied zone in dictionary order
  wins.
- The templates receive no zone label. Only `{ЭКСПЕРТ}`, `{ПРОДУКТ}` and
  `{ЧАСТОЕ_ЖАЛОБНОЕ}` are substituted. `ZONE_LABEL` is imported but not
  used.

Callback handlers are routed on callback data alone, never on the FSM
state. So pressing an old diagnostic button again adds its points again.
`Quiz.ReplayCountsTwice` shows a counter going past its zone's per-answer
maximum this way. The counter bound is therefore stated relative to the
number of answers a zone has received (`Quiz.CountersWithin`), and the
[0, 1] guarantee holds only after one answer per question
(`Quiz.OnePassNormalizesIntoUnitInterval`).

## Model

| member | source | states |
|---|---|---|
| Scoring.FreshAnswers | scoring.py:21-37 | a new answer record scores all five zones at 0, keyed in the order product, traffic, content, sales, system, with no perceived zone and no complaint |
| Scoring.NormalizeScores | scoring.py:40-50 | the normalised dictionary has exactly the input's zones, in the same order, and keeps keys distinct |
| Scoring.NormalizeLookup | scoring.py:47-49 | each zone's normalised score is its raw score divided by its configured maximum |
| Scoring.NormalizedInUnitInterval | scoring.py:40-50 | when every raw score is between 0 and its positive maximum, every normalised score is in [0, 1] |
| Scoring.MaxOf | scoring.py:59 | `max(values)` is one of the values and is at least every value |
| Scoring.Tied | scoring.py:60 | the tied list holds exactly the zones whose score equals the maximum, and its first zone is the first such entry in dictionary order |
| Scoring.FirstListed | scoring.py:63-65 | the search stops at the first priority entry that is tied, and no earlier entry is tied |
| Scoring.MaxZone | scoring.py:53-68 | the selector fails exactly on an empty dictionary and otherwise returns a zone of the dictionary |
| Scoring.TiedAreTop | scoring.py:59-60 | a zone is tied with the maximum if and only if its score is at least every score |
| Scoring.MaxZoneIsWinner | scoring.py:62-68 | the selected zone is a top-scoring zone, earliest in the priority list when any top zone is listed, and otherwise first among the top zones in dictionary order |
| Scoring.PriorityWinnerUnique | scoring.py:62-68 | at most one zone satisfies the tie-break rule, so the selection is deterministic |
| Scoring.MaxZoneCharacterized | scoring.py:53-68 | the selector returns `z` if and only if `z` is the zone the tie-break rule designates |
| Scoring.EqualScoresPickFirstListed | scoring.py:59-65 | when all zones score the same, the first zone of the priority list wins, if it is scored |
| Scoring.PickMaxZone | scoring.py:53-68 | the loop over the priority list with its early return computes exactly `MaxZone` |
| Scoring.PerceivedFallback | scoring.py:71-80 | the fallback is the complaint's zone when a complaint was recorded, and None otherwise |
| Scoring.ResolvePerceived | scoring.py:107 | `state.perceived_zone or pick_perceived_fallback(state)`; `ComputeResult`'s last ensures states the zone it yields: the explicit answer, else the complaint's zone, else none |
| Scoring.ComputeResult | scoring.py:93-122 | fails with `EmptyScores` exactly on empty scores, and fails only on a perceived zone without a score; a success copies the raw scores, keeps the zones, has a top-scoring bottleneck, and takes the perceived zone from the explicit answer, else the complaint, else none |
| Scoring.BottleneckFollowsPriority | scoring.py:101-104 | the result's scores are the normalised scores, and its bottleneck is the zone the tie-break rule designates |
| Scoring.TwistDecision | scoring.py:107-114 | no twist without a perceived zone or when it is the bottleneck; otherwise a twist exactly when the bottleneck's lead reaches the threshold (inclusive), and that lead is never negative |
| Scoring.ResultScoresInUnitInterval | scoring.py:100-101 | with raw scores within their maxima, every score of a computed result is in [0, 1] |
| Rendering.MissingSeriesNotice | scoring.py:144-145 | the notice for a zone without a series contains that zone's name |
| Rendering.Fill | scoring.py:156-160 | the three substitutions in their order (expert, product, complaint); `FillVerbatim` states that a template without the tokens is left unchanged, and `BuildFinalMessage` states which template and complaint it receives |
| Rendering.FillVerbatim | scoring.py:156-160 | a template holding none of the three tokens is rendered unchanged |
| Rendering.BuildFinalMessage | scoring.py:125-162 | no series gives the notice; a twist with a perceived zone fills the twist template with that zone's complaint or the generic phrase; otherwise the confirmation template is filled with an empty complaint; the given vars are used, else the defaults |
| Rendering.GetResultButtons | scoring.py:165-195 | no series gives no buttons; otherwise one button per configured button, in order, with the id unchanged as callback data and the expert's name put into the label |
| PyStrings.ReplaceAllIsJoinSplit | scoring.py:157-160 | the model of `str.replace` equals joining with the replacement the pieces that splitting on the token yields |
| PyStrings.SplitJoinRoundTrip | scoring.py:157-158 | splitting on a token and joining with the same token gives back the text |
| PyStrings.SplitPiecesFree | scoring.py:157-158 | no piece of a split still contains the token |
| PyStrings.ReplaceAllAbsent | scoring.py:159-160 | replacing a token that does not occur leaves the text unchanged, so the `in` test before the last replace changes nothing |
| PyStrings.FindFirstSpec | scoring.py:159 | the search finds the leftmost occurrence, and finds none exactly when the text does not contain the token |
| PyStrings.ReplaceAll | scoring.py:157-160 | `str.replace` with a non-empty token; `ReplaceAllIsJoinSplit` proves it equal to joining the pieces of a split with the replacement, and `ReplaceAllAbsent` proves that an absent token changes nothing |
| PyStrings.Strip | handlers/start.py:72 | `str.strip`; `StripSpec` proves it keeps exactly the slice between the leading and the trailing whitespace |
| PyStrings.StripSpec | handlers/start.py:72 | the stripped text is the slice left once the leading and the trailing whitespace are removed; everything removed is whitespace, and the slice neither starts nor ends with whitespace |
| PyStrings.TrimStartSpaces | handlers/start.py:72 | the first half of `strip` keeps a suffix of the text and removes exactly its leading whitespace |
| PyStrings.TrimEndSpaces | handlers/start.py:72 | the second half of `strip` keeps a prefix of the text and removes exactly its trailing whitespace |
| PyStrings.Lower | handlers/start.py:189 | `str.lower` on the Latin and Cyrillic capitals; `LowerSpec` and the three case-pair tables state what it does |
| PyStrings.LowerSpec | handlers/start.py:189 | lower-casing keeps the length, keeps every character outside the capital ranges A–Z and U+0400–U+042F, leaves no capital in the result, and changes nothing when applied again |
| PyStrings.LatinCasePairs | handlers/start.py:189 | each Latin capital becomes its small letter, written out as a literal table |
| PyStrings.CyrillicCasePairs | handlers/start.py:189-196 | each Russian capital А–Я becomes its small letter, written out as a literal table; in particular "В" becomes the "в" that the niche prefix test looks for |
| PyStrings.CyrillicExtensionCasePairs | handlers/start.py:189 | each Cyrillic capital U+0400–U+040F becomes the small letter Unicode pairs it with, written out as a literal table |
| Keyboards.PainPoints | handlers/start.py:425-698 | the five pain tables: a healthy answer adds 0, a critical one adds the zone's maximum (2, 2, 2, 3, 2), no answer adds more, and the content question adds only 0 or 2 |
| Keyboards.YearRoundTrip | handlers/start.py:236-249 | question 1's filter recognises each button's callback data as that button and accepts no other data |
| Keyboards.IncomeRoundTrip | handlers/start.py:292-306 | question 2's filter recognises each button's callback data as that button and accepts no other data |
| Keyboards.GoalRoundTrip | handlers/start.py:349-363 | question 3's filter recognises each button's callback data as that button and accepts no other data |
| Keyboards.DiagnosticCallbacksDistinct | handlers/start.py:414 | the three buttons of a diagnostic question send three different callback data |
| Keyboards.DiagnosticRoundTrip | handlers/start.py:414-438 | a diagnostic question's filter recognises each button's callback data as that button and accepts no other data |
| Quiz.ChosenNiche | handlers/start.py:140-147 | a preset button stores its phrase, and any other `niche_` data stores "бизнесе"; the stored niche is always one of the four phrases |
| Quiz.CustomNiche | handlers/start.py:189-197 | a typed niche is refused exactly when it is shorter than 3 characters after stripping and lower-casing; otherwise the stored niche is the typed text itself when that starts with "в", and "в сфере " followed by the typed text when not |
| Quiz.ZeroCountersZeroes | handlers/start.py:366-372 | the reset sets all five pain counters to 0 and leaves every other key as it was |
| Quiz.ZeroCountersRestart | handlers/start.py:366-372 | after the reset every counter reads 0 and the counter invariant holds with no answers counted |
| Quiz.ResetCollectsFreshScores | handlers/start.py:366-372 | after the reset at question 3 the session holds exactly the scores a fresh answer record starts from (scoring.py:25-31): all five zones at 0, in the same order |
| Quiz.ZeroCounters | handlers/start.py:366-372 | the `update_data` call that writes 0 under the five counter keys; `ZeroCountersZeroes` proves that it zeroes all five and keeps every other key |
| Quiz.Counter | handlers/start.py:422 | `data.get('<zone>_pain', 0)`: a missing counter reads 0; `Diagnose` proves that each diagnostic answer adds its points to the value read this way |
| Quiz.TextWriteKeepsCounters | handlers/start.py:249 | storing a text answer changes no counter and keeps the counter invariant |
| Quiz.CounterWriteKeepsInvariant | handlers/start.py:421-443 | storing a counter that grew by at most the zone's maximum keeps the invariant once the zone is credited with one more answer, and leaves the other counters alone |
| Quiz.CollectedScoresShape | scoring.py:25-31 | the scores read from a session form a dictionary over all five zones, each holding that zone's counter |
| Quiz.OnePassNormalizesIntoUnitInterval | scoring.py:40-50 | after at most one answer per diagnostic question since the reset, and with maxima at least the per-answer maxima, every normalised score is in [0, 1] |
| Quiz.OnePassResult | scoring.py:93-122 | after one answer per diagnostic question, and with no perceived zone or complaint recorded, `compute_result` on the collected counters succeeds and keeps them as the raw scores; its bottleneck is the zone the tie-break designates, there is no twist, and every normalised score is in [0, 1] |
| Quiz.QuizSession.StartQuiz | handlers/start.py:38-50 | the "yes" button moves the session to waiting for the name and changes no data |
| Quiz.QuizSession.ProcessName | handlers/start.py:68-90 | a name shorter than 2 characters after stripping changes nothing; otherwise the stripped name is stored and the niche is asked for |
| Quiz.QuizSession.ProcessNicheChoice | handlers/start.py:125-151 | the custom button changes nothing; any other `niche_` button stores its niche and moves to question 1 |
| Quiz.QuizSession.ProcessCustomNiche | handlers/start.py:185-202 | a refused typed niche changes nothing; otherwise its niche is stored and the session moves to question 1 |
| Quiz.QuizSession.HandleQuestion1 | handlers/start.py:236-252 | stores the answer text under question 1, moves to question 2, keeps the counters |
| Quiz.QuizSession.HandleQuestion2 | handlers/start.py:292-309 | stores the answer text under question 2, moves to question 3, keeps the counters |
| Quiz.QuizSession.HandleQuestion3 | handlers/start.py:349-375 | stores the answer text under question 3, sets all five counters to 0, restarts the answer count, moves to question 4 |
| Quiz.QuizSession.Diagnose | handlers/start.py:421-446 | the shared shape of questions 4 to 8: reads one counter, 0 when missing, adds the answer's points, stores it with the answer text, leaves the other counters, moves on |
| Quiz.QuizSession.HandleQuestion4 | handlers/start.py:414-446 | the product counter grows by the answer's points, the other counters stay, the answer is stored, the session moves to question 5 |
| Quiz.QuizSession.HandleQuestion5 | handlers/start.py:480-512 | the traffic counter grows by the answer's points, the other counters stay, the answer is stored, the session moves to question 6 |
| Quiz.QuizSession.HandleQuestion6 | handlers/start.py:550-582 | the content counter grows by the answer's points, the other counters stay, the answer is stored, the session moves to question 7 |
| Quiz.QuizSession.HandleQuestion7 | handlers/start.py:617-649 | the sales counter grows by the answer's points, the other counters stay, the answer is stored, the session moves to question 8 |
| Quiz.QuizSession.HandleQuestion8 | handlers/start.py:683-715 | the system counter grows by the answer's points, the other counters stay, the answer is stored, the session moves to showing the result |
| Quiz.Onboard | handlers/start.py:38-375 | from the "yes" button through question 3 the session reaches question 4 with every counter at 0 |
| Quiz.AnswerProductAndTraffic | handlers/start.py:414-512 | questions 4 and 5 from zeroed counters leave exactly their answers' points in the product and traffic counters and 0 elsewhere |
| Quiz.AnswerContentSalesSystem | handlers/start.py:550-715 | questions 6 to 8 add their answers' points to the content, sales and system counters, leave the others, and end in showing the result |
| Quiz.CompleteQuiz | handlers/start.py:38-715 | a whole session ends in showing the result, with each collected score equal to the points of its zone's one answer, hence within that zone's maximum |
| Quiz.ReplayCountsTwice | handlers/start.py:617-634 | pressing the critical sales button twice after the reset leaves the sales counter at twice its per-answer maximum |

## Left out

- Scoring.NormalizeScores: scores are exact rationals, not IEEE doubles, so float rounding at the twist threshold (1.0 − 0.3 against 0.7, say) is not captured.
- Scoring.ComputeResult: requires every scored zone to have a positive `ZONE_MAX` entry and the score dictionary to have distinct keys, as a Python dict does. A missing or zero maximum is a configuration error (`KeyError`, `ZeroDivisionError`) and is not modelled as a result.
- The configuration module is not part of this model. `ZONE_MAX`, `ZONE_PRIORITY`, `TWIST_THRESHOLD`, `DEFAULT_TEMPLATE`, `COMMON_COMPLAINTS`, `RESULT_SERIES_MAP`, `TemplateVars` and `ResultSeries` are parameters with their values unknown. `ZONE_LABEL` is imported by the engine but not used.
- `InlineKeyboardButton` is a plain (label, callback data) pair (`Rendering.Button`).
- PyStrings.Lower: lower-cases ASCII and the Cyrillic capitals U+0400–U+042F only. Other scripts and Python's special casings (final sigma, multi-character results) are not modelled.
- `str.replace` with an empty pattern is not modelled; every token the bot replaces is non-empty.
- All Telegram I/O is not modelled: `message.answer`, `callback.answer`, keyboard markup, HTML prompt texts, `parse_mode`, `async`/`await`, and the greeting and question texts that interpolate the name and niche. The same holds for `cmd_start` and `decline_quiz`, which only send messages.
- `main.py` (bot start-up, token loading, logging, polling) is not modelled.
- `message.text` can be None for non-text messages, which makes `process_name` and `process_custom_niche` raise. The model passes a string.
- Routing is modelled as follows. A message handler requires its FSM state, which is its router filter. A callback handler receives a button of its own keyboard, whatever the state. The `Keyboards` round-trip lemmas show that each filter admits exactly those buttons' data. The dispatcher's choice between several matching handlers is not modelled.
- Quiz.QuizSession.HandleQuestion1 through HandleQuestion8: record the answer texts of the session's `copy`, which is a constructor parameter. The bot's own texts are `Keyboards.BotCopy`. Their contracts therefore name the table entry rather than the literal text.
- No shown handler enters `question_perceived` or sets `perceived_zone` or `complaint_best`. The code that builds an `AnswersState` from the session data and calls the engine is not shown either. `Quiz.CollectedScores` is one reading of that step: the five counters, in the order of a fresh record.
- The FSM storage is a map from `Quiz.Key` to `Quiz.Value`. Its string keys (`"name"`, `"question_4"`, `"product_pain"`, …) are datatype constructors.
- Concurrency between sessions is not modelled; each session is an independent object.
