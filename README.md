# Capital One digital-transformation microsite — the interactive core

The site is a single-page React application about Capital One's move to
data, cloud and AI. Most of it is presentation. This project models the
parts that hold logic or state, one Dafny module per component:

- **Quiz** (`quiz.dfy`). The four-question knowledge check. It tracks the
  current question, the score, the chosen option and the results screen.
- **RiskLab** (`risk_lab.dfy`). The risk-assessment lab. The user rates four
  risks from 1 to 5. The lab compares their average with the experts' and
  grades both as LOW, MODERATE or CRITICAL.
- **CreditScore** (`credit_score.dfy`). The credit-score simulator. Five
  sliders feed a weighted formula that runs from 300 to 850. A band name
  and a colour follow from the score.
- **Policy** (`policy.dfy`). The policy simulator. Two sliders give three
  metrics, each clamped to 0..100, with a traffic-light bar colour.
- **CloudStack** (`cloud_stack.dfy`). The cloud-migration slider: servers
  closed, applications migrated, velocity, and the visible orbit nodes.
- **Search** (`search.dfy`). The search dialog. It does a trimmed-emptiness
  test, then a case-insensitive substring filter over the content table.
- **Timeline** (`timeline.dfy`). The evolution timeline. It finds the
  "explanation" section, splits each event title at `:` into a year and a
  heading, and keeps the selected event.
- **Eno** (`eno.dfy`). The chat assistant. A transcript that only grows, a
  two-step ask/reply exchange, and a response table with a default entry.
- **ContentDisplay** (`content_display.dfy`). A content section. It handles
  the alternating layout, the first-match keyword icon classifier and the
  highlight detail dialog.
- **Perspective** (`perspective.dfy`). The banker/customer perspective
  toggle and its accent colour.

Three shared modules support them:

- `Content` holds the section datatypes and the content table transcribed
  from `constants.ts`.
- `JsString` holds the JavaScript string built-ins the components rely on:
  `includes`, ASCII `toLowerCase`, `trim`, and `split`/`join` on one
  character.
- `Wrappers` holds `Option`.

Component state held in `useState` becomes a class. Each event handler
becomes a method whose `ensures` gives the whole new state. CloudStack and
Search are the exceptions. Their state is a single value: the slider
position in `CloudTechStack.tsx`, and the query in `SearchModal.tsx` (its
`results` are recomputed from the query). Their `onChange` handlers only
store that value, so the model has no class for them. The value becomes
the argument of pure functions (`p` in CloudStack, `query` in Search). Where a
component keeps something true across its handlers (the quiz, the risk lab,
the credit simulator, the timeline, the chat and the content dialog), a
`Valid()` invariant states it; the policy simulator and the perspective
provider have no such invariant beyond their method contracts. The values
computed from state are pure functions, with lemmas about them. Arithmetic
uses exact `real`s. `Math.round(x)` is modelled as the floor of `x + 1/2`, and
`Math.floor` as the floor.

An observed behaviour is kept as written: the Eno launcher button only ever
opens the chat window. It shows a close icon once the window is open, but
clicking it leaves the window open (`Eno.EnoAssistant.ClickLauncher`).

## Model

| member | source | states |
|---|---|---|
| Quiz.CorrectAnswersAreOptions | components/sections/QuizSection.tsx:14-43 | every question's correct answer indexes one of its options |
| Quiz.CorrectCount | components/sections/QuizSection.tsx:58-59 | the number of right answers is at most the number given, and equals it exactly when every answer is right |
| Quiz.CorrectCountSnoc | components/sections/QuizSection.tsx:58-59 | answering one more question adds one to the count exactly when that answer is right |
| Quiz.OptionStyle | components/sections/QuizSection.tsx:129-140 | after answering, the correct option looks right, a different chosen option looks wrong, the rest are dimmed; before answering only the chosen option is highlighted |
| Quiz.AnsweredQuestionMarks | components/sections/QuizSection.tsx:129-140 | once answered, exactly the correct option is marked right, and some option is marked wrong iff the chosen valid option is not the answer |
| Quiz.QuizSection.constructor | components/sections/QuizSection.tsx:46-50 | the quiz starts at question 0 with score 0, no selection and no results |
| Quiz.QuizSection.HandleAnswer | components/sections/QuizSection.tsx:52-68 | ignored once answered; otherwise records the option, marks the question answered and adds one to the score iff it is correct; the score stays the count of right answers |
| Quiz.QuizSection.NextQuestion | components/sections/QuizSection.tsx:70-78 | before the last question it advances and clears the selection; on the last it shows the results; the score is unchanged |
| Quiz.QuizSection.ResetQuiz | components/sections/QuizSection.tsx:80-86 | restores the initial state |
| Quiz.FinalScoreBounded | components/sections/QuizSection.tsx:191 | the displayed score never exceeds the question count; on the results screen all four questions are answered, and the full score means every answer was right |
| RiskLab.CollectExpertRatings | components/sections/RiskAssessment.tsx:72 | the record folded from the risks has exactly the risks' ids as keys |
| RiskLab.CalculateScore | components/sections/RiskAssessment.tsx:67-69 | the average times the number of risks is the sum of the four ratings, and with every rating in 1..5 it lies in [1, 5] |
| RiskLab.SumOverBounds | components/sections/RiskAssessment.tsx:67-69 | a sum of ratings in 1..5 over n ids lies between n and 5n |
| RiskLab.AverageInRange | components/sections/RiskAssessment.tsx:67-69 | with every rating in 1..5 the average lies in [1, 5] |
| RiskLab.InitialAverage | components/sections/RiskAssessment.tsx:51-56 | the initial ratings are all 3 and average exactly 3.0 |
| RiskLab.GetRiskLevel | components/sections/RiskAssessment.tsx:74-78 | LOW iff below 2, MODERATE iff from 2 to below 3.5, CRITICAL iff 3.5 or above |
| RiskLab.RiskLevelMonotone | components/sections/RiskAssessment.tsx:74-78 | a higher average never gets a lower level |
| RiskLab.ExpertAverage | components/sections/RiskAssessment.tsx:15-48 | the expert record is cyber 5, regulatory 4, ai_ethics 4, operational 3; its average is 4.0 and reads CRITICAL |
| RiskLab.AllAccurateGivesExpertAverage | components/sections/RiskAssessment.tsx:116 | a user whose every rating matches the expert's gets the expert average 4.0 |
| RiskLab.RingColor | components/sections/RiskAssessment.tsx:223 | the ring colour as written: red iff above 3.5, green iff at most 2 |
| RiskLab.RingDisagreesWithLabel | components/sections/RiskAssessment.tsx:223 | ratings averaging exactly 2.0 read MODERATE in a green ring; ratings averaging 3.5 read CRITICAL in a yellow ring |
| RiskLab.AlignedRingColor | components/sections/RiskAssessment.tsx:74-78 | the corrected ring: red iff the average is at least 3.5, green iff below 2 |
| RiskLab.AlignedRingMatchesLabel | components/sections/RiskAssessment.tsx:74-78 | the ring with the label's thresholds always has the label's colour, and differs from the ring as written exactly at 2.0 and 3.5 |
| RiskLab.ToggledInsight | components/sections/RiskAssessment.tsx:83-89 | toggling the open insight closes it; toggling any other id opens that one |
| RiskLab.ToggleTwiceCloses | components/sections/RiskAssessment.tsx:83-89 | toggling the same insight twice from closed closes it again |
| RiskLab.RiskAssessment.constructor | components/sections/RiskAssessment.tsx:51-59 | all ratings 3, not submitted, no insight open |
| RiskLab.RiskAssessment.UserAverage | components/sections/RiskAssessment.tsx:71 | the user's average always lies in [1, 5] |
| RiskLab.RiskAssessment.IsMatch | components/sections/RiskAssessment.tsx:116 | a card reads "Accurate" iff the user's rating of that risk equals the expert's |
| RiskLab.AllMatchesGiveExpertAverage | components/sections/RiskAssessment.tsx:116 | when every card reads "Accurate" the user's average is the expert average 4.0, CRITICAL |
| RiskLab.RiskAssessment.HandleRate | components/sections/RiskAssessment.tsx:61-65 | before submission sets only that risk's rating; after submission changes nothing |
| RiskLab.RiskAssessment.RunAnalysis | components/sections/RiskAssessment.tsx:273 | marks the assessment submitted and keeps the ratings |
| RiskLab.RiskAssessment.ResetSimulation | components/sections/RiskAssessment.tsx:280 | unlocks rating again and keeps the ratings already given |
| RiskLab.RiskAssessment.ToggleInsight | components/sections/RiskAssessment.tsx:83-89 | the open insight becomes the toggled one; nothing else changes (the page never calls this handler, see below) |
| CreditScore.PaymentPart | components/sections/CreditScoreSimulator.tsx:24 | payment history contributes between 0 and 192.5 points |
| CreditScore.UtilizationPart | components/sections/CreditScoreSimulator.tsx:28-29 | utilization contributes between 0 and 165 points, and nothing at 100% |
| CreditScore.AgePart | components/sections/CreditScoreSimulator.tsx:33-34 | credit age contributes at most 82.5 points, all of it from 25 years |
| CreditScore.AccountsPart | components/sections/CreditScoreSimulator.tsx:38-39 | the account count contributes at most 55 points, all of it from 20 accounts |
| CreditScore.InquiriesPart | components/sections/CreditScoreSimulator.tsx:43-44 | inquiries contribute at most 55 points, and nothing from 10 on |
| CreditScore.RawScore | components/sections/CreditScoreSimulator.tsx:21-44 | on every slider setting the unrounded score lies between 300 and 850 |
| CreditScore.Round | components/sections/CreditScoreSimulator.tsx:46 | the result is the nearest integer, with halves rounded up |
| CreditScore.RoundMonotone | components/sections/CreditScoreSimulator.tsx:46 | rounding never reverses order |
| CreditScore.RoundInteger | components/sections/CreditScoreSimulator.tsx:46 | rounding leaves an integer unchanged |
| CreditScore.Score | components/sections/CreditScoreSimulator.tsx:46 | on every slider setting the displayed score lies between 300 and 850 |
| CreditScore.ScoreInRange | components/sections/CreditScoreSimulator.tsx:21-46 | every slider setting scores between 300 and 850 |
| CreditScore.ScoreMonotone | components/sections/CreditScoreSimulator.tsx:21-46 | better payment history, age or accounts and lower utilization or inquiries never lower the score |
| CreditScore.ScoreExtremes | components/sections/CreditScoreSimulator.tsx:21-46 | the best settings score exactly 850 and the worst exactly 300 |
| CreditScore.RatingFor | components/sections/CreditScoreSimulator.tsx:49-64 | Exceptional from 800, Very Good from 740, Good from 670, Fair from 580, Poor below |
| CreditScore.Rating.Label | components/sections/CreditScoreSimulator.tsx:49-64 | no band is named "Excellent", the label shown before the first computation |
| CreditScore.Rating.ColorClass | components/sections/CreditScoreSimulator.tsx:49-64 | every band colour is a "text-" class (the bar at line 222 swaps that prefix) and none is the placeholder "text-green-500" |
| CreditScore.RatingMonotone | components/sections/CreditScoreSimulator.tsx:49-64 | a higher score never gets a lower band |
| CreditScore.ExcellentIsNoBand | components/sections/CreditScoreSimulator.tsx:13 | the initial label "Excellent" is not the name of any band |
| CreditScore.InitialScore | components/sections/CreditScoreSimulator.tsx:6-10 | the initial sliders give 726.25 points, a score of 726 and the band Good |
| CreditScore.ProgressPercent | components/sections/CreditScoreSimulator.tsx:224 | the bar is empty at 300, full at 850, within 0..100% in between, and negative below 300 |
| CreditScore.ProgressPercentInRange | components/sections/CreditScoreSimulator.tsx:224 | the gauge bar width lies between 0% and 100% |
| CreditScore.CreditScoreSimulator.constructor | components/sections/CreditScoreSimulator.tsx:6-14 | the initial sliders, with the placeholder score 750, "Excellent" and green before the first recompute |
| CreditScore.CreditScoreSimulator.Recompute | components/sections/CreditScoreSimulator.tsx:16-65 | the score, band and colour are recomputed from the five sliders, which are unchanged |
| CreditScore.CreditScoreSimulator.SetPaymentHistory | components/sections/CreditScoreSimulator.tsx:103-106 | only payment history changes; the score stays in 300..850 with its band and colour |
| CreditScore.CreditScoreSimulator.SetUtilization | components/sections/CreditScoreSimulator.tsx:123-126 | only utilization changes; the score stays in 300..850 with its band and colour |
| CreditScore.CreditScoreSimulator.SetCreditAge | components/sections/CreditScoreSimulator.tsx:143-146 | only credit age changes; the score stays in 300..850 with its band and colour |
| CreditScore.CreditScoreSimulator.SetTotalAccounts | components/sections/CreditScoreSimulator.tsx:164-167 | only the account count changes; the score stays in 300..850 with its band and colour |
| CreditScore.CreditScoreSimulator.SetInquiries | components/sections/CreditScoreSimulator.tsx:184-187 | only inquiries change; the score stays in 300..850 with its band and colour |
| Policy.Clamp | components/sections/PolicySimulator.tsx:24-26 | the result lies in 0..100, equals the input inside that range, and is 0 below it and 100 above it |
| Policy.ClampIdempotent | components/sections/PolicySimulator.tsx:24-26 | clamping twice equals clamping once |
| Policy.ClampMonotone | components/sections/PolicySimulator.tsx:24-26 | clamping never reverses order |
| Policy.Publish | components/sections/PolicySimulator.tsx:20-26 | all three published metrics lie in 0..100 |
| Policy.ClampNeededOnlyAbove | components/sections/PolicySimulator.tsx:20-26 | on the sliders stability never needs clamping, while profit reaches 130 and risk 120 and are cut to 100 |
| Policy.PublishMonotone | components/sections/PolicySimulator.tsx:17-22 | more deregulation or a higher rate never lowers profit or risk and never raises stability |
| Policy.InitialMetrics | components/sections/PolicySimulator.tsx:7-8 | the initial sliders publish profit 65, risk 60 and stability 50 |
| Policy.GetColor | components/sections/PolicySimulator.tsx:29-35 | yellow iff in (40, 70]; above 70 green where high is good and red otherwise |
| Policy.ColorPolarity | components/sections/PolicySimulator.tsx:29-35 | the colour for "high is bad" is the colour for "high is good" with green and red swapped |
| Policy.PolicySimulator.constructor | components/sections/PolicySimulator.tsx:7-13 | both sliders at 50 and every metric at the placeholder 50 |
| Policy.PolicySimulator.Recompute | components/sections/PolicySimulator.tsx:15-27 | the metrics become the clamped formulas of the unchanged sliders |
| Policy.PolicySimulator.SetDeregulation | components/sections/PolicySimulator.tsx:65-68 | only deregulation changes, and the metrics follow it |
| Policy.PolicySimulator.SetInterestRate | components/sections/PolicySimulator.tsx:83-86 | only the interest rate changes, and the metrics follow it |
| CloudStack.DataCentersClosed | components/sections/CloudTechStack.tsx:10 | between 0 and 8 data centers are closed |
| CloudStack.ActiveDataCenters | components/sections/CloudTechStack.tsx:38-45 | between 0 and 8 servers are drawn lit |
| CloudStack.ClosedMonotone | components/sections/CloudTechStack.tsx:10 | more migration never closes fewer centers; 0%, 50% and 100% close 0, 4 and 8 |
| CloudStack.ServerActive | components/sections/CloudTechStack.tsx:43-45 | below 12.5% migration all eight servers are lit; at 100% none is |
| CloudStack.LitServers | components/sections/CloudTechStack.tsx:38-45 | at most as many servers are lit as are drawn |
| CloudStack.LitServersPrefix | components/sections/CloudTechStack.tsx:43-45 | the lit servers are the leading ones, as many as are still active |
| CloudStack.LitServersMatchFigure | components/sections/CloudTechStack.tsx:38-45 | the picture of eight servers lights exactly 8 minus the closed count |
| CloudStack.CloudApps | components/sections/CloudTechStack.tsx:11 | the migrated-applications figure is the slider value rounded down |
| CloudStack.CloudAppsOfSliderValue | components/sections/CloudTechStack.tsx:11 | on an integer slider value the figure equals the value |
| CloudStack.InnovationSpeed | components/sections/CloudTechStack.tsx:12 | velocity runs from 1x to 5x |
| CloudStack.VelocityHighlighted | components/sections/CloudTechStack.tsx:83 | the velocity card is enlarged iff migration is at least 50% |
| CloudStack.OrbitNodeVisible | components/sections/CloudTechStack.tsx:123-124 | a node is only shown once migration has started, and above 75% all six nodes are shown |
| CloudStack.OrbitVisibilityGrows | components/sections/CloudTechStack.tsx:117-124 | more migration never hides a node, a visible node's predecessors are visible, and node 0 is hidden only at 0% |
| Content.ContentSectionIdsDistinct | constants.ts:13-136 | the six content sections have distinct ids |
| JsString.Includes | components/features/SearchModal.tsx:26-33 | an included needle is no longer than the haystack, and the empty needle is included everywhere |
| JsString.IncludesTransitive | components/features/SearchModal.tsx:26-33 | a substring of a substring is a substring |
| JsString.ToLowerCase | components/features/SearchModal.tsx:24-33 | the same length, each ASCII capital lowered and every other character kept, so no capital remains |
| JsString.LowerPreservesIncludes | components/features/SearchModal.tsx:24-33 | an occurrence survives lower-casing both strings |
| JsString.TrimStart | components/features/SearchModal.tsx:19 | the result starts with a non-space, and is empty iff the string is all white space |
| JsString.TrimEnd | components/features/SearchModal.tsx:19 | the result is empty iff the string is all white space, and otherwise keeps the first character |
| JsString.Trim | components/features/SearchModal.tsx:19 | the result is empty iff the string is all white space, and otherwise starts and ends with a non-space |
| JsString.TrimEmptyIffBlank | components/features/SearchModal.tsx:19 | trimming gives the empty string exactly for all-white-space strings |
| JsString.LowerKeepsBlank | components/features/SearchModal.tsx:19-24 | strings with the same lower-case form are both blank or both not |
| JsString.Split | components/sections/Timeline.tsx:44 | there is at least one piece, and no piece contains the separator |
| JsString.JoinSplit | components/sections/Timeline.tsx:44 | joining the pieces of a split gives the string back |
| JsString.SplitJoin | components/sections/Timeline.tsx:44 | splitting a join of separator-free pieces gives the pieces back |
| JsString.SplitAtFirst | components/sections/Timeline.tsx:44 | the text before the first separator is the first piece |
| JsString.SplitNoSeparator | components/sections/Timeline.tsx:72 | a string without the separator splits into itself alone |
| Search.SectionMatches | components/features/SearchModal.tsx:26-36 | a title match is a section match, and the empty query matches every section |
| Search.Filter | components/features/SearchModal.tsx:25-37 | never longer than the table; a section is in the result iff it is in the table and matches |
| Search.Search | components/features/SearchModal.tsx:18-40 | a blank query gives no results; otherwise a section is a result iff it is in the table and its title, subtitle, content or a highlight contains the lower-cased query |
| Search.FilterAppend | components/features/SearchModal.tsx:25-37 | filtering keeps table order: filtering a concatenation concatenates the filtered parts |
| Search.FilterSingleton | components/features/SearchModal.tsx:25-37 | a one-section table yields that section iff it matches |
| Search.FilterNoDuplicates | components/features/SearchModal.tsx:25-37 | filtering a table without duplicates yields no duplicates |
| Search.SearchContentNoDuplicates | components/features/SearchModal.tsx:25 | no section is listed twice for any query |
| Search.SearchCaseInsensitive | components/features/SearchModal.tsx:24 | queries equal up to ASCII case give the same results |
| Search.SectionMatchesWeaken | components/features/SearchModal.tsx:26-36 | a section matching a query also matches every substring of it |
| Search.SearchNarrows | components/features/SearchModal.tsx:18-40 | extending a non-blank query never adds results |
| Search.PaddedQueryNotTrimmed | components/features/SearchModal.tsx:19-24 | only the emptiness test trims, so a trailing space can lose a match |
| Search.ResultsPane | components/features/SearchModal.tsx:93-101 | the prompt iff the query is empty, "no matches" iff non-empty with no results, otherwise the result list |
| Search.BlankQueryShowsNoMatches | components/features/SearchModal.tsx:19-21 | a query of spaces shows "no matches" rather than the prompt |
| Timeline.FindSection | components/sections/Timeline.tsx:8 | nothing iff no section has the id; otherwise the first section with it |
| Timeline.Events | components/sections/Timeline.tsx:9 | the events are the explanation section's highlights, or none |
| Timeline.YearLabel | components/sections/Timeline.tsx:44 | the year label has no colon and is a prefix of the title |
| Timeline.Heading | components/sections/Timeline.tsx:72 | the heading is either the whole title or a non-empty piece without a colon, and is never empty for a non-empty title |
| Timeline.YearLabelIsTextBeforeFirstColon | components/sections/Timeline.tsx:44 | the year label has no colon, is a prefix of the title, is the whole title without a colon, and otherwise is followed by the first colon |
| Timeline.HeadingIsSecondPiece | components/sections/Timeline.tsx:72 | the heading is the text between the first and second colons, or the whole title when that is empty |
| Timeline.NoColonTitle | components/sections/Timeline.tsx:44-72 | a title without a colon is both its own year label and its own heading |
| Timeline.LabelsOf | components/sections/Timeline.tsx:44-72 | "year:heading" splits back into that year and that heading |
| Timeline.SiteEvents | constants.ts:54-81 | the site's timeline shows the four evolution events |
| Timeline.SiteFirstEventLabels | constants.ts:61 | the first event reads year 1994, heading " The Beginning" |
| Timeline.SiteSecondEventLabels | constants.ts:65 | the second event reads year 2015, heading " Cloud Migration" |
| Timeline.SiteThirdEventLabels | constants.ts:70 | the third event reads year 2017, heading " Project Eno" |
| Timeline.SiteUndatedEventLabels | constants.ts:74-77 | the undated event shows its whole title as both year and heading |
| Timeline.CardOf | components/sections/Timeline.tsx:102-115 | the detail card shows the event's own description and link, a colon-free year that prefixes the title, and a heading that is the title or colon-free |
| Timeline.Render | components/sections/Timeline.tsx:12-115 | nothing without an explanation section; the active event's card when it exists; otherwise reading the missing event throws |
| Timeline.TimelineSection.constructor | components/sections/Timeline.tsx:8-10 | the events of the table, with event 0 active |
| Timeline.TimelineSection.SelectEvent | components/sections/Timeline.tsx:53 | the clicked event becomes active |
| Timeline.SiteTimelineAlwaysRenders | components/sections/Timeline.tsx:102-110 | on the site's table every reachable selection renders a detail card |
| Eno.ResponseText | components/ui/EnoAssistant.tsx:54 | a non-empty reply from the table: the question's own entry when present, else the default |
| Eno.PredefinedQuestionsAnswered | components/ui/EnoAssistant.tsx:12-23 | every suggested question has its own entry, distinct from the default reply |
| Eno.EnoAssistant.constructor | components/ui/EnoAssistant.tsx:26-30 | closed, not typing, with only the welcome message |
| Eno.EnoAssistant.ClickLauncher | components/ui/EnoAssistant.tsx:74-78 | the window is open afterwards whatever its state was; the transcript is unchanged |
| Eno.EnoAssistant.AskQuestion | components/ui/EnoAssistant.tsx:41-50 | appends exactly the question as a user message, starts typing and schedules that question's reply |
| Eno.EnoAssistant.DeliverReply | components/ui/EnoAssistant.tsx:53-62 | appends exactly the scheduled reply as a bot message and stops typing |
| Eno.SendersAlternate | components/ui/EnoAssistant.tsx:142 | with questions disabled while typing, bot and user messages strictly alternate from the welcome on |
| Eno.AtMostOnePendingReply | components/ui/EnoAssistant.tsx:122-142 | while typing the last message is the unanswered question; otherwise it is the bot's |
| ContentDisplay.SidesAlternate | components/sections/ContentDisplay.tsx:16 | neighbouring sections put their text on opposite sides |
| ContentDisplay.GetIcon | components/sections/ContentDisplay.tsx:18-24 | lock for Cyber/Security; else cpu for AI; else cloud; else globe for SDG/Community/ESG; else shield for Compliance/Regulatory; else trending |
| ContentDisplay.SecurityBeatsAi | components/sections/ContentDisplay.tsx:19-20 | a title with both Security and AI gets the lock |
| ContentDisplay.LowercaseTitleIsTrending | components/sections/ContentDisplay.tsx:18-24 | a title without capital letters gets the trending icon |
| ContentDisplay.LowercaseAiIsTrending | components/sections/ContentDisplay.tsx:20 | "ai" does not trigger the AI rule |
| ContentDisplay.CardsOf | components/sections/ContentDisplay.tsx:99-101 | the cards are the section's highlights, or none when it has no highlight list |
| ContentDisplay.ContentSection.constructor | components/sections/ContentDisplay.tsx:14-15 | no highlight selected |
| ContentDisplay.ContentSection.Click | components/sections/ContentDisplay.tsx:102-173 | a card opens its own detail; backdrop, close icon and close button close it; a click inside the dialog changes nothing |
| Perspective.Toggled | context/PerspectiveContext.tsx:17-19 | the toggled perspective is the other one |
| Perspective.ToggleTwice | context/PerspectiveContext.tsx:17-19 | toggling twice restores the perspective |
| Perspective.Accent | context/PerspectiveContext.tsx:21 | cyan iff banker, rose iff customer |
| Perspective.ToggleChangesAccent | context/PerspectiveContext.tsx:17-21 | every toggle changes the accent colour |
| Perspective.SetThenToggle | context/PerspectiveContext.tsx:17-24 | on a provider, setting p and then toggling leaves the other perspective and an accent colour different from p's |
| Perspective.PerspectiveProvider.constructor | context/PerspectiveContext.tsx:15 | the banker perspective |
| Perspective.PerspectiveProvider.TogglePerspective | context/PerspectiveContext.tsx:17-19 | the perspective flips |
| Perspective.PerspectiveProvider.SetPerspective | context/PerspectiveContext.tsx:24 | the perspective becomes the given one |
| Perspective.PerspectiveProvider.AccentColor | context/PerspectiveContext.tsx:21 | cyan exactly while the banker perspective is active |
| Perspective.UsePerspective | context/PerspectiveContext.tsx:30-36 | inside a provider, the provider's perspective; outside one, an error |

## Left out

- Rendering: layout classes, Tailwind colour strings other than the band and bar colours, icons as components, framer-motion animation values.
- The 3D scenes, the recharts charts, the video gallery, the hacker terminal, the comparison slider, the navbar, the logo, the hero and the theme toggle. They are presentation, or DOM plumbing, with no state worth a model.
- Timers: Eno's 1.5-second delay is the separate step `DeliverReply`. No further question can be asked in between, because the question buttons are disabled while a reply is pending; other actions, such as the launcher click, may still happen.
- Message ids and timestamps (`Date.now()`, `new Date()`), scrolling to the newest message, the quiz confetti, and the search dialog's body-scroll lock.
- Number formatting with `toFixed`, and the SVG ring's dash offset.
- IEEE-754 floating point: all arithmetic is exact. Float rounding at the band thresholds (e.g. 579.4999…) is not modelled.
- JsString.ToLowerCase: folds ASCII letters only; Unicode case mapping is not modelled.
- JavaScript strings are UTF-16 code units: a character outside the Basic Multilingual Plane is two units there and one `char` here, so lengths and split positions differ for such characters (none occurs in the site's content).
- RiskLab.RiskAssessment.ToggleInsight models `toggleInsight`, which the page defines but never attaches to any element, so no user action reaches it.
- React scheduling: effects are taken to run at once after a state change, so `Recompute` follows every setter.
- RiskLab.CalculateScore: requires the ratings record to hold exactly the four risk ids. Every record the lab builds does; a record with other keys (a key from `Object.prototype`, say) is not modelled.
- Eno.ResponseText: a question id that names an `Object.prototype` member would find that member instead of a string. Only the three suggested ids are ever passed.
- Quiz.QuizSection.HandleAnswer: the option index is any integer. The UI only passes 0..3.
- CreditScore setters and Policy setters: require the slider's own range. A range input delivers no other value.
- ContentDisplay.ContentSection.Click: clicks on the dialog's parts require the dialog to be open, because those parts exist only then.
- The highlight `link` field is modelled although `types.ts` does not declare it. The content table sets it on three timeline events, and the timeline reads it.
- Timeline.CardOf: the link is an `Option`, and `Some("")` counts as a link. The page tests the link for truthiness, so an empty-string link would render no anchor. The content table never holds an empty link.
- RiskLab.RiskAssessment.HandleRate: requires a known risk id and a rating in 1..5. The rating buttons are generated from the four risks and the values 1 to 5, so no other call is possible.

## Findings

| source | as written | input that shows it | evidently intended | confidence | as-written member | corrected member |
|---|---|---|---|---|---|---|
| components/sections/RiskAssessment.tsx:223 | the ring turns red only above 3.5 and yellow only above 2 | all ratings 2 (average 2.0: MODERATE label, green ring); ratings 4,4,3,3 (average 3.5: CRITICAL label, yellow ring) | the ring uses the label's thresholds (red from 3.5, yellow from 2), as `getRiskLevel` at lines 74-78 does | medium; not executed | RiskLab.RingColor, RiskLab.RingDisagreesWithLabel | RiskLab.AlignedRingColor, RiskLab.AlignedRingMatchesLabel |
