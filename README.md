# Aplicaciones Móviles: a verified model of two Android apps' logic

The repository holds two small Jetpack Compose apps written in Kotlin.

**AsesorFinanciero** is a financial-advisor questionnaire. An
`AdvisorViewModel` keeps the user's answers in an `AdvisorState` record and
replaces it through `updateState`. `calculateProfile` turns ten of the
answers into a weighted score, clamps it to [0, 100] and names one of four
risk profiles. `suggestionForProfile` maps a profile to a fixed portfolio
template. Two free-text fields are parsed into the state: the products
used (comma-separated) and the patrimony distribution (`key:value` pairs).

**MyApplication** shows three cards: a counter (+1 capped at 100, halve,
random value), a comparison of two random numbers with a verdict sentence,
and a Baloto ticket (five distinct yellow balls in ascending order, one red
ball).

The Dafny modules follow that structure:

- `Wrappers`: the `Option` type, used for Kotlin's nullable values.
- `KotlinText`: the standard-library text functions the parsers use:
  `trim`, `isBlank`, `split`, `joinToString`, `Int.toString` and
  `toIntOrNull`.
- `OrderedMap`: Kotlin's insertion-ordered `Map` as a list of entries with
  distinct keys, plus `put` and `toMap`.
- `Questionnaire`: `AdvisorState` with its defaults, and the two text
  fields' parsing and display.
- `Scoring`: the point tables, the weighted score and the profile labels.
- `Portfolio`: `PortfolioSuggestion` and the five templates.
- `Advisor`: the `AdvisorViewModel` class. Its state is updated in place.
  It also has the result step that chains the two view-model calls.
- `Counter`, `Comparison`, `Baloto`: the three cards of MyApplication.
  Each card is a class whose fields are the card's `remember`ed state.

The score uses exact rational arithmetic. `Scoring.ScaledScore` is an
integer reference for it, in sixtieths: the weights 0.20, 0.25/3, 0.10,
0.30/3 and 0.15 become 12, 5, 6, 6 and 9.

Modelling the code shows that the point tables keep the weighted sum
between 98/60 (about 1.63) and 1661/60 (about 27.68). So the clamp never
changes the sum. Only "Conservador" and "Moderado" can come out, and the
"Balanceado", "Arriesgado / Agresivo" and "Meta-Mixto" templates are
unreachable from the questionnaire. An untouched questionnaire scores
502/60 ("Conservador"). The boldest answers score 1661/60, which is still
only "Moderado".

## Model

| member | source | states |
|---|---|---|
| Wrappers.Option.GetOr | AsesorFinanciero/app/src/main/java/com/example/asesorfinanciero/MainActivity.kt:524 | `?: default`: the value when present, the default when null |
| KotlinText.Trim | AsesorFinanciero/app/src/main/java/com/example/asesorfinanciero/MainActivity.kt:398 | the result has no whitespace at either end; it is empty exactly when the input is blank; it holds only characters of the input |
| KotlinText.TrimIsSlice | AsesorFinanciero/app/src/main/java/com/example/asesorfinanciero/MainActivity.kt:398 | the trimmed text is a contiguous slice of the input with only whitespace before and after it |
| KotlinText.BlankTrim | AsesorFinanciero/app/src/main/java/com/example/asesorfinanciero/MainActivity.kt:516-522 | a text is blank exactly when its trimmed form is blank |
| KotlinText.WhitespaceChars | AsesorFinanciero/app/src/main/java/com/example/asesorfinanciero/MainActivity.kt:516-522 | space and tab are whitespace; digits, signs, ',' and ':' are not, so a blank text holds no separator |
| KotlinText.TrimBlankPrefix | AsesorFinanciero/app/src/main/java/com/example/asesorfinanciero/MainActivity.kt:398 | leading whitespace does not change what `trim` returns |
| KotlinText.JoinEnds | AsesorFinanciero/app/src/main/java/com/example/asesorfinanciero/MainActivity.kt:395 | `joinToString` of no parts is ""; otherwise the text starts with the first part and ends with the last |
| KotlinText.Split | AsesorFinanciero/app/src/main/java/com/example/asesorfinanciero/MainActivity.kt:398 | at least one piece; no piece holds the delimiter; joining the pieces with the delimiter gives back the input |
| KotlinText.SplitJoin | AsesorFinanciero/app/src/main/java/com/example/asesorfinanciero/MainActivity.kt:519-521 | `split` undoes `joinToString` when no part holds the delimiter |
| KotlinText.SplitCount | AsesorFinanciero/app/src/main/java/com/example/asesorfinanciero/MainActivity.kt:521 | `split` gives exactly one piece more than the text has delimiters |
| KotlinText.SplitJoinCommaSpace | AsesorFinanciero/app/src/main/java/com/example/asesorfinanciero/MainActivity.kt:395-399 | splitting a `joinToString(", ")` text at ',' gives the parts back, each later part with one space in front |
| KotlinText.SplitBlank | AsesorFinanciero/app/src/main/java/com/example/asesorfinanciero/MainActivity.kt:517-519 | every piece of a blank text is blank |
| KotlinText.IntToString | AsesorFinanciero/app/src/main/java/com/example/asesorfinanciero/MainActivity.kt:505 | non-empty; digits only, except a leading '-' exactly when the number is negative; no leading zero except for 0 itself |
| KotlinText.IntToStringPlain | AsesorFinanciero/app/src/main/java/com/example/asesorfinanciero/MainActivity.kt:505 | an integer's text has no whitespace at either end, no ',' and no ':' |
| KotlinText.ToIntOrNull | AsesorFinanciero/app/src/main/java/com/example/asesorfinanciero/MainActivity.kt:524 | a parsed value is within the 32-bit `Int` range, and the empty text never parses |
| KotlinText.ToIntOrNullGrammar | AsesorFinanciero/app/src/main/java/com/example/asesorfinanciero/MainActivity.kt:524 | a text parses exactly when it is an optional sign followed by one or more ASCII digits whose value fits a 32-bit `Int`, and the value is that numeral's value |
| KotlinText.IntToStringRoundTrip | AsesorFinanciero/app/src/main/java/com/example/asesorfinanciero/MainActivity.kt:505-524 | `toIntOrNull` reads back every `Int` that `toString` writes |
| OrderedMap.Get | AsesorFinanciero/app/src/main/java/com/example/asesorfinanciero/MainActivity.kt:28 | `m[k]` is null exactly when no entry has key `k`; a value it returns is stored under `k` |
| OrderedMap.Put | AsesorFinanciero/app/src/main/java/com/example/asesorfinanciero/MainActivity.kt:527 | afterwards `k` maps to `v`; a new key is appended at the end |
| OrderedMap.PutKeys | AsesorFinanciero/app/src/main/java/com/example/asesorfinanciero/MainActivity.kt:527 | a key already present keeps its place: `put` on it leaves the order of keys unchanged |
| OrderedMap.PutOther | AsesorFinanciero/app/src/main/java/com/example/asesorfinanciero/MainActivity.kt:527 | `put` changes nothing stored under another key |
| OrderedMap.PutDistinct | AsesorFinanciero/app/src/main/java/com/example/asesorfinanciero/MainActivity.kt:527 | `put` keeps the keys pairwise distinct |
| OrderedMap.ToMap | AsesorFinanciero/app/src/main/java/com/example/asesorfinanciero/MainActivity.kt:527 | `toMap` yields distinct keys, and every entry comes from the pairs |
| OrderedMap.ToMapLastWins | AsesorFinanciero/app/src/main/java/com/example/asesorfinanciero/MainActivity.kt:527 | under a repeated key, `toMap` keeps the value of the last pair with that key |
| OrderedMap.ToMapDistinct | AsesorFinanciero/app/src/main/java/com/example/asesorfinanciero/MainActivity.kt:527 | pairs whose keys are already distinct come out of `toMap` unchanged |
| Questionnaire.DefaultState | AsesorFinanciero/app/src/main/java/com/example/asesorfinanciero/MainActivity.kt:217-273 | the defaults: liquidity minimum 30, no products, an empty patrimony map, and every scored answer null |
| Questionnaire.TrimEach | AsesorFinanciero/app/src/main/java/com/example/asesorfinanciero/MainActivity.kt:398 | one trimmed item per piece, in order |
| Questionnaire.DropEmpty | AsesorFinanciero/app/src/main/java/com/example/asesorfinanciero/MainActivity.kt:399 | only non-empty items remain, each taken from the input; every non-empty text occurs as often as in the input; a list without empty items is unchanged |
| Questionnaire.DropEmptyAppend | AsesorFinanciero/app/src/main/java/com/example/asesorfinanciero/MainActivity.kt:399 | the kept items of `a + b` are those of `a` followed by those of `b`, so the input order is kept |
| Questionnaire.ParseProducts | AsesorFinanciero/app/src/main/java/com/example/asesorfinanciero/MainActivity.kt:398-399 | every parsed product is non-empty, trimmed and free of ',' |
| Questionnaire.ProductsText | AsesorFinanciero/app/src/main/java/com/example/asesorfinanciero/MainActivity.kt:395 | the shown text is "" for no products and otherwise starts with the first product |
| Questionnaire.BlankProducts | AsesorFinanciero/app/src/main/java/com/example/asesorfinanciero/MainActivity.kt:398-399 | a blank products text yields no products |
| Questionnaire.ProductsRoundTrip | AsesorFinanciero/app/src/main/java/com/example/asesorfinanciero/MainActivity.kt:395-399 | parsing the field's displayed text `joinToString(", ")` gives back the list it shows |
| Questionnaire.ProductsStable | AsesorFinanciero/app/src/main/java/com/example/asesorfinanciero/MainActivity.kt:395-399 | parsing, displaying and parsing again gives the same list as parsing once |
| Questionnaire.ParsePatrimonyItem | AsesorFinanciero/app/src/main/java/com/example/asesorfinanciero/MainActivity.kt:521-526 | an item yields an entry only with a non-blank trimmed key without ':' and an `Int` value |
| Questionnaire.ItemNeedsOneColon | AsesorFinanciero/app/src/main/java/com/example/asesorfinanciero/MainActivity.kt:521-523 | an item with no ':' or with two or more makes no entry |
| Questionnaire.ItemRule | AsesorFinanciero/app/src/main/java/com/example/asesorfinanciero/MainActivity.kt:521-525 | an item `k:t` with one ':' makes no entry when `k` is blank, and otherwise the entry of the trimmed `k` and the trimmed `t` read as an `Int`, or 0 |
| Questionnaire.ParseItems | AsesorFinanciero/app/src/main/java/com/example/asesorfinanciero/MainActivity.kt:519-526 | `mapNotNull` keeps at most one entry per item, each a well-formed entry |
| Questionnaire.ParseItemsMembers | AsesorFinanciero/app/src/main/java/com/example/asesorfinanciero/MainActivity.kt:519-526 | an entry is parsed exactly when some item makes it |
| Questionnaire.ParseItemsAppend | AsesorFinanciero/app/src/main/java/com/example/asesorfinanciero/MainActivity.kt:519-526 | the entries of `a + b` are those of `a` followed by those of `b`, so the items' order is kept |
| Questionnaire.ParsePatrimony | AsesorFinanciero/app/src/main/java/com/example/asesorfinanciero/MainActivity.kt:514-528 | the parsed map has distinct, non-blank, trimmed keys without ',' or ':'; blank text gives the empty map |
| Questionnaire.PatrimonyLastWins | AsesorFinanciero/app/src/main/java/com/example/asesorfinanciero/MainActivity.kt:519-528 | a key typed twice keeps the value of its last occurrence |
| Questionnaire.EntryText | AsesorFinanciero/app/src/main/java/com/example/asesorfinanciero/MainActivity.kt:505 | an entry's text is its key, then ':', then the value |
| Questionnaire.EntryTextColon | AsesorFinanciero/app/src/main/java/com/example/asesorfinanciero/MainActivity.kt:505 | an entry whose key has no ':' shows exactly one ':' |
| Questionnaire.EntryTexts | AsesorFinanciero/app/src/main/java/com/example/asesorfinanciero/MainActivity.kt:505 | one `key:value` text per entry, in the map's order |
| Questionnaire.PatrimonyText | AsesorFinanciero/app/src/main/java/com/example/asesorfinanciero/MainActivity.kt:502-506 | the shown text is "" exactly for the empty map, and otherwise starts with the first entry's text |
| Questionnaire.ParseEntryText | AsesorFinanciero/app/src/main/java/com/example/asesorfinanciero/MainActivity.kt:505-526 | an entry's `key:value` text, after any leading whitespace, parses back to that entry |
| Questionnaire.PatrimonyTextItems | AsesorFinanciero/app/src/main/java/com/example/asesorfinanciero/MainActivity.kt:505-527 | the items of the displayed text of a non-empty map parse to exactly the map's entries |
| Questionnaire.PatrimonyRoundTrip | AsesorFinanciero/app/src/main/java/com/example/asesorfinanciero/MainActivity.kt:502-528 | parsing the field's displayed text gives back the map it was built from |
| Questionnaire.PatrimonyStable | AsesorFinanciero/app/src/main/java/com/example/asesorfinanciero/MainActivity.kt:502-528 | parsing, displaying and parsing again gives the same map as parsing once |
| Scoring.HorizonPoints | AsesorFinanciero/app/src/main/java/com/example/asesorfinanciero/MainActivity.kt:53-60 | horizon points lie in [5, 40] |
| Scoring.IncomePoints | AsesorFinanciero/app/src/main/java/com/example/asesorfinanciero/MainActivity.kt:63-70 | income points lie in [5, 35] |
| Scoring.SavingsPoints | AsesorFinanciero/app/src/main/java/com/example/asesorfinanciero/MainActivity.kt:71-77 | savings points lie in [5, 30] |
| Scoring.EmergencyPoints | AsesorFinanciero/app/src/main/java/com/example/asesorfinanciero/MainActivity.kt:78-84 | emergency-fund points lie in [0, 20] |
| Scoring.ExperiencePoints | AsesorFinanciero/app/src/main/java/com/example/asesorfinanciero/MainActivity.kt:88-93 | experience points lie in [4, 25] |
| Scoring.DropPoints | AsesorFinanciero/app/src/main/java/com/example/asesorfinanciero/MainActivity.kt:97-103 | drop-tolerance points lie in [5, 35] |
| Scoring.ReactionPoints | AsesorFinanciero/app/src/main/java/com/example/asesorfinanciero/MainActivity.kt:104-109 | reaction points lie in [2, 30] |
| Scoring.ReturnPoints | AsesorFinanciero/app/src/main/java/com/example/asesorfinanciero/MainActivity.kt:110-115 | expected-return points lie in [5, 30] |
| Scoring.LiquidityPenalty | AsesorFinanciero/app/src/main/java/com/example/asesorfinanciero/MainActivity.kt:119-123 | the penalty lies in [-10, 0]; it is -10 exactly from 50 upwards, -5 exactly in [20, 50) and 0 exactly below 20 |
| Scoring.LiquidityPenaltyMonotone | AsesorFinanciero/app/src/main/java/com/example/asesorfinanciero/MainActivity.kt:119-123 | a higher liquidity requirement never gives a smaller penalty |
| Scoring.CurrencyPoints | AsesorFinanciero/app/src/main/java/com/example/asesorfinanciero/MainActivity.kt:124-129 | currency-risk points lie in [-2, 4] |
| Scoring.UnrecognisedAnswersScoreDefaults | AsesorFinanciero/app/src/main/java/com/example/asesorfinanciero/MainActivity.kt:53-129 | a null answer, or one outside the offered options, scores that question's fixed default |
| Scoring.Clamp | AsesorFinanciero/app/src/main/java/com/example/asesorfinanciero/MainActivity.kt:132 | `coerceIn` stays within the bounds, leaves a value inside them unchanged, and gives the lower bound below it and the upper bound above it |
| Scoring.Score | AsesorFinanciero/app/src/main/java/com/example/asesorfinanciero/MainActivity.kt:50-132 | the final score lies in [0, 100] |
| Scoring.RawScore | AsesorFinanciero/app/src/main/java/com/example/asesorfinanciero/MainActivity.kt:50-130 | the weighted sum equals the integer reference `ScaledScore` (weights 12, 5, 6, 6, 9) in sixtieths |
| Scoring.ScoreBounds | AsesorFinanciero/app/src/main/java/com/example/asesorfinanciero/MainActivity.kt:50-132 | every state scores between 98/60 and 1661/60, so the clamp never changes the sum |
| Scoring.ProfileFor | AsesorFinanciero/app/src/main/java/com/example/asesorfinanciero/MainActivity.kt:133-138 | each of the four labels is given exactly on its band: below 20, [20, 40), [40, 60), 60 and above |
| Scoring.Profile | AsesorFinanciero/app/src/main/java/com/example/asesorfinanciero/MainActivity.kt:132-138 | a state's profile is one of the four labels |
| Scoring.OnlyLowerProfilesReachable | AsesorFinanciero/app/src/main/java/com/example/asesorfinanciero/MainActivity.kt:133-138 | only "Conservador" and "Moderado" are reachable; "Moderado" exactly when the score is at least 1200/60 |
| Scoring.ScoreDependsOnScoredAnswersOnly | AsesorFinanciero/app/src/main/java/com/example/asesorfinanciero/MainActivity.kt:46-130 | states that agree on the ten scored answers get the same score and profile |
| Scoring.FreeTextEditsKeepProfile | AsesorFinanciero/app/src/main/java/com/example/asesorfinanciero/MainActivity.kt:395-399 | editing the products field or the patrimony field never changes the profile |
| Scoring.DefaultStateProfile | AsesorFinanciero/app/src/main/java/com/example/asesorfinanciero/MainActivity.kt:217-273 | the default liquidity minimum of 30 costs the penalty -5; the default answers score 502/60 and give "Conservador" |
| Scoring.BoldestAnswersProfile | AsesorFinanciero/app/src/main/java/com/example/asesorfinanciero/MainActivity.kt:50-138 | the boldest answers reach the maximum 1661/60 and give only "Moderado" |
| Scoring.ThresholdScoreReachable | AsesorFinanciero/app/src/main/java/com/example/asesorfinanciero/MainActivity.kt:133-138 | some answers score exactly 20, which takes the higher label "Moderado" |
| Portfolio.ConservadorAllocationValid | AsesorFinanciero/app/src/main/java/com/example/asesorfinanciero/MainActivity.kt:148-160 | the "Conservador" allocation has distinct asset classes and positive shares adding up to 100 |
| Portfolio.ModeradoAllocationValid | AsesorFinanciero/app/src/main/java/com/example/asesorfinanciero/MainActivity.kt:162-174 | the same for the "Moderado" allocation |
| Portfolio.BalanceadoAllocationValid | AsesorFinanciero/app/src/main/java/com/example/asesorfinanciero/MainActivity.kt:176-188 | the same for the "Balanceado" allocation |
| Portfolio.AgresivoAllocationValid | AsesorFinanciero/app/src/main/java/com/example/asesorfinanciero/MainActivity.kt:190-201 | the same for the "Arriesgado / Agresivo" allocation |
| Portfolio.MetaMixtoAllocationValid | AsesorFinanciero/app/src/main/java/com/example/asesorfinanciero/MainActivity.kt:203-212 | the same for the "Meta-Mixto" allocation |
| Portfolio.SuggestionForProfile | AsesorFinanciero/app/src/main/java/com/example/asesorfinanciero/MainActivity.kt:146-214 | each of the four labels gets a template carrying that label, and any other text gets "Meta-Mixto"; every allocation is valid |
| Portfolio.ScoredProfileHasTemplate | AsesorFinanciero/app/src/main/java/com/example/asesorfinanciero/MainActivity.kt:300-301 | the label the scorer gives always has its own template, never the catch-all |
| Advisor.AdvisorViewModel.constructor | AsesorFinanciero/app/src/main/java/com/example/asesorfinanciero/MainActivity.kt:37 | a new view model holds the default answers |
| Advisor.AdvisorViewModel.UpdateState | AsesorFinanciero/app/src/main/java/com/example/asesorfinanciero/MainActivity.kt:41-43 | the new state is the transform applied to the old one |
| Advisor.AdvisorViewModel.CalculateProfile | AsesorFinanciero/app/src/main/java/com/example/asesorfinanciero/MainActivity.kt:46-144 | the accumulated score equals the score of the state, lies in [0, 100], and its label is "Conservador" or "Moderado" |
| Advisor.Evaluate | AsesorFinanciero/app/src/main/java/com/example/asesorfinanciero/MainActivity.kt:300-301 | the result screen shows the state's profile with a template for that very label and a valid allocation |
| Counter.TruncHalf | MyApplication/app/src/main/java/com/example/myapplication/MainActivity.kt:83 | Kotlin's `/ 2`: the remainder is 0 or 1 for non-negative numbers and 0 or -1 for negative ones |
| Counter.Next | MyApplication/app/src/main/java/com/example/myapplication/MainActivity.kt:77-89 | "+1" adds one exactly below 100 and otherwise leaves the number alone; "/2" never increases a non-negative number; every press keeps [0, 100] |
| Counter.RunStaysInRange | MyApplication/app/src/main/java/com/example/myapplication/MainActivity.kt:55-89 | from the start value, no sequence of presses leaves [0, 100] |
| Counter.NumeroUnico.constructor | MyApplication/app/src/main/java/com/example/myapplication/MainActivity.kt:55 | the counter starts at 0 |
| Counter.NumeroUnico.PlusOne | MyApplication/app/src/main/java/com/example/myapplication/MainActivity.kt:77 | the new number is the "+1" step of the old one, and [0, 100] is kept |
| Counter.NumeroUnico.Halve | MyApplication/app/src/main/java/com/example/myapplication/MainActivity.kt:83 | the new number is the "/2" step of the old one, and [0, 100] is kept |
| Counter.NumeroUnico.Generate | MyApplication/app/src/main/java/com/example/myapplication/MainActivity.kt:89 | the new number is the draw, in [0, 99] |
| Comparison.Verdict | MyApplication/app/src/main/java/com/example/myapplication/MainActivity.kt:137-141 | the sentence opens with "A", "B" or "equal" exactly when A > B, B > A or A == B, and ends with the larger number in brackets |
| Comparison.ComparacionNumeros.constructor | MyApplication/app/src/main/java/com/example/myapplication/MainActivity.kt:100-102 | both numbers start at 0 and there is no verdict yet |
| Comparison.ComparacionNumeros.Generate | MyApplication/app/src/main/java/com/example/myapplication/MainActivity.kt:134-141 | the numbers become the two draws and the verdict is computed from them |
| Baloto.Add | MyApplication/app/src/main/java/com/example/myapplication/MainActivity.kt:222 | `add` on the set: the value is added, a duplicate leaves the set unchanged, and there are no repeats |
| Baloto.Sorted | MyApplication/app/src/main/java/com/example/myapplication/MainActivity.kt:224 | `sorted()` gives a permutation of the list in non-decreasing order |
| Baloto.InsertKeepsOrder | MyApplication/app/src/main/java/com/example/myapplication/MainActivity.kt:224 | inserting into an ordered list keeps it ordered |
| Baloto.SortedDistinctIncreasing | MyApplication/app/src/main/java/com/example/myapplication/MainActivity.kt:224 | sorting a list without repeats gives a strictly ascending list |
| Baloto.DrawYellowBalls | MyApplication/app/src/main/java/com/example/myapplication/MainActivity.kt:220-224 | exactly five yellow balls, strictly ascending, each in 1..43; they are the distinct values drawn, and the loop stops at the first draw that completes five |
| Baloto.BalotoTicket.constructor | MyApplication/app/src/main/java/com/example/myapplication/MainActivity.kt:162-163 | the ticket starts with no yellow balls and red ball 0 |
| Baloto.BalotoTicket.Generate | MyApplication/app/src/main/java/com/example/myapplication/MainActivity.kt:218-228 | five ascending yellow balls in 1..43 taken from the draws, and the red ball is the red draw |

## Left out

- User interface: the Compose screens, the navigation between the questionnaire and the result, and the theme files are not modelled.
- Reactivity: the view model's `StateFlow` and Compose's `remember` state are not modelled. Each becomes a plain class field.
- Randomness: every `Random.nextInt` result is a parameter. The generator's range (0..99, 1..43, 1..16) is a precondition.
- Baloto.DrawYellowBalls: the loop repeats until five distinct values have come out, and a random generator eventually gives them. The model takes a finite list of draws that holds at least five distinct values, so it does not capture a run that never ends.
- Advisor.AdvisorViewModel.CalculateProfile: returns the final score instead of the explanation text. The text's `roundToInt` rendering is not modelled.
- Scoring.Score: uses exact arithmetic, not IEEE doubles, so its label can differ from the app's only at a score of exactly 20. For example, horizon "5-10", income "12-20M", savings unanswered, emergency fund ">6", experience "avanzado", maximum drop "-20%", reaction "compras", expected return "10%", liquidity minimum below 20 and currency risk "baja" score exactly 1200/60 = 20, which the model labels "Moderado"; in doubles the app's sum is 19.999999999999996, so the app shows "Conservador".
- The slider that sets the minimum liquidity (rounding a float in [0, 100]) is not modelled. `LiquidityPenalty` is defined for every integer.
- KotlinText.ToIntOrNull: accepts only ASCII digits; Kotlin also accepts other Unicode decimal digits.
- The answers that are collected but never scored are opaque optional strings, and they are not validated.
- The patrimony field's local text state, which can differ from the parsed map while the user is typing, is not modelled; only the parse on each edit and the text shown for a given map are.
