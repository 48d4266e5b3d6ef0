# Heads-up Hold'em simulator in Dafny

This project models the core of a heads-up (two-player) No-Limit Hold'em research simulator and proves properties of that model. The simulator plays strategies against each other under "burn knobs" that distort their play, and it measures the result. The model covers these parts:

- **Cards.** The integer card ids in [0, 52) with rank `id % 13` and suit `id / 13`. The three string codecs built on them.
- **Hand evaluator.** The seven-card evaluator packs a category and up to five rank fields into one integer score.
- **Match engine.** The betting and chip-accounting state machine, the dealing, the showdown, and the match loop.
- **Equity.** The Monte Carlo equity tally.
- **Slumbot parser.** The parser for Slumbot action strings and the rule that translates our actions into them.
- **Preflop tables.** Three incompatible readers of the binary "GTOB" preflop tables, and the 169-hand label and index mapping.
- **Turn simulator.** It plays a hand up to the turn to collect training situations.
- **Burn knobs.** The burn-state record and the burn transforms.
- **Metrics.** Aggregation of match results.
- **Strategies.** The decision tables of the heuristic, random, GTO-approximation, RMBALL and robust-mashup strategies.

Randomness is always an input:

- a deck permutation (given as the function `shuffle` of the seed);
- a draw in [0, 1);
- a sequence of sampled cards;
- the weights `random.random()` would have produced.

Equity estimates enter the strategies as plain real parameters. The match engine counts chips as integers in quarter-chip units (the default blinds 0.5/1 and stack 200 are 2/4/800 units). Everywhere else, chips and probabilities are exact reals.

| Dafny file | module | models |
|---|---|---|
| wrappers.dfy | Wrappers | `Option` and `Result` |
| dicts.dfy | Dicts | Python dicts as sequences of key/value pairs in insertion order |
| cards.dfy | Cards | `card_to_int`/`int_to_card`, `card_str_to_int`, `create_deck`/`deal_cards` |
| evaluator.dfy | Evaluator | `evaluate_hand`: a reference value `Evaluate` and the loop methods proved equal to it |
| evaluator_props.dfy | EvaluatorProps | what the score means: category conditions, tie-break shapes, order independence |
| evaluator_examples.dfy | EvaluatorExamples | the three hands of the evaluator test script |
| equity.dfy | Equity | `EquityCalculator.calculate_equity` |
| match_engine.dfy | MatchEngine | `FastState`, `FastPokerEngine`, `MatchEngine` (classes over an immutable `Table` view) |
| slumbot.dfy | Slumbot | `ActionState` and the action translation of the Slumbot runner |
| lut_bytes.dfy | LutBytes | little-endian reads and the dict a sequence of records builds |
| gtob_table.dfy | GtobTable | `GTOBTable` (12-byte header, 5-byte records over 255) |
| debug_gto.dfy | DebugGto | `load_gtob_preflop` (8-byte records over 65535) and the hash-collision check |
| rmball.dfy | Rmball | `CardUtils`, the v1 table reader (8-byte records normalised by their total), the RMBALL decision code |
| robust_mashup.dfy | RobustMashup | `EMRangeModel` and `RobustMashupNoBinaryStrategy` |
| gto_approx.dfy | GtoApprox | `GTOApproxBot` |
| heuristic.dfy | Heuristic | `HeuristicBot` |
| random_bot.dfy | RandomBot | `RandomBot` |
| strategy_base.dfy | StrategyBase | `Strategy.get_name`, `apply_burn_state`, the shared decision records |
| burn_knobs.dfy | BurnKnobs | `BurnState`, `generate_burn_states`, `apply_ev_floor`, the edge cases of `apply_action_temperature` |
| metrics.dfy | Metrics | `MetricsCalculator` |
| turn_simulator.dfy | TurnSimulator | `_sample_action` and `simulate_hand_until_turn` of the training-data script |

## Where the code and the design description differ

The model follows the code in each of these cases.

- **Deals depend on earlier hands.** The engine is described as replaying a hand from `(base_seed, hand_id)`. The code instead reshuffles the engine's own deck list in place (src/match_engine.py:107-108), so a hand's deal depends on every hand the engine played before. `MatchEngine.ReshuffleDependsOnHistory` exhibits two prior decks that the same seed permutation turns into different deals.
- **All-zero distributions.** A distribution whose probabilities are all zero falls back to its most probable (first) action, not to Call. Only an empty distribution becomes Call.
- **The pot safeguard.** The safeguard is a literal `pot > 400` chips, not a multiple of the stack. It ends only the betting round; the hand then moves on to the next street.
- **The evaluator's precondition.** Seven distinct cards in [0, 52) comes from the docstring; the code does not check it.
- **Table read failures.** They differ between the three readers: `GTOBTable` fails (an `Err`), `load_gtob_preflop` lets the error escape (an `Err` naming it), and only RMBALL's reader degrades to an empty table.

## Model

| member | source | states |
|---|---|---|
| Cards.CardToInt | src/match_engine.py:24-33 | a token decodes exactly when its first character is a rank symbol and its second a suit symbol; the id carries those symbols' positions as rank and suit; anything else is a lookup error |
| Cards.IntToCard | src/match_engine.py:35-36 | every id is spelled as a two-character token, rank symbol first |
| Cards.IntToCardSpells | src/match_engine.py:29-36 | every id spells a two-character token whose characters name the id's rank and suit |
| Cards.TokenRoundTrip | src/match_engine.py:24-36 | decoding and re-encoding any of the 52 rank-suit tokens gives the token back |
| Cards.IdRoundTrip | src/match_engine.py:24-36 | encoding and decoding any id in [0, 52) gives the id back |
| Cards.TokenDecodes | src/match_engine.py:32-33 | the token of rank r and suit s decodes to `r + 13 * s` |
| Cards.CardStrToInt | src/strategies/equity_calculator.py:10-37 | the equity module's decoder accepts exactly the same tokens, with a distinct error for a missing character, a bad rank and a bad suit |
| Cards.DecodersAgree | src/strategies/equity_calculator.py:18-37 | the two decoders accept the same strings and return the same id |
| Cards.CreateDeck | scripts/run_NN.py:24-27 | the string deck has 52 entries |
| Cards.CreateDeckTokens | scripts/run_NN.py:24-27 | entry i is a valid token of rank i / 4 and suit i % 4 (rank-major order) |
| Cards.CreateDeckIsFullDeck | scripts/run_NN.py:24-27 | the 52 entries are distinct and every valid token appears |
| Cards.DealCards | scripts/run_NN.py:29-30 | the two parts concatenate to the deck and the dealt part is its first min(n, size) cards |
| Evaluator.EvaluateHand | src/fast_evaluator.py:33-199 | for seven distinct cards the returned integer is the packed score of the reference category-and-ranks value |
| Evaluator.FindFlushSuit | src/fast_evaluator.py:54-60 | returns -1 exactly when no suit holds five cards, otherwise the suit that does |
| Evaluator.SuitUnique | src/fast_evaluator.py:54-60 | among seven cards at most one suit can hold five or more |
| Evaluator.ScoreFlush | src/fast_evaluator.py:62-91 | with a flush suit the returned score is that of the reference value |
| Evaluator.FlushCases | src/fast_evaluator.py:62-91 | with a flush suit the value is a straight flush at the flush ranks' best window, otherwise a flush of the five highest flush ranks |
| Evaluator.FlushRanksSorted | src/fast_evaluator.py:64-65 | sorting the flush ranks in descending order gives the flush-suit rank set in strictly descending order |
| Evaluator.SortedRanks | src/fast_evaluator.py:64-65 | the descending sort of distinct ranks is their set listed high to low, with nothing lost |
| Evaluator.MaskOf | src/fast_evaluator.py:95-97 | the rank mask holds exactly the ranks in the list |
| Evaluator.FindStraight | src/fast_evaluator.py:100-108 | returns the high rank the window scan finds (Ace-high down to 6-high, then the wheel as 3), -1 when no window is complete |
| Evaluator.BuildWindow | src/fast_evaluator.py:100-102 | the inner loop builds exactly the five ranks of the window ending at `i` |
| Evaluator.ScoreNoFlush | src/fast_evaluator.py:93-199 | without a flush suit the returned score is that of the reference value |
| Evaluator.NoFlushCases | src/fast_evaluator.py:93-129 | without a flush the value is a straight at the best window, else the multiplicity category of the rank counts |
| Evaluator.CountRanks | src/fast_evaluator.py:111-113 | entry r of the counts is the number of cards of rank r |
| Evaluator.RankCountAtMost4 | src/fast_evaluator.py:111-113 | distinct cards hold at most four of any rank |
| Evaluator.GroupRanks | src/fast_evaluator.py:115-129 | the quads, trips, pairs and singles lists are exactly the ranks with count 4, 3, 2 and 1, each high to low |
| Evaluator.ScorePaired | src/fast_evaluator.py:131-199 | the multiplicity cascade returns the score of the reference multiplicity value |
| Evaluator.ScoreQuads | src/fast_evaluator.py:131-138 | with a four of a kind the score is that of the reference value |
| Evaluator.ScoreFullHouse | src/fast_evaluator.py:140-154 | with a trip and a second trip or pair the score is that of the reference value |
| Evaluator.ScoreLowPaired | src/fast_evaluator.py:156-199 | below a full house the score is that of the reference value |
| Evaluator.ScorePairs | src/fast_evaluator.py:166-199 | without quads or trips the score is that of the reference value |
| Evaluator.ScoreTwoPair | src/fast_evaluator.py:166-175 | with two or more pairs the score is that of the reference value |
| Evaluator.ScoreOnePair | src/fast_evaluator.py:177-186 | with exactly one pair the score is that of the reference value |
| Evaluator.ScoreHighCard | src/fast_evaluator.py:188-199 | with no repeated rank the score is that of the reference value |
| Evaluator.CollectKickers | src/fast_evaluator.py:156-164 | returns the first `limit` present ranks outside the excluded set, high to low |
| Evaluator.PackHighCards | src/fast_evaluator.py:189-199 | the high-card loops pack the five highest present ranks into the kicker fields |
| Evaluator.PackFields | src/fast_evaluator.py:196-199 | ORs the rank fields in at bits 16, 12, 8, 4, 0 on top of the base |
| Evaluator.ScoreOrder | src/fast_evaluator.py:36-47 | one score is below another exactly when its (category, ranks) digits are lexicographically smaller, and equal exactly when the digits are equal |
| Evaluator.ScoreBounds | src/fast_evaluator.py:36-47 | a well-formed value scores in [0, 9 << 20) and its score shifted right by 20 is its category |
| Evaluator.ValueOrder | src/fast_evaluator.py:36-47 | base-16 digit strings of equal length compare as numbers exactly as they compare lexicographically |
| Evaluator.SeqSetCard | src/fast_evaluator.py:50-51 | the set of a card list has no more elements than the list |
| EvaluatorProps.EvaluateRanges | src/fast_evaluator.py:36-47 | every seven-card value is well formed (category 0..8, ranks 0..12), scores in [0, 9 << 20), and its score's high bits are its category |
| EvaluatorProps.FlushCategories | src/fast_evaluator.py:54-108 | category 8 or 5 exactly when some suit has five cards; 8 exactly when that suit's ranks hold a straight; 4 exactly when no suit has five cards and the ranks hold a straight |
| EvaluatorProps.FlushOnlyFromSuit | src/fast_evaluator.py:62-91 | a plain flush needs a flush suit, and a flush suit always decides the value |
| EvaluatorProps.FlushPacking | src/fast_evaluator.py:86-91 | a plain flush carries five strictly descending ranks of the flush suit, and every flush rank left out is below the fifth |
| EvaluatorProps.StraightHighSpec | src/fast_evaluator.py:100-108 | the scan finds nothing exactly when no window is complete, and finds h exactly when h is the highest complete window |
| EvaluatorProps.WheelIsLowest | src/fast_evaluator.py:82-84 | within one category the wheel (high 3) scores below every other straight |
| EvaluatorProps.OfAKindCategory | src/fast_evaluator.py:131-199 | the multiplicity category is 7, 6, 3, 2, 1 or 0 exactly under the cascade's conditions on the numbers of quads, trips and pairs |
| EvaluatorProps.QuadsShape | src/fast_evaluator.py:131-138 | quads carry the highest four-of-a-kind rank and then the highest other present rank |
| EvaluatorProps.FullHouseShape | src/fast_evaluator.py:140-154 | a full house carries the highest trip rank, then the higher of a second trip and the highest pair |
| EvaluatorProps.FullHouseGuardUnreachable | src/fast_evaluator.py:150-152 | with two trips among seven cards no pair exists, so the guard on the pair list never matters |
| EvaluatorProps.TripsShape | src/fast_evaluator.py:156-164 | trips carry the trip rank and the two highest other present ranks, strictly descending |
| EvaluatorProps.TwoPairShape | src/fast_evaluator.py:166-175 | two pair carries the two highest pair ranks and the highest other present rank |
| EvaluatorProps.OnePairShape | src/fast_evaluator.py:177-186 | one pair carries the pair rank and the three highest other present ranks |
| EvaluatorProps.HighCardShape | src/fast_evaluator.py:188-199 | high card carries the five highest present ranks, strictly descending |
| EvaluatorProps.KickersSpec | src/fast_evaluator.py:156-199 | the kickers are the top n present ranks outside the excluded set, strictly descending, and nothing above the last one is skipped |
| EvaluatorProps.OrderIndependent | src/fast_evaluator.py:50-113 | two orderings of the same seven cards get the same value |
| EvaluatorExamples.RoyalFlushExample | scripts/verify_engine.py:15-18 | the royal flush hand of the test scores 0x8C0000: category 8, Ace high |
| EvaluatorExamples.QuadsExample | scripts/verify_engine.py:21-23 | four aces with a four kicker score 0x7C2000 |
| EvaluatorExamples.FullHouseExample | scripts/verify_engine.py:26-28 | aces full of kings score 0x6CB000 |
| EvaluatorExamples.ExampleOrder | scripts/verify_engine.py:16-33 | the three test hands have categories 8, 7, 6 and strictly decreasing scores |
| Equity.DecodeTokens | src/strategies/equity_calculator.py:55-58 | a card list converts exactly when every token decodes, element by element |
| Equity.TokensConverted | src/strategies/equity_calculator.py:55-58 | string cards are converted to the ids the decoder gives |
| Equity.IdsUnchanged | src/strategies/equity_calculator.py:55-58 | integer cards are used unchanged |
| Equity.PoolFacts | src/strategies/equity_calculator.py:63-67 | the draw pool holds exactly the ids not visible, without repeats |
| Equity.HiddenDrawn | src/strategies/equity_calculator.py:76-77 | no sampled card is one of the visible cards |
| Equity.SampleHands | src/strategies/equity_calculator.py:69-85 | every sample completes a five-card board and two seven-card hands of distinct cards, as the evaluator requires |
| Equity.Tally | src/strategies/equity_calculator.py:71-90 | wins plus splits never exceed the number of samples |
| Equity.TallyStep | src/strategies/equity_calculator.py:71-90 | one more iteration adds exactly that sample's win, split or loss to the tally |
| Equity.CountOutcomes | src/strategies/equity_calculator.py:60-90 | the counting loop yields the tally of the samples |
| Equity.PlayOut | src/strategies/equity_calculator.py:79-90 | one iteration scores both hands and compares them |
| Equity.ShareBounds | src/strategies/equity_calculator.py:92 | (wins + splits / 2) / n lies in [0, 1]; it is 1 exactly when every sample wins and 0 exactly when none wins or splits |
| Equity.RatioBounds | src/strategies/equity_calculator.py:92 | a count over a positive total lies in [0, 1], at 1 exactly when it is the total and 0 exactly when it is 0 |
| Equity.EquityInUnit | src/strategies/equity_calculator.py:49-92 | the call fails exactly when a card does not decode or iterations is 0 (the division by zero); otherwise it returns a share in [0, 1] |
| Equity.CalculateEquity | src/strategies/equity_calculator.py:49-92 | the method returns the equity the reference definition gives |
| MatchEngine.ResetFacts | src/match_engine.py:55-80 | after a reset both players hold stack + bet = starting stack, the button has posted the small blind and acts, the pot is the blinds, and the street, board and flags are fresh |
| MatchEngine.FastState.constructor | src/match_engine.py:44-53 | a fresh state has full stacks, an empty pot, board and hole cards, and cleared flags |
| MatchEngine.FastState.Reset | src/match_engine.py:55-80 | the new state is the reset table |
| MatchEngine.FoldPaysPot | src/match_engine.py:270-282 | a fold (allowed even at zero to call) pays the whole pot to the opponent, leaves the pot and bets as they were, and ends the hand |
| MatchEngine.AllInCallRefunds | src/match_engine.py:284-307 | a call larger than the stack commits the stack, refunds the excess from the opponent's bet and the pot to the opponent, and leaves the bets equal |
| MatchEngine.RaiseRule | src/match_engine.py:309-343 | a raise commits min(to_call + pot, stack); if that is not above to_call it acts exactly as a call, otherwise the raiser ends strictly ahead |
| MatchEngine.CommitFacts | src/match_engine.py:336-343 | committing moves the amount from the stack into the bet and the pot |
| MatchEngine.RefundFacts | src/match_engine.py:293-301 | the refund moves the excess from the opponent's bet and the pot back to the opponent's stack |
| MatchEngine.ActConserves | src/match_engine.py:270-343 | every action keeps stacks + pot equal to twice the starting stack, every amount non-negative and even, and the bets covered by the pot |
| MatchEngine.RaiseAmountEven | src/match_engine.py:315-319 | the raise amount is within the stack and a whole number of half chips |
| MatchEngine.FastState.Execute | src/match_engine.py:270-343 | the new state is the action applied to the old one |
| MatchEngine.FastState.Put | src/match_engine.py:336-343 | the state becomes the commit of the amount |
| MatchEngine.FastState.ExecuteCall | src/match_engine.py:284-307 | the state becomes the call applied to the old one |
| MatchEngine.FastState.ExecuteRaise | src/match_engine.py:309-343 | the state becomes the raise applied to the old one |
| MatchEngine.FastState.PayBack | src/match_engine.py:293-301 | the state becomes the refund of the excess |
| MatchEngine.MaxIndex | src/match_engine.py:264-267 | the fallback is the first action with the largest probability |
| MatchEngine.ChooseActionSpec | src/match_engine.py:251-267 | the chosen action is the first whose running sum reaches r; if none does, the most probable one |
| MatchEngine.EmptyMeansCall | src/match_engine.py:251-255 | an empty distribution becomes Call |
| MatchEngine.SelectAction | src/match_engine.py:256-267 | the sampling loop returns the action the reference choice gives |
| MatchEngine.TokensSpell | src/match_engine.py:231-233 | the strategy sees the cards as their two-character tokens, in order |
| MatchEngine.Features | src/match_engine.py:242-248 | the strategy is told "preflop" on street 0 and "flop" on every later street, the chips to call, and all three actions as valid |
| MatchEngine.RoundShape | src/match_engine.py:174-353 | a betting round leaves chips non-negative and whole, keeps the street and cards, and ends the hand only by a fold; unless the hand ended, it stops with equal bets or a pot above 400 |
| MatchEngine.RoundStopsAtEqualBets | src/match_engine.py:196-210 | after the first action, any non-fold that leaves the bets equal (a single check or a preflop limp) closes the round |
| MatchEngine.RoundConserves | src/match_engine.py:174-353 | a betting round keeps the chip total and the solvency invariant |
| MatchEngine.FastPokerEngine.RunStreet | src/match_engine.py:174-353 | the loop leaves the state and the action counter the reference round gives |
| MatchEngine.FastPokerEngine.TakeTurn | src/match_engine.py:219-351 | one turn leaves the state and counter the reference turn gives |
| MatchEngine.FastPokerEngine.SelectFor | src/match_engine.py:231-267 | the strategy call and sampling return the action of the reference decision |
| MatchEngine.PermutedUnique | src/match_engine.py:107-108 | applying an index permutation to a deck of 52 distinct cards gives 52 distinct cards |
| MatchEngine.FreshDeckIsDeck | src/match_engine.py:88 | the engine's initial deck `0..51` is a deck and an index permutation |
| MatchEngine.ReshuffleDependsOnHistory | src/match_engine.py:107-108 | the same seed permutation yields different deals from different previous decks |
| MatchEngine.FastState.DealHoleCards | src/match_engine.py:109-110 | the hole cards become deck[0..1] and deck[2..3] |
| MatchEngine.StartTable | src/match_engine.py:103-112 | a freshly dealt hand is live, dealt from the deck and solvent |
| MatchEngine.StartAfterReset | src/match_engine.py:103-110 | a reset followed by dealing the hole cards gives the starting table |
| MatchEngine.FastPokerEngine.StartHand | src/match_engine.py:103-112 | the deck is the previous deck shuffled by the seed `base_seed + hand_id`, and the state is the starting table |
| MatchEngine.FastPokerEngine.StreetPass | src/match_engine.py:121-171 | one pass of the street loop either completes the hand as the reference does, or leaves it live on a later street |
| MatchEngine.FastPokerEngine.FinishStreet | src/match_engine.py:124-171 | after a round the hand ends by fold or showdown as the reference does, or advances to the next street |
| MatchEngine.NextStreet | src/match_engine.py:150-171 | the next street deals the next 3, 1 or 1 cards, zeroes the bets and lets the non-button act; a live hand stays live |
| MatchEngine.FastState.AdvanceStreet | src/match_engine.py:150-171 | the state and deck index become those of the next street |
| MatchEngine.DealPositions | src/match_engine.py:109-164 | hole cards are deck[0..1] and deck[2..3], the flop deck[4..6], the turn deck[7] and the river deck[8] |
| MatchEngine.DealtHands | src/match_engine.py:131-134 | at showdown both seven-card hands consist of distinct cards |
| MatchEngine.ShowdownPays | src/match_engine.py:131-148 | the showdown pays out according to the two evaluator scores |
| MatchEngine.PayoutConserves | src/match_engine.py:137-147 | the higher score takes the pot and a tie splits it exactly; the pot is not zeroed and chips stay conserved |
| MatchEngine.FastState.ShowdownHands | src/match_engine.py:131-148 | the state becomes the showdown result |
| MatchEngine.FastState.Settle | src/match_engine.py:137-147 | the state becomes the payout for the two scores |
| MatchEngine.StreetsStep | src/match_engine.py:121-171 | a street either ends the hand, or showdowns on the river, or advances |
| MatchEngine.StreetsSettle | src/match_engine.py:121-171 | the street loop always completes the hand, with the two stacks summing to twice the starting stack |
| MatchEngine.HandZeroSum | src/match_engine.py:94-171 | a whole hand ends complete with non-negative stacks whose profits sum to zero |
| MatchEngine.FastPokerEngine.constructor | src/match_engine.py:83-92 | the engine starts with the given or default configuration, the deck `0..51` and base seed 42 |
| MatchEngine.FastPokerEngine.PlayStreets | src/match_engine.py:114-171 | the loop from the starting table leaves the state of the reference hand |
| MatchEngine.FastPokerEngine.PlayHand | src/match_engine.py:94-171 | one hand reshuffles the deck by seed `base_seed + hand_id` and leaves the state of the reference hand |
| MatchEngine.MatchHand | src/match_engine.py:371-383 | every hand of a match completes with whole chips |
| MatchEngine.ReportsAt | src/match_engine.py:385-389 | result i is hand i with its profit and no recorded actions |
| MatchEngine.Match.constructor | src/match_engine.py:359-363 | the base seed is `seed` only when it is given and non-zero, otherwise 42 |
| MatchEngine.Match.PlayNext | src/match_engine.py:371-389 | playing hand i advances the deck as the reshuffle dictates and returns stack 0 minus 200 chips |
| MatchEngine.Match.RunMatch | src/match_engine.py:365-391 | the match returns one result per hand, result i being hand i's profit for player 0 against the fixed 200-chip baseline, with the button alternating when `switch` is set |
| Slumbot.ActionState.constructor | scripts/run_slumbot.py:26-30 | a new state is street 0, pot 150, wagers [50, 100], player 0 to act |
| Slumbot.ToCallOf | scripts/run_slumbot.py:73-74 | to_call is max(0, wagers[1] - wagers[0]) |
| Slumbot.ActionState.Apply | scripts/run_slumbot.py:32-71 | the parse leaves the state and result of the reference run, an unknown character giving a parse error |
| Slumbot.ActionState.Step | scripts/run_slumbot.py:37-69 | one pass of the loop body updates the state and index as the reference body does |
| Slumbot.RunStep | scripts/run_slumbot.py:37-71 | the run either returns what the body returns or continues from where the body left off |
| Slumbot.BodyAdvances | scripts/run_slumbot.py:37-67 | on a known character the body advances the index or returns |
| Slumbot.DigitsEnd | scripts/run_slumbot.py:60-62 | the digit scan stops at the first non-digit or the end of the string |
| Slumbot.DecimalString | scripts/run_slumbot.py:137 | the printed amount is a non-empty string of digits |
| Slumbot.EmptyIsNoOp | scripts/run_slumbot.py:33-34 | an empty string returns None and changes nothing |
| Slumbot.SlashStep | scripts/run_slumbot.py:40-44 | "/" moves to the next street and zeroes both wagers without passing the turn |
| Slumbot.CallEqualizes | scripts/run_slumbot.py:49-54 | "c" raises the lower wager to the higher and adds exactly the difference to the pot |
| Slumbot.BetSetsWager | scripts/run_slumbot.py:59-67 | "b<n>" sets the actor's wager to n and adds n minus the old wager to the pot |
| Slumbot.FoldEndsParse | scripts/run_slumbot.py:56-57 | "f" is terminal at once, ignoring the rest |
| Slumbot.MovesToggle | scripts/run_slumbot.py:69 | each "k", "c" or "b" move passes the turn |
| Slumbot.PlainStringContinues | scripts/run_slumbot.py:37-71 | a string of checks, calls and street marks is consumed and returns "continue" |
| Slumbot.RunKeepsSane | scripts/run_slumbot.py:37-71 | parsing keeps the pot and wagers non-negative and the actor 0 or 1 |
| Slumbot.UnknownCharCycles | scripts/run_slumbot.py:37-69 | on a character outside "/kcfb" the body does not advance the index and only passes the turn |
| Slumbot.UnknownCharNeverEnds | scripts/run_slumbot.py:32-71 | on "x" any number of passes of the source loop stays at index 0, so the loop never ends |
| Slumbot.DecimalRoundTrip | scripts/run_slumbot.py:63 | the amount printed into a bet token parses back to itself |
| Slumbot.TranslateCases | scripts/run_slumbot.py:133-139 | fold with chips to call sends "f", a free fold becomes "k", call sends "c" or "k", raise sends a "b" token |
| Slumbot.RaiseReplays | scripts/run_slumbot.py:136-137 | parsing our own raise token sets our wager to the highest wager plus 200 and continues |
| Metrics.CalculateWinrate | src/metrics.py:66-85 | 0 for no results, otherwise 100 times the mean profit |
| Metrics.WinrateBetween | src/metrics.py:66-85 | the winrate lies between 100 times the smallest and the largest possible profit |
| Metrics.ExploitabilitySimple | src/metrics.py:105-126 | 0 for a non-negative winrate, otherwise min(1, abs(w) / max), so in [0, 1] for a positive max |
| Metrics.ExploitabilityMonotone | src/metrics.py:121-126 | exploitability never grows with the winrate, is 1 from -max down and strictly between 0 and 1 above it |
| Metrics.CalculateVariance | src/metrics.py:88-102 | the population variance is never negative |
| Metrics.CalculateMetrics | src/metrics.py:129-178 | empty input gives all-zero metrics; otherwise count, total and winrate of the results, min and max profits that bound and occur among them, and exploitability from the given opponent winrate or else from the match's own |
| Metrics.ExploitabilityRange | src/metrics.py:181-197 | (0, 0) for no metrics, otherwise the least and greatest exploitability, both occurring |
| Metrics.Exploitabilities | src/metrics.py:193-197 | the list holds each match's exploitability, in order |
| BurnKnobs.MakeBurnState | src/burn_knobs.py:35-40 | a burn state is built exactly when all three knobs lie in [0, 1]; otherwise the error names the first field out of range |
| BurnKnobs.ToDict | src/burn_knobs.py:42-49 | the dict has exactly the three field names as keys |
| BurnKnobs.DictRoundTrip | src/burn_knobs.py:42-53 | building from the dict of a valid state gives the state back |
| BurnKnobs.StrayKeyRefused | src/burn_knobs.py:51-53 | a dict with a key that is not a field fails like the keyword call |
| BurnKnobs.EvFloorBb | src/burn_knobs.py:55-62 | -10 times the floor lies in [-10, 0], is 0 exactly when the floor is, and is negative for a positive floor |
| BurnKnobs.GenerateBurnStates | src/burn_knobs.py:65-89 | the nested loops return the reference grid, or the first validation error |
| BurnKnobs.GenerateSucceeds | src/burn_knobs.py:65-89 | the grid is built exactly when every knob value lies in [0, 1] |
| BurnKnobs.GenerateOrder | src/burn_knobs.py:80-87 | with n knob values the grid has n³ states and state (i·n + j)·n + l is (k[i], k[j], k[l]): range outermost, evaluation floor innermost |
| BurnKnobs.DefaultGrid | src/burn_knobs.py:76-89 | the default grid has 125 states from (0, 0, 0) to (1, 1, 1) |
| BurnKnobs.BuildFacts | src/burn_knobs.py:79-89 | building a list of knob triples succeeds exactly when all are valid, and then element i is triple i |
| BurnKnobs.AtLeast | src/burn_knobs.py:183-187 | the filter keeps exactly the entries whose value reaches the floor |
| BurnKnobs.EvFloorKeeps | src/burn_knobs.py:168-194 | empty input stays empty; if some action reaches the floor exactly those are kept; otherwise only the first action of largest value is kept |
| BurnKnobs.FirstMax | src/burn_knobs.py:190-191 | the fallback is the first entry of largest value |
| BurnKnobs.ArgmaxAtZero | src/burn_knobs.py:141-145 | at temperature 0 the first most probable action gets 1 and every other 0 |
| BurnKnobs.OneHotShape | src/burn_knobs.py:141-145 | the one-hot distribution keeps every key in order and gives 1 only at the chosen index |
| BurnKnobs.UniformAtOne | src/burn_knobs.py:148-150 | at temperature 1 every action gets 1/n, summing to 1 |
| BurnKnobs.EmptyStaysEmpty | src/burn_knobs.py:134-135 | an empty distribution stays empty at every temperature |
| StrategyBase.GetName | src/strategies/base.py:96-98 | the name is the strategy name when it is set and non-empty, else the class name |
| StrategyBase.PotOdds | src/strategies/heuristic.py:24-26 | pot odds are to_call / (pot + to_call) in (0, 1] when facing a bet and 0 otherwise |
| StrategyBase.Only | src/strategies/heuristic.py:42-64 | a pure action is a distribution that gives the action 1 and holds no other key |
| StrategyBase.Mix | src/strategies/gto_approx.py:143-155 | a two-action mix is a distribution with exactly the two weights and no other key |
| StrategyBase.RescaleFacts | src/strategies/base.py:130-136 | renormalising keeps the keys and sums to 1 when the total is positive, and changes nothing otherwise |
| StrategyBase.ApplyBurnState | src/strategies/base.py:100-145 | without evaluation filtering and without entropy the input comes back unchanged |
| StrategyBase.EvFilterKeeps | src/strategies/base.py:117-136 | with evaluations and a positive floor exactly the actions that survive the evaluation floor remain, renormalised to 1 when their total is positive |
| StrategyBase.FullEntropyUniform | src/strategies/base.py:138-145 | full entropy makes the distribution uniform over the same actions |
| Heuristic.GetAction | src/strategies/heuristic.py:18-64 | when it can check it never folds and raises, purely, on equity above 0.6 or a bluff draw below 0.15 with equity at most 0.4; facing a bet it folds exactly when equity is below the pot odds and the draw is not a bluff, plays raise 0.8 / call 0.2 when equity covers the odds and exceeds 0.75, raises purely on a bluff, and otherwise calls |
| Heuristic.FoldsExactlyNegativeEv | src/strategies/heuristic.py:46-64 | facing a bet it folds exactly the calls that lose chips on average, unless it bluffs |
| Heuristic.NegativeEvBelowOdds | src/strategies/heuristic.py:24-26 | a call loses chips on average exactly when the equity is below the pot odds |
| Heuristic.CallEvFactored | src/strategies/heuristic.py:46-53 | the expected value of calling is equity times the final pot minus the call |
| Heuristic.FoldMonotone | src/strategies/heuristic.py:46-64 | more equity never turns a continuation into a fold |
| RandomBot.NewRandomBot | src/strategies/random.py:28-35 | the default base temperature is 0.8 |
| RandomBot.BaseProbs | src/strategies/random.py:51-67 | the distribution fails only on the division by a zero weight total, which needs temperature at least 0.5 |
| RandomBot.GetAction | src/strategies/random.py:37-70 | no valid action gives {}; otherwise the base distribution passed through the burn state |
| RandomBot.UniformBelowHalf | src/strategies/random.py:52-57 | below temperature 0.5 each valid action gets exactly 1/n |
| RandomBot.WeightedAtOrAboveHalf | src/strategies/random.py:58-67 | otherwise action i gets weight i over the total, keyed by exactly the valid actions and summing to 1 |
| RandomBot.ZeroTotalOnlyAllZero | src/strategies/random.py:61-62 | the weights total zero only when every draw was zero |
| RandomBot.NoEntropyKeepsBase | src/strategies/random.py:70 | without entropy the burn step returns the base distribution |
| GtoApprox.InitPreflopRanges | src/strategies/gto_approx.py:22-39 | the thresholds are 0.80/0.60/0.15 without widening, widened and capped at 1 otherwise, and stay ordered |
| GtoApprox.RangesMonotone | src/strategies/gto_approx.py:33-37 | more widening never narrows a range |
| GtoApprox.PreflopCards | src/strategies/gto_approx.py:53-59 | the hole cards give ranks 2..14 and the suited flag, or the error the lookups raise |
| GtoApprox.HandStrength | src/strategies/gto_approx.py:61-70 | the strength is non-negative and at most 1 except for a suited pair of aces |
| GtoApprox.HandStrengthSymmetric | src/strategies/gto_approx.py:61-70 | the strength does not depend on card order |
| GtoApprox.DealtStrengthInUnit | src/strategies/gto_approx.py:53-70 | two distinct cards give a strength in [0, 1], the same in either order |
| GtoApprox.PreflopDecision | src/strategies/gto_approx.py:75-104 | the button opens only by raise or fold (raise exactly above 1 - open range) and folds to a re-raise at strength 0.4 or less; the big blind folds to a bet exactly when below both thresholds and never folds a free option |
| GtoApprox.PreflopFoldMonotone | src/strategies/gto_approx.py:75-104 | in every position and bet, if a hand folds then every hand no stronger, with raise-first and call-vs-raise ranges no wider, folds too |
| GtoApprox.PreflopStrategy | src/strategies/gto_approx.py:47-104 | the preflop strategy fails exactly when the cards cannot be read, otherwise returns a distribution |
| GtoApprox.BoostedEquity | src/strategies/gto_approx.py:111 | boosted equity is equity + boost capped at 1 |
| GtoApprox.PostflopDecision | src/strategies/gto_approx.py:117-155 | a free check never folds (raising on equity above 0.7 or a bluff draw); facing a bet it never folds with equity at least the pot odds, mixes 0.3/0.7 above 0.7, and otherwise folds unless it bluffs |
| GtoApprox.PostflopFoldMonotone | src/strategies/gto_approx.py:130-155 | more equity never turns a continuation into a fold |
| GtoApprox.PostflopStrategy | src/strategies/gto_approx.py:106-155 | postflop play always yields a distribution |
| GtoApprox.GetAction | src/strategies/gto_approx.py:41-45 | a distribution on every street; an error only preflop when the cards cannot be read |
| Rmball.GetHandLabel | src/strategies/RMBALL.py:19-27 | the label names the higher rank first, has no suffix for a pair and "s" exactly for suited non-pairs; errors for missing characters and unknown ranks |
| Rmball.LabelSymmetric | src/strategies/RMBALL.py:19-27 | the label does not depend on card order |
| Rmball.HandIndex | src/strategies/RMBALL.py:29-44 | every label gets an index below 169; pairs take 0..12; anything not a label gets 0 |
| Rmball.HandIndexOrder | src/strategies/RMBALL.py:30-43 | pair k is index k; a suited label comes immediately before its offsuit label |
| Rmball.HandIndexInjective | src/strategies/RMBALL.py:29-44 | two labels with the same index are the same label |
| Rmball.HandIndexOnto | src/strategies/RMBALL.py:29-44 | every index below 169 belongs to some label |
| Rmball.NotAHandLabel | src/strategies/RMBALL.py:44 | a string that matches no label maps to 0, the index of AA |
| Rmball.GetHandIndex | src/strategies/RMBALL.py:29-44 | the counting loops return the reference index |
| Rmball.GenerateAllLabels | src/strategies/RMBALL.py:242-252 | 169 labels, 13 of them pairs, each non-pair written low rank first, so every non-pair gets index 0 |
| Rmball.V1Weights | src/strategies/RMBALL.py:93-101 | a record's weights are its counts over their total, summing to 1, or fold 1 when the total is 0 |
| Rmball.LoadPreflopV1 | src/strategies/RMBALL.py:82-104 | the reading loop returns the reference table: empty on bad magic or any short read, otherwise the records by hid, later ones overwriting |
| Rmball.ReadV1Record | src/strategies/RMBALL.py:92-101 | one record read gives its hid and weights |
| Rmball.V1Complete | src/strategies/RMBALL.py:91-103 | reading every record of the header count gives the reference table |
| Rmball.DecodeV1Rows | src/strategies/RMBALL.py:82-104 | every stored row has a 16-bit hid and weights summing to 1 |
| Rmball.DecodeV1Keys | src/strategies/RMBALL.py:91-101 | a hid is stored exactly when some record carries it |
| Rmball.DecodeV1Last | src/strategies/RMBALL.py:91-101 | the last record with a hid decides its row |
| Rmball.DetectSizingDistortion | src/strategies/RMBALL.py:222-225 | the distortion lies in [0, 1], is 0 exactly when the ratio is within 0.1 of a bucket, and otherwise exceeds 0.5 |
| Rmball.MinDistance | src/strategies/RMBALL.py:224 | the distance to the nearest bucket is at most every distance and attained |
| Rmball.AnalyzeSizingPattern | src/strategies/RMBALL.py:227-231 | the pattern's confidence is always 0 |
| Rmball.PatternAdjustment | src/strategies/RMBALL.py:165-169 | the pattern term is always 0, since the pattern confidence is 0 and never exceeds 0.7 |
| Rmball.AdjustmentTightensOnly | src/strategies/RMBALL.py:163-176 | the adjustment is -0.15 when a distortion is detected and 0 otherwise; the 0.2 branch and the pattern term never apply |
| Rmball.ApplyLutWithExploit | src/strategies/RMBALL.py:149-186 | as written: no bet to call returns the table row unchanged; facing a bet, a table distribution comes back unchanged at a standard size and otherwise with exactly 0.15 moved from call to fold, however small the call weight |
| Rmball.NegativeCallWeight | src/strategies/RMBALL.py:171-186 | the pure-fold row facing 3 chips into a pot of 4 comes out fold 1.15, call -0.15 |
| Rmball.ClampedReweight | src/strategies/RMBALL.py:171-186 | corrected: with a clamped call weight the shifted row is a distribution again, never folds less, and is unchanged without an adjustment |
| Rmball.ClampAgrees | src/strategies/RMBALL.py:171-186 | on a table distribution the clamped and the as-written adjustment agree exactly when there is no bet, the bet has a standard size, or the call weight is at least 0.15 |
| Rmball.ApplyLutClamped | src/strategies/RMBALL.py:149-186 | corrected: the result is a distribution again, never folds less than the table row, and is the row itself without a distortion |
| Rmball.HeuristicAction | src/strategies/RMBALL.py:191-217 | one action with weight 1: facing a bet call exactly when equity exceeds the pot odds, else fold; free, raise exactly above 0.75 equity, else call |
| Rmball.HeuristicMonotone | src/strategies/RMBALL.py:205-215 | more equity never makes the action less aggressive |
| Rmball.InitialRangeFacts | src/strategies/RMBALL.py:233-240 | the range weights are call + raise of each table row, normalised to sum 1 when positive and all zero otherwise |
| Rmball.FillRange | src/strategies/RMBALL.py:233-240 | the array filled in place equals the reference range |
| Rmball.PreflopBase | src/strategies/RMBALL.py:127-129 | the table row for a hid, or fold 1 when absent, is a distribution |
| Rmball.PreflopDecision | src/strategies/RMBALL.py:121-139 | corrected (call weight clamped, unlike the source): fails exactly when the label fails; otherwise a distribution, the table row itself when nothing is to call |
| Rmball.Bot.constructor | src/strategies/RMBALL.py:53-77 | the table is read from the file bytes or empty, counters cleared, 169 uniform weights, labels generated |
| Rmball.Bot.InitializePreflopWeights | src/strategies/RMBALL.py:233-240 | the weights array becomes the reference range and the flag is set |
| Rmball.Bot.GetAction | src/strategies/RMBALL.py:109-144 | corrected (call weight clamped, unlike the source): postflop the heuristic action with nothing changed; preflop the hand counter grows by one, the range is set up once, and the decision is the clamped table decision |
| GtobTable.Record5 | src/strategies/gtob_table.py:20-29 | a record gives a 16-bit hid and three weights in [0, 1] (byte / 255, not renormalised) |
| GtobTable.RecordsRead | src/strategies/gtob_table.py:15-18 | at most `count` records are read, and fewer only when the next record is short |
| GtobTable.Decode | src/strategies/gtob_table.py:10-29 | the table reads exactly when the 12-byte header is there with the magic; a short header is a struct error, a wrong magic an assertion error |
| GtobTable.DecodeKeys | src/strategies/gtob_table.py:15-29 | a hid is stored exactly when some record read carries it with a non-zero total |
| GtobTable.DecodeRows | src/strategies/gtob_table.py:20-29 | every stored row comes from a record read and has weights in [0, 1] |
| GtobTable.DecodeLast | src/strategies/gtob_table.py:25-29 | the last stored record with a hid decides its row |
| GtobTable.DecodeSize | src/strategies/gtob_table.py:25-29 | the table size is the number of distinct stored hids |
| GtobTable.Table.constructor | src/strategies/gtob_table.py:5-7 | a new table is empty |
| GtobTable.Table.Load | src/strategies/gtob_table.py:10-29 | a failed read leaves the table and returns the error; a successful one merges the decoded records into it |
| GtobTable.Table.Get | src/strategies/gtob_table.py:31-32 | `get` returns the stored row when present and the default otherwise |
| GtobTable.Table.Len | src/strategies/gtob_table.py:37-38 | the length is 0 exactly when nothing is stored |
| GtobTable.ReadRecord | src/strategies/gtob_table.py:20-23 | reads the hid and row of 5-byte record `k` and whether its three counts total 0 |
| GtobTable.OpenedQueries | src/strategies/gtob_table.py:31-38 | after a load, membership matches the records read, `get` returns rows in [0, 1], and `len` counts the distinct hids |
| LutBytes.U16RoundTrip | src/strategies/gtob_table.py:20 | the little-endian 16-bit read inverts the 16-bit write and back |
| LutBytes.MapOfKeys | src/strategies/gtob_table.py:25 | filling a dict record by record stores exactly the keys that occur |
| LutBytes.MapOfLast | src/strategies/gtob_table.py:25 | the last record with a key decides its value |
| LutBytes.MapOfSize | src/strategies/gtob_table.py:37-38 | the dict's size is the number of distinct keys |
| LutBytes.ScaleToOne | src/strategies/RMBALL.py:93-99 | counts over their positive total sum to 1 and are each in [0, 1] |
| DebugGto.DebugRecord | scripts/debug_GTO.py:30-37 | a record gives a 16-bit hid and three weights u16 / 65535 in [0, 1] |
| DebugGto.LoadGtobPreflop | scripts/debug_GTO.py:20-38 | a wrong magic fails the assertion, a street byte of 0x80 or above fails to decode, a short header or record fails to unpack, otherwise all records by hid (zero rows kept) |
| DebugGto.ReadGtobPreflop | scripts/debug_GTO.py:20-38 | the reading loop returns the reference result |
| DebugGto.DebugRows | scripts/debug_GTO.py:29-37 | every stored row comes from a record and has weights in [0, 1] |
| DebugGto.DecodersAgreeOnHids | scripts/debug_GTO.py:20-38 | on a well-formed file this reader and RMBALL's store the same hids; on a truncated one this reader fails while RMBALL's returns {} |
| DebugGto.BuildHandLabels | scripts/debug_GTO.py:90-95 | the label list has 169 entries and entry i is the label of RMBALL index i |
| DebugGto.IndexedDistinct | scripts/debug_GTO.py:90-98 | the 169 labels are distinct |
| DebugGto.LabelToHidLookup | scripts/debug_GTO.py:98-101 | over distinct labels, the lookup of label k is k |
| DebugGto.NoCollisionIff | scripts/debug_GTO.py:103-111 | the collision list is empty exactly when the hids are pairwise distinct |
| DebugGto.SeenPlusCollisions | scripts/debug_GTO.py:103-111 | seen hids plus collisions account for every label |
| DebugGto.FindCollisions | scripts/debug_GTO.py:103-111 | the loop returns the reference seen map and collision list |
| DebugGto.TestHashCollision | scripts/debug_GTO.py:84-115 | the check finds 169 labels, 169 unique hids and no collision |
| RobustMashup.InitLabels | src/strategies/robust_mashup_nobinary.py:18-25 | the append loops produce 169 labels in strictly ascending order of their grid cell |
| RobustMashup.EveryLabelListed | src/strategies/robust_mashup_nobinary.py:18-26 | every possible hand label is among the 169 |
| RobustMashup.UnitRangeOf | src/strategies/robust_mashup_nobinary.py:26 | the initial weights give each of the labels, distinct and in order, weight 1 |
| RobustMashup.EMRangeModel.constructor | src/strategies/robust_mashup_nobinary.py:12-16 | the model starts with every hand label at weight 1 |
| RobustMashup.RoughStrength | src/strategies/robust_mashup_nobinary.py:50-53 | the strength of two rank characters lies in [0, 1], 1 exactly for AA and 0 exactly for 22; other labels fail |
| RobustMashup.RoughStrengthSymmetric | src/strategies/robust_mashup_nobinary.py:50-53 | the strength does not depend on the order of the two ranks |
| RobustMashup.RoughStrengthMonotone | src/strategies/robust_mashup_nobinary.py:50-53 | higher ranks never give less strength |
| RobustMashup.LikelihoodPositive | src/strategies/robust_mashup_nobinary.py:34-41 | every likelihood is positive |
| RobustMashup.Reweighted | src/strategies/robust_mashup_nobinary.py:33-43 | each label keeps its place and gets its weight times its likelihood |
| RobustMashup.UpdateKeepsRange | src/strategies/robust_mashup_nobinary.py:28-48 | an update keeps the labels and non-negative weights and renormalises them to sum 1 |
| RobustMashup.EMRangeModel.Update | src/strategies/robust_mashup_nobinary.py:28-48 | the weights become each weight times its likelihood, divided by the new total |
| RobustMashup.OppStrengthSum | src/strategies/robust_mashup_nobinary.py:112 | the weighted strength sum lies between 0 and the total weight |
| RobustMashup.OppStrengthMean | src/strategies/robust_mashup_nobinary.py:112 | the sum divided by the total weight lies in [0, 1] |
| RobustMashup.DiscountedEquity | src/strategies/robust_mashup_nobinary.py:114-115 | the clamped equity lies in [0, 1], drops when the opponent averages at least 0.5 and rises when below |
| RobustMashup.PostflopDecision | src/strategies/robust_mashup_nobinary.py:128-144 | facing a bet, call exactly when equity exceeds pot odds times (1 - 0.3 alpha), else fold; free, raise exactly on equity above 0.7 or a bluff draw below 0.25 alpha at equity under 0.3, else check |
| RobustMashup.DefenceBounds | src/strategies/robust_mashup_nobinary.py:128-134 | equity above the pot odds always calls, and equity at most 0.7 of the pot odds always folds |
| RobustMashup.DecisionFacingBet | src/strategies/robust_mashup_nobinary.py:124-134 | facing a bet, the decision calls exactly when equity exceeds the discounted pot odds |
| RobustMashup.ThresholdOrder | src/strategies/robust_mashup_nobinary.py:128 | for alpha in [0, 1] the discounted threshold lies between 0.7 of the pot odds and the pot odds |
| RobustMashup.PostflopAsWritten | src/strategies/robust_mashup_nobinary.py:103-144 | as written (strength sum not divided by the weight total): a distribution |
| RobustMashup.FoldsACertainWinner | src/strategies/robust_mashup_nobinary.py:112-134 | with the initial weights, a certain winner facing 3 into 2 folds as written and calls when corrected |
| RobustMashup.PostflopStrategy | src/strategies/robust_mashup_nobinary.py:103-144 | corrected (mean strength): a distribution |
| RobustMashup.AsWrittenAgreesOnUnitTotal | src/strategies/robust_mashup_nobinary.py:103-144 | over a range whose weights sum to 1 the as-written and the corrected postflop decisions are equal |
| RobustMashup.AheadCalls | src/strategies/robust_mashup_nobinary.py:112-134 | corrected: equity above 1.5 times the pot odds always calls |
| RobustMashup.OpenThreshold | src/strategies/robust_mashup_nobinary.py:91 | 0.2 - 0.15 entropy lies in [0.05, 0.2] for entropy in [0, 1] |
| RobustMashup.PreflopDecision | src/strategies/robust_mashup_nobinary.py:93-101 | opening raises exactly above the threshold, else folds; facing a raise folds exactly at strength at most 0.8 and at most the pot odds |
| RobustMashup.PreflopMonotone | src/strategies/robust_mashup_nobinary.py:93-101 | for every pot and bet, if a hand folds then every hand no stronger, against an open threshold no lower, folds too |
| RobustMashup.PreflopStrategy | src/strategies/robust_mashup_nobinary.py:77-101 | fails exactly when the cards cannot be read, otherwise a distribution |
| RobustMashup.MashupLabel | src/strategies/robust_mashup_nobinary.py:146-152 | the label is read exactly when both cards have a known rank |
| RobustMashup.MashupLabelAgrees | src/strategies/robust_mashup_nobinary.py:146-152 | for two distinct cards it is the RMBALL label, so a key of the weights table |
| RobustMashup.SuitedPairNotInRange | src/strategies/robust_mashup_nobinary.py:150 | the same card twice gives a suited pair label, which is not in the table |
| RobustMashup.NoBinaryStrategy.constructor | src/strategies/robust_mashup_nobinary.py:61-64 | the strategy starts with a fresh range model |
| RobustMashup.NoBinaryStrategy.GetAction | src/strategies/robust_mashup_nobinary.py:66-75 | corrected (mean strength, unlike the source): a non-empty last opponent action updates the model, otherwise it is untouched; then the preflop or the corrected postflop strategy decides, which after an update equals the source's postflop decision |
| TurnSimulator.Normalise | scripts/run_NN.py:44-48 | weights over a positive total are divided by it, otherwise each weight becomes 1/n |
| TurnSimulator.NormaliseSumsToOne | scripts/run_NN.py:44-48 | the normalised weights sum to 1 |
| TurnSimulator.BisectFindsFirstAbove | scripts/run_NN.py:50 | over sorted cumulative weights the bisection finds the first entry above the draw |
| TurnSimulator.Choose | scripts/run_NN.py:50 | the drawn index is within the weights |
| TurnSimulator.ChosenWeightPositive | scripts/run_NN.py:44-50 | over normalised weights the drawn index has positive weight |
| TurnSimulator.SampleAction | scripts/run_NN.py:35-51 | empty input gives fold with amount 0; otherwise an action of the input with amount 0.75 |
| TurnSimulator.SampleHasPositiveWeight | scripts/run_NN.py:35-51 | the sampled action has positive normalised weight, and positive weight when the total is positive |
| TurnSimulator.ToCall | scripts/run_NN.py:99-101 | to_call is non-negative and 0 exactly when the player has put in at least as much |
| TurnSimulator.Pay | scripts/run_NN.py:120-130 | paying moves the amount from the player's stack to its investment and the pot, keeping the chip total |
| TurnSimulator.Blinds | scripts/run_NN.py:74-83 | the button posts bb / 2 and the other bb, the pot is their sum, stacks drop by the blinds |
| TurnSimulator.StreetConserves | scripts/run_NN.py:89-182 | a street that ends without a fold keeps stacks + pot unchanged |
| TurnSimulator.RaiseStep | scripts/run_NN.py:125-132 | a raise pays the raise total and hands the turn over |
| TurnSimulator.PlayStreet | scripts/run_NN.py:142-182 | the betting loop returns the reference street |
| TurnSimulator.SimulateHandUntilTurn | scripts/run_NN.py:53-197 | the simulation returns the reference hand |
| TurnSimulator.HandReachingTurn | scripts/run_NN.py:185-197 | a hand reaching the turn deals hole cards deck[0..1], deck[2..3] and board deck[4..7], lets the non-button act, and keeps stacks + pot at twice the starting stack |
| TurnSimulator.AfterPreflopReachesTurn | scripts/run_NN.py:135-197 | once preflop is over, a hand reaching the turn holds the first four remaining cards as board, lets the non-button act and keeps the chips |
| TurnSimulator.OpeningFoldEndsHand | scripts/run_NN.py:117-118 | a fold at the first decision ends the simulation without a situation |
| TurnSimulator.CallsAndBetsCovered | scripts/run_NN.py:120-180 | calls and flop bets never take the stack below zero |
| TurnSimulator.PreflopRaiseOverdraws | scripts/run_NN.py:125-130 | a preflop raise with less than to_call + bb behind leaves the stack at -to_call |
| TurnSimulator.OpeningRaiseOverdraws | scripts/run_NN.py:77-130 | with a stack below two big blinds the button's opening raise leaves it at -bb / 2, and play goes on |

## Left out

- Randomness: `random.seed`, `shuffle`, `random`, `sample` and `choices` are inputs. They become a seed-to-permutation function, draws, and sample sequences. Monte Carlo convergence is not a proof target.
- Floating point: chips and probabilities are exact reals. The model makes no claim about float rounding, and the `abs(...) < 1e-6` tests of the turn simulator keep their 1e-6 tolerance, applied to exact reals.
- The softmax branch of `apply_action_temperature` for temperatures strictly between 0 and 1 is a parameter (`Softmax`), since it uses `exp` and `log`.
- `exp` in the range model's likelihoods is a parameter. Only its positivity is assumed of it.
- The robust-mashup sigmoid and decay that set `alpha` are left out; `alpha` is a parameter. Its `mdf` and the range model's `bet_ratio` are computed but never used.
- The equity each strategy computes by Monte Carlo is a parameter of its decision function.
- RobustMashup.NoBinaryStrategy.GetAction: `getattr(feats, 'last_opp_action', None)` is always None, because the features record has no such field. The model takes the value as a parameter, so the update path can be stated too.
- Sobol sampling (src/burn_knobs.py:92-120) is left out; it is a library sequence generator.
- File opening and path resolution in the table readers are left out. Each reader is modelled as a parse of the file's bytes.
- The Slumbot HTTP client (scripts/run_slumbot.py:79-174, apart from the translation rule) and the other network scripts are left out.
- The orchestration, registry, logging, visualisation and CLI modules are not part of this model, and neither is the print and benchmark code of the match engine (src/match_engine.py:393-424).
- `collect_turn_situations` and `main` of scripts/run_NN.py are left out, since they are CSV output around the simulation.
- `np.var` is modelled as the population variance over exact reals. `np.gradient` is not part of this model.
- Metrics.CalculateVariance: its contract states only that the variance is non-negative.
- The `amount` 0.75 returned by `_sample_action` is recorded but unused by the simulation.
- Strategies read `InfoSet.action_history` nowhere, and both simulators pass it empty.
- The equity model examines only the first element's type, as the code does: a card list is either all tokens or all ids.
- MatchEngine: chips are integers in quarter-chip units. The configuration must consist of whole half chips, so that a tied pot splits exactly, and must satisfy 0 <= small blind <= big blind <= starting stack. The source checks neither and posts the blinds uncapped (src/match_engine.py:55-70); the only configuration it builds is the default 0.5 / 1 / 200 (src/match_engine.py:85), which meets both.
- MatchEngine: the raise loop is bounded by a measure on the chips behind. That measure is a consequence of the integer chip units, not a fuel bound.
- `random.choices` raising ValueError on a zero total cannot happen, because `_sample_action` makes the weights uniform first.
- `GTOApproxBot` and `HeuristicBot` ignore the burn state, as the code does.
- Rmball.PreflopDecision: models the corrected adjustment: the call weight is clamped at 0 (`ApplyLutClamped`), where the source's `_apply_lut_with_exploit` is not (see Findings). The two agree exactly when the call weight stays non-negative (`Rmball.ClampAgrees`); the source's own result is `Rmball.ApplyLutWithExploit`.
- Rmball.Bot.GetAction: returns the corrected, clamped preflop decision, not the source's unclamped one. Fold 1, call 0 facing 3 into a pot of 4 gives fold 1, call 0 here and fold 1.15, call -0.15 in the source (`Rmball.NegativeCallWeight`).
- RobustMashup.NoBinaryStrategy.GetAction: decides postflop with the corrected mean strength (`PostflopStrategy`), where the source divides by the undivided strength sum (`PostflopAsWritten`, see Findings). After an update the weights sum to 1 and the two agree, as its contract states. Without one, which is every call in the source, they can differ (`RobustMashup.FoldsACertainWinner`).
- MatchEngine: a `Policy` is one fixed function of (player, info set, features) for the whole match, so strategies that draw random numbers of their own (equity sampling, bluffs, random weights) are captured only hand by hand. The engine's draws `draw(k)` are the values its own `random.random()` calls return, and they stand for a stream the strategies draw from too. The conservation and zero-sum results hold for every policy and every draw.
- Slumbot: the digit test and `int(...)` of the action parser are modelled on ASCII `'0'..'9'`. Python's `str.isdigit` also accepts other Unicode digits, on which `int` can raise; the Slumbot server sends ASCII.

## Findings

| source | as written | input that shows it | evidently intended | confidence | as-written member | corrected member |
|---|---|---|---|---|---|---|
| scripts/run_slumbot.py:32-71 | a character outside "/kcfb" runs no branch, so `i` never advances and the loop never ends | the action string "x" | reject the character (a parse error) | not executed | Slumbot.UnknownCharNeverEnds | Slumbot.ActionState.Apply |
| src/strategies/RMBALL.py:171-186 | a -0.15 adjustment is added to the call weight without a lower clamp, so the call weight can go negative | table row fold 1, call 0, raise 0 with pot 4 and to_call 3 gives fold 1.15, call -0.15 | weights stay in [0, 1] and sum to 1 | not executed | Rmball.NegativeCallWeight | Rmball.ApplyLutClamped |
| src/strategies/robust_mashup_nobinary.py:112-115 | the opponent's strength is summed over the 169 weights and never divided by their total, so equity is cut to at most 12/29 of itself | base equity 1, pot 2, to_call 3, initial weights | discount by the weighted mean strength | not executed | RobustMashup.FoldsACertainWinner | RobustMashup.PostflopStrategy |

The run-to-turn simulator's preflop raise caps its total at `curr_stack + to_call` rather than at `curr_stack` (scripts/run_NN.py:127). That cap can take a stack below zero. The model keeps this behaviour as written: TurnSimulator.PreflopRaiseOverdraws and TurnSimulator.OpeningRaiseOverdraws exhibit it, and the simulation's chip-conservation lemmas hold regardless.
