# Meal log: a verified model of the meal-logging pipeline

This project models the core of a small meal-logging server in Dafny. It covers three parts:

- **Tool handlers** (`log-meal`, `calculate-carbs`, `get-meals`). `log-meal` checks the description, then resolves the meal time. Next it asks the carbohydrate estimator for an estimate. A vague description gets clarifying questions back and nothing is saved. Otherwise the handler builds a meal tagged `ai_parsed`, saves it and notifies the knowledge graph. A failed notification is only logged.
- **SQLite meal store.** The store has two tables, meal headers and food rows. Food row ids auto-increment.
  - Saving runs as one transaction: it saves everything or nothing.
  - Listing filters by optional inclusive date bounds, orders by timestamp, newest first, applies a limit, and attaches each meal's foods in row-id order.
- **Estimation client.** The reply it builds depends only on the meal description: one medium-confidence food of 15 g, plus three fixed questions when the description is shorter than 20 bytes.

Modules follow the program's files:

| module | file | role |
|---|---|---|
| `Models` | `models.dfy` | meals, foods, confidence levels, estimator request and response |
| `Sampling` | `sampling.dfy` | building the estimate and the error policy of the estimator client |
| `Storage` | `storage.dfy` | the two tables as the class `SQLiteStorage`, together with the specification functions for saving and querying |
| `Tools` | `tools.dfy` | the handlers, with the class `MealLogServer` holding the store |
| `Times` | `times.dfy` | shared helper: time values and their order |
| `Text` | `text.dfy` | shared helper: UTF-8 byte length, string joining, decimal rendering |
| `Wrappers` | `wrappers.dfy` | shared helper: `Option` and `Result` |

The following are parameters of the model:

- **Collaborators.** The handler function takes the estimator as `CarbCalculationRequest -> Result<...>`, the clock readings as one `Clock` value, and the knowledge-graph notifier as `Meal -> bool`.
- **Storage faults.** A `Fault` value says which step of the save transaction the engine rejects. Rejecting the header insert also stands for a duplicate primary key.
- **Time encoding.** A `Codec` value holds the database driver's time encoding and the RFC 3339 parser.
- **HTTP outcome.** An `HttpOutcome` value is the result of the call to the reasoning service.

Time is abstract. A `Time` is a calendar-date text plus a position within that day. Dates compare as text, which matches how SQLite compares `DATE(timestamp)` with the bound strings.

## Model

| member | source | states |
|---|---|---|
| Models.NamedLevelsDistinct | internal/models/meal.go:28-34 | the three confidence levels are pairwise distinct strings; the empty level is not one of them |
| Models.ResponseJsonKeys | internal/models/meal.go:41-46 | an encoded response always has foods, total_carbs, confidence and needs_more_info; clarifications is present exactly when there is at least one question |
| Text.Utf8Width | internal/server/sampling.go:106 | a character encodes to 1 to 4 bytes, and to one byte exactly when it is ASCII |
| Text.Utf8Len | internal/server/sampling.go:106 | the byte length of a string (Go's `len`) lies between its character count and four times that count |
| Text.Utf8LenIsCharCountIffAscii | internal/server/sampling.go:106 | the byte length equals the character count if and only if the string is ASCII |
| Text.Utf8LenAppend | internal/server/sampling.go:106 | byte length is additive over concatenation |
| Text.Join | internal/server/tools.go:192 | joining no parts gives ""; joining one part gives that part; otherwise the result starts with the first part |
| Text.JoinSnoc | internal/server/tools.go:192 | appending a part appends the separator and then the part |
| Text.JoinLength | internal/server/tools.go:192 | the joined length is the parts' total length plus one separator between each pair of neighbours |
| Text.DigitChar | internal/server/tools.go:93 | a digit value maps to the digit character with that value |
| Text.NatToDecimal | internal/server/tools.go:93 | `%d` of a natural number is a non-empty digit string with no leading zero |
| Text.DecimalRoundTrip | internal/server/tools.go:93 | reading back the rendered decimal gives the number |
| Text.IntToDecimal | internal/server/tools.go:93 | `%d` of an integer starts with '-' exactly when the integer is negative |
| Text.IntToDecimalInjective | internal/server/tools.go:93 | distinct integers render to distinct decimal strings |
| Times.StrLeReflexive | internal/storage/sqlite.go:116-125 | text comparison is reflexive |
| Times.StrLeTotal | internal/storage/sqlite.go:116-125 | any two strings are comparable |
| Times.StrLeAntisymmetric | internal/storage/sqlite.go:116-125 | strings ordered both ways are equal |
| Times.StrLeTransitive | internal/storage/sqlite.go:116-125 | text comparison is transitive |
| Times.StrLtAt | internal/storage/sqlite.go:116-125 | strings sharing a prefix are ordered strictly by the first character where they differ |
| Times.TimeLeTotal | internal/storage/sqlite.go:125 | the timestamp order is total |
| Times.TimeLeTransitive | internal/storage/sqlite.go:125 | the timestamp order is transitive |
| Times.TimeLeAntisymmetric | internal/storage/sqlite.go:125 | timestamps ordered both ways are equal |
| Sampling.ParseThinkingResponse | internal/server/sampling.go:87-118 | the total equals the sum of the foods' carbohydrates; more information is needed if and only if the description is shorter than 20 bytes; questions are present if and only if more information is needed |
| Sampling.ParseThinkingResponseShape | internal/server/sampling.go:90-116 | exactly one food: named "Parsed from: " plus the description, quantity "estimated", 25 g per 100 g, 15 g, medium confidence; total 15 g; medium confidence overall; the three fixed questions in order exactly when the description is short, and none otherwise |
| Sampling.DescriptionRecoverable | internal/server/sampling.go:94 | the description can be read back from the food's name |
| Sampling.ParseIgnoresPayload | internal/server/sampling.go:87-118 | the reply from the reasoning service has no influence on the estimate |
| Sampling.ShortByCharacters | internal/server/sampling.go:106 | 20 or more characters are always detailed enough; for ASCII text the threshold is exactly 20 characters |
| Sampling.CalculateCarbs | internal/server/sampling.go:68-84 | success if and only if the response has status 200 and a decodable body; a transport error, a non-200 status and an undecodable body each give their own error; a success carries the synthesised estimate |
| Sampling.CalculateCarbsIgnoresFlag | internal/server/sampling.go:33-84 | the request's clarification flag does not change the outcome |
| Sampling.AskClarification | internal/server/sampling.go:122-135 | success if and only if the response has status 200 and a decodable body, and then the estimate synthesised for the description; a transport error, a non-200 status and an undecodable body each give the same error as `CalculateCarbs` |
| Sampling.AskClarificationIgnoresQuestions | internal/server/sampling.go:122-135 | for every description and every outcome of the exchange, the questions passed in make no difference (they are only logged) |
| Sampling.AskClarificationStillAsks | internal/server/sampling.go:122-135 | for a description under 20 bytes, a successful answer still needs more information and carries the fixed questions, although clarifications were switched off |
| Storage.FoodRows | internal/storage/sqlite.go:96-103 | the k-th food of a meal becomes a row with the next id plus k, the meal's id and that food |
| Storage.FoodRowsSnoc | internal/storage/sqlite.go:96-103 | inserting one more food appends exactly its row |
| Storage.SaveOutcome | internal/storage/sqlite.go:72-105 | a save succeeds if and only if the id is new and the engine rejects none of the transaction's steps; a duplicate id fails the header insert |
| Storage.FoodRowsOf | internal/storage/sqlite.go:172-176 | selects exactly the food rows carrying the meal's id |
| Storage.FoodsOf | internal/storage/sqlite.go:171-202 | the meal's foods, one per selected row, in row order |
| Storage.FoodRowsOfAppend | internal/storage/sqlite.go:172-176 | the selection distributes over concatenation of the table |
| Storage.FoodRowsOfOwn | internal/storage/sqlite.go:96-103 | the rows inserted for a meal read back as its foods and belong to no other meal |
| Storage.FoodRowsOfIncreasing | internal/storage/sqlite.go:171-176 | in a well-formed store, each meal's food rows come in strictly increasing id order |
| Storage.SubsequenceOrder | internal/storage/sqlite.go:176 | selecting rows from an id-increasing table keeps ids increasing |
| Storage.FoodRowsOfNone | internal/storage/sqlite.go:172-176 | a table with no row for a meal yields no foods for it |
| Storage.InsertedFoods | internal/storage/sqlite.go:84-103 | after a save the meal reads back with exactly its foods, and every other meal's foods are unchanged |
| Storage.InsertedOtherFoods | internal/storage/sqlite.go:96-103 | inserting one meal's food rows leaves every other meal's foods as they were |
| Storage.InsertedWellFormed | internal/storage/sqlite.go:39-58 | saving a new id keeps ids distinct, food ids increasing and below the counter, and every food row pointing at a meal |
| Storage.SaveAddsExactlyTheMeal | internal/storage/sqlite.go:84-103 | a save adds one header row and one food row per food, in order and with increasing ids; all earlier rows stay as they were |
| Storage.Filter | internal/storage/sqlite.go:116-123 | keeps exactly the rows whose date lies within both optional inclusive bounds |
| Storage.SortDesc | internal/storage/sqlite.go:125 | ORDER BY timestamp DESC as an insertion sort; no contract of its own, its properties are `InsertDescPermutes`, `InsertDescSorted` and `SortDescProperties` |
| Storage.InsertDescPermutes | internal/storage/sqlite.go:125 | inserting into the ordering adds that row and nothing else |
| Storage.InsertDescSorted | internal/storage/sqlite.go:125 | inserting into a newest-first list keeps it newest-first |
| Storage.SortDescProperties | internal/storage/sqlite.go:125 | ORDER BY timestamp DESC gives a newest-first permutation of its input |
| Storage.PrefixIsLatest | internal/storage/sqlite.go:125 | under ORDER BY ... DESC LIMIT, a row cut off by the limit is no later than any row kept |
| Storage.Take | internal/storage/sqlite.go:125 | LIMIT keeps a prefix of length min(limit, count); a negative limit keeps everything |
| Storage.SelectRows | internal/storage/sqlite.go:108-125 | the WHERE / ORDER BY / LIMIT of the meal query as a definition (filter, sort newest first, take); no contract of its own, its properties are the next three rows |
| Storage.SelectRowsSize | internal/storage/sqlite.go:125 | with a non-negative limit exactly min(limit, number of matching rows) rows come back; the rows are a prefix of the sorted matches and none is repeated (a sub-multiset of the matches) |
| Storage.SelectRowsMembers | internal/storage/sqlite.go:116-123 | every selected row is a row of the table within both date bounds |
| Storage.SelectRowsProperties | internal/storage/sqlite.go:108-125 | exactly min(limit, matches) rows for a non-negative limit, none repeated; all from the table within the bounds; newest first; every matching row left out is no later than every row returned; with a negative limit or one at least the table size, every matching row is returned |
| Storage.ReadRow | internal/storage/sqlite.go:147-162 | one scanned row as a meal: timestamp, created_at and updated_at parsed in that order, the first that fails giving its own error, and the foods taken from the food rows; no contract of its own, its properties are `ReadRowRoundTrip` and `CorruptRowFailsQuery` |
| Storage.ReadAll | internal/storage/sqlite.go:133-168 | the scan loop as a definition; no contract of its own, its properties are `ReadAllMeaning`, `ReadAllSuccess`, `ReadAllFirstError` and `ReadAllFailureSticks` |
| Storage.ReadAllFailureSticks | internal/storage/sqlite.go:133-156 | once a row fails to read, the whole listing fails with that error |
| Storage.ReadAllMeaning | internal/storage/sqlite.go:133-168 | the listing succeeds exactly when every row reads; it then has one meal per row, in order; otherwise it fails with the first failing row's error |
| Storage.ReadAllSuccess | internal/storage/sqlite.go:133-168 | a successful listing has one meal per selected row, each that row read back, in order |
| Storage.ReadAllFirstError | internal/storage/sqlite.go:147-156 | the first row that fails to read decides the listing's error |
| Storage.ReadRowRoundTrip | internal/storage/sqlite.go:133-162 | with a parser that reads back what the driver wrote, a row reads as its stored meal with its foods |
| Storage.QueryMeals | internal/storage/sqlite.go:108-168 | what `GetMeals` returns: the selected rows read back; no contract of its own, its properties are the next four rows |
| Storage.QueryMealsShape | internal/storage/sqlite.go:108-168 | a successful listing has one meal per selected row, hence at most `limit` meals; each has an id from the table and exactly its own food rows as foods |
| Storage.QueryMealsOrdered | internal/storage/sqlite.go:116-125 | with a faithful parser the listing succeeds, and its meals are within the bounds and newest first |
| Storage.CorruptRowFailsQuery | internal/storage/sqlite.go:147-156 | a selected row whose timestamp, created_at or updated_at does not parse fails the whole listing |
| Storage.SaveThenQueryRoundTrip | internal/storage/sqlite.go:72-168 | a saved meal is listed again, with the same foods in the same order, by a query whose bounds cover it and whose limit is large enough |
| Storage.JanuaryQueryExample | internal/storage/sqlite.go:116-125 | a January range excludes a December 31 meal and includes a January 15 one |
| Storage.SQLiteStorage.constructor | internal/storage/sqlite.go:18-31 | a new store is empty and well formed, with food ids starting at 1 |
| Storage.SQLiteStorage.SaveMeal | internal/storage/sqlite.go:72-106 | the error is the one the engine produces; on success the store is exactly the old one plus the meal; on any failure it is exactly the old one; well-formedness is kept |
| Storage.SQLiteStorage.LoadFoodsForMeal | internal/storage/sqlite.go:171-202 | the meal comes back with its foods replaced by its own food rows, in row-id order |
| Storage.SQLiteStorage.GetMeals | internal/storage/sqlite.go:108-169 | the result is the query specification over the current tables |
| Tools.MealId | internal/server/tools.go:93 | ids have the form `meal_` followed by the decimal clock reading |
| Tools.MealIdInjective | internal/server/tools.go:93 | distinct clock readings give distinct ids |
| Tools.ResolveTimestamp | internal/server/tools.go:58-68 | an empty timestamp means now; a non-empty one is used if and only if it parses, and otherwise gives the invalid-timestamp error |
| Tools.BuildMeal | internal/server/tools.go:92-102 | the meal entry as a definition; no contract of its own, its fields are stated by `PlanLogMeal` |
| Tools.EstimateRequest | internal/server/tools.go:54-74 | the estimator is asked only after both checks pass, always with the description and clarifications on |
| Tools.PlanLogMeal | internal/server/tools.go:54-102 | an empty description is rejected first; a bad timestamp is rejected next; an estimator error rejects; a reply that needs more information and has questions is returned as a clarification; any other reply is committed with its foods, total and confidence unchanged, the input description, the resolved time, source `ai_parsed`, the clock's id and the clock's created and updated times |
| Tools.LogMealWithSamplingClient | internal/server/tools.go:76-102 | with the running estimator, a description under 20 bytes gets the fixed questions and never reaches the store, and one of 20 bytes or more is committed as one medium-confidence food of 15 g |
| Tools.LogMealUpstreamFailure | internal/server/tools.go:76-79 | a failed exchange with the reasoning service fails log-meal, with nothing committed |
| Tools.HandleCalculateCarbs | internal/server/tools.go:119-140 | an empty description is rejected; otherwise the caller's flag is passed on and the estimator's answer is returned, or its error is wrapped |
| Tools.CalculateCarbsWithSamplingClient | internal/server/tools.go:129-139 | with the running estimator, calculate-carbs returns the synthesised estimate whatever the flag |
| Tools.EffectiveLimit | internal/server/tools.go:150-152 | a limit of zero or less becomes 20; a positive one is kept |
| Tools.FoodLines | internal/server/tools.go:186-191 | one line per food, in input order, each "name (quantity, carbsg carbs)" |
| Tools.FormatFoodsList | internal/server/tools.go:186-193 | the food lines joined by "; "; "" for no foods; the length is the lines' total length plus two characters per separator |
| Tools.MealLogServer.constructor | internal/server/tools.go:48 | the server keeps the store and the timestamp parser it is given |
| Tools.MealLogServer.HandleLogMeal | internal/server/tools.go:48-116 | the store ends up as the plan says: unchanged unless the plan commits; on a commit it holds the old store plus the meal exactly when the save succeeds. The estimator is asked only as the plan says. A rejection or clarification returns its result with nothing saved, notified or warned. A failed save returns the save error and does not notify. After a successful save the notifier is called, and its failure only sets a warning |
| Tools.MealLogServer.HandleGetMeals | internal/server/tools.go:143-160 | the store's query with the defaulted limit and the dates as given, returning its error wrapped in `RetrieveFailed`; at most 20 meals when no positive limit was given |

## Left out

- The HTTP server, JSON-RPC framing, CORS, command-line flags, signal handling and shutdown (internal/server/server.go, cmd/meal-log/main.go) are not part of the model: they are I/O and concurrency.
- Parameter decoding and response encoding (`extractParams`, `createJSONResponse`) are thin wrappers over the JSON library. Handlers take decoded records and return results as values.
- Marshalling the request and building the HTTP request in `CalculateCarbs` cannot fail with the constant inputs used. The prompt text and the `Authorization` header are not modelled. The exchange itself is reduced to its `HttpOutcome`.
- Schema creation, `NewSQLiteStorage`'s open errors, `Close`, the SQL text and the driver calls are not modelled. Two in-memory tables stand in for them. The constructor models only the empty store.
- Engine failures while listing (the query, a row scan, the food query) are not modelled. Only unparsable timestamps make a listing fail. `rows.Err()` is not checked by the source either.
- `Storage.SortDesc` orders rows with equal timestamps by insertion order. SQLite leaves that order unspecified, so the ordering lemmas constrain only timestamps.
- The header table is a sequence of rows with distinct ids rather than a map, because the listing needs an order to sort from.
- `ON DELETE CASCADE` is not modelled, since no operation deletes meals.
- Go's distinction between a nil slice and an empty slice (e.g. `null` versus `[]` in JSON) is not modelled.
- Time zones, the RFC 3339 grammar and the driver's timestamp text are not modelled. A time is abstract, and parsing and encoding are parameters.
- `time.Now()` and `UnixNano()` are not modelled; their readings are a `Clock` parameter. Ids are not guaranteed unique; a collision shows up as a failed save.
- `formatCarbs`: the `%.1f` rendering of a carbohydrate amount is a parameter of `Tools.FormatFoodsList`.
- `addMealToKnowledgeGraph` and `callMemoryService` are reduced to an injected notifier `Meal -> bool`. The knowledge-graph entity they build is not modelled.
- Logging through `fmt.Printf` and `log.Printf` is not modelled. The only trace kept is the warning flag recorded when the notifier fails.
- `Sampling.ParseThinkingResponse` cannot fail in the source, so the model has no error path for it.
