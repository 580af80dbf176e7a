# Token service revenue estimator — a Dafny model

The system estimates what it earns to serve a large language model on your
own hardware. It has three parts, and this project models the logic of each.

- **The store** (`database.py`). It is a SQLite database with one table each
  for hardware configurations, per-(model, hardware) benchmarks, SLA levels,
  model prices and a price history. It also has a memo table of derived
  capacities, which is filled cache-aside. The model keeps each table as a
  map from the table's unique key to its row, inside the class
  `Database.TokenServiceDatabase`. `INSERT OR REPLACE` is a map update.
  A failed CHECK constraint rolls back the whole transaction.
- **The price scraper's helpers** (`price_updater.py`). These normalise
  model names, clean and parse price text, find a column in a table header,
  and decide a model's category and type. They are pure functions, except
  the column search, which is a loop.
- **The revenue calculator** (`token_service_calculator.py`). It holds four
  optional configuration fields that setters fill in. From them it computes:
  - per-request revenue and per-instance throughput;
  - hardware capacity and cost;
  - SLA-scaled concurrency;
  - a model key;
  - lifecycle revenue and net revenue.

Python's `int()` on a float is `Basics.Trunc` (truncation toward zero).
`str.lower()` and `sub in s` are `Basics.LowerStr` and `Basics.Contains`.
`ORDER BY model_name` uses `Basics.LexLe`, SQLite's BINARY order on code
points.

Where the code itself fixes a behaviour, the model follows it:

- Some divisions have no guard. The model makes each of their denominators
  non-zero in a `requires`. They are:
  - the benchmark's `max_concurrent` and `avg_response_time_ms`
    (database.py:317-323);
  - the prefill and decode TPS (token_service_calculator.py:135-136);
  - the input tokens in the capacity estimate (token_service_calculator.py:161);
  - the response time in the lifecycle figures (token_service_calculator.py:261);
  - the depreciation years (token_service_calculator.py:192, 200).
- The guarded divisions on token_service_calculator.py:140 and 165 give 0
  for a time that is not positive. The model has the same branch.
- `get_effective_concurrency` calls `calculate_hardware_capacity` with three
  arguments, but that method takes five. The `TypeError` is caught, so the
  result is always the SLA-ratio fallback. Only that path is modelled.
- A calculation reads the configuration fields it needs. When one of them
  is `None`, Python raises `AttributeError`. In the model, each field a
  calculation reads is present by `requires`.

## Model

| member | source | states |
|---|---|---|
| Database.TokenDivisor | database.py:310-311 | `max(1.0, (input + output) / 10000 * 0.5)`, at least 1; monotone by `TokenDivisorMonotone` |
| Database.AdjustedConcurrency | database.py:311 | `int(max_concurrent / divisor)`; bounded by `AdjustedConcurrencyBounds` |
| Database.EffectiveConcurrency | database.py:310-314 | the service share of the token-adjusted concurrency; bounded by `ConcurrencyBounds` |
| Database.ServiceShare | database.py:314 | `int(adjusted * ratio * availability)`; monotone in the adjusted concurrency by `ServiceShareMonotone` |
| Database.ServiceShareMonotone | database.py:314 | for non-negative fractions, a smaller adjusted concurrency never gets a larger share |
| Database.DeriveCapacity | database.py:305-324 | effective concurrency is `int(int(max/max(1, tokens/10000*0.5)) * ratio * availability)`; memory% times the benchmark maximum is concurrency times 100; cpu% is memory% times availability, capped at 95; effective QPS times the response time (ms) is concurrency times 1000 times availability |
| Database.ConcurrencyBounds | database.py:310-314 | with SLA fractions in [0,1] and a positive benchmark: 0 <= effective <= token-adjusted <= benchmark maximum |
| Database.AdjustedConcurrencyBounds | database.py:310-311 | the token-adjusted concurrency lies in [0, benchmark maximum] |
| Database.MemoryUsageIsPercentage | database.py:322 | under the same fractions, the derived memory usage lies in [0, 100] |
| Database.TokenDivisorMonotone | database.py:310-311 | a larger token total never lowers the divisor |
| Database.ConcurrencyMonotoneInTokens | database.py:310-314 | a heavier token profile never yields a higher effective concurrency |
| Database.LightLoadKeepsBenchmark | database.py:310-311 | up to 20000 tokens in total, the benchmark concurrency passes the token adjustment unchanged |
| Database.SeededKimiScenarios | database.py:592-600 | on the seeded Kimi/RTX4090x4 benchmark at `standard`: 1000/500 tokens give 200, then 159; 50000/10000 tokens give 66, then 52 |
| Database.DefaultSlaLevels | database.py:540-548 | the four seeded service levels with their availability targets and ratios |
| Database.DefaultHardware | database.py:551-589 | the two seeded hardware configurations |
| Database.DefaultPerformance | database.py:592-617 | the three seeded benchmarks |
| Database.UpsertAll | database.py:192-239 | rows upserted one after another into a keyed table; what it keeps and what it stores is stated by the next two lemmas |
| Database.UpsertAllKeepsOthers | database.py:192-239 | upserting a sequence of rows leaves every key that no row carries unchanged |
| Database.UpsertAllLastWins | database.py:192-239 | after upserting, a key holds the last row that carried it |
| Database.CalculateNewCapacity | database.py:277-324 | the result is present exactly when both the benchmark row and the SLA row exist, and is then `DeriveCapacity` of those two rows and the key's token counts; cpu% <= 95 |
| Database.CapacityLookup | database.py:241-275 | a hit returns the stored row and writes nothing; a miss returns `CalculateNewCapacity` of the reference tables, which is present exactly when it is derivable, and stores it under the full 5-part key; no other key changes |
| Database.MissStaysWithinBenchmark | database.py:241-324 | on a miss with SLA fractions in [0,1] and a positive benchmark: the answer is stored and its concurrency lies between 0 and the benchmark maximum, its memory usage in [0, 100] |
| Database.LookupIsStable | database.py:241-275 | a second identical lookup returns the same answer and leaves the memo as the first one did |
| Database.CachedRowSurvivesReferenceChanges | database.py:248-263 | a stored capacity is returned whatever the benchmark and SLA tables now hold (the memo is never invalidated) |
| Database.InsertByName | database.py:431 | inserting into a name-sorted list keeps it sorted and adds exactly that row (multiset) |
| Database.SelectOneMore | database.py:423-434 | one more key examined keeps the selection invariant: sorted, only that category, each row once |
| Database.TokenServiceDatabase.constructor | database.py:77-190 | a new database is valid and every table is empty |
| Database.TokenServiceDatabase.AddHardwareConfig | database.py:192-211 | the hardware table with the row under its name; validity kept |
| Database.TokenServiceDatabase.AddModelHardwarePerformance | database.py:213-227 | the benchmark table with the row under (model_key, hardware_name); the memo is left untouched |
| Database.TokenServiceDatabase.AddSlaLevel | database.py:229-239 | the SLA table with the row under its level |
| Database.TokenServiceDatabase.AddModelPricing | database.py:368-400 | succeeds exactly when the category passes the CHECK (line 87); on success the row is upserted and the superseded row, if any, is appended to the history; on failure nothing changes |
| Database.TokenServiceDatabase.GetModelPricing | database.py:402-421 | a non-empty key gives the table restricted to that key (empty if absent); no key or the empty key gives the whole table; every returned row is the stored one |
| Database.TokenServiceDatabase.GetHardwareConfigs | database.py:343-355 | exactly the stored configurations |
| Database.IndexByName | token_service_calculator.py:180 | the dictionary built by name holds every row under its own name and nothing else |
| Database.HardwareIndexIsTable | token_service_calculator.py:180 | rebuilding the dictionary from the listed configurations gives back the hardware table |
| Database.TokenServiceDatabase.GetModelsByCategory | database.py:423-434 | the result is sorted by name; every row in it is a stored row of that category; every stored row of that category appears exactly once |
| Database.TokenServiceDatabase.CacheCapacity | database.py:326-341 | the memo with the row under the full 5-part key |
| Database.TokenServiceDatabase.CalculateHardwareCapacity | database.py:241-275 | the answer and the new memo are those of `CapacityLookup` on the old memo |
| Database.TokenServiceDatabase.InitDefaultData | database.py:537-620 | the SLA, hardware and benchmark tables are the old ones with the seeded rows upserted in order |
| Database.TokenServiceDatabase.SeedSlaLevels | database.py:540-548 | the SLA table with the four seeded levels upserted in order |
| Database.TokenServiceDatabase.SeedHardware | database.py:551-589 | the hardware table with the two seeded configurations upserted in order |
| Database.TokenServiceDatabase.SeedPerformance | database.py:592-620 | the benchmark table with the three seeded benchmarks upserted in order |
| Database.SeededRowsPresent | database.py:537-620 | after seeding any tables, every seeded level and benchmark is the row stored under its key |
| PriceUpdater.ReplaceNonWord | price_updater.py:408 | same length; each character is kept if it is a word character and becomes '-' otherwise |
| PriceUpdater.CollapseDashes | price_updater.py:409 | no two adjacent dashes; the non-dash characters, and the first and last characters, are unchanged; nothing new is introduced |
| PriceUpdater.CollapseDashesIsFilter | price_updater.py:409 | collapsing is the filter that keeps every character except a '-' directly after another '-' |
| PriceUpdater.CollapseDashesIdentity | price_updater.py:409 | text without double dashes is unchanged |
| PriceUpdater.StripDashes | price_updater.py:409 | the result is one slice `s[lo..hi]` of the input, every character outside it is '-', and it has no dash at either end; the non-dash characters are unchanged; no double dashes are created |
| PriceUpdater.JoinFieldsIsIdentity | price_updater.py:409 | splitting at '-' and joining with '-' gives the text back |
| PriceUpdater.StripCollapseIsJoin | price_updater.py:409 | collapsing dash runs and then stripping dashes is joining the maximal dash-free runs with single dashes |
| PriceUpdater.FieldsOfMarked | price_updater.py:408 | marking each separator as '-' splits at the same places, when no other character is '-' |
| PriceUpdater.NormalizeModelName | price_updater.py:402-411 | "" for the empty name and for the placeholders '模型'/'model'; otherwise the result is the maximal runs of word characters of the lower-cased name joined by single dashes, and its non-dash characters are exactly those word characters, in order; no dash at either end; no double dash; every character is '-' or a lower-case word character |
| PriceUpdater.NormalizeIdempotent | price_updater.py:402-411 | normalising a normalised name changes nothing, unless the first result is a placeholder |
| PriceUpdater.NormalizeNotIdempotentOnPlaceholder | price_updater.py:404-410 | that exception happens: "Model!" becomes "model", which then becomes "" |
| PriceUpdater.CleanPrice | price_updater.py:419 | keeps only ASCII digits and '.'; never longer than its input |
| PriceUpdater.CleanPriceOfChar | price_updater.py:419 | one character is kept exactly when it is a digit or a dot |
| PriceUpdater.CleanPriceConcat | price_updater.py:419 | cleaning distributes over concatenation; with the line above this fixes the result on every text |
| PriceUpdater.CleanPriceDropsOtherText | price_updater.py:419 | text without digits or dots cleans to "" |
| PriceUpdater.CleanPriceKeepsPriceText | price_updater.py:419 | text of digits and dots is kept whole |
| PriceUpdater.IsDecimalText | price_updater.py:425 | what `float()` accepts among digit-and-dot strings: at least one digit and at most one dot |
| PriceUpdater.DecimalValue | price_updater.py:425 | whole part plus fraction; never negative |
| PriceUpdater.ParseFloat | price_updater.py:424-427 | the decimal value when `float()` accepts the text, `None` for the `ValueError` |
| PriceUpdater.ParsePrice | price_updater.py:413-427 | never negative; the decimal value of the digits-and-dots residue when `float()` accepts it, 0.0 otherwise (including the empty text) |
| PriceUpdater.ParsePriceIgnoresUnits | price_updater.py:413-427 | text around the number in which no character is a digit or '.' does not change the price |
| PriceUpdater.NatToDigits | price_updater.py:413-427 | the decimal digits of n, whose value is n |
| PriceUpdater.ParsePriceOfDigits | price_updater.py:413-427 | a whole number written in digits parses back to itself |
| PriceUpdater.ParsePriceText | price_updater.py:429-447 | never negative; 0.0 when the text has '免费' or, in any case, 'free'; otherwise exactly `_parse_price` |
| PriceUpdater.FindColumnIndex | price_updater.py:395-400 | -1 or a valid index; the header there contains a keyword (both lower-cased); no earlier header does, and none at all when -1 |
| PriceUpdater.DetermineCategory | price_updater.py:455-467 | always a valid category; zero prices or a free title give free; fine_tune exactly when the title is not free, the prices are not both zero and there is a fine-tune marker; for non-negative prices, paid exactly when there is no free or fine-tune marker and some price is positive |
| Basics.ContainsIffOccurs | price_updater.py:460-462 | `Contains`, which models Python's `sub in s`, holds exactly when `sub` occurs at some offset of `s` |
| PriceUpdater.DetermineModelCategory | price_updater.py:372-379 | always a valid category; fine_tune exactly when the text has '训练'; free exactly when it does not and the price is 0 or a free marker is present |
| PriceUpdater.FirstRuleType | price_updater.py:248-263 | the type of the first rule whose marker occurs in the name; "Language" when none does |
| PriceUpdater.DetermineModelType | price_updater.py:248-263 | the if-chain is the first-match rule over VL, Coder, Thinking, OCR, Chat, Instruct |
| RevenueCalculator.ModelPricing.CalculateRequestRevenue | token_service_calculator.py:21-25 | non-negative for non-negative tokens and prices |
| RevenueCalculator.RequestRevenueOfNothing | token_service_calculator.py:21-25 | a request with no tokens earns 0 |
| RevenueCalculator.RequestRevenueAdditive | token_service_calculator.py:21-25 | revenue is additive in the token counts |
| RevenueCalculator.RequestRevenueScales | token_service_calculator.py:21-25 | k times the tokens earn k times the revenue |
| RevenueCalculator.MonthlyPowerCost | token_service_calculator.py:191 | watts × 24 h × 30 d / 1000 × 0.8 yuan equals watts × 0.576; non-negative for non-negative watts |
| RevenueCalculator.PurchaseMonthlyCost | token_service_calculator.py:187-192 | with non-negative inputs, the monthly cost of owned hardware is at least its maintenance |
| RevenueCalculator.SlaRatio | token_service_calculator.py:234-242 | a ratio in (0, 1]; 0.8 for any level that is not listed |
| RevenueCalculator.SlaRatioMatchesSeededLevels | token_service_calculator.py:234-242 | the fallback table agrees with the `max_concurrent_ratio` of every seeded SLA level (database.py:540-545) |
| RevenueCalculator.MarkNonKey | token_service_calculator.py:251 | each character outside [a-z0-9] becomes '-' |
| RevenueCalculator.ReplaceRuns | token_service_calculator.py:251 | each maximal run outside [a-z0-9] becomes one '-'; equal to marking and collapsing by `ReplaceRunsIsCollapse` |
| RevenueCalculator.ReplaceRunsIsCollapse | token_service_calculator.py:251 | replacing each run outside [a-z0-9] by one '-' is the same as marking each character and then collapsing dash runs |
| RevenueCalculator.ModelKey | token_service_calculator.py:245-252 | the maximal [a-z0-9] runs of the lower-cased name joined by single dashes; its non-dash characters are exactly the [a-z0-9] characters of the lower-cased name, in order; only [a-z0-9-]; no double dash; no dash at either end |
| RevenueCalculator.KeyIsJoin | token_service_calculator.py:250-252 | replacing runs and stripping dashes joins the [a-z0-9] runs with single dashes |
| RevenueCalculator.KeyKeepsKeyChars | token_service_calculator.py:250-252 | the key keeps every [a-z0-9] character, in order |
| RevenueCalculator.ModelKeyIdempotent | token_service_calculator.py:245-252 | the key of a key is the key itself |
| RevenueCalculator.KeyIsFixedPoint | token_service_calculator.py:245-252 | text already in key form is its own key |
| RevenueCalculator.ModelKeyAgreesWithNormalizedName | token_service_calculator.py:245-252 | on ASCII names without '_' that are not a placeholder, the calculator's key equals the scraper's normalised name (price_updater.py:402-411) |
| RevenueCalculator.TokenServiceCalculator.constructor | token_service_calculator.py:66-71 | nothing is configured; the calculator uses the given database |
| RevenueCalculator.TokenServiceCalculator.SetModelPricing | token_service_calculator.py:73-75 | the pricing field is set; nothing else changes |
| RevenueCalculator.TokenServiceCalculator.SetServiceProfile | token_service_calculator.py:117-118 | the profile field is set; nothing else changes |
| RevenueCalculator.TokenServiceCalculator.SetHardware | token_service_calculator.py:120-121 | the hardware field is set; nothing else changes |
| RevenueCalculator.TokenServiceCalculator.SetServiceParameters | token_service_calculator.py:123-124 | the parameters field is set; nothing else changes |
| RevenueCalculator.TokenServiceCalculator.CalculateSingleServiceMetrics | token_service_calculator.py:126-154 | revenue is the pricing's request revenue; processing time is prefill plus decode time; QPS times processing time is 1 when that time is positive, else QPS is 0; daily requests are QPS × 86400 × uptime; daily revenue is daily requests × revenue |
| RevenueCalculator.TokenServiceCalculator.CalculateHardwareCapacity | token_service_calculator.py:156-172 | concurrency is the smaller of the hardware ceiling and the prefill estimate; total QPS times response time is that concurrency (0 if the time is not positive); instances equal the concurrency |
| RevenueCalculator.TokenServiceCalculator.CalculateHardwareCost | token_service_calculator.py:174-214 | zero without hardware; otherwise: the lifecycle cost is 12 × years months of the monthly cost; the details name the mode, hardware and GPU count; the monthly cost covers all four cases (known or unknown hardware, rental or purchase) |
| RevenueCalculator.TokenServiceCalculator.GetEffectiveConcurrency | token_service_calculator.py:216-243 | without pricing, hardware and parameters: the hardware ceiling, or 0 without hardware; otherwise `int(ceiling × SLA ratio)`, which lies in [0, ceiling] |
| RevenueCalculator.TokenServiceCalculator.GetModelKeyFromPricing | token_service_calculator.py:245-252 | the model key of the configured model name |
| RevenueCalculator.TokenServiceCalculator.CalculateLifecycleRevenue | token_service_calculator.py:254-301 | single revenue, concurrency, hardware cost and utilisation are those of the other calculations; every figure is `LifecycleFigures` of them |
| RevenueCalculator.LifecycleFigures | token_service_calculator.py:261-286 | effective QPS × response time = concurrency × load; daily requests = QPS × 86400; daily revenue = requests × revenue; annual = daily × 365; lifecycle = annual × years; the daily, annual and lifecycle nets subtract 1/30, 12 and 12 × years months of cost, so lifecycle net = annual net × years |
| RevenueCalculator.LifecycleArithmetic | token_service_calculator.py:274-286 | counting the lifecycle in days or in years gives the same revenue, and its net is the annual net times the years |

## Left out

- Network access, HTML parsing and table-title extraction in `price_updater.py` are I/O and are not modelled. So are the regex extractors of descriptions, providers and parameter sizes, and the JSON files.
- The SQLite plumbing is not modelled: connections, the DDL text, `updated_at`/`last_updated` timestamps and the history row ids. Foreign keys are not modelled as constraints, because SQLite does not enforce them by default.
- `get_pricing_statistics`, `migrate_json_to_sqlite`, `get_sla_levels`, `load_model_prices_from_db`, `set_model_from_catalog`, `list_available_models` and `generate_report` are outside the modelled core. They are reporting, migration or console output.
- The constructors do not open a database file. `TokenServiceCalculator` receives its database as a parameter. `TokenServiceDatabase` starts empty, as a fresh file does.
- Floating point is modelled as exact reals. Rounding and overflow of IEEE doubles are not captured. `Trunc` is exact truncation of a real.
- `str.lower()`, `\w` and `\d` are modelled on ASCII only, plus the CJK block U+4E00–U+9FFF that the normalising pattern names. Non-ASCII letters and Unicode digits, which Python also accepts, are not modelled. For the same reason `float()` is modelled on ASCII digits and dots only.
- `ParseFloat` does not model the values that Python's `float()` accepts but that cannot come out of `re.sub(r'[^\d.]', '', …)`: signs, exponents, "inf" and "nan".
- Concurrent access to the database file is not modelled.
- RevenueCalculator.TokenServiceCalculator.GetEffectiveConcurrency: does not model the database lookup branch. It cannot be reached, because the call passes three of the five required arguments and the `TypeError` is caught.
- RevenueCalculator.TokenServiceCalculator.CalculateHardwareCost: reads the hardware table directly. The list-to-dictionary conversion on line 180 is modelled separately by `Database.GetHardwareConfigs`, `Database.IndexByName` and `Database.HardwareIndexIsTable`.
- Database.TokenServiceDatabase.GetModelsByCategory: the order of rows with equal names is left open. SQLite does not fix it either.
- Database.TokenServiceDatabase.GetHardwareConfigs: returns a set, since the query has no `ORDER BY`. The order of the list is not modelled.
- PriceUpdater.NormalizeIdempotent: the exception covers both placeholders, 'model' and '模型', because either can be the first result.
