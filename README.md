# YouTube video search and recommendation: a verified model

This project models the two pieces of logic in a small video search and
recommendation site.

- **The search page controller** (`script.js`). Submitting the search form
  trims the query. An empty query does nothing. Any other query shows the
  loading indicator, hides the results and empty-state containers, and
  sends one search request. When the response arrives, a non-empty `videos`
  list replaces the result cards, sets the result counter and shows the
  results. An empty or absent list shows the empty state instead. A failure
  hides the loading indicator and raises one alert. Each card shows a
  duration label (`M:SS`) and carries its record's details. Clicking a card
  fills the detail dialog, including an embedded player URL, and dismissing
  the dialog clears the player's source.
- **The recommendation route** (`main.py`). Records are classified by views
  per day (Low, Medium or High). The `/recommend` handler lower-cases the
  keyword and keeps the records whose lower-cased title or main category
  contains it. It ranks them by predicted class (High 3, Medium 2, Low 1),
  sorts by rank with the highest first, and keeps the first five. It then
  returns the first as the top video and the other four at most as the
  rest. It also marks row 0's rank as `'Top'` in its local copy.

Modules:

- `Wrappers` holds `Option`.
- `Strings` holds decimal numerals, JavaScript's `trim`, ASCII lower-casing,
  substring search and prefix/suffix stripping.
- `Duration` holds the duration label and its parser.
- `SearchPage` holds the page (`Page` class), the detail dialog
  (`VideoModal` class) and the cards.
- `Recommend` holds the classification, the label maps, the filter, the sort
  and the selection.

The page is a class with the three visibility flags, the counter text, the
card sequence, the requests issued and the alerts raised. Each browser event
is a method on `Page` or on the dialog class `VideoModal`, or, for the click
on a card, the method `ViewDetails`. The page's invariant `Valid()` says at most one container is
visible, and a visible results container holds cards with a matching
counter. The recommendation pipeline is a composition of functions over
sequences. The `'Top'` mark is an in-place update of one array element.

Two behaviours of the code are worth stating:

- After a single search that fails, none of the three containers is visible
  (`FailedSearchScenario`). Loading, results and empty state therefore do
  not cover every moment: after a failure the page shows none of them.
- The `'Top'` mark (main.py:90) never reaches the result. `top_1` is a copy
  of row 0 taken before the mark, and `iloc[1:]` leaves row 0 out. The model
  keeps both facts: `Recommend` returns the unmarked row 0 and rows 1 to 4,
  and `MarkTop` states the in-place update on its own.

## Model

| member | source | states |
|---|---|---|
| `Strings.Decimal` | script.js:177 | A number renders as at least one digit, with no leading zero, and has a single digit exactly when it is below 10 |
| `Strings.DecimalRoundTrip` | script.js:177 | Reading a rendered number back gives the same number |
| `Strings.CanonicalDecimalRoundTrip` | script.js:177 | Every digit string without a leading zero is the rendering of the value it denotes |
| `Strings.LeadingNonzeroIsPositive` | script.js:177 | A digit string starting with a non-zero digit denotes a positive number |
| `Strings.TrimStart` | script.js:37 | The result is a suffix of the input. Every dropped character is whitespace, and the result does not start with whitespace |
| `Strings.TrimEnd` | script.js:37 | The result is a prefix of the input. Every dropped character is whitespace, and the result does not end with whitespace |
| `Strings.Trim` | script.js:37 | The trimmed query is the part of the input left after dropping its leading and its trailing whitespace: everything before it and after it is whitespace, and a non-empty result starts and ends with a non-whitespace character |
| `Strings.TrimEmptyIff` | script.js:37-41 | The trimmed query is empty exactly when the raw query is whitespace only |
| `Strings.TrimIdempotent` | script.js:37 | Trimming twice is the same as trimming once |
| `Strings.Lower` | main.py:68 | Lower-casing keeps the length, maps each character independently, and leaves no capital letter |
| `Strings.LowerIdempotent` | main.py:71-72 | Lower-casing a lower-cased string changes nothing |
| `Strings.Contains` | main.py:71-72 | The containment test is true exactly when the keyword occurs at some position |
| `Strings.ContainsLower` | main.py:71-72 | An occurrence of the keyword is still an occurrence after lower-casing both the text and the keyword |
| `Strings.Between` | script.js:156 | Defined exactly when the string starts with the prefix and ends with the suffix, without the two overlapping. The string is then the prefix, the result and the suffix |
| `Strings.BetweenRoundTrip` | script.js:156 | Stripping the prefix and suffix from prefix + id + suffix gives back the id |
| `Duration.FormatDuration` | script.js:174-178 | The label is ⌊s/60⌋ in decimal, then `:`, then exactly two digits whose value is s mod 60 |
| `Duration.FormatDurationRoundTrip` | script.js:175-177 | Parsing the label gives minutes*60 + seconds = s, with the seconds in [0, 59] |
| `Duration.FormatDurationInjective` | script.js:174-178 | Different durations have different labels |
| `Duration.ParseDurationCanonical` | script.js:174-178 | Every label that parses and has no leading zero in its minutes is the label of the duration it denotes |
| `Duration.PaddedSeconds` | script.js:177 | Two digits below 60 are exactly the padded rendering of their value |
| `Duration.FormatDurationExamples` | script.js:174-178 | 65 gives `1:05`, 600 gives `10:00` and 5 gives `0:05` |
| `SearchPage.DescriptionOrPlaceholder` | script.js:124 | A present, non-empty description is kept. An absent or empty one becomes `No description available`. The result is never empty |
| `SearchPage.EmbedUrl` | script.js:156 | The player URL is the video id between `https://www.youtube.com/embed/` and `?autoplay=0`, and the id can be read back from it |
| `SearchPage.WatchUrl` | script.js:163 | The watch link is the id after `https://youtube.com/watch?v=`, and the id can be read back from it |
| `SearchPage.RenderCard` | script.js:97-129 | A card shows the thumbnail, the `M:SS` label of the duration (which parses back to it), the score, title and channel, and the formatted view, like and comment counts. Its button keeps the id, title, channel, raw counters and score, and the description or the placeholder |
| `SearchPage.Page.State` | script.js:44-46 | Under the invariant, the flags stand for exactly one mode. Each of Loading, Results and Empty holds exactly when its flag is set |
| `SearchPage.Page.constructor` | script.js:28-32 | The page starts with nothing shown, no cards, no requests and no alerts |
| `SearchPage.Page.Submit` | script.js:34-59 | A request is sent exactly when the trimmed query is non-empty. Otherwise nothing changes. If sent: loading shown, results and empty state hidden, one request with the trimmed query appended, cards, counter and alerts kept |
| `SearchPage.Page.OnResponse` | script.js:66-84 | Loading is always hidden. A non-empty list shows results only, the counter is the list's length and the cards are exactly the rendered list. An empty or absent list shows the empty state only and keeps cards and counter. The invariant is kept |
| `SearchPage.Page.OnFailure` | script.js:85-89 | Loading is hidden and exactly one alert with the fixed message is added. Nothing else changes |
| `SearchPage.Page.DisplayVideoResults` | script.js:93-132 | All prior cards are replaced by one rendered card per video, in order. A helper of `OnResponse`, which restores `Valid()` after it |
| `SearchPage.VideoModal.constructor` | script.js:153 | The dialog starts hidden with an empty player source |
| `SearchPage.VideoModal.Open` | script.js:152-166 | Every field is overwritten from the details: title, channel and description as given, the embed URL, the watch link, `<n> views`, `<n> likes`, `<n> comments` and `Score: <s>` |
| `SearchPage.VideoModal.OnHidden` | script.js:181-183 | The dialog is hidden and the player source becomes empty. The title and the other text fields do not change |
| `SearchPage.ViewDetails` | script.js:135-148 | Clicking the i-th card opens the dialog with the embed URL of that card's id and every text field filled from its button: title, `<n> views`, `<n> likes`, `<n> comments`, `Score: <s>`, channel, description and the watch link |
| `SearchPage.BlankQueryScenario` | script.js:37-41 | On a fresh page, a whitespace-only query sends nothing and leaves the page idle |
| `SearchPage.TwoResultsScenario` | script.js:66-74 | A search answered with two videos shows results, two cards and the counter `2` |
| `SearchPage.EmptyResultsScenario` | script.js:80-83 | A search answered with an empty list shows only the empty state |
| `SearchPage.FailedSearchScenario` | script.js:85-89 | A single search that fails leaves nothing visible and exactly one alert |
| `SearchPage.DetailScenario` | script.js:124-183 | For a record with no description, the dialog shows the placeholder and a player URL carrying the record's id. After dismissal the source is empty |
| `Recommend.ClassifyPerformance` | main.py:17-23 | Low exactly when v < 1000, Medium exactly when 1000 ≤ v < 5000, High exactly when v ≥ 5000. Exactly one class applies |
| `Recommend.ClassificationMonotone` | main.py:17-23 | If v1 ≤ v2, the class of v1 ranks no higher than the class of v2 |
| `Recommend.PerformanceRank` | main.py:78-79 | Every predicted class maps to a rank in 1..3 |
| `Recommend.RankInjective` | main.py:78 | Different classes have different ranks |
| `Recommend.ScoreOfLabel` | main.py:49 | The lookup always gives a value in {1, 2, 3}. It agrees with the rank map on the three labels and gives 1 for any other label |
| `Recommend.FilterByKeyword` | main.py:71-72 | The kept records are a subsequence of the data. A record is kept exactly when it is in the data and its lower-cased title or category contains the keyword |
| `Recommend.FilterMultiplicity` | main.py:71-72 | Every copy of a matching record is kept, and no copy of a non-matching one |
| `Recommend.FilterIgnoresKeywordCase` | main.py:68-72 | A record whose title or main category contains the keyword, in any letter case, is kept by the filter on the lower-cased keyword |
| `Recommend.EmptyKeywordKeepsAll` | main.py:71-72 | The empty keyword keeps every record |
| `Recommend.RanksAreNumeric` | main.py:79 | Each record gets one numeric rank cell equal to its class's rank, in data order |
| `Recommend.Insert` | main.py:80 | Inserting a row into a rank-sorted sequence keeps it sorted and adds exactly that row |
| `Recommend.SortByRank` | main.py:80 | The sorted rows have non-increasing rank and are a permutation of the ranked filtered records |
| `Recommend.SortedHeadIsMax` | main.py:80-86 | In any rank-sorted permutation, the first row is a ranked record and no filtered record ranks higher |
| `Recommend.HeadKeepsHighest` | main.py:83 | Every row `head(n)` leaves out ranks no higher than the last row it keeps |
| `Recommend.TopSelection` | main.py:80-95 | For any rank-sorted permutation, the first five have min(5, n) rows. The top one has the maximum rank of all filtered records. The rest are at most four, rank no higher than the top, and every row left out ranks no higher than the last kept |
| `Recommend.NoMatchIff` | main.py:74-75 | The filter keeps nothing exactly when no record matches |
| `Recommend.SelectionFacts` | main.py:78-95 | The sorted head and the next min(5, n) - 1 rows form a sound selection over the data |
| `Recommend.MarkTop` | main.py:90 | Only row 0's rank cell becomes `Top`. Every other field of row 0 and every other row is unchanged |
| `Recommend.SplitTop` | main.py:83-95 | The top video is the sorted row 0, taken before the mark. The rest are sorted rows 1 to n-1, untouched by the mark |
| `Recommend.Recommend` | main.py:66-95 | The keyword is lower-cased. "No videos found for the keyword." with no top video exactly when nothing matches. Otherwise the top video is the sorted head (a matching record of maximum rank) and the rest are the next min(5, n) - 1 sorted rows |

## Left out

- The page's HTML template is not part of this model. The constructors start with every container hidden, an empty counter and an empty dialog.
- Anchor smooth scrolling and closing the mobile menu (script.js:3-21) are left out. They only drive the browser's DOM.
- The `console.error` call on the failure path (script.js:86) is left out: it is console output with no effect on the page.
- `fetch`, the HTTP status check and JSON parsing (script.js:49-65) are left out. They are network I/O. The outcome arrives as `OnResponse(videos)` or `OnFailure()`, and the request is recorded in `Page.requests`.
- The delayed scroll to the results (script.js:77-79) is left out: it is a timer and a browser call.
- The bootstrap `Modal` object and `modal.show()` (script.js:153, 165) are foreign library calls. They are reduced to the `shown` flag.
- `formatNumber` (script.js:169-171) is left opaque: `toLocaleString` depends on the locale. It is a function-valued field that the page and the dialog receive at construction.
- `score.toFixed(1)` (script.js:104, 123) is floating point. A record's `score` is the already-rendered text.
- The sample placeholder (script.js:185-196) is left out: it uses a random number.
- Overlapping searches are not modelled. The source has no request sequencing, so this is concurrency without an order to model. Events are applied one at a time in the order given.
- HTML escaping is not modelled. The source interpolates values into `innerHTML` and data attributes, so a quote in a title or description would corrupt the card. The model assumes the attributes keep values verbatim.
- An exception thrown while rendering is not modelled. For example, a record without a numeric score makes `toFixed` throw, which enters the failure path after the cards were partly replaced.
- `Duration.FormatDuration`: only non-negative integer durations are modelled. Negative or fractional values, and values beyond JavaScript's exact integer range, are left out.
- `Strings.Trim`: it works on Unicode code points, while JavaScript strings are UTF-16 code units. Surrogate pairs are not modelled.
- Loading the CSV and the pickled model, `model.predict` and `LabelEncoder` (main.py:9-35) are left out. They are file I/O and opaque ML calls. Each record carries its predicted class as input.
- Flask routing, `request.form` and template rendering (main.py:59-61, 66-68, 75, 92-95) are left out. `Recommend` returns the template's arguments as an `Outcome`.
- `calculate_performance_score` (main.py:43-54) is left out: its normalisation, weights and `round` are floating point. `top_score` is therefore not part of `Outcome`. Its label lookup (main.py:49) is `ScoreOfLabel`.
- The `'Performance' not in data.columns` guard (main.py:16) is left out. It depends on the CSV's columns. `ClassifyPerformance` models the classifier itself.
- `Recommend.ClassifyPerformance`: views per day are exact reals. A NaN, which fails both comparisons and so is classed High, is not modelled.
- `Strings.Lower`: it lower-cases ASCII letters only. Python's `str.lower` also maps other Unicode letters.
- `Recommend.FilterByKeyword`: `str.contains` treats the keyword as a regular expression. The model uses plain substring containment, so a keyword with regex metacharacters may behave differently or raise an error in the source. Missing (NaN) titles or categories are not modelled.
- `Recommend.SortByRank`: pandas' default sort is not stable. The model orders equal ranks by its own insertion sort. `TopSelection` and `SortedHeadIsMax` hold for every rank-sorted permutation, so no stated property depends on the tie order.
- The column dtype change that pandas makes when it writes the string `'Top'` into a numeric column is not modelled. The `Rank` datatype holds both kinds of cell.
