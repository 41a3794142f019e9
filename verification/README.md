# REE Data Graphs — a Dafny model of the price pipeline

The WordPress plugin `ree-data-graphs.php` fetches Spanish electricity
market prices from the REE open-data API and shows them as line charts and
coloured HTML tables through shortcodes. This project models the logic
between the network fetch and the markup:

- `ree_procesar_datos` (module `Processing`): choose the upstream
  `time_trunc` from the range kind, reject a decoded response without the
  `included[0].attributes.values` path, convert every price from €/MWh to
  €/kWh, and derive one label per point (module `Labels`): the two-digit
  hour and 'h', a Sunday-first Spanish weekday and the two-digit day, or the
  month abbreviation.
- the label filter of the chart script (module `Axis`): keep the first
  occurrence of each label.
- `generar_tabla_estilo` (module `PriceTable`): split prices and labels into
  rows of six and colour each price cell from a twelve-colour scale
  (module `Palette`) by its position between the day's minimum and maximum.
- `generar_tabla_comparativa` (module `Comparison`): the maximum, minimum and
  current price, the label of the first hour holding the maximum and the
  minimum, and their colours.
- the PHP and JavaScript built-ins these use, stated once (module
  `Sequences`): `array_search` / `indexOf`, `max`, `min`, `array_chunk`.

Prices are exact `real`s. The fetch followed by `json_decode` is a
parameter of `Processing.Process` (a function from the requested
`time_trunc` to the decoded response), and the UTC clock hour is a
parameter of `Comparison.Compare`. Timestamps arrive already decomposed
into the hour, day, weekday and month fields that `DateTime::format` reads.

Choices the code makes that the model keeps:

- The code has no guard for a flat series (maximum equal to minimum): the
  colour scale divides by `max - min` (lines 183 and 222-224). It has no
  guard either for a series too short to hold the current hour's index.
  `min`/`max` on an empty list and a division by zero abort the request
  in PHP 8. The model states these as preconditions: `Displayable` for
  both tables, and the current index in range for `Compare`.
- Month labels are what `format('M')` prints: English three-letter names,
  "Jan" to "Dec".
- Every upstream point becomes a point of the series; none is filtered out.
- Both tables call `ree_procesar_datos` with its default range kind
  'horas' (lines 162 and 202), so their headers and the reported hours are
  hour labels: `Processing.HourlySeriesLabels` and
  `Comparison.HourlySummaryLabels` state this. `StyledTable` and `Compare`
  are stated for any processed series, since what they promise does not
  depend on the range kind.

## Model

| member | source | states |
|---|---|---|
| `Sequences.FirstIndex` | ree-data-graphs.php:210-211 | `array_search` finds a value exactly when it is in the list; the position found holds it and no earlier position does, so ties go to the earliest hour |
| `Sequences.Max` | ree-data-graphs.php:170 | the maximum is one of the prices and no price exceeds it |
| `Sequences.Min` | ree-data-graphs.php:169 | the minimum is one of the prices and no price is below it |
| `Sequences.Chunk` | ree-data-graphs.php:167-168 | `array_chunk` rows concatenate back to the input; every row has 1 to 6 entries, every row but the last exactly 6; no rows for an empty input; every entry comes from the input |
| `Sequences.ChunkShape` | ree-data-graphs.php:167-168 | chunking the labels and the prices (equal lengths) gives as many rows, and row i of labels has the length of row i of prices |
| `Labels.TwoDigits` | ree-data-graphs.php:46-50 | `TwoDigits` renders 'd'/'H' zero-padded: two digits that read back as the number, with a leading zero exactly below 10 |
| `Labels.LabelIdentifiesSlot` | ree-data-graphs.php:42-51 | `PointLabel` gives two timestamps the same label if and only if they agree on the hour (hour ranges), on weekday and day ('dias'), or on the month ('meses') |
| `Labels.HourLabelReadsBack` | ree-data-graphs.php:50 | an hour label from `PointLabel` is three characters, the zero-padded hour then 'h', and its digits read back as the hour |
| `Processing.TimeTrunc` | ree-data-graphs.php:36 | the upstream truncation is 'month' for the 'meses' range and 'hour' for every other range |
| `Processing.Process` | ree-data-graphs.php:35-55 | null exactly when the response lacks `included[0].attributes.values` (an empty or non-object response included); otherwise labels, prices and raw data have the length of the upstream list, raw data is that list unchanged, each price (`ToKWh`) times 1000 is the upstream value, and each label is the `PointLabel` of that point's timestamp |
| `Processing.SeriesLabelsMatchSlots` | ree-data-graphs.php:42-54 | within one processed series, two points share a label exactly when their timestamps agree on the fields the range shows |
| `Processing.HourlySeriesLabels` | ree-data-graphs.php:35-50 | with the default range kind 'horas', every label of the series is the zero-padded hour of its point followed by 'h' |
| `Palette.ColorIndex` | ree-data-graphs.php:183 | for a price between a strictly smaller minimum and the maximum, the scaled index truncated by `Trunc` (the `(int)` cast) lies in 0..11, inside the 12-colour palette |
| `Palette.ColorIndexEnds` | ree-data-graphs.php:222-224 | the minimum price maps to index 0 and the maximum to index 11 |
| `Palette.ColorIndexMonotone` | ree-data-graphs.php:183 | a dearer price never gets a smaller colour index |
| `Axis.UniqueLabelsSpec` | ree-data-graphs.php:76 | `UniqueLabels`, the first-occurrence filter, keeps labels with no duplicates, exactly the labels of the series, in the order of their first occurrence; they are as many as the labels exactly when no label repeats |
| `Axis.UniqueLabelsSubsequence` | ree-data-graphs.php:76 | the labels `UniqueLabels` keeps are a subsequence of the labels: strictly increasing positions, each holding the kept label |
| `PriceTable.ChunkedPricesInRange` | ree-data-graphs.php:167-183 | every price in a table row lies between the series minimum and maximum, as the colour scaling needs |
| `PriceTable.CellColor` | ree-data-graphs.php:183-184 | the colour of a cell is an entry of the palette |
| `PriceTable.PriceCells` | ree-data-graphs.php:182-186 | one cell per price of the row, in order, each carrying its price and the palette colour of its scaled index |
| `PriceTable.StyledTable` | ree-data-graphs.php:162-191 | the load error exactly when processing yielded null; otherwise row i holds the i-th chunk of labels over the cells of the i-th chunk of prices |
| `PriceTable.TableShape` | ree-data-graphs.php:167-188 | each row has 1 to 6 cells and as many headers, all rows but the last have 6, headers and prices read row by row give back the labels and the prices, the cheapest price is drawn in the first colour and the dearest in the last |
| `Comparison.Compare` | ree-data-graphs.php:201-213 | the load error exactly when processing yielded null; otherwise max and min bound every price and occur in the list, the max and min hours are the first hours holding them (ties go to the earliest hour) and their labels are reported, and the current price is the entry at (UTC hour + 1) mod 24 |
| `Comparison.SummaryColors` | ree-data-graphs.php:222-228 | the maximum is drawn in the last palette colour, the minimum in the first, and the current price, which lies between them, in the same colour the styled table (`CellColor`) gives that hour's cell |
| `Comparison.HourlySummaryLabels` | ree-data-graphs.php:202-213 | for the series the comparison table actually processes ('horas'), the reported max and min times are the zero-padded hours of those points followed by 'h' |
| `Comparison.CurrentPriceAsWrittenFindsLateHoursOnly` | ree-data-graphs.php:208-209 | `CurrentPriceAsWritten`, indexing the prices with the two-digit hour string, finds a price if and only if the hour is 10 or later and within the list |
| `Comparison.TwoDigitKeyIsIntFromTen` | ree-data-graphs.php:208-209 | `ArrayKey`, PHP's cast of a string array key, turns a two-digit `format('H')` string into an integer key exactly from 10 on, and then into the number it spells |
| `Comparison.AsWrittenMissesEightOClock` | ree-data-graphs.php:208-209 | at 07:xx UTC a 24-price day has an entry for hour 08, yet `CurrentPriceAsWritten`, the lookup by the string "08", yields null |

## Findings

| source | as written | input that shows it | evidently intended | confidence | as-written member | corrected member |
|---|---|---|---|---|---|---|
| ree-data-graphs.php:208-209 | `$prices[$current_hour]` with `$current_hour` the string `format('H')` returns; PHP turns a string key into an integer key only when it has no leading zero, so "00" to "09" stay string keys that the price list does not have | UTC clock at 07:xx, 24 prices: key "08" misses and the current price is null (a warning); the cell shows 0.000 and its colour is computed as if the price were 0 | look up the price at the integer hour (UTC hour + 1) mod 24 | high (documented PHP key casting); not executed | `Comparison.AsWrittenMissesEightOClock` | `Comparison.Compare` |

## Left out

- The HTTP request (`getenv` token, URL building, `file_get_contents`) and `json_decode`: network I/O and a foreign parser; their combined result is the `response` parameter of `Process`.
- `new DateTime(...)` parsing: a foreign library call; timestamps are given as decomposed fields.
- WordPress plumbing (`wp_enqueue_script`, `add_action`, `add_shortcode`, `esc_html`, `esc_attr`, output buffering): framework and output layer.
- The Chart.js configuration and the HTML/CSS string assembly of all three renderers: presentation; the tables are modelled as rows of labels and cells with prices and colours, not markup.
- The shortcode wrappers that build date ranges with `date()` and `strtotime()`, and the displayed current time `format('H:i')`: they read the wall clock.
- `number_format(..., 3)` and `toFixed(4)` rounding, and IEEE floating point in the division by 1000 and the colour scaling: prices are exact reals.
- The rest of the leading-zero path: after the lookup misses, the source goes on computing with a null price; the model of that path stops at the null lookup (`CurrentPriceAsWritten`), and the summary uses the integer index.
- Two shapes of the decoded response: a JSON object whose `included` member is present but null is modelled like an absent member, and a non-list `values` member is not modelled; both make the source return null or fail in `array_map`.
- Labels are sequences of Unicode characters, not UTF-8 byte strings: "Mié" and "Sáb" are three characters here and four bytes for `strlen`; label equality, the property proved about them, is the same either way.
