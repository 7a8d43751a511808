# Save My Fridge — a verified model of the domain logic

"냉장고를 지켜줘" (Save My Fridge) is a household fridge tracker that
comes as two page scripts. `my.py` keeps three SQLite tables: ingredients,
a waste log and a points log. `project.py` keeps an ingredient table, a
waste log and a points counter in the browser session. Both scripts mix
widget calls with a small amount of domain logic. This project lifts that
logic out and proves what it does:

- the ingredient store: a guarded insert, delete by id and a listing by expiry;
- the expiry advisor: days left as `expiry - today`, an ascending sort, the
  top 3 (my.py) or top 4 (project.py) rows, and the three-way card tier;
- the "eat" and "discard" buttons: each deletes one ingredient and appends
  exactly one event, to the points log or to the waste log, never both;
- the waste ledger: append, the total, and the first-minus-last trend;
- the points ledger and counter, with level, progress and the points
  remaining to the next level;
- the recipe matcher: substring containment of the selected names, plus
  project.py's empty-selection and type filters.

Dates are integer day numbers. The current date is the parameter `today`.

Modules, one per component:

- `Text`: Python's `needle in hay` and `s.strip()`.
- `Tables`: sort by a column, `head(n)` and boolean-mask filtering.
- `Expiry`: days left and the urgency tier.
- `Points`: level, progress and remaining points.
- `Ledgers`: waste and points records, totals, and the waste trend.
- `Recipes`: the two recipe tables and the two matchers.
- `Categories`: the category choices of the add forms.
- `DbFridge`: my.py. The class `Fridge` holds the three tables as
  sequence fields, plus the next auto-increment id.
- `SessionFridge`: project.py. The class `Session` holds the three
  session keys as `Option` fields; `None` means the key is missing.
- `Wrappers`: `Option`.

Where the code does less than one might expect, the model follows the code:

- One might expect a stable sort by days left. Both scripts call pandas
  `sort_values`, whose default quicksort is not stable. The model proves
  only that the result is sorted and is a permutation of the input. The
  insertion sort it uses happens to be stable, but no contract says so;
  `Tables.SortBySortedIsIdentity` speaks only of tables without ties.
- One might expect adding an ingredient or a waste record to fail on an
  empty name, a quantity below 1 or a negative weight. The code checks
  only the name: `if name:` in my.py and `name.strip() == ""` in
  project.py. The numeric ranges come from the number-input widgets, so
  they appear as `requires` clauses.
- The name search of the guide page reads like plain substring
  containment, but the code uses SQL `LIKE`, so that search is left out
  (see below).
- The two scripts disagree on an item due today. my.py's cards call
  0 days left "urgent" (my.py:256-259). project.py's note calls 0 days or
  fewer "expired" (project.py:275). The lemma
  `Expiry.TierAndNoteDisagreeOnlyOnDueToday` records the disagreement
  without resolving it.
- The two scripts validate the ingredient name differently. my.py accepts
  a name made only of spaces. project.py rejects it, and stores the name
  as typed, not stripped.

## Model

| member | source | states |
|---|---|---|
| Text.Contains | my.py:310 | `needle in hay` holds exactly when the needle occurs at some index of the string; the empty needle occurs everywhere |
| Text.OccursAfterHead | project.py:302 | when the needle is not a prefix, it occurs in the string exactly when it occurs in the string's tail |
| Text.IsSpace | project.py:219 | the characters `strip()` cuts are Python's whitespace: they include space, tab, newline and carriage return, and exclude digits, ASCII letters and Hangul syllables |
| Text.Strip | project.py:219 | the stripped name is the name with some leading and some trailing space characters cut, and it neither starts nor ends with a space character, so it is exactly the name without its leading and trailing whitespace |
| Text.StripEmptyIffAllSpace | project.py:219 | `name.strip() == ""` holds exactly when every character of the name is a space |
| Tables.Insert | my.py:240 | inserting into a sorted table adds exactly one row and keeps the table sorted |
| Tables.SortBy | my.py:240 | the sorted table is a permutation of the input, of the same length, in non-decreasing key order |
| Tables.SortBySortedIsIdentity | project.py:327 | a table whose keys strictly increase (so it has no ties) is returned unchanged |
| Tables.Head | my.py:245 | `head(n)` has length min(n, size) and is a prefix of the table |
| Tables.HeadOfSortedIsSmallest | my.py:245 | no row in the head of a sorted table has a larger key than any row left out |
| Tables.SubsequenceReflexive | project.py:298 | a table is a subsequence of itself (the unfiltered case) |
| Tables.Filter | my.py:311 | `df[mask]` keeps exactly the rows that satisfy the mask, as an in-order subsequence |
| Tables.FilterAppend | my.py:217 | filtering a concatenation filters each part |
| Tables.FilterKeepsAll | my.py:217 | a mask that selects every row keeps the table unchanged |
| Tables.FilterKeepsNone | my.py:310-311 | a mask that selects no row gives the empty table |
| Tables.FilterThen | project.py:301-308 | applying two masks one after the other equals applying their conjunction |
| Tables.FilterSplit | project.py:255-256 | the rows two complementary masks select together make up the table |
| Expiry.DaysLeft | my.py:237 | the expiry date lies exactly the days-left number of days after today; the count is negative exactly when the date has passed |
| Expiry.TierOf | my.py:256-261 | the tier is expired exactly when days < 0, urgent exactly when 0 ≤ days ≤ 3, fine exactly when days > 3 |
| Expiry.TierMonotone | my.py:256-261 | an item with fewer days left is never in a calmer tier |
| Expiry.TierAndNoteDisagreeOnlyOnDueToday | project.py:275 | the card tier and the note's "0 or fewer is expired" rule disagree only at 0 days left |
| Points.Level | my.py:393 | the level is the 100-point band holding the total, so a total of 0 is level 1 and a non-negative total is level ≥ 1 |
| Points.Progress | project.py:426 | progress lies in [0,100) and (level − 1)·100 + progress equals the total |
| Points.Remaining | my.py:394 | remaining lies in [1,100] and adds up to 100 with the progress |
| Points.RemainingIsLeastGain | project.py:425-430 | any gain smaller than `remaining` keeps the level; a gain of exactly `remaining` reaches the next level with no progress |
| Points.LevelOfBand | my.py:393 | a total in the band [(l−1)·100, l·100) has level l |
| Points.LevelMonotone | project.py:425 | a larger total never has a lower level |
| Points.LevelExamples | my.py:392-394 | level(0)=1, level(99)=1, level(100)=2, level(250)=3; progress(130)=30, remaining(130)=70, remaining(0)=100 |
| Ledgers.WasteTotal | my.py:337 | the total of non-negative weights is non-negative, and it is 0 exactly when every weight is 0, the empty log included |
| Ledgers.WasteTotalAppend | my.py:275 | appending one record adds exactly its weight to the total |
| Ledgers.PointsTotal | my.py:390 | the empty ledger totals 0; the total of non-negative awards is non-negative, and it is 0 exactly when every award is 0 |
| Ledgers.PointsTotalAppend | my.py:423 | appending one record adds exactly its points to the total |
| Ledgers.Classify | project.py:339-344 | decreased exactly when diff > 0, unchanged exactly when diff = 0, increased by \|diff\| exactly when diff < 0 |
| Ledgers.Chronological | project.py:327 | the waste log sorted by date is a permutation of the log in non-decreasing date order |
| Ledgers.ChronologicalEnds | project.py:327 | the date-sorted log starts with an earliest record and ends with a latest one |
| Ledgers.EndsApart | project.py:338 | the first and the last row of the date-sorted log are two different records of the log, even when equal as values |
| Ledgers.WasteDelta | project.py:337-338 | a delta exists exactly when the log has at least 2 records, and it is the weight of an earliest record minus that of a latest record, two different records of the log |
| Ledgers.WasteTrend | project.py:337-344 | a trend exists exactly when the log has at least 2 records, and it is the classification of the delta |
| Recipes.MentionsAny | my.py:310 | the mask holds exactly when some selected name is a substring of the required-ingredients string |
| Recipes.MatchSelected | my.py:310-311 | keeps exactly the recipes that mention a selected name, as an in-order subsequence of the table |
| Recipes.SessionFilter | project.py:298-308 | keeps exactly the recipes that pass the ingredient filter (off for an empty selection) and the type filter (off for "전체"), in table order; with both filters off, the whole table |
| Recipes.DbRecipes | my.py:296-301 | my.py's recipe table: five dishes under distinct names, each needing some ingredient, with positive calories |
| Recipes.SessionRecipes | project.py:286-293 | project.py's recipe table: four dishes under distinct names with positive calories, none typed "전체", the type filter's "all types" option |
| Recipes.DbEggExample | my.py:296-311 | selecting "계란" in my.py's table suggests only 계란후라이 |
| Recipes.SessionEggExample | project.py:286-304 | selecting "계란" with the type filter off in project.py's table suggests only 계란후라이 |
| Categories.Kinds | my.py:169 | the six category options of both add forms (also project.py:214), all distinct, ending with "기타" |
| DbFridge.RemoveId | my.py:217 | deleting by id keeps exactly the rows with another id, in order |
| DbFridge.RemoveAbsentId | my.py:217 | deleting an id that no row has changes nothing |
| DbFridge.RemoveIdIdempotent | my.py:217 | deleting the same id twice gives the same table as deleting it once |
| DbFridge.RemoveIdAt | my.py:269 | with unique ids, deleting row k's id removes row k and only it, keeping the order of the rest |
| DbFridge.RemoveIdKeepsIds | my.py:24 | deleting keeps the remaining ids unique |
| DbFridge.AddThenRemove | my.py:181-184 | inserting a row under a fresh id and then deleting that id restores the table |
| DbFridge.ListByExpiry | my.py:194 | the listing is a permutation of the table in non-decreasing expiry order |
| DbFridge.Annotate | my.py:236-237 | row k of the alert table carries ingredient k, and its days left is expiry − today |
| DbFridge.AlertList | my.py:236-240 | the alert list is a permutation of the annotated table, sorted by days left; every row belongs to the fridge and carries expiry − today |
| DbFridge.AlertCards | my.py:245 | the cards are the first min(3, size) rows of the alert list, and none has more days left than any row not shown |
| DbFridge.RecipeView | my.py:303-319 | warns exactly when the fridge is empty and prompts exactly when nothing is selected; otherwise it shows an in-order subsequence of the recipes that holds exactly the recipes containing a selected name |
| DbFridge.Expand | my.py:68-76 | each CSV row becomes one ingredient with quantity 1, expiry today + default_days, and consecutive new ids |
| DbFridge.Fridge.constructor | my.py:17-51 | three empty tables; the first id will be 1 |
| DbFridge.Fridge.SeedFromCsv | my.py:58-86 | on every run of the page, imports the CSV rows only when the ingredients table is empty; otherwise nothing changes; the ledgers are untouched |
| DbFridge.Fridge.Add | my.py:179-188 | a non-empty name appends exactly one row with the given fields under a fresh id, and deleting that id undoes it; an empty name changes nothing |
| DbFridge.Fridge.Delete | my.py:215-217 | the table becomes the table without that id's row; an absent id changes nothing; the ledgers are untouched |
| DbFridge.Fridge.Eat | my.py:265-271 | appends exactly one +30 points record and deletes exactly that ingredient; the points total grows by 30; the waste log is unchanged |
| DbFridge.Fridge.Discard | my.py:273-279 | appends exactly one (today, 300 g) waste record and deletes exactly that ingredient; the waste total grows by 300; the points log is unchanged |
| DbFridge.Fridge.RecordWaste | my.py:342-350 | appends exactly one (date, grams) record; the waste total grows by that weight |
| DbFridge.Fridge.CheckIn | my.py:421-425 | appends exactly one +10 points record; the total grows by 10 |
| SessionFridge.CalcDaysLeft | project.py:250-253 | a date cell yields expiry − today; any other cell yields nothing |
| SessionFridge.Annotate | project.py:255 | row k carries table row k and `calc_days_left` of its expiry cell |
| SessionFridge.DatedBlockFirst | project.py:256 | a sorted dated block followed by undated rows is ordered with missing values last |
| SessionFridge.AlertList | project.py:255-256 | a permutation of the annotated table; rows with days left come first in ascending order, rows without come last |
| SessionFridge.Metrics | project.py:263 | the metric cards are the first min(4, size) rows of the sorted list, and none has more days left than a dated row not shown |
| SessionFridge.SeededWasteTrend | project.py:138-149 | the seeded log (800, 650, 500, 420 g in date order) has delta 380 and is classified as decreased |
| SessionFridge.Reward | project.py:407-420 | each button awards a positive amount: 30, 20 or 40 |
| SessionFridge.Session.constructor | project.py:123 | a new session has no keys set |
| SessionFridge.Session.EnsureDefaults | project.py:123-152 | each missing key gets its sample value (4 ingredients, 4 waste records, 40 points); a key already set keeps its value |
| SessionFridge.Session.Register | project.py:218-234 | a row is appended exactly when the name has a non-space character, with the name as typed; a blank name changes nothing |
| SessionFridge.Session.AddWaste | project.py:351-361 | appends exactly one (date, grams) record at the end; the total grows by that weight |
| SessionFridge.Session.Press | project.py:407-420 | the counter grows by exactly the button's reward and the level never drops |

## Left out

- All widgets, page routing, CSS, toasts, data frames and charts. These are presentation only.
- The progress-bar fraction `(total % 100) / 100` (my.py:402, project.py:429). It is a floating-point value; the model stops at the integer progress.
- project.py's own `init_db` (project.py:16-87). It creates SQLite tables and runs the same CSV import, but project.py never reads those tables back; its state is the browser session only.
- The SQLite connection, its caching and the query helpers. The tables are sequence fields of `DbFridge.Fridge`, and each query is one method or function.
- Reading `food_data.csv`. `Fridge.SeedFromCsv` takes the parsed rows as a parameter. A missing file or a parse error gives no rows. `int(default_days)` is taken as already an integer.
- The name search of the guide page (my.py:364). It builds a SQL `LIKE` pattern from user text. That brings `%`/`_` wildcards, ASCII case folding and SQL injection, which plain substring containment does not capture.
- Parsing the "id - name" label of the delete box (my.py:216). `Fridge.Delete` takes the id directly.
- The hard-coded sample metrics of project.py's home page (project.py:196-197).
- The timestamp column of the points log and its display order (my.py:389). Neither changes any total.
- The order among rows with equal days left, or equal dates, after a sort. pandas' default sort does not promise one.
- Calendar arithmetic and `datetime.date.today()`. Day numbers and the `today` parameter stand in for them.
- The distinct-name and sorted-name option lists of the recipe pages (my.py:292-293, project.py:295-296). The model takes the selection as a parameter. In my.py, the selection must come from the names in the fridge.
- DbFridge.Fridge.Eat, DbFridge.Fridge.Discard: the button exists only on the three alert cards. The model requires only that the ingredient is in the table.
