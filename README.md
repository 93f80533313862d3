# Zomato scraper core, modelled in Dafny

The scraper saves restaurant menu pages, pulls the menu catalogue out of each
page, flattens it into one row per dish, and separately asks AI models for a
dish's nutrition and merges their answers. This project models the three
deterministic pieces of that pipeline and proves properties of them:

- **Embedded-JSON locator** (`extract.dfy`, module `JsonExtract`): the search
  for the first `JSON.parse("…")` call. It uses the pattern
  `JSON\.parse\("(.+?)"\)` with `.` matching newlines. The module also covers
  unescaping and parsing the literal, with the uninterpreted codec and parser
  as parameters, and the ±50-character context printed when parsing fails.
- **Page batch** (`html_to_json.dfy`, module `HtmlToJson`): the `.html`
  filter over a directory listing, the `.html` → `.json` rewrite of the output
  name, and the skip-or-save control flow of one file. The processor is a
  class. The documents it writes are its `written` map.
- **Menu flattener** (`menu.dfy`, module `Menu`): the restaurant-id check and
  the depth-first walk `menus → categories → items` that emits six fields per
  item, with `"N/A"` for a missing field. It runs over a JSON value whose
  Python operations (`d[k]`, `.get`, `.keys()`, `for`) raise exactly the
  exceptions Python raises (`json.dfy`, module `Json`).
- **Nutrition consensus** (`nutrition.dfy`, module `Nutrition`): each
  estimator's failure becomes `{}`. Two results are merged by averaging
  calories, protein, carbohydrates and fat over both estimators, with 0 for a
  missing value and a divisor of 2 always. Vitamins and minerals are merged
  by set union.

`wrappers.dfy` holds `Option` and `Result`. `Result.Err` stands for a raised
exception.

Four behaviours of the code are kept as they are:

- The pattern gives backslashes no meaning, so `\")` inside the literal ends
  it. `BackslashDoesNotEscape` shows this.
- `parse_json` catches only `json.JSONDecodeError`. A failure of the
  `unicode_escape` step propagates out of `process_file` and ends the whole
  batch (`Parsed.Raised`, `FileOutcome.Aborted`, `RunAllAbortStays`).
- The code merges exactly two estimators and always divides by 2.
  `MergeAll` is the same rule over any number of results, and
  `MergeTwoIsMergeAll` ties the code's rule to it at two.
- A literal that parses to JSON `null` gives Python's `None`, which
  `process_file` takes for a failed parse: the page is skipped
  (`FileOutcome.NullDocument`, `NullDocumentNotSaved`).

`Json.Index`, `Json.Get`, `Json.Keys` and `Json.Iter` are not functions of the
repository. They stand for the Python built-ins the flattener applies to the
decoded document (`d[k]`, `d.get(k, default)`, `d.keys()`, `for x in v`),
with the exceptions Python raises.

## Model

| member | source | states |
|---|---|---|
| `JsonExtract.IsMatch` | src/extract_json_from_html.py:36 | what a match of the pattern is: `JSON.parse("` at offset i (`MarkerAt`), at least one character of any kind, then `")` at offset q (`CloseAt`); every extractor contract is stated against it |
| `JsonExtract.FindClose` | src/extract_json_from_html.py:36 | the lazy group stops at the first `")` from the given offset on; none at all when no `")` follows |
| `JsonExtract.SearchFrom` | src/extract_json_from_html.py:36 | from offset i, the match found starts no earlier than any other match, and among matches starting there its group is the shortest; nothing is found only when no match starts at or after i |
| `JsonExtract.ExtractJsonString` | src/extract_json_from_html.py:34-37 | `None` exactly when no `JSON.parse("` is followed later by at least one character and then `")`; otherwise the group of the leftmost, then shortest, match |
| `JsonExtract.FirstMatchUnique` | src/extract_json_from_html.py:36 | leftmost-then-shortest picks a single match, so the returned literal is determined |
| `JsonExtract.ExtractSplits` | src/extract_json_from_html.py:36-37 | a found literal s is non-empty and splits the page as `pre + "JSON.parse(\"" + s + "\")" + post`; no `")` starts inside s after its first character; no match starts within `pre` |
| `JsonExtract.ExtractOfSplit` | src/extract_json_from_html.py:36-37 | conversely, any such split (non-empty s, no earlier `")`, no match in `pre`) makes s the literal found |
| `JsonExtract.BackslashDoesNotEscape` | src/extract_json_from_html.py:36 | in `JSON.parse("a\")")` the literal found is `a\`: a backslash does not stop `")` from ending it |
| `JsonExtract.LiteralSpansLines` | src/extract_json_from_html.py:36 | with dot-matches-newline, a literal containing a newline is found whole |
| `JsonExtract.EmptyArgumentNotFound` | src/extract_json_from_html.py:36 | `JSON.parse("")` is not matched, because the group needs one character |
| `JsonExtract.ErrorWindow` | src/extract_json_from_html.py:46-47 | for 0 ≤ pos ≤ len: 0 ≤ start ≤ pos ≤ end ≤ len, and the window is min(pos,50) + min(len−pos,50) wide, so at most 100 |
| `JsonExtract.Slice` | src/extract_json_from_html.py:48 | Python slicing with non-negative bounds: the plain slice when in range, never longer than b − a |
| `JsonExtract.ErrorContext` | src/extract_json_from_html.py:46-48 | the printed context is the text up to 50 characters either side of the error offset, cut at the ends, and at most 100 characters |
| `JsonExtract.ParseJson` | src/extract_json_from_html.py:39-49 | an unescaping failure propagates; a parse error gives nothing, plus the error's offset and message and the context cut from the unescaped text; otherwise the document is exactly what the parser returns for the unescaped literal |
| `HtmlToJson.EndsWithHtml` | src/extract_json_from_html.py:13 | `name.endswith(".html")` holds exactly when the name is some stem followed by `.html` |
| `HtmlToJson.ReplaceHtml` | src/extract_json_from_html.py:32 | the rewritten name has the length of the original |
| `HtmlToJson.ReplaceHtmlSpec` | src/extract_json_from_html.py:32 | every occurrence of `.html` becomes `.json` in place, and every character outside an occurrence is kept |
| `HtmlToJson.JsonNameOfHtmlName` | src/extract_json_from_html.py:13-32 | a name ending in `.html` is saved under a name ending in `.json` |
| `HtmlToJson.ReplaceHtmlIdentity` | src/extract_json_from_html.py:32 | a name without `.html` is unchanged |
| `HtmlToJson.FileStep` | src/extract_json_from_html.py:23-32 | nothing is saved when no literal is found, when the literal does not parse, or when it parses to `null`; otherwise the parser's document for the unescaped literal is saved under the rewritten name; a skipped parse error carries the parser's offset and message and the printed context; the run aborts exactly when unescaping the found literal fails |
| `HtmlToJson.NullDocumentNotSaved` | src/extract_json_from_html.py:28-30 | a page whose literal parses to `null` is skipped and writes nothing |
| `HtmlToJson.HtmlToJsonProcessor.constructor` | src/extract_json_from_html.py:6-7 | the base directory is the argument, unless that is absent or empty, in which case it is the module's directory |
| `HtmlToJson.HtmlToJsonProcessor.ProcessFile` | src/extract_json_from_html.py:16-32 | the outcome is `FileStep` of the page read from the processor's directory, and only a save changes `written`, at the rewritten name |
| `HtmlToJson.HtmlToJsonProcessor.ProcessAllHtmlFiles` | src/extract_json_from_html.py:9-14 | the documents written and the abort flag are `RunAll` over the listing: entries in order, only `.html` names, stopping at the first propagated exception |
| `HtmlToJson.BatchStep` | src/extract_json_from_html.py:12-14 | one pass of the loop: after an exception or for a non-`.html` entry nothing changes; the batch ends exactly when processing the entry aborts; at most the entry's rewritten name is added or replaced, and every other document is kept |
| `HtmlToJson.RunAll` | src/extract_json_from_html.py:9-14 | the loop over the listing, entry by entry; documents are only ever added or replaced, never removed |
| `HtmlToJson.HtmlEntries` | src/extract_json_from_html.py:12-13 | the entries that pass the filter: every one ends in `.html` and is listed, and every listed `.html` entry is among them |
| `HtmlToJson.RunAllSkipsOther` | src/extract_json_from_html.py:12-14 | an entry whose name does not end in `.html` writes nothing and cannot end the batch |
| `HtmlToJson.RunAllOnlyHtml` | src/extract_json_from_html.py:12-14 | the batch over a listing is exactly the batch over its `.html` entries in listing order |
| `HtmlToJson.RunAllAbortStays` | src/extract_json_from_html.py:12-14 | once an exception ends the batch, the remaining entries change nothing |
| `HtmlToJson.WrittenNamesFromHtmlEntries` | src/extract_json_from_html.py:12-14 | the batch only adds or replaces documents, and each one it adds or replaces is named after a listed entry ending in `.html`, with `.html` rewritten |
| `Json.Index` | src/get_data.py:23 | `v[key]` gives the first entry's value for the key; a dict without the key raises `KeyError(key)`; any other value raises `TypeError` |
| `Json.Get` | src/get_data.py:28 | `v.get(key, default)` gives the key's value or the default on a dict, and raises `AttributeError` on anything else |
| `Json.Keys` | src/get_data.py:17 | `list(v.keys())` lists a dict's keys in order, one per entry; on anything else it raises `AttributeError` |
| `Json.Iter` | src/get_data.py:27 | `for x in v` visits a list's elements, a dict's keys or a string's characters; a number, boolean or null raises `TypeError` |
| `Menu.Restaurants` | src/get_data.py:17 | `data["pages"]["restaurant"]` succeeds exactly when the document has a `pages` dict with a `restaurant` key, and gives its value; otherwise it raises `KeyError` or `TypeError` |
| `Menu.MenusOf` | src/get_data.py:17-23 | `ValueError` exactly when the restaurant map is reached and does not have one key; a menus value is found only below a map with exactly one id |
| `Menu.CategoriesOf` | src/get_data.py:28 | `menu["menu"].get("categories", [])`: succeeds exactly when `menu` holds a dict, and gives its `categories` or an empty list |
| `Menu.ItemsOf` | src/get_data.py:31 | `category["category"].get("items", [])`: succeeds exactly when `category` holds a dict, and gives its `items` or an empty list |
| `Menu.ItemAsRows` | src/get_data.py:33-42 | one item appends exactly one six-field row, or raises the item's exception |
| `Menu.CategoryRows` | src/get_data.py:30-42 | every row a category contributes has six fields |
| `Menu.MenuRows` | src/get_data.py:27-42 | every row a menu contributes has six fields |
| `Menu.Flatten` | src/get_data.py:15-44 | every row has six fields; `ValueError` whenever the restaurant map does not have exactly one key; rows exist only when the menus list was found and is iterable |
| `Menu.ConcatRowsSixFields` | src/get_data.py:27-42 | a loop whose bodies append six-field rows appends only six-field rows |
| `Menu.ConcatRows` | src/get_data.py:27-42 | a loop appending each element's rows succeeds exactly when every element does, and otherwise raises the exception of the first failing element |
| `Menu.ConcatRowsAppend` | src/get_data.py:27-42 | depth-first order: the rows of `xs + ys` are those of `xs` followed by those of `ys`, and an exception in `xs` wins |
| `Menu.ErrAt` | src/get_data.py:27-42 | an exception for element k, after every earlier element succeeded, is the exception of the whole loop |
| `Menu.ItemRow` | src/get_data.py:34-42 | a row exists exactly when the element has an `item` dict; it has six fields in the order name, price, desc, item_image_url, item_state, rating; each field is that key's value, or `"N/A"` when the key is missing |
| `Menu.OneRowPerItem` | src/get_data.py:33-42 | a category's items give exactly one row each, in order, with no sorting and no deduplication |
| `Menu.ItemLoop` | src/get_data.py:33-42 | the item loop returns exactly the spec rows of the items, or the first item's exception |
| `Menu.CategoryLoop` | src/get_data.py:30-42 | the category loop returns exactly the spec rows of the categories, or the first exception |
| `Menu.MenuExtractor.constructor` | src/get_data.py:5-8 | the extractor holds the loaded document |
| `Menu.MenuExtractor.ExtractMenuData` | src/get_data.py:15-44 | the nested loops return exactly `Flatten` of the document: all rows, or the exception the first failing step raises |
| `Menu.RestaurantCardinality` | src/get_data.py:17-20 | once `pages.restaurant` is reached, `ValueError` is raised exactly when it does not have exactly one key, whatever lies below the ids |
| `Menu.RequiredPath` | src/get_data.py:22-23 | a restaurant that is not a dict, or that lacks `order`, `menuList` or `menus`, raises instead of defaulting |
| `Menu.WrapperKeysRequired` | src/get_data.py:28-34 | a menu without `menu`, a category without `category` or an item without `item` raises `KeyError` for that key |
| `Menu.MissingListsContributeNothing` | src/get_data.py:28-31 | a menu without `categories`, or a category without `items`, contributes no rows and raises nothing |
| `Menu.FlattenRowCount` | src/get_data.py:27-42 | the number of rows equals the number of items over all categories of all menus |
| `Menu.FlattenExample` | src/get_data.py:15-44 | two menus of one category each, with three items in all, give three rows in menu-then-item order; the item lacking five fields has `"N/A"` in exactly those slots |
| `Nutrition.Distinct` | src/get_from_ai.py:165-172 | `list(set(xs))` holds the same elements as xs, each once |
| `Nutrition.MergeTwo` | src/get_from_ai.py:153-174 | each of the four numbers is the two results' sum over 2 (0 where missing); the vitamins and the minerals are the union of both results' lists, without duplicates |
| `Nutrition.MergeTwoIsMergeAll` | src/get_from_ai.py:153-174 | the two-result merge equals the mean and union over all results, with the estimator count (2) as the divisor |
| `Nutrition.FailuresCountInDivisor` | src/get_from_ai.py:154-162 | failed results are not left out of the mean: with n empty results, the mean is the others' sum divided by their count plus n |
| `Nutrition.MergeSymmetric` | src/get_from_ai.py:153-174 | swapping the two results gives the same numbers and the same vitamin and mineral sets |
| `Nutrition.MergeOfEmpties` | src/get_from_ai.py:153-174 | two empty results merge to all-zero numbers and empty lists |
| `Nutrition.MergeExample` | src/get_from_ai.py:153-172 | `{calories: 100}` and `{calories: 200}` merge to calories 150 and protein 0; vitamin lists `[c, d]` and `[d, e]` merge to the set `{c, d, e}` without duplicates, and no minerals give none |
| `Nutrition.OneFailureHalves` | src/get_from_ai.py:154-172 | merged with `{}`, on either side, a result's numbers are halved and its vitamin and mineral sets are kept |
| `Nutrition.Guard` | src/get_from_ai.py:69-71 | any failure of a provider call gives the empty result `{}`, and an answer is passed on unchanged; the same boundary is at lines 109-111 and 139-141 |
| `Nutrition.AnalyzeDish` | src/get_from_ai.py:143-176 | a result exists exactly when the image could be compressed, and it is the merge of both guarded estimator results |
| `Nutrition.FailedEstimatorIsHalved` | src/get_from_ai.py:149-162 | a failing estimator does not stop the analysis: the result exists, with the other estimator's numbers halved |

## Left out

- `src/get_htmls.py` is not part of this model. It fetches pages over HTTP and reads and writes files.
- `compress_image`, the image download, resizing and JPEG encoding: `AnalyzeDish` receives the compressed image as a parameter, and `None` there stands for an exception, which is not caught.
- The provider clients, prompts and base64 encoding: each estimator is a function from image and description to a `Reply`. A `Reply` is either a parsed result or a failure of any kind.
- The Gemini estimator is not called, because the code has its call commented out. `Guard` models its boundary all the same.
- `json.loads` and the `unicode_escape` codec: both are function parameters (`loads`, `unescape`) that may fail. Every failure of `loads` is a caught decode error. An exception of `json.loads` other than `JSONDecodeError` is not modelled, for instance a `RecursionError` on very deeply nested input. In the code such an exception escapes `parse_json` and ends the batch. Neither is claimed to be a clean one-level unescape.
- File I/O. Read and write failures are not modelled: in the code, a page that is not valid UTF-8 or a missing `jsons/` directory raises inside `process_file` and ends the batch, while here `read` is total and a save cannot fail. Reading a page is the parameter `read`, keyed by the base directory and the file name. `os.path.join` is not modelled. The directory listing is the parameter `entries`. Saving a document updates `written`. `json.dump` formatting, `load_json`, `save_to_csv`, `run` and all other printing are left out. The printed error context is kept as a value.
- Float semantics of `/ 2` and the int/float distinction: numbers are exact reals.
- The order of `list(set(...))`: `Distinct` keeps first occurrences. Only set facts and the absence of duplicates are claimed.
- `Nutrition.MergeTwo`: it assumes every present value has the right type. Results are typed (`Estimate`), so these cases are not modelled: a reply that is valid JSON but not an object (`.get` would raise outside the `try`), and a null, string or list where a number is expected, which would raise `TypeError`.
- JSON objects are entry lists in insertion order, as Python dicts are. Lookup takes the first entry with the key. A decoded Python dict never holds a key twice (`json.loads` keeps the last of repeated keys), so only entry lists with distinct keys stand for real documents. On those, the entry count is the key count that `RestaurantCardinality` speaks of.
- `Menu.MenuExtractor.ExtractMenuData`: the three nested loops append to one list in the source. Here the inner two are the methods `CategoryLoop` and `ItemLoop`, which return their rows for the caller to append. The final list is the same.
- The `__main__` blocks, which only wire the classes to fixed paths.
