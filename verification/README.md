# Lost & Found portal: item list page logic

This project models the decisions made by the item list page of the Lost &
Found portal (`src/main/resources/static/js/items.js`), with the DOM, `fetch`
and browser storage abstracted away:

- `searchItems` builds a query from four optional criteria (status, category,
  location, keyword), appending a pair only for a non-empty value and always in
  that order (`Query`).
- The navbar search trims its keyword and sends nothing when the result is
  empty; the filter form searches by three fields with an empty keyword
  (`Controller`, `Text.Trim`).
- `renderItems` leaves a missing container alone, shows "No items found." for
  an empty list, and otherwise lays the items out two per row, starting a row at
  every even index (`Layout`, `Render`).
- Each card shows a "Lost" danger badge exactly for status `lost` and a "Found"
  success badge for anything else, an inline `data:image/jpeg;base64,` image or a
  fixed placeholder, and an empty description when none is given (`Render`).
- The "Login Required" overlay appears on `/items.html` when no user is stored,
  and the navbar link leads to `profile.html` or `login.html` (`Access`).

The container is a value of `Render.View`: `NoContainer` (the element is
missing), `Initial` (what the page shipped with), `Message(text)` or
`Rows(rows)`, each row a sequence of at most two cards. Network answers are
parameters: the page-load handler receives the catalog response as a
`Result`, the submit handlers receive the search endpoint as a function from a
query to a `Result`.

The navbar search and the filter form use the same omit-empty rule. Because
`searchItems` drops every empty value, the navbar path sends only
`keyword=<trimmed input>`, never empty `status`, `category` or `location`
parameters.

## Model

| member | source | states |
|---|---|---|
| Text.LeadingSpace | src/main/resources/static/js/items.js:130 | the count of leading characters removed by trim is maximal: all of them are whitespace and the next one is not |
| Text.TrailingSpace | src/main/resources/static/js/items.js:130 | the count of trailing characters removed by trim is maximal: all of them are whitespace and the one before is not |
| Text.Trim | src/main/resources/static/js/items.js:130-131 | the trimmed keyword is empty exactly when the input is whitespace only; otherwise it neither starts nor ends with whitespace, and the input is whitespace, then the result, then whitespace |
| Text.TrimUnique | src/main/resources/static/js/items.js:130 | trim removes exactly the surrounding whitespace: padding a string whose ends are not whitespace and trimming gives the string back |
| Text.TrimIdempotent | src/main/resources/static/js/items.js:130 | trimming an already trimmed keyword changes nothing |
| Query.SearchParams | src/main/resources/static/js/items.js:19-24 | at most four pairs; every pair has a search key and carries that criterion's non-empty value unchanged; keys appear in strictly increasing status, category, location, keyword order, so none repeats |
| Query.GetAppendIfGiven | src/main/resources/static/js/items.js:21-24 | one conditional append adds the key only when its value is non-empty and never hides an earlier value |
| Query.SearchParamsGet | src/main/resources/static/js/items.js:19-24 | a key is present in the query iff its criterion is non-empty, and then its value is that criterion |
| Query.QueryRoundTrip | src/main/resources/static/js/items.js:19-24 | reading the criteria back from the query, an absent key as empty, gives the original criteria: omitting empty fields loses nothing |
| Layout.PlaceKeepsPaired | src/main/resources/static/js/items.js:44-50 | placing the next item (new row at an even index, else the current row) keeps the pairing shape for one more item |
| Layout.RowsOf | src/main/resources/static/js/items.js:43-81 | for N items there are ceil(N/2) rows, all with two items except the last, which has one iff N is odd; item i is in row i/2 at slot i%2 |
| Layout.FlattenPlace | src/main/resources/static/js/items.js:46-50 | reading the rows after placing an item gives the earlier reading followed by that item |
| Layout.FlattenRowsOf | src/main/resources/static/js/items.js:44-81 | concatenating the rows gives back the input: order preserved, nothing dropped or duplicated |
| Render.BadgeFor | src/main/resources/static/js/items.js:55-56 | the badge is danger/"Lost" iff the status is exactly `lost`; every other value, unknown ones included, gives success/"Found" |
| Render.ImageSource | src/main/resources/static/js/items.js:58-60 | the source starts with the JPEG data-URI prefix iff the payload is present and non-empty, and then ends with the payload; otherwise it is the fixed placeholder |
| Render.ImageRoundTrip | src/main/resources/static/js/items.js:58-60 | the payload read back from the image source is the item's payload when one is given, and nothing for the placeholder |
| Render.DescriptionText | src/main/resources/static/js/items.js:70 | the description shown is empty iff the item has none or an empty one; a non-empty one is the item's own |
| Render.CardFor | src/main/resources/static/js/items.js:55-74 | a card's badge follows the lost/found rule, its image carries the item's payload, or is the fixed placeholder when there is none, its description follows the default rule and its other text fields are the item's |
| Render.RenderItems | src/main/resources/static/js/items.js:32-82 | a missing container stays missing and nothing else is; an empty list gives the "No items found." message; otherwise rows in the pairing shape with item i's card at row i/2, slot i%2 |
| Render.RenderPreservesOrder | src/main/resources/static/js/items.js:44-81 | reading the rendered rows in order gives exactly the cards of the items, in input order |
| Render.RenderIgnoresPrior | src/main/resources/static/js/items.js:36 | the container is cleared first, so the result does not depend on what it held before |
| Access.ShowsLoginGate | src/main/resources/static/js/items.js:145-151 | the overlay is shown iff the path is `/items.html` and no user is stored |
| Access.OverlayCount | src/main/resources/static/js/items.js:151-184 | exactly one overlay is attached on the restricted page without a user, none otherwise |
| Access.NavHref | src/main/resources/static/js/items.js:116-120 | the link is `profile.html` iff a user is stored, `login.html` otherwise |
| Access.GateAgreesWithNav | src/main/resources/static/js/items.js:118-119 | whenever the overlay shows, the navbar link also leads to the login page |
| Controller.OnLoad | src/main/resources/static/js/items.js:85-94 | on page load the catalog is rendered; a failed fetch leaves the container unchanged |
| Controller.OnFilterSubmit | src/main/resources/static/js/items.js:97-112 | the filter form always sends a request: the search query of its three fields with an empty keyword, so empty fields and the keyword are not sent and the fields read back unchanged; a successful response is rendered, a failed one leaves the container unchanged |
| Controller.OnNavbarSubmit | src/main/resources/static/js/items.js:128-139 | no request and no change iff the input is whitespace only; otherwise the query is exactly the trimmed keyword; a successful response is rendered, a failed one leaves the container unchanged |

## Left out

- `fetchAllItems` and the HTTP part of `searchItems` (items.js:12-16, 26-28): network I/O; their answers are parameters of the handlers, a non-success status being `FetchError`.
- `getAuthHeaders` (items.js:6-9): defined but never passed to a request, so it has no effect on the page.
- Percent-encoding and `URLSearchParams.toString`: the query is modelled as its ordered `(key, value)` pairs.
- Text.Trim: only the ASCII whitespace characters (space, tab, line feed, carriage return, vertical tab, form feed) are removed; JavaScript's `trim` also removes non-breaking and other Unicode spaces and line separators.
- Card markup, CSS classes other than the badge variant, and the `alt` attribute (items.js:62-78): presentation; the card is modelled as its fields.
- Fields other than `description` and `imageBase64` are assumed present; a missing one would render as the text "undefined".
- Status values that are not strings (a missing status) are not modelled; they, like every non-`lost` string, get the "Found" badge.
- The overlay's styling, fade animation, `requestAnimationFrame`/`setTimeout` timers and the redirect to `login.html` (items.js:152-203): presentation and timers.
- Browser storage and `JSON.parse`: the stored user is a boolean input meaning "the parsed `loggedInUser` entry is truthy", so a stored `null`, `false`, `0` or `""` counts as no user; a stored value that is not valid JSON, which would make `JSON.parse` throw and skip the handler, is not modelled.
- Controller.RenderResponse: a response body is assumed to be an array of item objects; a `null` element or a non-array body would clear the container and then throw, leaving it empty or partly filled.
- Event-listener wiring, `preventDefault`, `console.error` logging, and the race between overlapping searches: event-loop concerns.
- `src/main/java/com/example/CorsConfig.java`: framework configuration with no logic of its own.
