# World Whiz search, fact card and page state — a Dafny model

World Whiz is a small React front-end: a spinning globe, a country search box,
and a "culture card" with a fact sheet for the chosen country. This project
models the three pieces of it that hold sequential logic. Each proof is about
the model.

- **Search box** (`Search`, with string helpers in `Text`). A case-insensitive
  substring filter runs over a fixed list of 24 country names. A query that is
  blank after trimming gives no entries. The component keeps `isOpen` and
  `filteredCountries`, and three things update them: the filter effect, the
  focus handler and a pick from the dropdown. The pure filter is written as
  functions with lemmas. The component is the class `SearchBar`, whose methods
  change those fields. The requests it sends to its parent (`onChange` from
  typing and from a pick, `onCountrySelect` from a pick) are returned as a
  list of `Callback` values.
- **Culture card** (`Culture`). An exact, case-sensitive lookup in a five-entry
  table falls back to one placeholder sheet. `Render` describes what the card
  shows: the name as given, the sheet, and two buttons that both run the
  parent's close action.
- **Page** (`IndexPage`). The page owns `selectedCountry` (none or a name) and
  `searchQuery`. The class `Page` has one method per setter it hands to its
  children. The pure `Step`/`Run` functions specify those methods. The lemmas
  about `Step`/`Run` connect the other two components: who can select what, and
  when the card is shown.

JavaScript's `toLowerCase`, `includes` and `trim` are written out on
`seq<char>`. `Lower` lowers only ASCII letters. `IsWhitespace` is the set of
ECMAScript WhiteSpace and LineTerminator code points that `trim` removes.

## Model

| member | source | states |
|---|---|---|
| `Text.Lower` | src/components/SearchBar.tsx:25 | lower-casing keeps the length, leaves no upper-case ASCII letter, and keeps every character that is not one |
| `Text.LowerCapitals` | src/components/SearchBar.tsx:25 | each capital 'A'..'Z' becomes the small letter of the same name; with `Lower`'s contract this fixes every character of the result |
| `Text.Includes` | src/components/SearchBar.tsx:25 | definition of `s.includes(sub)`, trying each start position from the left; `Text.IncludesIff` states that it holds exactly when `sub` occurs at some index of `s` |
| `Text.IncludesIff` | src/components/SearchBar.tsx:25 | `includes` holds exactly when the needle occurs at some index of the string |
| `Text.IsWhitespace` | src/components/SearchBar.tsx:23 | definition of the characters `trim` removes: ECMAScript WhiteSpace (TAB, VT, FF, SP, NBSP, ZWNBSP, the Unicode space separators) and LineTerminator (LF, CR, LS, PS); `Text.Trim` and `Text.TrimEmptyIff` are stated over it |
| `Text.Trim` | src/components/SearchBar.tsx:23 | `trim` gives a slice of the input with only whitespace cut from either side, and the slice neither starts nor ends with whitespace |
| `Text.TrimEmptyIff` | src/components/SearchBar.tsx:23 | a query trims to "" (is falsy) exactly when it is empty or all whitespace |
| `Search.CountriesDistinct` | src/components/SearchBar.tsx:11-15 | the list has 24 distinct names |
| `Search.CountriesNotBlank` | src/components/SearchBar.tsx:11-15 | no listed name is empty or whitespace only |
| `Search.Matches` | src/components/SearchBar.tsx:24-25 | definition of the filter's test `country.toLowerCase().includes(value.toLowerCase())`; its properties are stated by `Search.MatchesIgnoresCase`, `Search.MatchesPrefix`, `Search.JapanAnyCase` and `Search.UntrimmedQueryMatches` |
| `Search.MatchesIgnoresCase` | src/components/SearchBar.tsx:25 | the match ignores ASCII case: queries that lower-case alike match the same names, and lower-casing name and query first changes nothing |
| `Search.JapanAnyCase` | src/components/SearchBar.tsx:25 | "Japan" matches "JAPAN", "jApAn" and "japan" |
| `Search.Filter` | src/components/SearchBar.tsx:24-26 | soundness: every kept entry is from the list and contains the query after both are lower-cased |
| `Search.FilterComplete` | src/components/SearchBar.tsx:24-26 | completeness: every listed name that matches the query is kept |
| `Search.FilterSubsequence` | src/components/SearchBar.tsx:24-26 | the filter result is a subsequence of the list: order kept, nothing added |
| `Search.SubsequenceDistinct` | src/components/SearchBar.tsx:11-15 | a subsequence of a list without repeats has no repeats |
| `Search.FilterEmptyQuery` | src/components/SearchBar.tsx:23-26 | without the blank test, the empty query would keep every name, because every string includes "" |
| `Search.IsBlank` | src/components/SearchBar.tsx:23 | definition of `!value.trim()`; `Text.TrimEmptyIff` states that it holds exactly for empty or all-whitespace queries |
| `Search.Results` | src/components/SearchBar.tsx:22-33 | the entries for a query: none when blank; otherwise exactly the names matching the untrimmed query, in list order, and without repeats when the list has none (the component applies it to the 24-name list) |
| `Search.UntrimmedQueryMatches` | src/components/SearchBar.tsx:23-25 | the trim serves only the blank test: "korea " trims to "korea", which "South Korea" matches, but "South Korea" does not match "korea " itself |
| `Search.MatchesPrefix` | src/components/SearchBar.tsx:25 | a name that matches a query matches every prefix of that query |
| `Search.ResultsNarrow` | src/components/SearchBar.tsx:22-28 | for a non-blank query, typing more can only remove entries |
| `Search.PickedNameMatchesItself` | src/components/SearchBar.tsx:35-36 | a picked (non-blank) name, once written back as the query, would be listed again |
| `Search.SearchBar.constructor` | src/components/SearchBar.tsx:18-19 | a new search box is closed, lists nothing and has the empty query |
| `Search.SearchBar.ValueChanged` | src/components/SearchBar.tsx:22-33 | the filter effect, for a query that differs from the current one: it stores `Results(query)` and sets `isOpen` to "there are entries", which means closed and empty for a blank query |
| `Search.SearchBar.Receive` | src/components/SearchBar.tsx:22-33 | a render with a query from the parent runs the effect only when the query changed (`[value]`); the same query leaves the list and `isOpen` as they were |
| `Search.SearchBar.Input` | src/components/SearchBar.tsx:51 | typing sends the text to the parent as a single `onChange(text)` request and changes nothing in the box itself |
| `Search.SearchBar.Focus` | src/components/SearchBar.tsx:52 | on focus, `isOpen` becomes "the current list is non-empty"; the list is untouched |
| `Search.SearchBar.HandleCountrySelect` | src/components/SearchBar.tsx:35-40 | a pick sends `onChange(country)` and then `onCountrySelect(country)`, once each, and closes the dropdown |
| `Search.SearchBar.ClickEntry` | src/components/SearchBar.tsx:57-62 | a click on a rendered entry reports that entry, which is a listed country matching the current query |
| `Search.SearchBar.DropdownShown` | src/components/SearchBar.tsx:57 | definition of the render guard `isOpen && filteredCountries.length > 0`; `Search.DropdownGuard` states that it equals `isOpen` in every valid state, and `Search.SearchBar.ClickEntry` requires it |
| `Search.DropdownGuard` | src/components/SearchBar.tsx:57 | in every valid state the render guard `isOpen && length > 0` equals `isOpen` |
| `Culture.TableKeys` | src/components/CultureCard.tsx:7-58 | the table has exactly the keys United States, Japan, Brazil, India and China |
| `Culture.Get` | src/components/CultureCard.tsx:61 | definition of `countryData[country]`: the entry for an exact key, or nothing; `Culture.Lookup`, `Culture.LookupKnown` and `Culture.LookupDefaultIff` state what the lookup makes of it |
| `Culture.Lookup` | src/components/CultureCard.tsx:61-70 | the lookup is total: it returns the default sheet or one of the table's sheets |
| `Culture.LookupKnown` | src/components/CultureCard.tsx:61 | a table key gets exactly its own sheet |
| `Culture.LookupDefaultIff` | src/components/CultureCard.tsx:61-70 | the default sheet is returned exactly for names that are not table keys |
| `Culture.LookupCaseSensitive` | src/components/CultureCard.tsx:61 | the match is exact: "Japan" gets its sheet and "japan" gets the default |
| `Culture.LookupHasLists` | src/components/CultureCard.tsx:7-70 | every sheet the lookup can return, the default included, has non-empty foods, festivals and facts |
| `Culture.Render` | src/components/CultureCard.tsx:74-143 | the card shows the name as given and the looked-up sheet, and both of its buttons run the parent's close action |
| `Culture.RenderUnknown` | src/components/CultureCard.tsx:78 | an unknown name is shown as given, above the default sheet |
| `IndexPage.GlobeNamesSearchable` | src/components/Globe.tsx:57-66 | every name a globe marker can report is also in the search list |
| `IndexPage.InitialState` | src/pages/Index.tsx:10-11 | the page starts with no selection, an empty query and no card |
| `IndexPage.Step` | src/pages/Index.tsx:41-56 | definition of the page's reaction to one event (the setters passed at lines 41, 42, 47 and 56); its properties are stated by `IndexPage.SelectionSourcesAgree`, `IndexPage.CloseResetsSelection` and `IndexPage.SearchChangeKeepsSelection`, and every `IndexPage.Page` method is specified against it |
| `IndexPage.Run` | src/pages/Index.tsx:10-56 | definition of the state after a sequence of events, from the initial state at lines 10-11; its properties are stated by `IndexPage.SearchPick`, `IndexPage.RunKeepsSelectionListed` and `IndexPage.ReachableCardShown` |
| `IndexPage.CardShown` | src/pages/Index.tsx:53 | definition of the guard `selectedCountry && …`: a selection that is present and not ""; `IndexPage.Card`, `IndexPage.CardAfterSelection` and `IndexPage.ReachableCardShown` state when it holds |
| `IndexPage.Card` | src/pages/Index.tsx:53-58 | a card is present exactly when the selection is present and not empty; it shows that name's sheet, and its buttons raise the close event |
| `IndexPage.SelectionSourcesAgree` | src/pages/Index.tsx:42-47 | a search pick and a globe click have the same effect: the selection becomes the reported name and the query is kept |
| `IndexPage.CloseResetsSelection` | src/pages/Index.tsx:56 | closing clears the selection, keeps the query and hides the card |
| `IndexPage.SearchChangeKeepsSelection` | src/pages/Index.tsx:41 | a change of the search text changes only the query, never the selection or the card |
| `IndexPage.CardAfterSelection` | src/pages/Index.tsx:53 | after a selection, the card is shown exactly when the name is not the empty string |
| `IndexPage.CardButtonsClose` | src/pages/Index.tsx:56 | pressing any button of a shown card leads to a page without a card |
| `IndexPage.FromSearchBar` | src/pages/Index.tsx:41-42 | on every page state, the event for `onChange(text)` sets the query to `text` and keeps the selection, and the event for `onCountrySelect(name)` sets the selection to `name` and keeps the query |
| `IndexPage.SearchPick` | src/pages/Index.tsx:39-43 | a search pick's two requests leave the name as both query and selection, and show that name's card |
| `IndexPage.FromUi` | src/components/SearchBar.tsx:59-62 | definition of the events the UI can raise: a search pick names a listed country, a globe click one of the marker names at Globe.tsx:57-66 (each marker's `userData.name`, reported at Globe.tsx:74 and 121-122); `Search.SearchBar.ClickEntry` and `IndexPage.SearchBarRequestsFromUi` show the search box meets it |
| `IndexPage.SearchBarRequestsFromUi` | src/components/SearchBar.tsx:35-62 | search-box requests whose reported countries are all listed names, as `ClickEntry`'s pair is, become events of the UI; typed text always does |
| `IndexPage.RunKeepsSelectionListed` | src/pages/Index.tsx:41-56 | every sequence of events the UI can raise keeps the selection either absent or one of the search box's names |
| `IndexPage.ReachableCardShown` | src/pages/Index.tsx:53 | on every page reachable through the UI, the card is shown exactly when a country is selected |
| `IndexPage.Page.constructor` | src/pages/Index.tsx:10-11 | initial state: no selection, empty query |
| `IndexPage.Page.SetSearchQuery` | src/pages/Index.tsx:41 | sets the query and leaves the selection unchanged |
| `IndexPage.Page.SetSelectedCountry` | src/pages/Index.tsx:42-47 | the shared setter: it sets the selection, keeps the query, and matches `Step` for a search pick and for a globe click alike |
| `IndexPage.Page.CloseCard` | src/pages/Index.tsx:56 | clears the selection and keeps the query |
| `IndexPage.Page.Deliver` | src/pages/Index.tsx:39-43 | carries out one search-box request as the matching page event |

## Left out

- `Text.Lower`: only ASCII letters are lowered, whereas `toLowerCase` folds all of Unicode. The country names are ASCII, but a query with a non-ASCII capital that lowers to an ASCII letter (the Kelvin sign U+212A lowers to "k") would match in the browser and not in the model.
- JavaScript strings are UTF-16; the model's characters are Unicode code points. Nothing here depends on lengths or indices of non-ASCII text.
- React's scheduling is not modelled. After a pick, the query becomes the picked name. When that name differs from the current query, the filter effect runs again, and because the name matches itself (`Search.PickedNameMatchesItself`) the dropdown reopens. When the name equals the current query, the effect does not run and the dropdown stays closed (`Search.SearchBar.Receive`). The model does not connect the two components automatically: the search box's `value` and the page's `searchQuery` are separate state, and a caller passes the new query to `SearchBar.Receive`, which stands for the re-render with the new prop.
- `inputRef.current?.blur()` (focus handling in the browser), all markup, CSS classes and the emoji/text of the rendered card beyond the sheet's fields.
- The fact table is a plain map. JavaScript's prototype-chain lookups on `countryData` are not modelled: for example, the key "constructor" finds a truthy function and would not fall back to the default.
- The globe itself (three.js scene, raycasting, drag rotation in floating point, animation loop) is not part of this model apart from its list of marker names. It is a foreign graphics library plus floating-point numerics.
- The random fact card (it picks with `Math.random()`) and the navigation header (static markup) are not part of this model.
