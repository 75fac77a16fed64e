# Chat session store and result-set helpers

This project models the two pieces of logic in the chat front end for the
"generate SQL from text" service.

1. **The chat-session store** of the application component (`src/App.tsx`).
   Its state is a list of chats plus the id of the active chat. The store's
   operations are:
   - sending a message, as three transitions: the user message, the
     "processing" placeholder, and the reply that replaces it;
   - deleting a chat;
   - adding a chat;
   - selecting a chat;
   - the effect that auto-selects the first chat;
   - the lookup of the active chat.

   The store also has two pure builders: the chat-title rule and
   `createBotMessages`, which sorts a message into a chart type by keyword.
2. **The result-set helpers** of the data viewer
   (`src/components/DataViewer.tsx`):
   - the column list;
   - the default category and value columns;
   - the group-by-and-sum aggregation behind the chart;
   - the CSV lines of the export;
   - the "show more" paging counter.

Modules, one per concern:

- `Wrappers` (wrappers.dfy): `Option`, which stands for `null`/`undefined`.
- `Strings` (strings.dfy): `trim`, `toLowerCase`, `includes`, `join`, `String(n)`.
- `Messages` (messages.dfy): chats, messages, the title rule, `createBotMessages`, the reply built from a service response.
- `Session` (session.dfy): one pure function per `setChats` updater, with lemmas, and the class `ChatApp` holding `chats` and `activeChatId`.
- `Table` (table.dfy): cells, rows, columns, default columns, the aggregation (a fold over per-row category and contribution entries, and the `forEach` loop as a method).
- `Csv` (csv.dfy): field escaping, the export lines (a loop), and a reader proving that the fields round-trip.
- `Viewer` (viewer.dfy): the class `DataViewer`, holding `xCol`, `yCol` and `rowsToShow`.

Conventions of the model:
- Ids and timestamps come from the clock in the front end. Here they are
  parameters.
- An id is truthy when it is present and not 0. So an active id of `0`
  counts as "no active chat", as in the source.
- The steps of a turn after the first use the active id captured when the
  turn started (`captured`). If that id is falsy they fall back to the last
  chat's id. A captured id that names no chat drops the placeholder and the
  reply (`StaleCaptureDropsTurn`). The initial chat and the initial active id
  come from two separate clock readings. When those readings differ, the
  first turn opens a second chat and then loses its placeholder and its
  reply (`FirstTurnAfterClockSkew`).
- The service response is a record of optional fields. Its `data` field
  holds the JSON rendering of the rows, because `JSON.stringify` is not
  interpreted.
- `chartData` is a `map` from category to sum. The order of
  `Object.entries` is not modelled.
- The CSV header is not quoted. A header of column names without quotes
  reads back as one field per name plus one per comma inside the names, so
  a name containing a comma splits (`HeaderFieldCount`).
- The reply to a response with data is one message showing the rows' JSON.
- The default columns are the first column and the first column with a
  number in the first row.
- A new chat is named "Novo Chat".
- `createBotMessages` is defined in the component, but no handler calls it.
  It is modelled on its own.
- The auto-select effect does not repair an active id that is truthy but
  names no chat.

## Model

| member | source | states |
|---|---|---|
| `Messages.NewChat` | src/App.tsx:23-27 | a new chat has no messages, the default name, and the creation time as id |
| `Session.Initial` | src/App.tsx:34-43 | the initial state holds one new chat; it has an active chat only if both clock readings agree and are non-zero |
| `Session.ChatApp.constructor` | src/App.tsx:34-43 | the component starts in that initial state |
| `Session.FirstTurnAfterClockSkew` | src/App.tsx:34-43 | with differing initial readings, the first turn appends a second chat, and both its placeholder and its reply are dropped |
| `Session.AfterAutoSelect` | src/App.tsx:46-53 | with chats present and a falsy active id, the first chat's id becomes active; otherwise nothing changes; the chats never change |
| `Session.AutoSelectSettles` | src/App.tsx:46-53 | running the effect a second time changes nothing |
| `Session.ChatApp.AutoSelect` | src/App.tsx:50-52 | the component applies the effect to its own state |
| `Session.FindIndex` | src/App.tsx:56 | gives the first position holding the id, or none exactly when no chat has it |
| `Session.ActiveChat` | src/App.tsx:56 | an active chat exists exactly when the id is truthy and names a chat; it is the first chat in the list with that id |
| `Session.ActiveMessages` | src/App.tsx:57 | the messages shown are the active chat's, or none |
| `Session.ChatApp.SelectChat` | src/App.tsx:71-73 | selecting sets the active id as given and leaves the chats alone |
| `Strings.LowerChar` | src/App.tsx:76 | capitals move to their lower-case letter; everything else is kept; the result is never a capital |
| `Strings.ToLower` | src/App.tsx:76 | lower-casing keeps the length and maps each character by `LowerChar` |
| `Strings.ToLowerIdempotent` | src/App.tsx:76 | lower-casing twice is lower-casing once |
| `Strings.Contains` | src/App.tsx:77 | the empty pattern is always found, and a found pattern is no longer than the text |
| `Strings.ContainsIff` | src/App.tsx:77 | `includes` holds exactly when the pattern occurs at some position |
| `Messages.ChartRequest` | src/App.tsx:76-96 | a chart is requested iff the lower-cased text has "gráfico" and one keyword; pie, line and bar each in both directions, by priority pizza > linha > barra/coluna > dispersão |
| `Messages.ChartRequestIgnoresCase` | src/App.tsx:76 | the request does not depend on letter case |
| `Messages.CreateBotMessages` | src/App.tsx:75-112 | zero messages exactly when no chart is requested, else two bot messages: a caption, then `[CHART:<type>]` |
| `Strings.TrimStart` | src/App.tsx:118 | removes exactly the leading whitespace |
| `Strings.TrimEnd` | src/App.tsx:118 | removes exactly the trailing whitespace |
| `Strings.Trim` | src/App.tsx:118 | the trimmed text neither starts nor ends with whitespace |
| `Strings.TrimSlice` | src/App.tsx:118 | the trimmed text is the slice of the text after its leading whitespace |
| `Strings.TrimDropsOnlyBlanks` | src/App.tsx:118 | only whitespace lies before and after the trimmed text |
| `Strings.TrimEmptyIffBlank` | src/App.tsx:118-121 | the trimmed text is empty exactly when every character is whitespace |
| `Messages.UserMessage` | src/App.tsx:123-128 | the user message carries the text and the send time as id |
| `Session.ChatApp.SendUserMessage` | src/App.tsx:114-167 | blank text changes nothing and ends the turn; otherwise the state becomes `WithUserMessage` of the old state; the captured id is the old active id |
| `Messages.ChatTitle` | src/App.tsx:142 | text of at most 30 characters is kept; longer text becomes its first 30 characters plus "..."; so a title has at most 33 characters |
| `Session.WithUserMessage` | src/App.tsx:134-167 | with a falsy or unknown active id, exactly one chat (title, only the user message) is appended and made active, earlier chats untouched; otherwise the count, the ids and other chats stay, the active chat gains the message at the end and is renamed only if it had no messages |
| `Messages.Placeholder` | src/App.tsx:170-175 | the placeholder is a bot message with the "processing" text and id `now + 1` |
| `Session.TurnTarget` | src/App.tsx:178 | the later steps target the captured id if truthy, else the last chat's id, else nothing |
| `Session.WithPlaceholder` | src/App.tsx:177-186 | the length, ids and names stay; the placeholder is appended to exactly the target chats; with no truthy target the list is kept |
| `Session.ChatApp.AddPlaceholder` | src/App.tsx:177-186 | the component's chats become `WithPlaceholder` of the old ones; the active id is unchanged |
| `Session.WithoutMessage` | src/App.tsx:203 | the filter never lengthens the list |
| `Session.WithoutMessageKeeps` | src/App.tsx:203 | the filter keeps exactly the messages that do not carry the id |
| `Session.WithoutMessageAppend` | src/App.tsx:203 | the filter distributes over concatenation, so the kept messages stay in order |
| `Session.WithoutAbsentMessage` | src/App.tsx:203 | filtering an id that no message carries changes nothing |
| `Messages.ReplyMessages` | src/App.tsx:206-242 | an error gives exactly one message (`message` shown before `error`), with id `now + 2`; otherwise one message for SQL (id `now + 2`, first) and one for data (id `now + 3`, last), and the plain `message` alone only when SQL and data are both absent; no messages exactly when nothing is set |
| `Messages.Resolution` | src/App.tsx:208-266 | the exception path gives exactly one failure message; a response gives its reply messages; all are from the bot |
| `Messages.ReplyTextsIgnoreClock` | src/App.tsx:206-242 | the same response always yields the same message texts, whatever the clock |
| `Session.WithReply` | src/App.tsx:195-246 | with no truthy target the list is kept; in each target chat the placeholder's id is removed and the reply follows the rest, in order; other chats, ids and names stay |
| `Session.ChatApp.ResolveTurn` | src/App.tsx:188-269 | the component's chats become `WithReply` of the old ones with the settling messages; the active id is unchanged |
| `Session.ReplaceAfterAppend` | src/App.tsx:244 | within one chat, appending a fresh placeholder and then replacing it appends just the reply |
| `Session.PlaceholderThenReply` | src/App.tsx:177-246 | with a fresh placeholder id, the placeholder and reply steps together just append the reply to the target chats |
| `Session.StaleCaptureDropsTurn` | src/App.tsx:177-203 | a truthy captured id that names no chat leaves the list unchanged in both later steps |
| `Session.TurnOnActiveChat` | src/App.tsx:134-246 | a whole turn on an existing active chat leaves it with its old messages, the user message and the reply; other chats are unchanged |
| `Session.TurnWithoutActiveChat` | src/App.tsx:138-246 | a whole turn without an active id appends one chat holding the user message and then the reply |
| `Session.WithoutChat` | src/App.tsx:274 | the filter never lengthens the list |
| `Session.WithoutChatKeeps` | src/App.tsx:274 | the filter keeps exactly the chats without the id, so no chat with the id remains |
| `Session.WithoutChatAppend` | src/App.tsx:274 | deleting keeps the surviving chats in their order |
| `Session.WithoutAbsentChat` | src/App.tsx:274 | deleting an id that no chat carries is a no-op |
| `Session.AfterDelete` | src/App.tsx:272-283 | every chat with the id goes; the active id is cleared exactly when it equalled the deleted id |
| `Session.ChatApp.DeleteChat` | src/App.tsx:272-283 | the component's state becomes `AfterDelete` of the old state |
| `Session.DeleteActiveThenAutoSelect` | src/App.tsx:272-283 | deleting the active chat clears the active id; the effect then activates the first remaining chat, if there is one |
| `Session.AfterAdd` | src/App.tsx:285-295 | the chat is appended at the end with the others unchanged, and its id becomes active |
| `Session.AddedChatIsActive` | src/App.tsx:285-295 | a chat added with a truthy, unused id is the active chat afterwards |
| `Session.ChatApp.AddChat` | src/App.tsx:285-295 | the component's state becomes `AfterAdd` of the old state |
| `Table.Columns` | src/components/DataViewer.tsx:15 | the columns are the first row's keys, or none without rows |
| `Table.LookupFindsKey` | src/components/DataViewer.tsx:26-27 | `r[k]` is defined exactly when `k` is among the row's keys, and then it is the value of the first entry with that key |
| `Table.InitialX` | src/components/DataViewer.tsx:16 | the category column is the first column; it is unset when there are no columns or that name is empty |
| `Table.FirstNumericColumn` | src/components/DataViewer.tsx:17 | the first column whose first-row value is a number, with no number in an earlier column; none when no column has one |
| `Table.InitialY` | src/components/DataViewer.tsx:17 | the value column is the first column whose first-row value is a number, unless that column's name is empty (falsy); it is unset exactly when there is no such column or its name is empty |
| `Viewer.DataViewer.constructor` | src/components/DataViewer.tsx:13-19 | the component starts with those default columns and 50 rows shown |
| `Table.CellString` | src/components/DataViewer.tsx:26 | `String(v)`: `null` gives "null", the booleans "true" and "false", a number its decimal digits with a minus sign exactly when negative, a string itself |
| `Table.IsNumber` | src/components/DataViewer.tsx:17 | `typeof v === 'number'` holds exactly for a present number |
| `Table.NumberReadsBack` | src/components/DataViewer.tsx:17-27 | a value of type number survives `Number(String(v))` |
| `Table.CategoryKey` | src/components/DataViewer.tsx:26 | a null or undefined value falls in category "N/A"; any other value in the category `String(v)` |
| `Strings.NatToString` | src/components/DataViewer.tsx:26 | a natural number renders as a non-empty run of digits, without a leading zero, whose decimal value is the number |
| `Strings.IntToString` | src/components/DataViewer.tsx:26 | `String(n)` is the digits of `n`, preceded by `-` when `n` is negative |
| `Table.TextNumber` | src/components/DataViewer.tsx:27 | blank text reads as 0; digits after trimming read as their decimal value, with a leading `-` negated and a leading `+` kept; any other text reads as 0 |
| `Table.TextNumberOfIntToString` | src/components/DataViewer.tsx:26-27 | `Number(String(n))` is `n` for every integer |
| `Table.CategoryOfNumberReadsBack` | src/components/DataViewer.tsx:26-27 | a numeric category label reads back as the number it came from |
| `Table.Contribution` | src/components/DataViewer.tsx:27 | a number contributes itself; null or undefined contributes 0; `true` 1 and `false` 0; text contributes its numeric reading |
| `Table.GroupSumSnoc` | src/components/DataViewer.tsx:25-29 | one more row updates only its own category, adding its contribution |
| `Table.Aggregate` | src/components/DataViewer.tsx:24-29 | the loop over the rows computes exactly the group-by-and-sum map |
| `Table.TallySnoc` | src/components/DataViewer.tsx:28 | one more (category, value) entry updates only its own key, adding its value |
| `Table.TallyKeys` | src/components/DataViewer.tsx:25-29 | the accumulated map's keys are exactly the categories of the entries |
| `Table.TallyValue` | src/components/DataViewer.tsx:25-29 | each key of the accumulated map holds the summed value of the entries with that key |
| `Table.TallyConserves` | src/components/DataViewer.tsx:25-29 | the accumulated map's values add up to the total value of the entries |
| `Table.CategorySumOfEntries` | src/components/DataViewer.tsx:25-29 | the per-row sum of a category equals the sum over the row entries |
| `Table.TotalOfEntries` | src/components/DataViewer.tsx:25-29 | the per-row total equals the total over the row entries |
| `Table.GroupSumKeys` | src/components/DataViewer.tsx:24-30 | every row's category (null/undefined as "N/A") is a key once, and there are no other keys |
| `Table.GroupSumValue` | src/components/DataViewer.tsx:25-29 | each key's value is the sum of the contributions of exactly the rows in that category |
| `Table.CategorySumAbsent` | src/components/DataViewer.tsx:25-29 | a category that no row falls in sums to 0 |
| `Table.MapSumRemove` | src/components/DataViewer.tsx:30 | the total of the chart values does not depend on the order of the entries |
| `Table.MapSumUpdate` | src/components/DataViewer.tsx:28 | updating one entry changes the total by the difference at that entry |
| `Table.GroupSumConserves` | src/components/DataViewer.tsx:25-29 | conservation: the chart values add up to the total contribution of all rows |
| `Table.ChartDataOf` | src/components/DataViewer.tsx:23 | the chart data is empty when either column is unset |
| `Table.ChartShownIff` | src/components/DataViewer.tsx:131 | a chart is drawn exactly when both columns are set and there is at least one row |
| `Table.ChartData` | src/components/DataViewer.tsx:22-31 | computes the chart data; with both columns set, its keys are exactly the rows' categories |
| `Viewer.DataViewer.Chart` | src/components/DataViewer.tsx:130-136 | the component's chart data for its columns; the chart is drawn iff both columns are set and there are rows |
| `Viewer.Choice` | src/components/DataViewer.tsx:74 | the empty choice means no column; any other choice is that column |
| `Viewer.DataViewer.SelectCategoryColumn` | src/components/DataViewer.tsx:74 | sets the category column from the select's value |
| `Viewer.DataViewer.SelectValueColumn` | src/components/DataViewer.tsx:80 | sets the value column from the select's value |
| `Csv.Escape` | src/components/DataViewer.tsx:42 | escaping never shortens the text and leaves text without quotes unchanged |
| `Csv.EncodeField` | src/components/DataViewer.tsx:39-42 | a field is empty exactly for null or undefined; otherwise it starts and ends with a quote |
| `Csv.RowFields` | src/components/DataViewer.tsx:38-43 | a row gives one field per header column, each the encoding of that column's value |
| `Strings.JoinLength` | src/components/DataViewer.tsx:36 | joining puts one separator between each two parts: the length is the parts' total plus one separator per gap, and the first part opens the result |
| `Csv.RowLine` | src/components/DataViewer.tsx:38-43 | a row line is empty without columns; otherwise it is the encoded fields plus one comma per gap, starting with the first column's field |
| `Csv.CsvLines` | src/components/DataViewer.tsx:34-45 | no rows give no lines; otherwise the header line (the first row's keys joined by commas), then exactly one line per row, in order |
| `Csv.ExportCsv` | src/components/DataViewer.tsx:33-46 | the loop produces nothing exactly for no rows; otherwise it produces those lines joined by newlines |
| `Csv.QuotedRoundTrip` | src/components/DataViewer.tsx:42 | stripping the outer quotes and undoubling the inner ones recovers `String(v)` |
| `Csv.QuotedFieldRoundTrip` | src/components/DataViewer.tsx:42 | a quoted, escaped text followed by a comma or the line's end reads back as that text |
| `Csv.FieldRoundTrip` | src/components/DataViewer.tsx:39-42 | a field reads back as `String(v)`, or as nothing for null or undefined |
| `Csv.LineRoundTrip` | src/components/DataViewer.tsx:38-43 | a line of encoded fields reads back as every value, in order |
| `Csv.RowLineRoundTrip` | src/components/DataViewer.tsx:37-45 | every row line has one field per header column, and each reads back as its column's value |
| `Csv.JoinCommas` | src/components/DataViewer.tsx:36 | joining names with commas gives one comma per gap plus the names' own commas, and no quote when the names have none |
| `Csv.UnquotedFieldCount` | src/components/DataViewer.tsx:36 | a line without quotes reads as one field more than it has commas |
| `Csv.HeaderFieldCount` | src/components/DataViewer.tsx:35-36 | the unquoted header reads back as one field per column name plus one per comma inside the names, so it matches the columns exactly when no name holds a comma |
| `Viewer.NextPage` | src/components/DataViewer.tsx:121 | "show more" never passes the row count or adds more than 50, and strictly grows while rows remain hidden |
| `Viewer.ShowMoreReachesAll` | src/components/DataViewer.tsx:119-121 | all rows are shown after as many clicks as there are remaining pages of 50 |
| `Viewer.Visible` | src/components/DataViewer.tsx:110 | the table shows the first `min(rowsToShow, rows.length)` rows; some stay hidden exactly when `rows.length > rowsToShow` |
| `Viewer.DataViewer.VisibleRows` | src/components/DataViewer.tsx:110 | the displayed rows fall short of all rows exactly when "show more" is offered |
| `Viewer.DataViewer.ShowMore` | src/components/DataViewer.tsx:121 | sets the counter to `min(rows.length, rowsToShow + 50)`; when offered, this strictly grows and stays within the row count |
| `Viewer.DataViewer.Export` | src/components/DataViewer.tsx:100 | the export button writes the CSV of the displayed rows |

## Left out

- The service call (`src/services/api.ts`) is network I/O and is not part of
  this model. Its response is an input record, and an exception is the
  `Failed` outcome.
- The `await` between the steps of a turn is left out, and so are the
  interleavings it allows. Each step is a separate transition that takes the
  captured id as a parameter.
- `Date.now()` and `new Date()` are left out. Ids and timestamps are
  parameters.
- `JSON.stringify` is not interpreted. The data message carries a JSON
  rendering given with the response.
- Console logging, the service-worker unregistration, JSX rendering,
  styling, dark mode, the sidebar and the message-input component are left
  out.
- The Blob, URL and download code of the export is left out.
- Floating point is not modelled. Cells hold integers, and sums are exact
  integer sums.
- Nested objects or arrays as cell values are not modelled.
- `Messages.ChatTitle`: lengths count Unicode code points. JavaScript counts
  UTF-16 code units, so texts with characters outside the Basic
  Multilingual Plane are cut at a different place.
- `Strings.LowerChar`: only lower-cases A–Z and the Latin-1 capitals
  U+00C0–U+00DE. It does not cover the rest of Unicode case mapping.
- `Strings.IntToString`: renders every integer in plain decimal.
  JavaScript switches to exponent notation from 10^21 on.
- `Table.TextNumber`: reads only text that is an optional sign followed by
  ASCII digits, after trimming. Other numeric text (fractions, exponents,
  hex, `Infinity`) is treated as not a number, so it contributes 0.
- `Table.Lookup`: a row is a list of key/value entries and nothing stops
  two entries sharing a key. Then the model reads the first entry, while a
  row built by `JSON.parse` keeps only the last one. Rows are taken to have
  distinct keys, as parsed JSON objects do.
- `Table.Lookup`: the order of `Object.keys` is the row's own key order. The
  model does not move integer-like keys to the front as JavaScript does.
- `Table.GroupSum`: the map's keys are plain strings. In the source the
  accumulator is an object literal, so a category named after an inherited
  property (`constructor`, `toString`, `__proto__`) behaves differently. The
  model does not capture that.
- The "Mostrando n de m registros" line, the view and chart-type selects,
  the chart title and the report view are rendering only, and are left out.
