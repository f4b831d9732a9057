# Roblox profile card — a Dafny model

The script behind the profile card looks up four things about one Roblox user —
the user record, the avatar thumbnail, the group roles and the presence — waits until
all four lookups have settled, and then writes the card's display fields. Each lookup
drives its own fields only, so one failure never blocks the other three. A rejected
lookup writes only its fallback or nothing: a rejected user lookup writes the `ID: `
name, and after a rejected presence lookup the presence text and class keep the loading
state written at the start of the update.

This project models that update and the helpers it uses:

- `js.dfy` (module `Js`): optional JSON properties, the settled outcome of one lookup
  (`Fulfilled(v) | Rejected`), JavaScript truthiness of strings and numbers,
  `String.prototype.trim`, and the decimal text of an integer in a template literal.
- `html.dfy` (module `Html`): `escapeHtml` as a per-character map, with its inverse.
- `groups.dfy` (module `Groups`): the primary-group text and the `<li>` list markup.
- `presence.dfy` (module `Presence`): the presence decision table.
- `card.dfy` (module `Card`): the card's display state (`CardView`), the state that
  `fillCard` leaves behind as a function of the state before and the four outcomes
  (`Settle`), the class `Card` whose method `FillCard` writes the loading state and then
  runs the four sections of the update (`ShowUser`, `ShowAvatar`, `ShowGroups`,
  `ShowPresence`) and is proved to reach `Settle`, and the load handler with its user-id
  guard.

On these points the model follows the code as written:

- The profile link is written only when the user lookup succeeds.
- The primary-group text falls back to "—" when the first group's name is falsy.
- The presence decision reads `userPresenceType`.
- A failed avatar lookup, or one without a truthy first `imageUrl`, keeps the current picture.
- A failed presence lookup, or one whose `userPresences` is missing or empty, leaves
  "Yükleniyor" and class "offline" (written before the lookups) and keeps the current
  game text.

## Model

| member | source | states |
|---|---|---|
| `Js.TruthyText` | script.js:79 | a string value is truthy exactly when it is present and non-empty, as `||` and `if` test it (lines 79, 87, 99, 150) |
| `Js.TruthyNumber` | script.js:114 | a number value is truthy exactly when it is present and not 0, as `&&`, `||` and `if` test it (lines 114, 117, 121-122) |
| `Js.Trim` | script.js:6 | the trimmed id is a slice of the input with only trim-space characters cut from both ends, and it neither starts nor ends with one |
| `Js.TrimEmptyIff` | script.js:6-7 | trimming leaves the empty string exactly when every character is white space or a line terminator |
| `Js.NatText` | script.js:123 | the place id is rendered as a non-empty run of decimal digits with no leading zero |
| `Js.IntText` | script.js:123 | a negative id gets a leading minus sign and a non-negative one does not |
| `Js.NatTextValue` | script.js:123 | reading the rendered digits back gives the number |
| `Js.IntTextInjective` | script.js:123 | different ids give different texts |
| `Html.EscapeChar` | script.js:151 | each of `& < > " '` becomes a character reference starting with `&` and ending with `;`, and any other character is kept as it is |
| `Html.Escape` | script.js:151 | the escaped text contains no `<`, `>`, `"` or `'` and is at least as long as the input |
| `Html.EscapeHtml` | script.js:149-152 | a falsy argument gives "", a truthy one its escaped text; the result never contains `<`, `>`, `"` or `'` |
| `Html.EscapeAppend` | script.js:151 | escaping distributes over concatenation |
| `Html.EscapeFixesIff` | script.js:151 | a text comes out unchanged exactly when it has none of the five special characters |
| `Html.UnescapeEscape` | script.js:151 | decoding the five references in the escaped text gives the original text back |
| `Html.EscapeInjective` | script.js:151 | distinct texts escape to distinct markup |
| `Html.EscapeSpecialFreeIff` | script.js:151 | the escaped text is free of special characters exactly when the input is |
| `Html.EscapeTwiceIff` | script.js:149-152 | escaping is one pass: escaping the escaped text changes it again unless the input had no special character |
| `Groups.ListItem` | script.js:100 | one membership's `<li>`: escaped group name, " — Rol: ", escaped role name; its `<` count is stated by `ListItemTagCount` |
| `Groups.ListItems` | script.js:100 | the `map` over `data` joined with ""; order and placement are stated by `ListItemsAppend` and `ListItemsAt`, its tag count by `ListItemsTagCount` |
| `Groups.GroupsListHtml` | script.js:100 | the `<strong>Gruplar:</strong><ul …>` frame around the items; `GroupsListSafe` states what the card receives |
| `Groups.ListItemTagCount` | script.js:100 | one membership's `<li>` holds exactly two `<`, those of its own tags, whatever the names contain |
| `Groups.PrimaryGroupText` | script.js:99 | the primary group is the first group's name when it is truthy, otherwise "—"; it is never empty |
| `Groups.ListItemsAppend` | script.js:100 | the items of two runs of memberships are the items of the first followed by those of the second |
| `Groups.ListItemsAt` | script.js:100 | entry i of `data` is rendered as the i-th item, after the items of the entries before it and before those after it |
| `Groups.ListItemsTagCount` | script.js:100 | the items hold exactly two `<` per membership, so no name or role can inject markup |
| `Presence.FirstPresence` | script.js:60 | the presence value is the first entry of `userPresences`, or null when it is missing or empty; `PresenceFields` carries it to the card |
| `Presence.ShownPlace` | script.js:121 | the place shown is `placeId` when that is truthy, else `rootPlaceId` when that is truthy, else none; it is never 0 |
| `Presence.Classify` | script.js:110-137 | the presence decision on a non-null entry, giving text, class and game text; its table is stated by `DecisionTable` and `InGameGameText` |
| `Presence.DecisionTable` | script.js:110-137 | the class is "online" exactly when `userPresenceType` is truthy; "Çevrimdışı" exactly when it is falsy; "Oyunda" exactly when it is truthy and `placeId` or `universeId` is truthy; "Çevrimiçi" in the remaining case; the game text is "—" exactly when not in a game |
| `Presence.InGameGameText` | script.js:117-127 | a truthy type with a truthy place or universe id gives "Oyunda", and the game text is "Place ID: " and the shown place, or "Oynanıyor" when neither place id is truthy |
| `Presence.GameTextIdentifiesPlace` | script.js:121-123 | two in-game game texts naming a place are equal exactly when they name the same place |
| `Presence.PresenceScenarios` | script.js:110-137 | worked cases: type 0 or absent is offline; type 2 with place 123 is "Place ID: 123"; the root place is used when the place is falsy; "Oynanıyor" when only the universe is known; type 1 with no place or universe is "Çevrimiçi" |
| `Card.FirstImageUrl` | script.js:43 | the avatar value is the first entry's `imageUrl`, or null when there is no first entry; `AvatarField` carries it to the card |
| `Card.IdText` | script.js:79 | the fallback name `ID: ` and the id, used on lines 79 and 82 |
| `Card.ProfileUrl` | script.js:80 | the profile link `https://www.roblox.com/users/<id>/profile` |
| `Card.WithLoading` | script.js:66-68 | the loading writes: name "Yükleniyor...", presence "Yükleniyor", class "offline" |
| `Card.WithUser` | script.js:78-84 | the user step; stated by `UserFields` |
| `Card.WithAvatar` | script.js:87-92 | the avatar step, selecting the first `imageUrl` of the body; stated by `AvatarField` |
| `Card.WithGroups` | script.js:95-107 | the group step; stated by `GroupFields` and `GroupsListSafe` |
| `Card.WithPresence` | script.js:110-140 | the presence step, selecting the first entry of `userPresences`; stated by `PresenceFields` |
| `Card.Settle` | script.js:64-140 | the display state `fillCard` leaves: the loading writes, then the four steps in source order; `FillCard` is proved to reach it |
| `Card.ShownName` | script.js:79 | the name shown is the display name if truthy, else the name if truthy, else "ID: " and the id, and it is never empty |
| `Card.Card.constructor` | script.js:12-18 | the card starts with the display state the page's markup gives it |
| `Card.Card.FillCard` | script.js:64-141 | after the loading state and the four steps, the card's state is exactly `Settle` of its old state, the id and the four outcomes |
| `Card.Card.ShowUser` | script.js:78-84 | the user section rewrites the name, and the profile link only on success, and changes nothing else |
| `Card.Card.ShowAvatar` | script.js:87-92 | the avatar section replaces the picture only with a truthy first `imageUrl` of a fulfilled lookup and changes nothing else |
| `Card.Card.ShowGroups` | script.js:95-107 | the group section writes both group fields only for an array `data` and changes nothing else |
| `Card.Card.ShowPresence` | script.js:110-140 | the presence section writes the decision's triple on the first entry of `userPresences`, only when there is one, and changes nothing else |
| `Card.ConfiguredId` | script.js:6-7 | there is no id exactly when the attribute is missing or all white space; otherwise the id is the trimmed, non-empty attribute |
| `Card.OnContentLoaded` | script.js:6-10 | without a usable id no lookup is issued and the card is unchanged; otherwise the card is filled from the lookups for the trimmed id |
| `Card.UserFields` | script.js:78-84 | the name is never empty; on rejection it is "ID: " and the id and the profile link is unchanged; on success it is the name shown and the link is the user's profile URL |
| `Card.AvatarField` | script.js:43-92 | the picture becomes the first thumbnail entry's `imageUrl` when the lookup succeeded and that URL is non-empty ; otherwise it is unchanged |
| `Card.GroupFields` | script.js:95-107 | a non-empty array gives the primary group and the list; an empty array gives "Bulunamadı" and the empty-state message; a rejection or a non-array `data` leaves both fields unchanged |
| `Card.PresenceFields` | script.js:60-140 | the class is always "online" or "offline"; a non-empty `userPresences` gives the decision on its first entry; a rejection or a missing or empty `userPresences` leaves "Yükleniyor", "offline" and the old game text |
| `Card.OutcomesIsolated` | script.js:70-140 | changing one outcome cannot change the fields owned by the other three |
| `Card.AllRejected` | script.js:64-140 | with all four rejected, only the name fallback and the loading presence are written |
| `Card.SettleIdempotent` | script.js:64-140 | filling the card twice with the same outcomes gives the same state as filling it once |
| `Card.StepsCommute` | script.js:77-140 | the four steps write disjoint fields, so running them in reverse order gives the same state |
| `Card.GroupsListSafe` | script.js:100 | the written list is the frame around the items, and the items hold two `<` per membership |

## Left out

- The fetch functions and their HTTP and JSON handling (script.js:30-61) are network I/O. The model starts from their settled response bodies. The selectors of lines 43 and 60 are applied by the avatar and presence steps. The request URLs are not modelled.
- `Promise.allSettled` and its concurrency (script.js:70-75) are out. The four outcomes are inputs.
- `OnContentLoaded` takes the network as a function from id to settled outcomes. It records that no lookup happens by returning no id.
- DOM lookup by id and the `textContent`/`innerHTML`/`className`/`href`/`src` plumbing become plain string fields.
- The missing-card early return (script.js:4) is DOM plumbing and is not modelled.
- `console.warn` and `console.error` are diagnostic only.
- The outer `catch` and `showError` (script.js:22-27, 142-145) are out. The model assumes well-formed payloads. A null user body, a null group body, or a group entry without `group`/`role` would throw a TypeError. That error would skip the remaining steps and go to the catch.
- The error message for an empty id (script.js:8) is out. `showError` reads `errorEl` before its `const` is initialised, so that call throws a ReferenceError instead of showing the message. The model keeps only "no lookups, card untouched".
- The hover glow handlers (script.js:156-165) are UI wiring.
- `escapeHtml` is modelled on string or absent arguments only. `String(s)` of a non-string value is not modelled. The regular expression is written as a per-character map.
- Entries of the thumbnail `data` and of `userPresences` are objects. A null entry, which the selectors of lines 43 and 60 treat as falsy, is not modelled.
- Numbers are integers. NaN and fractions are not modelled.
- `NatText`, `IntText`: only integers with |n| ≤ 2^53−1 render as JavaScript renders them. A larger id is rounded by `JSON.parse` to a double, and JavaScript prints that double with its shortest round-trip digits padded with zeros (2^60 prints as "1152921504606847000"), or in exponent notation from 1e21 on. The model prints the exact decimal digits of any integer.
