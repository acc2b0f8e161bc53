# GetGadget in Dafny

GetGadget is a collecting game played through a Telegram bot and its
mini-apps. A player draws gadget cards and browses them by type and rarity.
Graphics cards, processors and motherboards can be assembled into a PC card.
Cards and PCs are sold for coins, and cards are traded with other players.

This project models the core of that system and proves properties of the
model:

- **Shared game data.** The catalog and draw of `gadgets.py`, the PC spec
  generator of `pc_generator.py`, the constants of `config.py`, the helpers
  of `utils.py` and the JSON store of `database.py`.
- **The three HTTP backends.** `api.py`, `bot/api.py` with its trade
  endpoints, and `bot_api.py`.
- **The two bot front ends.** The Russian handlers of `commands.py` and
  `callbacks.py`, and the English bot of `bot.py`.
- **The React front end.** The wheel, the tab bar, the two build pages, the
  collection page and the home page.

One Dafny module stands for each source file. Shared logic has modules of
its own:

- `Assembly`: building a PC, ejecting a part and selling a PC, as list
  operations on one user's cards.
- `Form`: query strings as ordered dictionaries.
- `Strings`: splitting, decimal numbers, UTF-8 length and sorting.
- `Wrappers`: `Option`, the HTTP `Reply` and the front end's `Outcome` of
  an awaited request.

The store (`Database.Store`) and the pages' React state
(`Wheel.WheelView`, `TabBar.Pill`, `BuildPage.Wizard`, `Build.BuildView`,
`CollectionPage.Collection`, `HomePage.Home`) are classes whose methods
update their fields. Everything else is written as functions over values.

One invariant runs through the model, `Assembly.Linked`: a card whose
`in_pc` names a PC is listed among that PC's components. The model proves
which operations keep it and which break it.

Several things the programs compute are supplied as parameters:

- **Money.** Float arithmetic such as `int(p * 0.85)` and
  `int(t * 1.15)` is the record `Utils.Pricing`.
- **Signatures.** HMAC-SHA-256 is a parameter of its own.
- **JSON decoding.** `json.loads` is a codec parameter.
- **The clock.** It is the reading `now`.
- **Randomness.** `random.random()` is a number `x` in [0, 1), and a
  uniform pick from a list is a nondeterministic choice.

## Model

| member | source | states |
|---|---|---|
| Strings.MissingCharNotContained | commands.py:260-266 | a string holding a character another lacks never occurs in it |
| Strings.AnchoredNotContained | callbacks.py:57-94 | when one character of a pattern occurs once in a text, only the placement through it can match |
| Strings.NotBelowTransitive | api.py:77-83 | the non-strict string order used by `sorted` is transitive |
| Strings.SortStringsCorrect | api.py:77-83 | the sort is ascending and a permutation of its input |
| Strings.SortedUnique | api.py:77-83 | two ascending arrangements of the same multiset are equal |
| Strings.SortStringsPermutation | bot/api.py:48-50 | sorting a rearrangement gives the same result |
| Strings.ParseIntOfDecimal | callbacks.py:287 | `int(str(i)) == i` for every integer |
| Strings.ParseInt | callbacks.py:287 | `int(s)` succeeds exactly on a non-empty run of ASCII digits, optionally after one `+` or `-`, and only a leading `-` gives a negative value |
| Strings.DecimalValue | callbacks.py:157-168 | `int` reads a character as a digit of value below 10; `0`-`9` have their usual value and no other ASCII character has one |
| Strings.AsciiIsDigit | callbacks.py:159 | on ASCII, `isdigit` accepts exactly `0` to `9` |
| Strings.DecimalsValue | callbacks.py:168 | a run of characters has a decimal value exactly when every one is a decimal digit, and on ASCII digits it is the usual value |
| Strings.ParseDigitRun | callbacks.py:159-168 | `int` of the scanned run succeeds exactly when it is non-empty and every character is a decimal digit of some script, and agrees with `int` on ASCII digits |
| Strings.DecimalHasNoUnderscore | callbacks.py:157-166 | no decimal form of an integer contains `_` |
| Strings.SplitJoin | callbacks.py:287 | `s.split(sep)` loses nothing: no part holds the separator, and joining the parts with it gives `s` back |
| Strings.SplitAtMostJoin | callbacks.py:99 | `s.split(sep, n)` also gives `s` back when joined |
| Strings.SplitWithoutSeparator | callbacks.py:175 | a string without the separator splits into itself alone |
| Strings.SplitFirst | callbacks.py:287 | splitting cuts at the first separator |
| Strings.SplitAtMostFirst | callbacks.py:175 | with a cut left to make, the bounded split also cuts at the first separator |
| Strings.Split | callbacks.py:287 | `s.split(sep)` always gives at least one part |
| Strings.SplitAtMost | callbacks.py:99 | `s.split(sep, n)` gives between one and `n + 1` parts |
| Strings.SplitCount | callbacks.py:287 | `s.split(sep)` has one part more than `s` has separators |
| Strings.SplitAtMostCount | callbacks.py:99 | `s.split(sep, n)` has one part more than the cuts made, the separators up to `n` of them |
| Strings.Take | commands.py:252 | `s[:n]` is the first `min(n, len(s))` characters |
| Strings.Drop | callbacks.py:175 | `s[n:]` is what follows the first `n` characters |
| Strings.ReplaceAbsent | api.py:115 | a text without the pattern is left unchanged by `replace` |
| Strings.StripLeading | api.py:115 | `"Bearer " + t` with `t` free of the pattern becomes `t` |
| Strings.Utf8LengthBounds | commands.py:263 | every character takes one to four UTF-8 bytes |
| Strings.Utf8LengthAscii | commands.py:263 | ASCII text takes one byte per character |
| Form.Get | bot_api.py:34-39 | `d.get(k)` finds the value of the key, none when it is absent |
| Form.PutGet | bot_api.py:34-39 | after `d[k] = v`, `k` maps to `v` and every other key keeps its value |
| Form.PutKeys | bot_api.py:34-39 | the keys after an insertion are the old ones plus `k`, still distinct |
| Form.PutKeysOrder | bot_api.py:34-39 | insertion keeps the key order and puts a new key last |
| Form.GetAt | bot_api.py:34-39 | under distinct keys each stored pair is what `get` returns for its key |
| Form.DictOfLastWins | bot/api.py:44-45 | `dict(parse_qsl(...))` holds each key once, with its last value |
| Form.RemoveGet | bot_api.py:41-43 | after the pop `k` is absent and other keys keep their values |
| Form.Lines | bot_api.py:46-49 | one `k=v` line per key, in the order given |
| Form.DataCheckKeysSorted | bot_api.py:46-49 | the data-check lines follow the sorted keys, each key as often as it occurs |
| Form.DataCheckOrderFree | bot/api.py:48-50 | dictionaries with the same contents give the same data-check string, whatever the insertion order |
| Config.RarityDisplayNamesDistinct | config.py:27-35 | `RARITY_NAMES.get(r, r)` shows each of the seven rarities translated, and no two rarities share a display name |
| Config.CategoryDisplayNamesDistinct | config.py:37-45 | `CATEGORY_NAMES.get(c, c)` shows each named category translated, and no two categories share a display name |
| Config.CooldownIsHalfAnHour | config.py:17 | the cooldown is 1800 seconds |
| Config.RarityNamesMatchOrder | config.py:27-48 | the rarity order names seven distinct rarities, and the display-name table covers exactly those |
| Config.TypeKeys | frontend/src/pages/Collection/CollectionPage.tsx:8-14 | the group keys, in order |
| Config.GroupByKey | frontend/src/pages/Collection/CollectionPage.tsx:8-14 | the lookup finds a group exactly when one has the key, and the group found has it |
| Config.FirstGroupOf | api.py:270-285 | the position of the first group listing a category, since the counting loop stops at the first match |
| Config.TypeGroupKeyUnique | frontend/src/pages/Collection/CollectionPage.tsx:8-14 | no two type groups share a key |
| Config.TypeGroupOfCategoryUnique | commands.py:127-130 | no category is listed by two type groups |
| Gadgets.CatalogWellFormed | gadgets.py:24-173 | every catalog name is distinct;: every catalog rarity is one of the seven, no entry is a PC, and every category has a display name |
| Gadgets.CatalogNamesDistinct | gadgets.py:24-173 | no two catalog entries share a name, across all six category lists |
| Gadgets.CatalogNameIdentifiesGadget | gadgets.py:212-217 | a name identifies its catalog entry, so the lookup by name finds the very gadget drawn |
| Gadgets.GadgetNamesKnown | gadgets.py:24-173 | a gadget's rarity is one of the seven and its category has a display name and is not the PC category |
| Gadgets.RarityValue | gadgets.py:234-245 | the seven rarities rank 0 to 6 in order, and an unknown one ranks 0 |
| Gadgets.RarityOrderIncreasing | gadgets.py:234-245 | the rarity order rises strictly in value |
| Gadgets.RarityEmoji | gadgets.py:220-231 | each rarity's emoji, the Common one for an unknown rarity |
| Gadgets.RarityEmojisDistinct | gadgets.py:220-231 | the seven rarities have seven different emoji |
| Gadgets.GetGadgetByName | gadgets.py:212-217 | the first catalog entry with the name, none exactly when no entry has it |
| Gadgets.InitGadgetsListed | config.py:20-24 | every starting gadget names a catalog entry |
| Gadgets.RarityWeightsSumTo100 | gadgets.py:181-189 | the draw weights are positive and sum to 100 |
| Gadgets.ChooseWeighted | gadgets.py:200-202 | the weighted choice is always one of the weighted keys |
| Gadgets.CumulativeWeightMonotone | gadgets.py:200-202 | cumulative weights never decrease |
| Gadgets.ChooseWeightedBand | gadgets.py:200-202 | a point in key `i`'s band selects key `i`, so each key is drawn with probability weight / total |
| Gadgets.OfRaritySound | gadgets.py:192-197 | a rarity group holds only catalog entries of that rarity |
| Gadgets.OfRarityComplete | gadgets.py:192-197 | every entry lands in its own rarity's group, so the grouping partitions the catalog |
| Gadgets.RaritiesInExact | gadgets.py:192-197 | the grouping has a key exactly for the rarities present |
| Gadgets.GroupedExact | gadgets.py:191-197 | the grouping of a list has a key exactly for its rarities, each holding that rarity's entries in order |
| Gadgets.GroupByRarity | gadgets.py:192-197 | the grouping loop builds one list per present rarity, in catalog order |
| Gadgets.GetRandomGadget | gadgets.py:176-209 | the draw is a catalog entry, of the weighted rarity whenever the catalog has one |
| Gadgets.PhonesCoverEveryRarity | gadgets.py:24-173 | the phones alone cover all seven rarities |
| Gadgets.EveryWeightedRarityStocked | gadgets.py:205-209 | every weighted rarity is stocked, so the fallback draw is never taken |
| Gadgets.CatalogDrawHasSelectedRarity | gadgets.py:176-209 | over the real catalog, the draw always has the rarity the weights select |
| Gadgets.DrawFromCatalog | gadgets.py:176-209 | the handlers' draw gives a catalog entry of exactly the rarity the weights select for `x` |
| PcGenerator.LeaderIndex | pc_generator.py:12-23 | the kept position is valid, and present whenever the list is non-empty |
| PcGenerator.LeaderIndexIsEarliestMaximum | pc_generator.py:12-23 | the kept entry is a maximum, and ties go to the earliest entry |
| PcGenerator.HighestRarityCharacterized | pc_generator.py:12-23 | "Trash" for an empty list, else the first member of greatest value |
| PcGenerator.GetHighestRarity | pc_generator.py:12-23 | the loop returns that rarity |
| PcGenerator.HighestRarity | pc_generator.py:12-23 | "Trash" for an empty list, else one of the given rarities |
| PcGenerator.Tier | pc_generator.py:26-87 | every rarity falls in one of the five tiers |
| PcGenerator.GenerateRam | pc_generator.py:26-39 | the RAM of the rarity's tier: 8GB DDR4 up to Common, 16GB DDR4 up to Rare, 32GB DDR5 for Epic and Legendary, 64GB DDR5 above |
| PcGenerator.GenerateStorage | pc_generator.py:42-55 | the storage of the rarity's tier, from 256GB SATA SSD to 2TB+ NVMe SSD |
| PcGenerator.GeneratePsu | pc_generator.py:58-71 | the power supply of the rarity's tier |
| PcGenerator.GenerateCase | pc_generator.py:74-87 | the case of the rarity's tier |
| PcGenerator.GeneratorsFollowTier | pc_generator.py:26-87 | each generator depends on the rarity only through its tier, and RAM is equal for the Epic and Legendary tiers |
| PcGenerator.SpecPrice | pc_generator.py:90-136 | a spec price lies between 0 and the sum of the four highest component prices |
| PcGenerator.ComponentPricesListed | pc_generator.py:90-136 | each component price is a listed amount, 0 for an unknown string |
| PcGenerator.PricingQuirks | pc_generator.py:90-136 | "2TB+" storage is priced as "2TB", and a premium full tower as any premium case |
| PcGenerator.GeneratedSpecPrice | pc_generator.py:26-136 | generated specs cost 160, 320, 500, 730 or 980 by tier |
| PcGenerator.GeneratedSpecPriceMonotone | pc_generator.py:26-136 | a higher rarity never yields cheaper specs |
| PcGenerator.SpecsMap | pc_generator.py:152-157 | the specs dictionary holds exactly the four keys with their values |
| PcGenerator.GeneratePcSpecsMeetsIntent | pc_generator.py:139-158 | the PC gets the highest of the three rarities, specs of that tier and the price of those specs |
| PcGenerator.GeneratePcSpecs | pc_generator.py:139-158 | the PC's rarity is one of the three parts' rarities, its four specs are those of that rarity's tier, and its price is the price of those specs |
| PcGenerator.KnownRarityByValue | gadgets.py:234-245 | among the seven rarities the value determines the name |
| PcGenerator.HighestOfThreeKnown | pc_generator.py:12-23 | for known rarities the result is the rarity of greatest value, whatever the order |
| PcGenerator.GeneratePcSpecsOrderIndependent | pc_generator.py:139-158 | for known rarities the result does not depend on which part carries which rarity |
| Utils.ComponentTotalOfMissing | utils.py:16-27 | `ComponentTotal`: missing components add nothing to the total |
| Utils.ComponentTotalOfThree | utils.py:16-27 | `ComponentTotal`: with three components present, the total is the sum of their prices |
| Utils.CalculatePcSalePrice | utils.py:16-27 | the sale price applies the pricing to the components found and the PC's price |
| Utils.PcSalePriceOfBuiltPc | utils.py:16-27 | `PcSalePrice`: for a PC priced at the premium of its parts plus specs, the sale price is the sale of parts plus specs, since the subtractions cancel |
| Utils.GrantedOntoAddsMissing | utils.py:30-45 | a grant that added cards added only listed gadgets the user lacked |
| Utils.GrantOne | utils.py:36-45 | one loop turn appends a copy of the catalog entry exactly when the user lacks it and the catalog lists it |
| Utils.GrantGadgets | utils.py:30-45 | existing cards are kept, every listed name is owned afterwards, and nothing is added when all were owned |
| Utils.GrantInitialGadgets | utils.py:30-45 | every listed starting gadget is owned afterwards, nothing changes when all were owned, and no other user, record or ban is touched |
| Utils.InitGadgetsAllListed | utils.py:30-45 | with the real catalog, the grant leaves the user owning all three starting gadgets |
| Database.ApplyPatch | database.py:156-169 | the patched card takes every given field and keeps the others |
| Database.FirstIndex | database.py:147-153 | the first position with the id, -1 exactly when the id is absent |
| Database.FindCard | database.py:147-153 | the first card with the id, none exactly when there is none |
| Database.RemoveAll | database.py:130-144 | every card with the id is dropped, the others kept in order |
| Database.RemoveAllShrinksIff | database.py:130-144 | the list shrinks exactly when the id was present, so the result tells whether a card was removed |
| Database.RemoveAllConcat | database.py:130-144 | removing distributes over concatenation |
| Database.RemoveAllMembers | database.py:130-144 | the cards left are exactly those with another id |
| Database.RemoveAllUnique | database.py:130-144 | distinct ids stay distinct |
| Database.RemoveAllKeepsOthers | database.py:130-144 | every other card keeps its multiplicity |
| Database.UpdateFirstChangesOnlyFirstMatch | database.py:156-169 | patching keeps the length and ids and changes only the first card with the id |
| Database.UpdateFirst | database.py:156-169 | the patch loop keeps the length; UpdateFirstChangesOnlyFirstMatch states which card it changes |
| Database.FreeOfCategoryExact | database.py:172-185 | exactly the cards of the category outside every PC |
| Database.FreePartsExact | database.py:172-185 | the parts table has exactly the three part categories, each with the free cards of it in order |
| Database.FreeParts | database.py:172-185 | the parts table has exactly the keys "Graphics Card", "Processor" and "Motherboard" |
| Database.SelectMembers | database.py:188-191 | the result holds exactly the selected cards |
| Database.SelectConcat | database.py:188-191 | selection distributes over concatenation, so order is kept |
| Database.OfCategoryExact | database.py:188-191 | `OfCategory`: exactly the cards of the category |
| Database.Store.constructor | database.py:22-53 | an empty store |
| Database.Store.UserCards | database.py:95-99 | the user's cards, empty when the user has none |
| Database.Store.UserOf | database.py:60-72 | the stored record, or the default record with no coins and no draw |
| Database.Store.GetUser | database.py:60-72 | returns that record and stores it, an existing record unchanged; cards and bans untouched |
| Database.Store.UpdateUser | database.py:75-84 | the given fields are set on the record (created when absent); nothing else changes |
| Database.Store.AddCoins | database.py:87-92 | the balance grows by the amount, which is returned; nothing else changes |
| Database.Store.AddCard | database.py:102-127 | the new card has id `floor(now * 1000)` plus the user's card count, no PC, parts or specs, and goes last |
| Database.Store.RemoveCard | database.py:130-144 | every card with the id is removed, and the result says whether one existed |
| Database.Store.GetCard | database.py:147-153 | the first card with the id, read-only |
| Database.Store.UpdateCard | database.py:156-169 | only the first card with the id is patched, and the result says whether one existed |
| Database.Store.GetAvailablePcParts | database.py:172-185 | for each part category, exactly the user's free cards of it, in order |
| Database.Store.BuiltPcs | database.py:188-191 | exactly the user's PC cards |
| Database.Store.UserHasGadget | database.py:194-200 | true exactly when a card of the gadget exists |
| Database.Store.BanUser | database.py:203-222 | the user's record and cards are deleted, and nothing else |
| Database.Store.AddBannedUser | database.py:256-267 | the user becomes banned, and records and cards are untouched |
| Assembly.FirstIndexAppend | database.py:102-127 | appending a card moves no id already present, and a new id is found at the end |
| Assembly.ClearKeepsLinked | api.py:502-512 | clearing a card's `in_pc` never breaks a link |
| Assembly.ClearCompletesLink | api.py:502-512 | when every other card is linked and ids are distinct, clearing the ejected card's `in_pc` links the whole list |
| Assembly.RemoveAllKeepsLinkedOutside | database.py:130-144 | removing a card no other card names as its PC keeps the others linked |
| Assembly.MarkPartsShape | api.py:461-466 | marking changes only the listed parts' `in_pc`, and every present part ends up in the PC |
| Assembly.BuiltShape | api.py:452-466 | `Built`: building with a fresh id keeps the old cards in place and puts the PC last |
| Assembly.BuildKeepsLinked | api.py:452-466 | `Built`: building with a fresh id from present parts keeps the collection linked, with ids distinct |
| Assembly.BuildFindsPcAndParts | api.py:452-479 | after building, the PC is found with its parts and specs, and each part is found inside it |
| Assembly.BuiltHasPc | api.py:452-466 | the new PC is always found, whether or not its id is fresh |
| Assembly.AssemblePc | api.py:440-466 | the PC card is added, given its parts and specs, then each part is moved into it |
| Assembly.AddPcCard | api.py:452-461 | the PC card is added with the next id and then given its three part ids and specs; users untouched |
| Assembly.MarkThree | api.py:464-466 | the three updates move the listed parts into the PC exactly as marking the three ids in turn does; users and bans untouched |
| Assembly.RemoveFirst | api.py:503 | `list.remove` shortens the list by one when the value is present and changes nothing otherwise |
| Assembly.RemoveFirstKeepsOthers | api.py:503 | every other value stays exactly as present |
| Assembly.ShrunkLinkedOutside | api.py:502-512 | shrinking the PC leaves every card but the ejected one linked |
| Assembly.EjectClearingKeepsLinked | api.py:502-512 | `EjectClearing`: this eject keeps a linked collection linked |
| Assembly.EjectsAgreeWhilePartsRemain | bot/api.py:319-328 | `EjectClearing` and `EjectLeavingPart`: both eject variants agree unless the ejected part was the last one |
| Assembly.EjectLeavingPartStrandsLastPart | bot/api.py:321-324 | `EjectLeavingPart`: ejecting a PC's only part removes the PC and leaves the part naming it |
| Assembly.ShrinkPc | api.py:500-509 | the PC loses the part and is removed when none is left; the remaining list is returned |
| Assembly.EjectPart | api.py:500-512 | the PC shrinks and the part's `in_pc` is cleared, whether or not the PC was removed |
| Assembly.EjectLeaving | callbacks.py:438-458 | the PC is removed when the part was its last and the part left naming it; otherwise the PC keeps the rest and the part is freed |
| Assembly.RemoveIdsMembers | api.py:545-552 | the cards left are exactly those whose id is not listed |
| Assembly.RemoveIdsKeepsLinked | api.py:545-552 | removing a set closed under "inside a removed PC" keeps the collection linked |
| Assembly.SoldPcKeepsLinked | api.py:545-552 | `SoldPc`: selling a PC with its parts keeps the collection linked and leaves none of them |
| Assembly.ClearPartsShape | bot.py:939-941 | `ClearParts`: clearing keeps every id, breaks no link, and leaves every listed card outside any PC |
| Assembly.SoldPcKeepingPartsKeepsLinked | bot.py:939-947 | `SoldPcKeepingParts`: selling the PC and keeping its parts keeps the collection linked and every other card |
| Assembly.ClearedPartsLeavePc | bot.py:939-941 | `ClearParts`: freeing the parts keeps every id in place and the collection linked, and no card is left in the PC |
| Assembly.SellPcKeepingParts | bot.py:921-947 | the parts are freed, the sale price credited and the PC alone removed; the price and new balance are returned |
| Assembly.RemoveCards | api.py:545-546 | the removal loop leaves exactly the cards whose id is not listed |
| Assembly.ClearPartsOf | bot.py:940-941 | the loop clears `in_pc` of each listed card in turn |
| Api.Lookup | api.py:67-74 | the values of a key in the parsed query, in order |
| Api.CheckPairsMembers | api.py:77-83 | `CheckPairs`: exactly the signed entries give lines |
| Api.DataCheckStringCanonical | api.py:77-83 | the data-check string joins a sorted arrangement of exactly those lines, so the collection order does not matter |
| Api.ValidateAcceptsExactlySigned | api.py:57-108 | data is accepted exactly when it has a hash and a user, the first hash is the signature and the user decodes; the result is that user |
| Api.ValidateRejectsMissingHashOrUser | api.py:67-74 | a query without `hash` or `user` is refused whatever its signature |
| Api.ValidateInitData | api.py:57-108 | an accepted query has a non-empty `hash` and `user`, the first hash is the signature of the sorted lines, and the result is the decoded first user |
| Api.CheckPairs | api.py:77-83 | every line comes from a signed entry of the query, never from `hash` |
| Api.GetUserFromRequest | api.py:112-130 | without init data the answer is no user; a user is returned only when the data validates, and a non-zero id only when not banned; the only errors are 403 for a ban and 500 for a user value that is not an object |
| Api.InitDataHeaderPrecedence | api.py:115 | the custom header wins, and a bearer token loses its prefix |
| Api.AuthenticationOutcome | api.py:112-130 | a handler runs for `uid` exactly when the data validates to an object with that non-zero id, not banned; banned gets 403, missing data 401 |
| Api.StatsConcat | api.py:193-197 | the statistics add up over a split of the collection |
| Api.StatsBounded | api.py:193-197 | there are never more PCs than cards |
| Api.Stats | api.py:193-197 | the card count is the collection's length, and the PC count lies between 0 and it |
| Api.GetUserInfo | api.py:183-206 | the record, created when absent, with the statistics of the collection |
| Api.DrawCard | api.py:209-241 | a catalog gadget is appended as a new card and the draw time recorded; there is no cooldown check; the gadget has the rarity the weights select for `x` |
| Api.BumpCounts | api.py:278-283 | bumping adds one to the key's count and the total, nothing else |
| Api.AddToTypeCounts | api.py:270-285 | a card is counted once under its group, in its rarity, keeping the totals balanced |
| Api.AddToTypeKeys | api.py:270-285 | counting a card adds no key but its group's, and that one at most once |
| Api.TallyAllCounts | api.py:255-287 | each free card is counted once under the first group listing its category, and each total is the sum of its rarity counts |
| Api.TotalPositiveIffPresent | api.py:265-285 | a type has an entry exactly when some card counts under it |
| Api.FirstGroupContaining | api.py:270-285 | the inner loop finds the first group listing the category |
| Api.FirstGroupIsFirst | api.py:270-285 | that group is the unique one satisfying the characterization |
| Api.GetCardTypes | api.py:255-287 | the counting loop over the collection |
| Api.CardsByTypeRarity | api.py:290-311 | 400 for an unknown type, else the free cards of the type's categories with that rarity |
| Api.CardsByTypeRarityExact | api.py:304-309 | the answer holds exactly the matching cards, in collection order |
| Api.CardsByTypeRarityOrdered | api.py:304-309 | the answer over a concatenation is the concatenation of the answers, so collection order is kept |
| Api.SellCard | api.py:328-355 | 404 for a missing card, 400 for a truthy `in_pc`, else the sale price is credited and the card removed |
| Api.SellPlainCardKeepsLinked | api.py:343-349 | selling a card that is not a PC with parts keeps the collection linked |
| Api.SellCardOfPcStrandsParts | api.py:339-349 | a PC card passes the guard, and its parts are left naming a PC that is gone |
| Api.ComponentDetails | api.py:472-479 | the loop collects exactly those cards |
| Api.FoundCardsStep | api.py:474-477 | one more id adds its card when found and nothing otherwise |
| Api.BuildPc | api.py:420-481 | 404 unless all three parts exist, 400 if one has a truthy `in_pc`, else the assembled PC and its parts |
| Api.AssembleChecked | api.py:440-479 | the assembly once the checks pass |
| Api.BuildPcOutcome | api.py:440-479 | with a fresh id the answered PC lists the three parts and the generated specs, each part names it, and the collection stays linked |
| Api.EjectComponent | api.py:484-518 | 404 unless both cards exist, 400 unless the part is listed; else the part leaves the list, an empty PC is removed, and the part's `in_pc` is cleared |
| Api.SellPc | api.py:521-558 | 404 unless the card is a PC, 400 unless it has exactly three parts; else the parts and the PC are removed and the PC price credited |
| Api.SellChecked | api.py:538-558 | the sale once the PC is found and complete |
| Commands.PositiveCountIffPresent | commands.py:121-130 | with positive counters a key is counted exactly when present |
| Commands.CountTypes | commands.py:121-130 | every free card is counted once under the first group listing its category, and only types with a card get an entry |
| Commands.TypeRowsExact | commands.py:135-141 | the type menu has a row for a group exactly when a card counts under it, with its count |
| Commands.ShowGadgets | commands.py:100-145 | counts the types, then lists the counted ones in group order |
| Commands.CardsOfRarityExact | commands.py:217-222 | exactly the cards with that rarity |
| Commands.GroupStep | commands.py:171-176 | appending a card to its rarity's group keeps the grouping correct |
| Commands.GroupByRarity | commands.py:171-176 | one group per present rarity, each holding its cards in order |
| Commands.RarityRowsExact | commands.py:181-190 | a listed rarity has a row exactly when a card has it, with that number; no other rows |
| Commands.BuildRarityRows | commands.py:181-188 | the rarity loop builds the rows of the reference, one per rarity the cards have, in rarity order |
| Commands.ShowGadgetTypeRarities | commands.py:148-195 | the screen is the rarity menu of the user's cards for the type |
| Commands.CountedUnderIffInGroup | commands.py:127-130 | the groups' categories are disjoint, so a free card is in a group exactly when counted under it |
| Commands.TypeCountMatchesRarityMenu | commands.py:148-195 | a type button's count is the number of cards its rarity menu is built from |
| Commands.UnknownRarityHasNoButton | commands.py:181-190 | cards of a rarity outside the order are counted but have no rarity button |
| Commands.TypeShort | commands.py:246-252 | an unknown type's code is its first two characters |
| Commands.RarityShort | commands.py:255 | the code is one character, the rarity's first letter when it has one |
| Commands.CardCallback | commands.py:260-266 | the callback is `vc_{id}` or the long `vc_{id}_{type}_{rarity}`, and the long form is used only when it fits in 64 bytes |
| Commands.CardCallbackKeepsLongForm | commands.py:260-266 | for known types and rarities the long form is kept for ids of up to 50 digits |
| Commands.ShortCodesBytes | commands.py:246-255 | the known short codes take at most three bytes and exactly one byte |
| Commands.PairsShape | commands.py:257-275 | packing in pairs loses and reorders nothing, and only an odd count leaves a single button last |
| Commands.PackRows | commands.py:257-275 | the row loop packs the buttons in pairs |
| Commands.CardsScreenLists | commands.py:198-282 | the card list shows each chosen card once, in order, and ends with the back row |
| Commands.ShowGadgetTypeRarityCards | commands.py:198-282 | the screen is the card list of the user's cards for the type and rarity |
| Commands.BuildMenuSteps | commands.py:313-429 | `BuildMenu`: step one lists exactly the missing kinds and offers free graphics cards only when none is missing, and each step extends the callback by the chosen id |
| Commands.MissingPartsExact | commands.py:325-332 | `MissingParts`: a part kind is listed as missing exactly when no free card of it is left, and nothing is missing exactly when all three have one |
| Commands.BuildMenuFirstStep | commands.py:324-354 | step one is the menu exactly when nothing is missing, with one `build_gpu_` button per free graphics card |
| Commands.BuildMenuCpuStep | commands.py:362-375 | step two is the menu exactly when a free processor exists, each button carrying the chosen card then the processor |
| Commands.BuildMenuMbStep | commands.py:393-416 | step three is the menu exactly when a free motherboard exists, each button carrying both chosen ids then the board |
| Commands.ShowBuildMenu | commands.py:313-429 | the screen is the build step for the user's cards and the ids chosen so far |
| Commands.PcRowsButtons | commands.py:490-556 | `PcDetails`: the PC view ejects each part, offers the sale exactly when three parts are found, and ends with the back row exactly when asked |
| Commands.ShowPcDetails | commands.py:490-556 | the screen is the PC view of the user's cards |
| Callbacks.ConfirmSellPcUnreachable | callbacks.py:286-494 | every string with the PC-confirmation prefix already has the card-confirmation prefix, so that branch is never reached |
| Callbacks.DispatchFixedChangesOnlyPcConfirmations | callbacks.py:286-494 | testing the PC confirmation first changes the branch of those strings only |
| Callbacks.ConfirmSellFields | callbacks.py:287 | the card confirmation carries the id in the third field |
| Callbacks.SellFields | callbacks.py:319 | the card sale carries the id in the second field |
| Callbacks.BuildGpuFields | callbacks.py:351 | the graphics card choice carries its id in the third field |
| Callbacks.BuildCpuFields | callbacks.py:355-357 | the processor choice carries both ids |
| Callbacks.BuildMbFields | callbacks.py:367-370 | the motherboard choice carries all three ids |
| Callbacks.PcFields | callbacks.py:416 | the PC view and PC sale carry the PC id where their handlers read it |
| Callbacks.EjectFields | callbacks.py:427-429 | the eject button carries the PC id then the part id |
| Callbacks.ConfirmSellPcFields | callbacks.py:287 | in a PC confirmation the field the card confirmation parses is the word "pc" |
| Callbacks.FixedRoutes | callbacks.py:30-137 | `Dispatch`: each fixed callback reaches its own branch |
| Callbacks.GadgetTypeRoute | callbacks.py:55 | every string with the type prefix reaches the type branch |
| Callbacks.ViewCardRoute | callbacks.py:139 | both card-view spellings reach the card view |
| Callbacks.ConfirmSellRoute | callbacks.py:286 | the card-confirmation prefix reaches its branch |
| Callbacks.SellRoute | callbacks.py:318 | the sale prefix reaches the card sale unless the PC word follows |
| Callbacks.SellPcRoute | callbacks.py:496 | the PC-sale prefix skips the card sale and reaches its branch |
| Callbacks.BuildRoutes | callbacks.py:350-366 | the three assembly steps reach their branches |
| Callbacks.PcRoutes | callbacks.py:415-426 | the PC view and eject reach their branches |
| Callbacks.PcOutcomes | callbacks.py:415-539 | the PC view, confirmation and sale of a PC with three parts, once the id is read |
| Callbacks.ConfirmSellPcRouteFixed | callbacks.py:462 | with the PC confirmation tested first, its data reaches it |
| Callbacks.MatchRarity | callbacks.py:64-85 | a match is a listed rarity, and the text is the type, an underscore and that rarity |
| Callbacks.ParseRarityCallback | callbacks.py:57-94 | a parse gives a non-empty type and a known rarity that rebuild the text |
| Callbacks.RaritiesHaveNoUnderscore | gadgets.py:234-245 | no rarity contains an underscore |
| Callbacks.MatchRarityFinds | callbacks.py:64-85 | the rarity loop stops at the rarity the text was built with |
| Callbacks.RarityCallbackRoundTrip | commands.py:181-190 | a rarity button's callback parses back to its type and rarity |
| Callbacks.TypeField | callbacks.py:99 | the third field of the type callback is the type key |
| Callbacks.RarityButtonOpensCards | callbacks.py:55-101 | a rarity button opens the cards of its type and rarity |
| Callbacks.TypeCallbackOpensRarities | callbacks.py:95-101 | a type button and a card list's back row open the rarity menu |
| Callbacks.DigitRun | callbacks.py:157-166 | the length of the leading run of characters `isdigit` accepts, of any script |
| Callbacks.LeadingDigits | callbacks.py:157-166 | the `isdigit` loop copies exactly that run |
| Callbacks.TypeLong | callbacks.py:180-190 | an unknown type code is kept as it is |
| Callbacks.RarityLong | callbacks.py:180-190 | an unknown rarity code is kept as it is |
| Callbacks.ShortCodesInvert | callbacks.py:180-190 | the short codes of known types and rarities map back to them |
| Callbacks.DigitRunOfDecimal | callbacks.py:157-166 | an id followed by anything `isdigit` refuses has exactly its digits as the leading run |
| Callbacks.ParseLongForm | callbacks.py:139-204 | the long card callback parses to the id and the long names of its codes |
| Callbacks.LongCallbackOpens | callbacks.py:139-285 | the long card callback opens the card with a back row to its list |
| Callbacks.CardButtonOpensCard | commands.py:257-275 | a card button's callback names the card and leads back to its list |
| Callbacks.PlainViewOpensCard | callbacks.py:139-166 | the short callbacks name the card and carry no back button |
| Callbacks.PcSaleButtonFails | callbacks.py:286-317 | the PC view's sale button reaches the card confirmation, which fails on "pc" and changes nothing |
| Callbacks.PcSaleButtonFixed | callbacks.py:462-539 | with the PC confirmation first, its button confirms a three-part PC sale, yes sells the PC and parts at the PC price, no returns to the PC |
| Callbacks.CardSaleFlow | callbacks.py:139-349 | a free card offers the sale; confirming removes it and credits its price, declining reopens it |
| Callbacks.PartInPcNotSold | callbacks.py:318-349 | a part inside a PC is refused by the sale and stays |
| Callbacks.BuildStepOutcomes | callbacks.py:350-365 | the second step once the id is read, from the choice or from the back button |
| Callbacks.BuildCpuOutcome | callbacks.py:354-365 | the third step once both ids are read |
| Callbacks.BuildMbOutcomeOf | callbacks.py:366-414 | the assembly once the ids are read and the parts found |
| Callbacks.AssembledWrites | callbacks.py:381-408 | the assembly rewrites the collection to the built one and leaves the user's record alone |
| Callbacks.BuildStepsFlow | callbacks.py:350-365 | each step's button opens the next with the ids chosen so far, and back returns to step two |
| Callbacks.BuildMbFlow | callbacks.py:366-414 | the third step's button assembles the PC from the three parts when all are found |
| Callbacks.EjectOutcomeOf | callbacks.py:426-460 | the eject once both ids are read and both cards found |
| Callbacks.EjectFlow | callbacks.py:426-460 | the eject keeps the collection linked while parts remain, and says whether the PC was taken apart |
| Callbacks.HandleGetCard | callbacks.py:30-50 | the record is created when absent, a catalog gadget is appended as a new card and the draw time recorded; no cooldown; the gadget has the rarity the weights select for `x` |
| Callbacks.FindRarity | callbacks.py:64-85 | the loop with its early exit finds what `MatchRarity` specifies |
| Callbacks.HandleGadgetType | callbacks.py:55-101 | the screen is the type branch's screen for the user's cards |
| Callbacks.HandleViewCard | callbacks.py:139-285 | the screen is the card view of the user's cards: the format alert without a digit, the parse-error alert when `int` refuses the run, else the card |
| Callbacks.ReadViewRequest | callbacks.py:139-212 | the scan and `int` read what `ParseViewCard` specifies, Unicode digits included |
| Callbacks.ParseViewCard | callbacks.py:157-212 | no id when the text does not start with a digit, a parse error exactly when the scanned digit run is refused by `int`, else the id is the run's value |
| Callbacks.SuperscriptIdRefused | callbacks.py:157-212 | `vc_5²` passes the `isdigit` scan but not `int`, so the view answers the parse-error alert |
| Callbacks.OtherScriptIdRead | callbacks.py:157-168 | `vc_5` followed by an Arabic-Indic three reads the id 53 |
| Callbacks.ShowCardView | callbacks.py:214-285 | the screen is the card view of the user's cards for the request |
| Callbacks.HandleConfirmSell | callbacks.py:286-317 | the screen is the card confirmation of the user's cards |
| Callbacks.HandleSell | callbacks.py:318-349 | the answer, cards and coins are the card sale's outcome |
| Callbacks.HandleBuildGpu | callbacks.py:350-353 | the screen is the second build step |
| Callbacks.HandleBuildCpu | callbacks.py:354-365 | the screen is the third build step |
| Callbacks.HandleBuildMb | callbacks.py:366-414 | the answer and cards are the assembly's outcome |
| Callbacks.AssembleAndShow | callbacks.py:381-413 | the assembled collection is stored and its PC view answered, the record untouched |
| Callbacks.HandlePc | callbacks.py:415-424 | the screen is the PC view of the user's cards |
| Callbacks.HandleEject | callbacks.py:426-460 | the answer and cards are the eject's outcome |
| Callbacks.HandleConfirmSellPc | callbacks.py:462-494 | the screen is the PC confirmation of the user's cards |
| Callbacks.HandleSellPc | callbacks.py:496-539 | the answer, cards and coins are the PC sale's outcome |
| Callbacks.SellFoundPc | callbacks.py:509-539 | once a whole PC is found, the answer, cards and coins are the PC sale's outcome |
| Callbacks.Handle | callbacks.py:19-540 | each branch has the outcome of its reference function; `get_card` draws |
| Callbacks.HandleWrite | callbacks.py:318-539 | the branches that write have the outcome of their reference function |
| Callbacks.HandleDataScreen | callbacks.py:55-494 | the branches that read ids show the screen of their reference function and change nothing |
| Callbacks.HandleMenu | callbacks.py:19-137 | the fixed menu branches have the outcome of their reference function |
| Callbacks.ButtonCallback | callbacks.py:19-540 | the branch is the first test of the chain the data passes |
| Callbacks.ButtonCallbackFixed | callbacks.py:462-494 | the same handler with the PC confirmation tested first |
| Bot.ConfirmSellPcUnreachable | bot.py:638-917 | every PC confirmation is caught by the card confirmation, so its branch is never reached |
| Bot.DispatchFixedChangesOnlyPcConfirmations | bot.py:638-917 | testing the PC confirmation first changes the branch of those strings only |
| Bot.FixedRoutes | bot.py:489-582 | `Dispatch`: each fixed callback reaches its own branch |
| Bot.ViewCardRoute | bot.py:611 | the card-view prefix reaches the card view |
| Bot.ConfirmSellRoute | bot.py:638 | the card-confirmation prefix reaches its branch |
| Bot.SellRoute | bot.py:668 | the sale prefix reaches the card sale unless the PC word follows |
| Bot.SellPcRoute | bot.py:919 | the PC-sale prefix reaches its branch |
| Bot.BuildRoutes | bot.py:701-717 | the three assembly steps reach their branches |
| Bot.PcRoutes | bot.py:783-845 | the PC view and eject reach their branches |
| Bot.ViewCardFields | bot.py:612 | the view button carries the id in the third field |
| Bot.CategoryListing | bot.py:187-198 | the keys are the categories of the non-PC cards, in order of first appearance |
| Bot.FirstCategoriesExact | bot.py:187-198 | a category is listed exactly when a non-PC card has it, once |
| Bot.GroupStep | bot.py:187-198 | one loop turn for a non-PC card keeps the grouping correct |
| Bot.PcStep | bot.py:187-198 | a PC card leaves the groups unchanged |
| Bot.ListingExact | bot.py:187-198 | the grouping is determined by its keys and the reference listing |
| Bot.GroupCards | bot.py:187-198 | PCs apart in order, the other cards grouped by category in order of first appearance |
| Bot.LabelNeverCut | bot.py:233-235 | the label is at most 17 characters, so it is never cut |
| Bot.ViewButtonsOpenFreeCards | bot.py:228-246 | each view button belongs to a free card and opens it |
| Bot.PairsSnoc | bot.py:228-246 | appending a button opens a new row at an even count and completes the row at an odd count |
| Bot.RowStep | bot.py:228-246 | adding to the open row gives the packed buttons |
| Bot.ViewKeyboard | bot.py:228-246 | the keyboard loop packs the view buttons in pairs |
| Bot.ShowCards | bot.py:165-253 | the PCs, the category groups and the screen of the card list |
| Bot.ProfileStats | bot.py:522-532 | the loop gives the card count, the PC count and the summed purchase prices of `Api.Stats` |
| Bot.PartMenuSteps | bot.py:261-345 | `PartMenu`: each step lists exactly its free parts, and each part's button extends the ids so far to reach the next step |
| Bot.ShowPartMenu | bot.py:261-345 | the screen is the build step for the user's cards and the ids chosen so far |
| Bot.CardOutcomes | bot.py:611-699 | the card view, confirmation and sale of a free card once the id is read |
| Bot.CardSaleFlow | bot.py:611-699 | a free card, a PC included, offers the sale; yes removes it and credits its price, no reopens it |
| Bot.PartInPcNotSold | bot.py:611-699 | a part inside a PC has no sale row and is refused by both sale branches |
| Bot.PcSoldAsCardStrandsParts | bot.py:668-699 | the card sale of a PC removes it alone and strands its parts |
| Bot.PcSaleButtonFails | bot.py:638-666 | the PC view's sale button reaches the card confirmation, which fails on "pc" and changes nothing |
| Bot.PcRoutesFixed | bot.py:783-960 | with the PC confirmation first, it and the PC view and sale reach their own branches |
| Bot.PcViewOutcome | bot.py:783-844 | `PcScreen`: the PC view once the id is read |
| Bot.PcSaleButtonFixed | bot.py:882-960 | with the PC confirmation first, the sale is confirmed, the parts freed, the PC price credited and the PC removed; the collection stays linked |
| Bot.SellPcSold | bot.py:919-960 | a PC found under the sale's id is sold keeping its parts, for the price of the parts found, whatever its number of parts |
| Bot.BuildStepsFlow | bot.py:701-715 | each step's button opens the next with the ids chosen so far, and back returns to step two |
| Bot.BuildMbFlow | bot.py:717-782 | the third step assembles the PC when all parts are found, and the answer opens the new PC |
| Bot.EjectFlow | bot.py:845-880 | the eject keeps the collection linked while parts remain, and says whether the PC was taken apart |
| Bot.HandleProfile | bot.py:518-549 | the record is created when absent and the totals computed |
| Bot.HandleViewCard | bot.py:611-636 | the screen is the card view of the user's cards |
| Bot.HandleConfirmSell | bot.py:638-666 | the screen is the card confirmation |
| Bot.HandleSell | bot.py:668-699 | the answer, cards and coins are the sale's outcome |
| Bot.HandleBuildGpu | bot.py:701-703 | the screen is the second build step |
| Bot.HandleBuildCpu | bot.py:705-715 | the screen is the third build step |
| Bot.HandleBuildMb | bot.py:717-782 | the answer and cards are the assembly's outcome |
| Bot.Assemble | bot.py:732-781 | the assembled collection is stored and the new PC answered |
| Bot.HandlePc | bot.py:783-844 | the screen is the PC view |
| Bot.HandleEject | bot.py:845-880 | the answer and cards are the eject's outcome |
| Bot.HandleConfirmSellPc | bot.py:882-917 | the screen is the PC confirmation |
| Bot.HandleSellPc | bot.py:919-960 | the parts are freed one at a time, the price credited, then the PC removed |
| Bot.Handle | bot.py:481-961 | each branch has the outcome of its reference function; `get_card` draws |
| Bot.HandleWrite | bot.py:668-960 | the branches that write have the outcome of their reference function |
| Bot.HandleDataScreen | bot.py:611-917 | the branches that read ids show the screen of their reference function and change nothing |
| Bot.HandleMenu | bot.py:489-582 | the fixed menu branches have the outcome of their reference function |
| Bot.ButtonCallback | bot.py:481-961 | the branch is the first test of the chain the data passes |
| Bot.ButtonCallbackFixed | bot.py:882-917 | the same handler with the PC confirmation tested first |
| WebApi.SignedPairs | bot/api.py:44-50 | every key but `hash` is signed once, with its last value |
| WebApi.VerifyWebAppDataExact | bot/api.py:35-78 | data is accepted exactly when the last hash signs the other pairs and the last user decodes |
| WebApi.VerifyWebAppDataNeedsHash | bot/api.py:45-68 | data without a hash is refused |
| WebApi.VerifyWebAppData | bot/api.py:35-78 | accepted data parses, and its last hash is the signature of the other pairs |
| WebApi.GetUserFromHeader | bot/api.py:81-94 | a missing or empty header is a 401 "Missing init data"; an accepted header verifies and gives a non-zero id |
| WebApi.IdOf | bot/api.py:81-94 | an accepted user is an object carrying the returned non-zero id; every refusal is a 401 or 500 |
| WebApi.TradeUserMatchesHeaderCheck | bot/api.py:363-368 | the inline check accepts the same users as the header check, differing only in one detail |
| WebApi.IdOfAccepts | bot/api.py:81-94 | a user is accepted exactly when the data verifies to an object with a non-zero id |
| WebApi.BuildPc | bot/api.py:180-234 | 404 unless all cards exist, 400 if one is in a PC, then 400 for a wrong category in GPU, CPU, motherboard order; else the PC |
| WebApi.AssembleChecked | bot/api.py:203-234 | the assembly answers only the PC card |
| WebApi.SellCard | bot/api.py:237-260 | 404 for a missing card, 400 for a set `in_pc`, else credit and removal |
| WebApi.SellGuardsDiffer | bot/api.py:244-245 | this guard refuses strictly more than the truthiness test of api.py:339-340, differing on PC id 0 |
| WebApi.SellPc | bot/api.py:263-301 | 404 unless the card is a PC, 400 unless it has three parts; else parts and PC removed and the price credited |
| WebApi.EjectComponent | bot/api.py:304-328 | 404 or 400 as checked; the part leaves the list, and an empty PC is removed with the part still naming it |
| WebApi.TradeBook.constructor | bot/api.py:342-351 | an empty trade book |
| WebApi.CardProblem | bot/api.py:371-382 | the first offered card missing (404) or inside a PC (400), with its detail |
| WebApi.CardProblemNone | bot/api.py:371-382 | no problem exactly when every card is present and free |
| WebApi.CheckCards | bot/api.py:371-382 | the validation loop finds that first problem |
| WebApi.CreateReplySound | bot/api.py:360-402 | a created offer is from the caller, pending, of free cards the caller owns and coins they have |
| WebApi.CreateTradeOffer | bot/api.py:360-402 | the offer is stored under its millisecond id, replacing any with that id |
| WebApi.RecipientCheckExact | bot/api.py:445-455 | only the recipient of a known pending offer passes |
| WebApi.TransferCards | bot/api.py:469-493 | the transfer loop moves cards until one is missing |
| WebApi.MoveFound | bot/api.py:469-481 | one turn moves the found card from the sender to the receiver, users untouched |
| WebApi.MoveCardsStops | bot/api.py:469-493 | once stopped, later ids change nothing |
| WebApi.RemoveOneKind | bot/api.py:469-481 | under distinct ids, removing a card removes exactly its kind once |
| WebApi.MoveOneConserves | bot/api.py:469-481 | each turn keeps the kinds both users hold together |
| WebApi.MoveCardsConserves | bot/api.py:469-493 | a trade neither creates nor destroys cards, even when it stops midway |
| WebApi.MoveCards | bot/api.py:469-493 | the card the loop stopped at, when it stopped, is one of the ids to move |
| WebApi.AcceptTrade | bot/api.py:432-504 | after the checks the cards move both ways, coins move, and the offer is accepted; a missing card stops midway with the offer pending |
| WebApi.RejectTrade | bot/api.py:507-537 | after the checks the offer is rejected and nothing else changes |
| WebApi.DecisionsOnlyLeavePending | bot/api.py:432-537 | a decision moves only the decided offer, only from pending, and never twice |
| WebApi.CreateAddsPending | bot/api.py:386-399 | a new offer under a fresh id is pending and leaves the others as they were |
| WebApi.SameMillisecondOfferReplaces | bot/api.py:386-399 | two offers in the same millisecond share a key, so the second replaces the first |
| WebApi.Values | bot/api.py:420-424 | the offers of the book, each once |
| WebApi.WhereMembers | bot/api.py:420-424 | a filter keeps exactly the selected offers |
| WebApi.OffersPartition | bot/api.py:405-429 | incoming are exactly the pending offers to the caller, outgoing exactly the caller's own; a self-offer is only incoming |
| WebApi.HistoryExact | bot/api.py:540-558 | the history holds exactly the decided offers the caller sent or received |
| WebApi.GetTradeOffers | bot/api.py:420-424 | the loop computes that partition |
| WebApi.GetTradeHistory | bot/api.py:553-556 | the loop computes that history |
| BotApi.CheckedValues | bot_api.py:34-43 | the checks read the last value given for each key |
| BotApi.CheckSignedExact | bot_api.py:41-57 | the signature check passes exactly when the last hash is non-empty ASCII equal to the signature of the rest |
| BotApi.CheckFreshExact | bot_api.py:60-69 | freshness holds exactly when `auth_date` parses to a time within the window before `now` |
| BotApi.CheckFreshReadable | bot_api.py:60-69 | with a readable `auth_date`, the check fails exactly when more than the window has passed |
| BotApi.CheckUserSetsId | bot_api.py:72-98 | an accepted user object carries the returned id |
| BotApi.VerifyInitDataSound | bot_api.py:25-100 | acceptance means a valid signature, a fresh `auth_date`, and a user whose id is returned |
| BotApi.VerifyInitData | bot_api.py:25-100 | missing or empty data is refused with 401 "Missing initData"; every refusal is a 401, or the 500 of a non-ASCII hash |
| BotApi.CheckSigned | bot_api.py:31-57 | a passing check returns the parsed pairs without `hash`; a failure is a 401, or a 500 when the hash is not ASCII and the digest comparison raises |
| BotApi.CheckFresh | bot_api.py:60-69 | a passing check returns an `auth_date` at most the window before `now`; every failure is a 401 |
| BotApi.CheckUser | bot_api.py:72-98 | every failure of the user checks is a 401 |
| BotApi.SignedDataExcludesHash | bot_api.py:41-49 | the signed pairs exclude `hash` and hold each key once with its last value |
| BotApi.VerifyInitDataEarlier | bot_api.py:60-69 | data accepted at one time is accepted at any earlier time |
| BotApi.VerifyInitDataExpiry | bot_api.py:60-69 | with a valid signature, data is expired exactly when more than the window has passed |
| BotApi.CheckUserDetails | bot_api.py:72-98 | the user checks fail only with their own details |
| BotApi.UserIdPrecedence | bot_api.py:83-90 | `user_id` is used only when the object gives no id |
| BotApi.NonObjectUserRefused | bot_api.py:72-98 | a non-object user passes the id checks only through `user_id` |
| BotApi.UserIdFallbackRoundTrip | bot_api.py:83-98 | a decimal `user_id` is read back as that integer |
| BotApi.CatalogListing | bot_api.py:116-123 | one entry per catalog gadget, in order, with a known rarity |
| BotApi.CatalogListingExact | bot_api.py:122 | the listing is exactly the catalog's names with their rarities |
| BotApi.ApiGetCard | bot_api.py:126-149 | a catalog gadget is added and the draw time set to the whole seconds of `now`; the gadget has the rarity the weights select for `x` |
| Wheel.FindName | web/src/components/Wheel/Wheel.tsx:110-111 | the first item with the name, -1 exactly when none has it |
| Wheel.FloorIndex | web/src/components/Wheel/Wheel.tsx:110-111 | `floor(r * n)` is a valid index |
| Wheel.TargetIndex | web/src/components/Wheel/Wheel.tsx:110-111 | the item with the drawn name, else a random one |
| Wheel.Cycle | web/src/components/Wheel/Wheel.tsx:114 | the reel stops in copy 0 or 1 |
| Wheel.MinOffset | web/src/components/Wheel/Wheel.tsx:148-150 | the lowest offset is at most 0 |
| Wheel.Clamp | web/src/components/Wheel/Wheel.tsx:151-153 | the clamped value lies in the range and is the value when it already does |
| Wheel.IdealOffset | web/src/components/Wheel/Wheel.tsx:130-141 | the offset puts the target's centre on the viewport's centre |
| Wheel.Landing | web/src/components/Wheel/Wheel.tsx:148-153 | the final offset lies between the lowest offset and 0, and is the ideal offset or one of the two bounds |
| Wheel.Displacement | web/src/components/Wheel/Wheel.tsx:165-173 | the displacement lies between minus the lowest offset's magnitude and 0, and equals a landing already in that range |
| Wheel.Phases | web/src/components/Wheel/Wheel.tsx:176-178 | three phases ending at the displacement, moving monotonically towards a displacement at or below 0 |
| Wheel.PlanSpin | web/src/components/Wheel/Wheel.tsx:130-205 | the landing is in range, the displacement equals it, the phases run to it, and the tick interval lies between 8 and 4200 ms |
| Wheel.TickInterval | web/src/components/Wheel/Wheel.tsx:199-205 | one tick per item passed, never faster than every 8 ms |
| Wheel.LandingInRange | web/src/components/Wheel/Wheel.tsx:141-173 | the final offset lies between the lowest offset and 0 |
| Wheel.LandingCentresTarget | web/src/components/Wheel/Wheel.tsx:130-153 | an ideal offset within range puts the target's centre at the viewport's centre |
| Wheel.SecondClampKeeps | web/src/components/Wheel/Wheel.tsx:169-173 | the second clamp changes nothing |
| Wheel.PhasesMonotone | web/src/components/Wheel/Wheel.tsx:176-178 | the phases move monotonically to the clamped landing |
| Wheel.PhaseDurations | web/src/components/Wheel/Wheel.tsx:215-217 | the phases take 0.504, 3.024 and 0.672 seconds, 4.2 in all |
| Wheel.WheelView.constructor | web/src/components/Wheel/Wheel.tsx:28-29 | no spin runs, the offset is 0, and nothing has moved, ticked or vibrated |
| Wheel.WheelView.BeginGet | web/src/components/Wheel/Wheel.tsx:81-85 | a spin starts exactly when none runs, there are items and the elements are measured |
| Wheel.WheelView.FinishGet | web/src/components/Wheel/Wheel.tsx:86-243 | a failure or missing measurement ends the spin unmoved; otherwise the three phases run to the landing, the tick interval is set and one vibration fires; the flag is cleared either way |
| TabBar.RootIndex | frontend/src/components/TabBar.tsx:26-27 | the first root tab, -1 exactly when there is none |
| TabBar.LongestMatchUnique | frontend/src/components/TabBar.tsx:30-37 | `LongestMatch`: at most one tab is the longest match |
| TabBar.ActiveIndex | frontend/src/components/TabBar.tsx:24-39 | the root tab on the root path, else the longest prefix match (earliest on ties), else the root tab, else the first |
| TabBar.PillFor | frontend/src/components/TabBar.tsx:68 | the highlight's left edge is never negative |
| TabBar.PillCoversTab | frontend/src/components/TabBar.tsx:60-69 | with non-negative padding the highlight covers the tab, centred unless cut at 0 |
| TabBar.Pill.constructor | frontend/src/components/TabBar.tsx:58 | the highlight starts at 0 with width 0 |
| TabBar.Pill.Measure | frontend/src/components/TabBar.tsx:60-69 | without both elements the highlight stays, else it takes the padded tab's place |
| Wrappers.MessageOr | frontend/src/pages/Build/BuildPage.tsx:44-48 | `err.message || fallback`: a non-empty message is shown as it is, otherwise the fallback, so a page never shows an empty error |
| BuildPage.MissingPartsError | frontend/src/pages/Build/BuildPage.tsx:40-48 | the message of the first empty category, none exactly when all have parts |
| BuildPage.Wizard.constructor | frontend/src/pages/Build/BuildPage.tsx:20-27 | the first step, nothing chosen or loaded |
| BuildPage.Wizard.LoadParts | frontend/src/pages/Build/BuildPage.tsx:33-54 | the lists are stored with the first missing category reported, or the failure's message; loading ends |
| BuildPage.Wizard.SelectGpu | frontend/src/pages/Build/BuildPage.tsx:56-62 | the card is recorded and the processor step opens |
| BuildPage.Wizard.SelectCpu | frontend/src/pages/Build/BuildPage.tsx:64-70 | the processor is recorded and the motherboard step opens |
| BuildPage.Wizard.SelectMb | frontend/src/pages/Build/BuildPage.tsx:72-96 | the three ids are sent in order; a built PC opens the result, a failure stays with the error |
| BuildPage.Wizard.Back | frontend/src/pages/Build/BuildPage.tsx:98-109 | back one step, dropping that step's choice and never the graphics card |
| BuildPage.Wizard.Reset | frontend/src/pages/Build/BuildPage.tsx:111-119 | every choice, the PC and the error are dropped, and the parts reloaded |
| BuildPage.Wizard.CurrentParts | frontend/src/pages/Build/BuildPage.tsx:121 | the list for the current step |
| BuildPage.Wizard.BackVisible | frontend/src/pages/Build/BuildPage.tsx:128 | the back button shows at the processor and motherboard steps only |
| BuildPage.WizardRun | frontend/src/pages/Build/BuildPage.tsx:33-96 | with every list non-empty, three choices and a built PC end at the result, with no error, after sending the chosen ids |
| Build.NameOf | frontend/src/pages/Build.tsx:81-133 | the name of the first part with the id, none exactly when no part has it |
| Build.BuildView.constructor | frontend/src/pages/Build.tsx:8-13 | loading, at the first step, nothing chosen |
| Build.BuildView.Mount | frontend/src/pages/Build.tsx:15-36 | without a user nothing is requested; otherwise the answer is stored (a failure keeps none) and loading ends |
| Build.BuildView.View | frontend/src/pages/Build.tsx:53-177 | lists show only with all three categories present, each step's list exactly at its step with its earlier ids set, and the build button exactly when a motherboard is set |
| Build.BuildView.ClickGpu | frontend/src/pages/Build.tsx:81-103 | the id is recorded and the step moves on |
| Build.BuildView.ClickCpu | frontend/src/pages/Build.tsx:105-131 | the id is recorded and the step moves on |
| Build.BuildView.ClickMb | frontend/src/pages/Build.tsx:133-177 | the id is recorded and the step stays |
| Build.BuildView.BackToGpu | frontend/src/pages/Build.tsx:105-131 | back to the first step, no id dropped |
| Build.BuildView.BackToCpu | frontend/src/pages/Build.tsx:133-177 | back to the second step, no id dropped |
| Build.BuildView.HandleBuild | frontend/src/pages/Build.tsx:38-51 | a request with the user and three ids exactly when all are set and a user is present; a failure alerts its detail or the default |
| Build.BuildButtonSendsRequest | frontend/src/pages/Build.tsx:159 | a shown build button always sends the request |
| Build.StaleMotherboardKept | frontend/src/pages/Build.tsx:105-177 | going back and picking another processor shows the build button at once with the earlier motherboard |
| CollectionPage.EntryOf | frontend/src/pages/Collection/CollectionPage.tsx:115-116 | the entry of a type key, none exactly when absent |
| CollectionPage.CountKeys | frontend/src/pages/Collection/CollectionPage.tsx:116 | the keys of a count table, in order |
| CollectionPage.InOrder | frontend/src/pages/Collection/CollectionPage.tsx:169-194 | the order's members that are present |
| CollectionPage.InOrderIncreasing | frontend/src/pages/Collection/CollectionPage.tsx:169-194 | filtering keeps the order increasing in rarity |
| CollectionPage.RarityButtons | frontend/src/pages/Collection/CollectionPage.tsx:16 | exactly the present rarities, from Trash to Mythic |
| CollectionPage.Collection.Mount | frontend/src/pages/Collection/CollectionPage.tsx:53-64 | the types are stored and shown, or the failure's message; loading ends |
| CollectionPage.Collection.TypeInfo | frontend/src/pages/Collection/CollectionPage.tsx:115 | the group of the selected type, none without one |
| CollectionPage.Collection.PresentRarities | frontend/src/pages/Collection/CollectionPage.tsx:116 | only rarities counted for the selected type |
| CollectionPage.Collection.View | frontend/src/pages/Collection/CollectionPage.tsx:169-227 | each list shows exactly in its view with content, and the rarity list is the ordered buttons |
| CollectionPage.Collection.BackVisible | frontend/src/pages/Collection/CollectionPage.tsx:123 | the back button is hidden exactly in the types view |
| CollectionPage.Collection.SelectType | frontend/src/pages/Collection/CollectionPage.tsx:66-72 | the type is recorded and its rarities shown |
| CollectionPage.Collection.SelectRarity | frontend/src/pages/Collection/CollectionPage.tsx:74-89 | the selection is requested; cards open the list, a failure stays with the error |
| CollectionPage.Collection.Back | frontend/src/pages/Collection/CollectionPage.tsx:101-113 | cards back to rarities, rarities back to types with the selection dropped |
| CollectionPage.Collection.CardRoute | frontend/src/pages/Collection/CollectionPage.tsx:91-99 | the route parses back to the card id and carries the selection |
| CollectionPage.ErrorStays | frontend/src/pages/Collection/CollectionPage.tsx:66-113 | no handler clears a shown error |
| HomePage.Home.constructor | frontend/src/pages/Home/HomePage.tsx:9-13 | no coins, no draw, no card, no error |
| HomePage.Home.LoadUser | frontend/src/pages/Home/HomePage.tsx:24-60 | the balance is shown, or the failure's message |
| HomePage.Home.BeginDraw | frontend/src/pages/Home/HomePage.tsx:62-68 | a draw starts exactly when none runs, showing the reel with error and card dropped |
| HomePage.Home.FinishDraw | frontend/src/pages/Home/HomePage.tsx:69-97 | the card and balance are kept, or the error is shown and the reel hidden; loading ends |
| HomePage.Home.ReelComplete | frontend/src/pages/Home/HomePage.tsx:99-101 | the reel is hidden and the card kept |
| HomePage.Home.DrawAgain | frontend/src/pages/Home/HomePage.tsx:159-167 | the card is dropped and a new draw begins |
| HomePage.Home.View | frontend/src/pages/Home/HomePage.tsx:114-191 | the reel while it runs, then the card, else the button with the error |
| HomePage.DrawAndReveal | frontend/src/pages/Home/HomePage.tsx:62-101 | a successful draw reveals the card with the new balance and no error |
| HomePage.FailedDrawShowsError | frontend/src/pages/Home/HomePage.tsx:62-97 | a failed draw leaves the button enabled with the error and the balance unchanged |

## Left out

- HMAC-SHA-256 and the Telegram bot token are a signature parameter. `parse_qs`/`parse_qsl` percent-decoding and `json.loads` are codec parameters.
- Utils.Pricing: the float arithmetic `int(p * 0.85)`, `int(t * 1.15)` and `int(t * 1.15 * 0.85)` is a parameter, so rounding is not modelled. Utils.PcSalePriceOfBuiltPc is stated for a pricing where `pcSale` and `premium` are given, not the Python floats.
- The clock and `random` are inputs (`now`, `x`). The uniform picks of `random.choice` are nondeterministic choices, so no probability is stated for them.
- The JSON files of `database.py` and the trade book are state fields. Loading, saving, directory creation and races between concurrent requests are not modelled.
- Message texts, photos, parse modes and the calls to Telegram (`edit_message_text`, `answer`) are not modelled. Screens are modelled as their data and buttons.
- `show_pcs` (commands.py:431-488, bot.py:352-414) is not modelled: it only lists the PCs. Neither are the start, card, help and gadget commands or `initialize_user`.
- The api.py endpoints `init_auth`, `get_cards`, `get_card_detail`, `get_pcs`, `get_pc_detail` and `get_available_parts` are not modelled. They are thin reads over the store operations that are modelled.
- The bot/api.py endpoints `health_check`, `get_user_profile`, `get_user_cards`, `get_card`, `get_new_card`, `get_user_pcs`, `get_available_pc_parts` and `get_available_cards_for_trade` are not modelled. They are reads over the store, and the draw is modelled through `Api.DrawCard`.
- `database.transfer_coins` is called by `accept_trade` but defined nowhere in the source. It is a parameter of `WebApi.AcceptTrade`.
- Database.Store.IsUserBanned carries no contract of its own. It is the membership test of the ban map.
- Strings.ParseInt: Python's `int()` also accepts surrounding whitespace, underscores between digits and non-ASCII digits. The model's `ParseInt` accepts an optional `+` or `-` sign followed by ASCII digits only. The card-view id (callbacks.py:157-168) is the one place where non-ASCII digits are modelled, through `Strings.ParseDigitRun` and the digit tables of Unicode 15.0; the other `int()` calls are read as ASCII.
- A JSON float passed to `int()` is truncated in the source. The model's JSON value treats floats and arrays as an opaque value that is refused.
- Wheel: console logging, `resetWheelIfNeeded`, the catalog fetch and the easing curves are not modelled. Only the interval of the periodic tick vibrations is recorded, not each tick. JavaScript doubles are real numbers, so rounding is not modelled.
- The front-end handlers other than the guarded draws (`Wheel.handleGet`, `HomePage.handleDrawCard`) take the awaited answer as an input. Interleavings of their awaits are not modelled.
- HomePage: `initData` handling and `api.init`, the CardReel component, the Telegram back button, navigation, haptics and DOM measurement are not modelled.
- The type groups used by `api.py` and `commands.py` are taken from frontend/src/pages/Collection/CollectionPage.tsx:8-14. `config.py` does not define them.
- The rarity emoji of gadgets.py:220-231 are kept as the code points written in the file.

## Findings

| source | as written | input that shows it | evidently intended | confidence | as-written member | corrected member |
|---|---|---|---|---|---|---|
| callbacks.py:286-317 | The `confirm_sell_` test comes before `confirm_sell_pc_` (line 462), so it also catches PC confirmations and runs `int(data.split("_")[2])` | `confirm_sell_pc_5`, whose third field is `"pc"`, so `int("pc")` raises | the PC sale button asks to confirm the PC sale | not executed | Callbacks.PcSaleButtonFails | Callbacks.PcSaleButtonFixed |
| bot.py:638-666 | The same shadowing: `confirm_sell_` is tested before `confirm_sell_pc_` (line 882) | `confirm_sell_pc_5` | the PC sale button asks to confirm the PC sale | not executed | Bot.PcSaleButtonFails | Bot.PcSaleButtonFixed |
| bot/api.py:321-324 | Ejecting the last part removes the PC but never clears the part's `in_pc`. The same holds at callbacks.py:439-457 and bot.py:862-872 | a PC with components `[7]`, ejecting card 7 | the part is freed, as api.py:502-512 does, so every `in_pc` names an existing PC | not executed | Assembly.EjectLeavingPartStrandsLastPart | Assembly.EjectClearingKeepsLinked |
