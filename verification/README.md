# Booking contract generator — Dafny model

This project models the core of a small React booking app for event services: a
photobooth, a 360 video, a blessing video, a horoscope booth, a sticker line, a bundle
package and an add-on. It covers six parts of the app:

- The catalog of services and the shared booking fields (`ServiceConfig`).
- The per-instance service form: the initial record, the end-time effect, field edits,
  and the record handed back to the app (`ServiceForm`).
- The selection list and its per-instance saved data: toggle, save and remove
  (`Selection`). The tally and the names on the selection screen (`ServiceSelection`).
- `generateContract`, which turns the selection into contract lines (`GenerateContract`).
  Each line is priced, with bundle pricing zeroing the other lines. The lines are stably
  sorted so bundle lines come first (`BundleSort`), then totalled.
- The plain-text booking summary (`BookingSummary`).
- The printable contract's rows, labels and payment terms (`ContractTemplate`).

JavaScript values are modelled in `JsValues` as `Value = Undefined | Str | Num` over
`map<string, Value>` records. In this model, a missing key and a key holding `undefined`
are different. Object spread is map union, with the right-hand side winning. Truthiness,
`||` and template-literal printing are written out. `Types` holds the service tags, the
declared shapes of the service variants, and the `Typed` invariant. Under that invariant,
numeric keys hold numbers and every other key holds text, and `undefined` is allowed
anywhere.

Number inputs store `parseNumber(text)` and every other input stores the text itself
(`src/components/UI/FormField.tsx`). So the forms only ever build `Typed` records, which
`ServiceForm.FieldChangeKeepsTyped` and `ServiceForm.CatalogInputsAgree` prove. The
contract generator takes `Typed` inputs.

Behaviours of the code worth knowing:

- The total adds only each line's `price`. The add-on's four sub-prices are printed in
  the summary but not totalled (`GenerateContract.AddonSubPricesNotTotalled`).
- The shared event date, guest count and location are copied onto every line except a
  bundle line, the add-on included.
- A negative travel fee is added to the total. The contract then echoes no fee, so the
  printed amounts add up to more than the total (`ContractTemplate.ShownAmountsAddUpToTotal`).
- The add-on has no catalog entry. Its contract row is labelled "Unknown Service", while
  the summary calls it "Add-on" (`ContractTemplate.LabelsAgreeExceptAddon`).
- The final instalment is not clamped at 0 (`ContractTemplate.FinalInstalmentCanBeNegative`).
- The summary prints `undefined` for a schedule key that is present but undefined. The
  shared keys are always present on a non-bundle line (`BookingSummary.IfPresent`).
- The contract template shows schedule lines for an add-on; the summary does not
  (`ContractTemplate.VisibilityByTag`).

## Model

| member | source | states |
|---|---|---|
| JsValues.Spread | src/components/ContractForm/ServiceForm.tsx:14-19 | object spread: every key of either side, the right-hand value winning on shared keys |
| JsValues.OrEmpty | src/App.tsx:88-93 | `v \|\| ""`: falsy values print as empty text, truthy text prints as itself |
| JsValues.NatToString | src/App.tsx:49 | the decimal text of a position is non-empty, all digits, has no leading zero, and reads back as the number |
| JsValues.NatToStringInjective | src/App.tsx:49 | distinct positions have distinct decimal text |
| JsValues.IntToString | src/utils/formatters.ts:30 | `toString()` of an integer: a minus sign for negatives, then digits reading back as the magnitude |
| JsValues.PadStart2 | src/utils/formatters.ts:30 | `padStart(2, "0")`: a shorter text is left-padded with zeros to length 2; a longer one is unchanged |
| Types.ParseServiceType | src/types/index.ts:1 | reads a tag back from its string form; any other string is no tag |
| Types.ServiceTypeTags | src/types/index.ts:1 | exactly seven tags, with pairwise distinct string forms, each read back by ParseServiceType |
| Types.IdInjective | src/types/index.ts:1 | distinct tags have distinct string forms |
| Types.TagOfIs | src/types/index.ts:81 | a record carries a tag exactly when its `serviceType` is that tag's string |
| Types.VariantShapes | src/types/index.ts:3-81 | every variant has a numeric `price` and optional text `notes`; a bundle adds nothing; an add-on adds four optional item pairs and no schedule, location or guest fields |
| Types.NumericKeysMatchDeclarations | src/types/index.ts:3-79 | the numeric-key set agrees with the number-typed properties of every variant |
| Selection.ServiceKeyParts | src/App.tsx:49 | `${id}_${index}` is the id, an underscore, and digits reading back as the index |
| Selection.ServiceKeyInjective | src/App.tsx:49 | `${id}_${index}` determines both the id and the index |
| Selection.InstanceData | src/App.tsx:50 | the saved data of an instance is the entry under its key, or `{}` when there is none |
| Selection.HandleServiceToggle | src/App.tsx:23-25 | selecting appends exactly one instance and leaves the saved data alone |
| Selection.HandleServiceDataChange | src/App.tsx:36-41 | saving sets one key and keeps every other entry and the selection |
| Selection.DataChangeReadsBack | src/App.tsx:275-286 | after an instance's form saves under its own key, that instance reads back the saved data and every other instance reads what it read before |
| Selection.WithoutIndex | src/App.tsx:28 | the filter drops exactly the element at the index, shifting later ones down; an index outside the list drops nothing |
| Selection.HandleRemoveService | src/App.tsx:27-34 | removal as written: drops the instance and deletes only its own key, keeping every other entry unchanged |
| Selection.RemovedKey | src/App.tsx:31 | the deleted key is the instance key of the removed position; past the end, the `undefined` id's key |
| Selection.RemovedKeyIsServiceKey | src/App.tsx:31 | the deleted key is the removed instance's data key |
| Selection.RemoveUndoesToggle | src/App.tsx:23-34 | toggling a service on and then removing that last instance restores the state |
| Selection.RemoveKeepsEarlierData | src/App.tsx:27-34 | instances before the removed one keep their saved data |
| Selection.RemoveLosesLaterData | src/App.tsx:27-34 | removing the photobooth of [photobooth, bundle] leaves the bundle reading empty data while its price stays orphaned |
| Selection.MovedData | src/App.tsx:27-34 | the renumbered entries: each remaining instance's new key holds exactly what its old key held |
| Selection.RemoveServiceRenumbered | src/App.tsx:27-34 | corrected removal: every remaining instance reads the data it had before, and non-instance entries are kept |
| ServiceConfig.GetServiceConfig | src/services/serviceConfig.ts:359-361 | an entry found for a text has that text as its id |
| ServiceConfig.FindConfig | src/services/serviceConfig.ts:359-361 | `find`: none exactly when no entry has the id, otherwise the first entry with it |
| ServiceConfig.FindConfigUnique | src/services/serviceConfig.ts:359-361 | with distinct ids, looking up an entry's id finds that entry |
| ServiceConfig.CatalogIds | src/services/serviceConfig.ts:3-310 | six entries with distinct ids, in declaration order |
| ServiceConfig.LookupByTag | src/services/serviceConfig.ts:359-361 | every tag except the add-on has an entry with that tag; the add-on has none |
| ServiceConfig.LookupOfUnknownId | src/services/serviceConfig.ts:359-361 | a string that is no tag has no entry |
| ServiceConfig.DefaultPriceIsBasePrice | src/services/serviceConfig.ts:3-310 | every entry's defaults carry its non-negative base price as `price` |
| ServiceConfig.DefaultsCarryNoTag | src/services/serviceConfig.ts:3-310 | no entry's defaults set `serviceType` |
| ServiceConfig.BasePrices | src/services/serviceConfig.ts:3-310 | the base prices 0, 8900, 10900, 4900, 4900 and 1200 |
| ServiceConfig.DefaultEndTimesAgree | src/services/serviceConfig.ts:3-310 | every entry with default hours has the default end time calculateEndTime gives for its start and hours |
| ServiceConfig.EveningDefaults | src/services/serviceConfig.ts:34-41 | defaults of 18:00 plus three hours ending at 21:00, or plus two ending at 20:00, agree with calculateEndTime |
| ServiceConfig.CommonFieldNames | src/services/serviceConfig.ts:312-357 | the six shared fields, in form order |
| Formatters.JsRemainder | src/utils/formatters.ts:27-28 | JavaScript `%` agrees with the mathematical remainder on a non-negative dividend |
| Formatters.JsRemainderTruncates | src/utils/formatters.ts:27-28 | JavaScript `%` on a positive divisor: the remainder of truncating division, smaller than the divisor in size, with the dividend's sign |
| Formatters.CalculateEndTime | src/utils/formatters.ts:20-34 | empty exactly for an empty start or zero hours; for positive hours, a clock time `hours` later, minutes kept, wrapping past midnight |
| Formatters.ClockTextDeterminedByValue | src/utils/formatters.ts:30 | two `HH:MM` texts with the same hour and minute are equal |
| Formatters.EndTimeFromFields | src/utils/formatters.ts:20-34 | any clock text with the right hour and minute is the calculated end time |
| Formatters.CalculateEndTimeEvening | src/utils/formatters.ts:20-34 | 18:00 plus 3 hours is 21:00 |
| Formatters.CalculateEndTimeTwoHours | src/utils/formatters.ts:20-34 | 18:00 plus 2 hours is 20:00 |
| Formatters.CalculateEndTimeWrapsMidnight | src/utils/formatters.ts:20-34 | 23:00 plus 3 hours is 02:00 |
| Formatters.CalculateEndTimeDayPeriodic | src/utils/formatters.ts:27 | adding 24 hours gives the same end time |
| Formatters.CalculateEndTimeNegativeHours | src/utils/formatters.ts:25-30 | negative hours are not guarded: 00:30 minus one hour gives "-1:-30" |
| Formatters.RemoveCommas | src/utils/formatters.ts:37 | the result holds no comma and is the input when it had none |
| Formatters.RemoveCommasAppend | src/utils/formatters.ts:37 | comma removal distributes over concatenation |
| Formatters.TrimStart | src/utils/formatters.ts:38 | `parseFloat` skips leading white space (ECMAScript's WhiteSpace and LineTerminator characters, non-ASCII spaces included): the result is a suffix, everything dropped is white space, and it does not start with white space |
| Formatters.TrimStartSkips | src/utils/formatters.ts:38 | white space in front of a text is skipped entirely, whatever follows it when that does not start with white space |
| Formatters.ParseLeadingInteger | src/utils/formatters.ts:38-39 | a text that, after its white space, does not start with a digit or a signed digit reads as 0 (NaN turned into 0); a negative value needs a leading minus |
| Formatters.LeadingDigits | src/utils/formatters.ts:38 | the longest digit prefix |
| Formatters.LeadingDigitsStop | src/utils/formatters.ts:38 | the digit prefix stops at the first non-digit |
| Formatters.ParseNumber | src/utils/formatters.ts:36-40 | a digits-only text (after comma removal) parses to its value; a text without digits, or whose comma-free form does not start (after white space) with a digit or signed digit, parses to 0 |
| Formatters.ParseNumberReadsPrefix | src/utils/formatters.ts:36-40 | any comma-free text made of white space, an optional sign, a digit string and then anything not starting with a digit parses to the signed value of those digits |
| Formatters.ParseNumberIgnoresComma | src/utils/formatters.ts:37 | inserting a comma anywhere changes nothing |
| Formatters.ParseNumberRoundTrip | src/utils/formatters.ts:36-40 | parsing the text of any integer gives that integer back |
| Formatters.ParseNumberOfText | src/utils/formatters.ts:38-39 | a text with no number ("abc") gives 0, not NaN |
| Formatters.ParseNumberDropsFraction | src/utils/formatters.ts:38 | a decimal fraction after the whole part is dropped |
| ServiceForm.InitialFormData | src/components/ContractForm/ServiceForm.tsx:14-19 | the saved data wins over the defaults, which win over the tag and base price |
| ServiceForm.WithComputedEndTime | src/components/ContractForm/ServiceForm.tsx:21-26 | with truthy hours and start, `endTime` is set to calculateEndTime and nothing else changes; otherwise the record is unchanged |
| ServiceForm.EndTimeIdempotent | src/components/ContractForm/ServiceForm.tsx:21-26 | running the effect again changes nothing and keeps the record typed |
| ServiceForm.ComputedEndTimeIsLater | src/components/ContractForm/ServiceForm.tsx:21-26 | the computed end time is a clock time `hours` after the start, wrapping at midnight |
| ServiceForm.EmittedData | src/components/ContractForm/ServiceForm.tsx:28-32 | the shared data other than notes overlays the form data |
| ServiceForm.EmittedKeepsOwnNotes | src/components/ContractForm/ServiceForm.tsx:29-31 | the instance's own notes survive; the shared notes never reach it |
| ServiceForm.EmittedTyped | src/components/ContractForm/ServiceForm.tsx:28-32 | overlaying typed records gives a typed record |
| ServiceForm.HandleFieldChange | src/components/ContractForm/ServiceForm.tsx:34-36 | sets exactly the named field |
| ServiceForm.FieldValue | src/components/UI/FormField.tsx:26-37 | a number input stores `parseNumber(text)`; any other input stores the text |
| ServiceForm.FieldChangeKeepsTyped | src/components/UI/FormField.tsx:26-37 | editing a field whose input kind matches its key keeps the record typed |
| ServiceForm.CatalogInputsAgree | src/services/serviceConfig.ts:3-357 | every catalog field and shared field is a number input exactly when its key is numeric |
| ServiceForm.ShouldShowField | src/components/ContractForm/ServiceForm.tsx:38-43 | the custom photo size shows exactly when the photo size is "custom"; every other field always shows |
| ServiceForm.FreshPhotoboothHidesCustomSize | src/components/ContractForm/ServiceForm.tsx:38-43 | a fresh photobooth form hides only the custom-size field |
| ServiceForm.FreshFormConsistent | src/components/ContractForm/ServiceForm.tsx:14-26 | a fresh catalog form carries its own tag and base price, is typed, and its default end time is already the computed one |
| ServiceForm.FreshFormFromDefaults | src/components/ContractForm/ServiceForm.tsx:14-26 | the same for any defaults with the base price, no tag, typed values and an agreeing end time |
| ServiceForm.DefaultsPremises | src/services/serviceConfig.ts:3-310 | the four timed entries' defaults are typed and start at a clock time |
| ServiceSelection.CountOf | src/components/ServiceSelection/ServiceSelection.tsx:44 | `counts[id] \|\| 0`: 0 for an absent id, otherwise the count of its entry |
| ServiceSelection.Bump | src/components/ServiceSelection/ServiceSelection.tsx:18 | a known id is counted once more in place; a new one is appended with a count of 1 |
| ServiceSelection.BumpCounts | src/components/ServiceSelection/ServiceSelection.tsx:18 | counting one more id keeps ids distinct, adds 1 to that id and to the total, and changes no other count |
| ServiceSelection.TallyStep | src/components/ServiceSelection/ServiceSelection.tsx:17-19 | counting the next selection extends the tally of the prefix by one |
| ServiceSelection.GetServiceCounts | src/components/ServiceSelection/ServiceSelection.tsx:15-21 | distinct ids in order of first selection, each counted by its occurrences, counts summing to the selection size |
| ServiceSelection.SelectedIffCounted | src/components/ServiceSelection/ServiceSelection.tsx:44-49 | a card shows as selected exactly when its id is in the selection |
| ServiceSelection.GetServiceName | src/components/ServiceSelection/ServiceSelection.tsx:23-26 | the catalog name of the id, or the id itself when there is no entry |
| ServiceSelection.ServiceNames | src/components/ServiceSelection/ServiceSelection.tsx:23-26 | every bookable service is listed by its catalog name; the add-on by its bare id |
| BundleSort.CompareLines | src/App.tsx:71-76 | -1 exactly for a bundle line against a non-bundle line, 1 for the reverse, 0 when both or neither are bundle lines |
| BundleSort.Insert | src/App.tsx:71-76 | one more line; a bundle line, or any line in front of a list that does not start with a bundle line, goes first |
| BundleSort.SortLines | src/App.tsx:71-76 | as many lines; with no bundle line the order is unchanged |
| BundleSort.BundleLines | src/App.tsx:71-76 | the bundle lines, in order |
| BundleSort.OtherLines | src/App.tsx:71-76 | the non-bundle lines, in order |
| BundleSort.InsertIntoPartition | src/App.tsx:71-76 | inserting into a partitioned list puts a bundle line at the front and any other line after the bundle group |
| BundleSort.SortIsStablePartition | src/App.tsx:71-76 | the sort is the bundle lines in order, then the others in order |
| BundleSort.PartitionPreservesLines | src/App.tsx:71-76 | splitting into the two groups loses and gains nothing |
| BundleSort.PartitionOfPartitioned | src/App.tsx:71-76 | an already partitioned list splits back into its parts |
| BundleSort.SortFacts | src/App.tsx:71-76 | the sorted lines are a permutation with every bundle line first, and sorting again changes nothing |
| BundleSort.SumOfPositivePrices | src/App.tsx:78-81 | the sum of the positive prices: never negative, and 0 when no price is positive |
| BundleSort.SumOfPositivePricesAppend | src/App.tsx:78-81 | the total of a concatenation is the sum of the totals |
| BundleSort.SortKeepsSum | src/App.tsx:78-81 | sorting does not change the total |
| BundleSort.SumOfPositivePricesNonNegative | src/App.tsx:78-81 | the services' total is never negative |
| GenerateContract.HasBundleService | src/App.tsx:45 | true exactly when some selected id is "bundle" |
| GenerateContract.CatalogPrice | src/App.tsx:56 | the entry's base price, or 0 when there is no entry |
| GenerateContract.FinalPrice | src/App.tsx:53-56 | 0 for a non-bundle line beside a bundle; otherwise the saved price, else the catalog price |
| GenerateContract.LineNotes | src/App.tsx:69 | truthy notes are kept; empty ones become `undefined` |
| GenerateContract.SharedFields | src/App.tsx:62-66 | nothing for a bundle; otherwise exactly the three shared event keys with the shared values |
| GenerateContract.BuildLine | src/App.tsx:58-70 | the line's price is the final price and its notes are the own notes |
| GenerateContract.LineKeys | src/App.tsx:58-70 | a line has the tag, price and notes keys, the instance's keys and the shared keys, and no others |
| GenerateContract.LineSharedField | src/App.tsx:62-66 | a shared event key takes the shared value, whatever the instance saved |
| GenerateContract.LineOwnField | src/App.tsx:60 | any other saved key keeps its saved value |
| GenerateContract.LineTag | src/App.tsx:59 | without a saved tag the line is tagged with its own id |
| GenerateContract.Lines | src/App.tsx:47 | one line per instance, in selection order |
| GenerateContract.DepositOrDefault | src/App.tsx:94 | a truthy saved deposit, otherwise 3000 |
| GenerateContract.GenerateContract | src/App.tsx:43-97 | the lines stably sorted bundle-first, a total of positive prices plus the fee, the deposit, a fee only when positive, and the customer fields |
| GenerateContract.BundleZeroesOtherPrices | src/App.tsx:52-56 | with a bundle selected, every other line is priced 0 and a bundle line keeps its saved price |
| GenerateContract.PriceWithoutBundle | src/App.tsx:54-56 | without a bundle, the saved price (a saved 0 included), else the catalog price |
| GenerateContract.SharedFieldsOverride | src/App.tsx:61-66 | non-bundle lines carry the shared event date, guest count and location |
| GenerateContract.BundleKeepsOwnEventFields | src/App.tsx:62 | a bundle line has those keys only when its own data has them, with its own values |
| GenerateContract.LineNotesOwn | src/App.tsx:68-69 | a line's notes are its own, empty ones dropped |
| GenerateContract.LinesFollowSelection | src/App.tsx:59-60 | when saved tags agree with the selection, each line is tagged with its id, so exactly the bundle instances give bundle lines |
| GenerateContract.BuildLineTyped | src/App.tsx:58-70 | a line built from typed data is typed |
| GenerateContract.LinesTyped | src/App.tsx:47-70 | every contract line is typed |
| GenerateContract.TotalCoversTravelFee | src/App.tsx:78-81 | the total is never below the travel fee |
| GenerateContract.SortTwoLinesBundleLast | src/App.tsx:71-81 | two lines with the bundle second are swapped, and both prices are summed |
| GenerateContract.PhotoboothLine | src/App.tsx:47-56 | a lone catalog photobooth with no saved data gives one line paying the 8900 base price |
| GenerateContract.PhotoboothWithTravelFee | src/App.tsx:43-97 | a catalog photobooth with a 500 fee totals 9400, echoes the fee and defaults the deposit to 3000 |
| GenerateContract.BundleWithPhotobooth | src/App.tsx:43-97 | a 15000 bundle after a photobooth sorts first, the photobooth pays 0, and the total is 15000 |
| GenerateContract.AddonSubPricesNotTotalled | src/App.tsx:78-81 | an add-on contributes only its own positive `price` to the total, never its item prices |
| GenerateContract.NegativeTravelFeeLowersTotal | src/App.tsx:78-95 | a negative fee is added to the total but not echoed |
| BookingSummary.Unlines | src/utils/bookingSummary.ts:6-105 | the lines joined with a newline after each: the text ends in a newline, and no lines give the empty text |
| BookingSummary.SplitUnlines | src/utils/bookingSummary.ts:3-109 | splitting the text at newlines gives back the lines when none contains one |
| BookingSummary.SummaryName | src/utils/bookingSummary.ts:11-20 | a tagged line is named by its tag's label; an unknown tag by the empty text |
| BookingSummary.SummaryLabelsDistinct | src/utils/bookingSummary.ts:11-20 | the seven labels are non-empty and pairwise distinct |
| BookingSummary.SummaryNames | src/utils/bookingSummary.ts:11-21 | one name per service, in order |
| BookingSummary.Header | src/utils/bookingSummary.ts:6-23 | five lines: the title, the customer and phone, the groom and bride with an absent name printed as empty text, the service names joined by ", ", and a blank line |
| BookingSummary.IfPresent | src/utils/bookingSummary.ts:34 | an absent key prints nothing; a present undefined one prints "undefined" |
| BookingSummary.ShownPhotoSize | src/utils/bookingSummary.ts:41-43 | the custom size exactly when "custom" is chosen and a truthy custom size is given; in every other case the photo size |
| BookingSummary.ScheduleLines | src/utils/bookingSummary.ts:33-52 | no schedule line is blank |
| BookingSummary.StickerLines | src/utils/bookingSummary.ts:54-58 | no sticker line is blank |
| BookingSummary.PriceSuffix | src/utils/bookingSummary.ts:67-69 | ` - price บาท` exactly when the item's price is a positive number, nothing otherwise |
| BookingSummary.AddonItemLines | src/utils/bookingSummary.ts:65-71 | one line exactly when the item is named, none otherwise; the line is the item's text followed by its price suffix exactly when the price is a positive number |
| BookingSummary.AddonTotal | src/utils/bookingSummary.ts:93 | `(p1 \|\| 0) + … + (p4 \|\| 0)`: 0 when no sub-price is a number, and at least each sub-price when none is negative |
| BookingSummary.AddonLines | src/utils/bookingSummary.ts:64-97 | no add-on line is blank |
| BookingSummary.BlockContent | src/utils/bookingSummary.ts:26-101 | a block opens with its heading and has no blank line |
| BookingSummary.TagLines | src/utils/bookingSummary.ts:33-97 | the lines a tag calls for are never blank |
| BookingSummary.NoteLines | src/utils/bookingSummary.ts:99-101 | the notes line, when printed, is not blank |
| BookingSummary.ServiceBlock | src/utils/bookingSummary.ts:26-105 | a block opens with its heading (numbered as `BlockHeadingNumber` states) |
| BookingSummary.BlockHeadingNumber | src/utils/bookingSummary.ts:27-31 | a lone service's heading is the plain one; with several, the heading is the numbered prefix, digits reading back as `index + 1`, and a colon |
| BookingSummary.BlockHeadingsDistinct | src/utils/bookingSummary.ts:27-28 | with several services, no two blocks share a heading |
| BookingSummary.BlockList | src/utils/bookingSummary.ts:26-106 | one block per service, in service order, each built from its own service and position |
| BookingSummary.BlockListHeading | src/utils/bookingSummary.ts:26-31 | the block of the `i`-th service opens with heading `i` |
| BookingSummary.FlatAt | src/utils/bookingSummary.ts:26-106 | laid end to end, the `k`-th line of part `i` sits at that part's offset plus `k` |
| BookingSummary.LineAfter | src/utils/bookingSummary.ts:23-106 | after a header, the `k`-th line of part `i` sits at the header's length plus the part's offset plus `k` |
| BookingSummary.BlocksEnds | src/utils/bookingSummary.ts:26-106 | no services print no block lines; otherwise the blocks open with the first heading and end on a non-blank line |
| BookingSummary.SummaryShape | src/utils/bookingSummary.ts:3-109 | the summary is the header, followed by the first block's heading when there are services, ending on a non-blank line |
| BookingSummary.SummaryHeading | src/utils/bookingSummary.ts:26-31 | the summary line where the `i`-th block starts is its heading, numbered `i + 1` when there are several services |
| BookingSummary.BlocksInOrder | src/utils/bookingSummary.ts:26 | a later service's block starts later in the summary |
| BookingSummary.Text | src/utils/bookingSummary.ts:3-109 | the lines, each followed by a newline: the text ends with a newline and splits back into the lines when none holds one |
| BookingSummary.FormatBookingSummary | src/utils/bookingSummary.ts:3-109 | the text ends with a newline and splits back into the summary lines |
| BookingSummary.SummaryOpening | src/utils/bookingSummary.ts:6-23 | the summary opens with its title, the customer, the couple and the service list |
| BookingSummary.BlockSeparator | src/utils/bookingSummary.ts:103-105 | a block ends with a blank line exactly when it is not the last |
| BookingSummary.ScheduledTags | src/utils/bookingSummary.ts:33 | the schedule is printed exactly for lines not tagged stickerline, bundle or add-on, unknown tags included |
| BookingSummary.AddonTotalShown | src/utils/bookingSummary.ts:93-96 | with non-negative item prices, the add-on total is printed exactly when some item price is printed |
| ContractTemplate.TemplateLabel | src/components/ContractTemplate/ContractTemplate.tsx:132-144 | every catalog tag is labelled as in the summary; "Unknown Service" exactly for an untagged line or the add-on |
| ContractTemplate.PhotoSizeDisplay | src/components/ContractTemplate/ContractTemplate.tsx:27-32 | the custom size exactly when "custom" is chosen and a truthy custom size is given, the chosen size otherwise |
| ContractTemplate.Details | src/components/ContractTemplate/ContractTemplate.tsx:147-201 | a bundle shows only its note; a row with a schedule shows at least five lines, the fourth the date; a note, when truthy, is the last line |
| ContractTemplate.ServiceRow | src/components/ContractTemplate/ContractTemplate.tsx:124-211 | numbered `index + 1`, quantity 1, labelled by the tag, with an amount exactly when the price is a positive number, and that amount the price |
| ContractTemplate.LabelsAgreeExceptAddon | src/components/ContractTemplate/ContractTemplate.tsx:132-144 | the contract labels every catalog service as the summary does; the add-on is "Unknown Service" there and "Add-on" in the summary |
| ContractTemplate.UnknownLabel | src/components/ContractTemplate/ContractTemplate.tsx:144 | an untagged line is "Unknown Service", which no catalog service is called |
| ContractTemplate.PhotoSizeAgreesWithSummary | src/components/ContractTemplate/ContractTemplate.tsx:27-32 | the contract shows the same photo size as the summary |
| ContractTemplate.DateCell | src/components/ContractTemplate/ContractTemplate.tsx:10-11 | an empty date prints nothing |
| ContractTemplate.VisibilityByTag | src/components/ContractTemplate/ContractTemplate.tsx:147-195 | the schedule shows for every tag but stickerline and bundle, the add-on included; the guest count for every tag but bundle |
| ContractTemplate.PriceAmount | src/components/ContractTemplate/ContractTemplate.tsx:207-210 | an amount is shown exactly when the price is a positive number |
| ContractTemplate.ServiceRows | src/components/ContractTemplate/ContractTemplate.tsx:124-214 | one row per line, numbered from 1 in order |
| ContractTemplate.TravelRow | src/components/ContractTemplate/ContractTemplate.tsx:217-239 | the fee row appears exactly for a positive fee, numbered after the services |
| ContractTemplate.Rows | src/components/ContractTemplate/ContractTemplate.tsx:124-239 | the service rows then the fee row, numbered consecutively from 1 |
| ContractTemplate.DepositShown | src/components/ContractTemplate/ContractTemplate.tsx:251 | a non-zero deposit, otherwise 3000 |
| ContractTemplate.FinalInstalment | src/components/ContractTemplate/ContractTemplate.tsx:256-258 | the deposit plus the final instalment is the total |
| ContractTemplate.FinalInstalmentCanBeNegative | src/components/ContractTemplate/ContractTemplate.tsx:256-258 | an empty contract shows a final instalment of -3000 |
| ContractTemplate.SumOfAmountsAppend | src/components/ContractTemplate/ContractTemplate.tsx:124-239 | the shown amounts of concatenated rows add up |
| ContractTemplate.ServiceRowsSum | src/components/ContractTemplate/ContractTemplate.tsx:207-210 | the service rows show exactly the positive prices the total adds |
| ContractTemplate.ShownAmountsAddUpToTotal | src/components/ContractTemplate/ContractTemplate.tsx:207-235 | the shown amounts equal the total for a non-negative fee and exceed it for a negative one |
| ContractTemplate.GeneratedContractRows | src/components/ContractTemplate/ContractTemplate.tsx:217-251 | the shown deposit is the generated one, and the fee row appears exactly for a positive shared fee |

## Left out

- Locale formatting (`toLocaleString`, `toLocaleDateString('th-TH')`, `formatCurrency`,
  `formatDateDDMMYYYY`): these are parameters of the summary and the template, because
  their output depends on the runtime's locale data.
- The rest of each screen: the markup, styling, `formatTime`, `copyToClipboard`,
  `window.print`, the logo and the other forms' layout. These are rendering or I/O, not logic.
- React scheduling: effects and state updates are applied one at a time as pure functions.
  The ordering and batching of React renders is not modelled.
- Initial state of the shared form (`guestCount: 200`, `depositAmount: 3000`,
  `travelFee: 0`): the contract generator is proved for any shared data, so these values
  add no case.
- Formatters.ParseNumber: numbers are integers. Leading white space follows sections 12.2
  and 12.3 of ECMA-262, but `parseFloat` fractions, exponents and `Infinity` are not
  modelled; a fraction is dropped (`ParseNumberDropsFraction`).
- Formatters.CalculateEndTime: hours are whole numbers, and the start time must be empty
  or `HH:MM` text. For malformed text, `split(':').map(Number)` gives `NaN` rather than
  throwing, so the `catch` is never reached and the `try` branch returns `NaN:NaN`; that
  result is not modelled.
- ServiceSelection.GetServiceCounts: the entries are listed in order of first selection.
  `Object.entries` lists integer-like keys first, so that order holds only for ids that are
  not integer-like. Every catalog id qualifies.
- GenerateContract.GenerateContract: its inputs must be `Typed`. TypeScript's casts are
  not checked at run time, so a form bypassed by hand-written data could store a number
  under a text key; the model does not cover such data.
- BookingSummary.FormatBookingSummary: splitting back into lines is stated only when no
  printed value contains a newline.

## Findings

| source | as written | input that shows it | evidently intended | confidence | as-written member | corrected member |
|---|---|---|---|---|---|---|
| src/App.tsx:27-34 | removal deletes the removed instance's `${id}_${index}` entry, but later instances keep their data under their old positions | selection [photobooth, bundle] with a 15000 bundle price saved under `bundle_1`; remove index 0 | the bundle, now at position 0, keeps its saved price | not executed | Selection.RemoveLosesLaterData | Selection.RemoveServiceRenumbered |
