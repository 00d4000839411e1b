# Character builder rules, in Dafny

This project models the rule-bearing core of a Next.js D&D character builder whose data
lives in a hosted Postgres database (Supabase):

- the ability-score step of the builder wizard: point buy with its cost table and 27-point
  budget, the standard-array preset, and the free +/- editing of the standard and manual tabs;
- the `createCharacter` server action:
  - it writes the character row;
  - for the class-equipment method it resolves the starting equipment into inventory rows;
  - the resolution works as follows. Mandatory entries are expanded by quantity and the user's choices are appended. The seven named packs are unpacked. Each name is matched against the item catalog, exact case-insensitive match first and substring match second; unmatched names are skipped;
- the starting-equipment picker: it classifies the loosely typed option groups and derives each option's display name from a fixed field priority. It also reports the equipment method and the choices to its parent;
- the dice dialog (4d6 drop lowest, or one die of the dialog's type, plus a bonus), the skills card (ability modifier, sign, badge, the bonus handed to the dice dialog);
- the wizard page itself (steps, form state, score clamp, submit validation);
- the generic counter input, the game master's hit-point and item-search console;
- the campaign actions:
  - join-code generation;
  - joining by code, with at most one membership per user and campaign;
  - listing a user's campaigns;
  - loading one campaign's details with its `isDM` flag.

Every database table the code reads or writes is a `seq` (or `set`/`map`) field of a store
class or a parameter. The session's user, generated ids and timestamps are parameters. So is the success or failure of each insert,
including the profile and inventory inserts whose errors `createCharacter` does not look at.
Every random draw is a bounded parameter as well. A draw for a die of size `n` is the value of
`Math.floor(Math.random() * n)`, a number in `[0, n)`.

One Dafny module per source file, with shared helper modules:

| file | module | models |
|---|---|---|
| wrappers.dfy | Wrappers | `Option` |
| numbers.dfy | Numbers | `Math.max(lo, Math.min(hi, x))`, the clamp every component writes out |
| text.dfy | Text | ASCII case folding, substring search, decimal rendering and `parseInt` |
| abilities.dfy | Abilities | the six-score record `{str, dex, con, int, wis, cha}` |
| stat_builder.dfy | StatBuilder | `src/app/builder/stat-builder.tsx` |
| builder_actions.dfy | BuilderActions | `src/app/builder/actions.ts` |
| equipment_selection.dfy | EquipmentSelection | `src/app/builder/EquipmentSelection.tsx` |
| builder_page.dfy | BuilderPage | `src/app/builder/page.tsx` |
| dice_overlay.dfy | DiceOverlay | `src/components/dice/DiceOverlay.tsx` |
| skills_list.dfy | SkillsList | `src/components/character/SkillsList.tsx` |
| counter_input.dfy | CounterInput | `src/components/ui/counter-input.tsx` |
| dm_tools.dfy | DmTools | `src/components/campaign/dm-tools.tsx` |
| campaign.dfy | Campaign | `src/lib/actions/campaign.ts` |

Components that replace React state become classes whose fields are that state. Their handlers
become methods with `modifies this` that state the whole new state. Loops of the source
(`calculateUsedPoints`, the push loops of `createCharacter`, `generateJoinCode`, the
`Object.values` of `notifyParent`) are `while` loops proved against a specification function. The
properties the source promises are proved about that function.

Points of the code that a reader might expect to behave otherwise:

- The standard tab starts from 15/14/13/12/10/8 but does not keep the scores a permutation of
  that array: each score can be edited freely in [1, 20]. `StatBuilder.StandardTabAllowsNonPermutation` shows one "+" already leaves the array.
- The stat builder has no dice-assignment mode; its third tab is manual editing in [1, 20].
- The dice dialog sorts a copy of the dice for the sum only and reports the dice in the order they were drawn (`DiceOverlay.DiceOverlay.Settle`).
- The wizard page keeps no equipment fields in its form, so a character created from the wizard
  gets no inventory and 0 gold (`BuilderPage.WizardFormGetsNoEquipment`).
  `BuilderActions.Store.CreateCharacter` models the action for every form. That includes the class-equipment forms another caller could send.

## Model

| member | source | states |
|---|---|---|
| Numbers.Clamp | src/app/builder/page.tsx:110 | the result lies in [lo, hi] for a non-empty range; a value inside the range is kept, one below gives lo, one above gives hi; an empty range gives lo |
| Numbers.ClampMonotone | src/components/ui/counter-input.tsx:27 | clamping never reverses the order of two values |
| Abilities.Stats.With | src/app/builder/stat-builder.tsx:81 | `{ ...stats, [stat]: v }` stores v for the named score and keeps the five others |
| Text.EqualsImpliesContains | src/app/builder/actions.ts:193-210 | a case-insensitive exact hit is also a case-insensitive substring hit |
| Text.UpperFirst | src/app/builder/EquipmentSelection.tsx:130 | same length, first character upper-cased (ASCII letters only), the rest unchanged |
| Text.ParseIntOfIntToString | src/components/ui/counter-input.tsx:25 | parsing the decimal rendering of any integer gives that integer back |
| StatBuilder.PointCost | src/app/builder/stat-builder.tsx:29-40 | 0 below 8; between 8 and 15 one point per step above 8 plus one more per step above 13 (0,1,2,3,4,5,7,9); 99 above 15 |
| StatBuilder.PointCostIncreasing | src/app/builder/stat-builder.tsx:29-40 | within [8, 15] a higher score costs strictly more, and each step up costs 1 or 2 |
| StatBuilder.TotalCostOfSix | src/app/builder/stat-builder.tsx:42-46 | the used points are the costs of the six scores added up |
| StatBuilder.TotalCostWith | src/app/builder/stat-builder.tsx:76-77 | replacing one score changes the used points by exactly the difference of the two costs |
| StatBuilder.CalculateUsedPoints | src/app/builder/stat-builder.tsx:42-46 | the `forEach` accumulation returns the used points of the record |
| StatBuilder.PointBuy | src/app/builder/stat-builder.tsx:71-82 | declined exactly when the new score leaves [8, 15], then exactly when the used points would exceed 27; an accepted change moves only the target score, by delta, stays within budget and keeps the point-buy invariant |
| StatBuilder.PointBuySequenceKeepsInvariant | src/app/builder/stat-builder.tsx:71-82 | any sequence of point-buy requests from a valid record ends in a record with all scores in [8, 15] and at most 27 points used |
| StatBuilder.BoundaryMovesDeclined | src/app/builder/stat-builder.tsx:74 | raising a 15 and lowering an 8 are always declined |
| StatBuilder.PlusDisabledIffDeclined | src/app/builder/stat-builder.tsx:133-139 | from 7 up, the "+" button is disabled exactly when the raise would be declined |
| StatBuilder.MinusDisabledIffDeclined | src/app/builder/stat-builder.tsx:121-128 | under the point-buy invariant, the "-" button is disabled exactly when the decrease would be declined |
| StatBuilder.BaseStats | src/app/builder/stat-builder.tsx:84-86 | all six scores 8, no point used, a valid point-buy record |
| StatBuilder.StandardArrayStats | src/app/builder/stat-builder.tsx:88-90 | the scores are 15,14,13,12,10,8 in record order, cost exactly 27 and form a valid point-buy record |
| StatBuilder.FreeDecrease | src/app/builder/stat-builder.tsx:181 | never below 1; one less when above 1; stays in [1, 20] from [1, 20] |
| StatBuilder.FreeIncrease | src/app/builder/stat-builder.tsx:191 | never above 20; one more when below 20; stays in [1, 20] from [1, 20] |
| StatBuilder.StandardTabAllowsNonPermutation | src/app/builder/stat-builder.tsx:165-201 | after the default distribution one "+" on dexterity leaves every score in [1, 20] but the scores are no longer a permutation of the standard array |
| StatBuilder.StatBuilder.constructor | src/app/builder/stat-builder.tsx:26 | the builder opens on the point-buy tab with the wizard's record unchanged |
| StatBuilder.StatBuilder.HandlePointBuy | src/app/builder/stat-builder.tsx:71-82 | the new record is the accepted one or the old one, as `PointBuy` decides; the tab is kept, and a record valid before the click stays valid (a mounted record outside the rules is accepted too) |
| StatBuilder.StatBuilder.ResetToBase | src/app/builder/stat-builder.tsx:84-86 | the record becomes all eights; the tab is kept |
| StatBuilder.StatBuilder.ApplyStandardArray | src/app/builder/stat-builder.tsx:88-90 | the record becomes the standard array in order |
| StatBuilder.StatBuilder.SelectTab | src/app/builder/stat-builder.tsx:94 | every tab switch sets the tab and resets the record to all eights |
| StatBuilder.StatBuilder.StandardMinus | src/app/builder/stat-builder.tsx:170-185 | disabled at 8 or below; otherwise only the chosen score drops by one, never below 1 |
| StatBuilder.StatBuilder.StandardPlus | src/app/builder/stat-builder.tsx:187-194 | disabled at 20 or above; otherwise only the chosen score rises by one, never above 20 |
| StatBuilder.StatBuilder.ManualMinus | src/app/builder/stat-builder.tsx:211 | disabled at 1 or below; otherwise only the chosen score drops by one |
| StatBuilder.StatBuilder.ManualPlus | src/app/builder/stat-builder.tsx:215 | disabled at 20 or above; otherwise only the chosen score rises by one |
| BuilderActions.StartingCurrency | src/app/builder/actions.ts:50 | gp is the starting gold when given and 0 otherwise; sp and cp are 0 |
| BuilderActions.NewCharacter | src/app/builder/actions.ts:32-51 | the row belongs to the user, carries the form's scores, level 1, 10 of 10 hit points and the starting currency |
| BuilderActions.Repeat | src/app/builder/actions.ts:80 | `qty` copies of the name, none when `qty` is not positive |
| BuilderActions.EntryName | src/app/builder/actions.ts:78-79 | there is a name exactly when the equipment reference's name (with a reference) or the entry's own name (without one) is a non-empty string, and it is that name |
| BuilderActions.EntryQuantity | src/app/builder/actions.ts:77 | never zero: an absent or zero quantity gives 1, any other quantity is kept |
| BuilderActions.EntryNames | src/app/builder/actions.ts:77-81 | an entry without a name contributes nothing, one with a name contributes `qty` copies of it |
| BuilderActions.MandatoryNamesAppend | src/app/builder/actions.ts:76-82 | the names of a concatenation of entries are the names of each part, in order |
| BuilderActions.ItemsToAdd | src/app/builder/actions.ts:72-89 | all mandatory names come first, followed by the selected choices in order |
| BuilderActions.PushEntry | src/app/builder/actions.ts:77-81 | the inner loop appends exactly the entry's names |
| BuilderActions.CollectItemsToAdd | src/app/builder/actions.ts:72-89 | the two loops and the final push build exactly `ItemsToAdd` |
| BuilderActions.UnpackName | src/app/builder/actions.ts:178-185 | a pack name becomes the pack's lines in order, any other name one line of quantity 1 |
| BuilderActions.UnpackAppend | src/app/builder/actions.ts:176-186 | unpacking a concatenation unpacks each part, in order |
| BuilderActions.UnpackItems | src/app/builder/actions.ts:176-186 | the unpack loop produces every name unpacked with the pack table, in order |
| BuilderActions.PackContentsAreNotPacks | src/app/builder/actions.ts:93-173 | no line of any of the seven packs names a pack, and every line has a positive quantity |
| BuilderActions.NoPackAfterUnpack | src/app/builder/actions.ts:176-186 | with a table of plain packs no pack name survives unpacking and every line has a positive quantity |
| BuilderActions.FirstExact | src/app/builder/actions.ts:193-196 | the first catalog row whose name equals the name ignoring case, or none when no row does |
| BuilderActions.FirstContaining | src/app/builder/actions.ts:207-210 | the first catalog row whose name contains the name ignoring case, or none when no row does |
| BuilderActions.MatchItem | src/app/builder/actions.ts:193-212 | the exact hit's id when there is one; otherwise the substring hit's id |
| BuilderActions.ExactMatchWins | src/app/builder/actions.ts:193-198 | the first exact hit is used even when substring hits come before it |
| BuilderActions.UnmatchedIffNoSubstringHit | src/app/builder/actions.ts:193-221 | a name is skipped exactly when no catalog name contains it |
| BuilderActions.HealingPotionExample | src/app/builder/actions.ts:193-212 | "Healing Potion" resolves to its own row although "Greater Healing Potion" comes first |
| BuilderActions.InventoryLine | src/app/builder/actions.ts:199-204 | the row carries the character, the matched item, the line's quantity and is not equipped |
| BuilderActions.InventoryRows | src/app/builder/actions.ts:188-224 | at most one row per line, every row for the new character and unequipped |
| BuilderActions.Kept | src/app/builder/actions.ts:198-218 | the lines whose insert goes through are never more than the lines |
| BuilderActions.KeptLinesAreLines | src/app/builder/actions.ts:198-218 | every line whose insert goes through is one of the lines |
| BuilderActions.KeptWithoutFailures | src/app/builder/actions.ts:198-218 | when no insert fails every line is kept, in order |
| BuilderActions.KeptAllFailures | src/app/builder/actions.ts:198-218 | when every insert fails no line is kept |
| BuilderActions.StoredRows | src/app/builder/actions.ts:198-218 | the rows that reach the table: at most one per line, each for the new character and unequipped |
| BuilderActions.StoredRowsWithoutFailures | src/app/builder/actions.ts:198-218 | when no insert fails the table receives exactly the rows of the resolving lines |
| BuilderActions.StoredRowsAllFailures | src/app/builder/actions.ts:198-218 | when every insert fails the table receives nothing |
| BuilderActions.InsertStep | src/app/builder/actions.ts:198-218 | one turn of the loop grows the written rows by the line's row exactly when the line resolves and its insert goes through |
| BuilderActions.InventoryRowsAppend | src/app/builder/actions.ts:190-223 | the rows of a concatenation of lines are the rows of each part, in order |
| BuilderActions.AllRowsIffAllResolve | src/app/builder/actions.ts:190-223 | every line gets a row exactly when every line's name resolves |
| BuilderActions.RowsFollowLines | src/app/builder/actions.ts:198-218 | every row is the row of some resolving line: its matched id and its quantity |
| BuilderActions.ExplorersPackExample | src/app/builder/actions.ts:176-186 | a mandatory "Explorer's Pack" becomes exactly the pack's eight lines, none of them a pack |
| BuilderActions.QuantityExpansionExample | src/app/builder/actions.ts:76-81 | a mandatory "Shortsword" with quantity 2 becomes two single-unit lines |
| BuilderActions.PackAndChoiceExample | src/app/builder/actions.ts:72-224 | an Explorer's Pack plus the chosen "Longsword" gives nine lines, the choice last; when every name resolves the character gets nine rows |
| BuilderActions.NoInventoryWithoutClassMethod | src/app/builder/actions.ts:59 | a form without the class-equipment method gets no inventory rows |
| BuilderActions.Store.AddStartingEquipment | src/app/builder/actions.ts:59-226 | the inventory grows by the stored rows of the unpacked lines of the class's mandatory equipment and the choices, skipping lines whose insert fails; nothing else changes |
| BuilderActions.Store.InsertLines | src/app/builder/actions.ts:188-224 | the lookup-and-insert loop appends exactly the rows of the resolving lines whose insert goes through, in order; a failed insert is ignored and the loop goes on |
| BuilderActions.ActionOutcome | src/app/builder/actions.ts:10-56 | the action returns normally exactly when there is a session and the insert gives back a row, with that row's id; every thrown message is non-empty, and an insert failure's message follows the fixed prefix |
| BuilderActions.Store.CreateCharacter | src/app/builder/actions.ts:7-229 | ends with `ActionOutcome` of the session and the insert. No user: throws and writes nothing; otherwise the profile exists afterwards unless it was missing and its insert failed, which the action ignores. A failed or empty character insert throws the error message and writes no character or inventory. Otherwise exactly the new character row and the stored rows of its starting inventory are appended |
| EquipmentSelection.GetOptionsList | src/app/builder/EquipmentSelection.tsx:64-88 | a missing or unknown `from` gives no option; an array is used as is; an object's `options` array is used; an `equipment_category` object gives one "Herhangi bir <category>" option |
| EquipmentSelection.CategoryGivesOneOption | src/app/builder/EquipmentSelection.tsx:78-84 | a category group offers exactly one option, shown as "Herhangi bir <category>" |
| EquipmentSelection.TimesSuffix | src/app/builder/EquipmentSelection.tsx:142-143 | " (xN)" for a number above one, nothing otherwise |
| EquipmentSelection.DisplayName | src/app/builder/EquipmentSelection.tsx:118-143 | the first present field in the order manual name, counted reference, choice description, equipment, equipment option, item, name (else "Bilinmeyen Eşya"), followed by the count suffix and then the quantity suffix; "Bilinmeyen Eşya" for a non-object entry |
| EquipmentSelection.BaseNameIsFirstPresent | src/app/builder/EquipmentSelection.tsx:119-139 | the if-chain picks the first qualifying field in the order manual name, counted reference, choice description, equipment, equipment option, item, name |
| EquipmentSelection.UnknownIffNoCandidate | src/app/builder/EquipmentSelection.tsx:119-139 | "Bilinmeyen Eşya" is shown exactly when no field qualifies |
| EquipmentSelection.ManualNameWins | src/app/builder/EquipmentSelection.tsx:122-123 | a non-empty manual name wins over every other field |
| EquipmentSelection.ChoiceDescriptionCapitalised | src/app/builder/EquipmentSelection.tsx:126-130 | a choice description is shown with its first letter upper-cased (ASCII letters only) and the rest unchanged |
| EquipmentSelection.QuantitySuffixExample | src/app/builder/EquipmentSelection.tsx:131-143 | a Longsword with quantity 2 is shown as "Longsword (x2)" |
| EquipmentSelection.CountBeforeQuantity | src/app/builder/EquipmentSelection.tsx:142-143 | with both above one, the count suffix comes before the quantity suffix |
| EquipmentSelection.RenderGroup | src/app/builder/EquipmentSelection.tsx:90-154 | a group without options shows the error box and warns when `from` was present. Otherwise a group with `choose != 1` shows the multiple-choice notice, and any other group a select with one label per option |
| EquipmentSelection.SelectableIff | src/app/builder/EquipmentSelection.tsx:93-113 | a group offers a selection exactly when it chooses one and has options |
| EquipmentSelection.ValuesBelowMembers | src/app/builder/EquipmentSelection.tsx:59 | a value is reported exactly when some group holds it |
| EquipmentSelection.ValuesBelowFull | src/app/builder/EquipmentSelection.tsx:59 | when every group has a choice, the report lists them in group order |
| EquipmentSelection.Report | src/app/builder/EquipmentSelection.tsx:55-61 | the gold method reports 100 gold and no choices; the class method reports 0 gold and the chosen values in group order |
| EquipmentSelection.EquipmentSelection.constructor | src/app/builder/EquipmentSelection.tsx:40-41 | the picker starts on the class method with no choices |
| EquipmentSelection.EquipmentSelection.NotifyParent | src/app/builder/EquipmentSelection.tsx:55-61 | the loop over the groups reports exactly `Report` of the current state |
| EquipmentSelection.EquipmentSelection.HandleChoice | src/app/builder/EquipmentSelection.tsx:51-53 | only the chosen group's value is overwritten; the new state is reported |
| EquipmentSelection.EquipmentSelection.SetMethod | src/app/builder/EquipmentSelection.tsx:158 | the method changes, the choices are kept, the new state is reported |
| EquipmentSelection.ReplaceChoice | src/app/builder/EquipmentSelection.tsx:51-53 | choosing in one group keeps every other group's choice in the report |
| DiceOverlay.SortDescending | src/components/dice/DiceOverlay.tsx:55-56 | a descending permutation of the rolls |
| DiceOverlay.SumOfPermutation | src/components/dice/DiceOverlay.tsx:55-57 | the sum of the dice does not depend on their order |
| DiceOverlay.DropLowestIsSumMinusMin | src/components/dice/DiceOverlay.tsx:55-57 | the sum of the first three of the sorted copy is the sum of all four minus the lowest |
| DiceOverlay.DropLowestOrderIndependent | src/components/dice/DiceOverlay.tsx:55-57 | the 4d6 total does not depend on the order the dice came up in |
| DiceOverlay.DropLowestBounds | src/components/dice/DiceOverlay.tsx:48-57 | with every die in [1, 6] the total lies in [3, 18] |
| DiceOverlay.SizeOfTypeName | src/components/dice/DiceOverlay.tsx:60 | the size read off a type name is never zero |
| DiceOverlay.SizeOfDieName | src/components/dice/DiceOverlay.tsx:60 | "d" followed by a positive number gives that number |
| DiceOverlay.SizeOfDieType | src/components/dice/DiceOverlay.tsx:60 | each of d4, d6, d8, d10, d12, d20 gives its number of faces |
| DiceOverlay.DieSize | src/components/dice/DiceOverlay.tsx:60 | the single-die size is the die type's number of faces |
| DiceOverlay.SizeDefaultsToTwenty | src/components/dice/DiceOverlay.tsx:60 | a type name without a number after its first letter falls back to 20 |
| DiceOverlay.RollsOf | src/components/dice/DiceOverlay.tsx:48-53 | every die is its draw plus one, in draw order |
| DiceOverlay.RollTotalBounds | src/components/dice/DiceOverlay.tsx:46-64 | a 4d6 total lies in [3, 18]; a single die in [1, size] |
| DiceOverlay.RollFour | src/components/dice/DiceOverlay.tsx:46-57 | the 4d6 branch reports the dice in draw order and totals the three largest |
| DiceOverlay.DiceOverlay.constructor | src/components/dice/DiceOverlay.tsx:20-24 | the dialog starts idle with no result and no dice |
| DiceOverlay.DiceOverlay.Roll | src/components/dice/DiceOverlay.tsx:33-39 | rolling starts, total and result are cleared, four placeholder dice for 4d6 and one otherwise |
| DiceOverlay.DiceOverlay.Settle | src/components/dice/DiceOverlay.tsx:42-71 | rolling stops and the dice are the rolls in draw order. The total is the roll's total, within its bounds, and the result is the total plus the bonus |
| DiceOverlay.DiceOverlay.HandleAccept | src/components/dice/DiceOverlay.tsx:80-84 | `onComplete` is called exactly when it exists and a total is present, with the total plus the bonus and the dice |
| SkillsList.StatKeysAreAbilityKeys | src/components/character/SkillsList.tsx:9-28 | the six stat keys are the keys of the six abilities, in order |
| SkillsList.SkillsTableWellFormed | src/components/character/SkillsList.tsx:9-28 | 18 skills with distinct names, each based on one of the six stat keys |
| SkillsList.Modifier | src/components/character/SkillsList.tsx:34 | the floor of (v - 10) / 2: twice the modifier is at most v - 10 and less than v - 8 |
| SkillsList.ModifierMonotone | src/components/character/SkillsList.tsx:34 | a higher score never gives a lower modifier |
| SkillsList.ModifierExamples | src/components/character/SkillsList.tsx:34 | 10 and 11 give 0, 8 and 9 give -1, 20 gives +5, 1 gives -5 |
| SkillsList.StatValue | src/components/character/SkillsList.tsx:54 | a missing or zero score counts as 10, any other score as itself |
| SkillsList.MissingStatGivesZero | src/components/character/SkillsList.tsx:37 | a missing or zero score shows a modifier of 0 |
| SkillsList.RowOf | src/components/character/SkillsList.tsx:53-70 | the row shows the skill's modifier, with "+" and the secondary badge exactly when the modifier is not negative |
| SkillsList.BadgeText | src/components/character/SkillsList.tsx:69 | the badge text starts with "+" exactly for a non-negative modifier and with "-" exactly for a negative one |
| SkillsList.Rows | src/components/character/SkillsList.tsx:53-73 | one row per skill, in table order |
| SkillsList.OverlayBonus | src/components/character/SkillsList.tsx:81 | the dialog's bonus is the chosen skill's modifier, 0 before any choice |
| SkillsList.OverlayTitle | src/components/character/SkillsList.tsx:80 | "<skill> Check" once a skill is chosen, "Zar At" before |
| SkillsList.SkillsCard.constructor | src/components/character/SkillsList.tsx:31-32 | the dialog is closed and no skill is chosen |
| SkillsList.SkillsCard.HandleRoll | src/components/character/SkillsList.tsx:36-42 | the skill is remembered with its modifier and the dialog opens; its bonus equals the row's modifier |
| SkillsList.BonusMatchesRow | src/components/character/SkillsList.tsx:36-81 | clicking a row hands the dialog exactly the modifier that row shows |
| BuilderPage.ButtonsKeepStepInRange | src/app/builder/page.tsx:251-257 | Next and Back keep the step in [1, 5]; only the last step lacks Next |
| BuilderPage.FormOf | src/app/builder/page.tsx:22-29 | the submitted form carries the wizard's fields and no equipment method, gold or choices |
| BuilderPage.WizardFormGetsNoEquipment | src/app/builder/page.tsx:22-29 | a character created from the wizard gets no inventory and 0 gold |
| BuilderPage.Wizard.constructor | src/app/builder/page.tsx:17-29 | step 1, loading, empty fields and all six scores 10 |
| BuilderPage.Wizard.FinishLoading | src/app/builder/page.tsx:67-72 | the page unlocks and every other field is kept |
| BuilderPage.Wizard.NextStep | src/app/builder/page.tsx:104 | the step grows by exactly one and every other field is kept |
| BuilderPage.Wizard.PrevStep | src/app/builder/page.tsx:105 | the step shrinks by exactly one and every other field is kept |
| BuilderPage.Wizard.SelectRace | src/app/builder/page.tsx:155 | the race changes and every other field of the wizard is kept |
| BuilderPage.Wizard.SelectClass | src/app/builder/page.tsx:171 | the class changes and every other field of the wizard is kept |
| BuilderPage.Wizard.SetName | src/app/builder/page.tsx:237 | the name changes and every other field of the wizard is kept |
| BuilderPage.Wizard.SetBackground | src/app/builder/page.tsx:224 | the background changes and every other field of the wizard is kept |
| BuilderPage.Wizard.SetAppearance | src/app/builder/page.tsx:214 | the appearance changes and every other field of the wizard is kept |
| BuilderPage.Wizard.UpdateStat | src/app/builder/page.tsx:107-112 | the named score becomes the value clamped into [1, 20]; the other scores and every other field are kept, so all scores stay in [1, 20] |
| BuilderPage.Wizard.HandleSubmit | src/app/builder/page.tsx:85-102 | an empty name, race or class only warns and submits nothing. Otherwise the action's outcome is `ActionOutcome` of the session and the character insert, and the profile set changes as the action's profile insert decides. When the action throws, loading ends and its message (or the fallback) is shown. When it succeeds, the success toast is shown and exactly the new character row was written. Only loading and the toast change on the page |
| CounterInput.Increment | src/components/ui/counter-input.tsx:16-18 | emits value + 1 exactly when value is below max |
| CounterInput.Decrement | src/components/ui/counter-input.tsx:20-22 | emits value - 1 exactly when value is above min |
| CounterInput.HandleChange | src/components/ui/counter-input.tsx:24-29 | emits nothing exactly for non-numeric text; otherwise the parsed value clamped into [min, max]: the value itself when in range, min below, max above, min for an empty range |
| CounterInput.DisabledIffNoChange | src/components/ui/counter-input.tsx:39-55 | each button is disabled exactly when its handler would emit nothing |
| CounterInput.EmittedValuesInRange | src/components/ui/counter-input.tsx:15-29 | from a value in range every handler emits a value in range |
| CounterInput.IncrementThenDecrement | src/components/ui/counter-input.tsx:16-22 | plus then minus returns to the starting value |
| CounterInput.TypedNumberRoundTrip | src/components/ui/counter-input.tsx:24-28 | typing an in-range number emits that number |
| CounterInput.HandleChangeIdempotent | src/components/ui/counter-input.tsx:24-28 | typing back the emitted value emits it again |
| CounterInput.NonNumericEmitsNothing | src/components/ui/counter-input.tsx:25-26 | empty text, letters or a lone sign emit nothing |
| CounterInput.DefaultRangeExamples | src/components/ui/counter-input.tsx:15-28 | with the default range 0..100, typing 250 emits 100 and typing -7 emits 0 |
| DmTools.ClampHp | src/components/campaign/dm-tools.tsx:32 | the hit points are in [0, maxHp]: the request itself when in range, 0 below, maxHp above |
| DmTools.ButtonsKeepHpInRange | src/components/campaign/dm-tools.tsx:92-105 | each of the -1, +1, -5, +5 buttons keeps hit points in range; damage stops at 0 and healing at the maximum |
| DmTools.HpExamples | src/components/campaign/dm-tools.tsx:92-105 | 3 hit points take 5 damage and drop to 0; healing at the maximum stays there |
| DmTools.DmConsole.constructor | src/components/campaign/dm-tools.tsx:20-29 | hit points start at the character's current value, with an empty search |
| DmTools.DmConsole.HandleHpUpdate | src/components/campaign/dm-tools.tsx:31-40 | the clamped value is both stored and sent; the toast depends on the update's success |
| DmTools.DmConsole.HandleSearch | src/components/campaign/dm-tools.tsx:42-49 | the text is always recorded; results are replaced by the found rows exactly when the text has at least three characters |
| Campaign.AlphabetChar | src/lib/actions/campaign.ts:9 | every alphabet character is an upper-case letter or a digit |
| Campaign.AlphabetFormula | src/lib/actions/campaign.ts:9 | the alphabet has 36 characters, letters A-Z then digits 0-9 |
| Campaign.AlphabetIndex | src/lib/actions/campaign.ts:9 | the position of a letter or digit in the alphabet, none for any other character |
| Campaign.AlphabetIndexOfChar | src/lib/actions/campaign.ts:9 | the position of the i-th character is i |
| Campaign.FormatCode | src/lib/actions/campaign.ts:10-15 | seven characters, the dash at index 3, the drawn characters around it in order |
| Campaign.GenerateJoinCode | src/lib/actions/campaign.ts:7-16 | the loop and the 3-3 split produce `FormatCode` of the draws |
| Campaign.CharsOf | src/lib/actions/campaign.ts:10-13 | the drawn characters, in order |
| Campaign.ParseChars | src/lib/actions/campaign.ts:9-13 | the alphabet positions of a string, each below 36 |
| Campaign.ParseCharsOfDraws | src/lib/actions/campaign.ts:10-13 | reading back the drawn characters gives the draws |
| Campaign.ParseJoinCode | src/lib/actions/campaign.ts:15 | a well-formed code gives six valid draws |
| Campaign.JoinCodeRoundTrip | src/lib/actions/campaign.ts:9-15 | every character but the dash is from the alphabet and the draws can be read back from the code |
| Campaign.WithCode | src/lib/actions/campaign.ts:56-60 | exactly the campaigns with the join code |
| Campaign.WithId | src/lib/actions/campaign.ts:140-144 | exactly the campaigns with the id |
| Campaign.Memberships | src/lib/actions/campaign.ts:67-72 | exactly the member rows of the user in the campaign |
| Campaign.AtMostOneMembership | src/lib/actions/campaign.ts:67-77 | without duplicates, a user has at most one member row per campaign |
| Campaign.AppendKeepsNoDuplicates | src/lib/actions/campaign.ts:80-85 | adding a row for a pair that has none keeps the table free of duplicates |
| Campaign.RunBy | src/lib/actions/campaign.ts:102-106 | exactly the campaigns the user runs, taken from the table |
| Campaign.InsertByNewest | src/lib/actions/campaign.ts:106 | inserting a row into a newest-first list keeps it newest first and adds exactly that row |
| Campaign.SortNewestFirst | src/lib/actions/campaign.ts:106 | a newest-first permutation of the rows |
| Campaign.PlayerCampaigns | src/lib/actions/campaign.ts:126 | exactly the joined campaigns that are present; null ones are dropped |
| Campaign.PlayerCampaignsCount | src/lib/actions/campaign.ts:126 | one entry per membership whose campaign was found |
| Campaign.JoinedCampaign | src/lib/actions/campaign.ts:112-120 | the embedded campaign of a member row: a campaign of the table with that id, and null exactly when the table holds none |
| Campaign.MembershipsOf | src/lib/actions/campaign.ts:110-122 | one joined entry per member row of the user and no others, each carrying its row's campaign |
| Campaign.GetUserCampaigns | src/lib/actions/campaign.ts:96-132 | no user gives two empty lists; otherwise the user's own campaigns newest first, and the non-null joined campaigns of the user's member rows |
| Campaign.DmListIsOwnCampaigns | src/lib/actions/campaign.ts:102-106 | a campaign is listed as run by the user exactly when it is in the table with the user as game master |
| Campaign.PlayerListIsJoinedCampaigns | src/lib/actions/campaign.ts:110-126 | a campaign listed as played is in the table and the user holds a member row for it; every member row of the user whose campaign exists lists that campaign |
| Campaign.MembersOf | src/lib/actions/campaign.ts:158-177 | exactly the member rows of the campaign: every returned row is a member row with that campaign id, and every such row is returned |
| Campaign.GetCampaignDetails | src/lib/actions/campaign.ts:134-187 | fails "Unauthorized" without a user and "Campaign not found" unless exactly one campaign has the id. When the member query fails it gives "Access Denied". Otherwise it returns the campaign, its members, the user id, and `isDM` exactly when the user is the campaign's game master |
| Campaign.CreatorIsDm | src/lib/actions/campaign.ts:184 | the creator of a new campaign loads it as its game master |
| Campaign.CampaignStore.CreateCampaign | src/lib/actions/campaign.ts:18-43 | no user or failed insert: throws and adds nothing; otherwise exactly one campaign row with the user as game master and the generated code is added, and the action redirects to it |
| Campaign.CampaignStore.JoinCampaign | src/lib/actions/campaign.ts:45-94 | throws without a user or unless exactly one campaign has the code. An existing member is redirected without a new row. Otherwise one "player" row with the character is added and the action redirects, or it throws when the insert fails. The table stays free of duplicate memberships |

## Left out

- Database, authentication and framework plumbing (`createClient`, `supabase.auth`, `revalidatePath`, `router.push`): tables are in-memory sequences, the user is a parameter, and a redirect is the `Redirect` outcome.
- `getOptions` (src/app/builder/actions.ts:231-241) is a plain query of the races and classes tables; the classes appear as the `classes` map of the store.
- The username and avatar of a profile created on the fly (src/app/builder/actions.ts:24-28): the profiles table is the set of profile ids.
- `Math.random`: every draw is a bounded parameter. The 1.5 s roll delay is the split of `roll` into `Roll` and `Settle`. The 5 s safety timeout of the wizard is not modelled.
- Console logging (warnings for unmatched names and unparsable groups): the view records only whether a warning is issued.
- `ilike` wildcards and Unicode case folding: the exact step is ASCII case-insensitive equality and the loose step ASCII case-insensitive substring search. `%` or `_` inside an item name is not treated as a wildcard. The query has no ordering, so the first hit is the first in the modelled catalog.
- The display-only pack table and the rendering of the mandatory list in the equipment picker (src/app/builder/EquipmentSelection.tsx:29-37): only the table in actions.ts decides the inventory.
- The effect of the stat builder that computes clamped scores on entering the point-buy tab (src/app/builder/stat-builder.tsx:52-69): it discards its result and changes nothing.
- Markup of the wizard (race and class lists, the summary step) and the fetch and unmount guard of its loading effect; only the `finally` that ends loading is modelled.
- The 3D dice, the dialog title shown by the dice overlay and its unused `numDice` property.
- JavaScript numbers are modelled as unbounded integers: NaN, fractions and floating-point overflow do not occur in the model.
- Text.ParseInt: models `parseInt` on strings without leading white space; a `0x` prefix, which `parseInt` reads as hexadecimal, is not modelled, because a numeric input field does not produce one.
- DmTools.DmConsole.HandleSearch: measures the text in characters, while JavaScript's `length` counts UTF-16 code units; the two differ only outside the Basic Multilingual Plane.
- BuilderActions.EntryName: names that are not strings (numbers, objects) are not modelled; a name is absent or a string.
- BuilderActions.EntryQuantity: quantities that are not numbers are not modelled.
- BuilderActions.UnpackName: the pack table is a map, so a name such as "constructor" or "toString", which the object `PACK_CONTENTS` finds on its prototype (the spread of that value then throws), is treated as a plain item.
- Text.UpperFirst: upper-cases ASCII letters only, while `toUpperCase` maps every Unicode letter ("ç" becomes "Ç") and can lengthen the text ("ß" becomes "SS"); `charAt(0)` takes one UTF-16 code unit where the model takes one character.
- EquipmentSelection.ChoiceDescriptionCapitalised: inherits the ASCII-only capitalisation of `Text.UpperFirst`.
- BuilderActions.StartingCurrency: truthiness of non-numeric starting gold is not modelled; gold is absent or an integer.
- EquipmentSelection.DisplayName: three error paths of the name chain are not modelled. An entry `{option_type: "choice", choice: {}}` makes `charAt` throw in the source; the model reads it as having no description and falls through to the next field. A reference (`of`, `equipment`, `item`) without a `name` shows "undefined" in the source; in the model a reference always has a name. A null entry in the options list throws on `manual_name`; the model shows "Bilinmeyen Eşya" for every non-object entry.
- EquipmentSelection.GetOptionsList: an `equipment_category` key holding null (where the source would throw on `.name`) is not modelled; a category is absent or has a name. `choose` is an integer.
- Campaign.GetUserCampaigns: the order of campaigns created at the same instant is left unspecified (the model sorts stably, the database promises nothing).
- Campaign.CampaignStore.JoinCampaign: the "already a member" lookup needs exactly one row; the model keeps the no-duplicate invariant, which rules out two.
- The members' joined character data in `getCampaignDetails`, and the columns the joined queries select: only the rows and ids are modelled. Row-level security is the `membersFailed` and the null-campaign inputs.
- Join codes that collide with an existing one: the insert's failure is a parameter.
- The item-giving handler of the game master's console and the server functions it calls (src/lib/actions/dm-tools.ts) are not part of this model.
