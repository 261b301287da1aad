# Commission-statement matching engine, in Dafny

This project models the engine that resolves an insurance carrier's commission statement against
the agency's ledger. A statement file is parsed into line items (`DealContainer`). Each line is
compared with the ledger deals that could be its target. A *resolver*, one per carrier, tries its
*solutions* on the line and on every candidate deal: match, charge back, reinstatement, upload as
a new deal, a sub deal or a renewal, upload to an agent, or unmatch. The first solution in the
resolver's order that fits becomes the line's solution. Applying a solution writes to the ledger.

The model covers:

- **the resolvers**: Standard, Insurance-and-Renewals-Combined, Industrial Alliance, SSQ, Edge
  Benefits and AHA. It covers their class maps, their candidate filter, the blocked-company and
  licence flags, the cascade that picks a solution, the advisor search, and the update, apply and
  save stages. Batch state lives in the `Resolver` class.
- **the related-deals layer**: `RelatedDealsManager` and `RelatedDealContainer`, as classes
  whose methods update their fields in place.
- **the solutions**: each solution's fit test on the line, its fit test on a candidate deal, its
  update of the line, and its apply step as ledger operations.
- **the licence/E&O gate** (`EOLicenseChecker`) and the policy-number comparison
  (`DealQueryHelper`).
- **the line item** (`DealContainer`): name splitting, the split-deal test, the manual-match
  predicates, the explanation log written on save, and the agent-name patterns.
- **the document parser**: deal combining, simple names, the memos, the status rule of
  `saveDeals`, the manual-matching list and the grouping by advisor.
- **the split parser**: grouping rows by client and policy, the split advisor names and
  contract codes, and the money-column rule that turns the last comma into a decimal point.

Conventions:

- Money is an integer number of cents.
- A record id of 0 stands for PHP `null`.
- A nullable string is a string where `""` stands for `null`.
- PHP truthiness of strings (`""` and `"0"` are false) is `Text.Truthy`.
- PHP 8 semantics are assumed where PHP 7 differs. `stripos` finds an empty needle at position 0
  (`Text.Contains`, `PolicyNumbers.BlankSpellingMatchesAll`). A string is compared loosely with an
  integer as a number only when the whole string is numeric, white space around it allowed
  (`PhpNumbers`, `LineItems.IsUnmatchCode`).
- Where a finding below shows the source wrong, the engine's pipeline uses the corrected
  definition, and the definition as written stands beside it. "## Left out" names every member
  that differs from the source because of this.
- Database queries, the external licence checker (`ForbidDealChecker::run`), the ledger writes
  and the search for deals and agents are parameters of the model. They are given as function
  values, maps or per-line views, and what the engine asks of them is stated as ensures.

## Model

| member | source | states |
|---|---|---|
| Compliance.ChecksByType | EOLicenseChecker.php:28-44 | each listed type's bitmask is one of the three allowances; Insurance needs a current licence, Renewals allow one expired under a year or without a negative report |
| Compliance.ChecksForType | EOLicenseChecker.php:108-119 | 0 exactly when the gate is off or the type is unlisted, otherwise the listed mask |
| Compliance.WithoutEoOrLicenseExplanation | EOLicenseChecker.php:50-64 | empty exactly when no checks apply; the current-licence mask gives the "doesn't currently have valid License or E&O" text |
| Compliance.Passes | EOLicenseChecker.php:74-101 | no checks means pass; without a share agent the agent's own check decides |
| Compliance.CheckForBothIsWeaker | EOLicenseChecker.php:94-100 | asking for either agent to pass never rejects what asking for both accepts |
| Compliance.SharedNeedsBoth | EOLicenseChecker.php:98-100 | a shared deal passes the strict check iff both agents pass on their own |
| Compliance.ListedTypesExplained | EOLicenseChecker.php:50-64 | every listed type has a non-empty explanation when the gate is on |
| Compliance.CheckerMemo.Check | EOLicenseChecker.php:74-101 | the memo (keyed by the composite key, looked up by the bare id) keeps only true checker answers, so the result equals a fresh evaluation; the memo only grows |
| Domain.SolutionKey | Parsers/DocumentParserInterface.php:23-32 | every solution key is a non-empty string |
| Domain.CounterLabel | Parsers/DocumentParserInterface.php:46-56 | every solution but skip has a counter label |
| Domain.AddExplanation | DealContainer.php:729-732 | appends exactly one explanation and changes nothing else |
| Domain.PaidAndUnpaid | RelatedDealsManager.php:108-126 | both paid-ness checks hold of a list iff it is empty |
| Text.ImplodeExplode | DealContainer.php:221-228 | joining the pieces of explode gives back the string, for every glue |
| Text.ExplodeImplode | DealContainer.php:221-228 | exploding a " \| "-joined list gives back the list when no element holds a '\|' |
| Text.Unique | DealContainer.php:225-228 | array_unique keeps each element once, keeps the same set and is non-empty for a non-empty list |
| Text.UniqueAbsorbs | DealContainer.php:225-228 | appending elements already present does not change array_unique |
| PolicyNumbers.AvailablePolicyNumbers | helpers/DealQueryHelper.php:12-21 | the distinct spellings among the five (trimmed, "(C)" and "(P)" suffixes and "012-" and "101-" prefixes removed), at most five, the trimmed policy first |
| PolicyNumbers.ComparePolicyNumber | helpers/DealQueryHelper.php:29-44 | true iff both policies are truthy and some spelling occurs case-insensitively in the ledger policy |
| PolicyNumbers.FoundSpelling | helpers/DealQueryHelper.php:36-41 | one spelling found is enough |
| PolicyNumbers.Reflexive | helpers/DealQueryHelper.php:29-44 | every truthy policy number matches itself |
| PolicyNumbers.ZeroIsNotReflexive | helpers/DealQueryHelper.php:31-33 | "0" is falsy and does not match itself |
| PolicyNumbers.MarkerIgnored | helpers/DealQueryHelper.php:16 | a statement policy with a "(C)" marker matches the ledger policy without it |
| PolicyNumbers.PrefixIgnored | helpers/DealQueryHelper.php:18 | a statement policy with a "012-" prefix matches the ledger policy without it |
| PolicyNumbers.BlankSpellingMatchesAll | helpers/DealQueryHelper.php:14-40 | a truthy policy number with a spelling that trims to nothing matches every truthy ledger policy |
| PolicyNumbers.MarkerOnlyIsBlank | helpers/DealQueryHelper.php:14-40 | a bare "(C)" is truthy and, stripped of its marker, has the blank spelling |
| LineItems.NameRoundTrip | DealContainer.php:292-335 | first name + " " + last name gives back a name with a space; a name without one is all first name |
| LineItems.FullShareNotSplit | DealContainer.php:598-616 | a line paid 0% or 100% is split iff flagged so |
| LineItems.SkippedSplitRenewals | DealContainer.php:602-613 | under a parser that skips split renewals a Renewal line is split iff flagged |
| LineItems.DigitCodeIsUnmatchCode | DealContainer.php:642 | a code of digits only equals 107000 under the loose comparison iff its value is 107000, leading zeros or not |
| LineItems.PaddedUnmatchCode | DealContainer.php:642 | white space before or after a code does not change whether it equals 107000 |
| LineItems.LeadingNumericNotUnmatchCode | DealContainer.php:642 | a code that only starts with a number ("107000A") never equals 107000 |
| LineItems.ZeroFractionUnmatchCode | DealContainer.php:642 | digits, a point and zeros ("107000.", "107000.00") equal 107000 iff the digits do |
| LineItems.ExponentUnmatchCode | Solutions/UnmatchSolution.php:28 | digits with an exponent ("107e3") equal 107000 iff the digits times ten to the exponent do |
| PhpNumbers.DigitStringNumeric | DealContainer.php:642 | a non-empty digit string is numeric, with its decimal value and no fraction |
| PhpNumbers.PointNumeric | DealContainer.php:642 | digits, a point and digits are numeric: all the digits, scaled down by those after the point |
| PhpNumbers.ExponentNumeric | DealContainer.php:642 | digits, `e` and digits are numeric: the exponent scales the digits up |
| PhpNumbers.TrailingGarbage | DealContainer.php:642 | a string ending in anything but a digit, a point or white space is not numeric |
| PhpNumbers.BodyEnds | DealContainer.php:642 | a numeric string without its white space ends in a digit or a point |
| PhpNumbers.LeadingSpace | DealContainer.php:642 | white space in front does not change whether or how a string is numeric |
| PhpNumbers.TrailingSpace | DealContainer.php:642 | white space behind does not change whether or how a string is numeric |
| PhpNumbers.DigitsValueAppend | DealContainer.php:642 | appending digits shifts the value left by as many decimal places |
| PhpNumbers.IntegralWithin | Solutions/UnmatchSolution.php:28 | a whole number is within 2^-h of `n` (h >= 1) iff it is `n` |
| PhpNumbers.ScaledIntegralWithin | Solutions/UnmatchSolution.php:28 | a whole number written with zeros after the point is within 2^-h of `n` iff it is `n` |
| LineItems.ExcludedFromManualMatch | DealContainer.php:623-648 | a line excluded from manual matching is neither a manual-match solution nor matchable by hand |
| LineItems.Save | DealContainer.php:219-228 | the corrected save (see Findings): a stored "" contributes no piece; the stored explanations come first, then the new ones; the distinct entries are stored joined with " \| "; the solution becomes the saved one |
| LineItems.SaveAsWritten | DealContainer.php:219-228 | as written: any stored value, even "", is split and put in front |
| LineItems.EmptyStoredPiece | DealContainer.php:221-228 | explode of "" gives one empty piece, which joins as a leading separator |
| LineItems.LeadingSeparatorAsWritten | DealContainer.php:221-228 | a line saved first with no explanation and then with one stores " \| e" |
| LineItems.NoLeadingSeparator | DealContainer.php:221-228 | the corrected save stores just "e" in that case |
| LineItems.SavedExplanationsKept | DealContainer.php:219-228 | every logged explanation can be read back from the stored value |
| LineItems.SaveIdempotent | DealContainer.php:219-228 | saving twice stores the same explanation as saving once |
| LineItems.KeptReverse | DealContainer.php:801-802 | dropping the ignored words commutes with reversing the word list |
| LineItems.GrowConditions | DealContainer.php:798-812 | the growing patterns are exactly `Conditions` of the kept words |
| LineItems.ConditionsStep | DealContainer.php:801-811 | one more word adds one pattern if kept and none if ignored |
| LineItems.JoinConditions | DealContainer.php:814-826 | the patterns joined into one anchored alternation, longest first |
| LineItems.NameCondition | DealContainer.php:798-827 | the closure of getRegNameCondition: growing patterns, then one alternation |
| LineItems.RegNameCondition | DealContainer.php:793-833 | the first-name pattern grows from the first word and the last-name pattern from the last word |
| LineItems.LastNamePatternsAreSuffixes | DealContainer.php:811-831 | the i-th last-name pattern is the last i+1 kept words, in their original order |
| SimpleNames.Printable | Parsers/DocumentParser.php:828 | every character outside [:print:] becomes a space and the length is kept |
| SimpleNames.Squeeze | Parsers/DocumentParser.php:829 | no two spaces in a row remain and the first character is kept |
| SimpleNames.KeepNameChars | Parsers/DocumentParser.php:831-832 | only name characters remain |
| SimpleNames.ParseSimpleName | Parsers/DocumentParser.php:824-826 | null exactly for a falsy name |
| SimpleNames.SimpleNameIsClean | Parsers/DocumentParser.php:822-835 | the parsed name holds only name characters and neither starts nor ends with a space |
| SimpleNames.SimpleNameOfWord | Parsers/DocumentParser.php:822-835 | a single word is its own simple name |
| SimpleNames.SimpleNameSwaps | Parsers/DocumentParser.php:822-835 | "Last, First" becomes "First Last" |
| DocumentParsers.SavedDeal | Parsers/DocumentParser.php:762-778 | saved with the corrected `LineItems.Save`; a given status is set, and Skipped replaces it without an error for a manual solution that cannot be matched by hand; an error message forces Unmatch with that message as the only error; the saved solution is the solution and the stored log comes first |
| DocumentParsers.SkippedOnlyWhenUnmatchable | Parsers/DocumentParser.php:763-768 | a line is saved Skipped under another status only in a run without an error, and only when its manual solution cannot be matched by hand |
| DocumentParsers.FailureUnmatches | Parsers/DocumentParser.php:771-774 | a failed run leaves every line unmatched with the failure as its only error and the given status |
| DocumentParsers.Kept | Parsers/DocumentParser.php:489-497 | the lines satisfying the test, in order, and no others |
| DocumentParsers.UnmatchedParseResults | Parsers/DocumentParser.php:487-498 | exactly the lines whose solution a user may match by hand, in order |
| DocumentParsers.DealsForManualMatching | Parsers/DocumentParser.php:503-513 | exactly the manual-solution lines that await the administrator and can be matched by hand, in order |
| DocumentParsers.SavedThenOffered | Parsers/DocumentParser.php:762-768 | after a run without an error saves a line PendingAdmin, it is offered for manual matching iff its solution is manual and it can be matched by hand; otherwise a manual solution is saved Skipped |
| DocumentParsers.FullOwnerName | DealContainer.php:465-499 | the advisor's full name, followed by " / " and the share advisor's for a split line |
| DocumentParsers.OwnedBy | Parsers/DocumentParser.php:556-569 | the lines that are not for manual matching whose owner is the given one |
| DocumentParsers.GroupedByNext | Parsers/DocumentParser.php:559-567 | one more line is appended to its owner's group or starts it, and the other groups stay |
| DocumentParsers.OwnedByNext | Parsers/DocumentParser.php:559-567 | a line that is not a manual match joins the end of its owner's group and leaves every other group as it was |
| DocumentParsers.GroupedOwners | Parsers/DocumentParser.php:556-569 | the group keys are exactly the owners of the lines kept |
| DocumentParsers.GroupByAdvisor | Parsers/DocumentParser.php:556-569 | one group per owner of a line not for manual matching, each holding that owner's lines in order |
| DocumentParsers.ParserCaches.GetEoLicenseChecks | Parsers/DocumentParser.php:862-877 | the checker's answer with both agents required to pass, stored under the composite key; a stored answer is always the fresh one |
| DocumentParsers.ParserCaches.GetContractingIdsByCompany | Parsers/DocumentParser.php:842-852 | the company's contracting ids, stored per company |
| DocumentParsers.ParserCaches.GetAgentByContractCode | Parsers/DocumentParser.php:887-904 | no agent and no memo entry for a falsy code; otherwise the agent the code names at the company, stored under "company-code" |
| DealCombining.GroupDealKey | Parsers/DocumentParser.php:720-723 | the key is the policy number and the advisor name run together, and the deal class |
| DealCombining.Absorb | Parsers/DocumentParser.php:736-739 | a joining row adds its commission and premium and appends its first spreadsheet row; the key is kept |
| DealCombining.FirstSeen | Parsers/DocumentParser.php:733-745 | the distinct keys of the rows, each once |
| DealCombining.GroupRow | Parsers/DocumentParser.php:733-743 | the combined row of a group has the group's key, the sums of its commissions and premiums, and its spreadsheet rows |
| DealCombining.OneOriginalEach | Parsers/DocumentParser.php:739 | when each parsed row carries one spreadsheet row, a combined row carries those of all its group, in order |
| DealCombining.OtherGroupStep | Parsers/DocumentParser.php:736-742 | a group the new row does not join is unchanged |
| DealCombining.SameGroupStep | Parsers/DocumentParser.php:736-739 | the group the new row joins takes the row's amounts into its totals |
| DealCombining.NewGroupStep | Parsers/DocumentParser.php:740-741 | a row with a new key starts a group of its own |
| DealCombining.GroupedJoin | Parsers/DocumentParser.php:736-739 | the dictionary stays the combined rows of the rows seen when a row joins an entry |
| DealCombining.GroupedStart | Parsers/DocumentParser.php:740-741 | a new key is put after the keys already in the dictionary |
| DealCombining.AddRow | Parsers/DocumentParser.php:734-742 | one loop turn keeps the dictionary the combined rows of the rows seen, keys in first-seen order |
| DealCombining.CombineDeals | Parsers/DocumentParser.php:730-748 | one row per key, in first-seen order, each the first row of its key carrying the sums of all the rows with that key and their spreadsheet rows |
| DealCombining.ValuesInOrder | Parsers/DocumentParser.php:745 | array_values gives the entries in insertion order |
| DealCombining.GroupedValues | Parsers/DocumentParser.php:745 | the entries after all the rows are the combined rows, in key order |
| DealCombining.CombinedKeysDistinct | Parsers/DocumentParser.php:730-748 | no two combined rows share a key and there are no more of them than rows |
| RelatedDeals.Values | RelatedDealsManager.php:199-202 | the candidates of a keyed list, one per entry, in list order |
| RelatedDeals.Numbered | RelatedDealsManager.php:177-181 | a plain list gets the keys 0, 1, 2, ... and its values are the list |
| RelatedDeals.Without | RelatedDealsManager.php:224-227 | unset keeps exactly the entries under other keys and never grows the list |
| RelatedDeals.WithoutUnique | RelatedDealsManager.php:224-227 | unsetting a key keeps the keys unique |
| RelatedDeals.WithoutAbsent | RelatedDealsManager.php:224-227 | unsetting a key that is not present changes nothing |
| RelatedDeals.Keys | RelatedDealContainer.php:103-111 | one solution key per strategy, in order |
| RelatedDeals.FitsOfExactly | RelatedDealsManager.php:74-82 | a container collects exactly the strategies whose candidate test fits it |
| RelatedDeals.TaggedExactly | RelatedDealsManager.php:77-81 | a strategy's list holds exactly the positions of the candidates it fits, strictly increasing |
| RelatedDeals.Classify | RelatedDealsManager.php:74-83 | the keys afterwards are the old ones plus those of the strategies tried; every new list points at candidates |
| RelatedDeals.KeysGrow | RelatedDealContainer.php:106-108 | one more strategy adds exactly its key |
| RelatedDeals.ClassifiedExactly | RelatedDealsManager.php:74-83 | with distinct keys, each strategy's key lists exactly the candidates it fits, in candidate order |
| RelatedDeals.UnclassifiedUntouched | RelatedDealsManager.php:74-83 | a key no strategy carries keeps what it had, and is absent if it was |
| RelatedDeals.UnmatchTagsEveryCandidate | Solutions/UnmatchSolution.php:81-84 | an Unmatch strategy is collected by every candidate |
| RelatedDeals.NotesAreOverCharge | Solutions/MatchSolution.php:39-45 | the only explanation a candidate test leaves is the over-charge-back one, and only when some candidate's charge back exceeds what was paid |
| RelatedDeals.AllNotesAreOverCharge | RelatedDealsManager.php:74-83 | over all strategies the line collects only over-charge-back explanations |
| RelatedDeals.Select | RelatedDealsManager.php:91 | the candidates at the listed positions, in list order |
| RelatedDeals.FirstPremium | RelatedDealsManager.php:95-100 | the first listed candidate with a positive premium, all before it having none; nothing when none has one |
| RelatedDeals.Touched | RelatedDealsManager.php:88-106 | nothing for an empty list; a listed position; the first positive premium when all are paid; the first candidate when nothing was checked and no premium was chosen |
| RelatedDeals.UnpaidChecksFirst | RelatedDealsManager.php:93-116 | a list with an unpaid candidate and nothing checked marks its first candidate |
| RelatedDeals.FirstPremiumAt | RelatedDealsManager.php:95-99 | the scan stops at the first position with a positive premium |
| RelatedDeals.RelatedDealContainer.constructor | RelatedDealsManager.php:61 | a container holds its candidate, no solutions and is unchecked |
| RelatedDeals.RelatedDealContainer.AddSolution | RelatedDealContainer.php:59-62 | the strategy is appended, earlier ones kept, and its key appended to the active solutions |
| RelatedDeals.RelatedDealContainer.SetChecked | RelatedDealContainer.php:85-90 | sets the flag and leaves the solutions |
| RelatedDeals.RelatedDealContainer.ActiveSolutions | RelatedDealContainer.php:103-111 | one key per solution added |
| RelatedDeals.RelatedDealContainer.PrioritySolution | RelatedDealContainer.php:116-123 | unmatch when no solution was added, otherwise the first added |
| RelatedDeals.RelatedDealsManager.constructor | Resolvers/StandardResolver.php:54-62 | the candidates keyed 0, 1, 2, ..., the resolver's strategies, nothing classified or checked |
| RelatedDeals.RelatedDealsManager.Deals | RelatedDealsManager.php:199-202 | one candidate per entry |
| RelatedDeals.RelatedDealsManager.View | RelatedDealsManager.php:141-146 | the solution tests see the candidates and exactly the keys with a non-empty list |
| RelatedDeals.RelatedDealsManager.AddDeals | RelatedDealsManager.php:189-194 | the new candidates follow the old ones and all keys are renumbered |
| RelatedDeals.RelatedDealsManager.UnsetDeal | RelatedDealsManager.php:224-227 | exactly the entry under the key goes; the other entries and keys stay |
| RelatedDeals.RelatedDealsManager.CreateContainers | RelatedDealsManager.php:57-65 | one fresh, distinct, empty and unchecked container per candidate, in order |
| RelatedDeals.RelatedDealsManager.FindPossibleSolutions | RelatedDealsManager.php:70-86 | every container holds the strategies that fit its candidate; each key lists exactly its candidates (`Classify`); the line gets the notes of every test |
| RelatedDeals.RelatedDealsManager.SetDealAsChecked | RelatedDealsManager.php:88-106 | exactly the container `Touched` picks is marked, and remembered unless one was already; nothing else changes |
| RelatedDeals.ScanPremium | RelatedDealsManager.php:95-100 | the loop finds `FirstPremium` |
| RelatedDeals.WithNotes | RelatedDealsManager.php:78 | the explanations are extended by the notes and nothing else changes |
| RelatedDeals.TryOne | RelatedDealsManager.php:78-81 | one test moves the midway state one container on, extending the strategy's list and the line's notes |
| RelatedDeals.TryStrategy | RelatedDealsManager.php:75-82 | one strategy over all containers: every container has one more strategy's fits; the list is `Tagged` |
| RelatedDeals.TryAll | RelatedDealsManager.php:74-83 | all strategies: the map is `Classify` and the line carries `AllNotes` |
| RelatedDeals.TryNext | RelatedDealsManager.php:74-83 | one strategy more: classification and notes advance by one strategy |
| RelatedDeals.NextStep | RelatedDealsManager.php:75-80 | one more strategy stores its list under its key and appends its notes |
| RelatedDeals.DealsOf | RelatedDealsManager.php:96 | the candidates of the containers, in order |
| ResolverSpec.PossibleSolutions | Resolvers/Resolver.php:192-195 | every resolver declares Unmatch and the manual-match upload, never Skip, each key once |
| ResolverSpec.StandardClass | Resolvers/StandardResolver.php:79-91 | a class exactly for the nine declared keys, each carrying the key it is declared under |
| ResolverSpec.CombinedClass | Resolvers/InsuranceAndRenewalsCombinedResolver.php:85-98 | a class exactly for the combined resolver's keys, each carrying its key |
| ResolverSpec.EdgeClass | Resolvers/EdgeBenefitsTravelAndHealthResolver.php:22-33 | a class exactly for the Edge keys, each carrying its key |
| ResolverSpec.AhaClass | Resolvers/AhaResolver.php:34-41 | a class exactly for the three AHA keys, each carrying its key |
| ResolverSpec.SolutionFor | Resolvers/Resolver.php:123-132 | getSolutions has an entry under a key iff the resolver declares it, and that entry carries the key |
| ResolverSpec.ClassNames | Resolvers/StandardResolver.php:79-91 | one pair per declared key, in declaration order, with the class getSolutions instantiates |
| ResolverSpec.StrategiesAreClassNames | Resolvers/Resolver.php:123-132 | getSolutions instantiates the classes of the class map in its order |
| ResolverSpec.StrategiesKeys | Resolvers/Resolver.php:123-132 | the solutions' keys are the declared keys in order, each once |
| ResolverSpec.StrategiesCover | Resolvers/StandardResolver.php:54-62 | every declared class is among the solutions handed to a line's manager |
| ResolverSpec.IndustrialAllianceSwapsUnmatch | Resolvers/IndustrialAllianceInsuranceAndRenewalsResolver.php:35-40 | same keys as the combined resolver; only Unmatch is replaced, by the IA unmatch |
| ResolverSpec.SsqSwapsUploadToAdvisor | Resolvers/SsqInsuranceAndRenewalsResolver.php:50-55 | same keys as the combined resolver; only the manual-match upload is replaced |
| ResolverSpec.EdgeHasNoRenewalUploads | Resolvers/EdgeBenefitsTravelAndHealthResolver.php:22-33 | seven keys, without either renewal upload |
| ResolverSpec.AhaSolutionSet | Resolvers/AhaResolver.php:34-41 | exactly Upload, the manual-match upload and Unmatch, the upload being the AHA one |
| ResolverSpec.LabelsOf | Resolvers/StandardResolver.php:68-74 | every label kept is the counter label of a declared key of the order, and every declared key of the order keeps its label |
| ResolverSpec.CounterLabels | Resolvers/StandardResolver.php:68-74 | only declared keys get a counter, with their label from the interface |
| ResolverSpec.InCounterOrder | Parsers/DocumentParserInterface.php:46-56 | every solution but Skip has a counter label |
| ResolverSpec.CounterKeyIsPossible | Resolvers/StandardResolver.php:68-74 | a key with a counter is a declared key |
| ResolverSpec.CounterLabelsMatchSolutions | Resolvers/StandardResolver.php:68-74 | a key has a counter iff the resolver declares it |
| ResolverSpec.CascadeOrder | Resolvers/StandardResolver.php:311-337 | the switch asks Unmatch first and only declared keys, never the manual-match upload |
| ResolverSpec.FitOf | Resolvers/StandardResolver.php:313-335 | a key the resolver lacks never fits (isset) and leaves the line alone; a test that does not fit leaves the line alone |
| ResolverSpec.Cascade | Resolvers/StandardResolver.php:311-337 | the pick is always a declared key |
| ResolverSpec.CascadeFirstFit | Resolvers/StandardResolver.php:311-337 | the first key whose test fits is picked, with the line as that test left it |
| ResolverSpec.CascadeDefault | Resolvers/StandardResolver.php:312-315 | with no fit the default case picks Unmatch and the line is unchanged |
| ResolverSpec.ClientsFor | Resolvers/IndustrialAllianceInsuranceAndRenewalsResolver.php:42-59 | only the IA resolver passes its batch of clients to the tests |
| ResolverSpec.Resolve | Resolvers/InsuranceAndRenewalsCombinedResolver.php:33-75 | a solution is always set; a pre-tagged solution is copied by the combined and SSQ resolvers; otherwise the cascade's pick, a declared key, is set and nothing else of the resolution changes |
| ResolverSpec.CascadeKeepsState | Resolvers/StandardResolver.php:311-337 | the fitness tests never touch the line's resolution |
| ResolverSpec.UnmatchableLineUnmatches | Resolvers/StandardResolver.php:313-315 | a line Unmatch fits is unmatched by every resolver |
| ResolverSpec.NoFitUnmatches | Resolvers/StandardResolver.php:312-315 | with no fit the line gets Unmatch and nothing else changes |
| ResolverSpec.StandardPrefersMatchToUpload | Resolvers/StandardResolver.php:313-327 | a paid line with a Match candidate and no reinstatement is matched, not uploaded |
| ResolverSpec.StandardPicksMatch | Resolvers/StandardResolver.php:313-324 | the standard cascade passes over Unmatch, ChargeBack and Reinstatement and stops at Match |
| ResolverSpec.CascadeSkip | Resolvers/StandardResolver.php:311-337 | a key whose test does not fit hands the unchanged line to the rest of the order |
| ResolverSpec.StandardHeadFits | Resolvers/StandardResolver.php:313-321 | Unmatch, ChargeBack and Reinstatement do not fit a paid, licensed, matchable line without a reinstatement candidate |
| ResolverSpec.StandardMatchFits | Resolvers/StandardResolver.php:322-324 | Match fits a licensed line with a Match candidate and leaves it unchanged |
| ResolverSpec.SubDealExcludesMatch | Resolvers/EdgeBenefitsTravelAndHealthResolver.php:58-63 | the sub-deal upload and the match never both fit, so Edge's swapped order picks as the standard one does between them |
| ResolverSpec.KeyedExclusion | Solutions/UploadSubDealSolution.php:16-21 | every sub-deal upload test and every match test disagree on whether a Match candidate exists |
| ResolverSpec.WithBlockFlag | Resolvers/StandardResolver.php:156-160 | sets the blocked-company flag and nothing else |
| ResolverSpec.WithLicence | Resolvers/StandardResolver.php:173-179 | sets the licence flag and its explanation and nothing else |
| ResolverSpec.StepItem | Resolvers/StandardResolver.php:146-180 | one candidate changes only the line's flags: an incorrect one nothing; any other sets the blocked flag with `?? false`; an unblocked one not passed over by the shape test sets the licence flag iff it is unlicensed and the line unsplit |
| ResolverSpec.FilterStep | Resolvers/StandardResolver.php:146-180 | a candidate is dropped exactly when the filter rejects it; the other entries stay |
| ResolverSpec.FilterUpTo | Resolvers/StandardResolver.php:146-181 | the inner loop changes the line's flags only |
| ResolverSpec.FilterUnique | Resolvers/StandardResolver.php:146-181 | the filter keeps the keys unique |
| ResolverSpec.StepUniqueAt | Resolvers/StandardResolver.php:146-181 | one more pass keeps the keys unique |
| ResolverSpec.StepUnique | Resolvers/StandardResolver.php:148-179 | unsetting in one pass keeps the keys unique |
| ResolverSpec.FilterKeeps | Resolvers/StandardResolver.php:146-181 | after `n` candidates the entries kept are the later ones and the earlier ones the filter accepts |
| ResolverSpec.FilterAll | Resolvers/StandardResolver.php:146-181 | the loop keeps exactly the candidates that are correct, unblocked, not dropped for a missing NBT deal, and passed over by the shape test, licensed or under a split line, each once |
| ResolverSpec.FilterKeepsOne | Resolvers/StandardResolver.php:146-181 | the induction step of FilterKeeps, entry by entry |
| ResolverSpec.SameKeyIsEntry | RelatedDealsManager.php:224-227 | with unique keys, the entry under a key is the one at its position and appears nowhere before it |
| ResolverSpec.KeyDetermines | RelatedDealsManager.php:224-227 | with unique keys, a key determines its position |
| ResolverSpec.KeepsReadsLine | Resolvers/StandardResolver.php:147-175 | the filter's tests read only the statement row, not the flags it sets |
| ResolverSpec.FilterBlockFlag | Resolvers/StandardResolver.php:147-161 | the loop leaves the blocked-company flag BlockFlag describes |
| ResolverSpec.BlockFlagAt | Resolvers/StandardResolver.php:147-161 | one more pass keeps the flag as BlockFlag describes |
| ResolverSpec.StepBlockFlag | Resolvers/StandardResolver.php:147-161 | an incorrect candidate leaves the flag; any other sets it with `?? false`, true when unblocked |
| ResolverSpec.UnblockedSetsFlag | Resolvers/StandardResolver.php:159-161 | once an unblocked, correct candidate is looked at, the flag is true |
| ResolverSpec.AllIncorrectKeepsFlag | Resolvers/StandardResolver.php:147-150 | when every candidate is incorrect, the flag is as it was (null stays null) |
| ResolverSpec.AllBlockedClearsFlag | Resolvers/StandardResolver.php:155-158 | when every candidate looked at is blocked, the flag is false unless it was already true |
| Resolvers.Limit | Resolvers/StandardResolver.php:438 | at most `n` rows, a prefix of the query's rows, all of them when there are few enough |
| Resolvers.Locate | Resolvers/StandardResolver.php:97-139 | the manager starts with at most five candidates; only flags and explanations change; an empty agent search is explained (with the Edge resolver's own spelling); a line is forced to unmatch iff it was already or its policy or client is known but no candidate has its split agents; a line found by neither policy nor client is explained; the AHA resolver only explains a missing agent |
| Resolvers.RenewalFallback | Resolvers/InsuranceAndRenewalsCombinedResolver.php:103-126 | the combined resolvers give a Renewal line left without candidates exactly the first row of the Renewal query, and nothing to any other line |
| Resolvers.BaseDealFindClass | Resolvers/StandardResolver.php:458-465 | a Renewal line searches the Insurance deals; every other line its own class |
| Resolvers.SearchDealErrorExplanation | Resolvers/SsqInsuranceAndRenewalsResolver.php:38-48 | only explanations are added, at most two; a blocked line says so first; a named agent's failed licence check is explained and a passed one adds nothing outside SSQ; SSQ adds "split deal not found" to a split non-Renewal line without candidates |
| Resolvers.BaseErrorExplanation | Resolvers/StandardResolver.php:372-385 | at most one explanation: the blocked note when the flag is false, otherwise for a named agent the licence explanation iff flagged, otherwise the "ex"-plan note |
| Resolvers.WithoutTwice | RelatedDealsManager.php:224-227 | unsetting a key twice is unsetting it once |
| Resolvers.FilterLine | Resolvers/StandardResolver.php:145-189 | the line keeps exactly the candidates the filter accepts, keys unique; a surviving candidate clears the licence flag and its explanation; the blocked flag is BlockFlag's; row, data and resolution untouched; explanations only added |
| Resolvers.ClientsOfKeys | Resolvers/IndustrialAllianceInsuranceAndRenewalsResolver.php:45-50 | the IA batch map holds exactly the batch's policy numbers |
| Resolvers.ClientsOfCodes | Resolvers/IndustrialAllianceInsuranceAndRenewalsResolver.php:45-50 | each policy number maps to exactly the contract codes it appears under in the batch |
| Resolvers.ResolvedLine | Resolvers/StandardResolver.php:306-337 | a resolved line always has a solution: the pre-tag where it is copied, otherwise a declared key; only the solution of the resolution changes |
| Resolvers.ResolvedKeyClassified | Resolvers/StandardResolver.php:307-339 | the solution picked is a key the manager classified its candidates under, so setDealAsChecked can read its list |
| Resolvers.SearchAdvisorsByCondition | Resolvers/StandardResolver.php:256-285 | with resolved agents the answer is them, the agent first and the share agent last; only with neither is the query's answer used |
| Resolvers.PreResolvedSkipsSearch | Resolvers/StandardResolver.php:258-268 | with a resolved agent the query's answer never matters |
| Resolvers.AllowedAdvisors | Resolvers/StandardResolver.php:225-232 | exactly the found agents that pass the licence check alone, in order; all of them for a split line |
| Resolvers.ToAdvisorStrategy | Resolvers/StandardResolver.php:241-244 | the resolver's own manual-match upload, the SSQ one in the SSQ resolver |
| Resolvers.WithFoundAdvisors | Resolvers/StandardResolver.php:224-238 | no agents found changes nothing; otherwise the allowed ones are kept, and when none is allowed the line is flagged with its class's explanation; flags are untouched when one is kept |
| Resolvers.PickToAdvisor | Resolvers/StandardResolver.php:241-244 | the solution becomes the manual-match upload only when its test fits; otherwise it stays; the row and data are untouched |
| Resolvers.FindAdvisorsFor | Resolvers/StandardResolver.php:199-247 | a line not unmatched, named Experior or forced is untouched; otherwise only the manual-match upload can replace the solution, and only for a paid line with an allowed agent and no licence flag; known agents are kept; a search whose agents all fail flags the line |
| Resolvers.NeedChangeExplanation | Resolvers/IndustrialAllianceInsuranceAndRenewalsResolver.php:91-95 | only the IA resolver answers yes, only for a split line, and always when both agents pass the strict check |
| Resolvers.ApplyOne | Resolvers/Resolver.php:168-174 | through the corrected `Solutions.Apply`: a successful apply leaves the line Applied with its errors as they were; a failure leaves it Error with its stored errors replaced by the ones this apply added (at most one); success is the solution's own apply result |
| Resolvers.RematchStoresOnlyNewError | Resolvers/Resolver.php:168-174 | a line submitted again with Match whose deal is still missing fails, is unmatched, and stores only "Matched deal not found.", whatever errors it had before |
| Resolvers.AfterApply | Resolvers/Resolver.php:161-176 | only Pending lines are applied, each ending Applied or Error, an Error line with at most this run's one error; others are left alone |
| Resolvers.ApplyLine | Resolvers/Resolver.php:168-174 | the line as the loop leaves it, and success iff a Pending line's apply went through |
| Resolvers.Submitted | Resolvers/StandardResolver.php:357-363 | a line without a user choice is untouched; a chosen line stores the choice (or Unmatch) and is saved; a counters-only update keeps its status, a full one leaves it Pending or Applied |
| Resolvers.ChangedPositions | Resolvers/Resolver.php:139-145 | exactly the positions whose solution differs from the stored one |
| Resolvers.Actual | Resolvers/Resolver.php:140-142 | afterwards the line's solution is the stored one; a changed line is saved, an unchanged one untouched |
| Resolvers.RecordedIffChanged | Resolvers/Resolver.php:137-154 | nothing is recorded iff no line changed |
| Resolvers.NewManager | Resolvers/StandardResolver.php:54-62 | a fresh manager over the located candidates, plus the Renewal fallback, unclassified and unchecked |
| Resolvers.PrepareAll | Resolvers/StandardResolver.php:97-139 | every line searched in order, each with its own fresh manager |
| Resolvers.OutcomeOf | Resolvers/StandardResolver.php:306-340 | the line, the classification and the marked candidate that findSolutions prescribes for one line |
| Resolvers.ExpectedOutcomes | Resolvers/StandardResolver.php:306-340 | one outcome per line of the batch |
| Resolvers.ResolvedUnique | Resolvers/StandardResolver.php:306-340 | a line has only one resolution |
| Resolvers.ResolveWith | Resolvers/StandardResolver.php:307-339 | the manager's candidates are kept and the line, its classification and the marked candidate are those prescribed |
| Resolvers.ClassifyAndResolve | Resolvers/StandardResolver.php:307-337 | the line is the per-line resolution over the manager's candidates, the classification is Classify's, nothing is marked yet and the manager's containers are fresh, one per candidate |
| Resolvers.ResolvedHasSolution | Resolvers/StandardResolver.php:311-337 | every resolved line has a solution |
| Resolvers.SaveChanged | Resolvers/Resolver.php:139-145 | each line as saveActualSolution leaves it, and the positions recorded are exactly the changed ones in order |
| Resolvers.Instantiate | Resolvers/Resolver.php:126-128 | one solution per entry of the class map, in its order |
| Resolvers.Resolver.constructor | Resolvers/Resolver.php:52 | a resolver over the batch, with empty caches and nothing recorded |
| Resolvers.Resolver.GetSolutions | Resolvers/Resolver.php:123-132 | the declared solutions in order, built once and reused |
| Resolvers.Resolver.IsUserBlockedForCompany | Resolvers/Resolver.php:221-250 | true iff there is a company and one of the non-null ids is a blocked user of it; the company's list is cached |
| Resolvers.Resolver.FindRelevantDeals | Resolvers/StandardResolver.php:97-139 | every line located and given a fresh, unclassified manager of its own |
| Resolvers.Resolver.FilterEntry | Resolvers/StandardResolver.php:146-180 | one candidate through the branches in order: the line's flags as StepItem says, and the candidate unset exactly when the filter rejects it |
| Resolvers.Resolver.FilterLoop | Resolvers/StandardResolver.php:146-181 | the inner loop leaves the line and the candidates FilterUpTo describes |
| Resolvers.Resolver.FilterOne | Resolvers/StandardResolver.php:146-188 | line `i` and its candidates become FilterLine's; other lines are untouched |
| Resolvers.Resolver.FilterNext | Resolvers/StandardResolver.php:145-189 | one more line filtered, the others untouched |
| Resolvers.Resolver.FilterRelevantDeals | Resolvers/StandardResolver.php:141-190 | every line and its candidates become FilterLine's, and no manager is classified yet |
| Resolvers.Resolver.BuildClients | Resolvers/IndustrialAllianceInsuranceAndRenewalsResolver.php:45-50 | the IA batch map of the lines |
| Resolvers.Resolver.ResolveLine | Resolvers/StandardResolver.php:307-339 | line `i` gets the outcome findSolutions prescribes; the others are untouched |
| Resolvers.Resolver.ResolveNext | Resolvers/StandardResolver.php:306-340 | one more line resolved |
| Resolvers.Resolver.ResolveAll | Resolvers/StandardResolver.php:306-340 | every line resolved over its own candidates, which stay as they were |
| Resolvers.Resolver.FindSolutions | Resolvers/IndustrialAllianceInsuranceAndRenewalsResolver.php:42-88 | every line resolved, the IA resolver with the map of the whole batch |
| Resolvers.Resolver.FindRelevantAdvisors | Resolvers/StandardResolver.php:195-248 | every line becomes FindAdvisorsFor's, in order |
| Resolvers.Resolver.SaveDeals | Resolvers/StandardResolver.php:423-426 | every line stamped and saved as SavedDeal says |
| Resolvers.Resolver.SolveStages | Resolvers/StandardResolver.php:42-43 | after findSolutions and findRelevantAdvisors every line has a solution |
| Resolvers.Resolver.RunStages | Resolvers/StandardResolver.php:39-43 | after all four stages every line has a solution |
| Resolvers.Resolver.MatchDeals | Resolvers/StandardResolver.php:36-49 | without an exception every line has a solution and is PendingAdmin (or Skipped); with one every line is saved Error, unmatched, with the message |
| Resolvers.FirstUndeclared | Resolvers/StandardResolver.php:357-361 | the first line submitted with a key the resolver does not declare, every line before it declared |
| Resolvers.Resolver.UpdateSolutions | Resolvers/StandardResolver.php:351-367 | the lines before the first undeclared submission become Submitted's and the rest are untouched; it throws (`None`) iff some line's submitted key is undeclared; otherwise it answers whether the parser has no errors |
| Resolvers.Resolver.SaveActualSolution | Resolvers/Resolver.php:137-154 | changed lines are saved and recorded in order; afterwards none differs; the updated flag is set iff it was or some line changed |
| Resolvers.Resolver.ApplySolutions | Resolvers/Resolver.php:159-179 | every Pending line applied as `AfterApply` says (a failed one storing only this run's errors), none left Pending, and success iff every apply went through |
| Solutions.Key | Parsers/DocumentParserInterface.php:23-32 | no class carries Skip; exactly the two unmatch classes carry Unmatch and exactly the two manual-match uploads carry the manual-match key |
| Solutions.FitMatch | Solutions/MatchSolution.php:39-58 | a candidate fits iff the line is a paid non-renewal and the candidate is unpaid; only an over-charge-back credit leaves a note |
| Solutions.FitMatchCombined | Solutions/MatchInsuranceAndRenewalCombinedSolution.php:25-35 | a candidate fits iff the line is not a credit and the candidate is unpaid, top-level and of the line's class |
| Solutions.FitChargeBack | Solutions/ChargeBackSolution.php:38-55 | a candidate fits iff the line is a credit and the candidate a paid deal of its class that can take a charge back; never a note |
| Solutions.FitReinstatement | Solutions/ReinstatementSolution.php:32-40 | a candidate fits iff a paid Insurance line meets a reinstatable Insurance deal; never a note |
| Solutions.FitUpload | Solutions/UploadSolution.php:42-75 | a candidate fits iff the line is not a renewal, not over-charged, the agents comply and the candidate is top-level of the line's class |
| Solutions.FitSubDeal | Solutions/UploadSubDealSolution.php:23-52 | a fitting candidate is an Insurance deal for an Insurance or Renewal line, compliant when the line is paid, paid when the line is a renewal |
| Solutions.FitSubDealCombined | Solutions/UploadSubDealInsuranceRenewalCombinedSolution.php:37-74 | a fitting candidate is a paid Insurance deal carrying the line's policy, the line an Insurance line, compliant when paid |
| Solutions.FitRenewalSubDeal | Solutions/UploadRenewalSubDealSolution.php:18-37 | a candidate fits iff a Renewal line meets a paid Insurance deal, compliant when the line is paid |
| Solutions.FitRenewals | Solutions/UploadRenewalsSolution.php:15-37 | a candidate fits iff a Renewal line meets a paid, compliant, top-level deal of its class |
| Solutions.FitUploadCombined | Solutions/UploadInsuranceAndRenewalsCombinedSolution.php:39-57 | a candidate fits iff the plain upload fits and a paid candidate carries the line's policy |
| Solutions.FitLedger | Solutions/ChargeBackSolution.php:38-55 | what a fit means for the matches, the charge back and the reinstatement |
| Solutions.FitUploads | Solutions/UploadSolution.php:42-75 | a renewal upload fits only a Renewal line against a paid deal, a sub-deal only under an Insurance deal |
| Solutions.FitRelated | Solutions/BaseSolution.php:40-49 | every candidate fits Unmatch and none the manual-match upload; a charge back needs a credit against a paid deal, a match an unpaid deal; only an over-charge-back rejection leaves a note |
| Solutions.FitReadsLine | Solutions/BaseSolution.php:40-49 | the candidate tests read only the statement row |
| Solutions.ChargeBackExcludesMatch | Solutions/ChargeBackSolution.php:38-55 | no candidate fits both a charge back and a match |
| Solutions.ChargeBackExcludesReinstatement | Solutions/ReinstatementSolution.php:32-40 | no candidate fits both a charge back and a reinstatement |
| Solutions.UploadNeedsCompliance | Solutions/UploadSolution.php:56-67 | a plain upload fits only when the agents pass the licence check |
| Solutions.CombinedUploadChecksPolicy | Solutions/UploadInsuranceAndRenewalsCombinedSolution.php:39-47 | a paid candidate with another policy never fits the combined upload |
| Solutions.UnmatchFit | Solutions/UnmatchSolution.php:25-79 | a line that cannot match always fits; a line that does not fit is untouched; a fit beyond those needs a credit or an unlicensed unsplit agent |
| Solutions.UnmatchIAFit | Solutions/UnmatchIASolution.php:9-25 | a policy under several contract codes is forced to unmatch with a "Split deal for" note; a line that cannot match fits; a line that does not fit is untouched |
| Solutions.UnmatchFitFrame | Solutions/UnmatchSolution.php:25-79 | the Unmatch test only sets four flags and adds at most one explanation, and never forces the line |
| Solutions.UnmatchIAFitFrame | Solutions/UnmatchIASolution.php:9-25 | the IA Unmatch test changes no more of the line than the plain one |
| Solutions.Qualifies | Solutions/UploadSolution.php:28-40 | a fit needs the solution's tag on some candidate (any candidate for AHA); a non-zero commission except for the combined renewal uploads and the matches; a paid, unforced line for the manual-match upload; no licence flag for a match or plain upload |
| Solutions.IsFit | Solutions/SsqUploadToAdvisorSolution.php:9-19 | only the unmatch tests and the SSQ manual-match test touch the line; the SSQ test never fits a split line, takes it out of manual matching and logs why |
| Solutions.ForcedLineUnmatches | Solutions/UnmatchSolution.php:25-79 | a forced line always fits Unmatch, in both variants |
| Solutions.AhaUploadIgnoresFlags | Solutions/UploadAhaSolution.php:14-17 | the AHA upload fits any line with a commission and a candidate |
| Solutions.ChargeBackOrReinstatement | Solutions/ReinstatementSolution.php:23-30 | a charge back and a reinstatement never both fit one line |
| Solutions.SetSolution | Solutions/BaseSolution.php:58-61 | only the solution changes, to the class's key, never Skip |
| Solutions.SubmittedStatus | Solutions/BaseSolution.php:74-76 | a counters-only update keeps the status |
| Solutions.BaseUpdate | Solutions/BaseSolution.php:70-77 | the chosen solution and deal are recorded, and the status is Pending unless only counters are refreshed |
| Solutions.ChosenName | Solutions/UploadToAdvisorSolution.php:90-96 | an agent on file gives their legal name; otherwise the statement name stays |
| Solutions.ToAdvisorUpdate | Solutions/UploadToAdvisorSolution.php:70-98 | without a chosen agent the line falls back to Unmatch; the choice is recorded; on a full update the names become the agents' legal names |
| Solutions.SubmittedKind | Solutions/UploadSolution.php:118-121 | the matched class the strategy records: Insurance for the sub-deals, the line's class for the other uploads, unchanged for the rest |
| Solutions.Update | Solutions/UnmatchSolution.php:104-110 | the chosen solution is recorded; Unmatch is final at once and the others wait for apply; only the manual-match upload touches the agents; flags, log and data are untouched |
| Solutions.UpdateIdempotent | Solutions/BaseSolution.php:70-77 | submitting the same choice twice records what submitting it once does |
| Solutions.Lookup | Solutions/MatchSolution.php:65-72 | a deal is found iff the id is not null and the ledger has it |
| Solutions.Reject | Solutions/MatchSolution.php:67-72 | an error that downgrades the line to Unmatch and logs the message |
| Solutions.Refuse | Solutions/UploadSolution.php:102-106 | an error that keeps the solution and logs the message |
| Solutions.Persist | Solutions/UploadSolution.php:108-112 | saving never changes the resolution or the errors |
| Solutions.MatchFound | Solutions/MatchSolution.php:88-98 | the match asks the ledger once; success leaves the line Applied with the matched class recorded |
| Solutions.ApplyMatchAsWritten | Solutions/MatchSolution.php:60-99 | as written: success needs only an unpaid deal found in the ledger |
| Solutions.ApplyMatch | Solutions/MatchSolution.php:60-99 | corrected (see Findings): success needs a deal found that is neither paid nor charged back, and leaves the line Applied; a failure not Applied is unmatched |
| Solutions.MatchOfChargedBackDeal | Solutions/MatchSolution.php:74-76 | as written a charged-back, unpaid deal is matched again; the corrected guard refuses it |
| Solutions.ApplyChargeBack | Solutions/ChargeBackSolution.php:57-101 | success needs a deal that can take a charge back, charges it the credit's amount and leaves the line ChargeBack and Applied; a class mismatch is refused; every failure unmatches |
| Solutions.Reinstated | Solutions/ReinstatementSolution.php:68-80 | the ledger is asked to reinstate the line's commission |
| Solutions.ApplyReinstatementAsWritten | Solutions/ReinstatementSolution.php:42-81 | as written: success needs only some last charge back |
| Solutions.ApplyReinstatement | Solutions/ReinstatementSolution.php:42-81 | corrected (see Findings): success needs a last charge back not yet reinstated, reinstates the commission and leaves the line Reinstatement and Applied; a class mismatch is refused; every failure unmatches |
| Solutions.ReinstatementTwice | Solutions/ReinstatementSolution.php:61 | as written an already reinstated charge back is reinstated again; the corrected guard refuses it |
| Solutions.ApplyUpload | Solutions/UploadSolution.php:77-113 | success creates one deal, as a sub-deal iff the solution is the sub-deal upload, records its id and class, and leaves the line Applied |
| Solutions.ApplyRenewalSubDeal | Solutions/UploadSubDealInsuranceRenewalCombinedSolution.php:76-127 | an Insurance line is a plain upload; a Renewal line becomes a new Renewal under the matched deal for its commission, and a pending parent policy takes the line's policy |
| Solutions.ApplyNewRenewal | Solutions/UploadInsuranceAndRenewalsCombinedSolution.php:59-120 | a non-Renewal line with a deal is a plain upload; otherwise a new top-level Renewal is created for the saved agent (or the deal's agent), never for no agent |
| Solutions.ApplyToAdvisor | Solutions/UploadToAdvisorSolution.php:48-68 | one new deal of the line's class; success records it and leaves the line Applied; a failure keeps the solution |
| Solutions.Apply | Solutions/BaseSolution.php:51 | dispatches to the corrected match and reinstatement steps; success leaves the line Applied; failure keeps the solution or unmatches and adds at most one error, success adds none; Unmatch always succeeds and asks the ledger nothing |
| SplitParsing.KeyPosition | Parsers/SplitParser.php:34 | the position of the first entry under the split key, or past the end when there is none |
| SplitParsing.BucketsShape | Parsers/SplitParser.php:17-40 | every entry holds a row; a Renewal or 100% row stands in an entry of its own; a split key's rows all share it and none stands alone; no key is used twice |
| SplitParsing.BucketsPermute | Parsers/SplitParser.php:17-40 | the entries together hold exactly the accepted rows, each as often as it was read |
| SplitParsing.AddCounts | Parsers/SplitParser.php:27-39 | adding a row to the dictionary adds exactly that row |
| SplitParsing.AddRow | Parsers/SplitParser.php:27-39 | one row added to the dictionary, with the index of its keys kept in step |
| SplitParsing.GatherRows | Parsers/SplitParser.php:15-40 | the first loop builds the dictionary Buckets describes |
| SplitParsing.DistinctCodes | Parsers/SplitParser.php:45-48 | the group's contract codes, each once |
| SplitParsing.SimpleOrNull | Parsers/SplitParser.php:80-81 | the simple name of a truthy name, and nothing for any other |
| SplitParsing.WithSplitNames | Parsers/SplitParser.php:77-86 | only the two agent names and the split mark change, and nothing at all with one code |
| SplitParsing.WithSplitCodes | Parsers/SplitParser.php:95-110 | only the two contract codes and users change, and nothing at all with one code |
| SplitParsing.SplitGroup | Parsers/SplitParser.php:44-56 | a group keeps its number of rows |
| SplitParsing.TwoCodes | Parsers/SplitParser.php:44-48 | the group has more than one distinct code iff two of its rows differ in code |
| SplitParsing.FirstCode | Parsers/SplitParser.php:98 | the first distinct code is the first row's |
| SplitParsing.LastNameIsARowName | Parsers/SplitParser.php:45 | the name kept for a code is the name of a row with that code |
| SplitParsing.SplitMarksShared | Parsers/SplitParser.php:44-49 | every row of a split group is marked shared, its user code is the first code and its agent that code's simple name; its shared code is another code of the group |
| SplitParsing.SingleCodeUnchanged | Parsers/SplitParser.php:77-99 | a group with a single contract code comes out unchanged |
| SplitParsing.SplitGroupKeeps | Parsers/SplitParser.php:46-49 | a group's rows differ from what they were only in the split fields |
| SplitParsing.SplitAllKeeps | Parsers/SplitParser.php:42-57 | the rows appended differ from the dictionary's only in the split fields |
| SplitParsing.SplitOutput | Parsers/SplitParser.php:13-58 | every accepted row comes out exactly once, regrouped, differing only in the split fields |
| SplitParsing.SplitRows | Parsers/SplitParser.php:46-49 | the inner loop rewrites each row of the group in turn |
| SplitParsing.SplitParser.constructor | Parsers/SplitParser.php:11 | a parser with no lines yet |
| SplitParsing.SplitParser.ParseAndCreateDealsContainers | Parsers/SplitParser.php:13-58 | the lines grow by the accepted rows, grouped by split key and rewritten group by group |
| SplitParsing.AppendGroups | Parsers/SplitParser.php:42-57 | the second loop appends the groups one after the other, each rewritten |
| SplitParsing.LastComma | Parsers/SplitParser.php:124 | the position of the last comma, or none when there is no comma |
| SplitParsing.MoneyCommaRule | Parsers/SplitParser.php:122-130 | a result iff the value has a digit; only the last comma becomes the decimal point and every other character is kept |

## Left out

- Database queries are inputs, not modelled. This covers the candidate deals of `findRelevantDeals`, `getBaseQueryForRelevantDeals`, the advisor search, the blocked users of a company, the policy-number variants in the ledger and the agent of a contract code. Each is a parameter: a list, a map or a function value.
- The ledger writes are not modelled. This covers `chargeBack`, `reinstatement`, `matchImportedDeal`, `uploadImportedDeal`, `uploadDealToAdvisor`, `generateMembers` and `save`. Each apply step returns the operations it asks for, together with the outcome the ledger gives (it succeeds, or it fails with an error).
- The rule evaluation of `ForbidDealChecker` is not modelled. `ForbidDealChecker::run` is an oracle parameter of the licence gate.
- Exceptions are not modelled as control flow. The storage failure that `matchDeals` catches is a parameter: the number of stages completed before the throw, plus its message.
- Money is integer cents. `Money::toFloat`, floating point and rounding are not modelled. `ParseMoneyColumn` stops at the text handed to the conversion.
- The `(int)` cast of the share percentage is not modelled. The model reads the percentage as an integer.
- SplitParser's dictionary is a list of entries in insertion order, with string keys. PHP turns a split key that reads as a decimal integer (a policy number of digits with an empty client name, say) into an integer key. Such a key can equal the auto-numbered key that `$deals[][]` gives a row without a split (Parsers/SplitParser.php:27-28), and the two rows then fall into one group. The model keeps the two kinds of key apart, so it does not capture that merge.
- SplitParsing.WithSplitNames: `HArray::map` is taken to keep the last name seen for a contract code.
- SplitParsing.SplitParser.ParseAndCreateDealsContainers: the row test `checkDeal` is a parameter (`accepted`).
- SplitParsing.SplitParser.ParseAndCreateDealsContainers: the agent lookup by contract code is a pure function, so its memo has no visible effect.
- SplitParsing: the split key is the policy number followed by the client name, as in the source; two different pairs that concatenate to the same text share a group in both.
- DealCombining.GroupDealKey: the md5 digest of policy, advisor name and class is taken to be injective. The key is the triple itself, so two triples whose digests collide are kept apart.
- The user interface is not modelled. This covers `MatchedAdvisor`, `getInputHtml`, `getManualMatchingSolutionsInputs`, the solution labels and the progress bar.
- Also not modelled:
  - the search models;
  - the class loading of `ParserFactory`;
  - the deprecated `SkipSolution`;
  - queue pushes, file hashing, timestamps and the JSON behaviours;
  - the spreadsheet column adapters.
- The Unlicensed and Ingle Travel resolvers are not modelled. `InsuranceAndRenewalsCombinedWithCodeResolver`, which the Industrial Alliance and SSQ resolvers extend, is not a class of its own in the model: its base queries by contract code are the candidate lists of `Search`, and its "No relevant Agent's Name found in the system" note is added by `Locate` when `Search.agentCount` is 0.
- Resolvers.Resolver.ApplySolutions: the source pages through Pending lines 100 at a time and re-queries after each page. The model applies the batch's Pending lines in one pass. Pages of the same lines in the same order apply the same steps.
- RelatedDeals.RelatedDealsManager.SetDealAsChecked: it requires the line's solution to be one the manager classified. For any other solution the source throws: `count()` of the undefined index's null is a TypeError in PHP 8. `Resolvers.ResolvedKeyClassified` shows that every call site meets the requirement.
- Compliance.CheckerMemo.Check: the memo is a field of one checker object, not a static shared by every checker in the process.
- DocumentParsers.GroupByAdvisor: the groups are a map keyed by owner, so the order in which `groupByAdvisor` first meets each owner is not kept. Only the display order depends on it; each group keeps its lines in order.
- LineItems.IsUnmatchCode: the double that PHP makes of a non-integral numeric code is not computed. It is taken to be correctly rounded, to nearest with ties to even, so the code equals 107000 exactly when its decimal value lies within 2^-37 of 107000.
- LineItems.Save: this is the corrected save (see Findings). When the stored explanation is "", `beforeSave` (DealContainer.php:221-228) keeps one empty piece and stores " | e"; `Save` stores "e". The code as written is `LineItems.SaveAsWritten`.
- DocumentParsers.SavedDeal: it ends in the corrected `LineItems.Save`. A line stored with explanation "" and saved with a new explanation `e` stores "e", where `saveDeals` stores " | e".
- Solutions.Persist: it saves with the corrected `LineItems.Save`, with the same difference for a stored "".
- Solutions.Apply: it dispatches to the corrected `ApplyMatch` and `ApplyReinstatement`. The source applies a match onto a ledger deal that has a charge back and no paid member, and reinstates a deal whose last charge back is already reinstated; the model fails both with an error. Its steps save with the corrected `LineItems.Save`. The code as written is `ApplyMatchAsWritten` and `ApplyReinstatementAsWritten`.
- Solutions.ApplyMatch: the corrected match (see Findings); it refuses a ledger deal with a charge back, which the source matches.
- Solutions.ApplyReinstatement: the corrected reinstatement (see Findings); it refuses a last charge back that is already reinstated, which the source reinstates again.
- Solutions.ApplyChargeBack: it saves with the corrected `LineItems.Save`.
- Solutions.ApplyUpload: it saves with the corrected `LineItems.Save`.
- Solutions.ApplyRenewalSubDeal: it saves with the corrected `LineItems.Save`.
- Solutions.ApplyNewRenewal: it saves with the corrected `LineItems.Save`.
- Solutions.ApplyToAdvisor: it saves with the corrected `LineItems.Save`.
- Resolvers.ApplyOne: it goes through the corrected `Solutions.Apply`. The two inputs named there leave the line Error (and Unmatch) where the source leaves it Applied, and a failed line is saved with the corrected `LineItems.Save`.
- Resolvers.ApplyOne: errors are a list of messages, where `getErrors()` gives them keyed by attribute (all are under 'parser'). When a solution's own validating `save()` is what failed, the source stores the validation messages; the model does not know them and stores an empty list.
- Resolvers.AfterApply: it is `ApplyOne` for a Pending line, with the same differences.
- Resolvers.ApplyLine: its success flag follows the corrected `Solutions.Apply`. It is false for the two inputs named there, where the source's is true.
- Resolvers.Submitted: a chosen line is saved with the corrected `LineItems.Save`.
- Resolvers.Actual: a changed line is saved with the corrected `LineItems.Save`.
- Resolvers.SaveChanged: the changed lines are saved with the corrected `LineItems.Save`.
- Resolvers.Resolver.SaveDeals: every line is `SavedDeal`'s, saved with the corrected `LineItems.Save`.
- Resolvers.Resolver.UpdateSolutions: every updated line is `Submitted`'s, saved with the corrected `LineItems.Save`. The parser's error state is outside the model; it comes in as a parameter, and `None` stands for the Error thrown on an undeclared key.
- Resolvers.Resolver.SaveActualSolution: the changed lines are saved with the corrected `LineItems.Save`.
- Resolvers.Resolver.ApplySolutions: every line is `AfterApply`'s. For the two inputs named under `Solutions.Apply` it marks the line Error and returns false, where the source applies it and returns true.
- Resolvers.Resolver.IsUserBlockedForCompany: the blocked-user cache is keyed by company id. The list that the query returns is a parameter, fixed for the batch.

## Findings

| source | as written | input that shows it | evidently intended | confidence | as-written member | corrected member |
|---|---|---|---|---|---|---|
| Solutions/MatchSolution.php:74-76 | `hasChargeBack` is asked of the statement line, which has no such method, so the guard never fires | a matched deal with a charge back and no paid member: the match goes through | refuse a match onto a deal that has a charge back | high (not executed) | Solutions.MatchOfChargedBackDeal | Solutions.ApplyMatch |
| Solutions/ReinstatementSolution.php:61 | the reinstatement amount is read from `$this->lastChargeBack`, a property of the solution object, which is always null | a deal whose last charge back is already reinstated: it is reinstated a second time | refuse when the deal's last charge back already has a reinstatement amount | high (not executed) | Solutions.ReinstatementTwice | Solutions.ApplyReinstatement |
| DealContainer.php:221-228 | a stored explanation of `""` is exploded into one empty piece, which is kept | a line saved with no explanation and then saved again with explanation `e`: the stored value is `" \| " + e` | store just `e` | medium (not executed) | LineItems.LeadingSeparatorAsWritten | LineItems.NoLeadingSeparator |
