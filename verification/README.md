# AAR protocols and transformations, modelled in Dafny

This project models the parts of AAR that decide something over unbounded inputs or runs, and proves
what they promise. Code that changes things step by step is a class or a method here, proved against
a specification function; the laws are lemmas about those functions. Nothing was executed.

`dafny verify dfyconfig.toml` checks everything.

| Part | Modules |
|---|---|
| Schema bundler | `SchemaBundler` (the walk, its termination and what it collects), `BundleMeaning` (unfoldings), `BundleReferences` (where a reference leads, by its text) |
| v9 constraint pass | `ConstraintCompiler` (what it computes), `ConstraintEdits` (what it writes, by name and value), `ConstraintPass` (the in-place pass), `ConstraintBundling` and `ConstraintBundles` (the pass and the bundler in either order), `ConstraintMeaning` (instances) |
| Asset store | `AssetModels`, `AssetCatalog` (specification), `AssetReferences` (references field by field), `AssetStore` (the class), `AssetLaws` |
| Portable patterns | `RegexProfile` (grammar, printer, parser), `RegexMatching` (language, matcher, step count), `RegexAlphabet` (characters and repeats spelled out) |
| JSON | `JsonValues`, `KeyOrder`, `CanonicalJson`, `CanonicalText` (the text character by character), `StrictLoader`, `JsonGrammar` (which texts it takes), `JsonPointer`, `PointerTokens` (what pointer and tokens stand for) |
| Caller work | `CallerWork` (tables and commands), `CallerWorkSteps`, `CallerWorkCommands` (one call), `CallerWorkLaws` and `CallerWorkVerdicts` (runs), `CallerWorkConstraints`, `CallerWorkAuthority` and `CallerWorkOutcomes` (which calls succeed and what they write), `CallerWorkSuspensions` (what becomes of a ticket's suspension), `CallerWorkRepository` (the class), `CallerWorkEntry` and `CallerWorkEntryLaws` (what the entry checks first, and runs of requests), `CallerWorkServer` (the entry's functions), `CallerWorkExamples` (reachable examples) |
| Workbench rebind | `Rebind` (tables and transactions), `RebindLaws` (runs with crashes), `RebindOutcomes` (which transactions succeed and what they leave), `RebindStore` (the class), `RebindExamples` |
| Cutover ledger | `CutoverLedger` |
| Single-owner startup | `Launcher` (any number of launchers and supervisors), `LauncherLaws`, `LauncherOutcomes` (what a launcher makes of an owner), `LauncherProgram` (one launcher's control flow) |
| Staged install | `FileTree`, `StagedInstall` (a disk with a fault at any operation), `ProviderReadyInstall`, `ProviderReadyContract`, `ContractFiles` (the files by name) |

A digest is written as the value it was computed from, so equal digests mean equal content. Strings are
sequences of code points. Clocks, random identifiers and the order in which processes act are parameters,
so every result holds for all of them. A run is any finite sequence of steps; a refused or crashed
transaction leaves the state as it was.

## What was found

Where the code and its documentation, or an expected law, part ways, the model follows the code.

* **Caller work closes every report but a success as a failure.** `_apply_candidate_settlement`
  (`src/aar/runtime/caller_work.py:912-991`) settles `accepted`, `outcome_unknown` and
  `cancelled_certain` reports as `settled_failure` (`CertainCancellationSettlesAsFailure` reaches one); only
  the words `cancelled` and `canceled`, which the observation schema does not have, would close a ticket as
  `cancelled_certain`. So no run reaches that state (`CancelledCertainIsUnreachable`).
* **Only the entry compares the caller of a commit.** FC-CALL-010 asks that a commit of the wrong principal or
  generation be rejected. `_require_claim` compares claim id, claim fence and attempt, and the fence carries the
  adapter and its generation but not the caller, so the repository by itself lets anyone who knows the claim
  commit under it (`CallerIsNotCompared`). What keeps FC-CALL-010 is `_run_caller_work_command`
  (`src/aar/mcp/server.py:860-885`), the one way to the repository from outside: it first compares principal,
  session and runtime generation with the operation's admitted request. Since a claim is always held by the
  principal and session of its operation (`ClaimantIsTheOperations`), every foreign request is rejected and
  changes nothing, in every state that serving reaches (`ForeignRequestIsInert`); `TheEntryStopsTheStranger`
  has one commit that the repository would act on and the entry denies.
* **A replayed model success is answered only if it settled.** When a successful model commit ended in
  quarantine, repeating the very same command is refused as a conflict, for ever
  (`ReplayGivesTheFirstAnswer` has the exact split, `ReplayOfQuarantinedIsRefused` reaches one).
* **The tables' own constraints can still refuse a call.** Besides tickets nobody awaits and attempt
  identifiers drawn twice, they refuse the settlement of a sole receipt that reports success but carries no
  send time (`UntimedSuccessIsRefused` reaches one). `ConstraintsFireExactly` has the exact condition.
* **Losing a worker before the commit consumes the outbox.** The transfer becomes aborted and the
  predecessor keeps the authority, but the outbox is spent, so "outbox consumed" alone does not mean that
  the successor took over (`LossBeforeCommitConsumesTheOutbox`, reached in `LossBeforeCommitIsReached`;
  `HandOverIsAtomic` has the exact equivalence).
* **A launcher can leave a live child behind** by a failure to bind the child's process, by an interrupt
  between the spawn and the polling loop (`InterruptLeavesChild`) or during the last reap, by giving up that
  reap, or by dying itself, and in no other way (`StrayExactlyWhenLeaked`); such children pile up
  (`BindFailuresPileUp`). After a spawn the version of the accepted owner is not compared again
  (`OtherVersionIsAcceptedAfterSpawn`).
* **An interrupt is not an `Exception`.** The install's handler does not see it, so the tree is unchanged
  exactly when the interrupt comes no later than the first operation after staging (`Generate`).
* **List tokens alias.** `int(token)` reads "1" and "-1" as places of the same list, so distinct paths can
  meet (`DifferentTokensMayMeet`); the exact condition for a path to be safe from every write at another is
  `UntouchedExactlyApart`.
* **Compiling and bundling do not always commute.** A definition named `properties` is taken for the keyword
  (`KeywordNameIsMistaken`), and a reference in what the pass overwrites is lost (`OverwrittenReferenceIsLost`).
  `BundlingCommutes` has the exact condition on the definitions reached.
* **Under `not` the pass tightens.** A reference to an edited definition may not sit under a keyword that does
  not accept more when its schemas do (`NegatedReferenceTightens`); `CompilingLoosens` has the condition.
* The first cutover event may carry the time -1, since times are compared with -1 at the start (`FirstTimes`).

## Model

| member | source | states |
|---|---|---|
| SchemaBundler.AliasIsInjective | src/aar/schema_generator.py:206-211 | no two definitions share a name in the bundle, whatever they are called: no prefix holds an underscore and no two files share a prefix |
| SchemaBundler.Walk.Collect | src/aar/schema_generator.py:219-226 | the depth-first visit ends on cyclic inputs, adds only definitions reached from the key, leaves everything it added with its references collected or in progress, and fails only if the key is undefined or a reached definition has a bad reference |
| SchemaBundler.Walk.Rewrite | src/aar/schema_generator.py:228-242 | the value returned is the rewriting of the argument, and everything it refers to was visited |
| SchemaBundler.ClosedWalk | src/aar/schema_generator.py:219-226 | a finished walk has collected exactly the definitions reached from its starts, and none of them has a reference that does not resolve |
| SchemaBundler.BundleSchema | src/aar/schema_generator.py:190-252 | bundling succeeds if and only if the root is an object definition and no reference reached from it is bad; the result holds the rewritten root and exactly the definitions reached, sorted by alias |
| SchemaBundler.BundleIsUnique | src/aar/schema_generator.py:244-252 | that description leaves one possible bundle |
| BundleReferences.ReferenceLeads | src/aar/schema_generator.py:213-217 | a reference `#/$defs/n` leads to the definition `n` of the document it stands in, and `g#/$defs/n` with a document name `g` to that of `g`; a text leads nowhere exactly when it has no `#` |
| BundleReferences.LeadsOnlyThere | src/aar/schema_generator.py:213-217 | whatever a reference leads to is what its text says, except that a fragment which is no path to a definition counts whole as the name |
| BundleReferences.DescriptorNames | src/aar/schema_generator.py:190-202 | a descriptor names the definition `n` of `g` exactly when it is `g#/$defs/n` |
| BundleReferences.DefinitionsAreNamed | src/aar/schema_generator.py:206-211 | a definition is what stands under its name in the `$defs` of its document; six documents have a name in a bundle, and an alias is that name, two underscores and the definition's own |
| BundleReferences.BundleHoldsTheNamed | src/aar/schema_generator.py:190-252 | wherever the root or a bundled definition refers by one of these texts, the bundle holds the very definition the text names, under the prefix of that document and the name, and refers to it there |
| BundleReferences.BundleShows | src/aar/schema_generator.py:244-252 | the top of a bundle shows the dialect, the definitions when there are any, and otherwise the fields of the rewritten root |
| BundleMeaning.RewritingPreservesMeaning | src/aar/schema_generator.py:228-242 | for every depth, a rewritten value unfolds in the bundle as the original does across the documents, siblings of references kept, and nothing dangles |
| BundleMeaning.BundlePreservesMeaning | src/aar/schema_generator.py:190-252 | for every contract set, cycles included, and every depth, the bundled root and every bundled definition unfold as their sources do, and every reference in the bundle resolves |
| ConstraintCompiler.CompilingIsIdempotent | src/aar/schema_generator.py:97-133 | compiling a compiled document changes nothing |
| ConstraintCompiler.EditsAreNamed | src/aar/schema_generator.py:114-131 | the places the pass may edit are exactly the bounds of the four named time allowances and the `const` or `enum` of the surface version, each directly under a `properties` keyword |
| ConstraintCompiler.OnlyNamedPlacesChange | src/aar/schema_generator.py:114-131 | at every other place of every document no scalar changes, appears or disappears |
| ConstraintCompiler.BoundsExactly | src/aar/schema_generator.py:114-131 | of the bounds at the named places, the two frozen values are raised and no others |
| ConstraintEdits.AllowancesAreLifted | src/aar/schema_generator.py:104-123 | the bounds 60000 and 900000 of the four time allowances become the largest 64-bit integer, and any other number stays |
| ConstraintEdits.SurfaceIsWidened | src/aar/schema_generator.py:124-128 | a surface version that had to be the eighth may be the eighth or the ninth; any other constant stays |
| ConstraintEdits.NothingElseChanges | src/aar/schema_generator.py:114-131 | off those places no value appears or disappears and every number, text and word stays |
| ConstraintEdits.WorksThroughExactly | src/aar/schema_generator.py:114-131 | the pass gets through a field exactly when a `properties` is an object, the bound of a time allowance under it is no list and no object, and it gets through the value |
| ConstraintPass.CompileNode | src/aar/schema_generator.py:114-131 | the pass, which edits an object's properties before it goes on into them, ends, and computes the compiled document; it fails exactly where a `properties` it meets is not an object, or holds a time allowance whose bound is a list or an object |
| ConstraintPass.PropertiesCommute | src/aar/schema_generator.py:114-131 | editing all properties first and compiling afterwards equals compiling each property in its role |
| ConstraintBundling.CompilingCommutesWithRewriting | src/aar/schema_generator.py:97-131 | rewriting the references of a compiled value is compiling the rewritten value |
| ConstraintBundling.CompiledTargets | src/aar/schema_generator.py:114-131 | for every value the pass adds no reference and removes exactly those in the `const` and `enum` it overwrites |
| ConstraintBundles.SameInBothRoles | src/aar/schema_generator.py:114-131 | a definition compiles the same whether or not it is taken for the keyword if and only if it holds no frozen time allowance and no v8 surface version as a field |
| ConstraintBundles.BundlingCommutes | src/aar/schema_generator.py:136-158 | the compiled bundle is the bundle of the compiled contracts, with the same definitions, if and only if neither the root nor a definition reached is taken for the keyword with something to edit, and every definition reached is reached through references the pass leaves alone |
| ConstraintBundles.BundlesAgree | src/aar/schema_generator.py:136-158 | for a root without definitions of its own the two bundles are equal documents if and only if the same holds |
| ConstraintBundles.OverwrittenReferenceIsLost | src/aar/schema_generator.py:114-131 | two bundles, exhibited, that differ because an overwritten `enum` held the only reference to a definition |
| ConstraintBundles.KeywordNameIsMistaken | src/aar/schema_generator.py:114-131 | two bundles, exhibited, that differ because a definition is called `properties` |
| ConstraintMeaning.CompilingLoosens | src/aar/schema_generator.py:97-133 | an instance accepted before is accepted after, whatever the other keywords make of their value, of their neighbours and of the definitions they lead to, when all the pass changes, in the schema or in a definition, is reached through references and through `properties`, `additionalProperties`, `items`, `prefixItems`, `allOf`, `anyOf`, `then` and `else`, `if` itself being left alone |
| ConstraintMeaning.AcceptanceIsLocal | src/aar/schema_generator.py:190-252 | with local keywords, acceptance depends on no definition but those the schema leads to |
| ConstraintMeaning.NegatedReferenceTightens | src/aar/schema_generator.py:97-133 | a `not` over a reference to an edited definition accepts an instance before the pass and rejects it after, so the condition is needed |
| AssetModels.IssuedIsValid | src/aar/asset_models.py:186-259 | an issued document passes its own validators |
| AssetModels.DigestBindsDocument | src/aar/asset_models.py:238-259 | a valid document is the one issued for its body and previous revision, and documents with one digest are one document |
| AssetReferences.ValidExactly | src/aar/asset_models.py:142-259 | a document is valid exactly when its body is in order, its kinds agree, both digests are those of the content, and its dependencies are what the body names and nothing else |
| AssetReferences.EventValidExactly | src/aar/asset_models.py:314-349 | an event is valid exactly when its kind has what it needs, its references are of their kinds and its digest is that of its content |
| AssetStore.Store.ImportBundle | src/aar/assets.py:307-352 | one transaction: on a sound store it succeeds exactly when every reference of a document or event, field by field, is stored or carried, every outcome event reports its own episode and no episode gets a second outcome, and then adds exactly the bundle's rows; a refusal changes nothing |
| AssetStore.Store.InsertDocument | src/aar/assets.py:368-419 | a document is inserted exactly when no row contradicts it, and touches no other row |
| AssetStore.Store.InsertEvent | src/aar/assets.py:421-454 | an event is inserted exactly when it fits, which includes being the only outcome event of its episode |
| AssetStore.Store.ValidateOutcomeEvent | src/aar/assets.py:456-471 | an outcome event passes exactly when its outcome, stored or in the same bundle, is about the event's own episode |
| AssetStore.Store.Outcome | src/aar/assets.py:251-267 | the observation is the one outcome event of the episode, and unknown exactly when there is none; the two errors are told apart |
| AssetStore.Store.Get | src/aar/assets.py:225-239 | a document is found exactly under its digest and kind |
| AssetStore.Store.CollectDocuments | src/aar/assets.py:269-297 | the worklist ends, succeeds exactly when everything reached resolves, and returns exactly the documents reached from the roots, each with its previous revision and whatever else it names |
| AssetStore.Store.ExportBundle | src/aar/assets.py:269-305 | the export holds exactly those documents and, when events are asked for, exactly the stored events that name nothing else |
| AssetLaws.ImportKeepsSound | src/aar/assets.py:307-346 | an import, accepted or refused, keeps the store invariant: references resolve under their kinds, bodies match manifests, an episode has at most one outcome event, about itself |
| AssetLaws.RunIsSound | src/aar/assets.py:221-249 | the invariant holds after every run of imports, puts and appended events from the empty store |
| AssetReferences.StoresAreWhole | src/aar/assets.py:157-175 | after any run of imports, the previous revision and every other reference of a stored document, field by field, and every reference of a stored event, is stored under that kind |
| AssetReferences.AcceptedExactly | src/aar/assets.py:307-346 | a sound store accepts a bundle if and only if everything its documents and events name is stored or carried, every outcome event reports its own episode and no episode gets a second outcome |
| AssetReferences.ExportIsWhole | src/aar/assets.py:269-305 | an export holds its roots, the stored documents under their digests, whatever each of them names, and exactly the events that name nothing else |
| AssetReferences.ExportHoldsNoOther | src/aar/assets.py:269-305 | every exported document is a root or named by another exported document |
| AssetLaws.OnlyThreeRefusals | src/aar/assets.py:307-454 | over a sound store no import is refused for a digest held under another kind, or for a row that differs under its own key |
| AssetLaws.ReferencesAreAcyclic | src/aar/assets.py:157-161 | no trail of references of any length leads back to where it began |
| AssetLaws.ImportExtends | src/aar/assets.py:368-454 | no import alters or removes a row |
| AssetLaws.ObservedStays | src/aar/assets.py:251-267 | what was observed of an episode is the only thing ever observed of it, whatever is imported later |
| AssetLaws.ImportIsIdempotent | src/aar/assets.py:307-346 | importing a bundle again is accepted and changes nothing |
| AssetLaws.ImportOrderIsFree | src/aar/assets.py:307-346 | two imports that succeed in both orders end in equal stores |
| AssetLaws.RoundTrip | src/aar/assets.py:269-352 | from every sound store, an export imports into an empty store, which is then sound and exports the identical bundle from the same roots |
| AssetLaws.HeldRootsExport | src/aar/assets.py:269-305 | a sound store exports from a set of roots exactly when it holds each of them under its kind |
| RegexProfile.ParsedIsPortable | src/aar/schema_profile.py:49-73 | a text is accepted if and only if it is the printing of a well-formed pattern of at most 256 characters |
| RegexProfile.ParseComplete | src/aar/schema_profile.py:214-280 | parsing the printing of a well-formed pattern returns that pattern |
| RegexProfile.PrintingIsInjective | docs/sdd/aar-rlm-native-workbench-v2/portable_regex.py:12-52 | no text has two readings |
| RegexAlphabet.WellFormedExactly | src/aar/schema_profile.py:214-290 | a pattern is well formed exactly when it has an atom, at most one of them is quantified, and literals, escapes, classes and repeats are of the characters and numbers spelled out |
| RegexAlphabet.PieceSpells | src/aar/schema_profile.py:49-73 | a piece accepts exactly the texts of as many characters as its quantifier says in decimal, each of them one its atom accepts |
| RegexProfile.ValidatePortablePattern | src/aar/schema_profile.py:49-73 | the cursor loop ends within bounds and accepts exactly the portable patterns |
| RegexProfile.ConsumeAtom | src/aar/schema_profile.py:214-230 | the cursor stops right after the atom that starts at it, or the atom is refused |
| RegexProfile.ValidatePositiveClass | src/aar/schema_profile.py:233-254 | the class loop accepts exactly the contents that are items and ranges in order |
| RegexMatching.AcceptedIsLinear | docs/sdd/aar-rlm-native-workbench-v2/portable_regex.py:12-52 | for every accepted pattern and every text a backtracking search finds a match exactly when the text holds one, in at most 33281 steps a position |
| CanonicalJson.EncoderRefusesExactly | src/aar/canonical.py:14-32 | encoding fails exactly when something unencodable, or a key that is no string, sits anywhere in the value |
| CanonicalText.EncodingMirrors | src/aar/canonical.py:14-32 | encoding succeeds with a value exactly when that mirrors the argument place by place |
| CanonicalText.StringIsWritten | src/aar/canonical.py:35-45 | inside quotes every character is written where it stands and as itself, but for quote, backslash and the control characters, which have seven short forms or four hexadecimal digits |
| CanonicalText.PlainIsWrittenAsItIs | src/aar/canonical.py:35-45 | a string without quotes, backslashes and control characters is written as it is, a slash included |
| CanonicalText.NothingInsignificant | src/aar/canonical.py:35-45 | the text of a value without blanks in its strings has no blank |
| KeyOrder.LessByFirstDifference | src/aar/canonical.py:35-45 | keys are ordered by the first character in which they differ, a proper prefix first |
| JsonGrammar.LoadsExactly | src/aar/provider_ready_contract.py:109-160 | the strict loader returns a value exactly for the texts that write it: one object with blanks around it, integers without a needless zero for numbers, no key twice in any object, and strings of plain characters, letters after a backslash, codes and whole surrogate pairs |
| JsonGrammar.FloatsAreNamed | src/aar/provider_ready_contract.py:122-127 | a number with a fraction or an exponent is refused as a float wherever a value stands |
| JsonGrammar.NonfiniteIsNamed | src/aar/provider_ready_contract.py:126-127 | the three words for what is no finite number are refused as such wherever a value stands |
| StrictLoader.CanonicalIsInjective | src/aar/canonical.py:35-45 | two values have the same canonical text if and only if they are equal up to the order of keys, at every depth |
| StrictLoader.LoadUndoesCanonical | src/aar/provider_ready_contract.py:130-160 | loading the canonical text of any object returns that object |
| StrictLoader.LoadedReads | src/aar/provider_ready_contract.py:130-160 | a lookup in the loaded object finds what the original holds under that key |
| StrictLoader.RepeatedKeysAreRejected | src/aar/provider_ready_contract.py:109-119 | of the JSON texts, the reader with the hook rejects those with a repeated key at any depth and reads the others as it would without the hook |
| StrictLoader.RejectDuplicateKeys | src/aar/provider_ready_contract.py:109-119 | the hook's loop accepts exactly the pairs with distinct keys, and returns them |
| JsonPointer.TokensUndoJoin | src/aar/provider_ready_contract_generator.py:868-873 | for every token sequence, tokenising its escaped and joined form returns it |
| JsonPointer.OrderOfReplacementMatters | src/aar/provider_ready_contract_generator.py:868-873 | with the two replacements swapped, a token comes back if and only if it nowhere holds "~1" |
| JsonPointer.PointerGet | src/aar/provider_ready_contract_generator.py:876-880 | the loop returns what lies at the end of the path, or fails where the path does |
| JsonPointer.GetAfterSet | src/aar/provider_ready_contract_generator.py:883-894 | a read after a write at the same path returns the new value |
| JsonPointer.UntouchedExactlyApart | src/aar/provider_ready_contract_generator.py:876-894 | a path shows no write at another path if and only if the two part at some node of the document |
| JsonPointer.DifferentTokensMayMeet | src/aar/provider_ready_contract_generator.py:876-894 | different tokens do not make paths part: "1" and "-1" are one place of a list of two |
| PointerTokens.PointerIsItsParts | src/aar/provider_ready_contract_generator.py:868-873 | the tokens of a pointer are the parts that each follow a slash, decoded; a text that is neither empty nor begins with a slash is refused |
| PointerTokens.SpelledIsRead | src/aar/provider_ready_contract_generator.py:876-880 | blanks, a sign and digits with underscores between two of them are read as their number |
| PointerTokens.NumeralReads | src/aar/provider_ready_contract_generator.py:876-880 | in the number of a token each digit counts for ten times the next, and underscores for nothing |
| PointerTokens.ReadIsSpelled | src/aar/provider_ready_contract_generator.py:876-880 | and no other token is read as a number |
| PointerTokens.TokenLeads | src/aar/provider_ready_contract_generator.py:876-894 | in a list a token leads to the place its number counts from the start or from the end, in an object to its own key, and elsewhere nowhere |
| CallerWorkCommands.ExecuteKeepsSound | src/aar/runtime/caller_work.py:243-991 | every command that succeeds keeps the state shapes, the attempt and request keys, the receipts, the records and the outbox rows sound, and only moves tickets forward |
| CallerWorkLaws.RunsStaySound | src/aar/runtime/assets/migration-v6.sql:108-286 | the invariant holds in every state a run reaches from empty tables, other components' writes included |
| CallerWorkLaws.ClosedNeverChanges | docs/sdd/aar-rlm-native-workbench-v2/generate_contracts.py:2494-2500 | settled truth is never overwritten: no run changes a closed ticket in any field |
| CallerWorkLaws.RevisionNamesOneVersion | src/aar/runtime/caller_work.py:1212-1267 | revisions never go back, and a ticket with the same revision is the same ticket |
| CallerWorkLaws.MarkedSendIsFrozen | src/aar/runtime/caller_work.py:407-462 | once a send is marked, no run unmarks it or gives it another claimant, attempt, key or time |
| CallerWorkLaws.StaleCallIsInert | src/aar/runtime/caller_work.py:1212-1267 | a call that expects another revision than the current one changes nothing |
| CallerWorkLaws.OneWinnerPerRevision | docs/sdd/aar-rlm-native-workbench-v2/generate_contracts.py:2508-2514 | of all calls that expect one revision of a ticket, at most one ever changes anything |
| CallerWorkLaws.AtMostOneSendStart | docs/sdd/aar-rlm-native-workbench-v2/generate_contracts.py:2473-2486 | over any run a ticket gets at most one send start, and one exactly when it becomes marked |
| CallerWorkLaws.CancelledBeforeSendIsUnsent | docs/sdd/aar-rlm-native-workbench-v2/generate_contracts.py:2536-2542 | a ticket cancelled before its send is never started and never gets a receipt, in any run |
| CallerWorkVerdicts.CancelAndSendExclude | docs/sdd/aar-rlm-native-workbench-v2/generate_contracts.py:2536-2549 | after an effective cancellation no send start of the ticket ever takes effect, and the other way round |
| CallerWorkVerdicts.SuccessIsRecorded | src/aar/runtime/caller_work.py:1163-1192 | every keyed call that succeeds leaves a record of its command and its answer |
| CallerWorkVerdicts.ReplayGivesTheFirstAnswer | src/aar/runtime/caller_work.py:1119-1161 | after any run, repeating the command returns the first answer and changes nothing, except a successful model commit that ended in quarantine, which is refused |
| CallerWorkVerdicts.ChangedPayloadIsRefused | docs/sdd/aar-rlm-native-workbench-v2/generate_contracts.py:2529-2535 | after any run, another command under the same key of the same operation is refused |
| CallerWorkVerdicts.ClosingVerdict | src/aar/runtime/caller_work.py:912-991 | a ticket quarantines exactly when the receipts of its attempt disagree; otherwise it settles by the receipt forwarded, as a success exactly when that reports one |
| CallerWorkVerdicts.CancelledCertainIsUnreachable | src/aar/runtime/caller_work.py:912-991 | no run closes a ticket as certainly cancelled |
| CallerWorkVerdicts.SettledTruthIsTheReceipt | src/aar/runtime/caller_work.py:912-991 | in every reachable state a settled ticket names a kept receipt of its own attempt, agrees with it, and its suspension no longer waits |
| CallerWorkVerdicts.SuccessorExactlyWhenContinuing | src/aar/runtime/caller_work.py:994-1117 | closing queues a successor exactly when the operation may continue, with the job and its control moved on together, and otherwise touches neither |
| CallerWorkSuspensions.ClosingEndsTheSuspension | src/aar/runtime/caller_work.py:994-1029 | a call that closes its ticket leaves the suspension settled exactly for a success or failure, parked exactly for a quarantine and cancelled otherwise, at the time of the closing; no other suspension changes, and none in a call that closes nothing |
| CallerWorkSuspensions.ClosedTicketsEndTheirSuspensions | src/aar/runtime/caller_work.py:994-1029 | in every registry a run reaches a ticket closed as success or failure has a settled suspension with the ticket's own time, and a quarantined one a parked suspension |
| CallerWorkOutcomes.RowsHaveTheirShape | src/aar/runtime/assets/migration-v6.sql:108-223 | in every registry a run reaches each row has exactly what its state demands, no two rows share an attempt, and the fence of a claim is drawn from the claim |
| CallerWorkOutcomes.SuccessNeedsItsFences | src/aar/runtime/caller_work.py:1212-1267 | a new fenced call that succeeds names every row as it is; so none succeeds once the operation or its job is cancelled or the suspension no longer waits |
| CallerWorkOutcomes.ClaimSucceedsExactly | src/aar/runtime/caller_work.py:304-366 | when a new claim succeeds, by the rows, and the reservation it then writes |
| CallerWorkOutcomes.ClaimDrawsTheKey | src/aar/runtime/caller_work.py:304-366 | the key a claim gives its attempt for the outside is a prefix and the first 48 characters of the ticket's digest, without the digest's own prefix |
| CallerWorkOutcomes.MarkSucceedsExactly | src/aar/runtime/caller_work.py:407-462 | when a new send mark succeeds, and what it marks |
| CallerWorkOutcomes.CancelSucceedsExactly | src/aar/runtime/caller_work.py:464-518 | when a new cancellation succeeds, and how it closes the ticket |
| CallerWorkOutcomes.CommitTold | src/aar/runtime/caller_work.py:566-600 | when a new commit succeeds, by the rows, and the receipt it keeps |
| CallerWorkOutcomes.ReportsDecide | src/aar/runtime/caller_work.py:912-991 | a sole receipt makes its ticket a success for a success, certainly cancelled for two words no schema lists, and a failure for everything else |
| CallerWorkOutcomes.AppendSucceedsExactly | src/aar/runtime/caller_work.py:718-740 | when a late receipt is kept |
| CallerWorkOutcomes.SettleSucceedsExactly | src/aar/runtime/caller_work.py:792-854 | when a new settlement of a kept receipt succeeds |
| CallerWorkOutcomes.ReconcileSucceedsExactly | src/aar/runtime/caller_work.py:602-716 | for each of the four actions, when a new reconciliation succeeds and what it leaves |
| CallerWorkOutcomes.AppendModelSucceedsExactly | src/aar/runtime/caller_work.py:742-776 | when a late model receipt is kept, and that its evidence is journalled under the attempt's own key |
| CallerWorkConstraints.ClaimFits | src/aar/runtime/caller_work.py:304-366 | past its fences a claim succeeds exactly on a pending ticket before its deadline with an attempt identifier no other ticket has, and the tables refuse it exactly when only the identifier is taken |
| CallerWorkConstraints.SettlementFits | src/aar/runtime/assets/migration-v6.sql:108-223 | a settlement is refused by the tables exactly when a single rival reports success without a send time, and its model journal agrees |
| CallerWorkConstraints.ConstraintsFireExactly | src/aar/runtime/assets/migration-v6.sql:108-223 | on a sound registry the tables refuse a call, ticket creation included, if and only if it creates a ticket its suspension does not await in an open shape, claims with a taken attempt identifier, or passes every guard and would settle a sole success without a send time |
| CallerWorkExamples.UntimedSuccessIsRefused | src/aar/runtime/assets/migration-v6.sql:108-223 | creating, claiming and marking one ticket reaches a registry where such a commit is refused |
| CallerWorkAuthority.CallerIsNotCompared | src/aar/runtime/caller_work.py:407-600 | of the repository alone: marking, cancelling before the send and committing do the same for every caller, as long as the key answered nothing yet |
| CallerWorkAuthority.CommitSucceedsExactly | src/aar/runtime/caller_work.py:566-600 | for every sound registry, a commit under a new key succeeds if and only if its observation and response are accepted, its fences hold, claim id, claim fence, attempt and marked request are those of the row, and its receipt can land |
| CallerWorkAuthority.CommitNeedsTheClaim | src/aar/runtime/caller_work.py:1316-1323 | a commit that changes anything names the claim, the fence, the attempt, the adapter and the generation of the row |
| CallerWorkAuthority.ForeignGenerationIsInert | docs/sdd/aar-rlm-native-workbench-v2/generate_contracts.py:2515-2521 | a commit of another adapter generation leaves the whole registry as it was |
| CallerWorkEntryLaws.ServedRunsAreRuns | src/aar/mcp/server.py:860-885 | whatever is requested, called by the runtime itself, admitted or restarted, the tables go through a run of the repository, so every law of such runs holds of what is served |
| CallerWorkEntryLaws.ClaimantIsTheOperations | src/aar/mcp/server.py:622-635 | in every state serving reaches from empty tables, a claim is held by the principal and session its ticket's operation was admitted for, for an adapter of the current generation or an earlier one |
| CallerWorkEntryLaws.OnlyTheOperationsCallerChanges | src/aar/mcp/server.py:723-773 | a request of any kind that changes anything comes from the principal and session its ticket's operation was admitted for, in the current generation, before the admitted deadline, with the admitted grants and within the admitted budget |
| CallerWorkEntryLaws.ForeignRequestIsInert | docs/sdd/aar-rlm-native-workbench-v2/generate_contracts.py:2515-2521 | in every state serving reaches from empty tables, a request for a claimed ticket by another principal or session, of another runtime generation, or a commit under a fence of another adapter generation, is rejected and changes nothing |
| CallerWorkEntryLaws.EarlierGenerationIsFenced | src/aar/mcp/server.py:478-489 | once the runtime is at a generation, no later state of any run accepts or acts on a request of an earlier one |
| CallerWorkEntryLaws.NothingIsServedAfterTheDeadline | src/aar/mcp/server.py:723-735 | from the admitted deadline of its operation on, no request changes anything for a ticket, in any later state of any run |
| CallerWorkEntryLaws.ServedCommitSucceedsExactly | src/aar/mcp/server.py:860-885 | a served commit under a new key succeeds if and only if its context is entitled by the admission of its ticket's own operation, the session authority confirms its grants, and the repository's own conditions hold |
| CallerWorkEntryLaws.EntitledRequestsReachTheRepository | src/aar/mcp/server.py:829-885 | the five kinds of command there is a tool for reach the repository as they are once entitled and confirmed, a claim for its current adapter; no other kind does anything |
| CallerWorkEntryLaws.ServedClaimSucceedsExactly | src/aar/mcp/server.py:838-885 | a served claim under a new key succeeds if and only if it is entitled and confirmed, the published row for the ticket's request names its adapter in the current generation, and the repository's own conditions hold |
| CallerWorkServer.Server.AssertWorkbenchOperationBinding | src/aar/mcp/server.py:723-773 | it passes exactly the contexts the admitted request entitles, and otherwise names the first check that fails |
| CallerWorkServer.Server.AssertCurrentClaimAdapter | src/aar/mcp/server.py:838-857 | a claim passes exactly when its adapter and generation are those of the published row for the ticket's request, in the current generation |
| CallerWorkServer.Server.RunCallerWorkCommand | src/aar/mcp/server.py:860-885 | the five commands: a denied request never reaches the repository, the others get its answer, success entails entitlement, and the invariant on claimants and records is kept |
| CallerWorkExamples.TheEntryStopsTheStranger | src/aar/mcp/server.py:622-635 | in a service that three events reach, the owner's commit succeeds, and the same commit of a stranger is denied although the repository by itself would settle the ticket |
| CallerWorkExamples.CertainCancellationSettlesAsFailure | src/aar/runtime/caller_work.py:912-991 | three calls reach a registry where a child's report of a certain cancellation settles the ticket as a failure |
| CallerWorkExamples.ReplayOfQuarantinedIsRefused | src/aar/runtime/caller_work.py:566-600 | four calls reach a registry where a model commit quarantines the ticket and its replay is refused |
| CallerWorkRepository.Repository.ClaimTicket | src/aar/runtime/caller_work.py:304-366 | the transaction does what the claim command specifies, a refusal restores every table, and a sound registry stays sound and only moves forward; the last is part of every public method below |
| CallerWorkRepository.Repository.MarkSendStarted | src/aar/runtime/caller_work.py:407-462 | likewise for the send mark, with its fences on control, cancellation, suspension and deadline |
| CallerWorkRepository.Repository.CancelBeforeSend | src/aar/runtime/caller_work.py:464-518 | likewise for the cancellation, which also projects the closed ticket |
| CallerWorkRepository.Repository.Commit | src/aar/runtime/caller_work.py:566-600 | likewise for the commit: journal, replay, receipt, settlement and record; a ticket it closes ends its suspension as settled or parked at the time of the commit |
| CallerWorkRepository.Repository.Reconcile | src/aar/runtime/caller_work.py:602-716 | likewise for the four reconciling actions |
| CallerWorkRepository.Repository.SettleCandidate | src/aar/runtime/caller_work.py:792-854 | likewise for the settlement of a kept receipt |
| CallerWorkRepository.Repository.ReclaimExpired | src/aar/runtime/caller_work.py:368-405 | on a sound registry it succeeds exactly on an expired reservation of the claim and fence named, and then frees that row at the next revision and touches no other |
| CallerWorkRepository.Repository.RequestCancel | src/aar/runtime/caller_work.py:520-544 | on a sound registry it succeeds exactly at the named revision of a started or unknown send, and then changes the state of that row and nothing else |
| CallerWorkRepository.Repository.MarkOutcomeUnknown | src/aar/runtime/caller_work.py:546-564 | likewise for the unknown outcome, which moves the revision only the first time |
| CallerWorkRepository.Repository.AppendCandidateReceipt | src/aar/runtime/caller_work.py:718-740 | a late receipt is kept exactly when it binds the marked send of its ticket; it then counts among the rivals of that attempt, and no row of another table changes; the flag says whether it was already kept |
| CallerWorkRepository.Repository.AppendModelCandidateReceipt | src/aar/runtime/caller_work.py:742-776 | likewise, the typed evidence and the receipt being kept together or not at all |
| CallerWorkRepository.Repository.CreateTicket | src/aar/runtime/caller_work.py:243-298 | on a sound registry it succeeds exactly for the ticket already there or for a new one that its suspension awaits in an open shape, and then adds that row, unclaimed, and nothing else |
| CallerWorkRepository.Repository.ApplyCandidateSettlement | src/aar/runtime/caller_work.py:912-991 | the settlement closes or quarantines the row and projects it as specified, and leaves every other ticket, suspension, outbox entry, job and control and the remaining tables as they were |
| CallerWorkRepository.Repository.ProjectTerminal | src/aar/runtime/caller_work.py:994-1117 | the projection ends the waiting suspension, settled for a success or failure, parked for a quarantine and cancelled otherwise, and writes outbox entry, job and control as specified and no other row, or reports the error |
| RebindLaws.RunsStaySound | src/aar/runtime/registry.py:3366-5777 | every transfer agrees with the authority and its outbox in every state a run reaches, with crashes and other components' writes |
| RebindLaws.HandOverIsAtomic | docs/sdd/aar-rlm-native-workbench-v2/verify_registry_v5_migration.py:575-698 | in every reachable state: the outbox is consumed exactly when the transfer is no longer prepared; the transfer took effect exactly when its outbox is consumed and it was not aborted; before, the predecessor's attempt and fence hold, after, the successor's |
| RebindLaws.GenerationNamesOneAuthority | src/aar/runtime/registry.py:5133-5385 | the authority's generation never falls, and one generation never names two attempts, fences or tokens |
| RebindLaws.TransferFateIsFinal | docs/sdd/aar-rlm-native-workbench-v2/verify_registry_v5_migration.py:575-698 | a committed transfer is never aborted or prepared again; an aborted or consumed one never changes |
| RebindLaws.PredecessorUntilCommit | docs/sdd/aar-rlm-native-workbench-v2/verify_registry_v5_migration.py:575-698 | in every reachable state, while a transfer is only prepared the authority does not carry its token, at the generation it was prepared from the predecessor holds it, and the one step that makes the transfer take effect is a commit of it by its live successor before the deadline |
| RebindLaws.OvertakenNeverCommits | src/aar/runtime/registry.py:5133-5385 | once the authority has passed the generation a transfer was prepared at, no later state of any run accepts its commit from anyone |
| RebindLaws.AckAndLossExclude | src/aar/runtime/registry.py:5387-5651 | a transfer is consumed once: after a loss no acknowledgement is accepted, after an acknowledgement no loss and no other acknowledgement |
| RebindLaws.LossBeforeCommitConsumesTheOutbox | src/aar/runtime/registry.py:5480-5651 | losing the worker of a prepared transfer aborts it, leaves the predecessor in authority and still consumes the outbox |
| RebindExamples.LossBeforeCommitIsReached | src/aar/runtime/registry.py:5480-5651 | a run from an empty state prepares a transfer and loses its worker: the transfer ends aborted, its outbox consumed and the predecessor in authority |
| RebindLaws.RecoveryBindsOnce | src/aar/runtime/registry.py:5653-5777 | once a recovery is bound for a lost transfer, none is bound again in any run |
| RebindLaws.PreparedCommits | src/aar/runtime/registry.py:3366-3582 | a transfer just prepared commits in time, and the successor then holds the next generation |
| RebindOutcomes.PrepareSucceedsExactly | src/aar/runtime/registry.py:3366-3582 | a preparation succeeds exactly when one outbox is pending, the job is woken, predecessor and successor are ready and the outbox carries its ticket's settlement; the token binds all of it |
| RebindOutcomes.PrepareNeedsOnePending | src/aar/runtime/registry.py:3366-3420 | without exactly one pending outbox nothing is prepared |
| RebindOutcomes.CommitSucceedsExactly | src/aar/runtime/registry.py:5133-5385 | when a prepared transfer commits, by the rows, and the six rows that then move together |
| RebindOutcomes.CommitAgainExactly | src/aar/runtime/registry.py:5133-5385 | a repeated commit changes nothing and is accepted exactly while what it brought about stands; an aborted or lost transfer never commits |
| RebindOutcomes.AcknowledgeSucceedsExactly | src/aar/runtime/registry.py:5387-5478 | when an acknowledgement succeeds, first and again |
| RebindOutcomes.FirstLossExactly | src/aar/runtime/registry.py:5480-5651 | when the first loss of a transfer's worker is accepted |
| RebindOutcomes.LossAgainExactly | src/aar/runtime/registry.py:5480-5651 | a repeated loss changes nothing and is accepted exactly on the workspace the first one left |
| RebindOutcomes.LossIsRecoverable | src/aar/runtime/registry.py:5480-5777 | after that loss a live attempt other than the authority's binds the recovery on the restored workspace, the authority being at the generation the transfer left it |
| RebindOutcomes.RecoverySucceedsExactly | src/aar/runtime/registry.py:5653-5777 | when a recovery is bound, and the authority it writes |
| RebindOutcomes.CancelSucceedsExactly | src/aar/runtime/registry.py:4096-4279 | a queued or parked operation at rest closes every open cell, waiting suspension, prepared transfer and its outbox once its control is cancelled and unless its job has ended; any other is left alone |
| RebindOutcomes.NothingStaysOpen | src/aar/runtime/registry.py:4096-4279 | after a cancellation that closes, no cell is open, no suspension waits, and no outbox or transfer is prepared |
| RebindStore.Store.PrepareSuccessor | src/aar/runtime/registry.py:3366-3582 | the transaction does what the specification of a preparation says, or leaves the rows alone, and a sound registry stays sound and only moves forward; the last is part of every public method below |
| RebindStore.Store.CommitRebind | src/aar/runtime/registry.py:5133-5385 | with a process that may die after any of the six writes: all of them happen, or none |
| RebindStore.Store.AcknowledgeRebind | src/aar/runtime/registry.py:5387-5478 | success means that the live successor, holding the authority under this very token, sealed the content; the transfer is then consumed by that acknowledgement and no other row changes |
| RebindStore.Store.MarkLost | src/aar/runtime/registry.py:5480-5651 | the first loss leaves the cell lost, the job running on the restored workspace, the transfer consumed or aborted and the outbox spent, and nothing else changed; a repeated one changes nothing |
| RebindStore.Store.BindRecoveryAuthority | src/aar/runtime/registry.py:5653-5777 | success means that a lost transfer left the authority to another attempt, which holds it at the next generation, without a token, on the restored workspace; no other row changes |
| RebindStore.Store.CancelQueuedDispatch | src/aar/runtime/registry.py:4096-4279 | a cancellation closes job, cells, suspensions, outboxes and transfers together, or changes nothing |
| CutoverLedger.Validate | docs/sdd/aar-rlm-native-workbench-v2/verify_registry_v5_migration.py:127-169 | a ledger is accepted exactly when every entry links to the one before, times never fall, the states are one of the two allowed paths and the head is the last digest; each refusal names the first fault |
| CutoverLedger.HeadCommitsToHistory | docs/sdd/aar-rlm-native-workbench-v2/verify_registry_v5_migration.py:127-169 | two chains of any lengths with one head digest are the same list of events |
| CutoverLedger.HeadDeterminesLedger | docs/sdd/aar-rlm-native-workbench-v2/verify_registry_v5_migration.py:127-169 | two accepted ledgers with one head digest hold the same events and the same epoch |
| CutoverLedger.TimesNeverDecrease | docs/sdd/aar-rlm-native-workbench-v2/verify_registry_v5_migration.py:127-169 | between any two entries of an accepted ledger time does not go back |
| CutoverLedger.WriteOrRollback | docs/sdd/aar-rlm-native-workbench-v2/verify_registry_v5_migration.py:127-169 | an accepted ledger reports a rollback exactly when it reports no write after the snapshot |
| CutoverLedger.AcceptedByTheFields | docs/sdd/aar-rlm-native-workbench-v2/verify_registry_v5_migration.py:127-169 | a ledger is accepted if and only if every entry is sealed, numbered, linked, of the ledger's epoch and in time, the states read prepared, candidate active, and then a rollback before any write or a write after the snapshot and a forward retirement, and the head is the last digest |
| CutoverLedger.BuiltIsAccepted | docs/sdd/aar-rlm-native-workbench-v2/verify_registry_v5_migration.py:100-124 | what the builder writes along an allowed path, at times that never fall, is accepted |
| CutoverLedger.FirstTimes | docs/sdd/aar-rlm-native-workbench-v2/verify_registry_v5_migration.py:127-169 | some accepted ledger begins at a time if and only if the time is at least -1 |
| LauncherLaws.RunKeepsSound | src/aar/compat/codex_mcp.py:112-354 | the invariant of lock, reads and children holds after every interleaving |
| LauncherLaws.OneLauncherInside | src/aar/compat/codex_mcp.py:143-178 | in every reachable state at most one launcher holds the lock, and at most one has a child it is responsible for |
| LauncherLaws.StrayExactlyWhenLeaked | src/aar/compat/codex_mcp.py:191-354 | a step leaves a live spawned child that is neither published nor inside a critical section exactly when it is a bind failure, a reap given up, an interrupt that nothing catches or a death, of a launcher with such a child |
| LauncherLaws.OneLiveOwner | src/aar/compat/codex_mcp.py:260-354 | in every run without such a step at most one spawned child is alive outside a critical section, and it is the published one |
| LauncherLaws.TakenOverIsLive | src/aar/compat/codex_mcp.py:112-128 | what a launcher accepts is alive and published at that moment, and of the expected version unless the launcher has spawned a child |
| LauncherOutcomes.OwnerBeforeSpawn | src/aar/compat/codex_mcp.py:288-306 | before any spawn a live owner of the expected version is returned, outside the lock at once and inside it on release; one of another version, or that cannot be observed, fails the call; none leads on to the lock or the spawn |
| LauncherOutcomes.OwnerAfterSpawn | src/aar/compat/codex_mcp.py:260-269 | after a spawn a live owner of any version is accepted, the launcher's own child at once and another once the child is reaped; without one polling goes on while the child lives |
| LauncherOutcomes.ReapingEndsTheChild | src/aar/compat/codex_mcp.py:251-269 | a reap ends the child, and the lock is then released with what was accepted before it, if anything |
| LauncherOutcomes.PublishedOwnerIsReturned | src/aar/compat/codex_mcp.py:288-306 | a published owner of the expected version that lives through the look is what the launcher returns, whatever others do meanwhile |
| LauncherOutcomes.OwnChildIsReturned | src/aar/compat/codex_mcp.py:313-340 | so is the launcher's own child once it has published itself |
| LauncherOutcomes.PublishesItself | src/aar/runtime/supervisor.py:214-265 | a live supervisor publishes itself once no other publisher lives, and otherwise nothing changes |
| LauncherLaws.OtherVersionIsAcceptedAfterSpawn | src/aar/compat/codex_mcp.py:260-269 | from every fresh state without a publisher a run leads to a launcher that has spawned and accepts a live owner of another version |
| LauncherLaws.BindFailuresPileUp | src/aar/compat/codex_mcp.py:191-246 | from every fresh state without a publisher two launchers whose binds fail leave two live children behind, no owner and the lock free |
| LauncherLaws.InterruptLeavesChild | src/aar/compat/codex_mcp.py:300-316 | from every such state an interrupt between the spawn and the polling loop leaves a live child behind and the lock free |
| LauncherProgram.Program.Ensure | src/aar/compat/codex_mcp.py:272-354 | whatever the others do, a launcher ends with an owner or a failure and without the lock; a live owner its first look finds is returned if it is of the expected version and refused otherwise; no stray is left when no step of the run leaked one |
| LauncherProgram.Program.AwaitReady | src/aar/compat/codex_mcp.py:313-354 | the polling loop and the last look end with an accepted owner or a failure, the child being handed over or reaped |
| LauncherProgram.Program.LoadDiscovery | src/aar/compat/codex_mcp.py:112-128 | it reports an owner exactly when the record read names a process that is observed alive, and nobody exactly when there is no record or its process is gone; the launcher then ends, fails or goes on as the version says |
| FileTree.MovedIsWellFormed | src/aar/provider_ready_contract_generator.py:1382-1385 | a rename to a free place keeps every entry under a directory |
| StagedInstall.Disk.RemoveOwned | src/aar/provider_ready_contract_generator.py:1332-1342 | removal takes away exactly what lies at or below the path |
| ProviderReadyInstall.EnsureParent | src/aar/provider_ready_contract_generator.py:1345-1355 | the missing directories on the way are made, top down, and those made are listed even when a step fails |
| ProviderReadyInstall.StageAssets | src/aar/provider_ready_contract_generator.py:1366-1377 | staging touches only the stage, and holds exactly the assets when it gets through |
| ProviderReadyInstall.StageRemovedOnly | src/aar/provider_ready_contract_generator.py:1394-1396 | when only the stage is removed the tree is as before if and only if nothing was made or installed |
| ProviderReadyContract.CleanUp | src/aar/provider_ready_contract_generator.py:1386-1396 | the exception handler gives back the starting tree, wherever the attempt stopped |
| ProviderReadyContract.Preflight | src/aar/provider_ready_contract_generator.py:1298-1329 | the preflight passes exactly when no target exists, no name collides under case folding and no parent is a file or link |
| ProviderReadyContract.Generate | src/aar/provider_ready_contract_generator.py:1358-1396 | for a fault at any operation: refused or raised leaves the tree as it was; installed means exactly the assets at the targets and nothing else new but their parents; an interrupt leaves the tree as it was exactly when it comes no later than the first operation after staging |
| ProviderReadyContract.Verify | src/aar/provider_ready_contract_generator.py:1399-1438 | verification succeeds exactly when the targets hold the assets, byte for byte, and nothing more: so it succeeds after every install |
| ProviderReadyContract.FinishedOnlyAdds | src/aar/provider_ready_contract_generator.py:1358-1396 | all that is new in a finished tree is on the way to a target or below one |
| ContractFiles.ExactlyTheAssets | src/aar/provider_ready_contract_generator.py:1358-1438 | a tree is exact, as generation leaves it and verification asks, if and only if the schema bundle and every fixture are at their named places byte for byte, the two case directories are there, and below the fixture directory there is nothing else |

## Left out

- SHA-256, UTF-8 bytes and lone surrogates: digests are symbolic and texts are code points.
- Python's limit on the digits of an integer, and the non-ASCII digits and spaces `int(token)` takes.
- Floats, such as a frozen bound written as 60000.0, and Python's equality of `True` and `1`.
- The writes of `_pointer_set`, and the dictionaries `compile_node` assigns into, are on values: sharing of one nested object between two places is not captured.
- Validators that a tuple is sorted and free of duplicates: such tuples are sets, and rows are maps, so iteration order is not captured.
- The digest of a whole asset bundle, and the fields of manifests that no rule reads.
- `re.compile` beside the profile's own parser, and `Draft202012Validator.check_schema`.
- CompilingLoosens: a keyword not interpreted here may look at its value, at its uninterpreted neighbours, at the names in `properties` and at the definitions it leads to; `unevaluatedProperties` and `unevaluatedItems`, which look at more, do not occur in the contracts; which patterns match a name is a parameter.
- BundlesAgree: stated for a root without a `$defs` of its own, which would stand in for the missing ones; `BundlingCommutes` has no such condition.
- Caller work: one clock reading a command; the eleven claim columns are two optional records; of a caller's context what the entry or the repository reads is told apart and the rest is one text; method, contract and owner of a ticket are part of its request digest; the typed evidence of a model response is one string; the kind of source of a receipt.
- The entry: what the session authority answers for a request's grants is a parameter, the published method rows are a map by request digest, and the schemas of its inputs and the other tools are left out.
- Checks for corruption of stored replays, the settlement notification handler and the dispatcher around the repository.
- Rebind: the path that plans a successor and the other writers of the authority are steps of other components, of which only what they may never write is known; row timestamps are left out.
- Launcher: process, signal and lock primitives; a process identity is never used twice, and a supervisor publishes only itself and never over a live publisher.
- Generate: cleanup operations are taken to succeed, and an interrupt between an operation and the note that it happened is not modelled; the root is a directory and links are not followed.
- The limits on the depth and the number of nodes of a schema, and the rest of the schema profile.
- Pydantic field patterns, per-state nullability tables, evaluation tiers, command lines, the migration registry and the materializer: finite cases, each settled by reading one branch.
