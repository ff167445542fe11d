# LegalBot intake dialog, modelled in Dafny

This project models the intake conversation of LegalBot's `UserProfileDialog`.
The dialog is a ten-step waterfall: Language, Name, NameConfirm, County,
Subcounty, Ward, Summary, MainMenu, SubMenu, ChooseAction. Every step after
Language, except County, stores the reply to the previous prompt in the
dialog's `Values` dictionary under one key (`Steps.WrittenKey`). A step then
branches on the stored language and hands a prompt to a prompt dialog:
the text, the choice list and the id of the prompt dialog that should show it.
The Summary step also copies five collected values into the user's
`UserProfile`.

Layout, one module per file:

- `options.dfy` (`Options`): `Option`. `None` stands for C# `null`.
- `counties.dfy` (`Counties`): the `County` record and the `FirstOrDefault`
  lookup by exact name.
- `user_profile.dfy` (`Profiles`): the five-property `UserProfile` record.
- `steps.dfy` (`Steps`): the step table, its order, the key each step stores
  and the keys each step reads.
- `localization.dfy` (`Localization`): every prompt text in Kiswahili and
  English, taken from the literals in the step methods.
- `prompts.dfy` (`Prompts`): what a step hands over (`Prompt`, `Turn`), the
  adaptive card with its submit actions, and the registered dialog ids.
- `intake.dfy` (`Intake`): `Respond`, the turn each step produces from the
  values after its store, and the lemmas about those turns (`TurnShape` states
  their common shape).
- `dialog.dfy` (`Dialog`): the class `UserProfileDialog`. Its fields are the
  waterfall cursor, the `values` map, the profile and the county list. It has
  one method per waterfall step, plus client methods that run an intake.

The ordering contract is assumed, not verified. The Bot Framework calls step
*i+1* with step *i*'s reply. In the model, each step method requires
`step == Position(<its step>)`, and the caller passes the reply in. The
framework classes that enforce this order are not part of this model.

Behaviour of the code worth noting, which the model reproduces:

- The County step uses a `TextPrompt` with no validator. Any text is accepted
  and stored. There is no check against the reference data and no retry loop.
  The retry text is attached to the prompt, but no text reply triggers it.
- An unknown county does not re-prompt. The sub-county step dereferences
  `null` and throws. The model returns `Failed(NullReference)`, after the
  county text has been stored.
- ChooseAction is not localized. Its card and its " Go back" text are the same
  in both languages.
- Any other sub-menu reply does not loop back to a registered prompt. The step
  sends " Go back" to the id `UserProfileDialog.chooseAction`, and the
  component never registers that id.
- The language is stored as text, not as a two-valued enumeration. Only the
  exact text "Kiswahili" selects Kiswahili. Every other value selects English.
- The profile's name is written again by MainMenu and SubMenu, from the stored
  name, so it is not written only once.

## Model

| member | source | states |
|---|---|---|
| `Counties.FirstIndex` | Dialogs/UserProfileDialog.cs:168 | None exactly when no county's name equals the text; otherwise the index of the first county whose name equals it exactly (case-sensitive) |
| `Counties.FindByName` | Dialogs/UserProfileDialog.cs:168 | `FirstOrDefault`: None (the source's `null`) exactly when no county has that name; otherwise the county at the first matching index |
| `Counties.FirstMatchIsFound` | Dialogs/UserProfileDialog.cs:168 | whenever index `i` is the first county with that name, the lookup returns `counties[i]` |
| `Steps.Position` | Dialogs/UserProfileDialog.cs:58-70 | the waterfall has ten steps in a fixed order; each step occurs exactly once, at one position |
| `Steps.KeysWrittenAccumulate` | Dialogs/UserProfileDialog.cs:100-327 | before the first step nothing is stored; after each step, the stored keys are those before it plus the one key that step writes |
| `Steps.ReadsFollowWrites` | Dialogs/UserProfileDialog.cs:100-327 | run in order, every key a step reads has already been stored by that step or an earlier one, so no lookup of `Values` misses |
| `Localization.TranslationsDiffer` | Dialogs/UserProfileDialog.cs:101-319 | for every localized step and every name, the Kiswahili text differs from the English one |
| `Localization.PhraseMentionsName` | Dialogs/UserProfileDialog.cs:124-283 | the thank-you, the summary and the main-menu texts contain the name, in both languages |
| `Localization.CountyRetryIsDistinct` | Dialogs/UserProfileDialog.cs:141-160 | the County step's retry text differs from its prompt text, in both languages |
| `Prompts.SubmitActions` | Dialogs/UserProfileDialog.cs:338-343 | the `Select` builds one submit action per choice, in order, each titled by its choice and posting the same data |
| `Prompts.TitlesOfSubmitActions` | Dialogs/UserProfileDialog.cs:332-343 | reading the titles back from the actions gives the choices they were built from |
| `Intake.TurnShape` | Dialogs/UserProfileDialog.cs:83-384 | only NameConfirm sends a message and moves on; only Subcounty can fail, exactly when the lookup finds no county; localized steps show the text of the stored language; only Name and County use the text prompt; only County has a retry text; only ChooseAction, for a reply other than the news item, targets an unregistered dialog |
| `Intake.LanguageGovernsPrompts` | Dialogs/UserProfileDialog.cs:101-319 | every step after Language except ChooseAction shows the Kiswahili text exactly when the stored language is "Kiswahili", and the English text for any other value |
| `Intake.OfferedChoices` | Dialogs/UserProfileDialog.cs:93-318 | Language offers ["English","Kiswahili"]; Ward offers ["Sub 1","ub"] and MainMenu the six topics in either language; Summary offers MAIN MENU with RUDI NYUMA or GO BACK, by language; SubMenu offers the news item |
| `Intake.SubcountyChoices` | Dialogs/UserProfileDialog.cs:164-189 | the sub-county step fails exactly when no county has the stored name; otherwise it offers the sub-counties of the first county with that name |
| `Intake.GreetsByName` | Dialogs/UserProfileDialog.cs:124-283 | the NameConfirm, Summary and MainMenu texts contain the stored name |
| `Intake.MenuRepliesIgnored` | Dialogs/UserProfileDialog.cs:259-322 | MainMenu and SubMenu produce the same turn whatever reply they store under "mainMenu" |
| `Intake.ChooseActionIgnoresLanguage` | Dialogs/UserProfileDialog.cs:325-384 | the last step's turn does not depend on the stored language |
| `Intake.NewsCardMatchesChoices` | Dialogs/UserProfileDialog.cs:329-366 | for "LATEST LEGAL NEWS", the step sends a card to the registered choice prompt; the choices are ["Links to legal news","Go back"], the card's action titles equal them in order, and every action posts the same link |
| `Intake.OtherSubMenuReplyIsUnregistered` | Dialogs/UserProfileDialog.cs:370-377 | for any other sub-menu reply, the step hands " Go back" with no choices to the prompt id `UserProfileDialog.chooseAction`, which is not a registered dialog |
| `Dialog.UserProfileDialog.constructor` | Dialogs/UserProfileDialog.cs:52-81 | a new run starts at the first step with no values; the profile is the one user state holds, or the default `new UserProfile()` with every property unset when it holds none |
| `Dialog.UserProfileDialog.LanguageStep` | Dialogs/UserProfileDialog.cs:83-95 | stores nothing, advances the cursor, and returns the language prompt |
| `Dialog.UserProfileDialog.NameStep` | Dialogs/UserProfileDialog.cs:97-117 | stores the reply under "language" and changes no other key; returns the name prompt |
| `Dialog.UserProfileDialog.NameConfirmStep` | Dialogs/UserProfileDialog.cs:118-136 | stores the reply under "name" and changes no other key; returns the thank-you message and moves on without a prompt |
| `Dialog.UserProfileDialog.CountyStep` | Dialogs/UserProfileDialog.cs:139-162 | stores nothing; returns the free-text county prompt |
| `Dialog.UserProfileDialog.SubcountyStep` | Dialogs/UserProfileDialog.cs:164-189 | stores the reply under "county" and changes no other key; returns the sub-county prompt, or fails without moving the cursor |
| `Dialog.UserProfileDialog.WardStep` | Dialogs/UserProfileDialog.cs:190-212 | stores the reply under "subcounty" and changes no other key; returns the ward prompt |
| `Dialog.UserProfileDialog.SummaryStep` | Dialogs/UserProfileDialog.cs:215-257 | stores the reply under "ward"; the profile's language, name, county, sub-county and ward become the stored values; returns the summary prompt |
| `Dialog.UserProfileDialog.MainMenuStep` | Dialogs/UserProfileDialog.cs:259-289 | stores the reply under "mainMenu"; sets the profile's name from the stored name; returns the main menu |
| `Dialog.UserProfileDialog.SubMenuStep` | Dialogs/UserProfileDialog.cs:292-322 | overwrites "mainMenu" with the reply; sets the profile's name from the stored name; returns the sub-menu |
| `Dialog.UserProfileDialog.ChooseActionStep` | Dialogs/UserProfileDialog.cs:325-384 | stores the reply under "subMenu"; the cursor reaches the end of the waterfall; returns the card or " Go back" turn |
| `Dialog.BeginIntake` | Dialogs/UserProfileDialog.cs:83-162 | after the first four steps, the values are exactly the language and the name, and the county prompt is out |
| `Dialog.Locate` | Dialogs/UserProfileDialog.cs:164-212 | with a known county, the sub-county and ward steps store the county and the sub-county, and the sub-counties offered are that county's |
| `Dialog.SummaryOfAnswers` | Dialogs/UserProfileDialog.cs:215-257 | after the five answers, the summary is in the chosen language, contains the name, and offers that language's two choices |
| `Dialog.CollectProfile` | Dialogs/UserProfileDialog.cs:83-257 | a run from the first prompt to the summary, with a known county, leaves the profile equal to the five replies; the summary names the user in the chosen language |
| `Dialog.UnknownCountyFails` | Dialogs/UserProfileDialog.cs:164-189 | a county text that names no county makes the sub-county step fail; the text is still stored, and the cursor stays at that step |

## Left out

- Bot Framework internals are not modelled. These are how `WaterfallDialog` advances and persists its state, how `ChoicePrompt` and `TextPrompt` match a reply or issue a retry, and how a dialog id is resolved. The step order is a precondition of each step method.
- Reply matching is not modelled. The model takes the matched `FoundChoice.Value`, or the text-prompt reply, as a plain string. A step never checks that the reply was among the offered choices, and neither does the model.
- What the framework does after a step throws is not modelled. This covers the unknown-county failure and the rollback of the turn's state. The model keeps the in-memory store and leaves the cursor at the failing step.
- What happens when the prompt targets the unregistered `UserProfileDialog.chooseAction` id is not modelled. That is framework code.
- `County.GetCounties` is not part of this model. It reads `countiessubcounties.json` and deserialises it, including the `sub_counties` attribute. The county list is an immutable constructor argument.
- The unused `SubCounty` class is not modelled, and neither is the registered but unused `ConfirmPrompt`.
- Async execution, `CancellationToken` and `SendActivityAsync` delivery are left out. The user-state accessor round-trip is also left out. The profile is an in-memory field. The profile already in user state is a constructor argument; when user state holds none, the constructor uses the default profile, as the accessor's `new UserProfile()` factory does.
- Card rendering is reduced to the body texts and the (title, data) submit actions. Left out are the schema version, the JSON conversion with `JObject.FromObject`, the attachment content type and `ListStyle.None`.
- A prompt without a choice list has `null` choices in the source. The model uses the empty list.
