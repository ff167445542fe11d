/** What each waterfall step sends, computed from the dialog values after the
    step has stored its reply, and the properties of those turns. */
module Intake {

  import opened Options
  import opened Steps
  import opened Localization
  import opened Prompts
  import Counties

  const LanguageChoices: seq<string> := ["English", "Kiswahili"]
  const WardChoices: seq<string> := ["Sub 1", "ub"]
  const MenuTopics: seq<string> := ["INFORMATION", "NEWS", "REFERRAL", "SURVEY", "UPDATE PROFILE", "SHARE"]
  const NewsItem := "LATEST LEGAL NEWS"
  const SubMenuItems: seq<string> := [NewsItem]
  const ActionChoices: seq<string> := ["Links to legal news", "Go back"]
  const NewsLink := "https://news.microsoft.com/exec/brad-smith/ot"
  const GoBackText := " Go back"

  /** The prompt id the last step uses for any sub-menu reply other than the news item. */
  const ChooseActionId := "UserProfileDialog.chooseAction"

  /** The two choices after the summary; only the second is translated. */
  function SummaryChoices(l: Lang): seq<string>
  {
    ["MAIN MENU", if l == Kiswahili then "RUDI NYUMA" else "GO BACK"]
  }

  function StoredLang(values: map<string, string>): Lang
    requires "language" in values
  {
    LangOf(values["language"])
  }

  /** The stored name, or "" before the name has been stored. */
  function StoredName(values: map<string, string>): string
  {
    if "name" in values then values["name"] else ""
  }

  /** The card of the news item: a greeting and one button per action choice. */
  function NewsCard(): Card
  {
    Card(["Good Evening"], SubmitActions(ActionChoices, NewsLink))
  }

  function Say(s: Step, values: map<string, string>): Message
    requires s.Localized() && "language" in values
  {
    Text(Phrase(s, StoredLang(values), StoredName(values)))
  }

  /** The turn step `s` produces once it has stored its reply in `values`;
      `counties` is the reference data. */
  function Respond(s: Step, values: map<string, string>, counties: seq<Counties.County>): Turn
    requires ReadKeys(s) <= values.Keys
  {
    match s
    case Language =>
      Prompted(Prompt(ChoicePromptId, Text(Greeting), None, LanguageChoices))
    case Name =>
      Prompted(Prompt(TextPromptId, Say(s, values), None, []))
    case NameConfirm =>
      SendThenNext(Say(s, values).text)
    case County =>
      Prompted(Prompt(TextPromptId, Say(s, values), Some(CountyRetry(StoredLang(values))), []))
    case Subcounty =>
      var county := Counties.FindByName(counties, values["county"]);
      if county.None? then Failed(NullReference)
      else Prompted(Prompt(ChoicePromptId, Say(s, values), None, county.value.subCounties))
    case Ward =>
      Prompted(Prompt(ChoicePromptId, Say(s, values), None, WardChoices))
    case Summary =>
      Prompted(Prompt(ChoicePromptId, Say(s, values), None, SummaryChoices(StoredLang(values))))
    case MainMenu =>
      Prompted(Prompt(ChoicePromptId, Say(s, values), None, MenuTopics))
    case SubMenu =>
      Prompted(Prompt(ChoicePromptId, Say(s, values), None, SubMenuItems))
    case ChooseAction =>
      if values["subMenu"] == NewsItem then
        Prompted(Prompt(ChoicePromptId, Attachment(NewsCard()), None, ActionChoices))
      else
        Prompted(Prompt(ChooseActionId, Text(GoBackText), None, []))
  }

  /** The shape of every step's turn: only NameConfirm sends a message and moves
      on; only Subcounty can fail, exactly when the county is unknown; localized
      steps show the text of the stored language; only Name and County use the
      text prompt; only County carries a retry text; and only ChooseAction, for
      a reply other than the news item, addresses an unregistered dialog. */
  lemma TurnShape(s: Step, values: map<string, string>, counties: seq<Counties.County>)
    requires ReadKeys(s) <= values.Keys
    ensures var t := Respond(s, values, counties);
      && (t.SendThenNext? <==> s == NameConfirm)
      && (s != Subcounty ==> !t.Failed?)
      && (s == Subcounty ==> (t.Failed? <==> Counties.FindByName(counties, values["county"]).None?))
      && (s.Localized() && !t.Failed? ==> DisplayText(t) == Phrase(s, StoredLang(values), StoredName(values)))
      && ((t.Prompted? && t.prompt.dialogId == TextPromptId) <==> s == Name || s == County)
      && ((t.Prompted? && t.prompt.retry.Some?) <==> s == County)
      && (s == County ==> t.prompt.retry == Some(CountyRetry(StoredLang(values))))
      && ((t.Prompted? && t.prompt.dialogId !in RegisteredDialogs)
          <==> s == ChooseAction && values["subMenu"] != NewsItem)
  {
  }

  /** Every localized step speaks Kiswahili exactly when the stored language is
      "Kiswahili", and English for any other stored value. */
  lemma LanguageGovernsPrompts(s: Step, values: map<string, string>, counties: seq<Counties.County>)
    requires s.Localized() && ReadKeys(s) <= values.Keys
    requires !Respond(s, values, counties).Failed?
    ensures DisplayText(Respond(s, values, counties)) == Phrase(s, Kiswahili, StoredName(values))
            <==> values["language"] == "Kiswahili"
    ensures DisplayText(Respond(s, values, counties)) == Phrase(s, English, StoredName(values))
            <==> values["language"] != "Kiswahili"
  {
    TranslationsDiffer(s, StoredName(values));
  }

  /** The fixed choice lists: the language pair, the two wards and the six menu
      topics whatever the language, and the summary pair in the chosen language. */
  lemma OfferedChoices(values: map<string, string>, counties: seq<Counties.County>)
    ensures Respond(Language, values, counties).prompt.choices == LanguageChoices
    ensures "language" in values ==> Respond(Ward, values, counties).prompt.choices == WardChoices
    ensures ReadKeys(Summary) <= values.Keys ==>
              Respond(Summary, values, counties).prompt.choices == SummaryChoices(StoredLang(values))
    ensures ReadKeys(MainMenu) <= values.Keys ==>
              Respond(MainMenu, values, counties).prompt.choices == MenuTopics
    ensures ReadKeys(SubMenu) <= values.Keys ==>
              Respond(SubMenu, values, counties).prompt.choices == SubMenuItems
  {
  }

  /** The sub-county step offers the sub-counties of the first county whose name
      is exactly the stored county, and fails when no county has that name. */
  lemma SubcountyChoices(values: map<string, string>, counties: seq<Counties.County>)
    requires ReadKeys(Subcounty) <= values.Keys
    ensures Respond(Subcounty, values, counties).Failed?
            <==> forall i :: 0 <= i < |counties| ==> counties[i].name != values["county"]
    ensures forall i :: Counties.IsFirstMatch(counties, values["county"], i) ==>
              && Respond(Subcounty, values, counties).Prompted?
              && Respond(Subcounty, values, counties).prompt.choices == counties[i].subCounties
  {
  }

  /** The acknowledgement, the summary and the main menu all carry the stored name. */
  lemma GreetsByName(s: Step, values: map<string, string>, counties: seq<Counties.County>)
    requires UsesName(s) && ReadKeys(s) <= values.Keys
    ensures Mentions(DisplayText(Respond(s, values, counties)), values["name"])
  {
    PhraseMentionsName(s, StoredLang(values), values["name"]);
  }

  /** Neither menu step branches on the reply it stores: the summary's MAIN MENU or
      GO BACK, and the topic picked from the main menu, lead to the same turn. */
  lemma MenuRepliesIgnored(values: map<string, string>, counties: seq<Counties.County>, a: string, b: string)
    requires ReadKeys(MainMenu) <= values.Keys
    ensures Respond(MainMenu, values["mainMenu" := a], counties) == Respond(MainMenu, values["mainMenu" := b], counties)
    ensures Respond(SubMenu, values["mainMenu" := a], counties) == Respond(SubMenu, values["mainMenu" := b], counties)
  {
  }

  /** The last step does not consult the stored language: its card and its
      " Go back" text are the same in both languages. */
  lemma ChooseActionIgnoresLanguage(values: map<string, string>, counties: seq<Counties.County>, l: string)
    requires "subMenu" in values
    ensures Respond(ChooseAction, values["language" := l], counties) == Respond(ChooseAction, values, counties)
  {
  }

  /** Picking the news item yields a card with one button per offered choice, in
      the same order and all posting the same link, sent to the registered choice prompt. */
  lemma NewsCardMatchesChoices(values: map<string, string>, counties: seq<Counties.County>)
    requires "subMenu" in values && values["subMenu"] == NewsItem
    ensures var t := Respond(ChooseAction, values, counties);
      && t.Prompted? && t.prompt.message.Attachment?
      && t.prompt.dialogId == ChoicePromptId && ChoicePromptId in RegisteredDialogs
      && t.prompt.choices == ActionChoices
      && Titles(t.prompt.message.card.actions) == t.prompt.choices
      && forall a :: a in t.prompt.message.card.actions ==> a.data == NewsLink
  {
    TitlesOfSubmitActions(ActionChoices, NewsLink);
  }

  /** Any other sub-menu reply yields the plain text " Go back", sent to a prompt id
      that the component never registered. */
  lemma OtherSubMenuReplyIsUnregistered(values: map<string, string>, counties: seq<Counties.County>)
    requires "subMenu" in values && values["subMenu"] != NewsItem
    ensures var t := Respond(ChooseAction, values, counties);
      && t.Prompted? && DisplayText(t) == GoBackText && t.prompt.choices == []
      && t.prompt.dialogId == ChooseActionId && ChooseActionId !in RegisteredDialogs
  {
  }
}
