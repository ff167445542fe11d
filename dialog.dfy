/** The intake dialog itself: the waterfall's cursor, the per-dialog values and
    the user's profile, changed in place by one method per waterfall step. */
module Dialog {

  import opened Options
  import opened Steps
  import opened Prompts
  import opened Profiles
  import opened Intake
  import Counties
  import Localization

  class UserProfileDialog {
    /** The county reference data, read once when the dialog is built. */
    const counties: seq<Counties.County>
    /** The waterfall's cursor: the position of the next step to run. */
    var step: nat
    /** The per-dialog values the steps store the user's replies in. */
    var values: map<string, string>
    /** The user's profile as kept in user state. */
    var profile: UserProfile

    /** The cursor stays within the waterfall, and every key stored by a step
        before the cursor is present. */
    ghost predicate Valid()
      reads this
    {
      step <= |Waterfall| && KeysWrittenBefore(step) <= values.Keys
    }

    /** A new run of the waterfall: no values yet; `stored` is the profile that
        user state already holds, None for a user it holds none for, who gets
        the default profile with every property unset. */
    constructor (counties: seq<Counties.County>, stored: Option<UserProfile>)
      ensures Valid() && step == 0 && values == map[]
      ensures profile == if stored.Some? then stored.value else EmptyProfile
      ensures this.counties == counties
    {
      this.counties := counties;
      step := 0;
      values := map[];
      profile := if stored.Some? then stored.value else EmptyProfile;
    }

    /** Offers the two languages. */
    method LanguageStep() returns (t: Turn)
      requires Valid() && step == Position(Language)
      modifies this
      ensures Valid() && step == old(step) + 1
      ensures WrittenKey(Language).None? && values == old(values) && profile == old(profile)
      ensures t == Respond(Language, values, counties)
    {
      step := step + 1;
      t := Respond(Language, values, counties);
    }

    /** Stores the chosen language and asks for the name. */
    method NameStep(reply: string) returns (t: Turn)
      requires Valid() && step == Position(Name)
      modifies this
      ensures Valid() && step == old(step) + 1
      ensures values == old(values)[WrittenKey(Name).value := reply] && profile == old(profile)
      ensures t == Respond(Name, values, counties)
    {
      values := values["language" := reply];
      step := step + 1;
      ReadsFollowWrites(Position(Name));
      t := Respond(Name, values, counties);
    }

    /** Stores the name and thanks the user by name; the waterfall then runs
        the County step in the same turn. */
    method NameConfirmStep(reply: string) returns (t: Turn)
      requires Valid() && step == Position(NameConfirm)
      modifies this
      ensures Valid() && step == old(step) + 1
      ensures values == old(values)[WrittenKey(NameConfirm).value := reply] && profile == old(profile)
      ensures t == Respond(NameConfirm, values, counties)
    {
      values := values["name" := reply];
      step := step + 1;
      ReadsFollowWrites(Position(NameConfirm));
      t := Respond(NameConfirm, values, counties);
    }

    /** Asks for the county as free text; it follows a step that prompted
        nothing, so it stores nothing. */
    method CountyStep() returns (t: Turn)
      requires Valid() && step == Position(County)
      modifies this
      ensures Valid() && step == old(step) + 1
      ensures WrittenKey(County).None? && values == old(values) && profile == old(profile)
      ensures t == Respond(County, values, counties)
    {
      step := step + 1;
      ReadsFollowWrites(Position(County));
      t := Respond(County, values, counties);
    }

    /** Stores the county text and offers that county's sub-counties; the store
        happens before the lookup, and an unknown county fails the step
        without moving the cursor. */
    method SubcountyStep(reply: string) returns (t: Turn)
      requires Valid() && step == Position(Subcounty)
      modifies this
      ensures Valid()
      ensures values == old(values)[WrittenKey(Subcounty).value := reply] && profile == old(profile)
      ensures t == Respond(Subcounty, values, counties)
      ensures step == if t.Failed? then old(step) else old(step) + 1
    {
      values := values["county" := reply];
      ReadsFollowWrites(Position(Subcounty));
      t := Respond(Subcounty, values, counties);
      if !t.Failed? {
        step := step + 1;
      }
    }

    /** Stores the sub-county and offers the wards. */
    method WardStep(reply: string) returns (t: Turn)
      requires Valid() && step == Position(Ward)
      modifies this
      ensures Valid() && step == old(step) + 1
      ensures values == old(values)[WrittenKey(Ward).value := reply] && profile == old(profile)
      ensures t == Respond(Ward, values, counties)
    {
      values := values["subcounty" := reply];
      step := step + 1;
      ReadsFollowWrites(Position(Ward));
      t := Respond(Ward, values, counties);
    }

    /** Stores the ward, copies the five collected values into the profile and
        congratulates the user by name. */
    method SummaryStep(reply: string) returns (t: Turn)
      requires Valid() && step == Position(Summary)
      modifies this
      ensures Valid() && step == old(step) + 1
      ensures values == old(values)[WrittenKey(Summary).value := reply]
      ensures profile == UserProfile(
                Some(values["language"]), Some(values["name"]), Some(values["county"]),
                Some(values["subcounty"]), Some(values["ward"]))
      ensures t == Respond(Summary, values, counties)
    {
      values := values["ward" := reply];
      step := step + 1;
      ReadsFollowWrites(Position(Summary));
      profile := UserProfile(
        Some(values["language"]), Some(values["name"]), Some(values["county"]),
        Some(values["subcounty"]), Some(values["ward"]));
      t := Respond(Summary, values, counties);
    }

    /** Stores the summary reply and offers the main menu; the profile's name is
        set again from the stored name. */
    method MainMenuStep(reply: string) returns (t: Turn)
      requires Valid() && step == Position(MainMenu)
      modifies this
      ensures Valid() && step == old(step) + 1
      ensures values == old(values)[WrittenKey(MainMenu).value := reply]
      ensures profile == old(profile).(name := Some(values["name"]))
      ensures t == Respond(MainMenu, values, counties)
    {
      values := values["mainMenu" := reply];
      step := step + 1;
      ReadsFollowWrites(Position(MainMenu));
      profile := profile.(name := Some(values["name"]));
      t := Respond(MainMenu, values, counties);
    }

    /** Stores the main-menu topic over the summary reply and offers the sub-menu;
        the profile's name is set again from the stored name. */
    method SubMenuStep(reply: string) returns (t: Turn)
      requires Valid() && step == Position(SubMenu)
      modifies this
      ensures Valid() && step == old(step) + 1
      ensures values == old(values)[WrittenKey(SubMenu).value := reply]
      ensures profile == old(profile).(name := Some(values["name"]))
      ensures t == Respond(SubMenu, values, counties)
    {
      values := values["mainMenu" := reply];
      step := step + 1;
      ReadsFollowWrites(Position(SubMenu));
      profile := profile.(name := Some(values["name"]));
      t := Respond(SubMenu, values, counties);
    }

    /** Stores the sub-menu item and sends the news card, or " Go back" for any
        other item. */
    method ChooseActionStep(reply: string) returns (t: Turn)
      requires Valid() && step == Position(ChooseAction)
      modifies this
      ensures Valid() && step == old(step) + 1 == |Waterfall|
      ensures values == old(values)[WrittenKey(ChooseAction).value := reply] && profile == old(profile)
      ensures t == Respond(ChooseAction, values, counties)
    {
      values := values["subMenu" := reply];
      step := step + 1;
      ReadsFollowWrites(Position(ChooseAction));
      t := Respond(ChooseAction, values, counties);
    }
  }

  /** The first turns of an intake: the language and the name are stored and the
      County step has asked for the county. */
  method BeginIntake(counties: seq<Counties.County>, stored: Option<UserProfile>, language: string, name: string)
    returns (d: UserProfileDialog, countyPrompt: Turn)
    ensures fresh(d) && d.Valid() && d.step == Position(Subcounty) && d.counties == counties
    ensures d.values == map["language" := language, "name" := name]
    ensures d.profile == if stored.Some? then stored.value else EmptyProfile
    ensures countyPrompt == Respond(County, d.values, counties)
  {
    d := new UserProfileDialog(counties, stored);
    var t := d.LanguageStep();
    t := d.NameStep(language);
    t := d.NameConfirmStep(name);
    countyPrompt := d.CountyStep();
  }

  /** The next turns of a known county: its sub-counties are offered and the
      chosen sub-county stored, and the wards are offered. */
  method Locate(d: UserProfileDialog, county: string, subcounty: string) returns (subcountyPrompt: Turn)
    requires d.Valid() && d.step == Position(Subcounty)
    requires Counties.FindByName(d.counties, county).Some?
    modifies d
    ensures d.Valid() && d.step == Position(Summary) && d.profile == old(d.profile)
    ensures d.values == old(d.values)["county" := county]["subcounty" := subcounty]
    ensures subcountyPrompt.Prompted?
    ensures subcountyPrompt.prompt.choices == Counties.FindByName(d.counties, county).value.subCounties
  {
    subcountyPrompt := d.SubcountyStep(county);
    var t := d.WardStep(subcounty);
  }

  /** The dialog values after the Summary step has stored the ward. */
  ghost function Answers(language: string, name: string, county: string, subcounty: string, ward: string)
    : map<string, string>
  {
    map["language" := language, "name" := name]["county" := county]["subcounty" := subcounty]["ward" := ward]
  }

  /** Each of the five replies can be read back under its own key. */
  lemma AnswersHoldReplies(language: string, name: string, county: string, subcounty: string, ward: string)
    ensures var v := Answers(language, name, county, subcounty, ward);
      && ReadKeys(Summary) <= v.Keys
      && v["language"] == language && v["name"] == name && v["county"] == county
      && v["subcounty"] == subcounty && v["ward"] == ward
  {
  }

  /** The summary a completed intake sends: the congratulation in the chosen
      language, naming the user, with the two choices of that language. */
  lemma SummaryOfAnswers(
    counties: seq<Counties.County>,
    language: string, name: string, county: string, subcounty: string, ward: string)
    ensures ReadKeys(Summary) <= Answers(language, name, county, subcounty, ward).Keys
    ensures var t := Respond(Summary, Answers(language, name, county, subcounty, ward), counties);
      && t.Prompted?
      && DisplayText(t) == Localization.Phrase(Summary, Localization.LangOf(language), name)
      && Localization.Mentions(DisplayText(t), name)
      && t.prompt.choices == SummaryChoices(Localization.LangOf(language))
  {
    var v := Answers(language, name, county, subcounty, ward);
    AnswersHoldReplies(language, name, county, subcounty, ward);
    GreetsByName(Summary, v, counties);
  }

  /** One user's intake from the first prompt to the summary, each step given the
      reply to the prompt before it. When the county is known, the profile ends
      up holding exactly the five replies and the summary names the user in the
      chosen language. */
  method CollectProfile(
    counties: seq<Counties.County>, stored: Option<UserProfile>,
    language: string, name: string, county: string, subcounty: string, ward: string)
    returns (profile: UserProfile, subcountyPrompt: Turn, summary: Turn)
    requires Counties.FindByName(counties, county).Some?
    ensures profile == UserProfile(Some(language), Some(name), Some(county), Some(subcounty), Some(ward))
    ensures subcountyPrompt.Prompted?
    ensures subcountyPrompt.prompt.choices == Counties.FindByName(counties, county).value.subCounties
    ensures summary.Prompted?
    ensures DisplayText(summary) == Localization.Phrase(Summary, Localization.LangOf(language), name)
    ensures Localization.Mentions(DisplayText(summary), name)
    ensures summary.prompt.choices == SummaryChoices(Localization.LangOf(language))
  {
    var d, t := BeginIntake(counties, stored, language, name);
    subcountyPrompt := Locate(d, county, subcounty);
    summary := d.SummaryStep(ward);
    ghost var collected := d.values;
    assert collected == Answers(language, name, county, subcounty, ward);
    AnswersHoldReplies(language, name, county, subcounty, ward);
    SummaryOfAnswers(counties, language, name, county, subcounty, ward);
    profile := d.profile;
  }

  /** An intake whose county text names no county: the sub-county step throws
      instead of prompting again, after storing the text, and the cursor stays
      at that step. */
  method UnknownCountyFails(
    counties: seq<Counties.County>, stored: Option<UserProfile>, language: string, name: string, county: string)
    returns (t: Turn, storedCounty: string, cursor: nat)
    requires forall i :: 0 <= i < |counties| ==> counties[i].name != county
    ensures t == Failed(NullReference)
    ensures storedCounty == county && cursor == Position(Subcounty)
  {
    var d, _ := BeginIntake(counties, stored, language, name);
    t := d.SubcountyStep(county);
    storedCounty := d.values["county"];
    cursor := d.step;
  }
}
