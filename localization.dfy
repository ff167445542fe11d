/** The wording of every prompt and message, in Kiswahili and in English. */
module Localization {

  import opened Steps

  datatype Lang = English | Kiswahili

  /** The language a stored reply selects: only the exact text "Kiswahili"
      selects Kiswahili; "English" and every other text select English. */
  function LangOf(stored: string): Lang
  {
    if stored == "Kiswahili" then Kiswahili else English
  }

  /** The first prompt, which speaks both languages before one is chosen. */
  const Greeting: string :=
    "Hujambo, karibu katika huduma yetu.Tafadhali chagua lugha inayokufaa(1.Kiswahili),(2.Kingereza)."
    + "  Hello, Welcome to our service.Please choose your preferred langauge(1.Kiswahili), (2.English)"

  // The texts of the step prompts, as the step methods spell them.
  const NameSw := "Tafadhali weka jina Lako"
  const NameEn := "Please enter your name."
  const CountySw := "Weka Kaunti unaoishi"
  const CountyEn := "Which county do you live in?"
  const SubcountySw := "Unaishi SabKaunti gani?"
  const SubcountyEn := "Which sub-county do you live in?"
  const WardSw := "Unashi wardi gani?"
  const WardEn := "Which ward do you live in?"
  const SummarySw := " sasa ujumbe wako umekamilika.Chagua 1)MAIN MENU 2)RUDI NYUMA"
  const SummaryEn :=
    ", You are now registered to our services. Please select 1)MAIN MENU 2)GO BACK to continue with our service"
  const MainMenuSw := ", karibu tena, tafadhali chagua kwa menu uliopewa"
  const MainMenuEn := " Welcome back. Please choose from the main menu"
  const SubMenuSw := "Tafadhali chagua kutoka kwa sab-menu uliopewa"
  const SubMenuEn := "Please choose from the sub-menu"

  /** The text a localized step sends in language `l`; `name` is the stored name,
      used only by the steps that greet the user by name. */
  function Phrase(s: Step, l: Lang, name: string): string
    requires s.Localized()
  {
    var sw := l == Kiswahili;
    match s
    case Name => if sw then NameSw else NameEn
    case NameConfirm => if sw then "Asante " + name + "." else "Thanks " + name + "."
    case County => if sw then CountySw else CountyEn
    case Subcounty => if sw then SubcountySw else SubcountyEn
    case Ward => if sw then WardSw else WardEn
    case Summary => if sw then "Hongera " + name + SummarySw else "CONGRATULATIONS!! " + name + SummaryEn
    case MainMenu => if sw then "Habari za asubuhi " + name + MainMenuSw else "Good morning " + name + MainMenuEn
    case SubMenu => if sw then SubMenuSw else SubMenuEn
  }

  /** The retry text the County step attaches to its prompt. */
  function CountyRetry(l: Lang): string
  {
    if l == Kiswahili then "Tafadhali weka Kaunti sahihi" else "Please enter a valid county name"
  }

  /** `text` contains `part` as a contiguous piece. */
  predicate Mentions(text: string, part: string)
  {
    exists i :: 0 <= i <= |text| && part <= text[i..]
  }

  /** The steps that greet the user by name. */
  predicate UsesName(s: Step)
  {
    s == NameConfirm || s == Summary || s == MainMenu
  }

  /** The two translations of a step never coincide, whatever the name: the text
      alone tells which language was spoken. */
  lemma TranslationsDiffer(s: Step, name: string)
    requires s.Localized()
    ensures Phrase(s, Kiswahili, name) != Phrase(s, English, name)
  {
    var sw, en := Phrase(s, Kiswahili, name), Phrase(s, English, name);
    match s
    case NameConfirm =>
      assert sw[0] == 'A' && en[0] == 'T';
    case Summary =>
      assert sw[0] == 'H' && en[0] == 'C';
    case MainMenu =>
      assert sw[0] == 'H' && en[0] == 'G';
    case _ =>
  }

  /** The retry text of the County step differs from its prompt, in both languages. */
  lemma CountyRetryIsDistinct(l: Lang, name: string)
    ensures CountyRetry(l) != Phrase(County, l, name)
  {
  }

  /** A step that greets by name has the name in its text, in both languages. */
  lemma PhraseMentionsName(s: Step, l: Lang, name: string)
    requires UsesName(s)
    ensures Mentions(Phrase(s, l, name), name)
  {
    var text := Phrase(s, l, name);
    var pre :=
      match s
      case NameConfirm => if l == Kiswahili then "Asante " else "Thanks "
      case Summary => if l == Kiswahili then "Hongera " else "CONGRATULATIONS!! "
      case MainMenu => if l == Kiswahili then "Habari za asubuhi " else "Good morning ";
    assert text == pre + name + text[|pre| + |name|..];
    assert name <= text[|pre|..];
  }
}
