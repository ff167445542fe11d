/** The waterfall's step table and the dialog values each step stores and reads. */
module Steps {

  import opened Options

  /** One entry of the waterfall, named after its step method. */
  datatype Step =
    | Language | Name | NameConfirm | County | Subcounty | Ward
    | Summary | MainMenu | SubMenu | ChooseAction
  {
    /** Steps whose wording depends on the stored language; Language speaks both
        languages at once and ChooseAction speaks English only. */
    predicate Localized()
    {
      this != Language && this != ChooseAction
    }
  }

  /** The order in which the waterfall runs its steps. */
  const Waterfall: seq<Step> :=
    [Language, Name, NameConfirm, County, Subcounty, Ward, Summary, MainMenu, SubMenu, ChooseAction]

  /** Where a step stands in the waterfall: every step occurs, exactly once. */
  function Position(s: Step): (i: nat)
    ensures i < |Waterfall| && Waterfall[i] == s
    ensures forall j :: 0 <= j < |Waterfall| && Waterfall[j] == s ==> j == i
  {
    match s
    case Language => 0
    case Name => 1
    case NameConfirm => 2
    case County => 3
    case Subcounty => 4
    case Ward => 5
    case Summary => 6
    case MainMenu => 7
    case SubMenu => 8
    case ChooseAction => 9
  }

  /** The key under which a step stores the reply to the previous step's prompt.
      Language runs first and County follows a step that prompted nothing, so
      neither stores a value. */
  function WrittenKey(s: Step): Option<string>
  {
    match s
    case Language => None
    case Name => Some("language")
    case NameConfirm => Some("name")
    case County => None
    case Subcounty => Some("county")
    case Ward => Some("subcounty")
    case Summary => Some("ward")
    case MainMenu => Some("mainMenu")
    case SubMenu => Some("mainMenu")
    case ChooseAction => Some("subMenu")
  }

  /** The keys a step looks up in the dialog values, after its own store. */
  function ReadKeys(s: Step): set<string>
  {
    match s
    case Language => {}
    case Name => {"language"}
    case NameConfirm => {"language", "name"}
    case County => {"language"}
    case Subcounty => {"county", "language"}
    case Ward => {"language"}
    case Summary => {"name", "language", "county", "subcounty", "ward"}
    case MainMenu => {"name", "language"}
    case SubMenu => {"name", "language"}
    case ChooseAction => {"subMenu"}
  }

  function KeySet(k: Option<string>): set<string>
  {
    if k.Some? then {k.value} else {}
  }

  /** The keys stored by the first `k` steps of the waterfall, written out. */
  function KeysWrittenBefore(k: nat): set<string>
    requires k <= |Waterfall|
  {
    var named := {"language", "name"};
    var located := named + {"county", "subcounty", "ward"};
    if k < 2 then {}
    else if k == 2 then {"language"}
    else if k < 5 then named
    else if k == 5 then named + {"county"}
    else if k == 6 then named + {"county", "subcounty"}
    else if k == 7 then located
    else if k < 10 then located + {"mainMenu"}
    else located + {"mainMenu", "subMenu"}
  }

  /** The table above is what the steps store, one step at a time: nothing before
      the first step, then each step's key added to those stored before it. */
  lemma KeysWrittenAccumulate(k: nat)
    requires k < |Waterfall|
    ensures KeysWrittenBefore(0) == {}
    ensures KeysWrittenBefore(k + 1) == KeysWrittenBefore(k) + KeySet(WrittenKey(Waterfall[k]))
  {
  }

  /** Run in order, every key a step reads has been stored by that step or by an
      earlier one, so no lookup of the dialog values misses. */
  lemma ReadsFollowWrites(k: nat)
    requires k < |Waterfall|
    ensures ReadKeys(Waterfall[k]) <= KeysWrittenBefore(k + 1)
  {
  }
}
