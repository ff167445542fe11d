/** What a step hands to the dialog framework: a prompt, a message, or a failure. */
module Prompts {

  import opened Options

  /** Ids of the dialogs the component registers. */
  const WaterfallId := "WaterfallDialog"
  const TextPromptId := "TextPrompt"
  const ChoicePromptId := "ChoicePrompt"
  const ConfirmPromptId := "ConfirmPrompt"
  const RegisteredDialogs: set<string> := {WaterfallId, TextPromptId, ChoicePromptId, ConfirmPromptId}

  /** A submit button of an adaptive card and the data it posts back. */
  datatype SubmitAction = SubmitAction(title: string, data: string)

  /** An adaptive card: the texts of its body and its buttons. */
  datatype Card = Card(body: seq<string>, actions: seq<SubmitAction>)

  /** The activity a prompt shows: plain text or a card attachment. */
  datatype Message = Text(text: string) | Attachment(card: Card)

  /** The options of a prompt, and the id of the prompt dialog it is sent to.
      A prompt without a choice list has `choices == []`. */
  datatype Prompt = Prompt(dialogId: string, message: Message, retry: Option<string>, choices: seq<string>)

  datatype StepError = NullReference

  /** How a step ends: it prompts and waits for the reply, it sends a message and
      moves on to the next step at once, or it throws. */
  datatype Turn = Prompted(prompt: Prompt) | SendThenNext(notice: string) | Failed(error: StepError)

  /** The text the user reads, if the turn carries one. */
  function DisplayText(t: Turn): string
  {
    match t
    case Prompted(p) => if p.message.Text? then p.message.text else ""
    case SendThenNext(notice) => notice
    case Failed(_) => ""
  }

  /** One submit button per choice, in order, each posting `data` (the LINQ `Select`). */
  function SubmitActions(choices: seq<string>, data: string): (r: seq<SubmitAction>)
    ensures |r| == |choices|
    ensures forall i :: 0 <= i < |r| ==> r[i].title == choices[i] && r[i].data == data
  {
    if choices == [] then [] else [SubmitAction(choices[0], data)] + SubmitActions(choices[1..], data)
  }

  /** The button titles of a card, in order. */
  function Titles(actions: seq<SubmitAction>): seq<string>
  {
    if actions == [] then [] else [actions[0].title] + Titles(actions[1..])
  }

  /** Reading the titles back off the buttons gives the choices they were made from. */
  lemma {:induction false} TitlesOfSubmitActions(choices: seq<string>, data: string)
    ensures Titles(SubmitActions(choices, data)) == choices
  {
    if choices != [] {
      TitlesOfSubmitActions(choices[1..], data);
    }
  }
}
