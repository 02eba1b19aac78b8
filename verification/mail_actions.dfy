/**
 * The action directives handed to the mail client (`output_actions` and
 * `move_to_junk_action` in Support/bin/llm_common.py). An action is a
 * string-to-string dictionary, as in the source; the envelope is the value
 * that `output_actions` serializes.
 */
module MailActions {
  import opened Wrappers

  type Action = map<string, string>

  /** The object `{"actions": [...]}` printed for the host application. */
  datatype Envelope = Envelope(actions: seq<Action>)

  /** The one action the source defines: move the message to the junk mailbox. */
  function MoveToJunkAction(): (a: Action)
    ensures a.Keys == {"type", "mailboxType"}
    ensures a["type"] == "moveMessage" && a["mailboxType"] == "junk"
  {
    map["type" := "moveMessage", "mailboxType" := "junk"]
  }

  /** The envelope for the given actions; a missing argument means no actions. */
  function OutputActions(actions: Option<seq<Action>>): (e: Envelope)
    ensures actions.None? ==> e.actions == []
    ensures actions.Some? ==> e.actions == actions.value
  {
    Envelope(if actions.None? then [] else actions.value)
  }

  /** Calling without an argument is the same as passing an empty list. */
  lemma DefaultIsEmptyList()
    ensures OutputActions(None) == OutputActions(Some([]))
  {
  }

  /** A single junk move yields an envelope holding exactly that directive. */
  lemma MoveToJunkEnvelope()
    ensures var e := OutputActions(Some([MoveToJunkAction()]));
            |e.actions| == 1 && e.actions[0]["type"] == "moveMessage" && e.actions[0]["mailboxType"] == "junk"
  {
  }
}
