/**
 * The dashboard's message card: marking a message as bet on, and which parts
 * of a message's row are shown.
 */
module TelegramMessages {
  import opened Wrappers

  datatype Message = Message(id: string, sender: string, content: string, timestamp: string, hasAction: bool, actionTaken: bool)

  /** `takeBetAction`: the `map` that sets the flag of the messages with the id. */
  function TakeBetAction(ms: seq<Message>, id: string): (r: seq<Message>)
    ensures |r| == |ms|
    ensures forall i :: 0 <= i < |ms| ==> r[i] == if ms[i].id == id then ms[i].(actionTaken := true) else ms[i]
  {
    seq(|ms|, i requires 0 <= i < |ms| => if ms[i].id == id then ms[i].(actionTaken := true) else ms[i])
  }

  /** The label of the status row, which only messages with an action have. */
  function StatusLabel(m: Message): (r: Option<string>)
    ensures r.Some? <==> m.hasAction
    ensures r.Some? ==> (r.value == "Bet Placed" <==> m.actionTaken)
    ensures r.Some? ==> (r.value == "Action Required" <==> !m.actionTaken)
  {
    if !m.hasAction then None
    else if m.actionTaken then Some("Bet Placed") else Some("Action Required")
  }

  /** The `Place Bet` button is in the status row and only while no bet was placed. */
  function OffersPlaceBet(m: Message): (r: bool)
    ensures r ==> m.hasAction && StatusLabel(m) == Some("Action Required")
  {
    StatusLabel(m).Some? && !m.actionTaken
  }

  /** The button is offered exactly for messages with an action and no bet yet. */
  lemma OffersPlaceBetIff(m: Message)
    ensures OffersPlaceBet(m) <==> m.hasAction && !m.actionTaken
    ensures OffersPlaceBet(m) <==> StatusLabel(m) == Some("Action Required")
  {
  }

  /**
   * After `takeBetAction(id)` no message with that id offers the button and every
   * such message with an action reads `Bet Placed`; no flag is cleared; the other
   * messages are untouched; and taking the action again changes nothing.
   */
  lemma TakeBetActionProperties(ms: seq<Message>, id: string)
    ensures var r := TakeBetAction(ms, id);
      (forall i :: 0 <= i < |ms| && ms[i].id == id ==>
         !OffersPlaceBet(r[i]) && (ms[i].hasAction ==> StatusLabel(r[i]) == Some("Bet Placed")))
      && (forall i :: 0 <= i < |ms| ==> (ms[i].actionTaken ==> r[i].actionTaken))
      && (forall i :: 0 <= i < |ms| && ms[i].id != id ==> r[i] == ms[i])
      && TakeBetAction(r, id) == r
  {
  }
}
