/**
 * The rules a contact card applies before it renders: which interaction it
 * recommends, which phase a reconnecting contact is in, the first name the
 * conversation starter greets, and the table of interaction types.
 */
module ContactCard {
  import opened Seqs
  import opened Contacts
  import DateUtils

  /** One button of the card; `weight` in half-points. */
  datatype InteractionType = InteractionType(caption: string, weight: nat)

  /** The four interaction types a card offers (message 0.5, call 1, meetup 2, trip 3 points). */
  const InteractionTypes: map<Method, InteractionType> := map[
    Message := InteractionType("Message", 1),
    Call := InteractionType("Call", 2),
    Meetup := InteractionType("Coffee", 4),
    Trip := InteractionType("Adventure", 6)]

  /** `contact.repCount || 0`: a missing count reads as 0. */
  function RepCountOrZero(repCount: Option<int>): int
  {
    if repCount.Some? then repCount.value else 0
  }

  /**
   * The recommended way to reach a contact. Reconnecting contacts follow the
   * phases (message, message, call, then meetups); active ones get a call once
   * two weeks have passed since the last contact.
   */
  function SuggestedInteraction(contactType: ContactType, storedRepCount: Option<int>, daysSinceLastContact: int): (m: Method)
    ensures m in InteractionTypes && m != Trip
  {
    var repCount := RepCountOrZero(storedRepCount);
    if contactType == Estranged then
      if repCount == 0 then Message
      else if repCount == 1 then Message
      else if repCount == 2 then Call
      else if repCount >= 3 then Meetup
      else Message
    else if daysSinceLastContact >= 14 then Call
    else Message
  }

  /**
   * For a reconnecting contact only the repetition count matters: a message
   * up to the second phase (and for a corrupt negative count, where the final
   * fallback answers), a call in the third, a meetup from the fourth on.
   */
  lemma EstrangedSuggestionLadder(storedRepCount: Option<int>, daysSinceLastContact: int)
    ensures var m := SuggestedInteraction(Estranged, storedRepCount, daysSinceLastContact);
      var repCount := RepCountOrZero(storedRepCount);
      (m == Message <==> repCount <= 1) && (m == Call <==> repCount == 2) && (m == Meetup <==> repCount >= 3)
  {
  }

  /** For an active contact only the elapsed days matter. */
  lemma ActiveSuggestionByElapsedDays(storedRepCount: Option<int>, daysSinceLastContact: int)
    ensures var m := SuggestedInteraction(Active, storedRepCount, daysSinceLastContact);
      (m == Call <==> daysSinceLastContact >= 14) && (m == Message <==> daysSinceLastContact < 14)
  {
  }

  /** A contact without a stored repetition count is advised like one at repetition 0. */
  lemma MissingRepCountIsZero(contactType: ContactType, daysSinceLastContact: int)
    ensures SuggestedInteraction(contactType, None, daysSinceLastContact)
         == SuggestedInteraction(contactType, Some(0), daysSinceLastContact)
  {
  }

  const PhaseNames: seq<string> := ["Initial reconnection", "Follow-up phase", "Deepening connection", "Building friendship"]
  const UnknownPhase := "Reconnecting"

  /** The phase a reconnecting contact is in after `repCount` repetitions. */
  function PhaseDescription(repCount: int): (phase: string)
    ensures repCount >= 0 ==> phase == PhaseNames[Min(repCount, |PhaseNames| - 1)]
    ensures phase == UnknownPhase <==> repCount < 0
  {
    if repCount == 0 then "Initial reconnection"
    else if repCount == 1 then "Follow-up phase"
    else if repCount == 2 then "Deepening connection"
    else if repCount >= 3 then "Building friendship"
    else UnknownPhase
  }

  /** `name.split(' ')[0]`: everything before the first space. */
  function FirstName(name: string): (first: string)
    ensures first <= name
    ensures ' ' !in first
    ensures |first| < |name| ==> name[|first|] == ' '
  {
    if name == [] || name[0] == ' ' then [] else [name[0]] + FirstName(name[1..])
  }

  /** The starter a due card shows; it greets the contact by the first word of the name. */
  function CardConversationSuggestion(c: Contact, isDue: bool): (r: Option<string>)
    ensures r.Some? <==> isDue
    ensures isDue ==> r.value == DateUtils.GetConversationSuggestion(c.repCount, FirstName(c.name), Some(c.pastConnection))
    ensures isDue && c.repCount == 0 ==>
      var first := FirstName(c.name);
      |r.value| > |DateUtils.Greeting| + |first| && r.value[|DateUtils.Greeting|..|DateUtils.Greeting| + |first|] == first
      && ' ' !in first
  {
    if !isDue then None
    else
      DateUtils.FirstStarterGreetsByName(FirstName(c.name), Some(c.pastConnection));
      Some(DateUtils.GetConversationSuggestion(c.repCount, FirstName(c.name), Some(c.pastConnection)))
  }
}
