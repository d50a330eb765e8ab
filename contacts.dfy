/**
 * The records the tracker keeps. Dates are whole day numbers, interaction
 * weights and relationship scores are counted in half-points (a message is
 * worth one half-point, a call two).
 */
module Contacts {

  datatype Option<T> = None | Some(value: T)

  /** Which cadence table applies: the eight-phase reconnection or the maintenance rhythm. */
  datatype ContactType = Estranged | Active

  /** How a contact was reached; `Other` is any method name outside the four known ones. */
  datatype Method = Message | Call | Meetup | Trip | Other(name: string)

  /** One logged interaction; `weight` in half-points. */
  datatype Interaction = Interaction(date: int, interactionMethod: Method, weight: nat)

  datatype Contact = Contact(
    id: int,
    name: string,
    contactType: ContactType,
    lastContact: int,
    notes: string,
    location: string,
    pastConnection: string,
    repCount: nat,
    totalContacts: nat,
    relationshipScore: nat,     // half-points
    lastMethod: Option<Method>,
    interactions: seq<Interaction>,
    createdDate: int,
    nextContact: int)

  /** What the add form submits for a new contact. */
  datatype ContactForm = ContactForm(
    name: string,
    contactType: ContactType,
    lastContact: int,
    notes: string,
    location: string,
    pastConnection: string)
}
