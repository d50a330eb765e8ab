/**
 * The relationship tracker component: the list of contacts and the daily
 * limit it owns, the handlers that replace that list (add, edit, log an
 * interaction, delete) and the due / upcoming views computed from it.
 */
module Tracker {
  import opened Seqs
  import opened Contacts
  import opened DateUtils
  import ContactCard

  // ---------------------------------------------------------------------------
  // Logging an interaction
  // ---------------------------------------------------------------------------

  /** Weight of a logged interaction in half-points; a method outside the table weighs as much as a call. */
  function InteractionWeight(m: Method): (w: nat)
    ensures 1 <= w <= 6
  {
    match m
    case Message => 1
    case Call => 2
    case Meetup => 4
    case Trip => 6
    case Other(_) => 2
  }

  /** The weights the card shows on its buttons are the weights the handler adds to the score. */
  lemma CardWeightsMatchLoggedWeights()
    ensures forall m :: m in ContactCard.InteractionTypes ==> ContactCard.InteractionTypes[m].weight == InteractionWeight(m)
    ensures forall m :: m !in ContactCard.InteractionTypes ==> InteractionWeight(m) == InteractionWeight(Call)
  {
  }

  /** How many interactions a contact keeps. */
  const HistoryLimit: nat := 10

  /** A contact after an interaction by `m` on day `today`. */
  function LogInteraction(c: Contact, m: Method, today: int): (r: Contact)
    ensures r.repCount == c.repCount + 1 && r.totalContacts == c.totalContacts + 1
    ensures r.relationshipScore == c.relationshipScore + InteractionWeight(m)
    ensures r.lastContact == today && r.lastMethod == Some(m)
    ensures r.nextContact == CalculateNextContactDate(today, r.repCount, c.contactType)
    ensures r.interactions == LastN(c.interactions + [Interaction(today, m, InteractionWeight(m))], HistoryLimit)
    ensures |r.interactions| == Min(|c.interactions| + 1, HistoryLimit)
    ensures r.interactions[|r.interactions| - 1] == Interaction(today, m, InteractionWeight(m))
    ensures r.id == c.id && r.name == c.name && r.contactType == c.contactType && r.notes == c.notes
    ensures r.location == c.location && r.pastConnection == c.pastConnection && r.createdDate == c.createdDate
  {
    var interactionWeight := InteractionWeight(m);
    var newRepCount := c.repCount + 1;
    var newInteraction := Interaction(today, m, interactionWeight);
    c.(lastContact := today,
       repCount := newRepCount,
       totalContacts := c.totalContacts + 1,
       relationshipScore := c.relationshipScore + interactionWeight,
       nextContact := CalculateNextContactDate(today, newRepCount, c.contactType),
       lastMethod := Some(m),
       interactions := LastN(c.interactions + [newInteraction], HistoryLimit))
  }

  /** `markAsContacted`: every contact with the id logs the interaction, every other contact stays as it was. */
  function MarkInList(contacts: seq<Contact>, id: int, m: Method, today: int): (r: seq<Contact>)
    ensures |r| == |contacts|
    ensures forall i :: 0 <= i < |r| && contacts[i].id != id ==> r[i] == contacts[i]
    ensures forall i :: 0 <= i < |r| && contacts[i].id == id ==> r[i] == LogInteraction(contacts[i], m, today)
  {
    seq(|contacts|, i requires 0 <= i < |contacts| =>
      if contacts[i].id == id then LogInteraction(contacts[i], m, today) else contacts[i])
  }

  /** Logging keeps every position's identity, never lowers a score and never grows a history past the limit. */
  lemma MarkKeepsOrderAndScores(contacts: seq<Contact>, id: int, m: Method, today: int)
    requires forall i :: 0 <= i < |contacts| ==> |contacts[i].interactions| <= HistoryLimit
    ensures var r := MarkInList(contacts, id, m, today);
      forall i :: 0 <= i < |r| ==>
        r[i].id == contacts[i].id
        && r[i].relationshipScore >= contacts[i].relationshipScore
        && |r[i].interactions| <= HistoryLimit
  {
  }

  // ---------------------------------------------------------------------------
  // Adding, editing and deleting
  // ---------------------------------------------------------------------------

  /** `addContact`: a fresh record with no history, scheduled from the form's last contact at repetition 0. */
  function NewContact(id: int, today: int, form: ContactForm): (c: Contact)
    ensures c.id == id && c.createdDate == today
    ensures c.repCount == 0 && c.totalContacts == 0 && c.relationshipScore == 0
    ensures c.lastMethod == None && c.interactions == []
    ensures c.nextContact == OnScheduleDate(form.lastContact, 0, form.contactType)
    ensures ContactForm(c.name, c.contactType, c.lastContact, c.notes, c.location, c.pastConnection) == form
  {
    var c := Contact(id, form.name, form.contactType, form.lastContact, form.notes, form.location,
                     form.pastConnection, 0, 0, 0, None, [], today, 0);
    c.(nextContact := CalculateNextContactDate(c.lastContact, c.repCount, c.contactType))
  }

  /**
   * `updateContact` on one record: the edited fields come from the form, the
   * identity, counters, score and history from the stored contact, and the
   * next date is recomputed from the edited date and type at the stored count.
   */
  function EditContact(stored: Contact, form: Contact): (r: Contact)
    ensures r.id == stored.id && r.repCount == stored.repCount && r.totalContacts == stored.totalContacts
    ensures r.relationshipScore == stored.relationshipScore && r.interactions == stored.interactions
    ensures r.nextContact == CalculateNextContactDate(form.lastContact, stored.repCount, form.contactType)
    ensures r.name == form.name && r.contactType == form.contactType && r.lastContact == form.lastContact
    ensures r.notes == form.notes && r.location == form.location && r.pastConnection == form.pastConnection
    ensures r.lastMethod == form.lastMethod && r.createdDate == form.createdDate
  {
    form.(id := stored.id,
          repCount := stored.repCount,
          totalContacts := stored.totalContacts,
          relationshipScore := stored.relationshipScore,
          interactions := stored.interactions,
          nextContact := CalculateNextContactDate(form.lastContact, stored.repCount, form.contactType))
  }

  /** Every contact with the edited id is replaced by its edit, every other contact stays as it was. */
  function UpdateInList(contacts: seq<Contact>, editingId: int, form: Contact): (r: seq<Contact>)
    ensures |r| == |contacts|
    ensures forall i :: 0 <= i < |r| && contacts[i].id != editingId ==> r[i] == contacts[i]
    ensures forall i :: 0 <= i < |r| && contacts[i].id == editingId ==> r[i] == EditContact(contacts[i], form)
  {
    seq(|contacts|, i requires 0 <= i < |contacts| =>
      if contacts[i].id == editingId then EditContact(contacts[i], form) else contacts[i])
  }

  function IdIsNot(id: int): Contact -> bool
  {
    (c: Contact) => c.id != id
  }

  function IdIs(id: int): Contact -> bool
  {
    (c: Contact) => c.id == id
  }

  /** `deleteContact`: drops every entry with the id. */
  function RemoveId(contacts: seq<Contact>, id: int): (r: seq<Contact>)
    ensures forall c :: c in r ==> c.id != id
    ensures forall c :: c in contacts && c.id != id ==> c in r
    ensures |r| == |contacts| - |Filter(contacts, IdIs(id))|
  {
    FilterPartition(contacts, IdIsNot(id), IdIs(id));
    Filter(contacts, IdIsNot(id))
  }

  /** Deleting keeps the order of the rest: deleting from a concatenation deletes from each part. */
  lemma RemoveIdKeepsOrder(a: seq<Contact>, b: seq<Contact>, id: int)
    ensures RemoveId(a + b, id) == RemoveId(a, id) + RemoveId(b, id)
  {
    FilterAppend(a, b, IdIsNot(id));
  }

  /** Deleting an id nobody has changes nothing. */
  lemma RemoveAbsentId(contacts: seq<Contact>, id: int)
    requires forall i :: 0 <= i < |contacts| ==> contacts[i].id != id
    ensures RemoveId(contacts, id) == contacts
  {
    FilterAllKept(contacts, IdIsNot(id));
  }

  /** Deleting keeps each remaining record exactly as often as it occurred. */
  lemma RemoveIdKeepsOthers(contacts: seq<Contact>, id: int, c: Contact)
    requires c.id != id
    ensures multiset(RemoveId(contacts, id))[c] == multiset(contacts)[c]
  {
    FilterPartition(contacts, IdIsNot(id), IdIs(id));
    assert c !in Filter(contacts, IdIs(id));
  }

  // ---------------------------------------------------------------------------
  // The record invariant every handler keeps
  // ---------------------------------------------------------------------------

  function WeightSum(s: seq<Interaction>): nat
  {
    if s == [] then 0 else WeightSum(s[..|s| - 1]) + s[|s| - 1].weight
  }

  lemma {:induction false} WeightSumOfSuffix(s: seq<Interaction>, k: nat)
    requires k <= |s|
    ensures WeightSum(s[k..]) <= WeightSum(s)
    decreases |s|
  {
    if k < |s| {
      WeightSumOfSuffix(s[..|s| - 1], k);
      assert s[k..][..|s[k..]| - 1] == s[..|s| - 1][k..];
    }
  }

  lemma {:induction false} WeightSumOfHistory(s: seq<Interaction>, x: Interaction)
    ensures WeightSum(LastN(s + [x], HistoryLimit)) <= WeightSum(s) + x.weight
  {
    var t := s + [x];
    assert t[..|t| - 1] == s;
    if |t| > HistoryLimit {
      WeightSumOfSuffix(t, |t| - HistoryLimit);
    }
  }

  /**
   * What every record the handlers produce satisfies: the next date is the
   * cadence's date for its last contact, repetition and type; each interaction
   * counts once in `repCount` and `totalContacts`; the history holds the last
   * (at most ten) of them, each with its method's weight; and the score is
   * half a point to three points per interaction and covers the history.
   */
  ghost predicate ContactInvariant(c: Contact)
  {
    && c.nextContact == CalculateNextContactDate(c.lastContact, c.repCount, c.contactType)
    && c.repCount == c.totalContacts
    && |c.interactions| == Min(c.totalContacts, HistoryLimit)
    && (forall i :: 0 <= i < |c.interactions| ==> c.interactions[i].weight == InteractionWeight(c.interactions[i].interactionMethod))
    && c.totalContacts <= c.relationshipScore <= 6 * c.totalContacts
    && WeightSum(c.interactions) <= c.relationshipScore
  }

  ghost predicate AllValid(contacts: seq<Contact>)
  {
    forall i :: 0 <= i < |contacts| ==> ContactInvariant(contacts[i])
  }

  lemma NewContactValid(id: int, today: int, form: ContactForm)
    ensures ContactInvariant(NewContact(id, today, form))
  {
  }

  /** Trimming a history to its last ten entries keeps every entry's weight tied to its method. */
  lemma HistoryWeightsMatch(s: seq<Interaction>, x: Interaction)
    requires forall i :: 0 <= i < |s| ==> s[i].weight == InteractionWeight(s[i].interactionMethod)
    requires x.weight == InteractionWeight(x.interactionMethod)
    ensures var h := LastN(s + [x], HistoryLimit);
      forall i :: 0 <= i < |h| ==> h[i].weight == InteractionWeight(h[i].interactionMethod)
  {
    var t := s + [x];
    var h := LastN(t, HistoryLimit);
    forall i | 0 <= i < |h|
      ensures h[i].weight == InteractionWeight(h[i].interactionMethod)
    {
      assert h[i] == t[|t| - |h| + i];
    }
  }

  lemma LogInteractionValid(c: Contact, m: Method, today: int)
    requires ContactInvariant(c)
    ensures ContactInvariant(LogInteraction(c, m, today))
  {
    var x := Interaction(today, m, InteractionWeight(m));
    WeightSumOfHistory(c.interactions, x);
    HistoryWeightsMatch(c.interactions, x);
  }

  lemma EditContactValid(stored: Contact, form: Contact)
    requires ContactInvariant(stored)
    ensures ContactInvariant(EditContact(stored, form))
  {
  }

  /** Logging an interaction keeps every record valid. */
  lemma MarkInListValid(contacts: seq<Contact>, id: int, m: Method, today: int)
    requires AllValid(contacts)
    ensures AllValid(MarkInList(contacts, id, m, today))
  {
    var r := MarkInList(contacts, id, m, today);
    forall i | 0 <= i < |r| ensures ContactInvariant(r[i]) {
      if contacts[i].id == id {
        LogInteractionValid(contacts[i], m, today);
      }
    }
  }

  /** Editing keeps every record valid, whatever the form holds. */
  lemma UpdateInListValid(contacts: seq<Contact>, editingId: int, form: Contact)
    requires AllValid(contacts)
    ensures AllValid(UpdateInList(contacts, editingId, form))
  {
    var r := UpdateInList(contacts, editingId, form);
    forall i | 0 <= i < |r| ensures ContactInvariant(r[i]) {
      if contacts[i].id == editingId {
        EditContactValid(contacts[i], form);
      }
    }
  }

  lemma RemoveIdValid(contacts: seq<Contact>, id: int)
    requires AllValid(contacts)
    ensures AllValid(RemoveId(contacts, id))
  {
    var r := RemoveId(contacts, id);
    forall i | 0 <= i < |r| ensures ContactInvariant(r[i]) {
      assert r[i] in contacts;
    }
  }

  /** The record after `k` interactions by `m`, each logged on the day it fell due. */
  function OnSchedule(c: Contact, m: Method, k: nat): (r: Contact)
    ensures r.contactType == c.contactType && r.repCount == c.repCount + k
  {
    if k == 0 then c
    else
      var before := OnSchedule(c, m, k - 1);
      LogInteraction(before, m, before.nextContact)
  }

  /** A contact reached on each due date follows the cadence: after `k` such contacts it is due on the `k`-th scheduled date. */
  lemma {:induction false} ContactedOnScheduleFollowsCadence(c: Contact, start: int, m: Method, k: nat)
    requires c.repCount == 0 && c.nextContact == OnScheduleDate(start, 0, c.contactType)
    ensures OnSchedule(c, m, k).nextContact == OnScheduleDate(start, k, c.contactType)
  {
    if k > 0 {
      ContactedOnScheduleFollowsCadence(c, start, m, k - 1);
      var before := OnSchedule(c, m, k - 1);
      assert OnSchedule(c, m, k) == LogInteraction(before, m, before.nextContact);
    }
  }

  // ---------------------------------------------------------------------------
  // Due and upcoming contacts
  // ---------------------------------------------------------------------------

  function NextContactKey(c: Contact): int
  {
    c.nextContact
  }

  function DueBy(today: int): Contact -> bool
  {
    (c: Contact) => c.nextContact <= today
  }

  function UpcomingAfter(today: int): Contact -> bool
  {
    (c: Contact) => c.nextContact > today
  }

  function FallsDueOn(day: int): Contact -> bool
  {
    (c: Contact) => c.nextContact == day
  }

  /** Every due contact, most overdue first; contacts due the same day keep their list order. */
  function AllDue(contacts: seq<Contact>, today: int): seq<Contact>
  {
    SortBy(Filter(contacts, DueBy(today)), NextContactKey)
  }

  lemma AllDueFacts(contacts: seq<Contact>, today: int)
    ensures var all := AllDue(contacts, today);
      && multiset(all) == multiset(Filter(contacts, DueBy(today)))
      && (forall i :: 0 <= i < |all| ==> all[i].nextContact <= today)
      && (forall i, j :: 0 <= i < j < |all| ==> all[i].nextContact <= all[j].nextContact)
  {
    var due := Filter(contacts, DueBy(today));
    SortBySorted(due, NextContactKey);
    var all := AllDue(contacts, today);
    forall i | 0 <= i < |all| ensures all[i].nextContact <= today {
      assert all[i] in multiset(due);
      assert all[i] in due;
      assert DueBy(today)(all[i]);
    }
  }

  /** `getDueContacts`: the first `dailyLimit` of the due contacts, most overdue first. */
  function DueContacts(contacts: seq<Contact>, today: int, dailyLimit: nat): (r: seq<Contact>)
    ensures forall i :: 0 <= i < |r| ==> r[i].nextContact <= today
    ensures forall i, j :: 0 <= i < j < |r| ==> r[i].nextContact <= r[j].nextContact
    ensures |r| == Min(dailyLimit, |Filter(contacts, DueBy(today))|)
    ensures r == AllDue(contacts, today)[..|r|]
    ensures multiset(r) <= multiset(contacts)
  {
    AllDueFacts(contacts, today);
    TakeSubMultiset(AllDue(contacts, today), dailyLimit);
    FilterSubMultiset(contacts, DueBy(today));
    Take(AllDue(contacts, today), dailyLimit)
  }

  lemma UpcomingFacts(contacts: seq<Contact>, today: int)
    ensures var r := SortBy(Filter(contacts, UpcomingAfter(today)), NextContactKey);
      && (forall i :: 0 <= i < |r| ==> r[i].nextContact > today)
      && (forall i, j :: 0 <= i < j < |r| ==> r[i].nextContact <= r[j].nextContact)
  {
    var upcoming := Filter(contacts, UpcomingAfter(today));
    SortBySorted(upcoming, NextContactKey);
    var r := SortBy(upcoming, NextContactKey);
    forall i | 0 <= i < |r| ensures r[i].nextContact > today {
      assert r[i] in multiset(upcoming);
      assert r[i] in upcoming;
      assert UpcomingAfter(today)(r[i]);
    }
  }

  lemma DueAndUpcomingCover(contacts: seq<Contact>, today: int)
    ensures multiset(AllDue(contacts, today)) + multiset(SortBy(Filter(contacts, UpcomingAfter(today)), NextContactKey))
         == multiset(contacts)
  {
    var due, upcoming := Filter(contacts, DueBy(today)), Filter(contacts, UpcomingAfter(today));
    FilterPartition(contacts, DueBy(today), UpcomingAfter(today));
    assert multiset(AllDue(contacts, today)) == multiset(due);
    assert multiset(SortBy(upcoming, NextContactKey)) == multiset(upcoming);
  }

  /** `getUpcomingContacts`: every contact not yet due, soonest first. */
  function UpcomingContacts(contacts: seq<Contact>, today: int): (r: seq<Contact>)
    ensures forall i :: 0 <= i < |r| ==> r[i].nextContact > today
    ensures forall i, j :: 0 <= i < j < |r| ==> r[i].nextContact <= r[j].nextContact
    ensures multiset(AllDue(contacts, today)) + multiset(r) == multiset(contacts)
  {
    UpcomingFacts(contacts, today);
    DueAndUpcomingCover(contacts, today);
    SortBy(Filter(contacts, UpcomingAfter(today)), NextContactKey)
  }

  /** Nothing is both due and upcoming. */
  lemma DueAndUpcomingDisjoint(contacts: seq<Contact>, today: int)
    ensures multiset(AllDue(contacts, today)) * multiset(UpcomingContacts(contacts, today)) == multiset{}
  {
    var d, u := AllDue(contacts, today), UpcomingContacts(contacts, today);
    AllDueFacts(contacts, today);
    forall c ensures (multiset(d) * multiset(u))[c] == 0 {
    }
  }

  /** The daily limit hides the least overdue contacts: every one shown is at least as overdue as every one held back. */
  lemma DueShowsMostOverdue(contacts: seq<Contact>, today: int, dailyLimit: nat)
    ensures var all := AllDue(contacts, today);
      var shown := DueContacts(contacts, today, dailyLimit);
      forall i, j :: 0 <= i < |shown| <= j < |all| ==> all[i].nextContact <= all[j].nextContact
  {
    SortBySorted(Filter(contacts, DueBy(today)), NextContactKey);
  }

  /** Contacts that fall due on the same past day are listed in the order they are stored. */
  lemma DueTiesKeepListOrder(contacts: seq<Contact>, today: int, day: int)
    requires day <= today
    ensures Filter(AllDue(contacts, today), FallsDueOn(day)) == Filter(contacts, FallsDueOn(day))
  {
    SortByStable(Filter(contacts, DueBy(today)), NextContactKey, day, FallsDueOn(day));
    FilterOfFilter(contacts, DueBy(today), FallsDueOn(day));
  }

  /** Contacts that fall due on the same future day are listed in the order they are stored. */
  lemma UpcomingTiesKeepListOrder(contacts: seq<Contact>, today: int, day: int)
    requires day > today
    ensures Filter(UpcomingContacts(contacts, today), FallsDueOn(day)) == Filter(contacts, FallsDueOn(day))
  {
    SortByStable(Filter(contacts, UpcomingAfter(today)), NextContactKey, day, FallsDueOn(day));
    FilterOfFilter(contacts, UpcomingAfter(today), FallsDueOn(day));
  }

  // ---------------------------------------------------------------------------
  // The component's state
  // ---------------------------------------------------------------------------

  /** The contacts and the daily limit the tracker component holds; each handler replaces the list. */
  class RelationshipTracker {
    var contacts: seq<Contact>
    var dailyLimit: nat

    ghost predicate Valid()
      reads this
    {
      AllValid(contacts)
    }

    /** Starts from the saved list and a limit of two contacts a day. */
    constructor (saved: seq<Contact>)
      ensures contacts == saved && dailyLimit == 2
    {
      contacts := saved;
      dailyLimit := 2;
    }

    method AddContact(id: int, today: int, form: ContactForm)
      modifies this
      ensures contacts == old(contacts) + [NewContact(id, today, form)]
      ensures dailyLimit == old(dailyLimit)
      ensures old(Valid()) ==> Valid()
    {
      var newContact := NewContact(id, today, form);
      NewContactValid(id, today, form);
      contacts := contacts + [newContact];
    }

    method UpdateContact(editingId: int, form: Contact)
      modifies this
      ensures contacts == UpdateInList(old(contacts), editingId, form)
      ensures dailyLimit == old(dailyLimit)
      ensures old(Valid()) ==> Valid()
    {
      if Valid() {
        UpdateInListValid(contacts, editingId, form);
      }
      contacts := UpdateInList(contacts, editingId, form);
    }

    method MarkAsContacted(contactId: int, m: Method, today: int)
      modifies this
      ensures contacts == MarkInList(old(contacts), contactId, m, today)
      ensures dailyLimit == old(dailyLimit)
      ensures old(Valid()) ==> Valid()
    {
      if Valid() {
        MarkInListValid(contacts, contactId, m, today);
      }
      contacts := MarkInList(contacts, contactId, m, today);
    }

    /** Deletes only when the user confirmed. */
    method DeleteContact(contactId: int, confirmed: bool)
      modifies this
      ensures contacts == if confirmed then RemoveId(old(contacts), contactId) else old(contacts)
      ensures dailyLimit == old(dailyLimit)
      ensures old(Valid()) ==> Valid()
    {
      if confirmed {
        if Valid() {
          RemoveIdValid(contacts, contactId);
        }
        contacts := RemoveId(contacts, contactId);
      }
    }

    method SetDailyLimit(limit: nat)
      modifies this
      ensures dailyLimit == limit && contacts == old(contacts)
    {
      dailyLimit := limit;
    }

    method GetDueContacts(today: int) returns (due: seq<Contact>)
      ensures due == DueContacts(contacts, today, dailyLimit)
      ensures |due| <= dailyLimit
    {
      due := DueContacts(contacts, today, dailyLimit);
    }

    method GetUpcomingContacts(today: int) returns (upcoming: seq<Contact>)
      ensures upcoming == UpcomingContacts(contacts, today)
    {
      upcoming := UpcomingContacts(contacts, today);
    }

    method GetWorkload() returns (w: Workload)
      ensures w == CalculateDailyWorkload(contacts)
    {
      w := CalculateDailyWorkload(contacts);
    }
  }
}
