# Relationship tracker: a Dafny model

The model covers the core of a small React application that helps someone
reconnect with people they have drifted apart from ("estranged" contacts)
and keep up with people they already see ("active" contacts). Each contact
gets a schedule. An estranged contact moves through eight phases spaced
1, 7, 14, 21, 30, 45, 60 and 90 days apart, then stays on 90 days. An
active contact follows a 14 / 30 / 45 / 60 / 60 day rhythm. Logging an
interaction (message, call, meetup or trip) does four things:

- it moves the contact one phase on;
- it adds the interaction's weight to a relationship score;
- it keeps the last ten interactions;
- it reschedules the next contact.

The tracker shows contacts that are due, sorted by how overdue they are and
cut to a daily limit. It also shows upcoming contacts in date order and
estimates how many contacts a day the estranged list costs.

The model has five modules:

- `Seqs` (`seqs.dfy`): JavaScript's `filter`, `slice(0, n)`, `slice(-n)`
  and its stable `sort`. The sort is modelled as a stable insertion sort by
  key, with proofs that it sorts, permutes and is stable.
- `Contacts` (`contacts.dfy`): the contact record, the add-form record,
  interaction methods and contact types.
- `DateUtils` (`date_utils.dfy`): `src/utils/dateUtils.js`, covering the
  schedule, the "days until" label, the strength tiers, the conversation
  starters and the workload estimate.
- `ContactCard` (`contact_card.dfy`): the non-visual logic of
  `src/components/ContactCard.js`. This is the suggested interaction, the
  phase description, the first name the starter greets, and the table of
  interaction types.
- `Tracker` (`tracker.dfy`): the list transforms of
  `src/components/RelationshipTracker.js` and a class `RelationshipTracker`.
  The class holds the component state (`contacts`, `dailyLimit`). Its
  handlers replace that state the way the component's `setContacts` /
  `setDailyLimit` calls do.

Units used throughout:

- Dates are whole day numbers (days since some epoch).
- Interaction weights and scores are counted in half-points, so a message
  is 1, a call 2, a meetup 4, a trip 6, and a method outside the table 2.
  The strength thresholds 5 / 10 / 15 / 20 points become 10 / 20 / 30 / 40.
- The workload's `dailyAverage` is kept in tenths, which is what
  `Math.round(x * 10) / 10` shows.

A contact invariant, `Tracker.ContactInvariant`, ties the stored fields
together:

- the next date is the one the schedule gives for the last contact, the
  phase and the type;
- the phase equals the total number of contacts;
- the history holds the last `min(total, 10)` interactions, each with its
  method's weight;
- the score lies between one half-point and six half-points per contact and
  is at least the history's weight.

Every handler preserves the invariant.

## Model

| member | source | states |
|---|---|---|
| DateUtils.DaysToAdd | src/utils/dateUtils.js:8-21 | the gap added is an entry of the contact type's interval table and lies between 1 and 90 days |
| DateUtils.CalculateNextContactDate | src/utils/dateUtils.js:2-27 | the next date lies strictly after the last contact and at most 90 days later, and the gap is one of the type's intervals |
| DateUtils.ClampToLastEntry | src/utils/dateUtils.js:11-21 | the gap is the table entry at the repetition count, clamped to the table's last index, for both contact types |
| DateUtils.EstrangedMaintenanceMode | src/utils/dateUtils.js:10-16 | from repetition 7 on, an estranged contact is rescheduled 90 days out (maintenance mode) |
| DateUtils.ActivePlateau | src/utils/dateUtils.js:19-25 | from repetition 3 on, an active contact is rescheduled 60 days out |
| DateUtils.DaysToAddMonotone | src/utils/dateUtils.js:8-21 | a higher repetition count never gives a shorter gap |
| DateUtils.OnScheduleDateIsPrefixSum | src/utils/dateUtils.js:2-27 | a contact reached on every due date is, after phase k, scheduled start + the sum of the first k+1 intervals |
| DateUtils.FullCycleIs268Days | src/utils/dateUtils.js:75-76 | the estranged intervals add up to 268 days, the cycle length the workload estimate divides by, and the eighth due date falls 268 days after the start |
| DateUtils.DigitChar | src/utils/dateUtils.js:43-46 | the character written for a digit is a decimal digit with that value |
| DateUtils.DecimalString | src/utils/dateUtils.js:43-46 | a number interpolated into the label is a nonempty run of decimal digits, with a leading zero only for 0 itself |
| DateUtils.DecimalRoundTrip | src/utils/dateUtils.js:43-46 | reading back the digits of a number gives the number |
| DateUtils.DecimalStringInjective | src/utils/dateUtils.js:43-46 | different numbers print differently |
| DateUtils.DaysUntilLabel | src/utils/dateUtils.js:37-47 | the label starts with a digit exactly when the date is neither today nor tomorrow |
| DateUtils.DaysUntilLabelShowsDistance | src/utils/dateUtils.js:43-46 | 0 reads "Today" and 1 "Tomorrow"; a past date reads \|d\| in decimal followed by " days overdue", a later one d followed by " days" (the digits are exactly the decimal form of the distance, with no leading zero, and read back as it) |
| DateUtils.DaysUntilLabelEnding | src/utils/dateUtils.js:43-46 | an overdue label ends with the "e" of "overdue" and a label two or more days ahead with the "s" of "days", so the two kinds never coincide |
| DateUtils.DaysUntilLabelInjective | src/utils/dateUtils.js:37-47 | two day differences with the same label are equal, so the label never confuses overdue with upcoming |
| DateUtils.GetRelationshipStrength | src/utils/dateUtils.js:49-55 | 1 to 5 stars, the tier name matching the stars, and more than k+1 stars exactly when the score reaches the k-th threshold (5, 10, 15, 20 points) |
| DateUtils.StrengthMonotone | src/utils/dateUtils.js:49-55 | a higher score never earns fewer stars |
| DateUtils.OrElse | src/utils/dateUtils.js:60-63 | `x \|\| fallback` on a string: the value when present and nonempty, otherwise the fallback |
| DateUtils.Suggestions | src/utils/dateUtils.js:59-65 | there are five conversation starters |
| DateUtils.GetConversationSuggestion | src/utils/dateUtils.js:58-68 | the answer is one of the five starters, and from repetition 4 on it is always the closing one |
| DateUtils.StarterOfEachPhase | src/utils/dateUtils.js:59-67 | repetition 0 greets by name with the shared memory, 1 gives the call invitation, 2 the coffee invitation, 3 the "remember how" starter with the shared memory, and 4 on the closing note |
| DateUtils.StarterFallbacks | src/utils/dateUtils.js:60-63 | without a shared memory the first starter says "our time together" and the fourth "hang out" |
| DateUtils.EmptyConnectionIsAbsent | src/utils/dateUtils.js:60-63 | an empty past connection is treated like a missing one |
| DateUtils.ConnectionOnlyInPhasesOneAndFour | src/utils/dateUtils.js:59-67 | outside repetitions 0 and 3 the past connection does not affect the starter |
| DateUtils.FirstStarterGreetsByName | src/utils/dateUtils.js:60 | the first starter begins with "Hey " followed by the contact's name |
| DateUtils.CalculateDailyWorkload | src/utils/dateUtils.js:71-87 | it counts the estranged contacts; manageable exactly when 8n/268 ≤ 3, i.e. at most 100 people; the recommendation is the sustainable one exactly when manageable; the shown average is 8n/268 rounded to the nearest tenth |
| DateUtils.WorkloadCountsAllButActive | src/utils/dateUtils.js:73 | the people counted are all contacts except the active ones |
| DateUtils.RoundedAverageAtBoundary | src/utils/dateUtils.js:82-84 | a manageable list never shows an average above 3.0, and an unmanageable one shows 3.0 exactly at 101 and 102 people, because the verdict uses the unrounded value |
| ContactCard.SuggestedInteraction | src/components/ContactCard.js:15-31 | the suggestion is one of the card's interaction types and never a trip |
| ContactCard.EstrangedSuggestionLadder | src/components/ContactCard.js:18-24 | a reconnecting contact gets a message up to repetition 1 (and for a negative count), a call at 2, and a meetup from 3 on |
| ContactCard.ActiveSuggestionByElapsedDays | src/components/ContactCard.js:25-29 | an active contact gets a call exactly when 14 or more days have passed, otherwise a message |
| ContactCard.MissingRepCountIsZero | src/components/ContactCard.js:16 | a missing repetition count is advised like 0 |
| ContactCard.PhaseDescription | src/components/ContactCard.js:41-47 | a nonnegative count names phase min(count, 3), and "Reconnecting" is returned exactly for a negative count |
| ContactCard.FirstName | src/components/ContactCard.js:36 | the first name is a prefix of the name, contains no space, and is followed by a space when it is shorter than the name |
| ContactCard.CardConversationSuggestion | src/components/ContactCard.js:34-38 | a starter is shown exactly on a due card; it is the starter for the contact's repetition count, its first name and its shared memory, and on a first contact it greets the first name |
| Tracker.InteractionWeight | src/components/RelationshipTracker.js:70-79 | every interaction weighs between a half and three points |
| Tracker.CardWeightsMatchLoggedWeights | src/components/ContactCard.js:6-11 | the weights the card shows are the weights the handler adds, and a method outside the table weighs like a call |
| Tracker.LogInteraction | src/components/RelationshipTracker.js:78-107 | phase and total +1; score + the weight; last contact today with this method; rescheduled from today at the new phase; history is the last ten of old history + the new interaction, which comes last; identity, type and notes unchanged |
| Tracker.MarkInList | src/components/RelationshipTracker.js:77-109 | same length; contacts with the id log the interaction, every other contact is unchanged |
| Tracker.MarkKeepsOrderAndScores | src/components/RelationshipTracker.js:77-109 | each position keeps its id, no score drops and no history grows past ten |
| Tracker.NewContact | src/components/RelationshipTracker.js:24-40 | the form's fields are kept, counters and score start at zero with no method and an empty history, and the first date is the phase-0 date from the form's last contact |
| Tracker.EditContact | src/components/RelationshipTracker.js:47-62 | id, counters, score and history come from the stored contact, everything else from the form, and the date is recomputed from the edited last contact and type at the stored count |
| Tracker.UpdateInList | src/components/RelationshipTracker.js:46-65 | same length; the edited id is replaced by its edit, every other contact is unchanged |
| Tracker.RemoveId | src/components/RelationshipTracker.js:116 | no contact with the id remains, every other contact remains, and the length drops by the number of matches |
| Tracker.RemoveIdKeepsOrder | src/components/RelationshipTracker.js:116 | deleting distributes over concatenation, so the survivors keep their order |
| Tracker.RemoveAbsentId | src/components/RelationshipTracker.js:116 | deleting an id no contact has leaves the list unchanged |
| Tracker.RemoveIdKeepsOthers | src/components/RelationshipTracker.js:116 | every other contact keeps its multiplicity |
| Tracker.WeightSumOfHistory | src/components/RelationshipTracker.js:105 | dropping the oldest entries never raises the history's weight |
| Tracker.HistoryWeightsMatch | src/components/RelationshipTracker.js:105 | keeping the last ten entries of the history keeps every entry's weight equal to its method's weight |
| Tracker.NewContactValid | src/components/RelationshipTracker.js:24-40 | a new contact satisfies the contact invariant |
| Tracker.LogInteractionValid | src/components/RelationshipTracker.js:78-107 | logging an interaction preserves the contact invariant |
| Tracker.EditContactValid | src/components/RelationshipTracker.js:47-62 | editing preserves the contact invariant |
| Tracker.MarkInListValid | src/components/RelationshipTracker.js:77-109 | marking keeps every contact of the list valid |
| Tracker.UpdateInListValid | src/components/RelationshipTracker.js:46-65 | editing keeps every contact of the list valid |
| Tracker.RemoveIdValid | src/components/RelationshipTracker.js:114-118 | deleting keeps every contact of the list valid |
| Tracker.OnSchedule | src/components/RelationshipTracker.js:78-107 | k interactions logged on their due dates move the phase on by k and keep the type |
| Tracker.ContactedOnScheduleFollowsCadence | src/components/RelationshipTracker.js:85-89 | a new contact reached on each due date is scheduled exactly by the interval table's prefix sums |
| Tracker.AllDueFacts | src/components/RelationshipTracker.js:122-125 | the sorted due list holds exactly the contacts due by today, in date order |
| Tracker.DueContacts | src/components/RelationshipTracker.js:120-128 | every shown contact is due, shown in date order, as many as the limit allows, as the head of the whole sorted due list, and each at most as often as it is stored |
| Tracker.UpcomingFacts | src/components/RelationshipTracker.js:132-135 | the upcoming list holds only future contacts, in date order |
| Tracker.DueAndUpcomingCover | src/components/RelationshipTracker.js:120-136 | the unlimited due list and the upcoming list together hold every contact exactly once |
| Tracker.UpcomingContacts | src/components/RelationshipTracker.js:130-136 | every contact shown is in the future, in date order, and with the unlimited due list it partitions the contacts |
| Tracker.DueAndUpcomingDisjoint | src/components/RelationshipTracker.js:122-134 | no contact is both due and upcoming |
| Tracker.DueShowsMostOverdue | src/components/RelationshipTracker.js:125-127 | every due contact the limit hides is due no earlier than every contact shown |
| Tracker.DueTiesKeepListOrder | src/components/RelationshipTracker.js:125 | due contacts with the same date appear in their stored order (the sort is stable) |
| Tracker.UpcomingTiesKeepListOrder | src/components/RelationshipTracker.js:132-135 | upcoming contacts with the same date appear in their stored order (the sort is stable) |
| Tracker.RelationshipTracker.constructor | src/components/RelationshipTracker.js:9-18 | the state starts as the loaded list with a daily limit of 2 |
| Tracker.RelationshipTracker.AddContact | src/components/RelationshipTracker.js:24-44 | the new contact is appended, the limit is unchanged, and a valid list stays valid |
| Tracker.RelationshipTracker.UpdateContact | src/components/RelationshipTracker.js:46-67 | the list becomes its edited version, the limit is unchanged, and a valid list stays valid |
| Tracker.RelationshipTracker.MarkAsContacted | src/components/RelationshipTracker.js:69-112 | the list becomes its marked version, the limit is unchanged, and a valid list stays valid |
| Tracker.RelationshipTracker.DeleteContact | src/components/RelationshipTracker.js:114-118 | a confirmed delete removes the id and a declined one changes nothing; a valid list stays valid |
| Tracker.RelationshipTracker.SetDailyLimit | src/components/RelationshipTracker.js:261 | the limit becomes the chosen value and the list is unchanged |
| Tracker.RelationshipTracker.GetDueContacts | src/components/RelationshipTracker.js:120-128 | the due view of the current state, never longer than the daily limit |
| Tracker.RelationshipTracker.GetUpcomingContacts | src/components/RelationshipTracker.js:130-136 | the upcoming view of the current state |
| Tracker.RelationshipTracker.GetWorkload | src/components/RelationshipTracker.js:142 | the workload estimate of the current list |
| Seqs.Filter | src/components/RelationshipTracker.js:116 | a filter keeps exactly the elements satisfying the predicate and never grows the list |
| Seqs.FilterAppend | src/components/RelationshipTracker.js:122-124 | filtering distributes over concatenation, so order is kept |
| Seqs.FilterPartition | src/components/RelationshipTracker.js:122-134 | a predicate and its negation split a list into two parts that together hold it exactly |
| Seqs.FilterOfFilter | src/components/RelationshipTracker.js:122-135 | filtering by a weaker predicate first does not change what a stricter filter keeps, nor its order |
| Seqs.LastN | src/components/RelationshipTracker.js:105 | `slice(-10)` keeps the last min(10, length) elements |
| Seqs.Take | src/components/RelationshipTracker.js:127 | `slice(0, n)` keeps the first min(n, length) elements |
| Seqs.SortBy | src/components/RelationshipTracker.js:125 | the sort returns a permutation of its input |
| Seqs.SortBySorted | src/components/RelationshipTracker.js:125 | the sort's result is in ascending key order |
| Seqs.SortByStable | src/components/RelationshipTracker.js:125 | among equal keys the sort keeps the input order |

## Left out

- Persistence is not modelled. `loadContacts`, `saveContacts` and `exportContacts` live in `src/utils/storageUtils.js`, which is not part of this model. The constructor takes the loaded list as a parameter, and the save effect is not modelled.
- The clock is not modelled. `new Date()` and `Date.now()` become parameters: `today` in day numbers, the new contact's `id`, the days since the last contact, and the day difference of the label.
- Calendar arithmetic (`setDate`, time zones, daylight saving, ISO date strings) is replaced by adding whole days.
- `formatDate` is left out: it is locale formatting done by the runtime.
- Floating point is replaced by exact arithmetic in half-points and tenths. The "Avg Score" display (`toFixed`) is left out.
- Rendering is left out: JSX, colours, icons, the `slice(0, 20)` of the upcoming section, and the form components (`ContactForm`, `App`).
- `window.confirm` is replaced by the `confirmed` parameter of `DeleteContact`.
- The form offers only the two contact types, so `ContactType` has no other value. `calculateNextContactDate` treats any other string as active. A record with no `contactType` at all is scheduled as estranged by the parameter's default, yet the card and the workload count treat it as not estranged; such records are not modelled.
- Records saved by older versions may lack fields such as `interactions`, `relationshipScore` or `repCount`. The `|| []` and `|| 0` fallbacks are modelled only where the card reads `repCount`, and as `OrElse` for the past connection. The `Contact` record otherwise always has every field.
- Tracker.LogInteraction: does not model a negative or non-integer stored repetition count, because `repCount` is a `nat` in the record.
- DateUtils.GetRelationshipStrength: does not return the tier's colour class, because it is presentation only.
- Tracker.EditContact: assumes the component's `editingContact` is the record whose id is passed, because the model has no editing state.
- Tracker.DueAndUpcomingCover: holds only for records with a valid next date. The add form does not require a last-contact date, and without one the next date is an invalid date, which is neither due nor upcoming, so such a contact appears in neither list until a reload turns the saved value into null, which compares as the 1970 epoch and so reads as due. Dates here are integers, so the model cannot express that record; the same holds for Tracker.UpcomingContacts.
