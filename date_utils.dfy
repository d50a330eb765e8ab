/**
 * The cadence engine and its helper ladders: the next-contact calculator with
 * its two interval tables, the "days until" label, the strength tiers, the
 * conversation templates and the daily workload estimate.
 */
module DateUtils {
  import opened Seqs
  import opened Contacts

  // ---------------------------------------------------------------------------
  // Next-contact calculator
  // ---------------------------------------------------------------------------

  /** Day gaps of the gentle reconnection cadence, one per phase. */
  const EstrangedIntervals: seq<nat> := [1, 7, 14, 21, 30, 45, 60, 90]

  /** Day gaps of the maintenance rhythm for active relationships. */
  const MaintenanceIntervals: seq<nat> := [14, 30, 45, 60, 60]

  /** Nominal length of one pass through the reconnection cadence. */
  const TotalCycleDays: nat := 268

  const AverageInteractionsPerPerson: nat := 8

  /** The table a contact type is scheduled by. */
  function Intervals(contactType: ContactType): seq<nat>
  {
    if contactType == Estranged then EstrangedIntervals else MaintenanceIntervals
  }

  /** The gap after the `repCount`-th repetition: the table entry, clamped to the last one. */
  function DaysToAdd(repCount: nat, contactType: ContactType): (days: nat)
    ensures days in Intervals(contactType)
    ensures 1 <= days <= 90
  {
    if contactType == Estranged then
      var intervalIndex := if repCount < |EstrangedIntervals| then repCount else |EstrangedIntervals| - 1;
      EstrangedIntervals[intervalIndex]
    else
      var intervalIndex := Min(repCount, |MaintenanceIntervals| - 1);
      MaintenanceIntervals[intervalIndex]
  }

  /** The day a contact is next due, given the day of the last contact. */
  function CalculateNextContactDate(lastContactDate: int, repCount: nat, contactType: ContactType): (next: int)
    ensures lastContactDate < next <= lastContactDate + 90
    ensures next - lastContactDate in Intervals(contactType)
  {
    lastContactDate + DaysToAdd(repCount, contactType)
  }

  /** Both tables are read at `repCount` while it is inside the table and at the last entry beyond it. */
  lemma ClampToLastEntry(lastContactDate: int, repCount: nat, contactType: ContactType)
    ensures var table := Intervals(contactType);
      CalculateNextContactDate(lastContactDate, repCount, contactType)
        == lastContactDate + table[Min(repCount, |table| - 1)]
  {
  }

  /** From the eighth repetition on, a reconnecting contact settles into a 90-day rhythm. */
  lemma EstrangedMaintenanceMode(lastContactDate: int, repCount: nat)
    requires repCount >= 7
    ensures CalculateNextContactDate(lastContactDate, repCount, Estranged) == lastContactDate + 90
  {
  }

  /** From the fourth repetition on, an active contact is due every 60 days. */
  lemma ActivePlateau(lastContactDate: int, repCount: nat)
    requires repCount >= 3
    ensures CalculateNextContactDate(lastContactDate, repCount, Active) == lastContactDate + 60
  {
  }

  /** More repetitions never bring the next contact closer. */
  lemma DaysToAddMonotone(a: nat, b: nat, contactType: ContactType)
    requires a <= b
    ensures DaysToAdd(a, contactType) <= DaysToAdd(b, contactType)
  {
  }

  function Sum(s: seq<nat>): nat
  {
    if s == [] then 0 else Sum(s[..|s| - 1]) + s[|s| - 1]
  }

  /**
   * The due date of the `k`-th step of the cadence when every contact happens
   * exactly on its due date; step 0 is the date fixed when the contact is added.
   */
  function OnScheduleDate(start: int, k: nat, contactType: ContactType): int
  {
    if k == 0 then CalculateNextContactDate(start, 0, contactType)
    else CalculateNextContactDate(OnScheduleDate(start, k - 1, contactType), k, contactType)
  }

  /** Gaps are added to the previous date, so the `k`-th due date is the start plus a prefix sum of the table. */
  lemma {:induction false} OnScheduleDateIsPrefixSum(start: int, k: nat, contactType: ContactType)
    requires k < |Intervals(contactType)|
    ensures OnScheduleDate(start, k, contactType) == start + Sum(Intervals(contactType)[..k + 1])
  {
    var table := Intervals(contactType);
    if k == 0 {
      assert table[..1] == [table[0]];
      assert Sum([table[0]]) == Sum([]) + table[0];
    } else {
      OnScheduleDateIsPrefixSum(start, k - 1, contactType);
      assert table[..k + 1][..k] == table[..k];
    }
  }

  /** The 268-day cycle constant is the sum of the reconnection table: the last phase falls due 268 days after adding. */
  lemma {:induction false} FullCycleIs268Days(start: int)
    ensures Sum(EstrangedIntervals) == TotalCycleDays
    ensures OnScheduleDate(start, |EstrangedIntervals| - 1, Estranged) == start + TotalCycleDays
  {
    OnScheduleDateIsPrefixSum(start, 7, Estranged);
    assert EstrangedIntervals[..8] == EstrangedIntervals;
    var s := EstrangedIntervals;
    assert s[..7][..6] == s[..6] && s[..6][..5] == s[..5] && s[..5][..4] == s[..4];
    assert s[..4][..3] == s[..3] && s[..3][..2] == s[..2] && s[..2][..1] == s[..1];
    assert s[..1][..0] == [];
    assert Sum(s[..1]) == 1;
    assert Sum(s[..2]) == 8;
    assert Sum(s[..3]) == 22;
    assert Sum(s[..4]) == 43;
    assert Sum(s[..5]) == 73;
    assert Sum(s[..6]) == 118;
    assert Sum(s[..7]) == 178;
  }

  // ---------------------------------------------------------------------------
  // "Days until" label
  // ---------------------------------------------------------------------------

  predicate IsDigit(c: char)
  {
    '0' <= c <= '9'
  }

  function DigitChar(d: nat): (c: char)
    requires d < 10
    ensures IsDigit(c) && c as int - '0' as int == d
  {
    (d + '0' as int) as char
  }

  /** Decimal digits of `n`, most significant first, as a template literal writes a number. */
  function DecimalString(n: nat): (s: string)
    ensures |s| >= 1
    ensures forall i :: 0 <= i < |s| ==> IsDigit(s[i])
    ensures s[0] == '0' <==> n == 0
    decreases n
  {
    if n < 10 then [DigitChar(n)] else DecimalString(n / 10) + [DigitChar(n % 10)]
  }

  /** The number a string of decimal digits denotes. */
  function DecimalValue(s: string): nat
    requires forall i :: 0 <= i < |s| ==> IsDigit(s[i])
  {
    if s == [] then 0
    else
      assert IsDigit(s[|s| - 1]);
      DecimalValue(s[..|s| - 1]) * 10 + (s[|s| - 1] as int - '0' as int)
  }

  lemma {:induction false} DecimalRoundTrip(n: nat)
    ensures DecimalValue(DecimalString(n)) == n
    decreases n
  {
    var s := DecimalString(n);
    if n >= 10 {
      DecimalRoundTrip(n / 10);
      assert s[..|s| - 1] == DecimalString(n / 10);
    }
  }

  const OverdueSuffix := " days overdue"
  const DaysSuffix := " days"

  /** The label for a signed whole-day difference between the next contact and today. */
  function DaysUntilLabel(diffDays: int): (text: string)
    ensures |text| >= 1
    ensures IsDigit(text[0]) <==> diffDays != 0 && diffDays != 1
  {
    if diffDays < 0 then DecimalString(-diffDays) + OverdueSuffix
    else if diffDays == 0 then "Today"
    else if diffDays == 1 then "Tomorrow"
    else DecimalString(diffDays) + DaysSuffix
  }

  lemma DecimalStringInjective(a: nat, b: nat)
    requires DecimalString(a) == DecimalString(b)
    ensures a == b
  {
    DecimalRoundTrip(a);
    DecimalRoundTrip(b);
  }

  /**
   * What the label says: "Today" and "Tomorrow" for 0 and 1; otherwise the
   * distance in days, written in decimal, followed by " days overdue" for a
   * past date or " days" for a later one.
   */
  lemma DaysUntilLabelShowsDistance(d: int)
    ensures d == 0 ==> DaysUntilLabel(d) == "Today"
    ensures d == 1 ==> DaysUntilLabel(d) == "Tomorrow"
    ensures d < 0 ==>
      var text, n := DaysUntilLabel(d), |DaysUntilLabel(d)| - |OverdueSuffix|;
      n >= 1 && text[n..] == OverdueSuffix
      && (forall i :: 0 <= i < n ==> IsDigit(text[i])) && DecimalValue(text[..n]) == -d
      && text[..n] == DecimalString(-d)
    ensures d >= 2 ==>
      var text, n := DaysUntilLabel(d), |DaysUntilLabel(d)| - |DaysSuffix|;
      n >= 1 && text[n..] == DaysSuffix
      && (forall i :: 0 <= i < n ==> IsDigit(text[i])) && DecimalValue(text[..n]) == d
      && text[..n] == DecimalString(d)
  {
    var text := DaysUntilLabel(d);
    if d < 0 {
      DecimalRoundTrip(-d);
      assert text[..|text| - |OverdueSuffix|] == DecimalString(-d);
    } else if d >= 2 {
      DecimalRoundTrip(d);
      assert text[..|text| - |DaysSuffix|] == DecimalString(d);
    }
  }

  /** An overdue label ends in the 'e' of "overdue", a future one in the 's' of "days". */
  lemma DaysUntilLabelEnding(d: int)
    ensures var text := DaysUntilLabel(d);
      (d < 0 ==> text[|text| - 1] == 'e') && (d >= 2 ==> text[|text| - 1] == 's')
  {
  }

  /** No two day differences share a label: the label determines how far away, and on which side of today, the date is. */
  lemma DaysUntilLabelInjective(d1: int, d2: int)
    requires DaysUntilLabel(d1) == DaysUntilLabel(d2)
    ensures d1 == d2
  {
    var l1, l2 := DaysUntilLabel(d1), DaysUntilLabel(d2);
    if d1 < 0 && d2 < 0 {
      var a, b := DecimalString(-d1), DecimalString(-d2);
      assert a == l1[..|l1| - |OverdueSuffix|];
      assert b == l2[..|l2| - |OverdueSuffix|];
      DecimalStringInjective(-d1, -d2);
    } else if d1 >= 2 && d2 >= 2 {
      var a, b := DecimalString(d1), DecimalString(d2);
      assert a == l1[..|l1| - |DaysSuffix|];
      assert b == l2[..|l2| - |DaysSuffix|];
      DecimalStringInjective(d1, d2);
    } else if (d1 == 0 || d1 == 1) && (d2 == 0 || d2 == 1) {
      assert |"Today"| == 5 && |"Tomorrow"| == 8;
    } else if (d1 < 0 && d2 >= 2) || (d2 < 0 && d1 >= 2) {
      DaysUntilLabelEnding(d1);
      DaysUntilLabelEnding(d2);
      assert false;
    }
  }

  // ---------------------------------------------------------------------------
  // Relationship strength
  // ---------------------------------------------------------------------------

  /** Score thresholds of tiers 2 to 5 (5, 10, 15 and 20 points), in half-points. */
  const StrengthThresholds: seq<int> := [10, 20, 30, 40]

  const TierNames: seq<string> := ["New", "Started", "Building", "Strong", "Reconnected"]

  datatype Strength = Strength(name: string, stars: nat)

  /** The tier of a relationship score given in half-points: the highest threshold reached wins. */
  function GetRelationshipStrength(score: int): (s: Strength)
    ensures 1 <= s.stars <= 5
    ensures s.name == TierNames[s.stars - 1]
    ensures forall k :: 0 <= k < |StrengthThresholds| ==> (s.stars > k + 1 <==> score >= StrengthThresholds[k])
  {
    if score >= 40 then Strength("Reconnected", 5)
    else if score >= 30 then Strength("Strong", 4)
    else if score >= 20 then Strength("Building", 3)
    else if score >= 10 then Strength("Started", 2)
    else Strength("New", 1)
  }

  /** A higher score never means fewer stars. */
  lemma StrengthMonotone(a: int, b: int)
    requires a <= b
    ensures GetRelationshipStrength(a).stars <= GetRelationshipStrength(b).stars
  {
  }

  // ---------------------------------------------------------------------------
  // Conversation starters
  // ---------------------------------------------------------------------------

  const DefaultConnection := "our time together"
  const DefaultActivity := "hang out"
  const Greeting := "Hey "
  const ThinkingAbout := "! Been thinking about "
  const HowHaveYouBeen := " lately. How have you been?"
  const CallInvitation := "Good to hear from you! Would love to catch up properly - free for a call this week?"
  const CoffeeInvitation := "Want to grab coffee sometime? Would be great to reconnect in person!"
  const RememberHow := "Remember how we used to "
  const TrySomethingFun := "? Want to try something fun together?"
  const ClosingSuggestion := "Hope you're doing amazing! Just wanted you to know I think of you fondly."

  /** JavaScript's `value || fallback` on an optional string: an absent or empty value gives way to the fallback. */
  function OrElse(value: Option<string>, fallback: string): (r: string)
    ensures value.Some? && value.value != "" ==> r == value.value
    ensures value.None? || value.value == "" ==> r == fallback
  {
    if value.Some? && value.value != "" then value.value else fallback
  }

  /** The five templates, one per phase, filled with the first name and the shared memory. */
  function Suggestions(contactName: string, pastConnection: Option<string>): (r: seq<string>)
    ensures |r| == 5
  {
    [ Greeting + contactName + ThinkingAbout + OrElse(pastConnection, DefaultConnection) + HowHaveYouBeen,
      CallInvitation,
      CoffeeInvitation,
      RememberHow + OrElse(pastConnection, DefaultActivity) + TrySomethingFun,
      ClosingSuggestion ]
  }

  /** The conversation starter for a contact at repetition `repCount`. */
  function GetConversationSuggestion(repCount: nat, contactName: string, pastConnection: Option<string>): (r: string)
    ensures r in Suggestions(contactName, pastConnection)
    ensures repCount >= |Suggestions(contactName, pastConnection)| - 1 ==> r == ClosingSuggestion
  {
    var suggestions := Suggestions(contactName, pastConnection);
    suggestions[Min(repCount, |suggestions| - 1)]
  }

  /**
   * The starter of each phase: the greeting with the shared memory (or "our
   * time together"), the call invitation, the coffee invitation, the
   * "remember how" starter with the shared memory (or "hang out"), and the
   * closing note from the fifth phase on.
   */
  lemma StarterOfEachPhase(repCount: nat, contactName: string, pastConnection: Option<string>)
    ensures var r := GetConversationSuggestion(repCount, contactName, pastConnection);
      && (repCount == 0 ==> r == Greeting + contactName + ThinkingAbout + OrElse(pastConnection, DefaultConnection) + HowHaveYouBeen)
      && (repCount == 1 ==> r == CallInvitation)
      && (repCount == 2 ==> r == CoffeeInvitation)
      && (repCount == 3 ==> r == RememberHow + OrElse(pastConnection, DefaultActivity) + TrySomethingFun)
      && (repCount >= 4 ==> r == ClosingSuggestion)
  {
  }

  /** Without a shared memory the first and fourth starters fall back to "our time together" and "hang out". */
  lemma StarterFallbacks(contactName: string, pastConnection: Option<string>)
    requires pastConnection.None? || pastConnection.value == ""
    ensures GetConversationSuggestion(0, contactName, pastConnection)
         == Greeting + contactName + ThinkingAbout + DefaultConnection + HowHaveYouBeen
    ensures GetConversationSuggestion(3, contactName, pastConnection)
         == RememberHow + DefaultActivity + TrySomethingFun
  {
  }

  /** An empty shared memory is treated exactly like a missing one. */
  lemma EmptyConnectionIsAbsent(repCount: nat, contactName: string)
    ensures GetConversationSuggestion(repCount, contactName, Some(""))
         == GetConversationSuggestion(repCount, contactName, None)
  {
  }

  /** Only the first and the fourth templates mention the shared memory. */
  lemma ConnectionOnlyInPhasesOneAndFour(repCount: nat, contactName: string, p1: Option<string>, p2: Option<string>)
    requires repCount != 0 && repCount != 3
    ensures GetConversationSuggestion(repCount, contactName, p1)
         == GetConversationSuggestion(repCount, contactName, p2)
  {
  }

  /** Whatever is known, the first-phase starter greets the contact by the given name. */
  lemma FirstStarterGreetsByName(contactName: string, pastConnection: Option<string>)
    ensures var r := GetConversationSuggestion(0, contactName, pastConnection);
      |r| > |Greeting| + |contactName| && r[..|Greeting|] == Greeting
      && r[|Greeting|..|Greeting| + |contactName|] == contactName
  {
    var s1 := Greeting + contactName;
    var s2 := s1 + ThinkingAbout;
    var s3 := s2 + OrElse(pastConnection, DefaultConnection);
    var r := s3 + HowHaveYouBeen;
    assert r == GetConversationSuggestion(0, contactName, pastConnection);
    assert r[..|s1|] == s1 by {
      assert r[..|s3|] == s3 && s3[..|s2|] == s2 && s2[..|s1|] == s1;
      assert r[..|s1|] == r[..|s3|][..|s2|][..|s1|];
    }
    assert s1[..|Greeting|] == Greeting && s1[|Greeting|..] == contactName;
    assert r[..|Greeting|] == s1[..|Greeting|];
    assert r[|Greeting|..|s1|] == s1[|Greeting|..];
  }

  // ---------------------------------------------------------------------------
  // Daily workload
  // ---------------------------------------------------------------------------

  const SustainableWorkload := "Sustainable workload"
  const OverloadAdvice := "Consider reducing contacts or extending intervals"

  /** `dailyAverage` is kept in tenths of a contact per day. */
  datatype Workload = Workload(dailyAverageTenths: nat, totalPeople: nat, manageable: bool, recommendation: string)

  predicate IsEstranged(c: Contact)
  {
    c.contactType == Estranged
  }

  predicate IsActive(c: Contact)
  {
    c.contactType == Active
  }

  /**
   * The daily contact rate the reconnecting contacts need: each of them is
   * contacted 8 times per 268-day cycle. The exact ratio decides `manageable`;
   * only the displayed average is rounded, half up, to one decimal.
   */
  function CalculateDailyWorkload(contacts: seq<Contact>): (w: Workload)
    ensures w.totalPeople == |Filter(contacts, IsEstranged)|
    ensures w.manageable <==> w.totalPeople <= 100
    ensures w.recommendation == SustainableWorkload <==> w.manageable
    ensures w.recommendation in {SustainableWorkload, OverloadAdvice}
    ensures 268 * w.dailyAverageTenths - 134 <= 80 * w.totalPeople < 268 * w.dailyAverageTenths + 134
  {
    var totalPeople := |Filter(contacts, IsEstranged)|;
    // dailyAverage is scaled / TotalCycleDays as an exact ratio
    var scaled := totalPeople * AverageInteractionsPerPerson;
    Workload(
      (20 * scaled + TotalCycleDays) / (2 * TotalCycleDays),
      totalPeople,
      scaled <= 3 * TotalCycleDays,
      if scaled > 3 * TotalCycleDays then OverloadAdvice else SustainableWorkload)
  }

  /** Every contact is either reconnecting or active, so the estimate counts all contacts that are not active. */
  lemma WorkloadCountsAllButActive(contacts: seq<Contact>)
    ensures CalculateDailyWorkload(contacts).totalPeople + |Filter(contacts, IsActive)| == |contacts|
  {
    FilterPartition(contacts, IsEstranged, IsActive);
  }

  /**
   * The rounded average shown never exceeds 3.0 for a manageable workload, but
   * reads 3.0 for an unmanageable one exactly when there are 101 or 102 people.
   */
  lemma RoundedAverageAtBoundary(contacts: seq<Contact>)
    ensures var w := CalculateDailyWorkload(contacts);
      (w.manageable ==> w.dailyAverageTenths <= 30)
      && ((!w.manageable && w.dailyAverageTenths <= 30) <==> w.totalPeople in {101, 102})
  {
  }
}
