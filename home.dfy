/** The planner form: the interest toggle, the checks made before a
    generation request, and the rotating messages shown while it runs. */
module Home {
  import opened Types
  import Text
  import Gemini

  /** `list.filter(i => i !== x)`. */
  function RemoveInterest(list: seq<string>, x: string): (r: seq<string>)
    ensures |r| <= |list|
    ensures forall y :: y in r <==> y in list && y != x
  {
    if list == [] then []
    else
      var rest := RemoveInterest(list[..|list| - 1], x);
      var last := list[|list| - 1];
      assert list == list[..|list| - 1] + [last];
      if last != x then rest + [last] else rest
  }

  /** The update `handleInterestChange` applies to the chosen interests: the
      toggled interest flips membership and no other changes. */
  function ToggleInterest(list: seq<string>, x: string): (r: seq<string>)
    ensures x in r <==> x !in list
    ensures forall y :: y != x ==> (y in r <==> y in list)
  {
    if x in list then RemoveInterest(list, x) else list + [x]
  }

  lemma {:induction false} RemoveInterestConcat(a: seq<string>, b: seq<string>, x: string)
    ensures RemoveInterest(a + b, x) == RemoveInterest(a, x) + RemoveInterest(b, x)
  {
    if b == [] {
      assert a + b == a;
    } else {
      var b' := b[..|b| - 1];
      assert (a + b)[..|a + b| - 1] == a + b';
      assert (a + b)[|a + b| - 1] == b[|b| - 1];
      RemoveInterestConcat(a, b', x);
    }
  }

  lemma {:induction false} RemoveAbsentInterest(list: seq<string>, x: string)
    requires x !in list
    ensures RemoveInterest(list, x) == list
  {
    if list != [] {
      var init := list[..|list| - 1];
      assert list == init + [list[|list| - 1]];
      RemoveAbsentInterest(init, x);
    }
  }

  /** Toggling an absent interest appends it; toggling a present one removes
      all its occurrences and keeps the others in order (removal distributes
      over concatenation); either way only that interest changes membership. */
  lemma ToggleInterestEffect(list: seq<string>, x: string)
    ensures x !in list ==> ToggleInterest(list, x) == list + [x]
    ensures x in list ==> x !in ToggleInterest(list, x)
    ensures forall a, b :: list == a + b && x in list ==>
              ToggleInterest(list, x) == RemoveInterest(a, x) + RemoveInterest(b, x)
    ensures forall y :: y != x ==> (y in ToggleInterest(list, x) <==> y in list)
  {
    forall a, b | list == a + b && x in list
      ensures ToggleInterest(list, x) == RemoveInterest(a, x) + RemoveInterest(b, x)
    {
      RemoveInterestConcat(a, b, x);
    }
  }

  /** Toggling an interest that was not chosen twice restores the list. */
  lemma ToggleTwiceRestores(list: seq<string>, x: string)
    requires x !in list
    ensures ToggleInterest(ToggleInterest(list, x), x) == list
  {
    assert x in list + [x];
    RemoveInterestConcat(list, [x], x);
    RemoveAbsentInterest(list, x);
    assert RemoveInterest([x], x) == [];
  }

  const DestinationRequired := "Please enter a destination."
  const EndBeforeStart := "End date cannot be before the start date."

  /** The message `handleSubmit` leaves, None when it requests a generation. */
  function ValidationError(p: TravelerPreferences): (r: Option<string>)
    ensures r.None? <==> p.destination != "" && p.startDate <= p.endDate
    ensures r.Some? ==> r.value == DestinationRequired || r.value == EndBeforeStart
  {
    if p.destination == "" then Some(DestinationRequired)
    else if p.endDate < p.startDate then Some(EndBeforeStart)
    else None
  }

  /** A request is made exactly when the destination is given and the end
      date is not before the start date (equal dates are fine); a missing
      destination is reported first. */
  lemma ValidationRules(p: TravelerPreferences)
    ensures ValidationError(p).None? <==> p.destination != "" && p.startDate <= p.endDate
    ensures p.destination == "" ==> ValidationError(p) == Some(DestinationRequired)
    ensures p.destination != "" && p.endDate < p.startDate ==> ValidationError(p) == Some(EndBeforeStart)
  {
  }

  /** The planner form's own state. */
  class PlannerForm {
    var preferences: TravelerPreferences
    var validationError: Option<string>

    /** The form starts empty, over a week from `today` (the millisecond value
        of today's date), with a budget of 500. */
    constructor (today: int)
      ensures preferences == TravelerPreferences("", today, today + 7 * Gemini.MsPerDay, 500, [])
      ensures validationError == None
    {
      preferences := TravelerPreferences("", today, today + 7 * Gemini.MsPerDay, 500, []);
      validationError := None;
    }

    method HandleInterestChange(interest: string)
      modifies this
      ensures preferences == old(preferences).(interests := ToggleInterest(old(preferences.interests), interest))
      ensures validationError == old(validationError)
    {
      var interests := preferences.interests;
      if interest in interests {
        interests := RemoveInterest(interests, interest);
      } else {
        interests := interests + [interest];
      }
      preferences := preferences.(interests := interests);
    }

    /** `handleSubmit`; `request` is the call made to `onGenerate`, if any. */
    method HandleSubmit() returns (request: Option<TravelerPreferences>)
      modifies this
      ensures preferences == old(preferences)
      ensures validationError == ValidationError(preferences)
      ensures request == if validationError == None then Some(preferences) else None
    {
      validationError := None;
      if preferences.destination == "" {
        validationError := Some(DestinationRequired);
        return None;
      }
      if preferences.endDate < preferences.startDate {
        validationError := Some(EndBeforeStart);
        return None;
      }
      request := Some(preferences);
    }
  }

  // ------------------------------------------------------------------
  // Loading indicator
  // ------------------------------------------------------------------

  function ProgressMessages(p: TravelerPreferences): (r: seq<string>)
    ensures |r| == 6
  {
    [ "Analyzing your destination(s): " + p.destination + "...",
      "Finding budget-friendly activities for your interests: " + Text.Join(p.interests, ", ") + "...",
      "Scouting for the best local food spots...",
      "Searching for student discounts and deals...",
      "Mapping out your daily routes for efficiency...",
      "Assembling your personalized travel plan..." ]
  }

  const Tips: seq<string> := [
    "Tip: Pack a reusable water bottle to reduce plastic waste.",
    "Student Tip: Always carry your student ID. Many museums offer discounts!",
    "Tip: Use public transportation to lower your carbon footprint.",
    "Student Tip: Look for an International Student Identity Card (ISIC) for global deals.",
    "Tip: Support local businesses and artisans when you shop.",
    "Student Tip: Many restaurants near universities have student-friendly prices.",
    "Tip: Respect local wildlife and habitats by keeping your distance.",
    "Student Tip: Check for student fares on trains and buses."
  ]

  /** The message list: the six progress messages, then the tips in the
      order the shuffle produced (`shuffledTips`, any permutation). */
  function LoadingMessages(p: TravelerPreferences, shuffledTips: seq<string>): (r: seq<string>)
    requires multiset(shuffledTips) == multiset(Tips)
    ensures |r| == 14
    ensures r[..6] == ProgressMessages(p)
    ensures multiset(r[6..]) == multiset(Tips)
  {
    var progress := ProgressMessages(p);
    SplitAppend(progress, shuffledTips);
    assert |shuffledTips| == |multiset(Tips)|;
    progress + shuffledTips
  }

  lemma SplitAppend<T>(a: seq<T>, b: seq<T>)
    ensures (a + b)[..|a|] == a && (a + b)[|a|..] == b
  {
  }

  /** One tick of the message timer. */
  function NextMessageIndex(i: nat, count: nat): (r: nat)
    requires count > 0
    ensures r < count
    ensures i + 1 < count ==> r == i + 1
    ensures i + 1 == count ==> r == 0
  {
    (i + 1) % count
  }

  /** The index after `ticks` ticks of the timer, starting from 0. */
  function IndexAfter(ticks: nat, count: nat): nat
    requires count > 0
  {
    if ticks == 0 then 0 else NextMessageIndex(IndexAfter(ticks - 1, count), count)
  }

  /** A number written as `q * n + r` with `0 <= r < n` leaves remainder `r`. */
  lemma ModOfDecomposition(k: int, n: int, q: int, r: int)
    requires n > 0 && 0 <= r < n && k == q * n + r
    ensures k % n == r
  {
    var q', r' := k / n, k % n;
    assert k == q' * n + r';
    var d := q - q';
    assert d * n == r' - r by {
      assert q * n - q' * n == (q - q') * n;
    }
    if d > 0 {
      assert d * n == (d - 1) * n + n;
      NonNegativeProduct(d - 1, n);
    } else if d < 0 {
      assert -d * n == (-d - 1) * n + n;
      NonNegativeProduct(-d - 1, n);
    }
  }

  lemma NonNegativeProduct(a: int, b: int)
    requires a >= 0 && b >= 0
    ensures a * b >= 0
  {
  }

  /** The timer cycles through the messages in order: after `ticks` ticks
      the index is `ticks` modulo the number of messages. */
  lemma {:induction false} IndexAfterIsModulo(ticks: nat, count: nat)
    requires count > 0
    ensures IndexAfter(ticks, count) == ticks % count
  {
    if ticks > 0 {
      IndexAfterIsModulo(ticks - 1, count);
      var q := (ticks - 1) / count;
      var r := (ticks - 1) % count;
      assert ticks - 1 == q * count + r;
      if r + 1 == count {
        assert ticks == (q + 1) * count + 0;
        ModOfDecomposition(ticks, count, q + 1, 0);
      } else {
        ModOfDecomposition(ticks, count, q, r + 1);
      }
    }
  }

  /** The text under the spinner. */
  function DisplayedMessage(messages: seq<string>, index: nat): (r: string)
    requires messages == [] || index < |messages|
    ensures messages == [] ==> r == "Initializing..."
    ensures messages != [] ==> r == messages[index] && r in messages
  {
    if |messages| > 0 then messages[index] else "Initializing..."
  }
}
