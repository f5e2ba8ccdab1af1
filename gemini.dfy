/** The client of the hosted text model: prompt parameters, decoding the
    model's reply, and the single error message each request reports.

    The network call is a caller-supplied function from the prompt's values to
    the reply text (None when the call fails or yields no text), and
    `JSON.parse` is a caller-supplied partial function. */
module Gemini {
  import opened Types
  import opened Text

  // ------------------------------------------------------------------
  // Extracting the JSON text: /```(?:json)?\s*([\s\S]*?)\s*```/
  // ------------------------------------------------------------------

  /** A run of three backticks starts at `i`. */
  predicate FenceAt(s: string, i: int)
  {
    0 <= i && i + 3 <= |s| && s[i] == '`' && s[i + 1] == '`' && s[i + 2] == '`'
  }

  /** The four letters `json` start at `i`. */
  predicate JsonTagAt(s: string, i: int)
  {
    0 <= i && i + 4 <= |s| && s[i] == 'j' && s[i + 1] == 's' && s[i + 2] == 'o' && s[i + 3] == 'n'
  }

  /** The first fence at or after `from`. */
  function FindFence(s: string, from: nat): (r: Option<nat>)
    ensures r.Some? ==> from <= r.value && FenceAt(s, r.value)
    ensures forall j :: from <= j && (r.None? || j < r.value) ==> !FenceAt(s, j)
    decreases |s| - from
  {
    if from + 3 > |s| then None
    else if FenceAt(s, from) then Some(from)
    else FindFence(s, from + 1)
  }

  /** The first position at or after `i` that does not hold white space. */
  function SkipWhitespace(s: string, i: nat): (r: nat)
    requires i <= |s|
    ensures i <= r <= |s|
    ensures forall k :: i <= k < r ==> IsWhitespace(s[k])
    ensures r < |s| ==> !IsWhitespace(s[r])
    decreases |s| - i
  {
    if i < |s| && IsWhitespace(s[i]) then SkipWhitespace(s, i + 1) else i
  }

  /** The least `e` in `lo..hi` such that `s[e..hi]` is all white space. */
  function TrimBack(s: string, lo: nat, hi: nat): (e: nat)
    requires lo <= hi <= |s|
    ensures lo <= e <= hi
    ensures forall k :: e <= k < hi ==> IsWhitespace(s[k])
    ensures e > lo ==> !IsWhitespace(s[e - 1])
    decreases hi
  {
    if hi > lo && IsWhitespace(s[hi - 1]) then TrimBack(s, lo, hi - 1) else hi
  }

  /** One way the regular expression can match `text`: an opening fence at
      `start`, a `json` tag of length `tag` (0 or 4), `w1` white-space
      characters, a capture of `c` characters, `w2` white-space characters
      and a closing fence. */
  ghost predicate Derives(text: string, start: int, tag: int, w1: int, c: int, w2: int)
  {
    0 <= start && (tag == 0 || tag == 4) && 0 <= w1 && 0 <= c && 0 <= w2
    && FenceAt(text, start)
    && FenceAt(text, start + 3 + tag + w1 + c + w2)
    && (tag == 4 ==> JsonTagAt(text, start + 3))
    && (forall k :: start + 3 + tag <= k < start + 3 + tag + w1 ==> IsWhitespace(text[k]))
    && (forall k :: start + 3 + tag + w1 + c <= k < start + 3 + tag + w1 + c + w2 ==> IsWhitespace(text[k]))
  }

  /** The match the regular-expression engine reports: opening fence at
      `start`, tag length `tag`, capture `lo..hi`, closing fence at `close`. */
  datatype FenceMatch = FenceMatch(start: nat, tag: nat, lo: nat, hi: nat, close: nat)

  function FirstFencedBlock(text: string): (m: Option<FenceMatch>)
    ensures m.Some? ==> m.value.start + 3 + m.value.tag <= m.value.lo <= m.value.hi <= m.value.close <= |text|
    ensures m.Some? ==> FenceAt(text, m.value.start) && FenceAt(text, m.value.close)
  {
    match FindFence(text, 0)
    case None => None
    case Some(p) =>
      match FindFence(text, p + 3)
      case None => None
      case Some(q) =>
        var tag := if JsonTagAt(text, p + 3) then 4 else 0;
        assert text[q] == '`';
        var lo := SkipWhitespace(text, p + 3 + tag);
        assert lo <= q by {
          assert lo < |text| ==> !IsWhitespace(text[lo]) || lo <= q;
        }
        var hi := TrimBack(text, lo, q);
        Some(FenceMatch(p, tag, lo, hi, q))
  }

  /** The string `parseJsonFromMarkdown` hands to `JSON.parse`: the trimmed
      capture of the first fenced block, or the whole text trimmed. */
  function ExtractJsonText(text: string): (r: string)
    ensures NoEdgeWhitespace(r)
  {
    match FirstFencedBlock(text)
    case Some(m) => Trim(text[m.lo..m.hi])
    case None => Trim(text)
  }

  /** The reported match is a match of the regular expression. */
  lemma FencedBlockIsDerivation(text: string)
    requires FirstFencedBlock(text).Some?
    ensures var m := FirstFencedBlock(text).value;
            Derives(text, m.start, m.tag, m.lo - (m.start + 3 + m.tag), m.hi - m.lo, m.close - m.hi)
  {
  }

  /** Whenever the regular expression can match at all, a match is reported,
      and it starts no later than any possible match (leftmost match). */
  lemma FencedBlockLeftmost(text: string, start: int, tag: int, w1: int, c: int, w2: int)
    requires Derives(text, start, tag, w1, c, w2)
    ensures FirstFencedBlock(text).Some? && FirstFencedBlock(text).value.start <= start
  {
    var close := start + 3 + tag + w1 + c + w2;
    assert FenceAt(text, close);
    var p := FindFence(text, 0);
    assert p.Some? && p.value <= start;
    assert FindFence(text, p.value + 3).Some?;
  }

  /** Among the matches at the reported start, the reported one is the one
      the backtracking engine tries first: the optional `json` is taken when
      it can be, the first `\s*` is as long as possible, and the lazy capture
      is as short as possible. */
  lemma FencedBlockPriority(text: string, tag: int, w1: int, c: int, w2: int)
    requires FirstFencedBlock(text).Some?
    requires Derives(text, FirstFencedBlock(text).value.start, tag, w1, c, w2)
    ensures var m := FirstFencedBlock(text).value;
            && (tag == 4 ==> m.tag == 4)
            && (tag == m.tag ==> m.start + 3 + tag + w1 <= m.lo)
            && (tag == m.tag && m.start + 3 + tag + w1 == m.lo ==> m.lo + c >= m.hi)
  {
    var m := FirstFencedBlock(text).value;
    var t := m.start + 3 + m.tag;
    if tag == m.tag {
      assert m.lo < |text| ==> !IsWhitespace(text[m.lo]);
      if t + w1 == m.lo {
        var j := m.lo + c + w2;
        assert FenceAt(text, j);
        assert m.close <= j;
        assert text[m.close] == '`' && !IsWhitespace(text[m.close]);
        assert m.hi > m.lo ==> !IsWhitespace(text[m.hi - 1]);
      }
    }
  }

  /** A fenced block exists exactly when some fence is followed, at least
      three characters on, by another. */
  ghost predicate HasFencePair(text: string)
  {
    exists i, j :: FenceAt(text, i) && FenceAt(text, j) && i + 3 <= j
  }

  lemma FencedBlockIffFencePair(text: string)
    ensures FirstFencedBlock(text).Some? <==> HasFencePair(text)
  {
    if FirstFencedBlock(text).Some? {
      var m := FirstFencedBlock(text).value;
      assert FenceAt(text, m.start) && FenceAt(text, m.close);
    }
    if HasFencePair(text) {
      var i, j :| FenceAt(text, i) && FenceAt(text, j) && i + 3 <= j;
      var p := FindFence(text, 0);
      assert p.Some? && p.value <= i;
      assert FindFence(text, p.value + 3).Some?;
    }
  }

  /** Without a fence pair the whole text, trimmed, is parsed. */
  lemma ExtractWithoutFences(text: string)
    requires !HasFencePair(text)
    ensures ExtractJsonText(text) == Trim(text)
  {
    FencedBlockIffFencePair(text);
  }

  /** With a fence pair only the interior of the first block is parsed: the
      capture itself, since it never begins or ends with white space. */
  lemma ExtractWithFences(text: string)
    requires HasFencePair(text)
    ensures FirstFencedBlock(text).Some?
    ensures var m := FirstFencedBlock(text).value;
            ExtractJsonText(text) == text[m.lo..m.hi] && NoEdgeWhitespace(text[m.lo..m.hi])
  {
    FencedBlockIffFencePair(text);
    var m := FirstFencedBlock(text).value;
    var cap := text[m.lo..m.hi];
    assert m.lo < |text| ==> !IsWhitespace(text[m.lo]);
    assert cap != [] ==> cap[0] == text[m.lo] && cap[|cap| - 1] == text[m.hi - 1];
    TrimUnchanged(cap);
  }

  predicate NoBackticks(s: string)
  {
    forall i :: 0 <= i < |s| ==> s[i] != '`'
  }

  /** A payload wrapped in a `json`-tagged fenced block, as the model is
      asked to reply. */
  function JsonFenced(s: string): string
  {
    "```json\n" + s + "\n```"
  }

  /** In a wrapped payload without backticks the only fences are the two
      wrapping ones. */
  lemma JsonFencedFences(s: string)
    requires NoBackticks(s)
    ensures var text := JsonFenced(s);
            && |text| == |s| + 12
            && FindFence(text, 0) == Some(0)
            && FindFence(text, 3) == Some(|s| + 9)
            && JsonTagAt(text, 3)
            && text[7] == '\n' && text[|s| + 8] == '\n'
            && text[8..|s| + 8] == s
  {
    var text := JsonFenced(s);
    var n := |s|;
    assert forall k :: 8 <= k < 8 + n ==> text[k] == s[k - 8];
    assert text[8 + n] == '\n';
    assert FenceAt(text, 0);
    assert FenceAt(text, 9 + n);
    assert forall k :: 3 <= k <= 8 + n ==> text[k] != '`';
    assert text[8..n + 8] == s;
  }

  /** The first block of a wrapped payload captures exactly the payload. */
  lemma JsonFencedCapture(s: string)
    requires NoBackticks(s) && NoEdgeWhitespace(s)
    ensures FirstFencedBlock(JsonFenced(s)).Some?
    ensures var text := JsonFenced(s);
            var m := FirstFencedBlock(text).value;
            text[m.lo..m.hi] == s
  {
    var text := JsonFenced(s);
    var n := |s|;
    JsonFencedFences(s);
    assert IsWhitespace(text[7]);
    var lo := SkipWhitespace(text, 7);
    if n > 0 {
      assert text[8] == s[0] && text[7 + n] == s[n - 1];
      assert lo == 8;
      assert TrimBack(text, 8, 9 + n) == 8 + n;
    } else {
      assert lo == 9;
    }
  }

  /** A payload given without fences decodes to itself. */
  lemma PlainPayload(s: string)
    requires NoBackticks(s) && NoEdgeWhitespace(s)
    ensures ExtractJsonText(s) == s
  {
    assert forall i :: !FenceAt(s, i);
    ExtractWithoutFences(s);
    TrimUnchanged(s);
  }

  /** A wrapped payload decodes to the payload. */
  lemma WrappedPayload(s: string)
    requires NoBackticks(s) && NoEdgeWhitespace(s)
    ensures ExtractJsonText(JsonFenced(s)) == s
  {
    JsonFencedCapture(s);
    TrimUnchanged(s);
  }

  /** A payload wrapped in a `json`-tagged fenced block decodes to the same
      string as the payload given on its own. */
  lemma WrappedPayloadRoundTrip(s: string)
    requires NoBackticks(s) && NoEdgeWhitespace(s)
    ensures ExtractJsonText(JsonFenced(s)) == ExtractJsonText(s) == s
  {
    WrappedPayload(s);
    PlainPayload(s);
  }

  // ------------------------------------------------------------------
  // Prompt parameters
  // ------------------------------------------------------------------

  const MsPerDay: int := 1000 * 60 * 60 * 24

  /** `Math.ceil(n / d)` for a non-negative `n` and positive `d`. */
  function CeilDiv(n: nat, d: nat): (q: nat)
    requires d > 0
    ensures q * d >= n && (q == 0 || (q - 1) * d < n)
  {
    if n % d == 0 then n / d else n / d + 1
  }

  /** `getDurationInDays`: zero for a reversed range, otherwise the number of
      started days between the two instants, counting both ends. */
  function DurationInDays(start: int, end: int): (r: int)
    ensures end < start ==> r == 0
    ensures start <= end ==> r >= 1 && (r - 1) * MsPerDay >= end - start && (r - 2) * MsPerDay < end - start
  {
    if end < start then 0
    else CeilDiv(end - start, MsPerDay) + 1
  }

  /** An exact gap of `n` days gives `n + 1` days; equal dates give one. */
  lemma DurationOfWholeDays(start: int, n: nat)
    ensures DurationInDays(start, start + n * MsPerDay) == n + 1
  {
    var r := DurationInDays(start, start + n * MsPerDay);
    assert (r - 1) * MsPerDay >= n * MsPerDay;
    assert (r - 2) * MsPerDay < n * MsPerDay;
  }

  const InterestsLabel := "- **Interests:** "
  const NoInterestsLine := InterestsLabel + "The user has not specified any interests. Please create a diverse and well-rounded itinerary featuring a mix of major landmarks, cultural sites, local culinary experiences, and perhaps some hidden gems."

  /** The prompt line about interests. */
  function InterestsLine(interests: seq<string>): (r: string)
    ensures InterestsLabel <= r
    ensures interests == [] ==> r == NoInterestsLine
    ensures interests != [] ==> r[|InterestsLabel|..] == Join(interests, ", ")
  {
    if |interests| > 0 then InterestsLabel + Join(interests, ", ") else NoInterestsLine
  }

  /** The values interpolated into the itinerary prompt (its fixed wording
      is not modelled). */
  datatype ItineraryPrompt = ItineraryPrompt(
    destination: string, startDate: int, endDate: int, duration: int, budget: int, interestsLine: string)

  function PromptFor(p: TravelerPreferences): (r: ItineraryPrompt)
    ensures r.destination == p.destination && r.budget == p.budget
    ensures r.startDate == p.startDate && r.endDate == p.endDate
    ensures r.duration == DurationInDays(p.startDate, p.endDate)
    ensures r.interestsLine == InterestsLine(p.interests)
  {
    ItineraryPrompt(p.destination, p.startDate, p.endDate,
                    DurationInDays(p.startDate, p.endDate), p.budget, InterestsLine(p.interests))
  }

  /** Kyoto from 2025-01-01 to 2025-01-03 with no interests asks for three
      days and uses the default interests sentence. */
  lemma KyotoPromptExample()
    ensures var p := TravelerPreferences("Kyoto", 1735689600000, 1735862400000, 300, []);
            PromptFor(p).duration == 3 && PromptFor(p).interestsLine == NoInterestsLine
  {
    DurationOfWholeDays(1735689600000, 2);
  }

  // ------------------------------------------------------------------
  // Requests
  // ------------------------------------------------------------------

  const GenerateFailedMessage := "Failed to generate itinerary. The AI model might be busy or the request is invalid. Please try again."
  const ConvertFailedMessage := "Failed to convert currency. The AI model might be busy or the request is invalid. Please try again."

  /** What `JSON.parse` may yield for an itinerary reply: the fields of an
      itinerary, possibly with an `id` of the model's own. */
  datatype ParsedItinerary = ParsedItinerary(
    id: Option<string>, tripTitle: string, totalEstimatedCost: real, currency: string, itinerary: seq<DayPlan>)

  /** `generateItinerary`: the parsed reply with the fresh id in place of any
      id it carried, or the one failure message whatever went wrong. */
  function GenerateItinerary(prefs: TravelerPreferences, respond: ItineraryPrompt -> Option<string>,
                             parse: string -> Option<ParsedItinerary>, freshId: string): (r: Result<Itinerary, string>)
    ensures var reply := respond(PromptFor(prefs));
            r.Success? <==> reply.Some? && parse(ExtractJsonText(reply.value)).Some?
    ensures r.Success? ==>
              var d := parse(ExtractJsonText(respond(PromptFor(prefs)).value)).value;
              && r.value.id == freshId
              && r.value.tripTitle == d.tripTitle && r.value.totalEstimatedCost == d.totalEstimatedCost
              && r.value.currency == d.currency && r.value.itinerary == d.itinerary
    ensures r.Failure? ==> r.error == GenerateFailedMessage
  {
    match respond(PromptFor(prefs))
    case None => Failure(GenerateFailedMessage)
    case Some(text) =>
      match parse(ExtractJsonText(text))
      case None => Failure(GenerateFailedMessage)
      case Some(d) => Success(Itinerary(freshId, d.tripTitle, d.totalEstimatedCost, d.currency, d.itinerary))
  }

  /** The values interpolated into the conversion prompt. */
  datatype ConversionPrompt = ConversionPrompt(amount: real, fromCurrency: string, toCurrency: string)

  /** `convertCurrency`: the parsed reply as it is, or the one failure
      message whatever went wrong. */
  function ConvertCurrency(amount: real, fromCurrency: string, toCurrency: string,
                           respond: ConversionPrompt -> Option<string>,
                           parse: string -> Option<ConversionResult>): (r: Result<ConversionResult, string>)
    ensures var reply := respond(ConversionPrompt(amount, fromCurrency, toCurrency));
            && (r.Success? <==> reply.Some? && parse(ExtractJsonText(reply.value)).Some?)
            && (r.Success? ==> r.value == parse(ExtractJsonText(reply.value)).value)
    ensures r.Failure? ==> r.error == ConvertFailedMessage
  {
    match respond(ConversionPrompt(amount, fromCurrency, toCurrency))
    case None => Failure(ConvertFailedMessage)
    case Some(text) =>
      match parse(ExtractJsonText(text))
      case None => Failure(ConvertFailedMessage)
      case Some(d) => Success(d)
  }
}
