/** The confidence, ticker and filter gates between parsing an alert and trading on it. */
module Gates {
  import opened Prelude
  import opened Trade

  const SKIP_REASON_MAX: nat := 255
  const PROMPT_PREFIX: string := "user prompt: "
  const UNAVAILABLE: string := "filter unavailable"

  // ----- tickers -----

  /** `text.split(",")` */
  function Split(text: string): (parts: seq<string>)
    ensures parts != []
  {
    if text == "" then [""]
    else
      var rest := Split(text[1..]);
      if text[0] == ',' then [""] + rest else [[text[0]] + rest[0]] + rest[1..]
  }

  function Join(parts: seq<string>): string
    requires parts != []
  {
    if |parts| == 1 then parts[0] else parts[0] + "," + Join(parts[1..])
  }

  lemma {:induction false} SplitHead(head: string, rest: string)
    requires ',' !in head
    ensures Split(head + "," + rest) == [head] + Split(rest)
  {
    var text := head + "," + rest;
    if head == "" {
      assert text[1..] == rest;
    } else {
      SplitHead(head[1..], rest);
      assert text[1..] == head[1..] + "," + rest;
      assert head == [head[0]] + head[1..];
    }
  }

  lemma {:induction false} SplitWhole(text: string)
    requires ',' !in text
    ensures Split(text) == [text]
  {
    if text != "" {
      SplitWhole(text[1..]);
      assert text == [text[0]] + text[1..];
    }
  }

  lemma {:induction false} SplitUndoesJoin(parts: seq<string>)
    requires parts != [] && forall p :: p in parts ==> ',' !in p
    ensures Split(Join(parts)) == parts
  {
    if |parts| == 1 {
      SplitWhole(parts[0]);
    } else {
      SplitUndoesJoin(parts[1..]);
      SplitHead(parts[0], Join(parts[1..]));
    }
  }

  function Tickers(allowed: string): set<string> {
    set part | part in Split(allowed) && Strip(part) != "" :: Upper(Strip(part))
  }

  predicate TickerAllowed(user: User, underlying: string) {
    user.allowedTickers == "" || Upper(underlying) in Tickers(user.allowedTickers)
  }

  /** A comma-separated list admits exactly the entries it names, up to case and blanks. */
  lemma ListedTickersPass(user: User, parts: seq<string>, underlying: string)
    requires parts != [] && (forall p :: p in parts ==> ',' !in p) && user.allowedTickers == Join(parts) != ""
    ensures TickerAllowed(user, underlying) <==>
              exists p :: p in parts && Strip(p) != "" && Upper(Strip(p)) == Upper(underlying)
  {
    SplitUndoesJoin(parts);
  }

  // ----- the gates -----

  function DecideAction(intent: Intent, user: User, threshold: real): Intent {
    if intent.action.Skip? then intent
    else if intent.confidence < threshold then intent.(action := Skip, rationale := "confidence below threshold")
    else if user.allowedTickers != "" && Upper(intent.underlying) !in Tickers(user.allowedTickers)
    then intent.(action := Skip, rationale := "ticker not allowed")
    else intent
  }

  datatype FilterDecision = FilterDecision(take: bool, reason: string)

  function NormalizedPrompt(user: User): Option<string> {
    if user.filterPrompt.None? || Strip(user.filterPrompt.value) == "" then None else Some(Strip(user.filterPrompt.value))
  }

  function SkipIntent(intent: Intent, reason: string): Intent {
    var text := if PROMPT_PREFIX <= reason then reason else PROMPT_PREFIX + reason;
    intent.(action := Skip, rationale := if |text| <= SKIP_REASON_MAX then text else text[..SKIP_REASON_MAX])
  }

  /** `decision` is the model's answer, None when asking it raised. */
  function ApplyTradeFilter(intent: Intent, user: User, configured: bool, decision: Option<FilterDecision>): Intent {
    if intent.action.Skip? || NormalizedPrompt(user).None? then intent
    else if !configured || decision.None? then SkipIntent(intent, UNAVAILABLE)
    else if decision.value.take then intent
    else
      var reason := Strip(decision.value.reason);
      SkipIntent(intent, if reason == "" then "skipped by filter" else reason)
  }

  predicate FilterTakes(user: User, configured: bool, decision: Option<FilterDecision>) {
    NormalizedPrompt(user).Some? ==> configured && decision.Some? && decision.value.take
  }

  function Gated(intent: Intent, user: User, threshold: real, configured: bool, decision: Option<FilterDecision>): Intent {
    var decided := DecideAction(intent, user, threshold);
    if decided.action.Skip? then decided else ApplyTradeFilter(decided, user, configured, decision)
  }

  /**
   * The gates pass an intent untouched or turn it into a skip with a reason; nothing else
   * about it can change. They pass a trade exactly when all three hold, so a filter that is
   * unavailable or raises lets nothing through.
   */
  lemma GatesPassOrSkip(intent: Intent, user: User, threshold: real, configured: bool, decision: Option<FilterDecision>)
    requires !intent.action.Skip?
    ensures var out := Gated(intent, user, threshold, configured, decision);
            if intent.confidence >= threshold && TickerAllowed(user, intent.underlying) && FilterTakes(user, configured, decision)
            then out == intent
            else out.action.Skip? && out.rationale != "" && out == intent.(action := Skip, rationale := out.rationale)
  {
  }

  /** The filter is asked exactly by users whose prompt is more than blanks. */
  lemma PromptIsConsultedIff(user: User)
    ensures NormalizedPrompt(user).Some? <==>
              user.filterPrompt.Some? && exists i :: 0 <= i < |user.filterPrompt.value| && !IsSpace(user.filterPrompt.value[i])
    ensures NormalizedPrompt(user).Some? ==> NormalizedPrompt(user).value == Strip(user.filterPrompt.value)
  {
    if user.filterPrompt.Some? {
      BlankIff(user.filterPrompt.value);
    }
  }

  /** Blanks taken off both ends, and the stock reason if nothing is left. */
  function GivenReason(configured: bool, decision: Option<FilterDecision>): string {
    if !configured || decision.None? then "filter unavailable"
    else if Strip(decision.value.reason) == "" then "skipped by filter"
    else Strip(decision.value.reason)
  }

  /** A skip by the filter says so and why, in at most 255 characters. */
  lemma FilterReasonIsMarked(intent: Intent, user: User, threshold: real, configured: bool, decision: Option<FilterDecision>)
    requires !intent.action.Skip? && intent.confidence >= threshold && TickerAllowed(user, intent.underlying)
    requires !FilterTakes(user, configured, decision)
    ensures var out, reason := Gated(intent, user, threshold, configured, decision).rationale, GivenReason(configured, decision);
            var marked := if "user prompt: " <= reason then reason else "user prompt: " + reason;
            "user prompt: " <= out && out <= marked && |out| == Min(255, |marked|)
  {
  }

  /** The two gates before it name themselves. */
  lemma EarlierReasons(intent: Intent, user: User, threshold: real, configured: bool, decision: Option<FilterDecision>)
    requires !intent.action.Skip?
    ensures intent.confidence < threshold ==> Gated(intent, user, threshold, configured, decision).rationale == "confidence below threshold"
    ensures intent.confidence >= threshold && !TickerAllowed(user, intent.underlying) ==>
              Gated(intent, user, threshold, configured, decision).rationale == "ticker not allowed"
  {
  }

  /** Without a prompt nobody is asked; with one, only a plain yes from a filter that answered lets a trade through. */
  lemma FilterTakesIff(user: User, configured: bool, decision: Option<FilterDecision>)
    ensures FilterTakes(user, configured, decision) <==>
              || user.filterPrompt.None? || (forall i :: 0 <= i < |user.filterPrompt.value| ==> IsSpace(user.filterPrompt.value[i]))
              || (configured && decision.Some? && decision.value.take)
  {
    PromptIsConsultedIff(user);
  }
}
