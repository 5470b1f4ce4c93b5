/** The deterministic parts of the AI service layer: retrying a call with exponential
    backoff, stripping Markdown fences from a JSON reply, reading the day-keyed cache, and
    the values returned when a call fails. The model calls themselves are not modelled:
    each call's outcome is a parameter. */
module GeminiService {
  import opened Wrappers
  import opened Text
  import opened Json
  import opened Domain
  import opened SharedUtils

  /** The outcome of one call: a value, or a thrown error with its message (which may be
      missing). */
  datatype Outcome<T> = Ok(value: T) | Err(message: Option<string>)

  /** The errors worth retrying: service unavailable, too many requests, network failure. */
  predicate Retryable(message: Option<string>)
  {
    message.Some? && (Contains(message.value, "503") || Contains(message.value, "429") || Contains(message.value, "fetch failed"))
  }

  function Pow2(n: nat): (p: nat)
    ensures p >= 1
  {
    if n == 0 then 1 else 2 * Pow2(n - 1)
  }

  /** A run of the retry loop: its final outcome, how many calls it made and the waits
      between them. */
  datatype Run<T> = Run(result: Outcome<T>, calls: nat, waits: seq<int>)

  /** Calls attempt(first), attempt(first + 1), ... until one succeeds, one fails with an
      error that is not retryable, or no retries are left; each retry waits `delay`, and the
      delay doubles from one retry to the next. */
  function Retry<T>(attempt: nat -> Outcome<T>, first: nat, retries: nat, delay: int): (r: Run<T>)
    ensures 1 <= r.calls <= retries + 1
    ensures |r.waits| == r.calls - 1
    ensures forall j :: 0 <= j < |r.waits| ==> r.waits[j] == delay * Pow2(j)
    ensures r.result == attempt(first + r.calls - 1)
    ensures forall k :: first <= k < first + r.calls - 1 ==> attempt(k).Err? && Retryable(attempt(k).message)
    ensures r.result.Err? ==> r.calls == retries + 1 || !Retryable(r.result.message)
    decreases retries
  {
    match attempt(first)
    case Ok(v) => Run(Ok(v), 1, [])
    case Err(m) =>
      if retries == 0 || !Retryable(m) then Run(Err(m), 1, [])
      else
        var rest := Retry(attempt, first + 1, retries - 1, delay * 2);
        BackoffWaits(delay, rest.waits);
        Run(rest.result, rest.calls + 1, [delay] + rest.waits)
  }

  /** Waiting `delay` before a run whose waits start at twice `delay` continues the doubling. */
  lemma BackoffWaits(delay: int, later: seq<int>)
    requires forall j :: 0 <= j < |later| ==> later[j] == (delay * 2) * Pow2(j)
    ensures forall j :: 0 <= j < |later| + 1 ==> ([delay] + later)[j] == delay * Pow2(j)
  {
    forall j | 0 <= j < |later| + 1
      ensures ([delay] + later)[j] == delay * Pow2(j)
    {
      if j > 0 {
        var p := Pow2(j - 1);
        assert ([delay] + later)[j] == (delay * 2) * p;
        assert (delay * 2) * p == delay * (2 * p);
      }
    }
  }

  /** The defaults: three retries, starting with a one-second wait. */
  const DefaultRetries: nat := 3
  const DefaultDelay: int := 1000

  function RetryWithBackoff<T>(attempt: nat -> Outcome<T>): (r: Run<T>)
    ensures r == Retry(attempt, 0, DefaultRetries, DefaultDelay)
  {
    Retry(attempt, 0, DefaultRetries, DefaultDelay)
  }

  /** With the defaults there are at most four calls, and the waits are a prefix of
      1, 2 and 4 seconds. */
  lemma DefaultBackoff<T>(attempt: nat -> Outcome<T>)
    ensures RetryWithBackoff(attempt).calls <= 4
    ensures RetryWithBackoff(attempt).waits <= [1000, 2000, 4000]
  {
    var r := RetryWithBackoff(attempt);
    assert Pow2(1) == 2 && Pow2(2) == 4;
  }

  /** With no retries left, a failure is returned after the single call. */
  lemma NoRetriesNoSecondCall<T>(attempt: nat -> Outcome<T>, first: nat, delay: int)
    ensures Retry(attempt, first, 0, delay).calls == 1
    ensures Retry(attempt, first, 0, delay).result == attempt(first)
  {
  }

  /** A failure that is not retryable is returned at once, without waiting. */
  lemma NotRetryableFailsFast<T>(attempt: nat -> Outcome<T>, first: nat, retries: nat, delay: int)
    requires attempt(first).Err? && !Retryable(attempt(first).message)
    ensures Retry(attempt, first, retries, delay) == Run(attempt(first), 1, [])
  {
  }

  /** Removes every "```json", then every remaining fence, then the surrounding white space. */
  function CleanJson(text: string): (r: string)
    ensures !HasFence(r)
    ensures r == Trim(r)
  {
    var noFence := RemoveAll(RemoveAll(text, "```json"), Fence);
    RemoveFenceLeavesNone(RemoveAll(text, "```json"));
    TrimKeepsNoFence(noFence);
    TrimIdempotent(noFence);
    Trim(noFence)
  }

  /** Cleaning a cleaned reply changes nothing. */
  lemma CleanJsonIdempotent(text: string)
    ensures CleanJson(CleanJson(text)) == CleanJson(text)
  {
    var c := CleanJson(text);
    if Contains(c, "```json") {
      assert "```json"[..3] == Fence;
      ContainsPrefixedByFence(c, "```json");
    }
    RemoveAllAbsent(c, "```json");
    ContainsFence(c);
    RemoveAllAbsent(c, Fence);
  }

  /** A reply without fences and without surrounding white space is kept as it is. */
  lemma CleanJsonKeepsPlainJson(text: string)
    requires !HasFence(text) && text == Trim(text)
    ensures CleanJson(text) == text
  {
    if Contains(text, "```json") {
      assert "```json"[..3] == Fence;
      ContainsPrefixedByFence(text, "```json");
    }
    RemoveAllAbsent(text, "```json");
    ContainsFence(text);
    RemoveAllAbsent(text, Fence);
  }

  /** JavaScript truthiness of a parsed JSON value. */
  predicate Truthy(v: Json)
  {
    match v
    case JNull => false
    case JBool(b) => b
    case JNumber(n) => n != 0.0
    case JString(s) => s != ""
    case JArray(_) => true
    case JObject(_) => true
  }

  /** The cached data under a key: the `data` member of the stored wrapper, returned only
      when the stored text parses to an object whose `data` is truthy. */
  function CachedData(stored: Option<string>, parse: string -> Option<Json>): (r: Option<Json>)
    ensures r.Some? <==>
      var w := SafeJsonParse(stored, parse, JNull);
      w.JObject? && "data" in w.fields && Truthy(w.fields["data"])
    ensures r.Some? ==> Truthy(r.value) && r.value == SafeJsonParse(stored, parse, JNull).fields["data"]
    ensures stored.None? || stored == Some("") ==> r.None?
  {
    var w := SafeJsonParse(stored, parse, JNull);
    if Truthy(w) && w.JObject? && "data" in w.fields && Truthy(w.fields["data"]) then Some(w.fields["data"]) else None
  }

  /** The part of the journal-insight key that tracks the activity list: its length
      followed by the first activity's id, or '0' when there is none (or it is empty). */
  function ActivityHash(activities: seq<FarmActivity>): (h: string)
    ensures activities != [] && activities[0].id != "" ==> h == Decimal(|activities|) + activities[0].id
    ensures !(activities != [] && activities[0].id != "") ==> h == Decimal(|activities|) + "0"
  {
    Decimal(|activities|) + (if activities != [] && activities[0].id != "" then activities[0].id else "0")
  }

  function JournalKey(activities: seq<FarmActivity>, lang: Language, today: string): string
  {
    "lima_journal_insight_" + ActivityHash(activities) + "_" + Code(lang) + "_" + today
  }

  function OverviewKey(location: string, lang: Language, today: string): string
  {
    "lima_market_overview_" + location + "_" + Code(lang) + "_" + today
  }

  function ForecastKey(crop: string, location: string, lang: Language, today: string): string
  {
    "lima_market_" + crop + "_" + location + "_" + Code(lang) + "_" + today
  }

  function ComparisonKey(crop: string, baseLocation: string, lang: Language, today: string): string
  {
    "lima_comparison_" + crop + "_" + baseLocation + "_" + Code(lang) + "_" + today
  }

  function WeatherKey(location: string, lang: Language, today: string): string
  {
    "lima_weather_" + location + "_" + Code(lang) + "_" + today
  }

  /** A key ending in a date determines the date among dates of the same length (the ISO
      dates the client uses are all ten characters long). */
  lemma EndsWithDay(prefix1: string, prefix2: string, d1: string, d2: string)
    requires |d1| == |d2| && prefix1 + d1 == prefix2 + d2
    ensures d1 == d2
  {
    var k := prefix1 + d1;
    assert k[|k| - |d1|..] == d1;
    assert (prefix2 + d2)[|k| - |d2|..] == d2;
  }

  /** Every cache key embeds the day it was made: two keys of the same kind built on days
      of the same length are equal only when the days are, so a value cached on one day is
      never read back on another. */
  lemma KeysSeparateDays(lang: Language, d1: string, d2: string)
    requires |d1| == |d2|
    ensures forall a :: JournalKey(a, lang, d1) == JournalKey(a, lang, d2) ==> d1 == d2
    ensures forall loc, loc' :: OverviewKey(loc, lang, d1) == OverviewKey(loc', lang, d2) ==> d1 == d2
    ensures forall c, loc, c', loc' :: ForecastKey(c, loc, lang, d1) == ForecastKey(c', loc', lang, d2) ==> d1 == d2
    ensures forall c, loc, c', loc' :: ComparisonKey(c, loc, lang, d1) == ComparisonKey(c', loc', lang, d2) ==> d1 == d2
    ensures forall loc, loc' :: WeatherKey(loc, lang, d1) == WeatherKey(loc', lang, d2) ==> d1 == d2
  {
    forall a | JournalKey(a, lang, d1) == JournalKey(a, lang, d2) ensures d1 == d2 {
      var p := "lima_journal_insight_" + ActivityHash(a) + "_" + Code(lang) + "_";
      EndsWithDay(p, p, d1, d2);
    }
    forall loc, loc' | OverviewKey(loc, lang, d1) == OverviewKey(loc', lang, d2) ensures d1 == d2 {
      EndsWithDay("lima_market_overview_" + loc + "_" + Code(lang) + "_", "lima_market_overview_" + loc' + "_" + Code(lang) + "_", d1, d2);
    }
    forall c, loc, c', loc' | ForecastKey(c, loc, lang, d1) == ForecastKey(c', loc', lang, d2) ensures d1 == d2 {
      EndsWithDay("lima_market_" + c + "_" + loc + "_" + Code(lang) + "_", "lima_market_" + c' + "_" + loc' + "_" + Code(lang) + "_", d1, d2);
    }
    forall c, loc, c', loc' | ComparisonKey(c, loc, lang, d1) == ComparisonKey(c', loc', lang, d2) ensures d1 == d2 {
      EndsWithDay("lima_comparison_" + c + "_" + loc + "_" + Code(lang) + "_", "lima_comparison_" + c' + "_" + loc' + "_" + Code(lang) + "_", d1, d2);
    }
    forall loc, loc' | WeatherKey(loc, lang, d1) == WeatherKey(loc', lang, d2) ensures d1 == d2 {
      EndsWithDay("lima_weather_" + loc + "_" + Code(lang) + "_", "lima_weather_" + loc' + "_" + Code(lang) + "_", d1, d2);
    }
  }

  /** A cached request: the cached value unless a refresh is forced, otherwise the fetched
      value; a failed fetch yields the fallback, or the error when there is none. */
  function FromCacheOrFetch<T>(forceRefresh: bool, cached: Option<T>, fetched: Outcome<T>, fallback: Option<T>): (r: Outcome<T>)
    ensures !forceRefresh && cached.Some? ==> r == Ok(cached.value)
    ensures (forceRefresh || cached.None?) && fetched.Ok? ==> r == fetched
    ensures (forceRefresh || cached.None?) && fetched.Err? && fallback.Some? ==> r == Ok(fallback.value)
    ensures (forceRefresh || cached.None?) && fetched.Err? && fallback.None? ==> r == fetched
  {
    if !forceRefresh && cached.Some? then Ok(cached.value)
    else if fetched.Ok? then fetched
    else if fallback.Some? then Ok(fallback.value)
    else fetched
  }

  /** A forced refresh does not look at the cache at all, and a request with a fallback
      never fails. */
  lemma ForcedRefreshIgnoresCache<T>(cached1: Option<T>, cached2: Option<T>, fetched: Outcome<T>, fallback: Option<T>)
    ensures FromCacheOrFetch(true, cached1, fetched, fallback) == FromCacheOrFetch(true, cached2, fetched, fallback)
    ensures fallback.Some? ==> FromCacheOrFetch(true, cached1, fetched, fallback).Ok?
  {
  }

  /** One row of the market overview. */
  datatype PriceRow = PriceRow(crop: string, price: real, trend: string)

  /** The overview shown when the call fails: every requested crop, in order, at price 0
      with a stable trend. */
  function OverviewFallback(crops: seq<string>): (rows: seq<PriceRow>)
    ensures |rows| == |crops|
    ensures forall i :: 0 <= i < |crops| ==> rows[i] == PriceRow(crops[i], 0.0, "stable")
  {
    seq(|crops|, i requires 0 <= i < |crops| => PriceRow(crops[i], 0.0, "stable"))
  }

  /** The market overview never fails: without a cached value it is the fetched rows or,
      when the retried call fails, the fallback rows. */
  lemma OverviewNeverFails(crops: seq<string>, cached: Option<seq<PriceRow>>, attempt: nat -> Outcome<seq<PriceRow>>)
    ensures FromCacheOrFetch(false, cached, RetryWithBackoff(attempt).result, Some(OverviewFallback(crops))).Ok?
    ensures cached.None? && RetryWithBackoff(attempt).result.Err? ==>
      FromCacheOrFetch(false, cached, RetryWithBackoff(attempt).result, Some(OverviewFallback(crops))) == Ok(OverviewFallback(crops))
  {
  }

  const InsightDefault := "Keep logging activities for better insights."
  const InsightOffline := "Insight unavailable offline."

  /** The journal insight: a (truthy) cached text, else the reply's text or the default
      when the reply is empty, else the offline message when the call fails. */
  function JournalInsight(cached: Option<string>, reply: Outcome<string>): (text: string)
    ensures text != ""
    ensures cached.Some? && cached.value != "" ==> text == cached.value
    ensures (cached.None? || cached.value == "") && reply.Ok? ==> text == if reply.value != "" then reply.value else InsightDefault
    ensures (cached.None? || cached.value == "") && reply.Err? ==> text == InsightOffline
  {
    if cached.Some? && cached.value != "" then cached.value
    else match reply
      case Ok(t) => if t != "" then t else InsightDefault
      case Err(_) => InsightOffline
  }

  /** The weather card shown when the call fails. */
  datatype WeatherInsight = WeatherInsight(temp: string, condition: string, humidity: string, tip: string)

  const WeatherFallback := WeatherInsight("24°C", "Cloudy", "60%", "Check your crops for pests today.")
}
