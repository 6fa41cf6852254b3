/** The decisions the browser dashboard (static/js/app.js) makes without
    touching the page: which city a search sends, which image and which
    error text an article or a failed search shows, which icon a history
    entry gets, and the "time ago" label of a history entry.
 */
module Dashboard {
  import opened Payload

  // ------------------------------------------------------------ city input

  /** The code points `String.prototype.trim` removes: the ECMAScript
      WhiteSpace (tab, vertical tab, form feed, zero-width no-break space and
      every space separator) and LineTerminator characters. */
  predicate IsSpace(c: char)
  {
    || c == '\t' || c == '\U{000B}' || c == '\U{000C}' || c == '\U{FEFF}'
    || c == ' ' || c == '\U{00A0}' || c == '\U{1680}' || '\U{2000}' <= c <= '\U{200A}'
    || c == '\U{202F}' || c == '\U{205F}' || c == '\U{3000}'
    || c == '\n' || c == '\r' || c == '\U{2028}' || c == '\U{2029}'
  }

  /** The number of white-space characters `s` starts with. */
  function Leading(s: string): (n: nat)
    ensures n <= |s|
    ensures forall k :: 0 <= k < n ==> IsSpace(s[k])
    ensures n < |s| ==> !IsSpace(s[n])
  {
    if s != [] && IsSpace(s[0]) then 1 + Leading(s[1..]) else 0
  }

  /** The number of white-space characters `s` ends with. */
  function Trailing(s: string): (n: nat)
    ensures n <= |s|
    ensures forall k :: |s| - n <= k < |s| ==> IsSpace(s[k])
    ensures n < |s| ==> !IsSpace(s[|s| - n - 1])
  {
    if s != [] && IsSpace(s[|s| - 1]) then 1 + Trailing(s[..|s| - 1]) else 0
  }

  /** `s.trim()`: the slice of `s` between its leading and its trailing
      white space, which is empty exactly when `s` is all white space. */
  function Trim(s: string): (r: string)
    ensures r == [] <==> forall k :: 0 <= k < |s| ==> IsSpace(s[k])
    ensures r != [] ==> !IsSpace(r[0]) && !IsSpace(r[|r| - 1])
    ensures var i := Leading(s);
      && i + |r| <= |s| && r == s[i..i + |r|]
      && (forall k :: i + |r| <= k < |s| ==> IsSpace(s[k]))
  {
    TrimFacts(s);
    var i := Leading(s);
    s[i..][..|s| - i - Trailing(s[i..])]
  }

  lemma {:induction false} TrimFacts(s: string)
    ensures var i := Leading(s); var t := s[i..]; var r := t[..|t| - Trailing(t)];
      && i + |r| <= |s| && r == s[i..i + |r|]
      && (forall k :: i + |r| <= k < |s| ==> IsSpace(s[k]))
      && (r != [] ==> !IsSpace(r[0]) && !IsSpace(r[|r| - 1]))
      && (r == [] ==> forall k :: 0 <= k < |s| ==> IsSpace(s[k]))
  {
    var i := Leading(s);
    var t := s[i..];
    var j := Trailing(t);
    var r := t[..|t| - j];
    assert r == s[i..i + |r|];
    forall k | i + |r| <= k < |s|
      ensures IsSpace(s[k])
    {
      assert s[k] == t[k - i];
    }
    if r != [] {
      assert r[0] == s[i];
      assert r[|r| - 1] == t[|t| - j - 1];
    }
  }

  /** Trimming a trimmed string changes nothing. */
  lemma TrimIdempotent(s: string)
    ensures Trim(Trim(s)) == Trim(s)
  {
    var r := Trim(s);
    if r != [] {
      assert Leading(r) == 0 && Trailing(r) == 0;
      assert r[0..][..|r|] == r;
    }
  }

  /** The city a click on the search button sends to `fetchWeather`, if
      any: the trimmed input, and nothing when the input is all white space. */
  function CityToSearch(input: string): (r: Option<string>)
    ensures r.Some? <==> exists k :: 0 <= k < |input| && !IsSpace(input[k])
    ensures r.Some? ==> r.value == Trim(input)
  {
    var city := Trim(input);
    if city != "" then Some(city) else None
  }

  /** A key press in the city field searches only on Enter, and then as a
      click does. */
  function CityOnKeyPress(key: string, input: string): (r: Option<string>)
    ensures r.Some? ==> key == "Enter"
    ensures key == "Enter" ==> r == CityToSearch(input)
  {
    if key == "Enter" then CityToSearch(input) else None
  }

  // --------------------------------------------------------------- fallbacks

  const NoImage := "https://via.placeholder.com/400x200?text=No+Image"
  const WeatherFallback := "Failed to fetch weather data"
  const NewsFallback := "Failed to fetch news data"
  const NetworkError := "Network error. Please try again."

  /** `article.urlToImage || placeholder`: never an empty address. */
  function ImageUrl(urlToImage: Json<string>): (r: string)
    ensures Truthy(urlToImage) ==> r == urlToImage.value
    ensures !Truthy(urlToImage) ==> r == NoImage
    ensures r != ""
  {
    if urlToImage.Val? && urlToImage.value != "" then urlToImage.value else NoImage
  }

  /** What `await response.json()` gives the dashboard: a JSON object with
      its `success` flag and its `error` member, or a failure (the request
      did not complete, or the body is not JSON). */
  datatype Reply = Unreadable | Readable(success: bool, error: Key<string>)

  /** `result.error || fallback`. */
  function ErrorText(error: Key<string>, fallback: string): (r: string)
    ensures error.Present? && Truthy(error.json) ==> r == error.json.value
    ensures !(error.Present? && Truthy(error.json)) ==> r == fallback
  {
    match error
    case Present(Val(e)) => if e != "" then e else fallback
    case _ => fallback
  }

  /** The message a weather (or news) search shows, or `None` when it
      shows the data: never an empty message. */
  function SearchMessage(reply: Reply, fallback: string): (r: Option<string>)
    requires fallback != ""
    ensures r.None? <==> reply.Readable? && reply.success
    ensures reply.Unreadable? ==> r == Some(NetworkError)
    ensures reply.Readable? && !reply.success ==> r == Some(ErrorText(reply.error, fallback))
    ensures r.Some? ==> r.value != ""
  {
    match reply
    case Unreadable => Some(NetworkError)
    case Readable(success, error) => if success then None else Some(ErrorText(error, fallback))
  }

  function WeatherMessage(reply: Reply): Option<string>
  {
    SearchMessage(reply, WeatherFallback)
  }

  function NewsMessage(reply: Reply): Option<string>
  {
    SearchMessage(reply, NewsFallback)
  }

  // ------------------------------------------------------------ history icon

  const WeatherIcon := "<i class=\"fas fa-cloud-sun\"></i>"
  const NewsIcon := "<i class=\"fas fa-newspaper\"></i>"

  /** A history entry shows the cloud icon exactly for weather searches and
      the newspaper icon for every other type. */
  function HistoryIcon(searchType: string): (r: string)
    ensures r == WeatherIcon <==> searchType == "weather"
    ensures r == NewsIcon <==> searchType != "weather"
  {
    if searchType == "weather" then WeatherIcon else NewsIcon
  }

  // --------------------------------------------------------------- time ago

  const JustNow := "Just now"

  /** The `intervals` table, in the order `Object.entries` walks it. */
  const Units: seq<(string, int)> := [
    ("year", 31536000), ("month", 2592000), ("week", 604800), ("day", 86400),
    ("hour", 3600), ("minute", 60), ("second", 1)]

  function DigitChar(d: nat): char
    requires d < 10
  {
    ('0' as int + d) as char
  }

  /** How JavaScript prints a non-negative integer count. */
  function Decimal(n: nat): (r: string)
    ensures |r| >= 1 && forall k :: 0 <= k < |r| ==> '0' <= r[k] <= '9'
    ensures r[0] == '0' ==> n == 0
  {
    if n < 10 then [DigitChar(n)] else Decimal(n / 10) + [DigitChar(n % 10)]
  }

  /** The number a string of decimal digits denotes. */
  function DigitsValue(s: string): nat
    requires forall k :: 0 <= k < |s| ==> '0' <= s[k] <= '9'
  {
    if s == [] then 0 else 10 * DigitsValue(s[..|s| - 1]) + (s[|s| - 1] as int - '0' as int)
  }

  /** The printed count reads back as the count. */
  lemma {:induction false} DecimalValue(n: nat)
    ensures DigitsValue(Decimal(n)) == n
  {
    if n >= 10 {
      DecimalValue(n / 10);
      var r := Decimal(n);
      assert r[..|r| - 1] == Decimal(n / 10);
      assert r[|r| - 1] as int - '0' as int == n % 10;
    }
  }

  /** `${interval} ${unit}${interval > 1 ? 's' : ''} ago`. */
  function Phrase(count: nat, unit: string): (r: string)
    ensures |r| >= |Decimal(count)| + |unit| + 5
    ensures r[..|Decimal(count)|] == Decimal(count) && r[|r| - 4..] == " ago"
  {
    Decimal(count) + " " + unit + (if count > 1 then "s" else "") + " ago"
  }

  /** Unit `k` is the first in the table whose floor quotient is at least 1. */
  predicate Chosen(seconds: int, k: int)
  {
    && 0 <= k < |Units|
    && seconds / Units[k].1 >= 1
    && forall j :: 0 <= j < k ==> seconds / Units[j].1 < 1
  }

  lemma UnitsPositive()
    ensures forall k :: 0 <= k < |Units| ==> Units[k].1 > 0
  {
  }

  /** With a positive divisor, the floor quotient is at least 1 exactly
      when the dividend reaches the divisor. */
  lemma QuotientAtLeastOne(a: int, b: int)
    requires b > 0
    ensures a / b >= 1 <==> a >= b
  {
    var q, m := a / b, a % b;
    assert a == b * q + m && 0 <= m < b;
    if q >= 1 {
      assert b * q >= b * 1;
    } else {
      assert b * q <= 0;
    }
  }

  /** `getTimeAgo` on the elapsed whole seconds: "Just now" exactly when
      less than one second has passed (negative times included); otherwise
      the first unit, from year down to second, whose floor quotient is at
      least 1, printed with that quotient. */
  method TimeAgo(seconds: int) returns (s: string)
    ensures s == JustNow <==> seconds < 1
    ensures seconds >= 1 ==>
      exists k :: Chosen(seconds, k) && s == Phrase(seconds / Units[k].1, Units[k].0)
  {
    UnitsPositive();
    for k := 0 to |Units|
      invariant forall j :: 0 <= j < k ==> seconds / Units[j].1 < 1
    {
      var unit, size := Units[k].0, Units[k].1;
      var interval := seconds / size;
      if interval >= 1 {
        s := Phrase(interval, unit);
        assert Chosen(seconds, k);
        QuotientAtLeastOne(seconds, size);
        assert s[0] != 'J';
        return;
      }
    }
    assert seconds / Units[6].1 < 1;
    s := JustNow;
  }

  /** At most one unit is chosen. */
  lemma ChosenUnique(seconds: int, k1: int, k2: int)
    requires Chosen(seconds, k1) && Chosen(seconds, k2)
    ensures k1 == k2
  {
  }

  /** A unit below year is chosen only when the next larger unit's quotient
      was 0, so its count times its size stays below the larger unit. */
  lemma ChosenBelowNext(seconds: int, k: int)
    requires Chosen(seconds, k) && k > 0
    ensures (seconds / Units[k].1) * Units[k].1 < Units[k - 1].1
  {
    UnitsPositive();
    var size, next := Units[k].1, Units[k - 1].1;
    QuotientAtLeastOne(seconds, next);
    var q := seconds / size;
    assert seconds == size * q + seconds % size;
    assert q * size <= seconds;
  }

  /** The counts this bounds: fewer than 60 seconds, 60 minutes, 24 hours
      and 7 days, at most 4 weeks and at most 12 months. */
  lemma ChosenCounts(seconds: int, k: int)
    requires Chosen(seconds, k) && k > 0
    ensures Units[k].0 == "second" ==> seconds / Units[k].1 < 60
    ensures Units[k].0 == "minute" ==> seconds / Units[k].1 < 60
    ensures Units[k].0 == "hour" ==> seconds / Units[k].1 < 24
    ensures Units[k].0 == "day" ==> seconds / Units[k].1 < 7
    ensures Units[k].0 == "week" ==> seconds / Units[k].1 <= 4
    ensures Units[k].0 == "month" ==> seconds / Units[k].1 <= 12
  {
    ChosenBelowNext(seconds, k);
  }

  /** The unit name is pluralised exactly when the count exceeds 1. */
  lemma PhrasePlural(count: nat, unit: string)
    ensures Phrase(count, unit) == Decimal(count) + " " + unit + "s ago" <==> count > 1
  {
    if count <= 1 {
      assert |Phrase(count, unit)| != |Decimal(count) + " " + unit + "s ago"|;
    }
  }
}
