/** The key handling of
    `TradingAgents/tradingagents/dataflows/alpha_vantage_common.py`: reading
    the configured keys, the `AlphaVantageKeyRotator` (probe for a key that
    is not blocked, count its use, block a key), the date conversion of
    `format_datetime_for_api`, and the rate-limit check on a response.
    Times are whole seconds given by the caller; the HTTP request is left
    out and its response text is a parameter. */
module AlphaVantageCommon {
  import opened Wrappers
  import opened JsonValue
  import opened Text
  import opened Calendar

  // ---------------------------------------------------------------------------
  // configured keys

  /** `[k.strip() for k in pieces if k.strip()]`. */
  function CleanKeys(pieces: seq<string>): seq<string>
    decreases |pieces|
  {
    if pieces == [] then []
    else
      var k := Strip(pieces[0]);
      (if k != "" then [k] else []) + CleanKeys(pieces[1..])
  }

  /** A key with no whitespace at either end: stripping leaves it as it is
      (`StripNoSpaceAround`). */
  predicate Trimmed(k: string)
  {
    k != [] && !IsSpace(k[0]) && !IsSpace(k[|k| - 1])
  }

  /** Every key kept is non-empty and has no surrounding whitespace. */
  lemma {:induction false} CleanKeysClean(pieces: seq<string>)
    ensures forall k :: k in CleanKeys(pieces) ==> Trimmed(k)
    decreases |pieces|
  {
    if pieces != [] {
      var k := Strip(pieces[0]);
      var rest := CleanKeys(pieces[1..]);
      CleanKeysClean(pieces[1..]);
      assert CleanKeys(pieces) == (if k != "" then [k] else []) + rest;
      forall x | x in CleanKeys(pieces)
        ensures Trimmed(x)
      {
        if x !in rest {
          assert x == k;
        }
      }
    }
  }

  /** The keys of ALPHA_VANTAGE_API_KEYS, else the single
      ALPHA_VANTAGE_API_KEY; no key at all raises ValueError. */
  function ParseKeys(keysEnv: string, singleEnv: string): (r: Result<seq<string>, PyError>)
    ensures r.Err? <==> (keysEnv != "" && CleanKeys(Split(keysEnv, ",")) == []) || (keysEnv == "" && singleEnv == "")
    ensures r.Err? ==> r.error == ValueError
    ensures r.Ok? ==> r.value != [] && (keysEnv == "" ==> r.value == [singleEnv])
    ensures r.Ok? && keysEnv != "" ==> forall k :: k in r.value ==> Trimmed(k) && ',' !in k
  {
    var keys := if keysEnv != "" then CleanKeys(Split(keysEnv, ",")) else if singleEnv != "" then [singleEnv] else [];
    SplitKeysCommaFree(keysEnv);
    CleanKeysClean(Split(keysEnv, ","));
    if keys == [] then Err(ValueError) else Ok(keys)
  }

  lemma {:induction false} CleanKeysCommaFree(pieces: seq<string>)
    requires forall i :: 0 <= i < |pieces| ==> ',' !in pieces[i]
    ensures forall k :: k in CleanKeys(pieces) ==> ',' !in k
    decreases |pieces|
  {
    if pieces != [] {
      StripKeepsChars(pieces[0], ',');
      CleanKeysCommaFree(pieces[1..]);
    }
  }

  lemma SplitKeysCommaFree(s: string)
    ensures forall k :: k in CleanKeys(Split(s, ",")) ==> ',' !in k
  {
    var pieces := Split(s, ",");
    forall i | 0 <= i < |pieces| ensures ',' !in pieces[i] {
      SplitPiecesFree(s, ",", i);
      ContainsChar(pieces[i], ',');
    }
    CleanKeysCommaFree(pieces);
  }

  lemma {:induction false} CleanKeysOfClean(keys: seq<string>)
    requires forall i :: 0 <= i < |keys| ==> Trimmed(keys[i])
    ensures CleanKeys(keys) == keys
    decreases |keys|
  {
    if keys != [] {
      StripNoSpaceAround(keys[0]);
      CleanKeysOfClean(keys[1..]);
      ConsSeq(keys);
    }
  }

  lemma {:induction false} JoinStartsWithFirst(parts: seq<string>, sep: string)
    requires |parts| >= 1
    ensures |Join(parts, sep)| >= |parts[0]|
    decreases |parts|
  {
  }

  /** Comma-joined clean keys are read back as the same list. */
  lemma KeysRoundTrip(keys: seq<string>, singleEnv: string)
    requires keys != []
    requires forall k :: k in keys ==> Trimmed(k) && ',' !in k
    ensures ParseKeys(Join(keys, ","), singleEnv) == Ok(keys)
  {
    JoinStartsWithFirst(keys, ",");
    assert keys[0] in keys;
    forall k | 0 <= k < |keys| ensures ',' !in keys[k] {
      assert keys[k] in keys;
    }
    SplitJoinChar(keys, ',');
    assert Split(Join(keys, ","), ",") == keys;
    forall i | 0 <= i < |keys| ensures Trimmed(keys[i]) {
      assert keys[i] in keys;
    }
    CleanKeysOfClean(keys);
  }

  // ---------------------------------------------------------------------------
  // AlphaVantageKeyRotator

  predicate Blocked(rateLimitedUntil: map<string, int>, key: string, now: int)
  {
    key in rateLimitedUntil && now < rateLimitedUntil[key]
  }

  /** The key probed at offset `b` from index `start`. */
  function KeyAt(keys: seq<string>, start: nat, b: nat): string
    requires start < |keys| && b < |keys|
  {
    keys[Wrap(start + b, |keys|)]
  }

  lemma ModSmall(x: int, n: int)
    requires 0 <= x <= n && n > 0
    ensures x % n == (if x == n then 0 else x)
  {
    if x == n {
      assert x % n == 0;
    }
  }

  /** `x % n` for `x < 2 * n`. */
  function Wrap(x: nat, n: nat): (r: nat)
    requires x < 2 * n
    ensures r < n
  {
    if x >= n then x - n else x
  }

  /** The first probe offset (from `from` on) whose key is not blocked. */
  function FirstFree(keys: seq<string>, rateLimitedUntil: map<string, int>, start: nat, now: int, from: nat)
    : (r: Option<nat>)
    requires start < |keys| && from <= |keys|
    ensures r.Some? ==> from <= r.value < |keys|
    decreases |keys| - from
  {
    if from == |keys| then None
    else if !Blocked(rateLimitedUntil, KeyAt(keys, start, from), now) then Some(from)
    else FirstFree(keys, rateLimitedUntil, start, now, from + 1)
  }

  /** The offset found holds a key that is not blocked and every offset
      before it a blocked one; none is found when every key is blocked. */
  lemma {:induction false} FirstFreeMeaning(keys: seq<string>, rateLimitedUntil: map<string, int>, start: nat, now: int, from: nat)
    requires start < |keys| && from <= |keys|
    ensures var r := FirstFree(keys, rateLimitedUntil, start, now, from);
      && (r.Some? ==> !Blocked(rateLimitedUntil, KeyAt(keys, start, r.value), now))
      && (r.Some? ==> forall b :: from <= b < r.value ==> Blocked(rateLimitedUntil, KeyAt(keys, start, b), now))
      && (r.None? ==> forall b :: from <= b < |keys| ==> Blocked(rateLimitedUntil, KeyAt(keys, start, b), now))
    decreases |keys| - from
  {
    if from < |keys| && Blocked(rateLimitedUntil, KeyAt(keys, start, from), now) {
      FirstFreeMeaning(keys, rateLimitedUntil, start, now, from + 1);
    }
  }

  /** The probe loop of `get_key`: from index `start`, skip blocked keys,
      at most one probe per key. `attempts` is the number of keys skipped
      (all of them when every key is blocked) and `index` where the loop
      stopped. */
  method Probe(keys: seq<string>, rateLimitedUntil: map<string, int>, start: nat, now: int)
    returns (index: nat, attempts: nat)
    requires start < |keys|
    ensures attempts <= |keys| && index < |keys|
    ensures index == if attempts == |keys| then start else Wrap(start + attempts, |keys|)
    ensures FirstFree(keys, rateLimitedUntil, start, now, 0) == if attempts == |keys| then None else Some(attempts)
  {
    index := start;
    attempts := 0;
    while attempts < |keys| && Blocked(rateLimitedUntil, keys[index], now)
      invariant 0 <= attempts <= |keys|
      invariant index == if attempts == |keys| then start else Wrap(start + attempts, |keys|)
      invariant FirstFree(keys, rateLimitedUntil, start, now, 0)
                == FirstFree(keys, rateLimitedUntil, start, now, attempts)
      decreases |keys| - attempts
    {
      ModSmall(index + 1, |keys|);
      index := (index + 1) % |keys|;
      attempts := attempts + 1;
    }
    if attempts < |keys| {
      assert KeyAt(keys, start, attempts) == keys[index];
    }
  }

  class KeyRotator {
    var keys: seq<string>
    var currentIndex: nat
    /** key -> time when it can be used again */
    var rateLimitedUntil: map<string, int>
    var requestCount: map<string, nat>

    ghost predicate Valid()
      reads this
    {
      |keys| > 0 && currentIndex < |keys| && forall k :: k in keys ==> k in requestCount
    }

    /** `__init__` once the keys are read: index 0, nothing blocked, every
        count 0. */
    constructor (configured: seq<string>)
      requires configured != []
      ensures Valid()
      ensures keys == configured && currentIndex == 0 && rateLimitedUntil == map[]
      ensures requestCount == map k | k in configured :: 0
    {
      keys := configured;
      currentIndex := 0;
      rateLimitedUntil := map[];
      requestCount := map k | k in configured :: 0;
    }

    /** `get_key`: at most one probe per key, from the current index on. A
        key whose block has expired is unblocked and used; when every key is
        blocked, AlphaVantageRateLimitError and nothing changes. */
    method GetKey(now: int) returns (r: Result<string, PyError>)
      requires Valid()
      modifies this
      ensures Valid() && keys == old(keys) && |keys| > 0
      ensures var f := FirstFree(keys, old(rateLimitedUntil), old(currentIndex), now, 0);
              if f.None? then
                r == Err(RateLimitError) && currentIndex == old(currentIndex)
                && rateLimitedUntil == old(rateLimitedUntil) && requestCount == old(requestCount)
              else
                var key := KeyAt(keys, old(currentIndex), f.value);
                r == Ok(key) && currentIndex == (Wrap(old(currentIndex) + f.value, |keys|) + 1) % |keys|
                && rateLimitedUntil == old(rateLimitedUntil) - {key}
                && requestCount == old(requestCount)[key := old(requestCount)[key] + 1]
    {
      var index, attempts := Probe(keys, rateLimitedUntil, currentIndex, now);
      if attempts == |keys| {
        currentIndex := index;
        return Err(RateLimitError);
      }
      var key := keys[index];
      assert key in keys;
      assert key in requestCount;
      if key in rateLimitedUntil {
        rateLimitedUntil := rateLimitedUntil - {key};
      } else {
        assert rateLimitedUntil - {key} == rateLimitedUntil;
      }
      requestCount := requestCount[key := requestCount[key] + 1];
      ModSmall(index + 1, |keys|);
      currentIndex := (index + 1) % |keys|;
      r := Ok(key);
    }

    /** `mark_rate_limited`: the key is blocked until now plus the block
        time (60 minutes by default). */
    method MarkRateLimited(key: string, now: int, blockMinutes: int)
      requires Valid()
      modifies this
      ensures Valid()
      ensures rateLimitedUntil == old(rateLimitedUntil)[key := now + blockMinutes * 60]
      ensures keys == old(keys) && currentIndex == old(currentIndex) && requestCount == old(requestCount)
    {
      rateLimitedUntil := rateLimitedUntil[key := now + blockMinutes * 60];
    }
  }

  const DefaultBlockMinutes := 60

  /** A just-marked key stays blocked for the whole block time. */
  lemma MarkedKeyBlocked(rateLimitedUntil: map<string, int>, key: string, now: int, later: int, blockMinutes: int)
    requires now <= later < now + blockMinutes * 60
    ensures Blocked(rateLimitedUntil[key := now + blockMinutes * 60], key, later)
    ensures !Blocked(rateLimitedUntil[key := now + blockMinutes * 60], key, now + blockMinutes * 60)
  {
  }

  /** While some key is not blocked, the rotation finds one. */
  lemma FreeKeyFound(keys: seq<string>, rateLimitedUntil: map<string, int>, start: nat, now: int, i: nat)
    requires start < |keys| && i < |keys| && !Blocked(rateLimitedUntil, keys[i], now)
    ensures FirstFree(keys, rateLimitedUntil, start, now, 0).Some?
  {
    var b := if i >= start then i - start else i + |keys| - start;
    assert KeyAt(keys, start, b) == keys[i];
    FirstFreeMeaning(keys, rateLimitedUntil, start, now, 0);
  }

  // ---------------------------------------------------------------------------
  // format_datetime_for_api

  predicate IsDigits(s: string)
  {
    forall i :: 0 <= i < |s| ==> IsDigit(s[i])
  }

  function Digit(c: char): nat
    requires IsDigit(c)
  {
    (c as int) - ('0' as int)
  }

  /** The value of a field of one to four decimal digits. */
  function FieldValue(s: string): nat
    requires IsDigits(s) && 1 <= |s| <= 4
  {
    assert IsDigit(s[0]);
    if |s| == 1 then Digit(s[0])
    else
      assert IsDigit(s[1]);
      if |s| == 2 then Digit(s[0]) * 10 + Digit(s[1])
      else
        assert IsDigit(s[2]);
        if |s| == 3 then (Digit(s[0]) * 10 + Digit(s[1])) * 10 + Digit(s[2])
        else
          assert IsDigit(s[3]);
          ((Digit(s[0]) * 10 + Digit(s[1])) * 10 + Digit(s[2])) * 10 + Digit(s[3])
  }

  /** The strings `%m` accepts on its own: 1[0-2]|0[1-9]|[1-9]. */
  predicate MonthField(s: string)
  {
    IsDigits(s) && ((|s| == 1 && s[0] != '0') || (|s| == 2 && ((s[0] == '1' && s[1] <= '2') || (s[0] == '0' && s[1] != '0'))))
  }

  /** The strings `%d` accepts on its own: 3[01]|[12]\d|0[1-9]|[1-9]| [1-9],
      the last being a day padded with a space. */
  predicate DayField(s: string)
  {
    (IsDigits(s) && ((|s| == 1 && s[0] != '0')
                     || (|s| == 2 && ((s[0] == '3' && s[1] <= '1') || s[0] == '1' || s[0] == '2' || (s[0] == '0' && s[1] != '0')))))
    || PaddedDay(s)
  }

  predicate PaddedDay(s: string)
  {
    |s| == 2 && s[0] == ' ' && IsDigit(s[1]) && s[1] != '0'
  }

  /** The value of a day field, padded or not. */
  function DayValue(s: string): (v: nat)
    requires DayField(s)
    ensures 1 <= v <= 39
  {
    if PaddedDay(s) then Digit(s[1]) else FieldValue(s)
  }

  /** The strings `%H` accepts on its own: 2[0-3]|[0-1]\d|\d. */
  predicate HourField(s: string)
  {
    IsDigits(s) && (|s| == 1 || (|s| == 2 && ((s[0] == '2' && s[1] <= '3') || s[0] == '0' || s[0] == '1')))
  }

  /** The strings `%M` accepts on its own: [0-5]\d|\d. */
  predicate MinuteField(s: string)
  {
    IsDigits(s) && (|s| == 1 || (|s| == 2 && s[0] <= '5'))
  }

  datatype DateTime = DateTime(year: nat, month: nat, day: nat, hour: nat, minute: nat)

  /** `strptime(s, "%Y-%m-%d")`: four year digits, then the month and day
      fields, all of `s` consumed, and a date that exists. */
  function ParseDate(s: string): (r: Option<DateTime>)
    ensures r.Some? ==> ValidDate(r.value.year, r.value.month, r.value.day) && r.value.hour == 0 && r.value.minute == 0
    ensures r.Some? ==> StampFits(r.value)
  {
    var parts := Split(s, "-");
    if |parts| == 3 && |parts[0]| == 4 && IsDigits(parts[0]) && MonthField(parts[1]) && DayField(parts[2])
       && ValidDate(FieldValue(parts[0]), FieldValue(parts[1]), DayValue(parts[2]))
    then Some(DateTime(FieldValue(parts[0]), FieldValue(parts[1]), DayValue(parts[2]), 0, 0))
    else None
  }

  /** The index of the first whitespace character, or |s|. */
  function SpaceAt(s: string): (i: nat)
    ensures i <= |s| && (i < |s| ==> IsSpace(s[i])) && forall j :: 0 <= j < i ==> !IsSpace(s[j])
  {
    if s == [] || IsSpace(s[0]) then 0 else 1 + SpaceAt(s[1..])
  }

  /** The index of the first non-whitespace character at or after i. */
  function SkipSpace(s: string, i: nat): (j: nat)
    requires i <= |s|
    ensures i <= j <= |s| && (j < |s| ==> !IsSpace(s[j])) && forall k :: i <= k < j ==> IsSpace(s[k])
    decreases |s| - i
  {
    if i == |s| || !IsSpace(s[i]) then i else SkipSpace(s, i + 1)
  }

  /** `strptime(s, "%Y-%m-%d %H:%M")`; the space of the format matches one
      or more whitespace characters. */
  function ParseDateTime(s: string): (r: Option<DateTime>)
    ensures r.Some? ==> ValidDate(r.value.year, r.value.month, r.value.day) && r.value.hour < 24 && r.value.minute < 60
    ensures r.Some? ==> StampFits(r.value)
  {
    var i := DateEnd(s);
    if i < |s| then DateTimeAt(s, i) else None
  }

  /** Where the date ends: at the first whitespace, unless that whitespace
      directly follows a '-', where only the space padding a day can stand;
      then at the next whitespace after it. */
  function DateEnd(s: string): (i: nat)
    ensures i <= |s|
  {
    var i := SpaceAt(s);
    if 0 < i < |s| && s[i - 1] == '-' then i + 1 + SpaceAt(s[i + 1..]) else i
  }

  /** The date before position i and the "%H:%M" after the whitespace there. */
  function DateTimeAt(s: string, i: nat): (r: Option<DateTime>)
    requires i < |s|
    ensures r.Some? ==> ValidDate(r.value.year, r.value.month, r.value.day) && r.value.hour < 24 && r.value.minute < 60
    ensures r.Some? ==> StampFits(r.value)
  {
    var time := Split(s[SkipSpace(s, i)..], ":");
    match ParseDate(s[..i])
    case None => None
    case Some(d) =>
      if |time| == 2 && HourField(time[0]) && MinuteField(time[1])
      then Some(d.(hour := FieldValue(time[0]), minute := FieldValue(time[1])))
      else None
  }

  /** Two digits, zero-padded. */
  function Pad2(n: nat): (r: string)
    requires n < 100
    ensures |r| == 2 && IsDigits(r) && FieldValue(r) == n
  {
    [DigitChar(n / 10), DigitChar(n % 10)]
  }

  /** `strftime("%Y%m%dT%H%M")`; `%Y` prints the year without padding, as
      the C library does for years below 1000. */
  function Stamp(d: DateTime): string
    requires d.month < 100 && d.day < 100 && d.hour < 100 && d.minute < 100
  {
    NatToString(d.year) + Pad2(d.month) + Pad2(d.day) + "T" + Pad2(d.hour) + Pad2(d.minute)
  }

  /** The argument: a string, a datetime, or anything else. */
  datatype DateInput = DateText(text: string) | DateValue(value: DateTime) | OtherValue

  predicate StampFits(d: DateTime)
  {
    d.month < 100 && d.day < 100 && d.hour < 100 && d.minute < 100
  }

  /** `format_datetime_for_api`. */
  function FormatDatetimeForApi(input: DateInput): (r: Result<string, PyError>)
    requires input.DateValue? ==> StampFits(input.value)
    ensures input.OtherValue? ==> r == Err(ValueError)
    ensures input.DateText? && |input.text| == 13 && 'T' in input.text ==> r == Ok(input.text)
    ensures input.DateText? && !(|input.text| == 13 && 'T' in input.text) ==>
              (r.Ok? <==> ParseDate(input.text).Some? || ParseDateTime(input.text).Some?)
    ensures r.Err? ==> r.error == ValueError
  {
    match input
    case DateText(s) =>
      if |s| == 13 && 'T' in s then Ok(s)
      else if ParseDate(s).Some? then Ok(Stamp(ParseDate(s).value))
      else if ParseDateTime(s).Some? then Ok(Stamp(ParseDateTime(s).value))
      else Err(ValueError)
    case DateValue(d) => Ok(Stamp(d))
    case OtherValue => Err(ValueError)
  }

  lemma NatToStringSnoc(q: nat, d: nat)
    requires q >= 1 && d < 10
    ensures NatToString(q * 10 + d) == NatToString(q) + [DigitChar(d)]
  {
    assert (q * 10 + d) / 10 == q && (q * 10 + d) % 10 == d;
  }

  lemma FourDigitYear(y: nat)
    requires 1000 <= y <= 9999
    ensures |NatToString(y)| == 4
  {
    var a := y / 10;
    var b := a / 10;
    var c := b / 10;
    assert 1 <= c <= 9 && 10 <= b <= 99 && 100 <= a <= 999;
    assert |NatToString(c)| == 1;
    assert |NatToString(b)| == 2;
    assert |NatToString(a)| == 3;
  }

  /** A stamp of a year from 1000 on has 13 characters and a 'T'. */
  lemma StampShape(d: DateTime)
    requires 1000 <= d.year <= 9999 && StampFits(d)
    ensures |Stamp(d)| == 13 && 'T' in Stamp(d)
  {
    FourDigitYear(d.year);
    assert Stamp(d)[8] == 'T';
  }

  /** Converting an already converted date gives it back unchanged, for
      years from 1000 on. */
  lemma FormatIdempotent(input: DateInput)
    requires !input.OtherValue?
    requires input.DateValue? ==> 1000 <= input.value.year <= 9999 && StampFits(input.value)
    requires input.DateText? ==> (|input.text| == 13 && 'T' in input.text)
                                 || (ParseDate(input.text).Some? && ParseDate(input.text).value.year >= 1000)
                                 || (ParseDateTime(input.text).Some? && ParseDateTime(input.text).value.year >= 1000)
    ensures FormatDatetimeForApi(input).Ok?
    ensures FormatDatetimeForApi(DateText(FormatDatetimeForApi(input).value)) == FormatDatetimeForApi(input)
  {
    match input
    case DateText(s) =>
      if |s| == 13 && 'T' in s {
      } else if ParseDate(s).Some? {
        DateIsNotDateTime(s);
        StampKept(ParseDate(s).value);
      } else {
        StampKept(ParseDateTime(s).value);
      }
    case DateValue(d) =>
      StampKept(d);
  }

  /** A text never parses in both formats: a plain date holds whitespace
      only in a padded day, which leaves no room for a time after it. */
  lemma DateIsNotDateTime(s: string)
    requires ParseDate(s).Some?
    ensures ParseDateTime(s).None?
  {
    var parts := Split(s, "-");
    assert |parts| == 3 && IsDigits(parts[0]) && MonthField(parts[1]) && DayField(parts[2]);
    JoinSplit(s, "-");
    JoinThree(parts[0], parts[1], parts[2], "-");
    assert parts == [parts[0], parts[1], parts[2]];
    NoTimeAfterDate(parts[0], parts[1], parts[2]);
  }

  lemma JoinThree(a: string, b: string, c: string, sep: string)
    ensures Join([a, b, c], sep) == a + sep + b + sep + c
  {
    assert [a, b, c][1..] == [b, c];
    assert [b, c][1..] == [c];
    assert Join([b, c], sep) == b + sep + c;
    assert Join([a, b, c], sep) == a + sep + (b + sep + c);
  }

  lemma NoTimeAfterDate(y: string, m: string, d: string)
    requires IsDigits(y) && IsDigits(m) && DayField(d)
    ensures ParseDateTime(y + "-" + m + "-" + d).None?
  {
    var s := y + "-" + m + "-" + d;
    DigitsNoSpace(y);
    DigitsNoSpace(m);
    var i := |y| + |m| + 2;
    assert forall k :: 0 <= k < i ==> !IsSpace(s[k]) by {
      forall k | 0 <= k < i ensures !IsSpace(s[k]) {
        if k < |y| { assert s[k] == y[k]; }
        else if |y| < k < |y| + 1 + |m| { assert s[k] == m[k - |y| - 1]; }
      }
    }
    if PaddedDay(d) {
      NoSpaceBefore(s, i);
      PaddedDateHasNoTime(y, m, d);
    } else {
      DigitsNoSpace(d);
      forall k | i <= k < |s| ensures !IsSpace(s[k]) {
        assert s[k] == d[k - i];
      }
      assert SpaceAt(s) == |s|;
    }
  }

  /** In "Y-M- D" the first space follows a '-', and the date runs from
      there to the end, which leaves nothing for a time. */
  lemma PaddedDateHasNoTime(y: string, m: string, d: string)
    requires IsDigits(y) && IsDigits(m) && PaddedDay(d)
    requires SpaceAt(y + "-" + m + "-" + d) == |y| + |m| + 2
    ensures ParseDateTime(y + "-" + m + "-" + d).None?
  {
    var s := y + "-" + m + "-" + d;
    var i := |y| + |m| + 2;
    assert s[i - 1] == '-' && s[i + 1] == d[1];
    DigitAfterSpace(s, i);
  }

  lemma DigitAfterSpace(s: string, i: nat)
    requires 0 < i && i + 2 == |s| && SpaceAt(s) == i && s[i - 1] == '-' && IsDigit(s[i + 1])
    ensures ParseDateTime(s).None?
  {
    var t := s[i + 1..];
    assert |t| == 1 && t[0] == s[i + 1];
    assert SpaceAt(t) == 1;
  }

  lemma DigitsNoSpace(t: string)
    requires IsDigits(t)
    ensures forall k :: 0 <= k < |t| ==> !IsSpace(t[k])
  {
  }

  /** With no whitespace before a whitespace character at i, the first
      whitespace is at i. */
  lemma NoSpaceBefore(s: string, i: nat)
    requires i < |s| && IsSpace(s[i]) && forall k :: 0 <= k < i ==> !IsSpace(s[k])
    ensures SpaceAt(s) == i
  {
  }

  /** A stamp is passed through unchanged. */
  lemma StampKept(d: DateTime)
    requires 1000 <= d.year <= 9999 && StampFits(d)
    ensures FormatDatetimeForApi(DateText(Stamp(d))) == Ok(Stamp(d))
  {
    StampShape(d);
  }

  lemma SplitThree(a: string, b: string, c: string, sep: char)
    requires sep !in a && sep !in b && sep !in c
    ensures Split(a + [sep] + b + [sep] + c, [sep]) == [a, b, c]
  {
    var parts := [a, b, c];
    assert parts[1..] == [b, c] && parts[1..][1..] == [c];
    assert Join(parts[1..], [sep]) == b + [sep] + c;
    assert Join(parts, [sep]) == a + [sep] + (b + [sep] + c);
    assert a + [sep] + b + [sep] + c == a + [sep] + (b + [sep] + c);
    SplitJoinChar(parts, sep);
  }

  lemma SplitTwo(a: string, b: string, sep: char)
    requires sep !in a && sep !in b
    ensures Split(a + [sep] + b, [sep]) == [a, b]
  {
    var parts := [a, b];
    assert parts[1..] == [b];
    assert Join(parts, [sep]) == a + [sep] + b;
    SplitJoinChar(parts, sep);
  }

  lemma DigitsFree(s: string, c: char)
    requires IsDigits(s) && !IsDigit(c)
    ensures c !in s
  {
    forall i | 0 <= i < |s| ensures s[i] != c {
      assert IsDigit(s[i]);
    }
  }

  /** The four digits of a year from 1000 on are printed back as they are. */
  lemma YearText(y: string)
    requires |y| == 4 && IsDigits(y) && y[0] != '0'
    ensures FieldValue(y) >= 1000 && NatToString(FieldValue(y)) == y
  {
    assert IsDigit(y[0]) && IsDigit(y[1]) && IsDigit(y[2]) && IsDigit(y[3]);
    var d0, d1, d2, d3 := Digit(y[0]), Digit(y[1]), Digit(y[2]), Digit(y[3]);
    assert DigitChar(d0) == y[0] && DigitChar(d1) == y[1] && DigitChar(d2) == y[2] && DigitChar(d3) == y[3];
    NatToStringSnoc(d0, d1);
    NatToStringSnoc(d0 * 10 + d1, d2);
    NatToStringSnoc((d0 * 10 + d1) * 10 + d2, d3);
    assert NatToString(d0) == [y[0]];
    assert [y[0]] + [y[1]] + [y[2]] + [y[3]] == y;
  }

  lemma Pad2Text(s: string)
    requires |s| == 2 && IsDigits(s)
    ensures FieldValue(s) < 100 && Pad2(FieldValue(s)) == s
  {
    assert IsDigit(s[0]) && IsDigit(s[1]);
    assert DigitChar(Digit(s[0])) == s[0] && DigitChar(Digit(s[1])) == s[1];
  }

  /** The fields of a canonical "YYYY-MM-DD". */
  predicate CanonicalDate(y: string, m: string, d: string)
  {
    |y| == 4 && IsDigits(y) && y[0] != '0' && |m| == 2 && MonthField(m) && |d| == 2 && IsDigits(d) && DayField(d)
    && ValidDate(FieldValue(y), FieldValue(m), FieldValue(d))
  }

  lemma CanonicalDateParses(y: string, m: string, d: string)
    requires CanonicalDate(y, m, d)
    ensures ParseDate(y + "-" + m + "-" + d) == Some(DateTime(FieldValue(y), FieldValue(m), FieldValue(d), 0, 0))
  {
    DigitsFree(y, '-');
    DigitsFree(m, '-');
    DigitsFree(d, '-');
    SplitThree(y, m, d, '-');
  }

  lemma CanonicalDateStamp(y: string, m: string, d: string, h: string, mi: string)
    requires CanonicalDate(y, m, d) && |h| == 2 && IsDigits(h) && |mi| == 2 && IsDigits(mi)
    ensures Stamp(DateTime(FieldValue(y), FieldValue(m), FieldValue(d), FieldValue(h), FieldValue(mi)))
            == y + m + d + "T" + h + mi
  {
    YearText(y);
    Pad2Text(m);
    Pad2Text(d);
    Pad2Text(h);
    Pad2Text(mi);
  }

  /** "YYYY-MM-DD" becomes "YYYYMMDDT0000". */
  lemma FormatPlainDate(y: string, m: string, d: string)
    requires CanonicalDate(y, m, d)
    ensures FormatDatetimeForApi(DateText(y + "-" + m + "-" + d)) == Ok(y + m + d + "T0000")
  {
    assert |y + "-" + m + "-" + d| == 10;
    CanonicalDateParses(y, m, d);
    assert IsDigits("00") && FieldValue("00") == 0;
    CanonicalDateStamp(y, m, d, "00", "00");
    Midnight(y + m + d);
  }

  /** A time of 00:00 is written "T0000". */
  lemma Midnight(date: string)
    ensures date + "T" + "00" + "00" == date + "T0000"
  {
    assert date + "T" + "00" + "00" == date + ("T" + "00" + "00");
  }

  lemma SpaceAtDateTime(s: string, i: nat)
    requires i + 1 < |s| && IsSpace(s[i]) && !IsSpace(s[i + 1])
    requires forall j :: 0 <= j < i ==> !IsSpace(s[j])
    ensures SpaceAt(s) == i && SkipSpace(s, i) == i + 1
    ensures 0 < i && s[i - 1] != '-' ==> DateEnd(s) == i
  {
    assert SkipSpace(s, i + 1) == i + 1;
  }

  /** The fields of a canonical "YYYY-MM-DD HH:MM". */
  predicate CanonicalDateTime(y: string, m: string, d: string, h: string, mi: string)
  {
    CanonicalDate(y, m, d) && |h| == 2 && HourField(h) && |mi| == 2 && MinuteField(mi)
  }

  lemma DateAndTimeNotDate(y: string, m: string, d: string, h: string, mi: string)
    requires CanonicalDateTime(y, m, d, h, mi)
    ensures ParseDate(y + "-" + m + "-" + d + " " + h + ":" + mi).None?
  {
    var rest := d + " " + h + ":" + mi;
    DigitsFree(y, '-');
    DigitsFree(m, '-');
    TimeTailFree(d, h, mi);
    assert y + "-" + m + "-" + d + " " + h + ":" + mi == y + "-" + m + "-" + rest;
    LongDayNotDate(y, m, rest);
  }

  /** "DD HH:MM" holds no '-' and is too long for a day. */
  lemma TimeTailFree(d: string, h: string, mi: string)
    requires |d| == 2 && IsDigits(d) && |h| == 2 && IsDigits(h) && |mi| == 2 && IsDigits(mi)
    ensures var rest := d + " " + h + ":" + mi;
      '-' !in rest && !DayField(rest)
  {
    var rest := d + " " + h + ":" + mi;
    forall i | 0 <= i < |rest| ensures rest[i] != '-' {
      if i < 2 { assert rest[i] == d[i]; }
      else if i == 2 || i == 5 { }
      else if i < 5 { assert rest[i] == h[i - 3]; }
      else { assert rest[i] == mi[i - 6]; }
    }
  }

  /** A third '-'-separated field longer than two characters is no day. */
  lemma LongDayNotDate(y: string, m: string, rest: string)
    requires '-' !in y && '-' !in m && '-' !in rest && !DayField(rest)
    ensures ParseDate(y + "-" + m + "-" + rest).None?
  {
    SplitThree(y, m, rest, '-');
  }

  lemma DateAndTimeParses(y: string, m: string, d: string, h: string, mi: string)
    requires CanonicalDateTime(y, m, d, h, mi)
    ensures ParseDateTime(y + "-" + m + "-" + d + " " + h + ":" + mi)
            == Some(DateTime(FieldValue(y), FieldValue(m), FieldValue(d), FieldValue(h), FieldValue(mi)))
  {
    var date := y + "-" + m + "-" + d;
    var s := date + " " + h + ":" + mi;
    CanonicalDateNoSpace(y, m, d);
    assert s[..10] == date && s[11..] == h + ":" + mi;
    assert s[10] == ' ' && s[11] == h[0] && IsDigit(h[0]);
    SpaceAtDateTime(s, 10);
    assert s[9] == d[1] && IsDigit(d[1]);
    CanonicalDateParses(y, m, d);
    TimeAt(s, 10, h, mi);
  }

  /** The ten characters of a canonical date hold no whitespace, and its
      last is a digit. */
  lemma CanonicalDateNoSpace(y: string, m: string, d: string)
    requires CanonicalDate(y, m, d)
    ensures var date := y + "-" + m + "-" + d;
            |date| == 10 && (forall j :: 0 <= j < 10 ==> !IsSpace(date[j])) && date[9] != '-'
  {
    var date := y + "-" + m + "-" + d;
    forall j | 0 <= j < 10 ensures !IsSpace(date[j]) {
      if j < 4 { assert date[j] == y[j] && IsDigit(y[j]); }
      else if j == 4 || j == 7 { }
      else if j < 7 { assert date[j] == m[j - 5] && IsDigit(m[j - 5]); }
      else { assert date[j] == d[j - 8] && IsDigit(d[j - 8]); }
    }
    assert date[9] == d[1] && IsDigit(d[1]);
  }

  /** "YYYY-MM-DD HH:MM" becomes "YYYYMMDDTHHMM". */
  lemma FormatDateAndTime(y: string, m: string, d: string, h: string, mi: string)
    requires CanonicalDateTime(y, m, d, h, mi)
    ensures FormatDatetimeForApi(DateText(y + "-" + m + "-" + d + " " + h + ":" + mi)) == Ok(y + m + d + "T" + h + mi)
  {
    assert |y + "-" + m + "-" + d + " " + h + ":" + mi| == 16;
    DateAndTimeNotDate(y, m, d, h, mi);
    DateAndTimeParses(y, m, d, h, mi);
    CanonicalDateStamp(y, m, d, h, mi);
  }

  /** A day padded with a space reads as that day: "YYYY-MM- D" gives the
      same date as "YYYY-MM-0D". */
  lemma PaddedDayParses(y: string, m: string, c: char)
    requires CanonicalDate(y, m, ['0', c])
    ensures ParseDate(y + "-" + m + "-" + [' ', c]) == ParseDate(y + "-" + m + "-" + ['0', c])
    ensures ParseDate(y + "-" + m + "-" + [' ', c]).Some?
  {
    assert IsDigit(['0', c][1]);
    DigitsFree(y, '-');
    DigitsFree(m, '-');
    DigitsFree(['0', c], '-');
    SplitThree(y, m, [' ', c], '-');
    CanonicalDateParses(y, m, ['0', c]);
  }

  /** "YYYY-MM- D" becomes "YYYYMMDDT0000" with the day zero-padded. */
  lemma FormatPaddedDate(y: string, m: string, c: char)
    requires CanonicalDate(y, m, ['0', c])
    ensures FormatDatetimeForApi(DateText(y + "-" + m + "-" + [' ', c])) == Ok(y + m + ['0', c] + "T0000")
  {
    assert |y + "-" + m + "-" + [' ', c]| == 10;
    PaddedDayParses(y, m, c);
    FormatPlainDate(y, m, ['0', c]);
    assert |y + "-" + m + "-" + ['0', c]| == 10;
  }

  /** With a padded day, the first space pads the day and the date runs to
      the second: "YYYY-MM- D HH:MM" gives the time on that day. */
  lemma PaddedDayTimeParses(y: string, m: string, c: char, h: string, mi: string)
    requires CanonicalDateTime(y, m, ['0', c], h, mi)
    ensures ParseDateTime(y + "-" + m + "-" + [' ', c] + " " + h + ":" + mi)
            == Some(DateTime(FieldValue(y), FieldValue(m), FieldValue(['0', c]), FieldValue(h), FieldValue(mi)))
  {
    var date := y + "-" + m + "-" + [' ', c];
    var s := date + " " + h + ":" + mi;
    var i := |y| + |m| + 2;
    assert IsDigit(['0', c][1]);
    FirstSpacePads(y, m, [' ', c] + " " + h + ":" + mi);
    assert s == y + "-" + m + "-" + ([' ', c] + " " + h + ":" + mi);
    assert s[i + 1..] == [c] + " " + (h + ":" + mi);
    SecondSpace(s, i, c, h + ":" + mi);
    assert s[..i + 2] == date && s[i + 3..] == h + ":" + mi;
    PaddedDayParses(y, m, c);
    CanonicalDateParses(y, m, ['0', c]);
    TimeAt(s, i + 2, h, mi);
  }

  /** A date before j and "HH:MM" after the single space at j. */
  lemma TimeAt(s: string, j: nat, h: string, mi: string)
    requires j + 1 < |s| && SkipSpace(s, j) == j + 1 && s[j + 1..] == h + ":" + mi
    requires ParseDate(s[..j]).Some? && HourField(h) && MinuteField(mi)
    ensures DateTimeAt(s, j) == Some(ParseDate(s[..j]).value.(hour := FieldValue(h), minute := FieldValue(mi)))
  {
    DigitsFree(h, ':');
    DigitsFree(mi, ':');
    SplitTwo(h, mi, ':');
  }

  /** When the text after "Y-M-" starts with a space, that space is the
      first, and it follows a '-'. */
  lemma FirstSpacePads(y: string, m: string, rest: string)
    requires IsDigits(y) && IsDigits(m) && |rest| > 0 && rest[0] == ' '
    ensures var s := y + "-" + m + "-" + rest;
            var i := |y| + |m| + 2;
            SpaceAt(s) == i && s[i - 1] == '-'
  {
    var s := y + "-" + m + "-" + rest;
    var i := |y| + |m| + 2;
    DigitsNoSpace(y);
    DigitsNoSpace(m);
    forall k | 0 <= k < i ensures !IsSpace(s[k]) {
      if k < |y| { assert s[k] == y[k]; }
      else if |y| < k < |y| + 1 + |m| { assert s[k] == m[k - |y| - 1]; }
    }
    assert s[i] == ' ';
    NoSpaceBefore(s, i);
  }

  /** After the padding space and the day digit comes the space before the
      time, so the second try splits there. */
  lemma SecondSpace(s: string, i: nat, c: char, time: string)
    requires |time| > 0 && !IsSpace(time[0]) && IsDigit(c)
    requires i + 3 <= |s| && s[i + 1..] == [c] + " " + time
    ensures i + 1 + SpaceAt(s[i + 1..]) == i + 2
    ensures SkipSpace(s, i + 2) == i + 3
  {
    var t := s[i + 1..];
    assert t[0] == c && t[1] == ' ';
    assert SpaceAt(t) == 1;
    assert s[i + 2] == ' ' && s[i + 3] == time[0];
    assert SkipSpace(s, i + 3) == i + 3;
  }

  // ---------------------------------------------------------------------------
  // rate-limit detection in _make_api_request

  /** What the response check does: pass the text on, report a rate limit,
      or raise. */
  datatype Check = PassOn | RateLimited | Raises(error: PyError)

  /** The check on a response text. Non-JSON text passes; a dict whose
      "Information" string mentions "rate limit" or "api key" is a rate
      limit; `in` and `[...]` on other JSON values raise as Python does. */
  function CheckResponse(decode: string -> Option<Json>, text: string): (c: Check)
    ensures decode(text).None? ==> c == PassOn
    ensures c == RateLimited <==>
              decode(text).Some? && decode(text).value.JObj? && "Information" in decode(text).value.fields
              && decode(text).value.fields["Information"].JStr?
              && (Contains(Lower(decode(text).value.fields["Information"].s), "rate limit")
                  || Contains(Lower(decode(text).value.fields["Information"].s), "api key"))
  {
    match decode(text)
    case None => PassOn
    case Some(j) => CheckJson(j)
  }

  /** The check on a decoded response. */
  function CheckJson(j: Json): Check
  {
    match j
    case JObj(fields) =>
      if "Information" !in fields then PassOn
      else InformationCheck(fields["Information"])
    case JArr(items) => if JStr("Information") in items then Raises(TypeError) else PassOn
    case JStr(s) => if Contains(s, "Information") then Raises(TypeError) else PassOn
    case _ => Raises(TypeError)
  }

  /** `"rate limit" in info.lower() or "api key" in info.lower()`. */
  function InformationCheck(info: Json): Check
  {
    match info
    case JStr(text) =>
      if Contains(Lower(text), "rate limit") || Contains(Lower(text), "api key") then RateLimited else PassOn
    case _ => Raises(AttributeError)
  }

  /** `_make_api_request` after the HTTP call: a key is taken from the
      rotator, and a rate-limited response blocks that key for 60 minutes
      and raises. */
  method MakeApiRequest(rotator: KeyRotator, decode: string -> Option<Json>, responseText: string, now: int)
    returns (r: Result<string, PyError>)
    requires rotator.Valid()
    modifies rotator
    ensures rotator.Valid() && rotator.keys == old(rotator.keys)
    ensures var f := FirstFree(old(rotator.keys), old(rotator.rateLimitedUntil), old(rotator.currentIndex), now, 0);
            if f.None? then r == Err(RateLimitError) && rotator.rateLimitedUntil == old(rotator.rateLimitedUntil)
            else
              var key := KeyAt(old(rotator.keys), old(rotator.currentIndex), f.value);
              match CheckResponse(decode, responseText)
              case PassOn => r == Ok(responseText) && rotator.rateLimitedUntil == old(rotator.rateLimitedUntil) - {key}
              case RateLimited =>
                r == Err(RateLimitError)
                && rotator.rateLimitedUntil == (old(rotator.rateLimitedUntil) - {key})[key := now + DefaultBlockMinutes * 60]
              case Raises(e) => r == Err(e) && rotator.rateLimitedUntil == old(rotator.rateLimitedUntil) - {key}
    ensures var f := FirstFree(old(rotator.keys), old(rotator.rateLimitedUntil), old(rotator.currentIndex), now, 0);
            if f.None? then
              rotator.currentIndex == old(rotator.currentIndex) && rotator.requestCount == old(rotator.requestCount)
            else
              var key := KeyAt(old(rotator.keys), old(rotator.currentIndex), f.value);
              rotator.currentIndex == (Wrap(old(rotator.currentIndex) + f.value, |rotator.keys|) + 1) % |rotator.keys|
              && rotator.requestCount == old(rotator.requestCount)[key := old(rotator.requestCount)[key] + 1]
  {
    var key := rotator.GetKey(now);
    if key.Err? {
      return Err(key.error);
    }
    var check := CheckResponse(decode, responseText);
    match check
    case PassOn => r := Ok(responseText);
    case RateLimited =>
      rotator.MarkRateLimited(key.value, now, DefaultBlockMinutes);
      r := Err(RateLimitError);
    case Raises(e) => r := Err(e);
  }
}
