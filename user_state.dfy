/** The user state of `src/bot/user_state.py`: risk profiles and their
    settings table, a user's portfolio percentages and settings, the
    `to_dict`/`from_dict` pair, and the in-memory cache of
    `UserStateManager`. The clock is the parameter `now`; reading and
    writing the JSON file are not part of this model. */
module UserStates {
  import opened Wrappers
  import opened JsonValue
  import opened Text
  import opened Dicts

  // ---------------------------------------------------------------------------
  // RiskProfile

  datatype RiskProfile = Conservative | Moderate | Aggressive | Yolo

  function ProfileName(p: RiskProfile): string
  {
    match p
    case Conservative => "conservative"
    case Moderate => "moderate"
    case Aggressive => "aggressive"
    case Yolo => "yolo"
  }

  /** `RiskProfile(name)`: the member with that value, None for ValueError. */
  function ProfileOf(name: string): Option<RiskProfile>
  {
    if name == "conservative" then Some(Conservative)
    else if name == "moderate" then Some(Moderate)
    else if name == "aggressive" then Some(Aggressive)
    else if name == "yolo" then Some(Yolo)
    else None
  }

  /** A name is accepted exactly when it is one of the four values, and the
      member it gives is named by it. */
  lemma ProfileOfMeaning(name: string)
    ensures ProfileOf(name).Some? <==> name in {"conservative", "moderate", "aggressive", "yolo"}
    ensures ProfileOf(name).Some? ==> ProfileName(ProfileOf(name).value) == name
  {
  }

  lemma ProfileNameRoundTrip(p: RiskProfile)
    ensures ProfileOf(ProfileName(p)) == Some(p)
  {
  }

  datatype RiskSettings = RiskSettings(
    maxSectorConcentration: real,
    maxLeverage: int,
    defaultStopLossPct: int,
    knockoutBufferPct: int,
    description: string)

  /** `RiskProfile.settings`. */
  function Settings(p: RiskProfile): RiskSettings
  {
    match p
    case Conservative => RiskSettings(0.40, 2, 5, 8, "Konservativ - Kapitalerhalt priorisiert")
    case Moderate => RiskSettings(0.60, 5, 8, 5, "Moderat - Balance zwischen Risiko und Rendite")
    case Aggressive => RiskSettings(0.80, 10, 15, 3, "Aggressiv - Höhere Rendite, höheres Risiko")
    case Yolo => RiskSettings(1.0, 20, 25, 2, "YOLO - Maximales Risiko (nicht empfohlen!)")
  }

  function Rank(p: RiskProfile): nat
  {
    match p
    case Conservative => 0
    case Moderate => 1
    case Aggressive => 2
    case Yolo => 3
  }

  /** A riskier profile allows more concentration, leverage and stop-loss
      distance and keeps a smaller knockout buffer; every leverage is at
      least 2. */
  lemma SettingsOrdered(p: RiskProfile, q: RiskProfile)
    requires Rank(p) <= Rank(q)
    ensures Settings(p).maxSectorConcentration <= Settings(q).maxSectorConcentration
    ensures 2 <= Settings(p).maxLeverage <= Settings(q).maxLeverage
    ensures Settings(p).defaultStopLossPct <= Settings(q).defaultStopLossPct
    ensures Settings(p).knockoutBufferPct >= Settings(q).knockoutBufferPct
    ensures 0.0 < Settings(p).maxSectorConcentration <= 1.0
  {
  }

  // ---------------------------------------------------------------------------
  // UserState

  /** An alert dict. */
  type Alert = map<string, Json>

  datatype UserState = UserState(
    userId: int,
    username: Option<string>,
    riskProfile: string,
    portfolio: seq<Entry>,
    alerts: seq<Alert>,
    createdAt: string,
    updatedAt: string)

  /** `UserState(user_id=..., username=...)` with the field defaults. */
  function NewUser(userId: int, username: Option<string>, now: string): (s: UserState)
    ensures s.userId == userId && s.username == username && s.riskProfile == "moderate"
    ensures s.portfolio == [] && s.alerts == []
  {
    UserState(userId, username, "moderate", [], [], now, now)
  }

  function TotalValue(s: UserState): real
  {
    Sum(ValuesOf(s.portfolio))
  }

  /** A sum of non-negative amounts is at least each of them, and is 0
      exactly when all of them are. */
  lemma {:induction false} SumOfNonNegative(xs: seq<real>)
    requires forall i :: 0 <= i < |xs| ==> xs[i] >= 0.0
    ensures forall i :: 0 <= i < |xs| ==> xs[i] <= Sum(xs)
    ensures Sum(xs) == 0.0 <==> forall i :: 0 <= i < |xs| ==> xs[i] == 0.0
  {
    if xs != [] {
      var init := xs[..|xs| - 1];
      assert forall i :: 0 <= i < |init| ==> init[i] == xs[i];
      SumOfNonNegative(init);
      assert Sum(xs) == Sum(init) + xs[|xs| - 1];
      if |init| > 0 {
        assert Sum(init) >= init[0] >= 0.0;
      }
    }
  }

  /** With no negative amount, the total is at least every amount and is 0
      exactly when every amount is 0. */
  lemma TotalValueBounds(s: UserState)
    requires forall e :: e in s.portfolio ==> e.value >= 0.0
    ensures forall e :: e in s.portfolio ==> e.value <= TotalValue(s)
    ensures TotalValue(s) == 0.0 <==> forall e :: e in s.portfolio ==> e.value == 0.0
  {
    var vs := ValuesOf(s.portfolio);
    forall i | 0 <= i < |vs|
      ensures vs[i] >= 0.0
    {
      assert s.portfolio[i] in s.portfolio;
    }
    SumOfNonNegative(vs);
    forall e | e in s.portfolio
      ensures e.value <= TotalValue(s)
    {
      var i :| 0 <= i < |s.portfolio| && s.portfolio[i] == e;
      assert vs[i] == e.value;
    }
    if forall e :: e in s.portfolio ==> e.value == 0.0 {
      forall i | 0 <= i < |vs|
        ensures vs[i] == 0.0
      {
        assert s.portfolio[i] in s.portfolio;
      }
    }
    if TotalValue(s) == 0.0 {
      forall e | e in s.portfolio
        ensures e.value == 0.0
      {
        var i :| 0 <= i < |s.portfolio| && s.portfolio[i] == e;
        assert vs[i] == e.value;
      }
    }
  }

  function Scaled(es: seq<Entry>, total: real): (r: seq<Entry>)
    requires total != 0.0
    ensures |r| == |es|
    ensures forall i :: 0 <= i < |es| ==> r[i].key == es[i].key && r[i].value * total == es[i].value * 100.0
  {
    seq(|es|, i requires 0 <= i < |es| => Entry(es[i].key, es[i].value / total * 100.0))
  }

  /** `get_portfolio_percentages`: {} for a zero total, else each amount in
      percent of the total. */
  function Percentages(s: UserState): (r: seq<Entry>)
    ensures TotalValue(s) == 0.0 ==> r == []
    ensures TotalValue(s) != 0.0 ==>
              |r| == |s.portfolio|
              && forall i :: 0 <= i < |r| ==>
                   r[i].key == s.portfolio[i].key && r[i].value * TotalValue(s) == s.portfolio[i].value * 100.0
  {
    var total := TotalValue(s);
    if total == 0.0 then [] else Scaled(s.portfolio, total)
  }

  lemma ScaledSum(es: seq<Entry>, total: real)
    requires total != 0.0
    ensures Sum(ValuesOf(Scaled(es, total))) * total == Sum(ValuesOf(es)) * 100.0
  {
    var rs := Scaled(es, total);
    assert forall i :: 0 <= i < |es| ==> ScaledBy(rs[i].value, es[i].value, total);
    SumScales(rs, es, total);
  }

  /** `x` is the share `y` of `total` in percent. */
  predicate ScaledBy(x: real, y: real, total: real)
  {
    x * total == y * 100.0
  }

  /** When every amount of `rs` is the matching amount of `es` in percent
      of `total`, so is their sum. */
  lemma {:induction false} SumScales(rs: seq<Entry>, es: seq<Entry>, total: real)
    requires |rs| == |es| && forall i :: 0 <= i < |es| ==> ScaledBy(rs[i].value, es[i].value, total)
    ensures ScaledBy(Sum(ValuesOf(rs)), Sum(ValuesOf(es)), total)
  {
    if es != [] {
      var n := |es| - 1;
      assert ValuesOf(rs)[..n] == ValuesOf(rs[..n]);
      assert ValuesOf(es)[..n] == ValuesOf(es[..n]);
      SumScales(rs[..n], es[..n], total);
      ScaleStep(Sum(ValuesOf(rs)), Sum(ValuesOf(rs[..n])), rs[n].value,
                Sum(ValuesOf(es)), Sum(ValuesOf(es[..n])), es[n].value, total);
    }
  }

  /** Scaling distributes over one more summand. */
  lemma ScaleStep(scaled: real, a: real, x: real, sum: real, b: real, v: real, total: real)
    requires scaled == a + x && sum == b + v
    requires ScaledBy(a, b, total) && ScaledBy(x, v, total)
    ensures ScaledBy(scaled, sum, total)
  {
    assert (a + x) * total == a * total + x * total;
    assert (b + v) * 100.0 == b * 100.0 + v * 100.0;
  }

  /** The percentages of a non-empty total add up to 100. */
  lemma PercentagesSumTo100(s: UserState)
    requires TotalValue(s) != 0.0
    ensures Sum(ValuesOf(Percentages(s))) == 100.0
  {
    var t := TotalValue(s);
    ScaledSum(s.portfolio, t);
    DivOfProduct(Sum(ValuesOf(s.portfolio)) * 100.0, Sum(ValuesOf(Percentages(s))), t);
    DivOfProduct(Sum(ValuesOf(s.portfolio)) * 100.0, 100.0, t);
  }

  /** `get_risk_settings`: an unknown profile string gets the moderate
      settings. */
  function RiskSettingsOf(s: UserState): (r: RiskSettings)
    ensures ProfileOf(s.riskProfile).Some? ==> r == Settings(ProfileOf(s.riskProfile).value)
    ensures ProfileOf(s.riskProfile).None? ==> r == Settings(Moderate)
  {
    match ProfileOf(s.riskProfile)
    case Some(p) => Settings(p)
    case None => Settings(Moderate)
  }

  /** Whatever the stored profile, the default stop loss is 5 to 25 %. */
  lemma StopLossRange(s: UserState)
    ensures 5 <= RiskSettingsOf(s).defaultStopLossPct <= 25
  {
    var p := if ProfileOf(s.riskProfile).Some? then ProfileOf(s.riskProfile).value else Moderate;
    assert RiskSettingsOf(s) == Settings(p);
    StopLossOf(p);
  }

  lemma StopLossOf(p: RiskProfile)
    ensures 5 <= Settings(p).defaultStopLossPct <= 25
  {
    match p
    case Conservative =>
    case Moderate =>
    case Aggressive =>
    case Yolo =>
  }

  // ---------------------------------------------------------------------------
  // to_dict / from_dict

  /** A stored user dict: each key may be absent (None); `username` may be
      present and null (Some(None)). Other keys are ignored by `from_dict`. */
  datatype StateDict = StateDict(
    userId: Option<int>,
    username: Option<Option<string>>,
    riskProfile: Option<string>,
    portfolio: Option<seq<Entry>>,
    alerts: Option<seq<Alert>>,
    createdAt: Option<string>,
    updatedAt: Option<string>)

  function ToDict(s: UserState): (d: StateDict)
    ensures d.userId.Some? && d.username.Some? && d.riskProfile.Some? && d.portfolio.Some?
    ensures d.alerts.Some? && d.createdAt.Some? && d.updatedAt.Some?
  {
    StateDict(Some(s.userId), Some(s.username), Some(s.riskProfile), Some(s.portfolio), Some(s.alerts),
              Some(s.createdAt), Some(s.updatedAt))
  }

  /** `from_dict`: a missing user id raises KeyError; the other keys default
      to None, "moderate", {}, [] and the current time. */
  function FromDict(d: StateDict, now: string): (r: Result<UserState, PyError>)
    ensures r.Err? <==> d.userId.None?
    ensures r.Err? ==> r.error == KeyError
    ensures r.Ok? ==> r.value.userId == d.userId.value
    ensures r.Ok? && d.username.None? ==> r.value.username.None?
    ensures r.Ok? && d.riskProfile.None? ==> r.value.riskProfile == "moderate"
    ensures r.Ok? && d.portfolio.None? ==> r.value.portfolio == []
    ensures r.Ok? && d.alerts.None? ==> r.value.alerts == []
    ensures r.Ok? && d.createdAt.None? ==> r.value.createdAt == now
    ensures r.Ok? && d.updatedAt.None? ==> r.value.updatedAt == now
  {
    match d.userId
    case None => Err(KeyError)
    case Some(id) =>
      Ok(UserState(id, d.username.GetOr(None), d.riskProfile.GetOr("moderate"), d.portfolio.GetOr([]),
                   d.alerts.GetOr([]), d.createdAt.GetOr(now), d.updatedAt.GetOr(now)))
  }

  /** A stored state loads back unchanged, whatever the clock says. */
  lemma FromToDict(s: UserState, now: string)
    ensures FromDict(ToDict(s), now) == Ok(s)
  {
  }

  /** A dict with every key present is what its loaded state stores. */
  lemma ToFromDict(d: StateDict, now: string)
    requires d.userId.Some? && d.username.Some? && d.riskProfile.Some? && d.portfolio.Some?
    requires d.alerts.Some? && d.createdAt.Some? && d.updatedAt.Some?
    ensures FromDict(d, now).Ok? && ToDict(FromDict(d, now).value) == d
  {
  }

  // ---------------------------------------------------------------------------
  // portfolio keys and alerts

  /** `{k.upper(): v for k, v in portfolio.items()}`: a key that upper-cases
      to one already present keeps its place and takes the later value. */
  function UpperKeys(p: seq<Entry>): seq<Entry>
    decreases |p|
  {
    if p == [] then []
    else
      var n := |p| - 1;
      Put(UpperKeys(p[..n]), Upper(p[n].key), p[n].value)
  }

  /** The amount of the last entry whose key upper-cases to `k`. */
  function LastAmount(p: seq<Entry>, k: string): Option<real>
    decreases |p|
  {
    if p == [] then None
    else
      var n := |p| - 1;
      if Upper(p[n].key) == k then Some(p[n].value) else LastAmount(p[..n], k)
  }

  /** Each upper-cased key holds the last amount given for it, and every
      stored key is upper-case. */
  lemma {:induction false} UpperKeysMeaning(p: seq<Entry>, k: string)
    ensures Lookup(UpperKeys(p), k) == LastAmount(p, k)
    ensures forall e :: e in UpperKeys(p) ==> Upper(e.key) == e.key
    decreases |p|
  {
    if p != [] {
      var n := |p| - 1;
      var prev := UpperKeys(p[..n]);
      UpperKeysMeaning(p[..n], k);
      LookupPut(prev, Upper(p[n].key), p[n].value, k);
      UpperIdempotent(p[n].key);
      PutKeys(prev, Upper(p[n].key), p[n].value);
    }
  }

  lemma PutKeys(es: seq<Entry>, k: string, v: real)
    ensures forall e :: e in Put(es, k, v) ==> e in es || e == Entry(k, v)
  {
    var i := IndexOfKey(es, k);
    if i < |es| {
      forall e | e in Put(es, k, v)
        ensures e in es || e == Entry(k, v)
      {
        var j :| 0 <= j < |es| && Put(es, k, v)[j] == e;
        if j != i {
          assert e == es[j];
        }
      }
    }
  }

  /** An alert counts as active unless its "triggered" value is truthy. */
  predicate Active(a: Alert)
  {
    !Truthy(Get(a, "triggered", JNull))
  }

  predicate HasActiveAlert(s: UserState)
  {
    s.alerts != [] && exists a :: a in s.alerts && Active(a)
  }

  /** The alert as `add_alert` stores it. */
  function StampedAlert(alert: Alert, now: string): (a: Alert)
    ensures "triggered" in a && "created_at" in a
    ensures Active(a) && a["triggered"] == JBool(false) && a["created_at"] == JStr(now)
    ensures forall k :: k in alert && k != "triggered" && k != "created_at" ==> k in a && a[k] == alert[k]
  {
    alert["created_at" := JStr(now)]["triggered" := JBool(false)]
  }

  /** The users with an active alert, in cache order. */
  function ActiveUsers(cache: map<int, UserState>, order: seq<int>): (us: seq<UserState>)
    requires forall i :: 0 <= i < |order| ==> order[i] in cache
    decreases |order|
  {
    if order == [] then []
    else
      var n := |order| - 1;
      assert order[..n] <= order;
      ActiveUsers(cache, order[..n]) + if HasActiveAlert(cache[order[n]]) then [cache[order[n]]] else []
  }

  /** Exactly the cached users with an active alert are listed. */
  lemma {:induction false} ActiveUsersMeaning(cache: map<int, UserState>, order: seq<int>, u: UserState)
    requires forall i :: 0 <= i < |order| ==> order[i] in cache
    ensures u in ActiveUsers(cache, order) <==> HasActiveAlert(u) && exists k :: k in order && cache[k] == u
    decreases |order|
  {
    if order != [] {
      var n := |order| - 1;
      ActiveUsersMeaning(cache, order[..n], u);
      if exists k :: k in order && cache[k] == u {
        var k :| k in order && cache[k] == u;
        if k != order[n] {
          assert k in order[..n];
        }
      }
      if exists k :: k in order[..n] && cache[k] == u {
        var k :| k in order[..n] && cache[k] == u;
        assert k in order;
      }
    }
  }

  // ---------------------------------------------------------------------------
  // UserStateManager

  /** The cache after `get_user`: a new state for an unknown id, the new
      name for a known id given a different non-empty name. */
  function AfterGetUser(cache: map<int, UserState>, userId: int, username: Option<string>, now: string)
    : map<int, UserState>
  {
    if userId !in cache then cache[userId := NewUser(userId, username, now)]
    else if username.Some? && username.value != "" && cache[userId].username != username
    then cache[userId := cache[userId].(username := username)]
    else cache
  }

  /** `get_user` adds exactly the requested id, touches no other user, and
      keeps an existing user's portfolio, profile, alerts and a name that
      is not replaced by a non-empty one. */
  lemma GetUserFrame(cache: map<int, UserState>, userId: int, username: Option<string>, now: string)
    ensures AfterGetUser(cache, userId, username, now).Keys == cache.Keys + {userId}
    ensures forall k :: k in cache && k != userId ==> AfterGetUser(cache, userId, username, now)[k] == cache[k]
    ensures userId in cache ==>
              var u := AfterGetUser(cache, userId, username, now)[userId];
              u == cache[userId].(username := u.username)
              && (username.None? || username == Some("") ==> u == cache[userId])
    ensures userId !in cache ==> AfterGetUser(cache, userId, username, now)[userId] == NewUser(userId, username, now)
  {
  }

  /** Storing a state under the id after `get_user` without a name is
      storing it under the id directly. */
  lemma StoreAfterGet(cache: map<int, UserState>, userId: int, now: string, u: UserState)
    ensures AfterGetUser(cache, userId, None, now)[userId := u] == cache[userId := u]
  {
  }

  class UserStateManager {
    var cache: map<int, UserState>
    /** The insertion order of the cache's keys. */
    var order: seq<int>

    ghost predicate Valid()
      reads this
    {
      (forall i, j :: 0 <= i < j < |order| ==> order[i] != order[j])
      && (forall k :: k in cache <==> k in order)
      && (forall i :: 0 <= i < |order| ==> order[i] in cache)
      && (forall k :: k in cache ==> cache[k].userId == k)
    }

    /** A manager with nothing stored yet. */
    constructor ()
      ensures Valid() && cache == map[] && order == []
    {
      cache := map[];
      order := [];
    }

    method GetUser(userId: int, username: Option<string>, now: string) returns (u: UserState)
      requires Valid()
      modifies this
      ensures Valid()
      ensures cache == AfterGetUser(old(cache), userId, username, now)
      ensures order == if userId in old(cache) then old(order) else old(order) + [userId]
      ensures u == cache[userId]
    {
      if userId !in cache {
        cache := cache[userId := NewUser(userId, username, now)];
        order := order + [userId];
      } else if username.Some? && username.value != "" && cache[userId].username != username {
        cache := cache[userId := cache[userId].(username := username)];
      }
      u := cache[userId];
    }

    /** `update_user`: the state is stamped and stored under its id. */
    method UpdateUser(s: UserState, now: string)
      requires Valid()
      modifies this
      ensures Valid()
      ensures cache == old(cache)[s.userId := s.(updatedAt := now)]
      ensures order == if s.userId in old(cache) then old(order) else old(order) + [s.userId]
    {
      if s.userId !in cache {
        order := order + [s.userId];
      }
      cache := cache[s.userId := s.(updatedAt := now)];
    }

    /** `set_portfolio`: the whole portfolio is replaced by the upper-cased
        one. */
    method SetPortfolio(userId: int, portfolio: seq<Entry>, now: string) returns (u: UserState)
      requires Valid()
      modifies this
      ensures Valid()
      ensures u == AfterGetUser(old(cache), userId, None, now)[userId].(portfolio := UpperKeys(portfolio),
                                                                        updatedAt := now)
      ensures cache == old(cache)[userId := u]
      ensures order == if userId in old(cache) then old(order) else old(order) + [userId]
    {
      var user := GetUser(userId, None, now);
      user := user.(portfolio := UpperKeys(portfolio));
      UpdateUser(user, now);
      u := cache[userId];
      StoreAfterGet(old(cache), userId, now, u);
    }

    /** `set_profile`: the lower-cased name is validated before the cache is
        touched; an unknown name raises ValueError and changes nothing. */
    method SetProfile(userId: int, profile: string, now: string) returns (r: Result<UserState, PyError>)
      requires Valid()
      modifies this
      ensures Valid()
      ensures r.Err? <==> ProfileOf(Lower(profile)).None?
      ensures r.Err? ==> r.error == ValueError && cache == old(cache) && order == old(order)
      ensures r.Ok? ==>
                r.value == AfterGetUser(old(cache), userId, None, now)[userId].(riskProfile := Lower(profile),
                                                                                updatedAt := now)
                && cache == old(cache)[userId := r.value]
                && order == if userId in old(cache) then old(order) else old(order) + [userId]
    {
      if ProfileOf(Lower(profile)).None? {
        return Err(ValueError);
      }
      var user := GetUser(userId, None, now);
      user := user.(riskProfile := Lower(profile));
      UpdateUser(user, now);
      StoreAfterGet(old(cache), userId, now, cache[userId]);
      r := Ok(cache[userId]);
    }

    /** `add_alert`: the stamped alert goes at the end, untriggered. */
    method AddAlert(userId: int, alert: Alert, now: string) returns (u: UserState)
      requires Valid()
      modifies this
      ensures Valid()
      ensures var before := AfterGetUser(old(cache), userId, None, now)[userId];
              u == before.(alerts := before.alerts + [StampedAlert(alert, now)], updatedAt := now)
      ensures cache == old(cache)[userId := u]
      ensures HasActiveAlert(u)
      ensures order == if userId in old(cache) then old(order) else old(order) + [userId]
    {
      var user := GetUser(userId, None, now);
      ghost var before := user;
      var stamped := StampedAlert(alert, now);
      user := user.(alerts := user.alerts + [stamped]);
      UpdateUser(user, now);
      u := cache[userId];
      StoreAfterGet(old(cache), userId, now, u);
      assert u == before.(alerts := before.alerts + [stamped], updatedAt := now);
      assert stamped in u.alerts;
    }

    /** `remove_alert`: pops an index in range; any other index only
        creates the user if needed. */
    method RemoveAlert(userId: int, index: int, now: string) returns (u: UserState)
      requires Valid()
      modifies this
      ensures Valid()
      ensures var before := AfterGetUser(old(cache), userId, None, now)[userId];
              if 0 <= index < |before.alerts|
              then u == before.(alerts := before.alerts[..index] + before.alerts[index + 1..], updatedAt := now)
                   && cache == old(cache)[userId := u]
              else u == before && cache == AfterGetUser(old(cache), userId, None, now)
      ensures order == if userId in old(cache) then old(order) else old(order) + [userId]
    {
      var user := GetUser(userId, None, now);
      if 0 <= index < |user.alerts| {
        user := user.(alerts := user.alerts[..index] + user.alerts[index + 1..]);
        UpdateUser(user, now);
        StoreAfterGet(old(cache), userId, now, cache[userId]);
      }
      u := cache[userId];
    }

    /** `get_all_users_with_alerts`, in cache order. */
    method UsersWithAlerts() returns (us: seq<UserState>)
      requires Valid()
      ensures us == ActiveUsers(cache, order)
    {
      us := [];
      for i := 0 to |order|
        invariant us == ActiveUsers(cache, order[..i])
      {
        assert order[..i + 1][..i] == order[..i];
        var user := cache[order[i]];
        if user.alerts != [] && exists a :: a in user.alerts && Active(a) {
          us := us + [user];
        }
      }
      assert order[..|order|] == order;
    }
  }
}
