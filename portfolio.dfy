/** `src/bot/commands/portfolio.py`: the `/portfolio` view and the single
    position updates. The view is a list of lines; emoji, wording and number
    formatting are not modelled. */
module PortfolioCommands {
  import opened Wrappers
  import opened Text
  import opened Dicts
  import UserStates
  import Sorting

  /** The lines of the portfolio view. */
  datatype Line =
    | NoPortfolio
    | Heading
    | PositionLine(symbol: string, amount: real, pct: real)
    | BarLine(cells: string)
    | TotalLine(total: real)
    | ProfileLine(profile: string)
    | ChangeHint

  function Amount(e: Entry): real
  {
    e.value
  }

  /** `sorted(user.portfolio.items(), key=lambda x: x[1], reverse=True)`. */
  function SortedPositions(portfolio: seq<Entry>): seq<Entry>
  {
    Sorting.SortDesc(portfolio, Amount)
  }

  const BarWidth: int := 20

  /** `int(pct / 5)` filled cells, padded with empty ones to 20. */
  function BarOf(pct: real): string
  {
    Cells(TruncInt(pct / 5.0), BarWidth)
  }

  /** For a share between 0 and 100 % the bar has 20 cells, and cell `i` is
      filled exactly when the share reaches `5 * (i + 1)` percent. */
  lemma BarShape(pct: real)
    requires 0.0 <= pct <= 100.0
    ensures |BarOf(pct)| == BarWidth
    ensures forall i :: 0 <= i < BarWidth ==> (BarOf(pct)[i] == Filled <==> (i + 1) as real * 5.0 <= pct)
  {
    var n := TruncInt(pct / 5.0);
    assert 0 <= n <= BarWidth;
    CellsShape(n, BarWidth);
  }

  /** The closing lines: the total, the profile and the hint on changing
      the portfolio. */
  function Footer(user: UserStates.UserState): seq<Line>
  {
    [TotalLine(UserStates.TotalValue(user)), ProfileLine(Capitalize(user.riskProfile)), ChangeHint]
  }

  /** The lines for the positions from `i` on, then `footer`. A symbol with
      no percentage (the total is zero, so there are none) raises KeyError. */
  function Rows(positions: seq<Entry>, pcts: seq<Entry>, i: nat, footer: seq<Line>)
    : Result<seq<Line>, PyError>
    requires i <= |positions|
    decreases |positions| - i
  {
    if i == |positions| then Ok(footer)
    else
      match Lookup(pcts, positions[i].key)
      case None => Err(KeyError)
      case Some(pct) =>
        Prepend([PositionLine(positions[i].key, positions[i].value, pct), BarLine(BarOf(pct))],
                Rows(positions, pcts, i + 1, footer))
  }

  /** `show_portfolio`. */
  function PortfolioView(user: UserStates.UserState): Result<seq<Line>, PyError>
  {
    if user.portfolio == [] then Ok([NoPortfolio])
    else
      Prepend([Heading], Rows(SortedPositions(user.portfolio), UserStates.Percentages(user), 0, Footer(user)))
  }

  /** Rows fail exactly when some position has no percentage; otherwise
      each position gives its line and its bar, in order, before the footer. */
  lemma {:induction false} RowsShape(positions: seq<Entry>, pcts: seq<Entry>, i: nat, footer: seq<Line>)
    requires i <= |positions|
    ensures Rows(positions, pcts, i, footer).Err? <==>
      exists j :: i <= j < |positions| && Lookup(pcts, positions[j].key).None?
    ensures Rows(positions, pcts, i, footer).Ok? ==>
      var lines := Rows(positions, pcts, i, footer).value;
      && |lines| == 2 * (|positions| - i) + |footer|
      && lines[2 * (|positions| - i)..] == footer
    decreases |positions| - i
  {
    if i < |positions| {
      RowsShape(positions, pcts, i + 1, footer);
    }
  }

  /** Position `k` gives its line and its bar at offset `2 * (k - i)`. */
  lemma {:induction false} RowAt(positions: seq<Entry>, pcts: seq<Entry>, i: nat, footer: seq<Line>, k: nat)
    requires i <= k < |positions| && Rows(positions, pcts, i, footer).Ok?
    ensures Lookup(pcts, positions[k].key).Some?
    ensures var lines := Rows(positions, pcts, i, footer).value;
      && 2 * (k - i) + 1 < |lines|
      && lines[2 * (k - i)] == PositionLine(positions[k].key, positions[k].value,
                                            Lookup(pcts, positions[k].key).value)
      && lines[2 * (k - i) + 1] == BarLine(BarOf(Lookup(pcts, positions[k].key).value))
    decreases k - i
  {
    RowsShape(positions, pcts, i + 1, footer);
    if k > i {
      RowAt(positions, pcts, i + 1, footer, k);
    }
  }

  /** A key present in a list of entries is found. */
  lemma FoundIfPresent(es: seq<Entry>, e: Entry)
    requires e in es
    ensures Lookup(es, e.key).Some?
  {
    var m :| 0 <= m < |es| && es[m] == e;
  }

  /** The view of an empty portfolio is the help text; that of a non-empty
      one fails (KeyError) exactly when the amounts add up to zero. */
  lemma PortfolioViewFails(user: UserStates.UserState)
    ensures user.portfolio == [] ==> PortfolioView(user) == Ok([NoPortfolio])
    ensures user.portfolio != [] ==>
      (PortfolioView(user).Err? <==> UserStates.TotalValue(user) == 0.0)
  {
    if user.portfolio != [] {
      var sorted := SortedPositions(user.portfolio);
      var pcts := UserStates.Percentages(user);
      Sorting.SortDescOrdered(user.portfolio, Amount);
      RowsShape(sorted, pcts, 0, Footer(user));
      assert sorted[0] in user.portfolio;
      if UserStates.TotalValue(user) == 0.0 {
        assert Lookup(pcts, sorted[0].key).None?;
      } else {
        forall j | 0 <= j < |sorted|
          ensures Lookup(pcts, sorted[j].key).Some?
        {
          assert sorted[j] in user.portfolio;
          PercentageOfPosition(user, sorted[j]);
        }
      }
    }
  }

  /** The positions appear by amount, largest first, each one once with its
      line and its bar, between the heading and the footer. */
  lemma PortfolioViewOrder(user: UserStates.UserState)
    requires user.portfolio != [] && PortfolioView(user).Ok?
    ensures var sorted := SortedPositions(user.portfolio);
      var lines := PortfolioView(user).value;
      && multiset(sorted) == multiset(user.portfolio)
      && Sorting.Descending(sorted, Amount)
      && |lines| == 2 * |sorted| + 4
      && lines[0] == Heading
      && lines[2 * |sorted| + 1..] == Footer(user)
      && forall k :: 0 <= k < |sorted| ==>
           lines[2 * k + 1].PositionLine? && lines[2 * k + 1].symbol == sorted[k].key
           && lines[2 * k + 1].amount == sorted[k].value && lines[2 * k + 2].BarLine?
  {
    var sorted := SortedPositions(user.portfolio);
    Sorting.SortDescOrdered(user.portfolio, Amount);
    ViewLayout(sorted, UserStates.Percentages(user), Footer(user));
  }

  /** The heading, two lines per position, then the footer. */
  lemma ViewLayout(positions: seq<Entry>, pcts: seq<Entry>, footer: seq<Line>)
    requires Rows(positions, pcts, 0, footer).Ok?
    ensures var lines := Prepend([Heading], Rows(positions, pcts, 0, footer)).value;
      && |lines| == 2 * |positions| + 1 + |footer|
      && lines[0] == Heading
      && lines[2 * |positions| + 1..] == footer
      && forall k :: 0 <= k < |positions| ==>
           lines[2 * k + 1].PositionLine? && lines[2 * k + 1].symbol == positions[k].key
           && lines[2 * k + 1].amount == positions[k].value && lines[2 * k + 2].BarLine?
  {
    RowsShape(positions, pcts, 0, footer);
    var rows := Rows(positions, pcts, 0, footer).value;
    var lines := [Heading] + rows;
    forall k | 0 <= k < |positions|
      ensures lines[2 * k + 1] == rows[2 * k] && lines[2 * k + 2] == rows[2 * k + 1]
      ensures rows[2 * k].PositionLine? && rows[2 * k].symbol == positions[k].key
      ensures rows[2 * k].amount == positions[k].value && rows[2 * k + 1].BarLine?
    {
      RowAt(positions, pcts, 0, footer, k);
    }
    assert lines[2 * |positions| + 1..] == rows[2 * |positions|..];
  }

  /** With a non-zero total every position has a percentage. */
  lemma PercentageOfPosition(user: UserStates.UserState, e: Entry)
    requires UserStates.TotalValue(user) != 0.0 && e in user.portfolio
    ensures Lookup(UserStates.Percentages(user), e.key).Some?
  {
    var pcts := UserStates.Percentages(user);
    var m :| 0 <= m < |user.portfolio| && user.portfolio[m] == e;
    FoundIfPresent(user.portfolio, e);
    SameKeysSameIndex(pcts, user.portfolio, e.key);
  }

  /** `show_portfolio` as the loop it is. */
  method ShowPortfolio(user: UserStates.UserState) returns (r: Result<seq<Line>, PyError>)
    ensures r == PortfolioView(user)
  {
    if user.portfolio == [] {
      return Ok([NoPortfolio]);
    }
    r := RenderRows(SortedPositions(user.portfolio), UserStates.Percentages(user), Footer(user));
  }

  /** The loop of `show_portfolio` over the sorted positions, after the
      heading and before the footer. */
  method RenderRows(sorted: seq<Entry>, pcts: seq<Entry>, footer: seq<Line>) returns (r: Result<seq<Line>, PyError>)
    ensures r == Prepend([Heading], Rows(sorted, pcts, 0, footer))
  {
    var lines := [Heading];
    for i := 0 to |sorted|
      invariant Prepend([Heading], Rows(sorted, pcts, 0, footer)) == Prepend(lines, Rows(sorted, pcts, i, footer))
    {
      var pct := Lookup(pcts, sorted[i].key);
      RowStep(sorted, pcts, i, footer);
      if pct.None? {
        return Err(KeyError);
      }
      var row := [PositionLine(sorted[i].key, sorted[i].value, pct.value), BarLine(BarOf(pct.value))];
      PrependMore(lines, row, Rows(sorted, pcts, i + 1, footer));
      lines := lines + row;
    }
    lines := lines + footer;
    r := Ok(lines);
  }

  /** One step of the rows: a missing percentage raises, otherwise the
      position's line and bar come before the later rows. */
  lemma RowStep(positions: seq<Entry>, pcts: seq<Entry>, i: nat, footer: seq<Line>)
    requires i < |positions|
    ensures Lookup(pcts, positions[i].key).None? ==> Rows(positions, pcts, i, footer) == Err(KeyError)
    ensures Lookup(pcts, positions[i].key).Some? ==>
      var pct := Lookup(pcts, positions[i].key).value;
      Rows(positions, pcts, i, footer)
        == Prepend([PositionLine(positions[i].key, positions[i].value, pct), BarLine(BarOf(pct))],
                   Rows(positions, pcts, i + 1, footer))
  {
  }

  /** The command object; it holds the shared user-state manager. */
  class PortfolioCommand {
    const store: UserStates.UserStateManager

    constructor (store: UserStates.UserStateManager)
      ensures this.store == store
    {
      this.store := store;
    }

    /** `add_position`: the upper-cased symbol takes the amount, replacing
        any amount it had. */
    method AddPosition(userId: int, symbol: string, amount: real, now: string) returns (u: UserStates.UserState)
      requires store.Valid()
      modifies store
      ensures store.Valid()
      ensures var before := UserStates.AfterGetUser(old(store.cache), userId, None, now)[userId];
        u == before.(portfolio := Put(before.portfolio, Upper(symbol), amount), updatedAt := now)
      ensures store.cache == old(store.cache)[userId := u]
      ensures store.order == if userId in old(store.cache) then old(store.order) else old(store.order) + [userId]
    {
      var user := store.GetUser(userId, None, now);
      user := user.(portfolio := Put(user.portfolio, Upper(symbol), amount));
      store.UpdateUser(user, now);
      u := store.cache[userId];
    }

    /** `remove_position`: an absent symbol is reported and the portfolio
        stays as it is (the user is still created if new); a present one is
        deleted and nothing else changes. */
    method RemovePosition(userId: int, symbol: string, now: string) returns (removed: bool, u: UserStates.UserState)
      requires store.Valid()
      modifies store
      ensures store.Valid()
      ensures var before := UserStates.AfterGetUser(old(store.cache), userId, None, now)[userId];
        && (removed <==> Lookup(before.portfolio, Upper(symbol)).Some?)
        && (!removed ==> u == before && store.cache == UserStates.AfterGetUser(old(store.cache), userId, None, now))
        && (removed ==>
              u == before.(portfolio := Remove(before.portfolio, Upper(symbol)), updatedAt := now)
              && store.cache == old(store.cache)[userId := u])
      ensures store.order == if userId in old(store.cache) then old(store.order) else old(store.order) + [userId]
    {
      var user := store.GetUser(userId, None, now);
      var key := Upper(symbol);
      if Lookup(user.portfolio, key).None? {
        return false, user;
      }
      user := user.(portfolio := Remove(user.portfolio, key));
      store.UpdateUser(user, now);
      removed, u := true, store.cache[userId];
    }
  }

  /** After adding, the symbol holds the amount and every other symbol its
      old amount; removing it afterwards leaves the other symbols as they
      were and the symbol itself absent. */
  lemma AddThenRemove(portfolio: seq<Entry>, symbol: string, amount: real, other: string)
    ensures Lookup(Put(portfolio, Upper(symbol), amount), Upper(symbol)) == Some(amount)
    ensures other != Upper(symbol) ==>
      Lookup(Put(portfolio, Upper(symbol), amount), other) == Lookup(portfolio, other)
    ensures Lookup(Remove(Put(portfolio, Upper(symbol), amount), Upper(symbol)), other)
         == Lookup(Remove(portfolio, Upper(symbol)), other)
  {
    var k := Upper(symbol);
    LookupPut(portfolio, k, amount, k);
    LookupPut(portfolio, k, amount, other);
    LookupRemove(Put(portfolio, k, amount), k, other);
    LookupRemove(portfolio, k, other);
  }
}
