/** Account valuation at the current price: the leaderboard, ranked by
    profit and loss against the 10,000 starting balance, and the caller's
    own portfolio picked out of the same leaderboard data.
 */
module Leaderboard {
  import opened Wrappers
  import opened Sorting

  /** An account snapshot as the backend reports it. */
  datatype Account = Account(cashBalance: real, icpBalance: real, pnl: real, lastUpdated: int)

  /** One `[principal, account]` pair of the backend's leaderboard, with the
      principal already rendered as text. */
  datatype Standing = Standing(principal: string, account: Account)

  const StartingBalance: real := 10000.0

  datatype LeaderboardEntry = LeaderboardEntry(
    principal: string,
    cashBalance: real,
    icpBalance: real,
    totalValue: real,
    profitLoss: real)

  /** A query's state as the hooks see it. */
  datatype QueryState<T> = QueryState(data: Option<T>, isLoading: bool, error: Option<string>)

  datatype LeaderboardView = LeaderboardView(leaderboard: Option<seq<LeaderboardEntry>>, isLoading: bool, error: Option<string>)

  /** Cash plus the ICP balance valued at `price`. */
  function AccountValue(a: Account, price: real): real {
    a.cashBalance + a.icpBalance * price
  }

  /** The entry for one account. */
  function ToEntry(s: Standing, price: real): (e: LeaderboardEntry)
    ensures e.principal == s.principal
    ensures e.cashBalance == s.account.cashBalance && e.icpBalance == s.account.icpBalance
    ensures e.totalValue == AccountValue(s.account, price)
    ensures e.profitLoss == e.totalValue - StartingBalance
  {
    var totalValue := AccountValue(s.account, price);
    LeaderboardEntry(s.principal, s.account.cashBalance, s.account.icpBalance, totalValue, totalValue - StartingBalance)
  }

  function ToEntries(standings: seq<Standing>, price: real): (es: seq<LeaderboardEntry>)
    ensures |es| == |standings|
    ensures forall i | 0 <= i < |es| :: es[i] == ToEntry(standings[i], price)
  {
    seq(|standings|, i requires 0 <= i < |standings| => ToEntry(standings[i], price))
  }

  function ByProfitLoss(e: LeaderboardEntry): real {
    e.profitLoss
  }

  function ByTotalValue(e: LeaderboardEntry): real {
    e.totalValue
  }

  /** `useLeaderboard`: nothing while loading, on error or without data;
      otherwise the entries sorted by profit and loss, highest first. An
      unavailable price counts as 0. */
  function UseLeaderboard(board: QueryState<seq<Standing>>, priceLoading: bool, price: Option<real>): (v: LeaderboardView)
    ensures v.leaderboard.None? <==> board.isLoading || priceLoading || board.error.Some? || board.data.None?
    ensures v.leaderboard.None? ==> v.isLoading == (board.isLoading || priceLoading) && v.error == board.error
    ensures v.leaderboard.Some? ==>
      && !v.isLoading && v.error.None?
      && SortedDesc(v.leaderboard.value, ByProfitLoss)
      && multiset(v.leaderboard.value) == multiset(ToEntries(board.data.value, price.GetOr(0.0)))
  {
    var isLoading := board.isLoading || priceLoading;
    if isLoading || board.error.Some? || board.data.None? then
      LeaderboardView(None, isLoading, board.error)
    else
      LeaderboardView(Some(SortDesc(ToEntries(board.data.value, price.GetOr(0.0)), ByProfitLoss)), false, None)
  }

  /** Profit and loss differs from total value by a constant, so the ranking
      is also by total value, highest first. */
  lemma RankedByTotalValue(board: QueryState<seq<Standing>>, priceLoading: bool, price: Option<real>)
    requires UseLeaderboard(board, priceLoading, price).leaderboard.Some?
    ensures SortedDesc(UseLeaderboard(board, priceLoading, price).leaderboard.value, ByTotalValue)
  {
    var es := UseLeaderboard(board, priceLoading, price).leaderboard.value;
    forall i, j | 0 <= i < j < |es|
      ensures ByTotalValue(es[i]) >= ByTotalValue(es[j])
    {
      assert es[i] in multiset(es) && es[j] in multiset(es);
      var mapped := ToEntries(board.data.value, price.GetOr(0.0));
      assert es[i] in mapped && es[j] in mapped;
      assert ByProfitLoss(es[i]) >= ByProfitLoss(es[j]);
    }
  }

  /** Every account of the input appears in the ranking with its own
      principal and balances. */
  lemma EveryAccountRanked(board: QueryState<seq<Standing>>, priceLoading: bool, price: Option<real>, k: nat)
    requires UseLeaderboard(board, priceLoading, price).leaderboard.Some?
    requires k < |board.data.value|
    ensures ToEntry(board.data.value[k], price.GetOr(0.0)) in UseLeaderboard(board, priceLoading, price).leaderboard.value
  {
    var mapped := ToEntries(board.data.value, price.GetOr(0.0));
    assert mapped[k] in multiset(mapped);
  }

  // ---------------------------------------------------------------------
  // The caller's portfolio

  datatype Portfolio = Portfolio(cashBalance: real, icpBalance: real, icpValue: real, totalValue: real)

  datatype PortfolioView = PortfolioView(portfolio: Option<Portfolio>, isLoading: bool, error: Option<string>)

  /** `leaderboard.find(([principal]) => principal.toString() === caller)`:
      the first standing of the caller. */
  function FindAccount(standings: seq<Standing>, caller: string): (r: Option<Account>)
    ensures r.None? <==> forall i | 0 <= i < |standings| :: standings[i].principal != caller
    ensures r.Some? ==> exists i | 0 <= i < |standings| ::
      && standings[i].principal == caller && standings[i].account == r.value
      && forall j | 0 <= j < i :: standings[j].principal != caller
  {
    if standings == [] then None
    else if standings[0].principal == caller then Some(standings[0].account)
    else
      var r := FindAccount(standings[1..], caller);
      assert r.Some? ==> exists i | 0 <= i < |standings| ::
        && standings[i].principal == caller && standings[i].account == r.value
        && forall j | 0 <= j < i :: standings[j].principal != caller by {
        if r.Some? {
          var i :| 0 <= i < |standings[1..]| && standings[1..][i].principal == caller
            && standings[1..][i].account == r.value
            && forall j | 0 <= j < i :: standings[1..][j].principal != caller;
          assert standings[i + 1].principal == caller;
          assert forall j | 0 <= j < i + 1 :: standings[j].principal != caller by {
            forall j | 0 <= j < i + 1 ensures standings[j].principal != caller {
              if j > 0 { assert standings[j] == standings[1..][j - 1]; }
            }
          }
        }
      }
      r
  }

  /** The valuation of the caller's account: ICP at `price`, plus cash. */
  function Valuation(a: Account, price: real): (p: Portfolio)
    ensures p.cashBalance == a.cashBalance && p.icpBalance == a.icpBalance
    ensures p.icpValue == a.icpBalance * price
    ensures p.totalValue == p.cashBalance + p.icpValue
  {
    var icpValue := a.icpBalance * price;
    Portfolio(a.cashBalance, a.icpBalance, icpValue, a.cashBalance + icpValue)
  }

  /** `usePortfolio`: nothing without an identity, while loading or on error
      (passing those states through); nothing, settled, when the caller has
      no account on the leaderboard; otherwise the caller's valuation. */
  function UsePortfolio(identity: Option<string>, board: QueryState<seq<Standing>>, priceLoading: bool, price: Option<real>): (v: PortfolioView)
    ensures identity.None? || board.isLoading || priceLoading || board.error.Some? ==>
      v == PortfolioView(None, board.isLoading || priceLoading, board.error)
    ensures v.portfolio.Some? ==> !v.isLoading && v.error.None? && identity.Some? && board.data.Some?
    ensures identity.Some? && !board.isLoading && !priceLoading && board.error.None? ==>
      && !v.isLoading && v.error.None?
      && (v.portfolio.None? <==> board.data.None? || FindAccount(board.data.value, identity.value).None?)
    ensures v.portfolio.Some? ==>
      && FindAccount(board.data.value, identity.value).Some?
      && v.portfolio.value == Valuation(FindAccount(board.data.value, identity.value).value, price.GetOr(0.0))
  {
    var isLoading := board.isLoading || priceLoading;
    if identity.None? || isLoading || board.error.Some? then
      PortfolioView(None, isLoading, board.error)
    else
      var found := if board.data.Some? then FindAccount(board.data.value, identity.value) else None;
      match found
      case None => PortfolioView(None, false, None)
      case Some(account) => PortfolioView(Some(Valuation(account, price.GetOr(0.0))), false, None)
  }

  /** The portfolio's total value is the total value the leaderboard shows
      for the same account at the same price. */
  lemma PortfolioMatchesLeaderboard(s: Standing, price: real)
    ensures Valuation(s.account, price).totalValue == ToEntry(s, price).totalValue
  {
  }

  /** The portfolio the hook shows is the caller's first row on the board,
      worth what the leaderboard says that row is worth at the same price. */
  lemma PortfolioIsCallersRow(identity: Option<string>, board: QueryState<seq<Standing>>, priceLoading: bool, price: Option<real>)
    requires UsePortfolio(identity, board, priceLoading, price).portfolio.Some?
    ensures exists i | 0 <= i < |board.data.value| ::
      && board.data.value[i].principal == identity.value
      && UsePortfolio(identity, board, priceLoading, price).portfolio.value.totalValue
         == ToEntry(board.data.value[i], price.GetOr(0.0)).totalValue
  {
    var standings := board.data.value;
    var account := FindAccount(standings, identity.value).value;
    var i :| 0 <= i < |standings| && standings[i].principal == identity.value && standings[i].account == account;
    PortfolioMatchesLeaderboard(standings[i], price.GetOr(0.0));
  }

  /** With no price yet, the portfolio is worth exactly its cash. */
  lemma PortfolioWithoutPrice(identity: Option<string>, board: QueryState<seq<Standing>>, priceLoading: bool)
    requires UsePortfolio(identity, board, priceLoading, None).portfolio.Some?
    ensures var p := UsePortfolio(identity, board, priceLoading, None).portfolio.value;
      p.totalValue == p.cashBalance && p.icpValue == 0.0
  {
  }
}
