/**
 * The profile panel (`incepta/app/components/userProfileCard.tsx`): the coin
 * reward for a number of reports, and the panel state that supplies that number
 * (whether the panel is open, and the user's most recent reports).
 */
module ProfileCard {
  import opened Wrappers

  // ------------------------------------------------------------------- rewards

  /** `calculateCoins`: 10 coins a report up to 5 reports, 15 up to 15, 20 beyond. */
  function CalculateCoins(reportCount: int): (coins: int)
    ensures reportCount >= 0 ==> coins >= 0 && (coins == 0 <==> reportCount == 0)
    ensures reportCount >= 0 ==> 10 * reportCount <= coins <= 20 * reportCount
  {
    if reportCount > 15 then reportCount * 20
    else if reportCount > 5 then reportCount * 15
    else reportCount * 10
  }

  /** The three tiers, each a flat rate on the whole count. */
  lemma CoinTiers(n: int)
    ensures n <= 5 ==> CalculateCoins(n) == 10 * n
    ensures 6 <= n <= 15 ==> CalculateCoins(n) == 15 * n
    ensures n > 15 ==> CalculateCoins(n) == 20 * n
  {
  }

  /** One more report never earns fewer coins; the rate rises only at 5 to 6 and 15 to 16. */
  lemma CoinsStep(n: int)
    ensures CalculateCoins(n) <= CalculateCoins(n + 1)
    ensures n == 5 ==> CalculateCoins(n) == 50 && CalculateCoins(n + 1) == 90
    ensures n == 15 ==> CalculateCoins(n) == 225 && CalculateCoins(n + 1) == 320
  {
  }

  /** `calculateCoins` is monotone non-decreasing in the report count. */
  lemma CoinsMonotone(a: int, b: int)
    requires a <= b
    ensures CalculateCoins(a) <= CalculateCoins(b)
  {
  }

  // --------------------------------------------------------------- panel state

  /** A row of the `select("id, title, ai_summary, timestamp")` query. */
  datatype Scam = Scam(id: string, title: string, aiSummary: string, timestamp: string)

  /** `.limit(5)` */
  const REPORT_LIMIT: nat := 5

  /** What `.limit(n)` keeps of the ordered rows: the first `n`, or all of them if fewer. */
  function Limit(rows: seq<Scam>, n: nat): (kept: seq<Scam>)
    ensures |kept| <= n && kept <= rows
    ensures |rows| <= n ==> kept == rows
    ensures |rows| >= n ==> |kept| == n
  {
    if |rows| <= n then rows else rows[..n]
  }

  /**
   * The store's answer to the user's query: the user's rows newest first, before
   * the limit is applied, or an error.
   */
  datatype FetchReply = Rows(matching: seq<Scam>) | FetchError

  /** `!user?.id`: no signed-in user, or an empty id. */
  predicate NoUserId(userId: Option<string>) {
    userId.None? || userId.value == ""
  }

  /** The reports the panel holds after one `fetchReports` run. */
  function Fetched(reports: seq<Scam>, userId: Option<string>, reply: FetchReply): (r: seq<Scam>)
    ensures NoUserId(userId) || reply.FetchError? ==> r == reports
    ensures !NoUserId(userId) && reply.Rows? ==> r == Limit(reply.matching, REPORT_LIMIT)
  {
    if NoUserId(userId) then reports
    else match reply
      case FetchError => reports
      case Rows(matching) => Limit(matching, REPORT_LIMIT)
  }

  /** Whatever the store holds, a successful fetch shows at most 5 reports worth at most 50 coins. */
  lemma FetchedCoinsBounded(userId: Option<string>, matching: seq<Scam>)
    requires !NoUserId(userId)
    ensures |Fetched([], userId, Rows(matching))| <= REPORT_LIMIT
    ensures CalculateCoins(|Fetched([], userId, Rows(matching))|) <= 50
  {
  }

  /** `UserProfileCard`'s state: whether the panel is open and the reports it last fetched. */
  class Panel {
    var open: bool
    var userReports: seq<Scam>

    /** The panel never holds more reports than the query's limit. */
    ghost predicate Valid()
      reads this
    {
      |userReports| <= REPORT_LIMIT
    }

    constructor ()
      ensures Valid() && !open && userReports == []
    {
      open := false;
      userReports := [];
    }

    /** `totalReports = userReports.length` */
    function TotalReports(): (n: nat)
      reads this
      requires Valid()
      ensures n <= REPORT_LIMIT
    {
      |userReports|
    }

    /** `coins = calculateCoins(totalReports)`: at most 50, since at most 5 reports are held. */
    function Coins(): (c: int)
      reads this
      requires Valid()
      ensures 0 <= c <= 50
      ensures c == 0 <==> userReports == []
    {
      CalculateCoins(TotalReports())
    }

    /** The profile button: `setOpen(!open)`. */
    method Toggle()
      requires Valid()
      modifies this
      ensures Valid() && open == !old(open) && userReports == old(userReports)
    {
      open := !open;
    }

    /** The close button: `setOpen(false)`; the fetched reports stay. */
    method Close()
      requires Valid()
      modifies this
      ensures Valid() && !open && userReports == old(userReports)
    {
      open := false;
    }

    /** `fetchReports`: with no user id or a failed query nothing changes; otherwise the limited rows replace the list. */
    method FetchReports(userId: Option<string>, reply: FetchReply)
      requires Valid()
      modifies this
      ensures Valid() && open == old(open)
      ensures userReports == Fetched(old(userReports), userId, reply)
    {
      if userId.None? || userId.value == "" {
        return;
      }
      if reply.FetchError? {
        return;
      }
      userReports := Limit(reply.matching, REPORT_LIMIT);
    }

    /** The effect on `[open, user?.id]`: fetch only while the panel is open. */
    method OnOpenOrUserChange(userId: Option<string>, reply: FetchReply)
      requires Valid()
      modifies this
      ensures Valid() && open == old(open)
      ensures userReports == if open then Fetched(old(userReports), userId, reply) else old(userReports)
    {
      if open {
        FetchReports(userId, reply);
      }
    }
  }
}
