/**
 * The listing page of the client: how each fetched campaign gets its
 * open/closed status, the projection of the whole fetched list, the fetch that
 * is only issued for a connected wallet, and the page's ledger and pinning
 * callbacks. Amounts are exact integers instead of JavaScript floats, and every
 * network call is an abstract outcome passed in by the caller.
 */
module IndexPage {
  import opened Wrappers
  import opened Decimal
  import opened Yocto
  import opened Clock
  import opened Contract

  datatype Status = Open | Closed

  /** `{ id, ...campaign, status }`: the fetched record unchanged, plus its status. */
  datatype ListedCampaign = ListedCampaign(id: nat, campaign: CampaignView, status: Status)

  /** `s.split(" ")[0]`: the text before the first space. */
  function FirstWord(s: string): (w: string)
    ensures |w| <= |s| && w == s[..|w|]
    ensures ' ' !in w
    ensures |w| < |s| ==> s[|w|] == ' '
    ensures ' ' !in s ==> w == s
  {
    if s == [] || s[0] == ' ' then [] else [s[0]] + FirstWord(s[1..])
  }

  /** The amount the page reads from a rendered amount; `None` stands for `NaN`. */
  function ParsedAmount(s: string): (r: Option<nat>)
    ensures r.Some? ==> |FirstWord(s)| > 0 && AllDigits(FirstWord(s))
    ensures ' ' !in s ==> r == ParseDecimal(s)
  {
    ParseDecimal(FirstWord(s))
  }

  /** `collected < target` on the parsed amounts; any comparison with `NaN` is false. */
  predicate Below(collected: Option<nat>, target: Option<nat>): (r: bool)
    ensures collected.None? || target.None? ==> !r
    ensures collected.Some? && target.Some? ==> (r <==> collected.value < target.value)
  {
    collected.Some? && target.Some? && collected.value < target.value
  }

  /**
   * A campaign is open while its deadline is strictly after the listing instant
   * and it has collected strictly less than its target; otherwise closed.
   */
  function StatusAt(c: CampaignView, instant: int): (r: Status)
    ensures c.deadline <= instant ==> r == Closed
    ensures !Below(ParsedAmount(c.amountCollected), ParsedAmount(c.target)) ==> r == Closed
  {
    if c.deadline > instant && Below(ParsedAmount(c.amountCollected), ParsedAmount(c.target))
    then Open else Closed
  }

  /** Each fetched pair becomes one listed entry, in order, all judged at one instant. */
  function Project(fetched: seq<(nat, CampaignView)>, instant: int): (r: seq<ListedCampaign>)
    ensures |r| == |fetched|
    ensures forall i :: 0 <= i < |r| ==>
      r[i].id == fetched[i].0 && r[i].campaign == fetched[i].1
      && (r[i].status == Open <==>
            (fetched[i].1.deadline > instant
             && Below(ParsedAmount(fetched[i].1.amountCollected), ParsedAmount(fetched[i].1.target))))
    decreases |fetched|
  {
    if fetched == [] then []
    else
      [ListedCampaign(fetched[0].0, fetched[0].1, StatusAt(fetched[0].1, instant))]
      + Project(fetched[1..], instant)
  }

  /** The instant a listing is judged at: `Math.floor(Date.now() / 1000) * 1_000_000_000`, sampled once. */
  function ListingInstant(nowMs: int): (instant: int)
    ensures instant % NS_PER_SECOND == 0
    ensures instant <= nowMs * 1_000_000 < instant + NS_PER_SECOND
  {
    SecondNanos(nowMs)
  }

  /** The page reads back exactly the amount the contract rendered. */
  lemma ParsedRenderedAmount(n: nat)
    ensures ParsedAmount(NatToString(n)) == Some(n)
  {
    var s := NatToString(n);
    assert forall i :: 0 <= i < |s| ==> s[i] != ' ';
    assert FirstWord(s) == s;
    ParseNatToString(n);
  }

  /**
   * For the view of a stored campaign, the page's status is the contract-level
   * rule on exact amounts: open iff deadline > instant and collected < target.
   */
  lemma StatusOfContractView(c: Campaign, nowMs: int)
    ensures StatusAt(ToView(c), ListingInstant(nowMs)) == Open
            <==> c.deadline > SecondNanos(nowMs) && c.amountCollected < c.target
  {
    ParsedRenderedAmount(c.target);
    ParsedRenderedAmount(c.amountCollected);
  }

  /** A deadline equal to the listing instant shows as closed: the comparison is strict. */
  lemma DeadlineAtInstantIsClosed(c: Campaign, nowMs: int)
    requires c.deadline == SecondNanos(nowMs)
    ensures StatusAt(ToView(c), ListingInstant(nowMs)) == Closed
  {
  }

  /** A fully funded campaign shows as closed even before its deadline. */
  lemma FundedIsClosed(c: Campaign, nowMs: int)
    requires c.amountCollected >= c.target
    ensures StatusAt(ToView(c), ListingInstant(nowMs)) == Closed
  {
    StatusOfContractView(c, nowMs);
  }

  /**
   * Two campaigns with equal amounts whose deadlines straddle the listing
   * instant are listed, in one call, one open and one closed.
   */
  lemma StraddlingDeadlines(a: Campaign, b: Campaign, id1: nat, id2: nat, nowMs: int)
    requires a.amountCollected == b.amountCollected < a.target == b.target
    requires b.deadline <= SecondNanos(nowMs) < a.deadline
    ensures var r := Project([(id1, ToView(a)), (id2, ToView(b))], ListingInstant(nowMs));
            r[0].status == Open && r[1].status == Closed
  {
    StatusOfContractView(a, nowMs);
    StatusOfContractView(b, nowMs);
  }

  /**
   * Listing the pairs `get_campaigns` returns, in whatever order they
   * arrive: each listed entry's status is the contract-level rule for the
   * stored campaign it views, at the one listing instant.
   */
  lemma ListingOfContract(stored: map<nat, Campaign>, fetched: seq<(nat, CampaignView)>, nowMs: int)
    requires forall i :: 0 <= i < |fetched| ==>
               fetched[i].0 in stored && fetched[i].1 == ToView(stored[fetched[i].0])
    ensures var r := Project(fetched, ListingInstant(nowMs));
            forall i :: 0 <= i < |r| ==>
              var c := stored[r[i].id];
              (r[i].status == Open <==> c.deadline > SecondNanos(nowMs) && c.amountCollected < c.target)
  {
    var r := Project(fetched, ListingInstant(nowMs));
    forall i | 0 <= i < |r|
      ensures var c := stored[r[i].id];
              (r[i].status == Open <==> c.deadline > SecondNanos(nowMs) && c.amountCollected < c.target)
    {
      StatusOfContractView(stored[fetched[i].0], nowMs);
    }
  }

  /** An image as the page holds it before pinning. */
  datatype FileRef = FileRef(name: string)

  /** The page's calls to its collaborators, in the order it makes them. */
  datatype Call =
    | ViewCampaigns                                   // wallet.viewMethod get_campaigns
    | PinFile(file: FileRef)                          // pinata.upload.file
    | CreateCampaignCall(image: string, title: string, description: string,
                         targetAmount: string, deadline: int, deposit: nat)
    | DonateCall(campaignId: nat, amount: string)

  /** What the ledger answers to a view call. */
  datatype QueryReply = Fetched(campaigns: seq<(nat, CampaignView)>) | QueryFailed

  /** What the pinning service answers to an upload. */
  datatype PinOutcome = Pinned(ipfsHash: string) | PinFailed

  /** What the ledger answers to a signed call. */
  datatype CallOutcome = Succeeded | Failed

  const GATEWAY_PREFIX: string := "https://beige-sophisticated-baboon-74.mypinata.cloud/ipfs/"

  class Page {
    var signedAccountId: string
    var connected: bool
    var route: string
    var isLoading: bool
    var shouldFetchData: bool
    var campaigns: seq<ListedCampaign>
    var calls: seq<Call>

    /** The page's initial state for the wallet session's account ("" when signed out). */
    constructor (signedAccountId: string)
      ensures this.signedAccountId == signedAccountId
      ensures !connected && route == "home" && !isLoading && !shouldFetchData
      ensures campaigns == [] && calls == []
    {
      this.signedAccountId := signedAccountId;
      connected := false;
      route := "home";
      isLoading := false;
      shouldFetchData := false;
      campaigns := [];
      calls := [];
    }

    /** The effect on `signedAccountId`: connected exactly when there is a signed account. */
    method SyncConnected()
      modifies this`connected
      ensures connected <==> signedAccountId != ""
    {
      connected := signedAccountId != "";
    }

    /**
     * The fetch effect: only a connected page with a signed account queries the
     * ledger, once. A reply replaces the listing by its projection at the one
     * instant sampled after the reply; a failed query keeps the old listing and,
     * as written, leaves the loading flag set.
     */
    method GetAllCampaigns(nowMs: int, reply: QueryReply)
      modifies this
      ensures signedAccountId == old(signedAccountId) && connected == old(connected)
      ensures route == old(route)
      ensures !(old(connected) && old(signedAccountId) != "") ==> unchanged(this)
      ensures old(connected) && old(signedAccountId) != "" ==>
        && calls == old(calls) + [ViewCampaigns]
        && (reply.Fetched? ==>
              campaigns == Project(reply.campaigns, ListingInstant(nowMs))
              && !shouldFetchData && !isLoading)
        && (reply.QueryFailed? ==>
              campaigns == old(campaigns) && shouldFetchData == old(shouldFetchData) && isLoading)
    {
      if connected && signedAccountId != "" {
        isLoading := true;
        calls := calls + [ViewCampaigns];
        match reply
        case Fetched(fetched) =>
          var instant := ListingInstant(nowMs);
          campaigns := Project(fetched, instant);
          shouldFetchData := false;
          isLoading := false;
        case QueryFailed =>
      }
    }

    /**
     * `uploadToPinata`: throws (here `None`) without any call when there is no
     * file; otherwise makes exactly one upload and yields the gateway URL of the
     * pinned content, or throws when the upload fails.
     */
    method UploadToPinata(file: Option<FileRef>, pin: PinOutcome) returns (url: Option<string>)
      modifies this`calls
      ensures file.None? ==> url.None? && calls == old(calls)
      ensures file.Some? ==> calls == old(calls) + [PinFile(file.value)]
      ensures file.Some? ==> url == if pin.Pinned? then Some(GATEWAY_PREFIX + pin.ipfsHash) else None
    {
      if file.None? {
        return None;
      }
      calls := calls + [PinFile(file.value)];
      match pin
      case Pinned(hash) => url := Some(GATEWAY_PREFIX + hash);
      case PinFailed => url := None;
    }

    /**
     * `createFund`: one signed `create_campaign` call carrying the 0.01 NEAR fee;
     * on success the listing is marked for refetch and the route moves to
     * "explore"; a failure is caught here and never reaches the caller.
     */
    method CreateFund(image: string, title: string, description: string, targetAmount: string,
                      deadline: int, outcome: CallOutcome)
      modifies this`calls, this`shouldFetchData, this`route
      ensures calls == old(calls) + [CreateCampaignCall(image, title, description, targetAmount,
                                                          deadline, CREATION_FEE)]
      ensures outcome.Succeeded? ==> shouldFetchData && route == "explore"
      ensures outcome.Failed? ==> shouldFetchData == old(shouldFetchData) && route == old(route)
    {
      calls := calls + [CreateCampaignCall(image, title, description, targetAmount, deadline, CREATION_FEE)];
      if outcome.Succeeded? {
        shouldFetchData := true;
        route := "explore";
      }
    }

    /**
     * `fundCampaign`: one signed `donate` call; on success the listing is
     * marked for refetch; a failure is caught here.
     */
    method FundCampaign(id: nat, amount: string, outcome: CallOutcome)
      modifies this`calls, this`shouldFetchData
      ensures calls == old(calls) + [DonateCall(id, amount)]
      ensures shouldFetchData == (outcome.Succeeded? || old(shouldFetchData))
    {
      calls := calls + [DonateCall(id, amount)];
      if outcome.Succeeded? {
        shouldFetchData := true;
      }
    }
  }
}
