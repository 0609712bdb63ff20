/**
 * The NEAR crowdfunding contract: a campaign table and an NFT table, each keyed
 * by its own counter, a set of access rights bought with NFTs, and the platform
 * wallet that receives a share of every donation.
 *
 * Environment values (`predecessor_account_id`, `attached_deposit`,
 * `block_timestamp`) are explicit parameters. A panic aborts the transaction:
 * it is a `Panicked` outcome and leaves the state unchanged. The transfers a
 * call schedules with `Promise::transfer` are returned as a list.
 */
module Contract {
  import opened Wrappers
  import opened Yocto
  import opened Decimal

  type AccountId = string

  datatype Campaign = Campaign(
    creator: AccountId,
    image: string,
    title: string,
    description: string,
    target: nat,
    deadline: nat,
    amountCollected: nat,
    donations: map<AccountId, nat>)

  /** What `get_campaigns` returns for a campaign: amounts rendered in decimal. */
  datatype CampaignView = CampaignView(
    creator: string,
    image: string,
    title: string,
    description: string,
    target: string,
    deadline: nat,
    amountCollected: string)

  datatype TokenMetadata = TokenMetadata(title: string, description: string, media: string)

  datatype NftToken = NftToken(ownerId: AccountId, metadata: TokenMetadata, forSale: bool, price: Option<nat>)

  /** One `Promise::new(recipient).transfer(amount)`. */
  datatype Transfer = Transfer(recipient: AccountId, amount: nat)

  /** The reason of each `assert!`, `assert_eq!`, `assert_ne!`, `expect` and overflow check. */
  datatype Panic =
    | InvalidArgument      // the JSON arguments do not deserialize
    | InsufficientFee      // "Attach at least 0.01 NEAR"
    | CampaignNotFound     // "Campaign not found"
    | CampaignEnded        // "Campaign has ended"
    | DonationOverflow     // "Donation overflow"
    | AmountOverflow       // "Amount overflow"
    | ArithmeticOverflow   // a `+= 1` or `* 90` overflowing, which panics with overflow checks on
    | NotPlatformOwner     // "Only platform owner can update"
    | TokenNotFound        // "Token not found"
    | NotTokenOwner        // "Only owner can list"
    | NotForSale           // "Not for sale"
    | PriceNotSet          // "Price not set"
    | NotEnoughDeposit     // "Not enough deposit"
    | OwnNft               // "Cannot buy your own NFT"

  datatype Outcome<+T> = Done(value: T) | Panicked(reason: Panic)

  /** A campaign's amounts fit their Rust types and the collected amount is the sum of its donations. */
  ghost predicate WellFormed(c: Campaign) {
    && IsU128(c.target)
    && IsU64(c.deadline)
    && IsU128(c.amountCollected)
    && (forall a :: a in c.donations ==> IsU128(c.donations[a]))
    && c.amountCollected == Sum(c.donations)
  }

  /** `donations.get(&donor).cloned().unwrap_or(0)` */
  function PriorDonation(donations: map<AccountId, nat>, donor: AccountId): (d: nat)
    ensures donor in donations ==> d == donations[donor]
    ensures donor !in donations ==> d == 0
  {
    if donor in donations then donations[donor] else 0
  }

  /**
   * Records a donation of `amount` by `donor`: the donor's entry and the
   * collected total both grow by exactly `amount`, and a well-formed campaign
   * stays well-formed when neither sum leaves the `u128` range.
   */
  function Credit(c: Campaign, donor: AccountId, amount: nat): (c': Campaign)
    ensures c'.donations.Keys == c.donations.Keys + {donor}
    ensures c'.donations[donor] == PriorDonation(c.donations, donor) + amount
    ensures forall a :: a in c.donations && a != donor ==> c'.donations[a] == c.donations[a]
    ensures c'.amountCollected == c.amountCollected + amount
    ensures c'.(donations := c.donations, amountCollected := c.amountCollected) == c
    ensures (WellFormed(c) && IsU128(PriorDonation(c.donations, donor) + amount)
             && IsU128(c.amountCollected + amount)) ==> WellFormed(c')
  {
    var donations := c.donations[donor := PriorDonation(c.donations, donor) + amount];
    SumUpdate(c.donations, donor, PriorDonation(c.donations, donor) + amount);
    c.(donations := donations, amountCollected := c.amountCollected + amount)
  }

  /** `Campaign::to_view`: text fields copied, amounts printed so that they read back exactly. */
  function ToView(c: Campaign): (v: CampaignView)
    ensures v.creator == c.creator && v.image == c.image && v.title == c.title
    ensures v.description == c.description && v.deadline == c.deadline
    ensures ParseDecimal(v.target) == Some(c.target)
    ensures ParseDecimal(v.amountCollected) == Some(c.amountCollected)
  {
    ParseNatToString(c.target);
    ParseNatToString(c.amountCollected);
    CampaignView(c.creator, c.image, c.title, c.description,
                 NatToString(c.target), c.deadline, NatToString(c.amountCollected))
  }

  /**
   * The digits Rust's `str::parse` reads for an unsigned integer: one
   * leading `+` is allowed and dropped, anything else is left for the digits.
   */
  function UnsignedDigits(s: string): (d: string)
    ensures |s| > 0 && s[0] == '+' ==> s == "+" + d
    ensures |s| == 0 || s[0] != '+' ==> d == s
  {
    if |s| > 0 && s[0] == '+' then s[1..] else s
  }

  /**
   * A `U64` argument (`target` and `price` as written): near-sdk reads a JSON
   * string with `str::parse::<u64>`, and a value of 2^64 or more does not
   * deserialize.
   */
  function DecodeU64Arg(s: string): (r: Option<nat>)
    ensures r.Some? <==> ParseDecimal(UnsignedDigits(s)).Some? && IsU64(ParseDecimal(UnsignedDigits(s)).value)
    ensures r.Some? ==> r == ParseDecimal(UnsignedDigits(s))
  {
    match ParseDecimal(UnsignedDigits(s))
    case Some(n) => if IsU64(n) then Some(n) else None
    case None => None
  }

  /**
   * The `target` argument as evidently intended, a `U128` like every other
   * yocto amount: a JSON string read with `str::parse::<u128>`.
   */
  function DecodeU128Arg(s: string): (r: Option<nat>)
    ensures r.Some? <==> ParseDecimal(UnsignedDigits(s)).Some? && IsU128(ParseDecimal(UnsignedDigits(s)).value)
    ensures r.Some? ==> r == ParseDecimal(UnsignedDigits(s))
  {
    match ParseDecimal(UnsignedDigits(s))
    case Some(n) => if IsU128(n) then Some(n) else None
    case None => None
  }

  /** A rendered number has no sign, so the unsigned parse reads it whole. */
  lemma RenderedHasNoSign(n: nat)
    ensures UnsignedDigits(NatToString(n)) == NatToString(n)
  {
    assert IsDigit(NatToString(n)[0]);
  }

  /**
   * Both decoders accept a rendered number after one `+` exactly as without
   * it, and refuse a `+` with no digits.
   */
  lemma PlusSignAccepted(n: nat)
    ensures DecodeU64Arg("+" + NatToString(n)) == DecodeU64Arg(NatToString(n))
    ensures DecodeU128Arg("+" + NatToString(n)) == DecodeU128Arg(NatToString(n))
    ensures DecodeU64Arg("+") == None && DecodeU128Arg("+") == None
  {
    var s := NatToString(n);
    RenderedHasNoSign(n);
    assert ("+" + s)[0] == '+';
    assert UnsignedDigits("+" + s) == s by {
      assert ("+" + s)[1..] == s;
    }
    assert UnsignedDigits("+") == "";
  }

  /**
   * As written, every target the client sends at or above 2^64 yocto (about
   * 0.0000184 NEAR) is refused before `create_campaign` runs.
   */
  lemma ScaledTargetRejectedAsU64(target: nat)
    requires !IsU64(target)
    ensures DecodeU64Arg(NatToString(target)) == None
  {
    ParseNatToString(target);
    RenderedHasNoSign(target);
  }

  /** A 1 NEAR target, 10^24 yocto once scaled by the client, cannot be sent as written. */
  lemma OneNearTargetRejectedAsU64()
    ensures DecodeU64Arg(NatToString(1_000_000_000_000_000_000_000_000)) == None
  {
    ScaledTargetRejectedAsU64(1_000_000_000_000_000_000_000_000);
  }

  /** With a `U128` argument, every yocto target that fits the stored `u128` arrives intact. */
  lemma ScaledTargetAcceptedAsU128(target: nat)
    requires IsU128(target)
    ensures DecodeU128Arg(NatToString(target)) == Some(target)
  {
    ParseNatToString(target);
    RenderedHasNoSign(target);
  }

  class Crowdfunding {
    var campaigns: map<nat, Campaign>
    var nextCampaignId: nat
    var platformWallet: AccountId
    var tokens: map<nat, NftToken>
    var nextTokenId: nat
    var accessRights: map<(nat, AccountId), bool>
    /** Every (token, buyer) pair for which `buy_nft` has succeeded. */
    ghost var purchases: set<(nat, AccountId)>

    /**
     * The contract invariant: counters fit in `u64`, every key is below its
     * counter (so inserting at the counter never overwrites), every stored
     * amount fits its type, and access rights are exactly the purchases made.
     */
    ghost predicate Valid()
      reads this
    {
      && IsU64(nextCampaignId)
      && IsU64(nextTokenId)
      && (forall id :: id in campaigns ==> id < nextCampaignId && WellFormed(campaigns[id]))
      && (forall id :: id in tokens ==> id < nextTokenId)
      && (forall id :: id in tokens && tokens[id].price.Some? ==> IsU128(tokens[id].price.value))
      && accessRights == map p | p in purchases :: true
    }

    /** `new`: empty tables, both counters at zero. */
    constructor (platformWallet: AccountId)
      ensures Valid()
      ensures campaigns == map[] && nextCampaignId == 0
      ensures this.platformWallet == platformWallet
      ensures tokens == map[] && nextTokenId == 0
      ensures accessRights == map[] && purchases == {}
    {
      campaigns := map[];
      nextCampaignId := 0;
      this.platformWallet := platformWallet;
      tokens := map[];
      nextTokenId := 0;
      accessRights := map[];
      purchases := {};
    }

    /**
     * `create_campaign`: the target arrives as its JSON decimal text and is
     * read with `DecodeU128Arg` (the corrected argument type; see
     * `ScaledTargetRejectedAsU64` for the `U64` as written). With at least the
     * fee attached, stores a fresh campaign with nothing collected under the
     * current id and advances the id by one. A `deadline` outside `u64` does
     * not deserialize either.
     */
    method CreateCampaign(caller: AccountId, deposit: nat, image: string, title: string,
                          description: string, target: string, deadline: nat)
      returns (r: Outcome<()>)
      requires Valid()
      requires IsU128(deposit)
      modifies this
      ensures Valid()
      ensures r == if DecodeU128Arg(target).None? || !IsU64(deadline) then Panicked(InvalidArgument)
                   else if deposit < CREATION_FEE then Panicked(InsufficientFee)
                   else if old(nextCampaignId) + 1 == U64_LIMIT then Panicked(ArithmeticOverflow)
                   else Done(())
      ensures r.Panicked? ==> unchanged(this)
      ensures r.Done? ==>
        && old(nextCampaignId) !in old(campaigns)
        && campaigns == old(campaigns)[old(nextCampaignId) :=
             Campaign(caller, image, title, description, DecodeU128Arg(target).value, deadline, 0, map[])]
        && nextCampaignId == old(nextCampaignId) + 1
        && platformWallet == old(platformWallet)
        && tokens == old(tokens) && nextTokenId == old(nextTokenId)
        && accessRights == old(accessRights) && purchases == old(purchases)
    {
      var decoded := DecodeU128Arg(target);
      if decoded.None? || !IsU64(deadline) {
        return Panicked(InvalidArgument);
      }
      if deposit < CREATION_FEE {
        return Panicked(InsufficientFee);
      }
      if nextCampaignId + 1 == U64_LIMIT {
        return Panicked(ArithmeticOverflow);
      }
      var campaign := Campaign(caller, image, title, description, decoded.value, deadline, 0, map[]);
      campaigns := campaigns[nextCampaignId := campaign];
      nextCampaignId := nextCampaignId + 1;
      r := Done(());
    }

    /**
     * `donate`: the campaign must exist and its deadline must not have passed
     * (a timestamp equal to the deadline is accepted); the collected amount is
     * not compared with the target. The deposit is credited to the donor and the
     * campaign, then 90% goes to the creator and the rest to the platform wallet.
     * A `campaign_id` outside `u64` does not deserialize.
     */
    method Donate(caller: AccountId, deposit: nat, blockTimestamp: nat, campaignId: nat)
      returns (r: Outcome<seq<Transfer>>)
      requires Valid()
      requires IsU128(deposit) && IsU64(blockTimestamp)
      modifies this
      ensures Valid()
      ensures r.Panicked? ==> unchanged(this)
      ensures !IsU64(campaignId) ==> r == Panicked(InvalidArgument)
      ensures IsU64(campaignId) && campaignId !in old(campaigns) ==> r == Panicked(CampaignNotFound)
      ensures IsU64(campaignId) && campaignId in old(campaigns) ==>
        var c := old(campaigns)[campaignId];
        r == if blockTimestamp > c.deadline then Panicked(CampaignEnded)
             else if !IsU128(PriorDonation(c.donations, caller) + deposit) then Panicked(DonationOverflow)
             else if !IsU128(c.amountCollected + deposit) then Panicked(AmountOverflow)
             else if !IsU128(deposit * 90) then Panicked(ArithmeticOverflow)
             else Done([Transfer(c.creator, RevenueSplit(deposit).creator),
                        Transfer(old(platformWallet), RevenueSplit(deposit).platform)])
      ensures r.Done? ==>
        && campaigns == old(campaigns)[campaignId := Credit(old(campaigns)[campaignId], caller, deposit)]
        && nextCampaignId == old(nextCampaignId) && platformWallet == old(platformWallet)
        && tokens == old(tokens) && nextTokenId == old(nextTokenId)
        && accessRights == old(accessRights) && purchases == old(purchases)
    {
      if !IsU64(campaignId) {
        return Panicked(InvalidArgument);
      }
      if campaignId !in campaigns {
        return Panicked(CampaignNotFound);
      }
      var c := campaigns[campaignId];
      if blockTimestamp > c.deadline {
        return Panicked(CampaignEnded);
      }
      var prior := PriorDonation(c.donations, caller);
      if !IsU128(prior + deposit) {
        return Panicked(DonationOverflow);
      }
      if !IsU128(c.amountCollected + deposit) {
        return Panicked(AmountOverflow);
      }
      if !IsU128(deposit * 90) {
        return Panicked(ArithmeticOverflow);
      }
      campaigns := campaigns[campaignId := Credit(c, caller, deposit)];
      var split := RevenueSplit(deposit);
      r := Done([Transfer(c.creator, split.creator), Transfer(platformWallet, split.platform)]);
    }

    /**
     * `get_campaigns`: one view per stored campaign, keyed by its id. The
     * source's vector comes in hash-map order; a map keeps the pairs and drops
     * the order.
     */
    function GetCampaigns(): (r: map<nat, CampaignView>)
      reads this
      requires Valid()
      ensures r.Keys == campaigns.Keys
      ensures forall id :: id in r ==> id < nextCampaignId && r[id] == ToView(campaigns[id])
    {
      map id | id in campaigns :: ToView(campaigns[id])
    }

    /**
     * `get_donations`: every donor with the decimal rendering of what they gave
     * in total. A `campaign_id` outside `u64` does not deserialize.
     */
    function GetDonations(campaignId: nat): (r: Outcome<map<AccountId, string>>)
      reads this
      ensures r.Panicked? <==> !IsU64(campaignId) || campaignId !in campaigns
      ensures r.Panicked? ==> r.reason == if IsU64(campaignId) then CampaignNotFound else InvalidArgument
      ensures r.Done? ==> r.value.Keys == campaigns[campaignId].donations.Keys
      ensures r.Done? ==> forall a :: a in r.value ==>
                ParseDecimal(r.value[a]) == Some(campaigns[campaignId].donations[a])
    {
      if !IsU64(campaignId) then Panicked(InvalidArgument)
      else if campaignId !in campaigns then Panicked(CampaignNotFound)
      else
        var donations := campaigns[campaignId].donations;
        ParseEveryNatToString();
        Done(map a | a in donations :: NatToString(donations[a]))
    }

    /** `set_platform_wallet`: only the current wallet may name its successor. */
    method SetPlatformWallet(caller: AccountId, newWallet: AccountId) returns (r: Outcome<()>)
      requires Valid()
      modifies this
      ensures Valid()
      ensures r == if caller == old(platformWallet) then Done(()) else Panicked(NotPlatformOwner)
      ensures r.Panicked? ==> unchanged(this)
      ensures r.Done? ==>
        && platformWallet == newWallet
        && campaigns == old(campaigns) && nextCampaignId == old(nextCampaignId)
        && tokens == old(tokens) && nextTokenId == old(nextTokenId)
        && accessRights == old(accessRights) && purchases == old(purchases)
    {
      if caller != platformWallet {
        return Panicked(NotPlatformOwner);
      }
      platformWallet := newWallet;
      r := Done(());
    }

    /**
     * `mint_nft`: stores a token owned by the caller, not for sale and without
     * a price, under the current token id, returns that id and advances it.
     */
    method MintNft(caller: AccountId, title: string, description: string, media: string)
      returns (r: Outcome<nat>)
      requires Valid()
      modifies this
      ensures Valid()
      ensures r == if old(nextTokenId) + 1 == U64_LIMIT then Panicked(ArithmeticOverflow)
                   else Done(old(nextTokenId))
      ensures r.Panicked? ==> unchanged(this)
      ensures r.Done? ==>
        && old(nextTokenId) !in old(tokens)
        && tokens == old(tokens)[old(nextTokenId) :=
             NftToken(caller, TokenMetadata(title, description, media), false, None)]
        && nextTokenId == old(nextTokenId) + 1
        && campaigns == old(campaigns) && nextCampaignId == old(nextCampaignId)
        && platformWallet == old(platformWallet)
        && accessRights == old(accessRights) && purchases == old(purchases)
    {
      if nextTokenId + 1 == U64_LIMIT {
        return Panicked(ArithmeticOverflow);
      }
      var tokenId := nextTokenId;
      tokens := tokens[tokenId := NftToken(caller, TokenMetadata(title, description, media), false, None)];
      nextTokenId := nextTokenId + 1;
      r := Done(tokenId);
    }

    /**
     * `list_nft_for_sale`: only the owner may put a token on sale, at the
     * given price. The price is the JSON text of its `U64` argument, read
     * with `DecodeU64Arg`; a price or a `token_id` outside `u64` does not
     * deserialize and panics first.
     */
    method ListNftForSale(caller: AccountId, tokenId: nat, price: string) returns (r: Outcome<()>)
      requires Valid()
      modifies this
      ensures Valid()
      ensures r == if !IsU64(tokenId) || DecodeU64Arg(price).None? then Panicked(InvalidArgument)
                   else if tokenId !in old(tokens) then Panicked(TokenNotFound)
                   else if old(tokens)[tokenId].ownerId != caller then Panicked(NotTokenOwner)
                   else Done(())
      ensures r.Panicked? ==> unchanged(this)
      ensures r.Done? ==>
        && tokens == old(tokens)[tokenId := old(tokens)[tokenId].(forSale := true, price := DecodeU64Arg(price))]
        && campaigns == old(campaigns) && nextCampaignId == old(nextCampaignId)
        && platformWallet == old(platformWallet) && nextTokenId == old(nextTokenId)
        && accessRights == old(accessRights) && purchases == old(purchases)
    {
      var decoded := DecodeU64Arg(price);
      if !IsU64(tokenId) || decoded.None? {
        return Panicked(InvalidArgument);
      }
      if tokenId !in tokens {
        return Panicked(TokenNotFound);
      }
      var token := tokens[tokenId];
      if token.ownerId != caller {
        return Panicked(NotTokenOwner);
      }
      tokens := tokens[tokenId := token.(forSale := true, price := decoded)];
      r := Done(());
    }

    /**
     * `buy_nft`: a token on sale with a price, bought by someone other than its
     * owner for at least that price. The whole deposit goes to the owner and the
     * buyer gains access; the token itself, owner and sale flag included, is
     * left as it was. A `token_id` outside `u64` does not deserialize.
     */
    method BuyNft(caller: AccountId, deposit: nat, tokenId: nat) returns (r: Outcome<seq<Transfer>>)
      requires Valid()
      requires IsU128(deposit)
      modifies this
      ensures Valid()
      ensures r.Panicked? ==> unchanged(this)
      ensures !IsU64(tokenId) ==> r == Panicked(InvalidArgument)
      ensures IsU64(tokenId) && tokenId !in old(tokens) ==> r == Panicked(TokenNotFound)
      ensures IsU64(tokenId) && tokenId in old(tokens) ==>
        var t := old(tokens)[tokenId];
        r == if !t.forSale then Panicked(NotForSale)
             else if t.price.None? then Panicked(PriceNotSet)
             else if deposit < t.price.value then Panicked(NotEnoughDeposit)
             else if caller == t.ownerId then Panicked(OwnNft)
             else Done([Transfer(t.ownerId, deposit)])
      ensures r.Done? ==>
        && accessRights == old(accessRights)[(tokenId, caller) := true]
        && purchases == old(purchases) + {(tokenId, caller)}
        && tokens == old(tokens) && nextTokenId == old(nextTokenId)
        && campaigns == old(campaigns) && nextCampaignId == old(nextCampaignId)
        && platformWallet == old(platformWallet)
    {
      if !IsU64(tokenId) {
        return Panicked(InvalidArgument);
      }
      if tokenId !in tokens {
        return Panicked(TokenNotFound);
      }
      var token := tokens[tokenId];
      if !token.forSale {
        return Panicked(NotForSale);
      }
      if token.price.None? {
        return Panicked(PriceNotSet);
      }
      if deposit < token.price.value {
        return Panicked(NotEnoughDeposit);
      }
      if caller == token.ownerId {
        return Panicked(OwnNft);
      }
      accessRights := accessRights[(tokenId, caller) := true];
      purchases := purchases + {(tokenId, caller)};
      r := Done([Transfer(token.ownerId, deposit)]);
    }

    /**
     * `get_nft`: a token is found exactly when it was minted and is stored. A
     * `token_id` outside `u64` does not deserialize.
     */
    function GetNft(tokenId: nat): (r: Outcome<Option<NftToken>>)
      reads this
      requires Valid()
      ensures r.Panicked? <==> !IsU64(tokenId)
      ensures r.Panicked? ==> r.reason == InvalidArgument
      ensures r.Done? ==> (r.value.Some? <==> tokenId in tokens)
      ensures r.Done? && r.value.Some? ==> tokenId < nextTokenId && r.value.value == tokens[tokenId]
    {
      if !IsU64(tokenId) then Panicked(InvalidArgument)
      else if tokenId in tokens then Done(Some(tokens[tokenId]))
      else Done(None)
    }

    /** `get_all_nfts`: every stored token with its id, all ids below the counter. */
    function GetAllNfts(): (r: map<nat, NftToken>)
      reads this
      requires Valid()
      ensures r.Keys == tokens.Keys
      ensures forall id :: id in r ==> id < nextTokenId && r[id] == tokens[id]
    {
      tokens
    }

    /**
     * `has_access`: true exactly for the pairs that bought the token; false
     * otherwise. A `token_id` outside `u64` does not deserialize.
     */
    function HasAccess(tokenId: nat, user: AccountId): (r: Outcome<bool>)
      reads this
      requires Valid()
      ensures r.Panicked? <==> !IsU64(tokenId)
      ensures r.Panicked? ==> r.reason == InvalidArgument
      ensures r.Done? ==> (r.value <==> (tokenId, user) in purchases)
    {
      if !IsU64(tokenId) then Panicked(InvalidArgument)
      else if (tokenId, user) in accessRights then Done(accessRights[(tokenId, user)])
      else Done(false)
    }
  }
}
