/** The wallet portfolio page: it lists the credit tokens the connected
    wallet owns by asking the token contract for the owner of every id from
    1 to the total supply, and lets the user retire (burn) a token, marking
    that token's button busy while the burn runs. */
module MyPortfolio {
  import opened Wrappers
  import Text

  /** What the connected wallet and the token contract report: the user's
      address, the total supply, and `ownerOf` per id (None where the call
      fails, as it does for a burned token). */
  datatype Chain = Chain(userAddress: string, totalSupply: nat, ownerOf: nat -> Option<string>)

  /** Token `id` is listed: its owner is known and equals the user's
      address ignoring case. */
  predicate Kept(user: string, ownerOf: nat -> Option<string>, id: nat)
  {
    ownerOf(id).Some? && Text.SameIgnoringCase(ownerOf(id).value, user)
  }

  /** The ids in `1..n` that are kept, in ascending order. */
  function OwnedUpTo(user: string, ownerOf: nat -> Option<string>, n: nat): seq<nat>
  {
    if n == 0 then []
    else OwnedUpTo(user, ownerOf, n - 1) + (if Kept(user, ownerOf, n) then [n] else [])
  }

  /** Strictly ascending, hence free of duplicates. */
  predicate StrictlyAscending(s: seq<nat>)
  {
    forall i, j :: 0 <= i < j < |s| ==> s[i] < s[j]
  }

  /** Every listed id lies in `1..n`. */
  lemma {:induction false} OwnedInRange(user: string, ownerOf: nat -> Option<string>, n: nat)
    ensures forall i :: 0 <= i < |OwnedUpTo(user, ownerOf, n)| ==> 1 <= OwnedUpTo(user, ownerOf, n)[i] <= n
  {
    if n > 0 {
      OwnedInRange(user, ownerOf, n - 1);
    }
  }

  /** The list is strictly ascending. */
  lemma {:induction false} OwnedAscending(user: string, ownerOf: nat -> Option<string>, n: nat)
    ensures StrictlyAscending(OwnedUpTo(user, ownerOf, n))
  {
    if n > 0 {
      OwnedAscending(user, ownerOf, n - 1);
      OwnedInRange(user, ownerOf, n - 1);
    }
  }

  /** An id is listed exactly when it lies in `1..n` and is kept; an id
      whose `ownerOf` call fails is therefore never listed. */
  lemma {:induction false} OwnedMembership(user: string, ownerOf: nat -> Option<string>, n: nat, id: nat)
    ensures id in OwnedUpTo(user, ownerOf, n) <==> 1 <= id <= n && Kept(user, ownerOf, id)
  {
    if n > 0 {
      OwnedMembership(user, ownerOf, n - 1, id);
    }
  }

  /** The owner's address in another letter case still lists the token. */
  lemma CaseOfOwnerIrrelevant(user: string, f: nat -> Option<string>, g: nat -> Option<string>, n: nat)
    requires forall id :: f(id).Some? <==> g(id).Some?
    requires forall id :: f(id).Some? ==> Text.ToLower(f(id).value) == Text.ToLower(g(id).value)
    ensures OwnedUpTo(user, f, n) == OwnedUpTo(user, g, n)
  {
    if n > 0 {
      CaseOfOwnerIrrelevant(user, f, g, n - 1);
    }
  }

  /** The `for` loop of `fetchOwnedTokens`: ids 1 to `totalSupply`
      inclusive, in order, each pushed when its owner is the user. */
  method ScanOwnedTokens(chain: Chain) returns (tokens: seq<nat>)
    ensures tokens == OwnedUpTo(chain.userAddress, chain.ownerOf, chain.totalSupply)
  {
    tokens := [];
    var i := 1;
    while i <= chain.totalSupply
      invariant 1 <= i <= chain.totalSupply + 1
      invariant tokens == OwnedUpTo(chain.userAddress, chain.ownerOf, i - 1)
    {
      var owner := chain.ownerOf(i);
      if owner.Some? && Text.ToLower(owner.value) == Text.ToLower(chain.userAddress) {
        tokens := tokens + [i];
      }
      i := i + 1;
    }
  }

  /** The retire button of token `t` is disabled only while that very token
      is being retired. */
  function RetireButtonDisabled(retiringId: Option<nat>, t: nat): (disabled: bool)
    ensures disabled <==> retiringId.Some? && retiringId.value == t
  {
    retiringId == Some(t)
  }

  /** At most one button is disabled at a time. */
  lemma OneButtonBusy(retiringId: Option<nat>, t: nat, u: nat)
    requires RetireButtonDisabled(retiringId, t) && RetireButtonDisabled(retiringId, u)
    ensures t == u
  {
  }

  /** The alert after a successful burn. */
  function RetiredMessage(tokenId: nat): string
  {
    "Token #" + Text.NatToString(tokenId) + " has been successfully retired (burned)!"
  }

  const RetireFailedMessage := "Retirement failed. Check the console for details."

  class PortfolioPage {
    var ownedTokens: seq<nat>
    var loading: bool
    var retiringId: Option<nat>

    constructor ()
      ensures ownedTokens == [] && loading && retiringId.None?
    {
      ownedTokens := [];
      loading := true;
      retiringId := None;
    }

    /** `fetchOwnedTokens`. `wallet` is None without a browser wallet, and
        Rejected when reading the signer or the supply throws, which leaves
        the page loading. */
    method FetchOwnedTokens(wallet: Option<Settled<Chain>>)
      modifies this
      // no wallet: nothing at all changes
      ensures wallet.None? ==> ownedTokens == old(ownedTokens) && loading == old(loading)
      // the throw happens after `setLoading(true)`
      ensures wallet == Some(Rejected) ==> ownedTokens == old(ownedTokens) && loading
      ensures wallet.Some? && wallet.value.Resolved? ==>
        var c := wallet.value.value;
        ownedTokens == OwnedUpTo(c.userAddress, c.ownerOf, c.totalSupply) && !loading
      ensures retiringId == old(retiringId)
    {
      if wallet.None? {
        return;
      }
      loading := true;
      if wallet.value.Rejected? {
        return;
      }
      var tokens := ScanOwnedTokens(wallet.value.value);
      ownedTokens := tokens;
      loading := false;
    }

    /** `handleRetire` up to the burn: the token is marked busy. */
    method BeginRetire(tokenId: nat)
      modifies this
      ensures retiringId == Some(tokenId)
      ensures RetireButtonDisabled(retiringId, tokenId)
      ensures ownedTokens == old(ownedTokens) && loading == old(loading)
    {
      retiringId := Some(tokenId);
    }

    /** `handleRetire` after the burn. `burned` says whether the burn and
        its confirmation succeeded; only then is the list refreshed, with
        what `wallet` reports. The busy mark is cleared on both outcomes. */
    method CompleteRetire(tokenId: nat, burned: bool, wallet: Option<Settled<Chain>>) returns (alert: string, refreshed: bool)
      modifies this
      ensures retiringId.None?
      ensures refreshed <==> burned
      ensures burned ==> alert == RetiredMessage(tokenId)
      ensures !burned ==> alert == RetireFailedMessage
      ensures !burned ==> ownedTokens == old(ownedTokens) && loading == old(loading)
      ensures burned && wallet.None? ==> ownedTokens == old(ownedTokens) && loading == old(loading)
      // the refresh throws after `setLoading(true)`: the list stays and the page keeps loading
      ensures burned && wallet == Some(Rejected) ==> ownedTokens == old(ownedTokens) && loading
      ensures burned && wallet.Some? && wallet.value.Resolved? ==>
        var c := wallet.value.value;
        ownedTokens == OwnedUpTo(c.userAddress, c.ownerOf, c.totalSupply) && !loading
    {
      if burned {
        alert := RetiredMessage(tokenId);
        FetchOwnedTokens(wallet);
        refreshed := true;
      } else {
        alert := RetireFailedMessage;
        refreshed := false;
      }
      retiringId := None;
    }

    /** `handleRetire` run to completion. */
    method HandleRetire(tokenId: nat, burned: bool, wallet: Option<Settled<Chain>>) returns (alert: string, refreshed: bool)
      modifies this
      ensures retiringId.None? && !RetireButtonDisabled(retiringId, tokenId)
      ensures refreshed <==> burned
      ensures !burned ==> ownedTokens == old(ownedTokens) && loading == old(loading) && alert == RetireFailedMessage
      ensures burned ==> alert == RetiredMessage(tokenId)
      ensures burned && wallet.None? ==> ownedTokens == old(ownedTokens) && loading == old(loading)
      ensures burned && wallet == Some(Rejected) ==> ownedTokens == old(ownedTokens) && loading
      ensures burned && wallet.Some? && wallet.value.Resolved? ==>
        var c := wallet.value.value;
        ownedTokens == OwnedUpTo(c.userAddress, c.ownerOf, c.totalSupply) && !loading
      ensures burned && wallet.Some? && wallet.value.Resolved? ==>
        var c := wallet.value.value;
        tokenId !in ownedTokens <==> !Kept(c.userAddress, c.ownerOf, tokenId) || tokenId == 0 || tokenId > c.totalSupply
    {
      BeginRetire(tokenId);
      alert, refreshed := CompleteRetire(tokenId, burned, wallet);
      if burned && wallet.Some? && wallet.value.Resolved? {
        var c := wallet.value.value;
        OwnedMembership(c.userAddress, c.ownerOf, c.totalSupply, tokenId);
      }
    }
  }
}
