/** The in-memory partner configuration cache, keyed by bank code, with BCA as the fallback. */
module PartnerService {
  import opened Wrappers
  import opened GoBase
  import opened Entity

  const DefaultBankCode := "014"

  /**
   * The map that storing each config under its own code, in list order,
   * produces: every code of the list is a key, and for repeated codes the
   * later element wins.
   */
  function ByBankCode(banks: seq<BankConfig>): (m: map<string, BankConfig>)
    ensures m.Keys == set b | b in banks :: b.bankCode
    ensures forall k :: k in m ==> m[k].bankCode == k && m[k] in banks
    ensures forall i :: 0 <= i < |banks| ==>
      (forall j :: i < j < |banks| ==> banks[j].bankCode != banks[i].bankCode) ==> m[banks[i].bankCode] == banks[i]
  {
    if banks == [] then map[]
    else
      var init := banks[..|banks| - 1];
      var last := banks[|banks| - 1];
      assert forall i :: 0 <= i < |banks| - 1 ==> banks[i] == init[i];
      assert banks == init + [last];
      AppendKeepsIndexing(init, last, ByBankCode(init));
      ByBankCode(init)[last.bankCode := last]
  }

  /** The inductive step of ByBankCode: storing one more element under its code keeps the three properties. */
  lemma AppendKeepsIndexing(init: seq<BankConfig>, last: BankConfig, rest: map<string, BankConfig>)
    requires rest.Keys == set b | b in init :: b.bankCode
    requires forall k :: k in rest ==> rest[k].bankCode == k && rest[k] in init
    requires forall i :: 0 <= i < |init| ==>
      (forall j :: i < j < |init| ==> init[j].bankCode != init[i].bankCode) ==> rest[init[i].bankCode] == init[i]
    ensures var banks := init + [last];
      var m := rest[last.bankCode := last];
      && m.Keys == (set b | b in banks :: b.bankCode)
      && (forall k :: k in m ==> m[k].bankCode == k && m[k] in banks)
      && (forall i :: 0 <= i < |banks| ==>
            (forall j :: i < j < |banks| ==> banks[j].bankCode != banks[i].bankCode) ==> m[banks[i].bankCode] == banks[i])
  {
    var banks := init + [last];
    var m := rest[last.bankCode := last];
    assert (set b | b in banks :: b.bankCode) == (set b | b in init :: b.bankCode) + {last.bankCode};
    forall k | k in m
      ensures m[k].bankCode == k && m[k] in banks
    {
      if k != last.bankCode {
        assert rest[k] in init;
      }
    }
    forall i | 0 <= i < |banks| && (forall j :: i < j < |banks| ==> banks[j].bankCode != banks[i].bankCode)
      ensures m[banks[i].bankCode] == banks[i]
    {
      if i < |init| {
        assert banks[|banks| - 1] == last;
        assert banks[i] == init[i];
        assert forall j :: i < j < |init| ==> init[j] == banks[j];
      }
    }
  }

  /** One more element of the list is one more map update. */
  lemma ByBankCodeStep(banks: seq<BankConfig>, i: nat)
    requires i < |banks|
    ensures ByBankCode(banks[..i + 1]) == ByBankCode(banks[..i])[banks[i].bankCode := banks[i]]
  {
    assert banks[..i + 1][..i] == banks[..i];
  }

  /** Updating a merged map is merging the updated right-hand map. */
  lemma MergeUpdate<K, V>(a: map<K, V>, b: map<K, V>, k: K, v: V)
    ensures (a + b)[k := v] == a + b[k := v]
  {
  }

  class BankPartner {
    var bankCache: map<string, BankConfig>

    /** Every entry is stored under its own bank code. */
    predicate Valid()
      reads this
    {
      forall k :: k in bankCache ==> bankCache[k].bankCode == k
    }

    constructor ()
      ensures bankCache == map[] && Valid()
    {
      bankCache := map[];
    }

    /**
     * Loads the repository's list into the cache. A repository error is
     * returned and leaves the cache as it was; otherwise the list is merged
     * in, so codes missing from it keep their old entries.
     */
    method LoadAllBankPartner(found: Result<seq<BankConfig>, GoError>) returns (err: Option<GoError>)
      requires Valid()
      modifies this
      ensures Valid()
      ensures found.Failure? ==> err == Some(found.error) && bankCache == old(bankCache)
      ensures found.Success? ==> err.None? && bankCache == old(bankCache) + ByBankCode(found.value)
    {
      if found.Failure? {
        return Some(found.error);
      }
      var banks := found.value;
      var i := 0;
      while i < |banks|
        invariant 0 <= i <= |banks|
        invariant bankCache == old(bankCache) + ByBankCode(banks[..i])
        invariant Valid()
      {
        ByBankCodeStep(banks, i);
        MergeUpdate(old(bankCache), ByBankCode(banks[..i]), banks[i].bankCode, banks[i]);
        bankCache := bankCache[banks[i].bankCode := banks[i]];
        i := i + 1;
      }
      assert banks[..i] == banks;
      return None;
    }

    /** The entry for the code; otherwise BCA's entry; otherwise the zero config. */
    function GetBankConfig(bankCode: string): (r: BankConfig)
      reads this
      ensures bankCode in bankCache ==> r == bankCache[bankCode]
      ensures bankCode !in bankCache && DefaultBankCode in bankCache ==> r == bankCache[DefaultBankCode]
      ensures bankCode !in bankCache && DefaultBankCode !in bankCache ==> r == ZeroBankConfig
      ensures Valid() ==> (r.bankCode == bankCode <==> bankCode in bankCache || (bankCode == "" && DefaultBankCode !in bankCache))
    {
      if bankCode in bankCache then bankCache[bankCode]
      else if DefaultBankCode in bankCache then bankCache[DefaultBankCode]
      else ZeroBankConfig
    }
  }

  /** Loading an empty list changes nothing. */
  lemma EmptyLoadIsNoOp(cache: map<string, BankConfig>)
    ensures cache + ByBankCode([]) == cache
  {
  }

  /** Loading a list keeps every old entry whose code the list does not mention. */
  lemma LoadKeepsUnmentioned(cache: map<string, BankConfig>, banks: seq<BankConfig>, k: string)
    requires k in cache && forall b :: b in banks ==> b.bankCode != k
    ensures k in cache + ByBankCode(banks) && (cache + ByBankCode(banks))[k] == cache[k]
  {
  }
}
