/**
 * The data repository's purchase logic: how the verification server's answer
 * is turned into an outcome, and the premium flag kept in the shared
 * preferences, modelled as a map from (preference file, key) to a boolean.
 */
module WallrData {

  const PurchasePreferenceName: string := "PURCHASE_PREF"
  const PremiumUserTag: string := "premium_user"

  datatype PrefKey = PrefKey(preferenceName: string, tag: string)

  const PremiumKey: PrefKey := PrefKey(PurchasePreferenceName, PremiumUserTag)

  /** The verification server's answer to a purchase token. */
  datatype PurchaseResponse = PurchaseResponse(status: string, errorCode: int)

  /** The server call either answers or fails in transport. */
  datatype ServiceReply = Answered(response: PurchaseResponse) | TransportFailure

  datatype PurchaseError = InvalidPurchaseException | UnableToVerifyPurchaseException | TransportError

  /** What the returned Completable does: complete, or fail with an error. */
  datatype Completion = Completes | Fails(error: PurchaseError)

  /**
   * "success" completes; "error" with code 404 or 403 is an invalid purchase;
   * every other answer, including unknown statuses, could not be verified.
   */
  function ClassifyResponse(r: PurchaseResponse): (c: Completion)
    ensures c == Completes <==> r.status == "success"
    ensures c == Fails(InvalidPurchaseException) <==>
      r.status == "error" && (r.errorCode == 404 || r.errorCode == 403)
    ensures c == Fails(UnableToVerifyPurchaseException) <==>
      r.status != "success" && !(r.status == "error" && (r.errorCode == 404 || r.errorCode == 403))
    ensures c != Fails(TransportError)
  {
    if r.status == "success" then Completes
    else if r.status == "error" && (r.errorCode == 404 || r.errorCode == 403) then Fails(InvalidPurchaseException)
    else Fails(UnableToVerifyPurchaseException)
  }

  /** A transport failure of the server call is passed on unchanged. */
  function AuthenticatePurchase(reply: ServiceReply): (c: Completion)
    ensures reply.TransportFailure? <==> c == Fails(TransportError)
    ensures reply.Answered? ==> c == ClassifyResponse(reply.response)
  {
    match reply
    case Answered(r) => ClassifyResponse(r)
    case TransportFailure => Fails(TransportError)
  }

  /** The stored boolean, or `default` when nothing is stored under `key`. */
  function GetBoolean(prefs: map<PrefKey, bool>, key: PrefKey, default: bool): (v: bool)
    ensures key !in prefs ==> v == default
    ensures key in prefs ==> v == prefs[key]
  {
    if key in prefs then prefs[key] else default
  }

  function SetBoolean(prefs: map<PrefKey, bool>, key: PrefKey, value: bool): (r: map<PrefKey, bool>)
    ensures r.Keys == prefs.Keys + {key}
    ensures r[key] == value
    ensures forall k :: k in prefs && k != key ==> r[k] == prefs[k]
  {
    prefs[key := value]
  }

  /** A written value is read back, and every other key reads as before. */
  lemma GetAfterSet(prefs: map<PrefKey, bool>, key: PrefKey, value: bool, other: PrefKey, default: bool)
    ensures GetBoolean(SetBoolean(prefs, key, value), key, default) == value
    ensures other != key ==> GetBoolean(SetBoolean(prefs, key, value), other, default) == GetBoolean(prefs, other, default)
  {
  }

  /** The repository object over the preference store it writes to. */
  class WallrDataRepository {
    var prefs: map<PrefKey, bool>

    constructor (stored: map<PrefKey, bool>)
      ensures prefs == stored
    {
      prefs := stored;
    }

    /**
     * Marks the user as premium. `writeOk` stands for the preference helper's
     * report of the write, which is also the result; a failed write changes nothing.
     */
    method UpdateUserPurchaseStatus(writeOk: bool) returns (ok: bool)
      modifies this
      ensures ok == writeOk
      ensures prefs == if writeOk then SetBoolean(old(prefs), PremiumKey, true) else old(prefs)
    {
      if writeOk {
        prefs := SetBoolean(prefs, PremiumKey, true);
      }
      ok := writeOk;
    }

    /** False when nothing is stored under the premium key. */
    method IsUserPremium() returns (premium: bool)
      ensures premium == (PremiumKey in prefs && prefs[PremiumKey])
    {
      premium := GetBoolean(prefs, PremiumKey, false);
    }
  }

  /**
   * On a fresh store the user is not premium; after a successful update the
   * user is, and every other stored key keeps its value.
   */
  method PremiumFlagLifecycle(other: PrefKey, stored: map<PrefKey, bool>)
    returns (before: bool, after: bool, otherBefore: bool, otherAfter: bool)
    requires PremiumKey !in stored
    ensures !before && after
    ensures other != PremiumKey ==> otherBefore == otherAfter
  {
    var repo := new WallrDataRepository(stored);
    before := repo.IsUserPremium();
    otherBefore := GetBoolean(repo.prefs, other, false);
    var ok := repo.UpdateUserPurchaseStatus(true);
    after := repo.IsUserPremium();
    otherAfter := GetBoolean(repo.prefs, other, false);
  }
}
