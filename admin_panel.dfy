/**
 * The admin review panel (src/app/admin/page.js): the 24-hour session
 * check, the list of pending contributions, approving (copy to the shared
 * collection, delete the pending document, award the contributor 10
 * points) and rejecting.
 *
 * Firestore is the `Database` object; whether each call succeeds, and what
 * a reload of the pending list returns, are parameters.
 */
module AdminPanel {
  import opened Wrappers
  import opened Text
  import opened Toasts
  import opened AdminSession
  import opened AdminLogin
  import Profile

  /** 24 hours in milliseconds. */
  const SessionMs: int := 24 * 60 * 60 * 1000

  datatype SessionCheck = Accepted | Expired | NoSession

  /**
   * The `useEffect` session test. `Date.now() - parseInt(loginTime)` divided
   * by 3 600 000 is below 24 exactly when the difference is below
   * 86 400 000; an unparsable time makes the difference `NaN`, which is
   * never below 24, so it counts as expired.
   */
  function SessionStatus(authenticated: Option<string>, loginTime: Option<string>, now: int): (c: SessionCheck)
    ensures c == NoSession <==> !(authenticated == Some("true") && Truthy(loginTime))
    ensures c == Accepted ==> ParseInt(loginTime.value).Some? && now - ParseInt(loginTime.value).value < SessionMs
    ensures c == Expired ==> ParseInt(loginTime.value).None? || now - ParseInt(loginTime.value).value >= SessionMs
  {
    if authenticated == Some("true") && Truthy(loginTime) then
      var t := ParseInt(loginTime.value);
      if t.Some? && now - t.value < SessionMs then Accepted else Expired
    else NoSession
  }

  /** What the login page stores at time `t` is accepted exactly for the next 24 hours. */
  lemma LoginOpensDay(t: nat, now: int)
    ensures SessionStatus(Some("true"), Some(NatToString(t)), now) == (if now - t < SessionMs then Accepted else Expired)
  {
    ParseIntOfNatToString(t);
  }

  // ----- records -----

  /** A pending contribution: `{ id: doc.id, ...doc.data() }`; `fields` holds the document's other fields. */
  datatype PendingProduct = PendingProduct(id: string, fields: map<string, string>)

  /** A field spread from the document overrides the `id` taken from the document's name. */
  function FromDocument(docId: string, data: map<string, string>): (p: PendingProduct)
    ensures p.id == (if "id" in data then data["id"] else docId)
    ensures "id" !in p.fields && forall k :: k in data && k != "id" ==> k in p.fields && p.fields[k] == data[k]
  {
    PendingProduct(if "id" in data then data["id"] else docId, data - {"id"})
  }

  function UserId(p: PendingProduct): Option<string> {
    if "userId" in p.fields then Some(p.fields["userId"]) else None
  }

  /** The document added to `sharedProducts`: every field but `id` (`{ id, ...productData }`), then `approved` and `verified` set. */
  datatype SharedRecord = SharedRecord(fields: map<string, string>, approved: bool, verified: bool)

  const ApprovalFlags: set<string> := {"approved", "approvedAt", "verified"}

  function ApprovedRecord(p: PendingProduct): (r: SharedRecord)
    ensures r.approved && r.verified && "id" !in r.fields
    ensures forall k :: k in r.fields <==> k in p.fields && k !in ApprovalFlags && k != "id"
    ensures forall k :: k in r.fields ==> r.fields[k] == p.fields[k]
  {
    SharedRecord(p.fields - ApprovalFlags - {"id"}, true, true)
  }

  /** A `userStats` document. */
  datatype StatsDoc = StatsDoc(
    userId: Option<string>,
    totalContributions: Option<int>,
    totalScans: Option<int>,
    points: Option<int>,
    level: Option<int>)

  /**
   * The stats after one approval: an existing document is merged with
   * `increment(1)`, `increment(10)` and the level of the new points (missing
   * counts as 0); a missing one is created with one contribution and 10 points.
   */
  function AwardPoints(existing: Option<StatsDoc>, userId: string): (d: StatsDoc)
    ensures existing.None? ==> d == StatsDoc(Some(userId), Some(1), Some(0), Some(10), Some(1))
    ensures existing.Some? ==>
      var prev := existing.value;
      d.userId == prev.userId && d.totalScans == prev.totalScans
      && d.totalContributions == Some(prev.totalContributions.GetOr(0) + 1)
      && d.points == Some(prev.points.GetOr(0) + 10)
  {
    match existing
    case None => StatsDoc(Some(userId), Some(1), Some(0), Some(10), Some(1))
    case Some(prev) =>
      var newPoints := prev.points.GetOr(0) + 10;
      prev.(totalContributions := Some(prev.totalContributions.GetOr(0) + 1),
           points := Some(newPoints),
           level := Some(Profile.LevelFor(newPoints)))
  }

  /** After an award the stored level is the profile's level for the stored points. */
  lemma AwardKeepsLevelInStep(existing: Option<StatsDoc>, userId: string)
    ensures AwardPoints(existing, userId).points.Some?
    ensures AwardPoints(existing, userId).level == Some(Profile.LevelFor(AwardPoints(existing, userId).points.value))
  {
  }

  /** The first award gives what the profile page computes for one contribution and no scans. */
  lemma FirstAwardMatchesProfile(userId: string)
    ensures AwardPoints(None, userId).points == Some(Profile.ComputeStats(1, 0).points as int)
    ensures AwardPoints(None, userId).level == Some(Profile.ComputeStats(1, 0).level as int)
  {
  }

  /** The `userStats` collection after approving `product`: only its contributor's document changes, if it names one. */
  function StatsAfterApproval(stats: map<string, StatsDoc>, product: PendingProduct): (r: map<string, StatsDoc>)
    ensures !Truthy(UserId(product)) ==> r == stats
    ensures Truthy(UserId(product)) ==>
      var uid := UserId(product).value;
      r.Keys == stats.Keys + {uid}
      && r[uid] == AwardPoints(if uid in stats then Some(stats[uid]) else None, uid)
      && forall u :: u in stats && u != uid ==> r[u] == stats[u]
  {
    if Truthy(UserId(product)) then
      var uid := UserId(product).value;
      stats[uid := AwardPoints(if uid in stats then Some(stats[uid]) else None, uid)]
    else stats
  }

  /** `prev.filter(p => p.id !== id)`. */
  function RemoveId(ps: seq<PendingProduct>, id: string): (r: seq<PendingProduct>)
    ensures |r| <= |ps|
    ensures forall p :: p in r <==> p in ps && p.id != id
  {
    if ps == [] then []
    else (if ps[0].id == id then [] else [ps[0]]) + RemoveId(ps[1..], id)
  }

  /** The filter keeps order: it distributes over concatenation. */
  lemma {:induction false} RemoveIdKeepsOrder(a: seq<PendingProduct>, b: seq<PendingProduct>, id: string)
    ensures RemoveId(a + b, id) == RemoveId(a, id) + RemoveId(b, id)
  {
    if a == [] {
      assert a + b == b;
    } else {
      assert (a + b)[1..] == a[1..] + b;
      RemoveIdKeepsOrder(a[1..], b, id);
    }
  }

  /** A list without that id is left as it was. */
  lemma {:induction false} RemoveAbsentId(ps: seq<PendingProduct>, id: string)
    requires forall p :: p in ps ==> p.id != id
    ensures RemoveId(ps, id) == ps
  {
    if ps != [] {
      assert ps[0] in ps;
      assert forall p :: p in ps[1..] ==> p in ps;
      RemoveAbsentId(ps[1..], id);
    }
  }

  // ----- the database and the page -----

  /** The three Firestore collections the panel touches. */
  class Database {
    var sharedProducts: seq<SharedRecord>
    /** Ids of the documents in `pendingProducts`. */
    var pendingIds: set<string>
    var userStats: map<string, StatsDoc>

    constructor (pending: set<string>, stats: map<string, StatsDoc>)
      ensures sharedProducts == [] && pendingIds == pending && userStats == stats
    {
      sharedProducts := [];
      pendingIds := pending;
      userStats := stats;
    }
  }

  const LoginRoute := "/admin/login"

  class Panel {
    var authenticated: bool
    var loading: bool
    var pendingProducts: seq<PendingProduct>
    var processingId: Option<string>
    var toast: Toast
    var redirectedTo: Option<string>

    constructor ()
      ensures !authenticated && loading && pendingProducts == [] && processingId == None
      ensures toast == HiddenToast && redirectedTo == None
    {
      authenticated := false;
      loading := true;
      pendingProducts := [];
      processingId := None;
      toast := HiddenToast;
      redirectedTo := None;
    }

    /** `loadPendingProducts` given what the query returned (`None`: it failed). */
    method LoadPendingProducts(fetched: Option<seq<PendingProduct>>)
      modifies this`loading, this`pendingProducts, this`toast
      ensures !loading
      ensures pendingProducts == (if fetched.Some? then fetched.value else old(pendingProducts))
      ensures toast == (if fetched.Some? then old(toast) else Shown("Failed to load pending products", ErrorToast))
    {
      loading := true;
      if fetched.Some? {
        pendingProducts := fetched.value;
      } else {
        toast := Shown("Failed to load pending products", ErrorToast);
      }
      loading := false;
    }

    /**
     * The session check on mount: an accepted session loads the list; an
     * expired one removes both keys and goes to the login page; without the
     * keys the page only redirects.
     */
    method CheckSession(storage: LocalStorage, now: int, fetched: Option<seq<PendingProduct>>)
      modifies this, storage
      ensures var status := SessionStatus(old(storage.GetItem(AuthenticatedKey)), old(storage.GetItem(LoginTimeKey)), now);
        && (status == Accepted ==>
              authenticated && !loading && storage.items == old(storage.items) && redirectedTo == old(redirectedTo)
              && pendingProducts == (if fetched.Some? then fetched.value else old(pendingProducts))
              && toast == (if fetched.Some? then old(toast) else Shown("Failed to load pending products", ErrorToast))
              && processingId == old(processingId))
        && (status == Expired ==>
              storage.items == old(storage.items) - {AuthenticatedKey, LoginTimeKey}
              && authenticated == old(authenticated) && redirectedTo == Some(LoginRoute))
        && (status == NoSession ==>
              storage.items == old(storage.items) && authenticated == old(authenticated)
              && redirectedTo == Some(LoginRoute))
        && (status != Accepted ==>
              loading == old(loading) && pendingProducts == old(pendingProducts)
              && toast == old(toast) && processingId == old(processingId))
    {
      var status := SessionStatus(storage.GetItem(AuthenticatedKey), storage.GetItem(LoginTimeKey), now);
      if status == Accepted {
        authenticated := true;
        LoadPendingProducts(fetched);
      } else if status == Expired {
        storage.RemoveItem(AuthenticatedKey);
        storage.RemoveItem(LoginTimeKey);
        assert storage.items == old(storage.items) - {AuthenticatedKey, LoginTimeKey};
        redirectedTo := Some(LoginRoute);
      } else {
        redirectedTo := Some(LoginRoute);
      }
    }

    /** `handleLogout`: both keys go and the page returns to the login route. */
    method Logout(storage: LocalStorage)
      modifies this`redirectedTo, storage
      ensures storage.items == old(storage.items) - {AuthenticatedKey, LoginTimeKey}
      ensures redirectedTo == Some(LoginRoute)
    {
      storage.RemoveItem(AuthenticatedKey);
      storage.RemoveItem(LoginTimeKey);
      assert storage.items == old(storage.items) - {AuthenticatedKey, LoginTimeKey};
      redirectedTo := Some(LoginRoute);
    }

    /** The `catch` blocks of approve and reject: an error toast, then a reload of the list. */
    method FailAndReload(message: string, reloaded: Option<seq<PendingProduct>>)
      modifies this`loading, this`pendingProducts, this`toast
      ensures !loading
      ensures pendingProducts == (if reloaded.Some? then reloaded.value else old(pendingProducts))
      ensures toast == (if reloaded.Some? then Shown(message, ErrorToast) else Shown("Failed to load pending products", ErrorToast))
    {
      toast := Shown(message, ErrorToast);
      LoadPendingProducts(reloaded);
    }

    /**
     * `handleApprove`. The product leaves the shown list at once. Then, in
     * order: the shared record is added, the pending document deleted and
     * the contributor awarded points; a failed add or delete stops there,
     * shows an error and reloads the list; a failed award is ignored.
     */
    method HandleApprove(db: Database, product: PendingProduct, addSucceeds: bool, deleteSucceeds: bool,
                         statsSucceed: bool, reloaded: Option<seq<PendingProduct>>)
      modifies this, db
      ensures processingId == None
      ensures authenticated == old(authenticated) && redirectedTo == old(redirectedTo)
      ensures loading == (if addSucceeds && deleteSucceeds then old(loading) else false)
      ensures db.sharedProducts == old(db.sharedProducts) + (if addSucceeds then [ApprovedRecord(product)] else [])
      ensures db.pendingIds == (if addSucceeds && deleteSucceeds then old(db.pendingIds) - {product.id} else old(db.pendingIds))
      ensures db.userStats == (if addSucceeds && deleteSucceeds && statsSucceed
                               then StatsAfterApproval(old(db.userStats), product) else old(db.userStats))
      ensures addSucceeds && deleteSucceeds ==>
        pendingProducts == RemoveId(old(pendingProducts), product.id)
        && toast == Shown("Product approved and added to shared database. User awarded 10 points!", SuccessToast)
      ensures !(addSucceeds && deleteSucceeds) ==>
        pendingProducts == (if reloaded.Some? then reloaded.value else RemoveId(old(pendingProducts), product.id))
        && toast == (if reloaded.Some? then Shown("Failed to approve product", ErrorToast)
                     else Shown("Failed to load pending products", ErrorToast))
    {
      processingId := Some(product.id);
      pendingProducts := RemoveId(pendingProducts, product.id);
      if addSucceeds {
        db.sharedProducts := db.sharedProducts + [ApprovedRecord(product)];
      }
      if addSucceeds && deleteSucceeds {
        db.pendingIds := db.pendingIds - {product.id};
        if statsSucceed {
          db.userStats := StatsAfterApproval(db.userStats, product);
        }
        toast := Shown("Product approved and added to shared database. User awarded 10 points!", SuccessToast);
      } else {
        FailAndReload("Failed to approve product", reloaded);
      }
      processingId := None;
    }

    /**
     * `handleReject`. A declined confirmation changes nothing; otherwise
     * the product leaves the list and its document is deleted, or on
     * failure an error is shown and the list reloaded.
     */
    method HandleReject(db: Database, productId: string, confirmed: bool, deleteSucceeds: bool,
                        reloaded: Option<seq<PendingProduct>>)
      modifies this, db
      ensures !confirmed ==> unchanged(this) && unchanged(db)
      ensures confirmed ==>
        processingId == None
        && authenticated == old(authenticated) && redirectedTo == old(redirectedTo)
        && loading == (if deleteSucceeds then old(loading) else false)
        && db.sharedProducts == old(db.sharedProducts) && db.userStats == old(db.userStats)
        && db.pendingIds == (if deleteSucceeds then old(db.pendingIds) - {productId} else old(db.pendingIds))
        && (deleteSucceeds ==>
              pendingProducts == RemoveId(old(pendingProducts), productId)
              && toast == Shown("Product rejected and removed", SuccessToast))
        && (!deleteSucceeds ==>
              pendingProducts == (if reloaded.Some? then reloaded.value else RemoveId(old(pendingProducts), productId))
              && toast == (if reloaded.Some? then Shown("Failed to reject product", ErrorToast)
                           else Shown("Failed to load pending products", ErrorToast)))
    {
      if !confirmed {
        return;
      }
      processingId := Some(productId);
      pendingProducts := RemoveId(pendingProducts, productId);
      if deleteSucceeds {
        db.pendingIds := db.pendingIds - {productId};
        toast := Shown("Product rejected and removed", SuccessToast);
      } else {
        FailAndReload("Failed to reject product", reloaded);
      }
      processingId := None;
    }
  }

  /**
   * Logging in and then opening the panel: the session written by the login
   * page is accepted iff less than 24 hours have passed.
   */
  method LoginThenOpenPanel(loginTime: nat, now: int) returns (accepted: bool)
    ensures accepted <==> now - loginTime < SessionMs
  {
    var storage := new LocalStorage(map[]);
    var login := new LoginPage();
    login.username, login.password := AdminUsername, AdminPassword;
    login.HandleSubmit(storage, loginTime);
    var panel := new Panel();
    LoginOpensDay(loginTime, now);
    panel.CheckSession(storage, now, Some([]));
    accepted := panel.authenticated;
  }
}
