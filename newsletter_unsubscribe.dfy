/**
 * The newsletter's `/unsubscribe` route: find the subscriber that holds a token and mark
 * that one row inactive. The `newsletter_subscribers` table is a map from row id to row.
 */
module NewsletterUnsubscribe {
  import opened Js
  import opened NewsletterMessage

  /** A `newsletter_subscribers` row; `None` is SQL `null`. */
  datatype SubscriberRow = SubscriberRow(
    email: string,
    firstName: Option<string>,
    lastName: Option<string>,
    unsubscribeToken: Option<string>,
    isActive: bool)

  type Store = map<nat, SubscriberRow>

  /** How the route ends, before it is turned into a response. */
  datatype UnsubscribeOutcome = MissingToken | NotFound | UpdateFailed | Unsubscribed(email: string)

  /** The ids of the rows holding `token`. */
  function IdsWithToken(store: Store, token: string): (ids: set<nat>)
    ensures forall id :: id in ids <==> id in store && store[id].unsubscribeToken == Some(token)
  {
    set id | id in store && store[id].unsubscribeToken == Some(token)
  }

  /** A set of naturals holding `y` has a least element, found by descending from `y`. */
  lemma {:induction false} MinExists(s: set<nat>, y: nat)
    requires y in s
    ensures exists m :: m in s && forall x :: x in s ==> m <= x
    decreases y
  {
    if !(forall x :: x in s ==> y <= x) {
      var z :| z in s && z < y;
      MinExists(s, z);
    }
  }

  function MinOf(s: set<nat>): (m: nat)
    requires s != {}
    ensures m in s && forall x :: x in s ==> m <= x
  {
    var y :| y in s;
    MinExists(s, y);
    var m :| m in s && forall x :: x in s ==> m <= x;
    m
  }

  /**
   * `.eq('unsubscribe_token', token).limit(1).single()`: a row holding the token, if any.
   * The query names no order; the model takes the least id.
   */
  function FindByToken(store: Store, token: string): (r: Option<nat>)
    ensures r.Some? ==> r.value in store && store[r.value].unsubscribeToken == Some(token)
    ensures r.None? <==> forall id :: id in store ==> store[id].unsubscribeToken != Some(token)
    ensures r.Some? ==> forall id :: id in store && store[id].unsubscribeToken == Some(token) ==> r.value <= id
  {
    var ids := IdsWithToken(store, token);
    if ids == {} then None else Some(MinOf(ids))
  }

  /** The row with `is_active` cleared. */
  function Deactivated(row: SubscriberRow): SubscriberRow {
    row.(isActive := false)
  }

  /**
   * The route after the body was parsed: `lookupFails` and `updateFails` stand for the
   * database reporting an error on the lookup and on the update.
   */
  function Unsubscribe(store: Store, token: Option<string>, lookupFails: bool, updateFails: bool): (UnsubscribeOutcome, Store) {
    if !Truthy(token) then (MissingToken, store)
    else if lookupFails then (NotFound, store)
    else match FindByToken(store, token.value)
      case None => (NotFound, store)
      case Some(id) =>
        if updateFails then (UpdateFailed, store)
        else (Unsubscribed(store[id].email), store[id := Deactivated(store[id])])
  }

  /** The projection the active-subscriber query selects. */
  function Listed(row: SubscriberRow): Subscriber {
    Subscriber(row.email, row.firstName, row.lastName, row.unsubscribeToken)
  }

  function ActiveIds(store: Store): set<nat> {
    set id | id in store && store[id].isActive
  }

  /** `rows` is an answer to `.select(...).eq('is_active', true)` on `store`, in some order. */
  ghost predicate ListsActive(store: Store, rows: seq<Subscriber>) {
    && |rows| == |ActiveIds(store)|
    && (forall s :: s in rows <==> (exists id :: id in store && store[id].isActive && Listed(store[id]) == s))
  }

  /** No two rows share a token. */
  predicate TokensUnique(store: Store) {
    forall a, b :: (a in store && b in store && store[a].unsubscribeToken.Some?
                    && store[a].unsubscribeToken == store[b].unsubscribeToken) ==> a == b
  }

  // ---------------------------------------------------------------------------
  // Properties

  /** A missing token, a lookup error or an unknown token leave the table as it was. */
  lemma RejectedLeavesStore(store: Store, token: Option<string>, lookupFails: bool, updateFails: bool)
    ensures !Truthy(token) ==> Unsubscribe(store, token, lookupFails, updateFails) == (MissingToken, store)
    ensures Truthy(token) && (forall id :: id in store ==> store[id].unsubscribeToken != token) ==>
              Unsubscribe(store, token, lookupFails, updateFails) == (NotFound, store)
    ensures !Unsubscribe(store, token, lookupFails, updateFails).0.Unsubscribed? ==>
              Unsubscribe(store, token, lookupFails, updateFails).1 == store
  {
  }

  /** A matching token clears `is_active` on that row only, and the route returns its e-mail. */
  lemma {:induction false} DeactivatesOnlyMatch(store: Store, t: string)
    requires t != "" && FindByToken(store, t).Some?
    ensures var id := FindByToken(store, t).value;
      var (outcome, after) := Unsubscribe(store, Some(t), false, false);
      && outcome == Unsubscribed(store[id].email)
      && after.Keys == store.Keys
      && !after[id].isActive
      && after[id] == store[id].(isActive := false)
      && (forall other :: other in store && other != id ==> after[other] == store[other])
  {
  }

  /**
   * With unique tokens, unsubscribing again finds the same row, leaves it inactive and
   * succeeds again.
   */
  lemma {:induction false} UnsubscribeIdempotent(store: Store, t: string)
    requires t != "" && TokensUnique(store)
    ensures var (o1, s1) := Unsubscribe(store, Some(t), false, false);
      var (o2, s2) := Unsubscribe(s1, Some(t), false, false);
      o2 == o1 && s2 == s1
  {
    var (o1, s1) := Unsubscribe(store, Some(t), false, false);
    match FindByToken(store, t)
    case None =>
    case Some(id) =>
      assert IdsWithToken(s1, t) == IdsWithToken(store, t);
      assert FindByToken(s1, t) == Some(id);
      assert s1[id := Deactivated(s1[id])] == s1;
  }

  /** After a successful unsubscribe, no listing of active subscribers holds that token. */
  lemma {:induction false} NoLongerListed(store: Store, t: string, rows: seq<Subscriber>)
    requires t != "" && TokensUnique(store)
    requires Unsubscribe(store, Some(t), false, false).0.Unsubscribed?
    requires ListsActive(Unsubscribe(store, Some(t), false, false).1, rows)
    ensures forall s :: s in rows ==> s.unsubscribeToken != Some(t)
  {
    var id := FindByToken(store, t).value;
    var after := Unsubscribe(store, Some(t), false, false).1;
    forall s | s in rows ensures s.unsubscribeToken != Some(t) {
      var j :| j in after && after[j].isActive && Listed(after[j]) == s;
      if j != id {
        assert after[j] == store[j];
      }
    }
  }
}
