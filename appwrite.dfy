/**
 * The browser-side backend client (ui/src/lib/appwrite.ts). The two
 * document collections are in-memory sequences; document ids come from a
 * counter standing for ID.unique(); the backend's own failures and the
 * clock are inputs.
 */
module Appwrite {
  import opened Wrappers
  import opened Holdings

  const DuplicateMessage: string := "Subscriber already exists"

  /** A document of the "subscribers" collection. */
  datatype SubscriberDoc = SubscriberDoc(docId: nat, email: string, subscribedAt: Option<string>)

  /** A document of the "users" collection: one saved portfolio snapshot. */
  datatype HoldingsDoc = HoldingsDoc(docId: nat, userId: string, holdings: seq<Holding>, createdAt: string)

  /** Query.equal("email", email) over the subscribers. */
  function WithEmail(docs: seq<SubscriberDoc>, email: string): (r: seq<SubscriberDoc>)
    ensures forall d :: d in r <==> d in docs && d.email == email
    decreases |docs|
  {
    if docs == [] then []
    else (if docs[0].email == email then [docs[0]] else []) + WithEmail(docs[1..], email)
  }

  /** Query.equal("user_id", userId) over the holdings documents, in store order. */
  function HoldingsOf(docs: seq<HoldingsDoc>, userId: string): (r: seq<HoldingsDoc>)
    ensures forall d :: d in r <==> d in docs && d.userId == userId
    ensures |r| <= |docs|
    decreases |docs|
  {
    if docs == [] then []
    else (if docs[0].userId == userId then [docs[0]] else []) + HoldingsOf(docs[1..], userId)
  }

  /** Appending a document appends it to the query result when it matches. */
  lemma {:induction false} HoldingsOfAppend(docs: seq<HoldingsDoc>, d: HoldingsDoc, userId: string)
    ensures HoldingsOf(docs + [d], userId) ==
      HoldingsOf(docs, userId) + (if d.userId == userId then [d] else [])
    decreases |docs|
  {
    if docs == [] {
      assert docs + [d] == [d];
    } else {
      assert (docs + [d])[1..] == docs[1..] + [d];
      HoldingsOfAppend(docs[1..], d, userId);
    }
  }

  /** No two subscriber documents carry the same email. */
  predicate EmailsUnique(docs: seq<SubscriberDoc>) {
    forall i, j :: 0 <= i < j < |docs| ==> docs[i].email != docs[j].email
  }

  /**
   * saveSubscriber's check-then-insert keeps emails unique: a document whose
   * email the query finds nowhere can be appended.
   */
  lemma FreshEmailKeepsUnique(docs: seq<SubscriberDoc>, d: SubscriberDoc)
    requires EmailsUnique(docs) && WithEmail(docs, d.email) == []
    ensures EmailsUnique(docs + [d])
  {
    var all := docs + [d];
    forall i, j | 0 <= i < j < |all|
      ensures all[i].email != all[j].email
    {
      if j == |docs| {
        assert all[i] in docs;
        assert all[i] !in WithEmail(docs, d.email);
      }
    }
  }

  /** The SDK calls the account functions make, in the order they are made. */
  datatype SdkCall =
    | CreateIdentity(email: string, password: string, name: string)
    | CreateEmailPasswordSession(email: string, password: string)
    | GetAccount
    | DeleteCurrentSession

  /** The two collections of the "crypto_portfolio" database, and the account client. */
  class Store {
    var subscribers: seq<SubscriberDoc>
    var holdingDocs: seq<HoldingsDoc>
    /** The next id ID.unique() hands out. */
    var nextId: nat
    /** The account SDK calls made so far. */
    ghost var calls: seq<SdkCall>

    /**
     * Every document id was handed out already, no two documents share one,
     * and no two subscribers share an email.
     */
    ghost predicate Valid()
      reads this
    {
      (forall i :: 0 <= i < |subscribers| ==> subscribers[i].docId < nextId) &&
      (forall i :: 0 <= i < |holdingDocs| ==> holdingDocs[i].docId < nextId) &&
      (forall i, j :: 0 <= i < j < |subscribers| ==> subscribers[i].docId != subscribers[j].docId) &&
      (forall i, j :: 0 <= i < j < |holdingDocs| ==> holdingDocs[i].docId != holdingDocs[j].docId) &&
      EmailsUnique(subscribers)
    }

    constructor ()
      ensures Valid() && subscribers == [] && holdingDocs == [] && calls == []
    {
      calls := [];
      subscribers := [];
      holdingDocs := [];
      nextId := 0;
    }

    /**
     * saveSubscriber: look up the email, fail if it is taken, else insert.
     * listFault and createFault are the errors the two backend calls reject
     * with, if any.
     */
    method SaveSubscriber(email: string, now: string, listFault: Option<string>, createFault: Option<string>)
      returns (r: Outcome<string>)
      requires Valid()
      modifies this`subscribers, this`nextId
      ensures Valid() && holdingDocs == old(holdingDocs)
      ensures listFault.Some? ==> r == Fail(listFault.value)
      ensures listFault.None? && WithEmail(old(subscribers), email) != [] ==> r == Fail(DuplicateMessage)
      ensures listFault.None? && WithEmail(old(subscribers), email) == [] ==>
        r == if createFault.Some? then Fail(createFault.value) else Pass
      ensures r.Pass? ==> subscribers == old(subscribers) + [SubscriberDoc(old(nextId), email, Some(now))]
      ensures r.Fail? ==> subscribers == old(subscribers)
    {
      if listFault.Some? {
        return Fail(listFault.value);
      }
      var existing := WithEmail(subscribers, email);
      if |existing| > 0 {
        return Fail(DuplicateMessage);
      }
      if createFault.Some? {
        return Fail(createFault.value);
      }
      FreshEmailKeepsUnique(subscribers, SubscriberDoc(nextId, email, Some(now)));
      subscribers := subscribers + [SubscriberDoc(nextId, email, Some(now))];
      nextId := nextId + 1;
      r := Pass;
    }

    /** saveHoldings: always a new document, never a change to an old one. */
    method SaveHoldings(userId: string, holdings: seq<Holding>, now: string, fault: Option<string>)
      returns (r: Outcome<string>)
      requires Valid()
      modifies this`holdingDocs, this`nextId
      ensures Valid() && subscribers == old(subscribers)
      ensures r == if fault.Some? then Fail(fault.value) else Pass
      ensures holdingDocs == old(holdingDocs) +
        if fault.None? then [HoldingsDoc(old(nextId), userId, holdings, now)] else []
    {
      if fault.Some? {
        return Fail(fault.value);
      }
      holdingDocs := holdingDocs + [HoldingsDoc(nextId, userId, holdings, now)];
      nextId := nextId + 1;
      r := Pass;
    }

    /** getHoldings: the user's documents; the store is left as it is. */
    method GetHoldings(userId: string, fault: Option<string>) returns (r: Result<seq<HoldingsDoc>, string>)
      ensures fault.Some? ==> r == Failure(fault.value)
      ensures fault.None? ==>
                (r.Success? && forall d :: d in r.value <==> d in holdingDocs && d.userId == userId)
      ensures fault.None? ==> r.value == HoldingsOf(holdingDocs, userId)
    {
      if fault.Some? {
        return Failure(fault.value);
      }
      r := Success(HoldingsOf(holdingDocs, userId));
    }

    /** login: one session call; its error is rethrown as it is. */
    method Login<S>(email: string, password: string, session: Result<S, string>) returns (r: Result<S, string>)
      modifies this`calls
      ensures calls == old(calls) + [CreateEmailPasswordSession(email, password)]
      ensures r == session
      ensures subscribers == old(subscribers) && holdingDocs == old(holdingDocs)
    {
      calls := calls + [CreateEmailPasswordSession(email, password)];
      r := session;
    }

    /**
     * createAccount: create the identity, then log in only if that succeeded;
     * the first error met is rethrown, otherwise the created user is returned.
     */
    method CreateAccount<U, S>(email: string, password: string, name: string,
                               created: Result<U, string>, session: Result<S, string>)
      returns (r: Result<U, string>)
      modifies this`calls
      ensures calls == old(calls) + [CreateIdentity(email, password, name)] +
        if created.Success? then [CreateEmailPasswordSession(email, password)] else []
      ensures r.Success? <==> created.Success? && session.Success?
      ensures r.Success? ==> r == created
      ensures created.Failure? ==> r == Failure(created.error)
      ensures created.Success? && session.Failure? ==> r == Failure(session.error)
      ensures subscribers == old(subscribers) && holdingDocs == old(holdingDocs)
    {
      calls := calls + [CreateIdentity(email, password, name)];
      if created.Failure? {
        return Failure(created.error);
      }
      var s := Login(email, password, session);
      if s.Failure? {
        return Failure(s.error);
      }
      r := created;
    }

    /** getCurrentUser: a failed lookup becomes null rather than an error. */
    method GetCurrentUser<U>(got: Result<U, string>) returns (r: Option<U>)
      modifies this`calls
      ensures calls == old(calls) + [GetAccount]
      ensures r.None? <==> got.Failure?
      ensures got.Success? ==> r == Some(got.value)
      ensures subscribers == old(subscribers) && holdingDocs == old(holdingDocs)
    {
      calls := calls + [GetAccount];
      if got.Failure? {
        return None;
      }
      r := Some(got.value);
    }

    /** logout: deletes the current session; its error is rethrown as it is. */
    method Logout(deleted: Outcome<string>) returns (r: Outcome<string>)
      modifies this`calls
      ensures calls == old(calls) + [DeleteCurrentSession]
      ensures r == deleted
      ensures subscribers == old(subscribers) && holdingDocs == old(holdingDocs)
    {
      calls := calls + [DeleteCurrentSession];
      r := deleted;
    }
  }

  /** The same email saved twice in a row: the first call succeeds, the second is refused. */
  method SaveSubscriberTwice(s: Store, email: string, now1: string, now2: string)
    returns (first: Outcome<string>, second: Outcome<string>)
    requires s.Valid() && WithEmail(s.subscribers, email) == []
    modifies s
    ensures first == Pass && second == Fail(DuplicateMessage)
    ensures s.subscribers == old(s.subscribers) + [SubscriberDoc(old(s.nextId), email, Some(now1))]
  {
    first := s.SaveSubscriber(email, now1, None, None);
    assert SubscriberDoc(old(s.nextId), email, Some(now1)) in WithEmail(s.subscribers, email);
    second := s.SaveSubscriber(email, now2, None, None);
  }

  /** Two saves for one user, then a read: both snapshots come back as two records. */
  method SaveTwiceThenGet(s: Store, userId: string, h1: seq<Holding>, h2: seq<Holding>, t1: string, t2: string)
    returns (got: Result<seq<HoldingsDoc>, string>)
    requires s.Valid()
    modifies s
    ensures got.Success?
    ensures exists i, j :: (0 <= i < j < |got.value| &&
                            got.value[i].holdings == h1 && got.value[j].holdings == h2 &&
                            got.value[i].docId != got.value[j].docId)
  {
    ghost var before := HoldingsOf(s.holdingDocs, userId);
    ghost var docs0 := s.holdingDocs;
    var r1 := s.SaveHoldings(userId, h1, t1, None);
    ghost var d1 := s.holdingDocs[|s.holdingDocs| - 1];
    var r2 := s.SaveHoldings(userId, h2, t2, None);
    ghost var d2 := s.holdingDocs[|s.holdingDocs| - 1];
    got := s.GetHoldings(userId, None);
    HoldingsOfAppend(docs0, d1, userId);
    HoldingsOfAppend(docs0 + [d1], d2, userId);
    assert s.holdingDocs == docs0 + [d1] + [d2];
    assert got.value == before + [d1] + [d2];
    assert d1.docId != d2.docId by {
      assert s.holdingDocs[|docs0|] == d1 && s.holdingDocs[|docs0| + 1] == d2;
    }
    assert got.value[|before|] == d1 && got.value[|before| + 1] == d2;
  }
}
