/** The document store the server works against: one keyed collection per model,
    with identifiers handed out by a counter so that a new document never reuses
    the key of an existing one. */
module Store {
  import opened Mongoose
  import opened CallModel
  import opened ExpertModel

  /** `find(query)` in the collection's natural order: the documents with
      identifiers below `n` that `keep` accepts, by increasing identifier. */
  function Scan<T(==)>(docs: map<Id, T>, n: nat, keep: T -> bool): (r: seq<T>)
    ensures |r| <= n
    ensures forall x :: x in r ==> x in docs.Values && keep(x)
  {
    if n == 0 then []
    else Scan(docs, n - 1, keep) + (if n - 1 in docs && keep(docs[n - 1]) then [docs[n - 1]] else [])
  }

  /** Every accepted document below the bound is found. */
  lemma {:induction false} ScanComplete<T>(docs: map<Id, T>, n: nat, keep: T -> bool, k: Id)
    requires k < n && k in docs && keep(docs[k])
    ensures docs[k] in Scan(docs, n, keep)
  {
    if k < n - 1 {
      ScanComplete(docs, n - 1, keep, k);
    }
  }

  /** When every document is stored under its own key, `find` returns the documents
      by strictly increasing key, so none is listed twice. */
  lemma {:induction false} ScanIncreasing<T>(docs: map<Id, T>, n: nat, keep: T -> bool, key: T -> Id)
    requires forall k :: k in docs ==> key(docs[k]) == k
    ensures forall x :: x in Scan(docs, n, keep) ==> key(x) < n
    ensures forall i, j :: 0 <= i < j < |Scan(docs, n, keep)| ==>
      key(Scan(docs, n, keep)[i]) < key(Scan(docs, n, keep)[j])
  {
    if n > 0 {
      ScanIncreasing(docs, n - 1, keep, key);
      var front := Scan(docs, n - 1, keep);
      var r := Scan(docs, n, keep);
      forall x | x in r ensures key(x) < n {
        if x !in front {
          assert x == docs[n - 1];
        }
      }
      forall i, j | 0 <= i < j < |r| ensures key(r[i]) < key(r[j]) {
        assert r[i] == front[i];
        if j >= |front| {
          assert r[j] == docs[n - 1];
          assert front[i] in front;
        } else {
          assert r[j] == front[j];
        }
      }
    }
  }

  /** `Expert.findOne({ _id: id, userId: requester })` finds a document. */
  predicate OwnsExpert(experts: map<Id, Expert>, requester: Id, id: Id) {
    id in experts && experts[id].userId == requester
  }

  /** `Call.findOne({ _id: id, userId: requester })` finds a document. */
  predicate OwnsCall(calls: map<Id, Call>, requester: Id, id: Id) {
    id in calls && calls[id].userId == requester
  }

  /** The account fields the call flow reads. The User schema itself
      (server/src/models/user.model.ts) is not part of this model. */
  datatype User = User(id: Id, firstName: string, lastName: string, email: string)

  class Database {
    var calls: map<Id, Call>
    var experts: map<Id, Expert>
    var users: map<Id, User>
    var nextId: nat

    /** Every document is stored under its own identifier, and every identifier in
        use is below the counter. */
    ghost predicate Valid()
      reads this
    {
      && (forall k :: k in calls ==> k < nextId && calls[k].id == k)
      && (forall k :: k in experts ==> k < nextId && experts[k].id == k)
      && (forall k :: k in users ==> k < nextId && users[k].id == k)
    }

    constructor ()
      ensures Valid()
      ensures calls == map[] && experts == map[] && users == map[] && nextId == 0
    {
      calls := map[];
      experts := map[];
      users := map[];
      nextId := 0;
    }

    /** A fresh identifier, unused in every collection. */
    method NewId() returns (id: Id)
      requires Valid()
      modifies this
      ensures Valid()
      ensures id == old(nextId) && nextId == id + 1
      ensures id !in calls && id !in experts && id !in users
      ensures calls == old(calls) && experts == old(experts) && users == old(users)
    {
      id := nextId;
      nextId := nextId + 1;
    }

    /** Writes a call document under its own identifier, which must have been
        handed out already. */
    method PutCall(c: Call)
      requires Valid() && c.id < nextId
      modifies this
      ensures Valid()
      ensures calls == old(calls)[c.id := c]
      ensures experts == old(experts) && users == old(users) && nextId == old(nextId)
    {
      calls := calls[c.id := c];
    }

    /** Writes an expert document under its own identifier, which must have been
        handed out already. */
    method PutExpert(e: Expert)
      requires Valid() && e.id < nextId
      modifies this
      ensures Valid()
      ensures experts == old(experts)[e.id := e]
      ensures calls == old(calls) && users == old(users) && nextId == old(nextId)
    {
      experts := experts[e.id := e];
    }
  }
}
