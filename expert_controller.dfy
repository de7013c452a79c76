/** The expert endpoints (server/src/controllers/expert.controller.ts): create,
    owner-scoped lookup and listing, update and delete over the store's expert
    collection. Identifiers in the request are taken to be well-formed. */
module ExpertController {
  import opened Wrappers
  import opened Mongoose
  import opened ExpertModel
  import opened Store
  import opened Http
  import Sequences
  import Text

  /** `createExpert`: the body's five fields with the requester as owner, whatever
      the body says about the owner; 201 with the record, or 500 with the
      validation message and nothing stored. */
  method CreateExpert(db: Database, requester: Id, input: ExpertInput, now: int) returns (reply: Reply<Expert>)
    requires db.Valid()
    modifies db
    ensures db.Valid()
    ensures db.calls == old(db.calls) && db.users == old(db.users)
    ensures match ExpertModel.CreateExpert(input, requester, old(db.nextId), now)
      case Failure(e) => reply == Error(500, e) && db.experts == old(db.experts)
      case Success(x) =>
        && reply == Reply(201, x) && x.userId == requester
        && x.id !in old(db.experts) && db.experts == old(db.experts)[x.id := x]
  {
    var id := db.NewId();
    var created := ExpertModel.CreateExpert(input, requester, id, now);
    if created.Failure? {
      return ServerError(created.error, "Error creating expert");
    }
    var expert := created.value;
    db.PutExpert(expert);
    return Reply(201, expert);
  }

  /** `getExpertById`: the expert when it exists and is the requester's, 404 otherwise. */
  function GetExpertById(experts: map<Id, Expert>, requester: Id, expertId: Id): (r: Reply<Expert>)
    ensures r.Reply? <==> OwnsExpert(experts, requester, expertId)
    ensures r.Reply? ==> r.code == 200 && r.data == experts[expertId] && r.data.userId == requester
    ensures r.Error? ==> r == Error(404, "Expert not found")
  {
    if OwnsExpert(experts, requester, expertId) then Reply(200, experts[expertId]) else Error(404, "Expert not found")
  }

  /** The query of `getUserExperts`: the requester's experts, of the given type when a
      non-empty one is supplied. */
  predicate Selected(e: Expert, requester: Id, expertType: Option<string>) {
    e.userId == requester && (!Text.Truthy(expertType) || TypeText(e.expertType) == expertType.value)
  }

  /** `.sort({ name: 1 })`. */
  predicate ByName(a: Expert, b: Expert) {
    Text.StringLe(a.name, b.name)
  }

  lemma ByNameTotalPreorder()
    ensures Sequences.TotalPreorder(ByName)
  {
    forall a: Expert, b: Expert ensures ByName(a, b) || ByName(b, a) {
      Text.StringLeTotal(a.name, b.name);
    }
    forall a: Expert, b: Expert, c: Expert | ByName(a, b) && ByName(b, c) ensures ByName(a, c) {
      Text.StringLeTransitive(a.name, b.name, c.name);
    }
  }

  /** `getUserExperts` over the documents with identifiers below `nextId`. */
  function GetUserExperts(experts: map<Id, Expert>, nextId: nat, requester: Id, expertType: Option<string>)
    : (r: Listing<Expert>)
    ensures r.count == |r.data|
    ensures forall e :: e in r.data ==> e in experts.Values && Selected(e, requester, expertType)
    ensures forall k :: k < nextId && k in experts && Selected(experts[k], requester, expertType) ==> experts[k] in r.data
    ensures Sequences.Sorted(r.data, ByName)
    ensures (forall k :: k in experts ==> experts[k].id == k) ==>
      forall i, j :: 0 <= i < j < |r.data| ==> r.data[i].id != r.data[j].id
  {
    var keep := (e: Expert) => Selected(e, requester, expertType);
    var found := Scan(experts, nextId, keep);
    var sorted := Sequences.InsertionSort(found, ByName);
    ByNameTotalPreorder();
    Sequences.InsertionSortCorrect(found, ByName);
    assert forall k :: k < nextId && k in experts && Selected(experts[k], requester, expertType) ==> experts[k] in sorted by {
      forall k | k < nextId && k in experts && Selected(experts[k], requester, expertType)
        ensures experts[k] in sorted
      {
        ScanComplete(experts, nextId, keep, k);
        assert experts[k] in multiset(found);
      }
    }
    assert forall e :: e in sorted ==> e in found by {
      forall e | e in sorted ensures e in found {
        assert e in multiset(sorted);
      }
    }
    var key := (e: Expert) => e.id;
    if forall k :: k in experts ==> experts[k].id == k then
      ScanIncreasing(experts, nextId, keep, key);
      Sequences.InsertionSortDistinct(found, ByName, key);
      Listing(|sorted|, sorted)
    else
      Listing(|sorted|, sorted)
  }

  /** `updateExpert`: 404 and no change unless the expert is the requester's;
      otherwise the validated update of the five fields, 200 with the updated
      record or 500 with the validation message and no change. The owner, the
      identifier and every other expert are kept. */
  method UpdateExpert(db: Database, requester: Id, expertId: Id, input: ExpertInput, now: int)
    returns (reply: Reply<Expert>)
    requires db.Valid()
    modifies db
    ensures db.Valid()
    ensures db.calls == old(db.calls) && db.users == old(db.users) && db.nextId == old(db.nextId)
    ensures !OwnsExpert(old(db.experts), requester, expertId) ==>
      reply == Error(404, "Expert not found") && db.experts == old(db.experts)
    ensures OwnsExpert(old(db.experts), requester, expertId) ==>
      match ExpertModel.UpdateExpert(old(db.experts)[expertId], input, now)
      case Failure(e) => reply == Error(500, e) && db.experts == old(db.experts)
      case Success(u) =>
        && reply == Reply(200, u) && db.experts == old(db.experts)[expertId := u]
        && u.userId == requester && u.id == expertId
    ensures reply.Reply? && ValidExpert(old(db.experts)[expertId]) ==> ValidExpert(reply.data)
  {
    if !OwnsExpert(db.experts, requester, expertId) {
      return Error(404, "Expert not found");
    }
    var updated := ExpertModel.UpdateExpert(db.experts[expertId], input, now);
    if updated.Failure? {
      return ServerError(updated.error, "Error updating expert");
    }
    if ValidExpert(db.experts[expertId]) {
      UpdateKeepsValid(db.experts[expertId], input, now);
    }
    db.PutExpert(updated.value);
    return Reply(200, updated.value);
  }

  /** `deleteExpert`: removes the requester's expert with that identifier and nothing
      else; 404 and no change when there is none. */
  method DeleteExpert(db: Database, requester: Id, expertId: Id) returns (reply: Reply<()>)
    requires db.Valid()
    modifies db
    ensures db.Valid()
    ensures db.calls == old(db.calls) && db.users == old(db.users) && db.nextId == old(db.nextId)
    ensures reply.Reply? <==> OwnsExpert(old(db.experts), requester, expertId)
    ensures reply.Reply? ==> reply.code == 200 && db.experts == old(db.experts) - {expertId}
    ensures reply.Error? ==> reply == Error(404, "Expert not found") && db.experts == old(db.experts)
  {
    if !OwnsExpert(db.experts, requester, expertId) {
      return Error(404, "Expert not found");
    }
    db.experts := db.experts - {expertId};
    return Reply(200, ());
  }

  /** A created expert is found by its owner under its new identifier. */
  lemma CreateThenLookup(experts: map<Id, Expert>, requester: Id, input: ExpertInput, id: Id, now: int)
    requires ExpertModel.CreateExpert(input, requester, id, now).Success?
    ensures var x := ExpertModel.CreateExpert(input, requester, id, now).value;
      GetExpertById(experts[id := x], requester, id) == Reply(200, x)
  {
  }

  /** A requester only ever sees their own experts. */
  lemma OwnershipIsolation(experts: map<Id, Expert>, nextId: nat, requester: Id, expertId: Id,
                           expertType: Option<string>)
    ensures GetExpertById(experts, requester, expertId).Reply? ==>
      GetExpertById(experts, requester, expertId).data.userId == requester
    ensures forall e :: e in GetUserExperts(experts, nextId, requester, expertType).data ==> e.userId == requester
  {
  }

  /** After a delete the expert can no longer be found by anyone, and every other
      lookup answers as before. */
  lemma DeleteThenLookup(experts: map<Id, Expert>, requester: Id, expertId: Id, other: Id, anyone: Id)
    requires OwnsExpert(experts, requester, expertId)
    ensures GetExpertById(experts - {expertId}, anyone, expertId) == Error(404, "Expert not found")
    ensures other != expertId ==>
      GetExpertById(experts - {expertId}, anyone, other) == GetExpertById(experts, anyone, other)
  {
  }
}
