/** The bookkeeping the store keeps between its collections, stated over the
    collections' contents: natural order, the participant counters and the
    payment records, and how each kind of write keeps it. */
module Ledger {
  import opened Records

  /** `order` lists every key of `m` exactly once: the collection's natural order. */
  ghost predicate Enumerates<T>(order: seq<string>, m: map<string, T>) {
    && (forall i, j :: 0 <= i < j < |order| ==> order[i] != order[j])
    && (forall k :: k in m <==> k in order)
  }

  /** The natural order once the document with `_id` `k` is deleted. */
  function Without(s: seq<string>, k: string): (r: seq<string>)
    ensures forall x :: x in r <==> x in s && x != k
    ensures (forall i, j :: 0 <= i < j < |s| ==> s[i] != s[j]) ==> (forall i, j :: 0 <= i < j < |r| ==> r[i] != r[j])
  {
    if s == [] then []
    else if s[0] == k then Without(s[1..], k)
    else
      assert (forall i, j :: 0 <= i < j < |s| ==> s[i] != s[j]) ==> s[0] !in s[1..];
      [s[0]] + Without(s[1..], k)
  }

  /** An enumeration has exactly as many entries as the map has keys. */
  lemma {:induction false} EnumeratesSize<T>(order: seq<string>, m: map<string, T>)
    requires Enumerates(order, m)
    ensures |order| == |m|
    decreases |order|
  {
    if order == [] {
      assert m.Keys == {};
    } else {
      EnumeratesTail(order, m);
      EnumeratesSize(order[1..], m - {order[0]});
    }
  }

  /** Taking the first key off an enumeration enumerates the rest of the map. */
  lemma EnumeratesTail<T>(order: seq<string>, m: map<string, T>)
    requires Enumerates(order, m) && order != []
    ensures Enumerates(order[1..], m - {order[0]})
    ensures |m| == |m - {order[0]}| + 1
  {
    var k, tail := order[0], order[1..];
    assert k !in tail by {
      forall j | 0 <= j < |tail| ensures tail[j] != k {
        assert tail[j] == order[j + 1];
      }
    }
    forall i, j | 0 <= i < j < |tail| ensures tail[i] != tail[j] {
      assert tail[i] == order[i + 1] && tail[j] == order[j + 1];
    }
    assert order == [k] + tail;
    assert m.Keys == (m - {k}).Keys + {k};
  }

  /** The documents of a collection in its natural order, each with its `_id`. */
  function DocsOf<T>(order: seq<string>, m: map<string, T>): (docs: seq<Doc<T>>)
    requires forall i :: 0 <= i < |order| ==> order[i] in m
    ensures |docs| == |order|
    ensures forall i :: 0 <= i < |order| ==> docs[i] == Doc(order[i], m[order[i]])
  {
    seq(|order|, i requires 0 <= i < |order| => Doc(order[i], m[order[i]]))
  }

  /** Every stored document is listed once, with its own `_id`, and nothing else is. */
  lemma DocsOfAll<T>(order: seq<string>, m: map<string, T>)
    requires Enumerates(order, m)
    ensures |DocsOf(order, m)| == |m|
    ensures forall d :: d in DocsOf(order, m) <==> d.id in m && d.body == m[d.id]
  {
    EnumeratesSize(order, m);
    var docs := DocsOf(order, m);
    forall d: Doc<T> | d.id in m && d.body == m[d.id] ensures d in docs {
      var i :| 0 <= i < |order| && order[i] == d.id;
      assert docs[i] == d;
    }
  }

  // ---- the participant counter ------------------------------------------------

  /** `participantCount`, with an absent counter read as 0 the way `$inc` reads it. */
  function CountOf(c: Camp): int {
    c.participantCount.GetOr(0)
  }

  /** `updateOne({_id: id}, {$inc: {participantCount: delta}})` on the camps. */
  function Bump(camps: map<string, Camp>, id: string, delta: int): (r: map<string, Camp>)
    ensures r.Keys == camps.Keys
    ensures id in camps ==> r[id].participantCount == Some(CountOf(camps[id]) + delta)
    ensures id in camps ==> r[id].fields == camps[id].fields && r[id].createdAt == camps[id].createdAt
                            && r[id].updatedAt == camps[id].updatedAt
    ensures forall c :: c in camps && c != id ==> r[c] == camps[c]
  {
    if id in camps then camps[id := camps[id].(participantCount := Some(CountOf(camps[id]) + delta))]
    else camps
  }

  /** A registration or payment whose `campId` string names the document `id`. */
  predicate Names(campId: string, id: string) {
    ValidId(campId) && ToObjectId(campId) == id
  }

  /** The live registrations of camp `c`. */
  ghost function Registrants(regs: map<string, Registration>, c: string): set<string> {
    set r | r in regs && Names(regs[r].campId, c)
  }

  /** Every camp's counter equals its number of live registrations, and every
      registration names an identifier the store has handed out. */
  ghost predicate CountsMatch(camps: map<string, Camp>, regs: map<string, Registration>, issued: set<string>) {
    && camps.Keys <= issued
    && (forall c :: c in camps ==> CountOf(camps[c]) == |Registrants(regs, c)|)
    && (forall r :: r in regs ==> ValidId(regs[r].campId) && ToObjectId(regs[r].campId) in issued)
  }

  /** Under CountsMatch no counter is negative. */
  lemma CountsNonNegative(camps: map<string, Camp>, regs: map<string, Registration>, issued: set<string>, c: string)
    requires CountsMatch(camps, regs, issued) && c in camps
    ensures CountOf(camps[c]) >= 0
  {
  }

  /** Registering for an existing camp keeps every counter equal to its registrations. */
  lemma RegisterKeepsCounts(camps: map<string, Camp>, regs: map<string, Registration>, issued: set<string>,
                            id: string, reg: Registration)
    requires CountsMatch(camps, regs, issued)
    requires id !in regs
    requires ValidId(reg.campId) && ToObjectId(reg.campId) in camps
    ensures CountsMatch(Bump(camps, ToObjectId(reg.campId), 1), regs[id := reg], issued + {id})
  {
    var target := ToObjectId(reg.campId);
    var camps', regs' := Bump(camps, target, 1), regs[id := reg];
    assert camps'.Keys == camps.Keys && target in issued;
    forall c | c in camps' ensures CountOf(camps'[c]) == |Registrants(regs', c)| {
      RegisterKeepsCount(camps, regs, id, reg, c);
    }
    forall r | r in regs' ensures ValidId(regs'[r].campId) && ToObjectId(regs'[r].campId) in issued + {id} {
    }
  }

  /** One camp's counter after a registration: it moves by one exactly when the
      registration names that camp, and so does its number of registrants. */
  lemma RegisterKeepsCount(camps: map<string, Camp>, regs: map<string, Registration>, id: string,
                           reg: Registration, c: string)
    requires c in camps && CountOf(camps[c]) == |Registrants(regs, c)|
    requires id !in regs && ValidId(reg.campId)
    ensures CountOf(Bump(camps, ToObjectId(reg.campId), 1)[c]) == |Registrants(regs[id := reg], c)|
  {
    RegistrantsAfterInsert(regs, id, reg, c);
    if Names(reg.campId, c) {
      assert id !in Registrants(regs, c);
    }
  }

  /** Inserting registration `id` adds it to the registrants of the camp it names and to no other. */
  lemma RegistrantsAfterInsert(regs: map<string, Registration>, id: string, reg: Registration, c: string)
    requires id !in regs
    ensures Registrants(regs[id := reg], c) == if Names(reg.campId, c) then Registrants(regs, c) + {id} else Registrants(regs, c)
  {
  }

  /** Cancelling a live registration of camp `c` keeps every counter equal to its registrations. */
  lemma CancelKeepsCounts(camps: map<string, Camp>, regs: map<string, Registration>, issued: set<string>,
                          id: string, c: string)
    requires CountsMatch(camps, regs, issued)
    requires id in regs && Names(regs[id].campId, c)
    ensures CountsMatch(Bump(camps, c, -1), regs - {id}, issued)
  {
    var camps', regs' := Bump(camps, c, -1), regs - {id};
    assert camps'.Keys == camps.Keys;
    forall c' | c' in camps' ensures CountOf(camps'[c']) == |Registrants(regs', c')| {
      CancelKeepsCount(camps, regs, id, c, c');
    }
  }

  /** One camp's counter after a cancellation of a registration of camp `c`: it
      drops by one exactly when it is `c`'s, and so does its number of registrants. */
  lemma CancelKeepsCount(camps: map<string, Camp>, regs: map<string, Registration>, id: string, c: string, c': string)
    requires c' in camps && CountOf(camps[c']) == |Registrants(regs, c')|
    requires id in regs && Names(regs[id].campId, c)
    ensures CountOf(Bump(camps, c, -1)[c']) == |Registrants(regs - {id}, c')|
  {
    if c' == c {
      assert Registrants(regs - {id}, c') == Registrants(regs, c') - {id};
    } else {
      assert Registrants(regs - {id}, c') == Registrants(regs, c');
    }
  }

  /** Cancelling with a registration id that names no live registration still
      decrements the counter, so a counter that matched no longer does. */
  lemma CancelOfMissingBreaksCounts(camps: map<string, Camp>, regs: map<string, Registration>, issued: set<string>,
                                    id: string, c: string)
    requires CountsMatch(camps, regs, issued)
    requires id !in regs && c in camps
    ensures !CountsMatch(Bump(camps, c, -1), regs - {id}, issued)
  {
    assert regs - {id} == regs;
  }

  /** A new camp whose body carries no positive counter keeps the counters right:
      nothing can be registered for an identifier not handed out yet. */
  lemma CreateKeepsCounts(camps: map<string, Camp>, regs: map<string, Registration>, issued: set<string>,
                          id: string, camp: Camp)
    requires CountsMatch(camps, regs, issued)
    requires id !in issued && CountOf(camp) == 0
    ensures CountsMatch(camps[id := camp], regs, issued + {id})
  {
    assert Registrants(regs, id) == {} by {
      forall r | r in regs ensures !Names(regs[r].campId, id) {
      }
    }
  }

  /** Deleting a camp, with its registrations left in place, keeps the other counters right. */
  lemma DeleteKeepsCounts(camps: map<string, Camp>, regs: map<string, Registration>, issued: set<string>, id: string)
    requires CountsMatch(camps, regs, issued)
    ensures CountsMatch(camps - {id}, regs, issued)
  {
  }

  /** A registration that keeps its `campId` (a payment flips only its status)
      leaves every counter right. */
  lemma RestatusKeepsCounts(camps: map<string, Camp>, regs: map<string, Registration>, issued: set<string>,
                            id: string, reg: Registration)
    requires CountsMatch(camps, regs, issued)
    requires id in regs && reg.campId == regs[id].campId
    ensures CountsMatch(camps, regs[id := reg], issued)
  {
    forall c | c in camps ensures CountOf(camps[c]) == |Registrants(regs[id := reg], c)| {
      assert Registrants(regs[id := reg], c) == Registrants(regs, c);
    }
  }

  /** Confirming a registration, and handing out the `_id` of its payment record, keeps every counter right. */
  lemma ConfirmKeepsCounts(camps: map<string, Camp>, regs: map<string, Registration>, issued: set<string>, id: string, pid: string)
    requires CountsMatch(camps, regs, issued)
    requires id in regs
    ensures CountsMatch(camps, regs[id := regs[id].(paymentStatus := Paid, confirmationStatus := Confirmed)], issued + {pid})
  {
    RestatusKeepsCounts(camps, regs, issued, id, regs[id].(paymentStatus := Paid, confirmationStatus := Confirmed));
  }

  // ---- payments ---------------------------------------------------------------

  /** The number of payment records whose `campId` names registration `id`. */
  function PaymentsFor(ps: seq<Doc<Payment>>, id: string): (n: nat)
    ensures n <= |ps|
  {
    if ps == [] then 0
    else PaymentsFor(ps[..|ps| - 1], id) + (if Names(ps[|ps| - 1].body.campId, id) then 1 else 0)
  }

  /** No payment names `id`, so none is counted for it. */
  lemma {:induction false} NoPaymentsFor(ps: seq<Doc<Payment>>, id: string)
    requires forall i :: 0 <= i < |ps| ==> !Names(ps[i].body.campId, id)
    ensures PaymentsFor(ps, id) == 0
  {
    if ps != [] {
      NoPaymentsFor(ps[..|ps| - 1], id);
    }
  }

  predicate StatusPaired(r: Registration) {
    || (r.paymentStatus == Unpaid && r.confirmationStatus == Pending)
    || (r.paymentStatus == Paid && r.confirmationStatus == Confirmed)
  }

  /** Every live registration is {unpaid, pending} with no payment record naming
      it, or {paid, confirmed} with exactly one. */
  ghost predicate PaymentsMatch(regs: map<string, Registration>, ps: seq<Doc<Payment>>) {
    forall r :: r in regs ==>
      StatusPaired(regs[r]) && PaymentsFor(ps, r) == if regs[r].paymentStatus == Paid then 1 else 0
  }

  /** Confirming an unpaid registration and appending one payment naming it keeps
      every registration's payment records in step with its status. */
  lemma PayKeepsPayments(regs: map<string, Registration>, ps: seq<Doc<Payment>>, id: string, p: Doc<Payment>)
    requires PaymentsMatch(regs, ps)
    requires id in regs && regs[id].paymentStatus == Unpaid
    requires Names(p.body.campId, id)
    ensures PaymentsMatch(regs[id := regs[id].(paymentStatus := Paid, confirmationStatus := Confirmed)], ps + [p])
  {
    forall r | r in regs ensures PaymentsFor(ps + [p], r) == PaymentsFor(ps, r) + (if r == id then 1 else 0) {
      assert (ps + [p])[..|ps|] == ps;
    }
  }

  /** Every payment names an identifier the store has handed out. */
  ghost predicate PaymentsNamed(ps: seq<Doc<Payment>>, issued: set<string>) {
    forall i :: 0 <= i < |ps| ==> ValidId(ps[i].body.campId) && ToObjectId(ps[i].body.campId) in issued
  }

  // ---- the store invariant and its transitions -------------------------------

  /** What holds of the collections between any two requests: users are keyed by
      their email, each map has its natural order, every stored `_id` was handed
      out, and payments are named and in step with the registrations. */
  ghost predicate StoreInvariant(users: map<string, User>, camps: map<string, Camp>, campOrder: seq<string>,
                                 regs: map<string, Registration>, regOrder: seq<string>,
                                 ps: seq<Doc<Payment>>, issued: set<string>) {
    && (forall e :: e in users ==> users[e].email == e)
    && Enumerates(campOrder, camps)
    && Enumerates(regOrder, regs)
    && camps.Keys <= issued
    && regs.Keys <= issued
    && PaymentsNamed(ps, issued)
    && PaymentsMatch(regs, ps)
  }

  /** Appending a fresh key to a map keeps the order an enumeration of it. */
  lemma EnumeratesAdd<T>(order: seq<string>, m: map<string, T>, k: string, v: T)
    requires Enumerates(order, m) && k !in m
    ensures Enumerates(order + [k], m[k := v])
  {
  }

  /** Deleting a key from a map and from its order keeps the one an enumeration of the other. */
  lemma EnumeratesRemove<T>(order: seq<string>, m: map<string, T>, k: string)
    requires Enumerates(order, m)
    ensures Enumerates(Without(order, k), m - {k})
  {
  }

  /** Storing a user under its own email. */
  lemma PutUser(users: map<string, User>, camps: map<string, Camp>, campOrder: seq<string>,
                regs: map<string, Registration>, regOrder: seq<string>, ps: seq<Doc<Payment>>,
                issued: set<string>, u: User)
    requires StoreInvariant(users, camps, campOrder, regs, regOrder, ps, issued)
    ensures StoreInvariant(users[u.email := u], camps, campOrder, regs, regOrder, ps, issued)
  {
  }

  /** Changing camp documents in place, with the same set of `_id`s. */
  lemma ReplaceCamps(users: map<string, User>, camps: map<string, Camp>, campOrder: seq<string>,
                     regs: map<string, Registration>, regOrder: seq<string>, ps: seq<Doc<Payment>>,
                     issued: set<string>, camps': map<string, Camp>)
    requires StoreInvariant(users, camps, campOrder, regs, regOrder, ps, issued)
    requires camps'.Keys == camps.Keys
    ensures StoreInvariant(users, camps', campOrder, regs, regOrder, ps, issued)
  {
    assert forall k :: k in camps' <==> k in camps;
  }

  /** Inserting a camp under a fresh `_id`. */
  lemma AddCamp(users: map<string, User>, camps: map<string, Camp>, campOrder: seq<string>,
                regs: map<string, Registration>, regOrder: seq<string>, ps: seq<Doc<Payment>>,
                issued: set<string>, id: string, camp: Camp)
    requires StoreInvariant(users, camps, campOrder, regs, regOrder, ps, issued)
    requires id !in issued
    ensures StoreInvariant(users, camps[id := camp], campOrder + [id], regs, regOrder, ps, issued + {id})
  {
    EnumeratesAdd(campOrder, camps, id, camp);
  }

  /** Deleting a camp. */
  lemma RemoveCamp(users: map<string, User>, camps: map<string, Camp>, campOrder: seq<string>,
                   regs: map<string, Registration>, regOrder: seq<string>, ps: seq<Doc<Payment>>,
                   issued: set<string>, id: string)
    requires StoreInvariant(users, camps, campOrder, regs, regOrder, ps, issued)
    ensures StoreInvariant(users, camps - {id}, Without(campOrder, id), regs, regOrder, ps, issued)
  {
    EnumeratesRemove(campOrder, camps, id);
  }

  /** Inserting an {unpaid, pending} registration under a fresh `_id`: no payment
      can name it yet, so the payments stay in step. */
  lemma AddRegistration(users: map<string, User>, camps: map<string, Camp>, campOrder: seq<string>,
                        regs: map<string, Registration>, regOrder: seq<string>, ps: seq<Doc<Payment>>,
                        issued: set<string>, id: string, reg: Registration)
    requires StoreInvariant(users, camps, campOrder, regs, regOrder, ps, issued)
    requires id !in issued && reg.paymentStatus == Unpaid && reg.confirmationStatus == Pending
    ensures StoreInvariant(users, camps, campOrder, regs[id := reg], regOrder + [id], ps, issued + {id})
  {
    EnumeratesAdd(regOrder, regs, id, reg);
    assert forall i :: 0 <= i < |ps| ==> !Names(ps[i].body.campId, id);
    NoPaymentsFor(ps, id);
  }

  /** Deleting a registration. */
  lemma RemoveRegistration(users: map<string, User>, camps: map<string, Camp>, campOrder: seq<string>,
                           regs: map<string, Registration>, regOrder: seq<string>, ps: seq<Doc<Payment>>,
                           issued: set<string>, id: string)
    requires StoreInvariant(users, camps, campOrder, regs, regOrder, ps, issued)
    ensures StoreInvariant(users, camps, campOrder, regs - {id}, Without(regOrder, id), ps, issued)
  {
    EnumeratesRemove(regOrder, regs, id);
  }

  /** Confirming a registration that was not yet {paid, confirmed} and appending,
      under a fresh `_id`, a payment naming it. */
  lemma ConfirmRegistration(users: map<string, User>, camps: map<string, Camp>, campOrder: seq<string>,
                            regs: map<string, Registration>, regOrder: seq<string>, ps: seq<Doc<Payment>>,
                            issued: set<string>, id: string, p: Doc<Payment>)
    requires StoreInvariant(users, camps, campOrder, regs, regOrder, ps, issued)
    requires id in regs && !(regs[id].paymentStatus == Paid && regs[id].confirmationStatus == Confirmed)
    requires Names(p.body.campId, id) && p.id !in issued
    ensures StoreInvariant(users, camps, campOrder,
                           regs[id := regs[id].(paymentStatus := Paid, confirmationStatus := Confirmed)], regOrder,
                           ps + [p], issued + {p.id})
  {
    PayKeepsPayments(regs, ps, id, p);
    var regs' := regs[id := regs[id].(paymentStatus := Paid, confirmationStatus := Confirmed)];
    assert forall k :: k in regs' <==> k in regs;
  }

  /** Handing out an `_id` to a document of a collection the invariant does not constrain. */
  lemma IssueId(users: map<string, User>, camps: map<string, Camp>, campOrder: seq<string>,
                regs: map<string, Registration>, regOrder: seq<string>, ps: seq<Doc<Payment>>,
                issued: set<string>, id: string)
    requires StoreInvariant(users, camps, campOrder, regs, regOrder, ps, issued)
    ensures StoreInvariant(users, camps, campOrder, regs, regOrder, ps, issued + {id})
  {
  }
}
