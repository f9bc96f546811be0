/** The dashboard's statistics (cms_app/routes.py, dashboard): a total, five
    per-status counts and a count per category, over all complaints for an
    admin and over the actor's own complaints otherwise. */
module Dashboard {
  import opened Forms
  import opened Models

  /** The dashboard's user_filter: no filter for an admin, the actor's own complaints otherwise. */
  predicate Visible(actor: User, c: Complaint) {
    actor.isAdmin || c.userId == actor.id
  }

  /** The complaint list the dashboard loads; its length is the total. */
  function Scoped(actor: User, cs: seq<Complaint>): (r: seq<Complaint>)
    ensures |r| <= |cs|
    ensures forall c :: c in r <==> c in cs && Visible(actor, c)
  {
    if cs == [] then []
    else if Visible(actor, cs[0]) then [cs[0]] + Scoped(actor, cs[1..])
    else Scoped(actor, cs[1..])
  }

  /** The scoped list keeps every visible complaint as often as the table holds it and
      nothing else, so its length is the number of visible rows. */
  lemma {:induction false} ScopedCounts(actor: User, cs: seq<Complaint>)
    ensures forall c :: multiset(Scoped(actor, cs))[c] == if Visible(actor, c) then multiset(cs)[c] else 0
  {
    if cs != [] {
      ScopedCounts(actor, cs[1..]);
      assert cs == [cs[0]] + cs[1..];
    }
  }

  /** One per-status query: the complaints with status s that pass user_filter. */
  function CountStatus(actor: User, cs: seq<Complaint>, s: Status): (n: nat)
    ensures n <= |Scoped(actor, cs)|
  {
    if cs == [] then 0
    else (if Visible(actor, cs[0]) && cs[0].status == s then 1 else 0) + CountStatus(actor, cs[1..], s)
  }

  /** One row of the category group-by: the complaints of category k that pass the filter. */
  function CountCategory(actor: User, cs: seq<Complaint>, k: Category): (n: nat)
    ensures n <= |Scoped(actor, cs)|
  {
    if cs == [] then 0
    else (if Visible(actor, cs[0]) && cs[0].category == k then 1 else 0) + CountCategory(actor, cs[1..], k)
  }

  datatype Stats = Stats(
    total: nat,
    pending: nat,
    inProgress: nat,
    resolved: nat,
    approved: nat,
    denied: nat,
    byCategory: map<Category, nat>)

  /** A group-by result has a row only for a category that occurs. */
  function Get(m: map<Category, nat>, k: Category): nat {
    if k in m then m[k] else 0
  }

  function SumByCategory(m: map<Category, nat>): nat {
    Get(m, Academic) + Get(m, Facilities) + Get(m, Transport) + Get(m, Hostel) + Get(m, Administration)
  }

  function SumByStatus(st: Stats): nat {
    st.pending + st.inProgress + st.resolved + st.approved + st.denied
  }

  const Categories: set<Category> := {Academic, Facilities, Transport, Hostel, Administration}

  lemma CategoryListed(k: Category)
    ensures k in Categories
  {
    match k
    case Academic =>
    case Facilities =>
    case Transport =>
    case Hostel =>
    case Administration =>
  }

  function CategoryCounts(actor: User, cs: seq<Complaint>): map<Category, nat> {
    map k | k in Categories && CountCategory(actor, cs, k) > 0 :: CountCategory(actor, cs, k)
  }

  /** The statistics the dashboard renders. */
  function Compute(actor: User, cs: seq<Complaint>): (r: Stats)
    ensures r.total == |Scoped(actor, cs)|
    ensures actor.isAdmin ==> r.total == |cs|
    ensures r.pending == CountStatus(actor, cs, Pending)
    ensures r.inProgress == CountStatus(actor, cs, InProgress)
    ensures r.resolved == CountStatus(actor, cs, Resolved)
    ensures r.approved == CountStatus(actor, cs, Approved)
    ensures r.denied == CountStatus(actor, cs, Denied)
    ensures SumByStatus(r) == r.total
    ensures SumByCategory(r.byCategory) == r.total
    ensures forall k :: k in r.byCategory ==> 0 < r.byCategory[k] == CountCategory(actor, cs, k)
    ensures forall k :: k !in r.byCategory ==> CountCategory(actor, cs, k) == 0
  {
    StatusCountsSum(actor, cs);
    CategoryCountsSum(actor, cs);
    AdminSeesAll(actor, cs);
    assert forall k :: CountCategory(actor, cs, k) > 0 ==> k in CategoryCounts(actor, cs) by {
      forall k { CategoryListed(k); }
    }
    Stats(
      |Scoped(actor, cs)|,
      CountStatus(actor, cs, Pending),
      CountStatus(actor, cs, InProgress),
      CountStatus(actor, cs, Resolved),
      CountStatus(actor, cs, Approved),
      CountStatus(actor, cs, Denied),
      CategoryCounts(actor, cs))
  }

  /** For an admin the filter is empty: every complaint is in scope. */
  lemma {:induction false} AdminSeesAll(actor: User, cs: seq<Complaint>)
    ensures actor.isAdmin ==> Scoped(actor, cs) == cs
  {
    if cs != [] {
      AdminSeesAll(actor, cs[1..]);
      assert cs == [cs[0]] + cs[1..];
    }
  }

  /** Every complaint in scope has exactly one of the five statuses, so the five counts add up to the total. */
  lemma {:induction false} StatusCountsSum(actor: User, cs: seq<Complaint>)
    ensures CountStatus(actor, cs, Pending) + CountStatus(actor, cs, InProgress) + CountStatus(actor, cs, Resolved)
            + CountStatus(actor, cs, Approved) + CountStatus(actor, cs, Denied) == |Scoped(actor, cs)|
  {
    if cs != [] {
      StatusCountsSum(actor, cs[1..]);
    }
  }

  /** The category rows add up to the total. */
  lemma {:induction false} CategoryCountsSum(actor: User, cs: seq<Complaint>)
    ensures SumByCategory(CategoryCounts(actor, cs)) == |Scoped(actor, cs)|
  {
    var m := CategoryCounts(actor, cs);
    forall k ensures Get(m, k) == CountCategory(actor, cs, k) {
      CategoryListed(k);
    }
    CategorySum(actor, cs);
  }

  lemma {:induction false} CategorySum(actor: User, cs: seq<Complaint>)
    ensures CountCategory(actor, cs, Academic) + CountCategory(actor, cs, Facilities)
            + CountCategory(actor, cs, Transport) + CountCategory(actor, cs, Hostel)
            + CountCategory(actor, cs, Administration) == |Scoped(actor, cs)|
  {
    if cs != [] {
      CategorySum(actor, cs[1..]);
    }
  }

  lemma {:induction false} ScopedIdempotent(actor: User, cs: seq<Complaint>)
    ensures Scoped(actor, Scoped(actor, cs)) == Scoped(actor, cs)
  {
    if cs != [] {
      ScopedIdempotent(actor, cs[1..]);
      if Visible(actor, cs[0]) {
        var r := [cs[0]] + Scoped(actor, cs[1..]);
        assert r[0] == cs[0] && r[1..] == Scoped(actor, cs[1..]);
      }
    }
  }

  lemma {:induction false} CountStatusInScope(actor: User, cs: seq<Complaint>, s: Status)
    ensures CountStatus(actor, Scoped(actor, cs), s) == CountStatus(actor, cs, s)
  {
    if cs != [] {
      CountStatusInScope(actor, cs[1..], s);
      var rest := Scoped(actor, cs[1..]);
      if Visible(actor, cs[0]) {
        var r := [cs[0]] + rest;
        assert r[0] == cs[0] && r[1..] == rest;
        assert CountStatus(actor, r, s) == (if cs[0].status == s then 1 else 0) + CountStatus(actor, rest, s);
      }
    }
  }

  lemma {:induction false} CountCategoryInScope(actor: User, cs: seq<Complaint>, k: Category)
    ensures CountCategory(actor, Scoped(actor, cs), k) == CountCategory(actor, cs, k)
  {
    if cs != [] {
      CountCategoryInScope(actor, cs[1..], k);
      var rest := Scoped(actor, cs[1..]);
      if Visible(actor, cs[0]) {
        var r := [cs[0]] + rest;
        assert r[0] == cs[0] && r[1..] == rest;
        assert CountCategory(actor, r, k) == (if cs[0].category == k then 1 else 0) + CountCategory(actor, rest, k);
      }
    }
  }

  /** Complaints out of scope make no difference: the dashboard computed over the
      scoped list alone equals the one computed over the whole table. For a
      non-admin this says only complaints whose owner is the actor are counted. */
  lemma OnlyScopeCounts(actor: User, cs: seq<Complaint>)
    ensures Compute(actor, Scoped(actor, cs)) == Compute(actor, cs)
  {
    var sc := Scoped(actor, cs);
    ScopedIdempotent(actor, cs);
    forall s { CountStatusInScope(actor, cs, s); }
    forall k { CountCategoryInScope(actor, cs, k); }
    assert CategoryCounts(actor, sc) == CategoryCounts(actor, cs);
  }
}
