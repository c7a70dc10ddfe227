/**
 * The vendor-rating comments of `core`: the filtering manager, the cached
 * average on the vendor row, and the save/soft-delete steps that keep it.
 *
 * Averages are exact `real`s; the source's conversion to float and rounding
 * to two places are not part of this model.
 */
module CommentModels {
  import opened Wrappers
  import CustomUserModels
  import EcommerceModels

  type UserId = CustomUserModels.UserId
  /** A comment's primary key: its position in the comment table. */
  type CommentId = nat

  /** A `Comment` row. `text` is the `comment` column. */
  datatype Comment = Comment(
    name: string,
    email: string,
    text: Option<string>,
    vendor: UserId,
    item: Option<EcommerceModels.ItemId>,
    approved: bool,
    deleted: bool,
    rating: real)

  /** The two columns of a vendor's user row that the rating code reads and writes. */
  datatype VendorRow = VendorRow(email: string, avgRating: real)

  /** A comment the manager returns: approved and not soft-deleted. */
  predicate Active(c: Comment)
  {
    c.approved && !c.deleted
  }

  /** `CommentManager.get_queryset`: the ids of the active comments. */
  function ActiveIds(cs: seq<Comment>): (r: set<CommentId>)
    ensures forall i :: i in r <==> 0 <= i < |cs| && cs[i].approved && !cs[i].deleted
  {
    set i | 0 <= i < |cs| && Active(cs[i])
  }

  /** `Comment.objects.filter(vendor=v)`: the vendor's comments among the manager's. */
  function VendorActiveIds(cs: seq<Comment>, v: UserId): set<CommentId>
  {
    set i | i in ActiveIds(cs) && i < |cs| && cs[i].vendor == v
  }

  /** `CustomUser.get_comments`: the vendor's comments filtered on approved and not deleted. */
  function GetComments(cs: seq<Comment>, v: UserId): set<CommentId>
  {
    set i | 0 <= i < |cs| && cs[i].vendor == v && cs[i].approved && !cs[i].deleted
  }

  /** The user-side query and the manager's query select the same comments. */
  lemma GetCommentsAgreesWithManager(cs: seq<Comment>, v: UserId)
    ensures GetComments(cs, v) == VendorActiveIds(cs, v)
    ensures GetComments(cs, v) <= ActiveIds(cs)
  {
  }

  /** How much one comment adds to its vendor's active count and active rating sum. */
  function Counted(c: Comment, v: UserId): nat
  {
    if Active(c) && c.vendor == v then 1 else 0
  }

  function Weight(c: Comment, v: UserId): real
  {
    if Active(c) && c.vendor == v then c.rating else 0.0
  }

  /** The number of active comments on `v`. */
  function ActiveCount(cs: seq<Comment>, v: UserId): nat
  {
    if |cs| == 0 then 0 else ActiveCount(cs[..|cs| - 1], v) + Counted(cs[|cs| - 1], v)
  }

  /** The sum of the ratings of the active comments on `v`. */
  function ActiveSum(cs: seq<Comment>, v: UserId): real
  {
    if |cs| == 0 then 0.0 else ActiveSum(cs[..|cs| - 1], v) + Weight(cs[|cs| - 1], v)
  }

  /** The running count is the size of the manager's query, which is what `.count()` returns. */
  lemma {:induction false} ActiveCountIsQueryCount(cs: seq<Comment>, v: UserId)
    ensures ActiveCount(cs, v) == |VendorActiveIds(cs, v)|
  {
    if |cs| > 0 {
      var n := |cs| - 1;
      var p := cs[..n];
      ActiveCountIsQueryCount(p, v);
      var extra := if Counted(cs[n], v) == 1 then {n} else {};
      assert VendorActiveIds(cs, v) == VendorActiveIds(p, v) + extra;
      assert n !in VendorActiveIds(p, v);
    }
  }

  lemma ActiveTotalsAppend(cs: seq<Comment>, c: Comment, v: UserId)
    ensures ActiveCount(cs + [c], v) == ActiveCount(cs, v) + Counted(c, v)
    ensures ActiveSum(cs + [c], v) == ActiveSum(cs, v) + Weight(c, v)
  {
    assert (cs + [c])[..|cs|] == cs;
  }

  /** A vendor nobody has commented on has count 0 and sum 0. */
  lemma {:induction false} NoCommentsNoTotals(cs: seq<Comment>, v: UserId)
    requires forall i :: 0 <= i < |cs| ==> cs[i].vendor != v
    ensures ActiveCount(cs, v) == 0 && ActiveSum(cs, v) == 0.0
  {
    if |cs| > 0 {
      NoCommentsNoTotals(cs[..|cs| - 1], v);
    }
  }

  /** A vendor with no active comment has an active rating sum of 0. */
  lemma {:induction false} NoCountNoSum(cs: seq<Comment>, v: UserId)
    requires ActiveCount(cs, v) == 0
    ensures ActiveSum(cs, v) == 0.0
  {
    if |cs| > 0 {
      NoCountNoSum(cs[..|cs| - 1], v);
    }
  }

  /** Overwriting row `k` changes the vendor's count and sum only by the old and the new row's share. */
  lemma {:induction false} ActiveTotalsUpdate(cs: seq<Comment>, k: nat, x: Comment, v: UserId)
    requires k < |cs|
    ensures ActiveCount(cs[k := x], v) == ActiveCount(cs, v) - Counted(cs[k], v) + Counted(x, v)
    ensures ActiveSum(cs[k := x], v) == ActiveSum(cs, v) - Weight(cs[k], v) + Weight(x, v)
  {
    var n := |cs| - 1;
    if k < n {
      assert cs[k := x][..n] == cs[..n][k := x];
      ActiveTotalsUpdate(cs[..n], k, x, v);
    } else {
      assert cs[k := x][..n] == cs[..n];
    }
  }

  /** The comment table and the vendors' cached averages. */
  datatype RatingDb = RatingDb(comments: seq<Comment>, vendors: map<UserId, VendorRow>)

  /** Every comment's vendor exists (the foreign key). */
  ghost predicate VendorsExist(db: RatingDb)
  {
    forall i :: 0 <= i < |db.comments| ==> db.comments[i].vendor in db.vendors
  }

  /**
   * The cached average of `v` is the mean of its active ratings, stated
   * without division: average times count is the sum (at count 0 any average
   * satisfies it, since nothing is there to average).
   */
  ghost predicate AvgIsMean(db: RatingDb, v: UserId)
  {
    v in db.vendors ==> db.vendors[v].avgRating * (ActiveCount(db.comments, v) as real) == ActiveSum(db.comments, v)
  }

  ghost predicate AllAvgsAreMeans(db: RatingDb)
  {
    forall v :: AvgIsMean(db, v)
  }

  /** A new vendor has the default average 0 and no comments, so its average is the (empty) mean. */
  lemma NewVendorAvgIsMean(db: RatingDb, v: UserId, email: string)
    requires AllAvgsAreMeans(db)
    requires forall i :: 0 <= i < |db.comments| ==> db.comments[i].vendor != v
    ensures var db' := db.(vendors := db.vendors[v := VendorRow(email, CustomUserModels.DefaultAvgRating)]);
      db'.vendors[v].avgRating == 0.0 && AllAvgsAreMeans(db')
  {
    var db' := db.(vendors := db.vendors[v := VendorRow(email, CustomUserModels.DefaultAvgRating)]);
    NoCommentsNoTotals(db.comments, v);
    forall u ensures AvgIsMean(db', u) {
      assert AvgIsMean(db, u);
    }
  }

  /** `ZeroDivisionError` out of the average update. */
  datatype RatingError = DivisionByZero

  /** Writes a comment row: a new primary key appends, an existing one overwrites. */
  function Persist(cs: seq<Comment>, k: CommentId, c: Comment): (r: seq<Comment>)
    requires k <= |cs|
  {
    if k == |cs| then cs + [c] else cs[k := c]
  }

  /** The new average after folding rating `r` in as the `n`-th rating (`n` >= 1). */
  function Folded(avg: real, n: nat, r: real): real
    requires n >= 1
  {
    (avg * ((n - 1) as real) + r) / (n as real)
  }

  /** The new average after backing rating `r` out of `n` ratings (`n` >= 2). */
  function Unfolded(avg: real, n: nat, r: real): real
    requires n >= 2
  {
    ((n as real) * avg - r) / ((n - 1) as real)
  }

  /**
   * `Comment.save_user_avg_rating` after the row is stored: with `n` the
   * vendor's active count, the average becomes `(old*(n-1) + r)/n`. Only that
   * vendor's row changes; with `n` = 0 it divides by zero.
   */
  function SaveUserAvgRating(db: RatingDb, c: Comment): (r: Result<map<UserId, VendorRow>, RatingError>)
    requires c.vendor in db.vendors
    ensures r.Failure? <==> ActiveCount(db.comments, c.vendor) == 0
    ensures r.Success? ==> r.value.Keys == db.vendors.Keys
    ensures r.Success? ==> r.value[c.vendor].email == db.vendors[c.vendor].email
    ensures r.Success? ==> forall u :: u in db.vendors && u != c.vendor ==> r.value[u] == db.vendors[u]
  {
    var total := ActiveCount(db.comments, c.vendor);
    if total == 0 then Failure(DivisionByZero)
    else
      var row := db.vendors[c.vendor];
      Success(db.vendors[c.vendor := row.(avgRating := Folded(row.avgRating, total, c.rating))])
  }

  /**
   * `Comment.del_user_avg_rating` after the row is flagged: with `n` one more
   * than the vendor's active count, the average becomes `(n*old - r)/(n-1)`.
   * With `n` = 1 it divides by zero.
   */
  function DelUserAvgRating(db: RatingDb, c: Comment): (r: Result<map<UserId, VendorRow>, RatingError>)
    requires c.vendor in db.vendors
    ensures r.Failure? <==> ActiveCount(db.comments, c.vendor) == 0
    ensures r.Success? ==> r.value.Keys == db.vendors.Keys
    ensures r.Success? ==> r.value[c.vendor].email == db.vendors[c.vendor].email
    ensures r.Success? ==> forall u :: u in db.vendors && u != c.vendor ==> r.value[u] == db.vendors[u]
  {
    var total := ActiveCount(db.comments, c.vendor) + 1;
    if total - 1 == 0 then Failure(DivisionByZero)
    else
      var row := db.vendors[c.vendor];
      Success(db.vendors[c.vendor := row.(avgRating := Unfolded(row.avgRating, total, c.rating))])
  }

  /**
   * `Comment.save`: store the row (insert at `k` = the table size, update an
   * existing `k`), then fold its rating into the vendor's average. When the
   * fold raises, the row stays stored and the average is untouched.
   */
  function SaveSpec(db: RatingDb, k: CommentId, c: Comment): (RatingDb, Outcome<RatingError>)
    requires k <= |db.comments| && c.vendor in db.vendors
  {
    var db1 := db.(comments := Persist(db.comments, k, c));
    match SaveUserAvgRating(db1, c)
    case Success(vs) => (db1.(vendors := vs), Pass)
    case Failure(e) => (db1, Fail(e))
  }

  /**
   * `Comment.delete`: flag row `k` deleted and store it through the parent
   * class's save (so no fold runs), then back its rating out of the average.
   */
  function DeleteSpec(db: RatingDb, k: CommentId): (RatingDb, Outcome<RatingError>)
    requires k < |db.comments| && db.comments[k].vendor in db.vendors
  {
    var c := db.comments[k].(deleted := true);
    var db1 := db.(comments := db.comments[k := c]);
    match DelUserAvgRating(db1, c)
    case Success(vs) => (db1.(vendors := vs), Pass)
    case Failure(e) => (db1, Fail(e))
  }

  lemma DivMul(x: real, n: real)
    requires n != 0.0
    ensures (x / n) * n == x
  {
  }

  /** Folding rating `r` into average `a` over `n` ratings leaves `a` in place exactly when `r` is `a`. */
  lemma FoldFixedPoint(a: real, r: real, n: nat)
    requires n >= 1
    ensures var a' := Folded(a, n, r);
      && a' * (n as real) == a * ((n - 1) as real) + r
      && (a' * (n as real) == a * (n as real) <==> r == a)
      && (a' == a <==> r == a)
  {
    var a' := Folded(a, n, r);
    DivMul(a * ((n - 1) as real) + r, n as real);
    assert a * ((n - 1) as real) == a * (n as real) - a;
    if a' == a {
      assert a * (n as real) == a * ((n - 1) as real) + r;
    }
  }

  /** Saving a new active comment keeps every vendor's average equal to the mean of its active ratings. */
  lemma SaveKeepsMeans(db: RatingDb, c: Comment)
    requires AllAvgsAreMeans(db) && c.vendor in db.vendors && Active(c)
    ensures var (db', out) := SaveSpec(db, |db.comments|, c);
      out == Pass && db'.comments == db.comments + [c] && AllAvgsAreMeans(db')
  {
    var v := c.vendor;
    var (db', out) := SaveSpec(db, |db.comments|, c);
    ActiveTotalsAppend(db.comments, c, v);
    var n := ActiveCount(db'.comments, v);
    assert n == ActiveCount(db.comments, v) + 1;
    var a := db.vendors[v].avgRating;
    assert AvgIsMean(db, v);
    DivMul(a * ((n - 1) as real) + c.rating, n as real);
    assert AvgIsMean(db', v);
    forall u | u != v ensures AvgIsMean(db', u) {
      assert AvgIsMean(db, u);
      ActiveTotalsAppend(db.comments, c, u);
    }
  }

  /**
   * Soft-deleting an active comment keeps every average equal to the mean of
   * the remaining active ratings, provided at least one active rating of that
   * vendor remains.
   */
  lemma DeleteKeepsMeans(db: RatingDb, k: CommentId)
    requires AllAvgsAreMeans(db) && k < |db.comments| && db.comments[k].vendor in db.vendors
    requires Active(db.comments[k]) && ActiveCount(db.comments, db.comments[k].vendor) >= 2
    ensures var (db', out) := DeleteSpec(db, k);
      out == Pass && AllAvgsAreMeans(db')
  {
    var c := db.comments[k];
    var v := c.vendor;
    var x := c.(deleted := true);
    var (db', out) := DeleteSpec(db, k);
    ActiveTotalsUpdate(db.comments, k, x, v);
    var n := ActiveCount(db.comments, v);
    var a := db.vendors[v].avgRating;
    assert AvgIsMean(db, v);
    DivMul((n as real) * a - c.rating, (n - 1) as real);
    assert AvgIsMean(db', v);
    forall u | u != v ensures AvgIsMean(db', u) {
      assert AvgIsMean(db, u);
      ActiveTotalsUpdate(db.comments, k, x, u);
    }
  }

  /**
   * Creating a comment with rating `r` and then deleting it restores the
   * vendor rows exactly and leaves the row behind, flagged deleted, whenever
   * the vendor already had an active rating.
   */
  lemma SaveThenDeleteRestores(db: RatingDb, c: Comment)
    requires c.vendor in db.vendors && Active(c) && ActiveCount(db.comments, c.vendor) >= 1
    ensures var (db1, out1) := SaveSpec(db, |db.comments|, c);
      var (db2, out2) := DeleteSpec(db1, |db.comments|);
      && out1 == Pass && out2 == Pass
      && db2.vendors == db.vendors
      && db2.comments == db.comments + [c.(deleted := true)]
  {
    var v := c.vendor;
    var k := |db.comments|;
    var (db1, out1) := SaveSpec(db, k, c);
    ActiveTotalsAppend(db.comments, c, v);
    var x := c.(deleted := true);
    assert db1.comments[k := x] == db.comments + [x];
    ActiveTotalsAppend(db.comments, x, v);
    var (db2, out2) := DeleteSpec(db1, k);
    var m := ActiveCount(db.comments, v);
    var a := db.vendors[v].avgRating;
    var a1 := db1.vendors[v].avgRating;
    assert a1 == (a * (m as real) + c.rating) / ((m + 1) as real);
    DivMul(a * (m as real) + c.rating, (m + 1) as real);
    assert ((m + 1) as real) * a1 - c.rating == a * (m as real);
    assert db2.vendors[v].avgRating == a;
    assert db2.vendors == db.vendors;
  }

  /**
   * Deleting the last active comment of a vendor raises `ZeroDivisionError`:
   * the row is already flagged and stored, and the average is left as it was.
   */
  lemma DeleteLastDividesByZero(db: RatingDb, k: CommentId)
    requires k < |db.comments| && db.comments[k].vendor in db.vendors
    requires Active(db.comments[k]) && ActiveCount(db.comments, db.comments[k].vendor) == 1
    ensures DeleteSpec(db, k) == (db.(comments := db.comments[k := db.comments[k].(deleted := true)]), Fail(DivisionByZero))
  {
    ActiveTotalsUpdate(db.comments, k, db.comments[k].(deleted := true), db.comments[k].vendor);
  }

  /** Deletion is soft on every path: the row is kept, flagged, and leaves the active set; no other row changes. */
  lemma DeleteIsSoft(db: RatingDb, k: CommentId)
    requires k < |db.comments| && db.comments[k].vendor in db.vendors
    ensures var db' := DeleteSpec(db, k).0;
      && |db'.comments| == |db.comments|
      && db'.comments[k] == db.comments[k].(deleted := true)
      && k !in ActiveIds(db'.comments)
      && forall i :: 0 <= i < |db.comments| && i != k ==> db'.comments[i] == db.comments[i]
  {
  }

  /**
   * Re-saving an active comment folds its rating in a second time: the
   * average stays put exactly when the rating already equals it.
   */
  lemma ResaveRefolds(db: RatingDb, k: CommentId)
    requires k < |db.comments| && db.comments[k].vendor in db.vendors && Active(db.comments[k])
    ensures var (db', out) := SaveSpec(db, k, db.comments[k]);
      && out == Pass
      && db'.comments == db.comments
      && (db'.vendors[db.comments[k].vendor].avgRating == db.vendors[db.comments[k].vendor].avgRating
          <==> db.comments[k].rating == db.vendors[db.comments[k].vendor].avgRating)
  {
    var c := db.comments[k];
    var v := c.vendor;
    assert db.comments[k := c] == db.comments;
    ActiveTotalsUpdate(db.comments, k, c.(deleted := true), v);
    FoldFixedPoint(db.vendors[v].avgRating, c.rating, ActiveCount(db.comments, v));
  }

  /**
   * An unapproved comment is stored and its rating folded in, but it is not
   * counted: starting from a correct average, the average stays the mean of
   * the active ratings exactly when the rating already equals it.
   */
  lemma SaveUnapprovedSkewsMean(db: RatingDb, c: Comment)
    requires c.vendor in db.vendors && !c.approved && AvgIsMean(db, c.vendor)
    requires ActiveCount(db.comments, c.vendor) >= 1
    ensures var (db', out) := SaveSpec(db, |db.comments|, c);
      && out == Pass
      && db'.comments == db.comments + [c]
      && (AvgIsMean(db', c.vendor) <==> c.rating == db.vendors[c.vendor].avgRating)
  {
    var v := c.vendor;
    ActiveTotalsAppend(db.comments, c, v);
    FoldFixedPoint(db.vendors[v].avgRating, c.rating, ActiveCount(db.comments, v));
  }

  /** An unapproved comment on a vendor without active comments is stored, then the fold divides by zero. */
  lemma SaveUncountedDividesByZero(db: RatingDb, c: Comment)
    requires c.vendor in db.vendors && !Active(c) && ActiveCount(db.comments, c.vendor) == 0
    ensures SaveSpec(db, |db.comments|, c) == (db.(comments := db.comments + [c]), Fail(DivisionByZero))
  {
    ActiveTotalsAppend(db.comments, c, c.vendor);
  }

  /** The comment table and the vendors' average column, updated in place by `Comment.save` and `Comment.delete`. */
  class CommentStore {
    var comments: seq<Comment>
    var vendors: map<UserId, VendorRow>

    function State(): RatingDb
      reads this
    {
      RatingDb(comments, vendors)
    }

    constructor (vendors: map<UserId, VendorRow>)
      ensures this.vendors == vendors && comments == []
    {
      this.vendors := vendors;
      comments := [];
    }

    /** `Comment.save` of `c` under primary key `k`. */
    method Save(k: CommentId, c: Comment) returns (res: Outcome<RatingError>)
      requires k <= |comments| && c.vendor in vendors
      modifies this
      ensures (State(), res) == SaveSpec(old(State()), k, c)
      ensures old(AllAvgsAreMeans(State())) && k == old(|comments|) && Active(c) ==> res == Pass && AllAvgsAreMeans(State())
    {
      ghost var before := State();
      // super().save(): insert or update the row
      if k == |comments| {
        comments := comments + [c];
      } else {
        comments := comments[k := c];
      }
      // save_user_avg_rating()
      ghost var stored := State();
      var total := ActiveCount(comments, c.vendor);
      if total == 0 {
        res := Fail(DivisionByZero);
        assert SaveUserAvgRating(stored, c).Failure?;
      } else {
        var row := vendors[c.vendor];
        var avg := Folded(row.avgRating, total, c.rating);
        vendors := vendors[c.vendor := row.(avgRating := avg)];
        res := Pass;
        assert row == stored.vendors[c.vendor];
        assert SaveUserAvgRating(stored, c).value[c.vendor] == vendors[c.vendor];
        assert SaveUserAvgRating(stored, c) == Success(vendors);
      }
      assert comments == Persist(before.comments, k, c);
      if AllAvgsAreMeans(before) && k == |before.comments| && Active(c) {
        SaveKeepsMeans(before, c);
      }
    }

    /** `Comment.delete` of row `k`. */
    method Delete(k: CommentId) returns (res: Outcome<RatingError>)
      requires k < |comments| && comments[k].vendor in vendors
      modifies this
      ensures (State(), res) == DeleteSpec(old(State()), k)
      ensures old(AllAvgsAreMeans(State())) && old(Active(comments[k]) && ActiveCount(comments, comments[k].vendor) >= 2)
              ==> res == Pass && AllAvgsAreMeans(State())
    {
      ghost var before := State();
      // self.deleted = True; super().save()
      var c := comments[k].(deleted := true);
      comments := comments[k := c];
      // del_user_avg_rating()
      ghost var stored := State();
      var total := ActiveCount(comments, c.vendor) + 1;
      if total - 1 == 0 {
        res := Fail(DivisionByZero);
      } else {
        var row := vendors[c.vendor];
        var avg := Unfolded(row.avgRating, total, c.rating);
        vendors := vendors[c.vendor := row.(avgRating := avg)];
        res := Pass;
        assert row == stored.vendors[c.vendor];
        assert DelUserAvgRating(stored, c).value[c.vendor] == vendors[c.vendor];
        assert DelUserAvgRating(stored, c) == Success(vendors);
      }
      assert comments == before.comments[k := c];
      if AllAvgsAreMeans(before) && Active(before.comments[k]) && ActiveCount(before.comments, c.vendor) >= 2 {
        DeleteKeepsMeans(before, k);
      }
    }
  }
}
