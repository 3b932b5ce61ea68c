/**
 * The relational store behind `INotificationRepository`
 * (src/repository/NotificationRepository.go), kept as an in-memory table of
 * rows in store order plus the primary-key sequence.
 */
module Repository {
  import opened Wrappers
  import opened Model

  /**
   * The ways a store call can fail: a connectivity failure, a value a column
   * refuses, an exhausted primary-key sequence, or a primary-key violation.
   */
  datatype StorageError = Unreachable | ValueRejected | SequenceExhausted | DuplicateKey(id: int)

  // ---------------------------------------------------------------------------
  // Column types. `AutoMigrate` maps a Go `int` field to a Postgres `integer`
  // (the primary key to `serial`) and a Go `string` to `text`.
  // ---------------------------------------------------------------------------

  /** The range of a Postgres `integer`, which is also the range of a `serial` sequence. */
  const MinInt4: int := -0x8000_0000
  const MaxInt4: int := 0x7FFF_FFFF

  predicate Int4(x: int)
  {
    MinInt4 <= x <= MaxInt4
  }

  /** A string Postgres accepts as `text`, whether as a value or as a query parameter: no NUL character. */
  predicate StorableText(s: string)
  {
    '\0' !in s
  }

  /** A row the columns accept: its id and type fit an `integer`, and both texts are storable. */
  predicate Storable(n: Notification)
  {
    Int4(n.id) &&
    (n.notificationType.Some? ==> Int4(n.notificationType.value)) &&
    StorableText(n.message) && StorableText(n.userAuth0ID)
  }

  // ---------------------------------------------------------------------------
  // Owner matching. Reads and deletes select rows by different rules; the two
  // rules are kept side by side so that the difference stays visible.
  // ---------------------------------------------------------------------------

  /** Read rule: `user_auth0_id = ?`, equality on the whole identity string. */
  predicate ExactMatch(owner: string, n: Notification)
  {
    n.userAuth0ID == owner
  }

  predicate EndsWith(s: string, suffix: string)
  {
    |suffix| <= |s| && s[|s| - |suffix|..] == suffix
  }

  /** Delete rule: `user_auth0_id LIKE '%<segment>'`, a suffix match. */
  predicate DeleteMatch(segment: string, n: Notification)
  {
    EndsWith(n.userAuth0ID, segment)
  }

  /**
   * The delete rule is the LIKE pattern `%<segment>` read literally: the
   * identity is some text (what `%` stands for) followed by the segment.
   */
  lemma DeleteMatchIsLikePattern(segment: string, n: Notification)
    ensures DeleteMatch(segment, n) <==>
            exists k :: 0 <= k <= |n.userAuth0ID| && n.userAuth0ID[..k] + segment == n.userAuth0ID
  {
    var s := n.userAuth0ID;
    if EndsWith(s, segment) {
      assert s[..|s| - |segment|] + segment == s;
    }
    forall k | 0 <= k <= |s| && s[..k] + segment == s ensures EndsWith(s, segment) {
      assert s[k..] == segment;
    }
  }

  /**
   * A segment that reads literally inside a quoted LIKE pattern: no `%` or `_`
   * wildcard, no backslash escape and no quote that would end the literal.
   */
  predicate PlainSegment(segment: string)
  {
    '%' !in segment && '_' !in segment && '\\' !in segment && '\'' !in segment
  }

  /** Index of the first occurrence of `c` in `s`. */
  function IndexOf(s: string, c: char): (i: nat)
    requires c in s
    ensures i < |s| && s[i] == c && c !in s[..i]
  {
    if s[0] == c then 0 else 1 + IndexOf(s[1..], c)
  }

  /**
   * `strings.Split(u, "|")[1]`: the text after the first `|`, up to the next
   * `|` or the end of `u`. Defined only when `u` holds a `|`; otherwise the
   * source indexes past the end of the split and panics.
   */
  function Segment(u: string): (seg: string)
    requires '|' in u
    ensures '|' !in seg
    ensures var rest := u[IndexOf(u, '|') + 1..];
            seg <= rest && (|seg| == |rest| || rest[|seg|] == '|')
  {
    var rest := u[IndexOf(u, '|') + 1..];
    if '|' in rest then rest[..IndexOf(rest, '|')] else rest
  }

  /** An identity with exactly one `|`, so that its segment is everything after the bar. */
  predicate SingleBar(u: string)
  {
    '|' in u && '|' !in u[IndexOf(u, '|') + 1..]
  }

  /** For an identity `<provider>|<local>` with no further `|`, the segment is the local part. */
  lemma SegmentOfPair(provider: string, local: string)
    requires '|' !in provider && '|' !in local
    ensures Segment(provider + "|" + local) == local
  {
    var u := provider + "|" + local;
    assert u[|provider|] == '|';
    assert u[|provider| + 1..] == local;
  }

  /** Which rows a filter keeps: those owned by `owner`, or those a delete by `segment` spares. */
  datatype Keep = OwnedBy(owner: string) | NotDeletedBy(segment: string)

  predicate Keeps(k: Keep, n: Notification)
  {
    match k
    case OwnedBy(owner) => ExactMatch(owner, n)
    case NotDeletedBy(segment) => !DeleteMatch(segment, n)
  }

  /** `a` is `b` with some elements left out, the rest in their order. */
  ghost predicate Subsequence(a: seq<Notification>, b: seq<Notification>)
    decreases |b|
  {
    if a == [] then true
    else if b == [] then false
    else (a[0] == b[0] && Subsequence(a[1..], b[1..])) || Subsequence(a, b[1..])
  }

  /**
   * The rows of `s` that `k` keeps: every kept row exactly as often as it
   * occurs in `s`, and nothing else. FilterInOrder adds that they stay in
   * store order.
   */
  function Filter(s: seq<Notification>, k: Keep): (r: seq<Notification>)
    ensures forall x :: multiset(r)[x] == if Keeps(k, x) then multiset(s)[x] else 0
  {
    if s == [] then []
    else
      assert s == [s[0]] + s[1..];
      if Keeps(k, s[0]) then [s[0]] + Filter(s[1..], k) else Filter(s[1..], k)
  }

  /** Every row of a table has a distinct id (the primary key). */
  ghost predicate UniqueIds(s: seq<Notification>)
  {
    forall i, j :: 0 <= i < j < |s| ==> s[i].id != s[j].id
  }

  /** The primary-key sequence is ahead of every stored id. */
  ghost predicate IdsBelow(rows: seq<Notification>, nextId: int)
  {
    forall x :: x in rows ==> x.id < nextId
  }

  predicate HasId(s: seq<Notification>, id: int)
  {
    exists x :: x in s && x.id == id
  }

  /**
   * The primary key an insert uses: a blank (zero) key is filled from the
   * sequence, any other key is inserted as given.
   */
  function AssignedId(n: Notification, nextId: int): int
  {
    if n.id == 0 then nextId else n.id
  }

  /** A blank key needs a sequence value, and `nextval` has none past the `integer` range. */
  predicate Drawable(n: Notification, nextId: int)
  {
    n.id != 0 || nextId <= MaxInt4
  }

  /** The table and the sequence after an insert, with the call's error. */
  datatype InsertResult = InsertResult(rows: seq<Notification>, nextId: GoInt, result: Outcome<StorageError>)

  /**
   * `Database.Create`: on an unreachable store nothing happens; a value the
   * columns refuse, or a blank key when the sequence is exhausted, fails
   * before a sequence value is drawn; otherwise a blank key draws the next
   * sequence value (consumed even if the insert then fails) and the row is
   * appended unless its key is already taken.
   */
  function Insert(rows: seq<Notification>, nextId: GoInt, n: Notification, reachable: bool): (out: InsertResult)
    ensures !reachable ==> out == InsertResult(rows, nextId, Fail(Unreachable))
    ensures reachable && !Storable(n) ==> out == InsertResult(rows, nextId, Fail(ValueRejected))
    ensures reachable && Storable(n) && !Drawable(n, nextId) ==>
              out == InsertResult(rows, nextId, Fail(SequenceExhausted))
    ensures reachable && Storable(n) && Drawable(n, nextId) ==>
              out.nextId == (if n.id == 0 then nextId + 1 else nextId) &&
              (out.result.Fail? ==>
                 out.result.error == DuplicateKey(AssignedId(n, nextId)) &&
                 HasId(rows, AssignedId(n, nextId)))
    ensures out.result.Fail? ==> out.rows == rows
    ensures out.result.Pass? ==>
              reachable && Storable(n) && Drawable(n, nextId) &&
              out.rows == rows + [n.(id := AssignedId(n, nextId))] &&
              !HasId(rows, AssignedId(n, nextId))
    ensures UniqueIds(rows) ==> UniqueIds(out.rows)
  {
    if !reachable then InsertResult(rows, nextId, Fail(Unreachable))
    else if !Storable(n) then InsertResult(rows, nextId, Fail(ValueRejected))
    else if !Drawable(n, nextId) then InsertResult(rows, nextId, Fail(SequenceExhausted))
    else
      var id := AssignedId(n, nextId);
      var next := if n.id == 0 then nextId + 1 else nextId;
      if HasId(rows, id) then InsertResult(rows, next, Fail(DuplicateKey(id)))
      else InsertResult(rows + [n.(id := id)], next, Pass)
  }

  /**
   * On a table whose ids all lie below the sequence, a storable row with a
   * blank key is always inserted, under the key the sequence hands out.
   */
  lemma BlankKeyInsertSucceeds(rows: seq<Notification>, nextId: GoInt, n: Notification)
    requires IdsBelow(rows, nextId)
    requires n.id == 0 && Storable(n) && nextId <= MaxInt4
    ensures Insert(rows, nextId, n, true) == InsertResult(rows + [n.(id := nextId)], nextId + 1, Pass)
  {
  }

  // ---------------------------------------------------------------------------
  // Properties of Filter.
  // ---------------------------------------------------------------------------

  /** A filter keeps the store order of the rows it keeps. */
  lemma {:induction false} FilterInOrder(s: seq<Notification>, k: Keep)
    ensures Subsequence(Filter(s, k), s)
  {
    if s != [] {
      FilterInOrder(s[1..], k);
    }
  }

  /** Filtering a table made of two parts filters each part. */
  lemma {:induction false} FilterAppend(a: seq<Notification>, b: seq<Notification>, k: Keep)
    ensures Filter(a + b, k) == Filter(a, k) + Filter(b, k)
  {
    if a == [] {
      assert a + b == b;
    } else {
      assert (a + b)[1..] == a[1..] + b;
      FilterAppend(a[1..], b, k);
    }
  }

  /** A row in a filtered table is a row of the table that the filter keeps. */
  lemma FilterMember(s: seq<Notification>, k: Keep, x: Notification)
    ensures x in Filter(s, k) <==> x in s && Keeps(k, x)
  {
    var r := Filter(s, k);
    assert x in r <==> multiset(r)[x] > 0;
    assert x in s <==> multiset(s)[x] > 0;
  }

  /** A filter that keeps every row leaves the table as it is. */
  lemma {:induction false} FilterKeepsAll(s: seq<Notification>, k: Keep)
    requires forall x :: x in s ==> Keeps(k, x)
    ensures Filter(s, k) == s
  {
    if s != [] {
      var t := s[1..];
      assert Keeps(k, s[0]) by {
        assert s[0] in s;
      }
      forall x | x in t ensures Keeps(k, x) {
        assert x in s;
      }
      FilterKeepsAll(t, k);
      assert s == [s[0]] + t;
    }
  }

  /** A filter that keeps no row empties the table. */
  lemma FilterKeepsNone(s: seq<Notification>, k: Keep)
    requires forall x :: x in s ==> !Keeps(k, x)
    ensures Filter(s, k) == []
  {
    var r := Filter(s, k);
    if r != [] {
      FilterMember(s, k, r[0]);
      assert false;
    }
  }

  /** Filtering twice by the same rule is filtering once. */
  lemma FilterIdempotent(s: seq<Notification>, k: Keep)
    ensures Filter(Filter(s, k), k) == Filter(s, k)
  {
    forall x | x in Filter(s, k) ensures Keeps(k, x) {
      FilterMember(s, k, x);
    }
    FilterKeepsAll(Filter(s, k), k);
  }

  /** Two filters applied in either order give the same table. */
  lemma {:induction false} FilterCommutes(s: seq<Notification>, k1: Keep, k2: Keep)
    ensures Filter(Filter(s, k1), k2) == Filter(Filter(s, k2), k1)
  {
    if s != [] {
      FilterCommutes(s[1..], k1, k2);
    }
  }

  /** A row whose id no row of `t` has can be put in front of `t`. */
  lemma UniqueIdsCons(x: Notification, t: seq<Notification>)
    requires UniqueIds(t)
    requires forall y :: y in t ==> y.id != x.id
    ensures UniqueIds([x] + t)
  {
    var s := [x] + t;
    forall i, j | 0 <= i < j < |s| ensures s[i].id != s[j].id {
      assert s[j] == t[j - 1];
      if i > 0 {
        assert s[i] == t[i - 1];
      }
    }
  }

  /** Filtering keeps ids distinct. */
  lemma {:induction false} FilterUniqueIds(s: seq<Notification>, k: Keep)
    requires UniqueIds(s)
    ensures UniqueIds(Filter(s, k))
  {
    if s != [] {
      var t := s[1..];
      assert UniqueIds(t) by {
        forall i, j | 0 <= i < j < |t| ensures t[i].id != t[j].id {
          assert t[i] == s[i + 1] && t[j] == s[j + 1];
        }
      }
      FilterUniqueIds(t, k);
      if Keeps(k, s[0]) {
        forall y | y in Filter(t, k) ensures y.id != s[0].id {
          FilterMember(t, k, y);
          var m :| 0 <= m < |t| && t[m] == y;
          assert s[m + 1] == y;
        }
        UniqueIdsCons(s[0], Filter(t, k));
      }
    }
  }

  // ---------------------------------------------------------------------------
  // The read/delete asymmetry.
  // ---------------------------------------------------------------------------

  /**
   * When the identity holds a single `|`, its segment is its whole local part,
   * so every row a read returns for it is also removed by a delete.
   */
  lemma SingleBarDeleteCoversRead(u: string, n: Notification)
    requires SingleBar(u)
    requires ExactMatch(u, n)
    ensures DeleteMatch(Segment(u), n)
  {
    var k := IndexOf(u, '|');
    assert Segment(u) == u[k + 1..];
  }

  /** A row a read returns can survive the delete for the same identity. */
  lemma ReadRowSurvivesDelete()
    ensures var u := "p|a|b";
            var n := Notification(1, "hello", u, Some(Like));
            ExactMatch(u, n) && !DeleteMatch(Segment(u), n)
  {
    var u := "p|a|b";
    assert u[0] != '|' && u[1] == '|';
    assert IndexOf(u, '|') == 1;
    var rest := u[2..];
    assert rest == "a|b";
    assert IndexOf(rest, '|') == 1;
    assert Segment(u) == "a";
  }

  /** A delete for one identity removes rows of another owner that share its local part. */
  lemma DeleteReachesOtherOwner()
    ensures var u := "p|7";
            var n := Notification(1, "hello", "q|7", Some(Follow));
            !ExactMatch(u, n) && DeleteMatch(Segment(u), n) &&
            Filter([n], NotDeletedBy(Segment(u))) == [] &&
            Filter([n], OwnedBy(u)) == []
  {
    var u := "p|7";
    assert u[0] != '|' && u[1] == '|';
    assert IndexOf(u, '|') == 1;
    assert Segment(u) == "7";
  }

  /**
   * `NotificationRepository`: the table and the primary-key sequence, changed
   * in place by its methods.
   */
  class NotificationRepository {
    var rows: seq<Notification>
    var nextId: GoInt

    /** The primary key holds: no two rows share an id. */
    ghost predicate Valid()
      reads this
    {
      UniqueIds(rows)
    }

    /**
     * `NewNotificationRepository`: the repository over a database connection,
     * here the table's current rows and the value the sequence hands out next.
     * A brand-new `serial` column starts at 1; a table emptied by a delete
     * keeps its sequence where it was.
     */
    constructor (rows0: seq<Notification>, nextId0: GoInt)
      requires UniqueIds(rows0)
      requires forall x :: x in rows0 ==> Storable(x)
      requires 1 <= nextId0 <= MaxInt4 + 1
      ensures Valid()
      ensures rows == rows0 && nextId == nextId0
    {
      rows := rows0;
      nextId := nextId0;
    }

    /**
     * `AddNotification`: the insert of `n`, returning the store's error
     * unchanged. `Create` reads the key back (`RETURNING`) into the caller's
     * record; `written` is that record afterwards: the stored row on success,
     * `n` as passed otherwise.
     */
    method AddNotification(n: Notification, reachable: bool) returns (err: Outcome<StorageError>, written: Notification)
      requires Valid()
      modifies this
      ensures Valid()
      ensures InsertResult(rows, nextId, err) == Insert(old(rows), old(nextId), n, reachable)
      ensures written == if err.Pass? then n.(id := AssignedId(n, old(nextId))) else n
      ensures err.Pass? ==> written == rows[|rows| - 1]
    {
      written := n;
      if !reachable {
        return Fail(Unreachable), written;
      }
      if !Storable(n) {
        return Fail(ValueRejected), written;
      }
      if !Drawable(n, nextId) {
        return Fail(SequenceExhausted), written;
      }
      var id := n.id;
      if id == 0 {
        id := nextId;
        nextId := nextId + 1;
      }
      if HasId(rows, id) {
        return Fail(DuplicateKey(id)), written;
      }
      written := n.(id := id);
      rows := rows + [written];
      err := Pass;
    }

    /**
     * `GetNotificationsByUserAuth0ID`: the rows owned by exactly `owner`, in
     * store order; `None` (a nil slice) when the query fails, because the
     * store is unreachable or refuses an owner holding NUL as a parameter.
     */
    method GetNotificationsByUserAuth0ID(owner: string, reachable: bool) returns (res: Option<seq<Notification>>)
      ensures reachable && StorableText(owner) ==> res.Some? && res.value == Filter(rows, OwnedBy(owner))
      ensures !reachable || !StorableText(owner) ==> res == None
    {
      if !reachable || !StorableText(owner) {
        return None;
      }
      res := Some(Filter(rows, OwnedBy(owner)));
    }

    /**
     * `DeleteNotificationsByUserAuth0ID`: removes every row whose identity ends
     * with the segment of `u`, keeping the rest in order. The statement's error
     * is discarded, so an unreachable store is left as it was and the caller
     * cannot tell.
     */
    method DeleteNotificationsByUserAuth0ID(u: string, reachable: bool)
      requires '|' in u && PlainSegment(Segment(u))
      requires Valid()
      modifies this
      ensures Valid()
      ensures nextId == old(nextId)
      ensures rows == if reachable then Filter(old(rows), NotDeletedBy(Segment(u))) else old(rows)
    {
      if reachable {
        FilterUniqueIds(rows, NotDeletedBy(Segment(u)));
        rows := Filter(rows, NotDeletedBy(Segment(u)));
      }
    }
  }
}
