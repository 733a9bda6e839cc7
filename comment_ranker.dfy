/**
 * The ordering of the comment list: a copy of the comments sorted with the
 * comparator of the selected mode ("recent", "popular" or "random").
 *
 * `Array.prototype.sort` is a stable sort: an element that comes earlier in
 * the input stays ahead of a later one unless the comparator returns a
 * positive number for the pair. The insertion sort below has exactly that
 * behaviour and asks the comparator about each pair at most once, with the
 * earlier element first.
 */
module CommentRanker {
  import opened Wrappers
  import opened Utf16

  datatype Comment = Comment(
    id: string,
    content: Text,
    userId: string,
    userName: Option<string>,
    createdAt: Option<int>,   // milliseconds since the epoch
    userAvatar: Option<string>)

  datatype SortMode = Recent | Popular | Random

  /** `new Date(c.createdAt ?? 0).getTime()`: a missing timestamp is the epoch. */
  function Timestamp(c: Comment): (t: int)
    ensures c.createdAt.Some? ==> t == c.createdAt.value
    ensures c.createdAt.None? ==> t == 0
  {
    c.createdAt.GetOr(0)
  }

  /**
   * The comparator. In random mode the sign comes from `draw`, which stands
   * for `Math.random() - 0.5` evaluated at that comparison.
   */
  function Compare(mode: SortMode, draw: (Comment, Comment) -> int, a: Comment, b: Comment): (r: int)
    ensures mode == Random ==> r == draw(a, b)
    ensures mode != Random ==> (r < 0 <==> Key(mode, a) > Key(mode, b))
    ensures mode != Random ==> (r == 0 <==> Key(mode, a) == Key(mode, b))
    ensures mode != Random ==> (r > 0 <==> Key(mode, a) < Key(mode, b))
  {
    if mode == Random then draw(a, b)
    else if mode == Popular then |b.content| - |a.content|
    else Timestamp(b) - Timestamp(a)
  }

  /** The quantity a deterministic mode ranks by, largest first. */
  function Key(mode: SortMode, c: Comment): int
    requires mode != Random
  {
    if mode == Popular then |c.content| else Timestamp(c)
  }

  /** Ranked by `mode`: no comment is followed by one with a larger key. */
  ghost predicate Ranked(mode: SortMode, s: seq<Comment>)
    requires mode != Random
  {
    forall i, j | 0 <= i < j < |s| :: Key(mode, s[i]) >= Key(mode, s[j])
  }

  /** The comments of `s` whose key is `k`, in their order in `s`. */
  function WithKey(mode: SortMode, s: seq<Comment>, k: int): seq<Comment>
    requires mode != Random
  {
    if s == [] then [] else KeyedOnly(mode, s[0], k) + WithKey(mode, s[1..], k)
  }

  /** `[c]` when `c` has key `k`, else nothing. */
  function KeyedOnly(mode: SortMode, c: Comment, k: int): seq<Comment>
    requires mode != Random
  {
    if Key(mode, c) == k then [c] else []
  }

  /** Place `x`, which came before every element of `s`, into the sorted `s`. */
  function Insert(mode: SortMode, draw: (Comment, Comment) -> int, x: Comment, s: seq<Comment>): (r: seq<Comment>)
    ensures multiset(r) == multiset(s) + multiset{x}
  {
    if s == [] then [x]
    else if Compare(mode, draw, x, s[0]) <= 0 then [x] + s
    else
      assert s == [s[0]] + s[1..];
      [s[0]] + Insert(mode, draw, x, s[1..])
  }

  /** Inserting into a ranked sequence keeps it ranked. */
  lemma {:induction false} InsertRanked(mode: SortMode, draw: (Comment, Comment) -> int, x: Comment, s: seq<Comment>)
    requires mode != Random && Ranked(mode, s)
    ensures Ranked(mode, Insert(mode, draw, x, s))
  {
    if s != [] && Compare(mode, draw, x, s[0]) > 0 {
      var t := Insert(mode, draw, x, s[1..]);
      var r := [s[0]] + t;
      InsertRanked(mode, draw, x, s[1..]);
      forall j | 0 <= j < |t| ensures Key(mode, s[0]) >= Key(mode, t[j]) {
        assert t[j] in multiset(t);
        assert t[j] in multiset(s[1..]) || t[j] == x;
        if t[j] != x {
          var k :| 0 <= k < |s[1..]| && s[1..][k] == t[j];
          assert s[k + 1] == t[j];
        }
      }
      assert Insert(mode, draw, x, s) == r;
    }
  }

  /** `[...comments].sort(comparator)`. */
  function SortComments(mode: SortMode, draw: (Comment, Comment) -> int, comments: seq<Comment>): (r: seq<Comment>)
    ensures multiset(r) == multiset(comments)
    ensures |r| == |comments|
    ensures mode != Random ==> Ranked(mode, r)
  {
    if comments == [] then []
    else
      assert comments == [comments[0]] + comments[1..];
      var rest := SortComments(mode, draw, comments[1..]);
      if mode != Random then InsertRanked(mode, draw, comments[0], rest); Insert(mode, draw, comments[0], rest)
      else Insert(mode, draw, comments[0], rest)
  }

  /**
   * The sort is stable in the deterministic modes: the comments sharing a key
   * keep their input order.
   */
  lemma {:induction false} SortIsStable(mode: SortMode, draw: (Comment, Comment) -> int, comments: seq<Comment>, k: int)
    requires mode != Random
    ensures WithKey(mode, SortComments(mode, draw, comments), k) == WithKey(mode, comments, k)
  {
    if comments != [] {
      var rest := SortComments(mode, draw, comments[1..]);
      SortIsStable(mode, draw, comments[1..], k);
      InsertWithKey(mode, draw, comments[0], rest, k);
    }
  }

  lemma {:induction false} InsertWithKey(mode: SortMode, draw: (Comment, Comment) -> int, x: Comment, s: seq<Comment>, k: int)
    requires mode != Random
    ensures WithKey(mode, Insert(mode, draw, x, s), k) == KeyedOnly(mode, x, k) + WithKey(mode, s, k)
  {
    var r := Insert(mode, draw, x, s);
    if s == [] {
      WithKeyCons(mode, x, [], k);
    } else if Compare(mode, draw, x, s[0]) <= 0 {
      WithKeyCons(mode, x, s, k);
    } else {
      var t := Insert(mode, draw, x, s[1..]);
      assert r == [s[0]] + t;
      InsertWithKey(mode, draw, x, s[1..], k);
      PassedKeyStep(mode, x, s, t, k);
    }
  }

  /** Passing over a head with a larger key does not change which comments with key `k` come first. */
  lemma PassedKeyStep(mode: SortMode, x: Comment, s: seq<Comment>, t: seq<Comment>, k: int)
    requires mode != Random
    requires s != [] && Key(mode, s[0]) > Key(mode, x)
    requires WithKey(mode, t, k) == KeyedOnly(mode, x, k) + WithKey(mode, s[1..], k)
    ensures WithKey(mode, [s[0]] + t, k) == KeyedOnly(mode, x, k) + WithKey(mode, s, k)
  {
    WithKeyCons(mode, s[0], t, k);
    WithKeyCons(mode, s[0], s[1..], k);
    assert s == [s[0]] + s[1..];
    assert KeyedOnly(mode, x, k) == [] || KeyedOnly(mode, s[0], k) == [];
  }

  lemma WithKeyCons(mode: SortMode, a: Comment, t: seq<Comment>, k: int)
    requires mode != Random
    ensures WithKey(mode, [a] + t, k) == KeyedOnly(mode, a, k) + WithKey(mode, t, k)
  {
    assert ([a] + t)[1..] == t;
  }

  /**
   * In recent mode a comment without a timestamp is never placed ahead of
   * one with a positive timestamp.
   */
  lemma UndatedNeverAheadOfDated(draw: (Comment, Comment) -> int, comments: seq<Comment>)
    ensures var r := SortComments(Recent, draw, comments);
            forall i, j | 0 <= i < j < |r| && r[i].createdAt == None :: Timestamp(r[j]) <= 0
  {
    var r := SortComments(Recent, draw, comments);
    forall i, j | 0 <= i < j < |r| && r[i].createdAt == None ensures Timestamp(r[j]) <= 0 {
      assert Key(Recent, r[i]) >= Key(Recent, r[j]);
    }
  }

  /**
   * `[...comments].sort(...)`: the sort works on a fresh copy, so the array
   * the component received is left as it was.
   */
  method SortedCopy(mode: SortMode, draw: (Comment, Comment) -> int, comments: array<Comment>) returns (sorted: array<Comment>)
    ensures fresh(sorted)
    ensures sorted[..] == SortComments(mode, draw, comments[..])
  {
    var r := SortComments(mode, draw, comments[..]);
    sorted := new Comment[|r|](i requires 0 <= i < |r| => r[i]);
  }
}
