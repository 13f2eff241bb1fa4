/** Counting rows of a table, the operation behind every `select count(*)` of the control plane. */
module Tables {
  datatype Option<+T> = None | Some(value: T) {
    function GetOr(default: T): T {
      match this
      case Some(v) => v
      case None => default
    }
  }

  function Count<T>(rows: seq<T>, p: T -> bool): nat {
    if rows == [] then 0
    else Count(rows[..|rows| - 1], p) + (if p(rows[|rows| - 1]) then 1 else 0)
  }

  lemma CountAppend<T>(rows: seq<T>, row: T, p: T -> bool)
    ensures Count(rows + [row], p) == Count(rows, p) + (if p(row) then 1 else 0)
  {
    assert (rows + [row])[..|rows|] == rows;
  }

  lemma CountNext<T>(rows: seq<T>, i: nat, p: T -> bool)
    requires i < |rows|
    ensures Count(rows[..i + 1], p) == Count(rows[..i], p) + (if p(rows[i]) then 1 else 0)
  {
    CountAppend(rows[..i], rows[i], p);
    assert rows[..i] + [rows[i]] == rows[..i + 1];
  }

  lemma {:induction false} CountUpdate<T>(rows: seq<T>, i: nat, row: T, p: T -> bool)
    requires i < |rows|
    ensures Count(rows[i := row], p) + (if p(rows[i]) then 1 else 0)
         == Count(rows, p) + (if p(row) then 1 else 0)
  {
    var last := |rows| - 1;
    if i == last {
      assert rows[i := row][..last] == rows[..last];
    } else {
      assert rows[i := row][..last] == rows[..last][i := row];
      CountUpdate(rows[..last], i, row, p);
    }
  }

  /** Rows edited in place are counted alike when the predicates agree row by row. */
  lemma {:induction false} CountSame<T>(a: seq<T>, b: seq<T>, p: T -> bool, q: T -> bool)
    requires |a| == |b|
    requires forall i :: 0 <= i < |a| ==> p(a[i]) == q(b[i])
    ensures Count(a, p) == Count(b, q)
  {
    if a != [] {
      CountSame(a[..|a| - 1], b[..|b| - 1], p, q);
    }
  }

  lemma {:induction false} CountZero<T>(rows: seq<T>, p: T -> bool)
    ensures Count(rows, p) == 0 <==> forall i :: 0 <= i < |rows| ==> !p(rows[i])
  {
    if rows != [] {
      var last := |rows| - 1;
      CountZero(rows[..last], p);
      if Count(rows, p) == 0 {
        forall i | 0 <= i < |rows| ensures !p(rows[i]) {
          if i < last {
            assert rows[..last][i] == rows[i];
          }
        }
      } else if Count(rows[..last], p) != 0 {
        var i :| 0 <= i < last && p(rows[..last][i]);
        assert p(rows[i]);
      }
    }
  }

  /** A prefix never counts more than the whole. */
  lemma {:induction false} CountPrefix<T>(rows: seq<T>, k: nat, p: T -> bool)
    requires k <= |rows|
    ensures Count(rows[..k], p) <= Count(rows, p)
  {
    if k < |rows| {
      var last := |rows| - 1;
      assert rows[..last][..k] == rows[..k];
      CountPrefix(rows[..last], k, p);
    } else {
      assert rows[..k] == rows;
    }
  }

  /** `order_by(... desc()).limit(1)`: the newest row that satisfies `p`. */
  function Last<T>(rows: seq<T>, p: T -> bool): (found: Option<nat>)
    ensures found.Some? ==> found.value < |rows| && p(rows[found.value])
    ensures found.Some? ==> forall i :: found.value < i < |rows| ==> !p(rows[i])
    ensures found.None? ==> forall i :: 0 <= i < |rows| ==> !p(rows[i])
  {
    if rows == [] then None
    else if p(rows[|rows| - 1]) then Some(|rows| - 1)
    else
      var found := Last(rows[..|rows| - 1], p);
      assert forall i :: 0 <= i < |rows| - 1 ==> rows[..|rows| - 1][i] == rows[i];
      found
  }

  predicate Has<T>(rows: seq<T>, p: T -> bool) {
    exists i :: 0 <= i < |rows| && p(rows[i])
  }

  /** The decimal text of a number. */
  function Decimal(n: nat): string {
    (if n < 10 then "" else Decimal(n / 10)) + ["0123456789"[n % 10]]
  }
}
