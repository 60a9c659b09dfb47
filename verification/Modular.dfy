/** Division with remainder, and cursors that move around a ring. */
module Modular {
  /** The remainder of `a` on a ring of `n` positions. */
  function Mod(a: int, n: nat): (r: nat)
    requires 0 < n
    ensures r < n
  {
    a % n
  }

  lemma QuotientIsUnique(n: nat, q: int, r: nat, q': int, r': nat)
    requires n * q + r == n * q' + r' && r < n && r' < n
    ensures q == q' && r == r'
  {
    assert n * (q - q') == n * q - n * q';
    assert n * (q' - q) == n * q' - n * q;
    if q > q' {
      ProductAtLeast(n, q - q');
    } else if q < q' {
      ProductAtLeast(n, q' - q);
    }
  }

  lemma ProductAtLeast(n: nat, k: nat)
    requires k >= 1
    ensures n * k >= n
  {
    assert n * k == n * (k - 1) + n;
  }

  lemma DivisionIsUnique(a: int, n: nat, q: int, r: nat)
    requires 0 < n && a == n * q + r && r < n
    ensures a / n == q && a % n == r
  {
    QuotientIsUnique(n, q, r, a / n, a % n);
  }

  lemma ModuloLaps(x: nat, n: nat, laps: int)
    requires x < n
    ensures Mod(x + n * laps, n) == x
  {
    DivisionIsUnique(x + n * laps, n, laps, x);
  }

  lemma Quotient(a: int, n: nat) returns (q: int)
    requires 0 < n
    ensures a == n * q + Mod(a, n)
  {
    q := a / n;
  }

  /** The offset from a cursor is the cyclic distance to the position it reaches. */
  lemma CyclicOffset(cursor: nat, offset: nat, n: nat)
    requires offset < n
    ensures Mod(Mod(cursor + offset, n) - cursor, n) == offset
  {
    var laps := (cursor + offset) / n;
    assert Mod(cursor + offset, n) - cursor == offset + n * (-laps);
    ModuloLaps(offset, n, -laps);
  }

  /** A cursor that advances by the cyclic distance lands on the target. */
  lemma DistanceReaches(cursor: nat, target: nat, n: nat)
    requires target < n
    ensures Mod(cursor + Mod(target - cursor, n), n) == target
  {
    var laps := (target - cursor) / n;
    assert cursor + Mod(target - cursor, n) == target + n * (-laps);
    ModuloLaps(target, n, -laps);
  }

  /** Moving a cursor just past offset `passed` brings every later target closer by that much. */
  lemma CursorAdvances(cursor: nat, passed: nat, target: nat, n: nat)
    requires passed < n && target < n && Mod(target - cursor, n) > passed
    ensures Mod(target - Mod(Mod(cursor + passed, n) + 1, n), n) == Mod(target - cursor, n) - passed - 1
  {
    hide Mod;
    var distance := Mod(target - cursor, n);
    var a := Quotient(target - cursor, n);
    var b := Quotient(cursor + passed, n);
    var c := Quotient(Mod(cursor + passed, n) + 1, n);
    assert n * (a + b + c) == n * a + n * b + n * c;
    ModuloLaps(distance - passed - 1, n, a + b + c);
  }

  lemma WholeLaps(a: int, n: nat, laps: int)
    requires 0 < n
    ensures Mod(a + n * laps, n) == Mod(a, n)
  {
    var q := Quotient(a, n);
    assert n * (q + laps) == n * q + n * laps;
    ModuloLaps(Mod(a, n), n, q + laps);
  }

  /** A cursor that does not reach the end of the ring moves as a plain sum. */
  lemma SameLap(cursor: int, distance: nat, n: nat)
    requires 0 < n && Mod(cursor, n) + distance < n
    ensures Mod(cursor + distance, n) == Mod(cursor, n) + distance
  {
    var q := Quotient(cursor, n);
    ModuloLaps(Mod(cursor, n) + distance, n, q);
  }

  /** Fewer than `n` steps never come back to the same position. */
  lemma NotSameSlot(a: nat, b: nat, n: nat)
    requires a < b < a + n
    ensures Mod(a, n) != Mod(b, n)
  {
    hide Mod;
    CyclicOffset(a, b - a, n);
    CyclicOffset(a, 0, n);
  }
}
