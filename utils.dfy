/** Id generation and grid snapping (src/utils.js).

    An id is represented by the value the module-level counter had when the
    id was generated; `IdText` renders it the way `generateId` does, and
    `IdTextInjective` shows that nothing is lost by comparing serials
    instead of strings. */
module Utils {

  datatype Option<T> = None | Some(value: T)

  type Id = nat

  /** The prefix `generateId` uses when called without arguments, which is
      how every caller in the editor calls it. */
  const DefaultPrefix: string := "id"

  function DigitChar(d: nat): (c: char)
    requires d < 10
    ensures '0' <= c <= '9'
  {
    "0123456789"[d]
  }

  /** Decimal rendering of a natural number, as a JavaScript template
      literal renders it. */
  function Decimal(n: nat): (s: string)
    ensures |s| >= 1
    ensures forall i :: 0 <= i < |s| ==> '0' <= s[i] <= '9'
    ensures (|s| == 1) == (n < 10)
  {
    if n < 10 then [DigitChar(n)] else Decimal(n / 10) + [DigitChar(n % 10)]
  }

  lemma DigitCharInjective(a: nat, b: nat)
    requires a < 10 && b < 10
    requires DigitChar(a) == DigitChar(b)
    ensures a == b
  {
    assert "0123456789"[a] == "0123456789"[b];
  }

  /** Different numbers never render to the same decimal text. */
  lemma {:induction false} DecimalInjective(a: nat, b: nat)
    requires Decimal(a) == Decimal(b)
    ensures a == b
  {
    var s := Decimal(a);
    if a < 10 {
      assert b < 10;
      DigitCharInjective(a, b);
    } else {
      assert b >= 10;
      assert Decimal(a / 10) == s[..|s| - 1] == Decimal(b / 10);
      DecimalInjective(a / 10, b / 10);
      assert s[|s| - 1] == DigitChar(a % 10) == DigitChar(b % 10);
      DigitCharInjective(a % 10, b % 10);
    }
  }

  /** The string `generateId(prefix)` returns for the counter value `n`. */
  function IdTextWith(prefix: string, n: Id): string {
    prefix + "_" + Decimal(n)
  }

  /** Under one prefix, two counter values give the same id text exactly
      when they are the same value. */
  lemma IdTextWithInjective(prefix: string, a: Id, b: Id)
    ensures IdTextWith(prefix, a) == IdTextWith(prefix, b) <==> a == b
  {
    if IdTextWith(prefix, a) == IdTextWith(prefix, b) {
      var k := |prefix| + 1;
      assert IdTextWith(prefix, a)[k..] == Decimal(a);
      assert IdTextWith(prefix, b)[k..] == Decimal(b);
      DecimalInjective(a, b);
    }
  }

  function IdText(n: Id): string {
    IdTextWith(DefaultPrefix, n)
  }

  /** Ids with different serials have different texts, so successive ids
      never coincide even as strings. */
  lemma IdTextInjective(a: Id, b: Id)
    ensures IdText(a) == IdText(b) <==> a == b
  {
    IdTextWithInjective(DefaultPrefix, a, b);
  }

  /** The module-level `idCounter` of src/utils.js.  It is shared by every
      caller of `generateId`, so it is an object of its own. */
  class IdGenerator {
    var next: nat

    constructor ()
      ensures next == 0
    {
      next := 0;
    }

    /** `generateId()`: hands out the current counter value and increments
        the counter, so no later call can return the same id. */
    method GenerateId() returns (id: Id)
      modifies this
      ensures id == old(next) && next == old(next) + 1
    {
      id := next;
      next := next + 1;
    }
  }

  /** `Math.round`: nearest integer, halves rounded towards +infinity. */
  function Round(t: real): (k: int)
    ensures t - 0.5 < k as real <= t + 0.5
  {
    (t + 0.5).Floor
  }

  lemma RoundOfInteger(k: int)
    ensures Round(k as real) == k
  {
  }

  /** `snapToGrid(value, gridSize)`. */
  function SnapToGrid(value: real, gridSize: real): real {
    if gridSize <= 0.0 then value else Round(value / gridSize) as real * gridSize
  }

  /** A value lies on the grid when it is an integer multiple of the grid size. */
  ghost predicate OnGrid(v: real, gridSize: real)
    requires gridSize > 0.0
  {
    (v / gridSize).Floor as real == v / gridSize
  }

  /** A non-positive grid size leaves the value as it is. */
  lemma SnapWithoutGrid(value: real, gridSize: real)
    requires gridSize <= 0.0
    ensures SnapToGrid(value, gridSize) == value
  {
  }

  /** With a positive grid size the result is a multiple of the grid size
      lying within half a cell of the input; a value exactly half-way
      between two multiples goes to the upper one. */
  lemma SnapOnGrid(value: real, gridSize: real)
    requires gridSize > 0.0
    ensures OnGrid(SnapToGrid(value, gridSize), gridSize)
    ensures value - gridSize / 2.0 < SnapToGrid(value, gridSize) <= value + gridSize / 2.0
  {
    var k := Round(value / gridSize);
    assert SnapToGrid(value, gridSize) == k as real * gridSize;
    assert (k as real * gridSize) / gridSize == k as real;
    assert (k as real).Floor == k;
    DivBack(value, gridSize);
    ScaleBounds(value / gridSize, k as real, gridSize, value);
  }

  lemma DivBack(v: real, g: real)
    requires g > 0.0
    ensures (v / g) * g == v
  {
  }

  /** Scaling `t - 1/2 < k <= t + 1/2` by a positive `g`, where `t * g == v`. */
  lemma ScaleBounds(t: real, k: real, g: real, v: real)
    requires t - 0.5 < k <= t + 0.5 && g > 0.0 && t * g == v
    ensures v - g / 2.0 < k * g <= v + g / 2.0
  {
    var below, above := k - (t - 0.5), (t + 0.5) - k;
    assert below * g > 0.0;
    assert below * g == k * g - t * g + 0.5 * g;
    assert k * g - v + 0.5 * g > 0.0;
    assert 0.5 * g == g / 2.0;
    assert above * g >= 0.0 by {
      if above != 0.0 { assert above * g > 0.0; }
    }
    assert above * g == t * g + 0.5 * g - k * g;
  }

  lemma AtLeastOneCell(n: int, g: real)
    requires n >= 1 && g > 0.0
    ensures n as real * g >= g
  {
    var extra := (n - 1) as real;
    if n > 1 {
      assert extra * g > 0.0;
    }
    assert n as real * g == g + extra * g;
  }

  /** No multiple of the grid size is strictly closer to the input than the
      snapped value. */
  lemma SnapIsNearest(value: real, gridSize: real, m: int)
    requires gridSize > 0.0
    ensures Abs(SnapToGrid(value, gridSize) - value) <= Abs(m as real * gridSize - value)
  {
    var k := Round(value / gridSize);
    var r := SnapToGrid(value, gridSize);
    SnapOnGrid(value, gridSize);
    var q := m as real * gridSize;
    if m > k {
      CellsApart(m, k, gridSize, q, r);
    } else if m < k {
      CellsApart(k, m, gridSize, r, q);
    }
  }

  /** Two multiples of the grid size `n` and `k` cells apart, `n > k`, are
      at least one cell apart. */
  lemma CellsApart(n: int, k: int, g: real, q: real, r: real)
    requires g > 0.0 && n > k && q == n as real * g && r == k as real * g
    ensures q - r >= g
  {
    assert q - r == (n - k) as real * g;
    AtLeastOneCell(n - k, g);
  }

  /** Snapping an already snapped value returns it unchanged. */
  lemma SnapIdempotent(value: real, gridSize: real)
    ensures SnapToGrid(SnapToGrid(value, gridSize), gridSize) == SnapToGrid(value, gridSize)
  {
    if gridSize > 0.0 {
      var k := Round(value / gridSize);
      assert SnapToGrid(value, gridSize) / gridSize == k as real;
      RoundOfInteger(k);
    }
  }

  function Abs(x: real): real {
    if x < 0.0 then -x else x
  }

  function Min(a: real, b: real): real {
    if a <= b then a else b
  }

  function Max(a: real, b: real): real {
    if a >= b then a else b
  }
}
