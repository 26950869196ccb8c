/** Decimal rendering of numbers, as JavaScript's template literals print a non-negative
    integer. */
module Decimal {

  predicate IsDigit(c: char) {
    '0' <= c <= '9'
  }

  function DigitChar(d: nat): (c: char)
    requires d < 10
    ensures IsDigit(c)
  {
    "0123456789"[d]
  }

  /** `${n}` for a non-negative integer `n`. */
  function NatToString(n: nat): (s: string)
    ensures |s| >= 1
    ensures forall i :: 0 <= i < |s| ==> IsDigit(s[i])
    ensures n >= 10 <==> |s| >= 2
  {
    if n < 10 then [DigitChar(n)] else NatToString(n / 10) + [DigitChar(n % 10)]
  }

  /** Different numbers print differently. */
  lemma {:induction false} NatToStringInjective(a: nat, b: nat)
    requires NatToString(a) == NatToString(b)
    ensures a == b
  {
    if a >= 10 && b >= 10 {
      var sa, sb := NatToString(a), NatToString(b);
      assert sa[|sa| - 1] == DigitChar(a % 10) && sb[|sb| - 1] == DigitChar(b % 10);
      assert sa[..|sa| - 1] == NatToString(a / 10);
      assert sb[..|sb| - 1] == NatToString(b / 10);
      NatToStringInjective(a / 10, b / 10);
    }
  }
}

/** The eager room grid (src/level.ts): rooms laid out n by n, spaced by the room size plus a
    two-unit gap, named after their grid coordinates. */
module Levels {
  import opened Geometry
  import opened Decimal
  import Rooms

  /** The gap `generateSimpleGrid` adds to the room size to space rooms apart. */
  function Spacing(roomSize: Vec3): Vec3 {
    Add(roomSize, Vec3(2.0, 0.0, 2.0))
  }

  /** The name of the room at grid cell (x, z): `Room_${x}_${z}`. */
  function RoomName(x: nat, z: nat): string {
    "Room_" + NatToString(x) + "_" + NatToString(z)
  }

  /** `count` steps of length `step`, added up. */
  function Steps(count: nat, step: real): real {
    if count == 0 then 0.0 else Steps(count - 1, step) + step
  }

  /** The steps add up to the product the source computes. */
  lemma {:induction false} StepsIsProduct(count: nat, step: real)
    ensures Steps(count, step) == count as real * step
  {
    if count > 0 {
      StepsIsProduct(count - 1, step);
    }
  }

  /** The centre of the room at grid cell (x, z) when rooms are `spacing` apart, written as
      sums of steps. */
  function CellCenter(x: nat, z: nat, spacing: Vec3): Vec3 {
    Vec3(Steps(x, spacing.x), 0.0, Steps(z, spacing.z))
  }

  /** The centre of cell (x, z) is `(x * spacing.x, 0, z * spacing.z)`, the product the source
      computes. */
  lemma CellCenterIsProduct(x: nat, z: nat, spacing: Vec3)
    ensures CellCenter(x, z, spacing) == Vec3(x as real * spacing.x, 0.0, z as real * spacing.z)
  {
    StepsIsProduct(x, spacing.x);
    StepsIsProduct(z, spacing.z);
  }

  /** How many rooms one call adds: n squared, or none when n is not positive. */
  function CellCount(gridSize: int): nat {
    if gridSize <= 0 then 0 else gridSize * gridSize
  }

  /** The length of the run of digits `s` starts with. */
  function LeadingDigits(s: string): (n: nat)
    ensures n <= |s|
  {
    if |s| > 0 && IsDigit(s[0]) then 1 + LeadingDigits(s[1..]) else 0
  }

  /** In a digit string followed by an underscore, the leading digits are exactly that string. */
  lemma {:induction false} LeadingDigitsStopAtUnderscore(a: string, b: string)
    requires forall i :: 0 <= i < |a| ==> IsDigit(a[i])
    ensures LeadingDigits(a + "_" + b) == |a|
  {
    if |a| > 0 {
      assert (a + "_" + b)[1..] == a[1..] + "_" + b;
      LeadingDigitsStopAtUnderscore(a[1..], b);
    }
  }

  /** Two digit strings joined by an underscore can be split back apart. */
  lemma SplitAtUnderscore(a: string, b: string, c: string, d: string)
    requires forall i :: 0 <= i < |a| ==> IsDigit(a[i])
    requires forall i :: 0 <= i < |c| ==> IsDigit(c[i])
    requires a + "_" + b == c + "_" + d
    ensures a == c && b == d
  {
    var s := a + "_" + b;
    LeadingDigitsStopAtUnderscore(a, b);
    LeadingDigitsStopAtUnderscore(c, d);
    assert a == s[..|a|] == c;
    assert b == s[|a| + 1..] == d;
  }

  /** Two grid cells have the same room name only if they are the same cell. */
  lemma RoomNameInjective(x1: nat, z1: nat, x2: nat, z2: nat)
    requires RoomName(x1, z1) == RoomName(x2, z2)
    ensures x1 == x2 && z1 == z2
  {
    var p := "Room_";
    var t1 := NatToString(x1) + "_" + NatToString(z1);
    var t2 := NatToString(x2) + "_" + NatToString(z2);
    assert RoomName(x1, z1) == p + t1 && RoomName(x2, z2) == p + t2;
    assert t1 == (p + t1)[|p|..] == (p + t2)[|p|..] == t2;
    SplitAtUnderscore(NatToString(x1), NatToString(z1), NatToString(x2), NatToString(z2));
    NatToStringInjective(x1, x2);
    NatToStringInjective(z1, z2);
  }

  /** A grid room name is `Room_` followed by digits and underscores only. */
  lemma RoomNameCharacters(x: nat, z: nat)
    ensures |RoomName(x, z)| >= 8 && RoomName(x, z)[..5] == "Room_"
    ensures forall i :: 5 <= i < |RoomName(x, z)| ==> IsDigit(RoomName(x, z)[i]) || RoomName(x, z)[i] == '_'
  {
  }

  /** The cells (x, 0) .. (x, z - 1) of one row, in the order the inner loop visits them. */
  function RowCells(x: nat, z: nat): (r: seq<(nat, nat)>)
    ensures |r| == z
    ensures forall i :: 0 <= i < z ==> r[i] == (x, i)
  {
    if z == 0 then [] else RowCells(x, z - 1) + [(x, z - 1)]
  }

  /** The cells of rows 0 .. x - 1 of an n-wide grid, row after row. */
  function GridCells(x: nat, n: nat): (r: seq<(nat, nat)>)
    ensures |r| == x * n
  {
    if x == 0 then [] else
      assert (x - 1) * n + n == x * n;
      GridCells(x - 1, n) + RowCells(x - 1, n)
  }

  /** Every cell of the first x rows lies inside those rows and inside the grid's width. */
  lemma {:induction false} GridCellsInBounds(x: nat, n: nat)
    ensures forall i :: 0 <= i < |GridCells(x, n)| ==> GridCells(x, n)[i].0 < x && GridCells(x, n)[i].1 < n
  {
    if x > 0 {
      GridCellsInBounds(x - 1, n);
      var prev, row := GridCells(x - 1, n), RowCells(x - 1, n);
      assert GridCells(x, n) == prev + row;
      forall i | 0 <= i < |GridCells(x, n)|
        ensures GridCells(x, n)[i].0 < x && GridCells(x, n)[i].1 < n
      {
        if i >= |prev| {
          assert GridCells(x, n)[i] == row[i - |prev|];
        }
      }
    }
  }

  /** No cell is visited twice. */
  lemma {:induction false} GridCellsDistinct(x: nat, n: nat)
    ensures forall i, j :: 0 <= i < j < |GridCells(x, n)| ==> GridCells(x, n)[i] != GridCells(x, n)[j]
  {
    if x > 0 {
      GridCellsDistinct(x - 1, n);
      GridCellsInBounds(x - 1, n);
      var prev, row := GridCells(x - 1, n), RowCells(x - 1, n);
      var all := GridCells(x, n);
      assert all == prev + row;
      forall i, j | 0 <= i < j < |all|
        ensures all[i] != all[j]
      {
        if j >= |prev| {
          assert all[j] == row[j - |prev|] == (x - 1, j - |prev|);
          if i >= |prev| {
            assert all[i] == row[i - |prev|] == (x - 1, i - |prev|);
          } else {
            assert all[i] == prev[i];
          }
        } else {
          assert all[i] == prev[i] && all[j] == prev[j];
        }
      }
    }
  }

  /** A positive multiple of n is at least n. */
  lemma {:induction false} MultipleAtLeast(d: nat, n: nat)
    requires d >= 1
    ensures d * n >= n
  {
    if d > 1 {
      MultipleAtLeast(d - 1, n);
      assert d * n == (d - 1) * n + n;
    }
  }

  /** Cell (x, z) of an n-wide grid has number x * n + z. */
  lemma CellNumbering(x: nat, z: nat, n: nat)
    requires z < n
    ensures (x * n + z) / n == x && (x * n + z) % n == z
  {
    var k := x * n + z;
    var q, r := k / n, k % n;
    assert k == q * n + r && 0 <= r < n;
    if q > x {
      MultipleAtLeast(q - x, n);
      assert false;
    } else if q < x {
      MultipleAtLeast(x - q, n);
      assert false;
    }
  }

  /** The k-th cell visited is (k div n, k mod n). */
  lemma {:induction false} GridCellsNumbered(x: nat, n: nat, k: nat)
    requires k < |GridCells(x, n)|
    ensures GridCells(x, n)[k] == (k / n, k % n)
  {
    var prev, row := GridCells(x - 1, n), RowCells(x - 1, n);
    assert GridCells(x, n) == prev + row;
    if k < |prev| {
      GridCellsNumbered(x - 1, n, k);
    } else {
      var z := k - |prev|;
      assert k == (x - 1) * n + z;
      CellNumbering(x - 1, z, n);
    }
  }

  /** The room `generateSimpleGrid` makes for a cell: its name, its size and its centre. */
  predicate IsCellRoom(room: Rooms.Room, cell: (nat, nat), roomSize: Vec3) {
    && room.name == RoomName(cell.0, cell.1)
    && room.size == roomSize
    && room.center == CellCenter(cell.0, cell.1, Spacing(roomSize))
  }

  /** Within one generated grid every room name is different. */
  lemma GridNamesDistinct(n: nat, i: nat, j: nat)
    requires i < j < |GridCells(n, n)|
    ensures RoomName(GridCells(n, n)[i].0, GridCells(n, n)[i].1) != RoomName(GridCells(n, n)[j].0, GridCells(n, n)[j].1)
  {
    GridCellsDistinct(n, n);
    var ci, cj := GridCells(n, n)[i], GridCells(n, n)[j];
    if RoomName(ci.0, ci.1) == RoomName(cj.0, cj.1) {
      RoomNameInjective(ci.0, ci.1, cj.0, cj.1);
      assert false;
    }
  }

  class Level {
    var rooms: seq<Rooms.Room>

    constructor ()
      ensures rooms == []
    {
      rooms := [];
    }

    /** Appends one new room per cell of the gridSize by gridSize grid, in x-major order,
        keeping the rooms already there; no exits are set. */
    method GenerateSimpleGrid(gridSize: int, roomSize: Vec3)
      modifies this
      ensures |rooms| == |old(rooms)| + CellCount(gridSize)
      ensures rooms[..|old(rooms)|] == old(rooms)
      ensures gridSize > 0 ==> forall k :: |old(rooms)| <= k < |rooms| ==>
        IsCellRoom(rooms[k], GridCells(gridSize, gridSize)[k - |old(rooms)|], roomSize)
      ensures forall k :: |old(rooms)| <= k < |rooms| ==> rooms[k].exits == Rooms.EmptyExits
    {
      if gridSize <= 0 {
        // Both loops run zero times.
        return;
      }
      var base := |rooms|;
      var x := 0;
      while x < gridSize
        invariant 0 <= x <= gridSize
        invariant |rooms| == base + |GridCells(x, gridSize)|
        invariant rooms[..base] == old(rooms)
        invariant forall k :: base <= k < |rooms| ==> IsCellRoom(rooms[k], GridCells(x, gridSize)[k - base], roomSize)
        invariant forall k :: base <= k < |rooms| ==> rooms[k].exits == Rooms.EmptyExits
      {
        AppendRow(x, gridSize, roomSize, base);
        x := x + 1;
      }
    }

    /** The inner loop of `generateSimpleGrid`: when the rooms from `base` on are those of the
        first x rows of an n-wide grid, appending row x makes them those of the first x + 1
        rows, still without exits, and the rooms before `base` stay. */
    method AppendRow(x: nat, n: nat, roomSize: Vec3, base: nat)
      requires |rooms| == base + |GridCells(x, n)|
      requires forall k :: base <= k < |rooms| ==> IsCellRoom(rooms[k], GridCells(x, n)[k - base], roomSize)
      requires forall k :: base <= k < |rooms| ==> rooms[k].exits == Rooms.EmptyExits
      modifies this
      ensures |rooms| == base + |GridCells(x + 1, n)|
      ensures rooms[..base] == old(rooms)[..base]
      ensures forall k :: base <= k < |rooms| ==> IsCellRoom(rooms[k], GridCells(x + 1, n)[k - base], roomSize)
      ensures forall k :: base <= k < |rooms| ==> rooms[k].exits == Rooms.EmptyExits
    {
      var spacing := Spacing(roomSize);
      var z := 0;
      ghost var done := GridCells(x, n);
      while z < n
        invariant 0 <= z <= n
        invariant |rooms| == base + |done| + z
        invariant rooms[..base] == old(rooms)[..base]
        invariant forall k :: base <= k < |rooms| ==> IsCellRoom(rooms[k], (done + RowCells(x, z))[k - base], roomSize)
        invariant forall k :: base <= k < |rooms| ==> rooms[k].exits == Rooms.EmptyExits
      {
        var room := new Rooms.Room(RoomName(x, z), roomSize, CellCenter(x, z, spacing));
        assert done + RowCells(x, z + 1) == (done + RowCells(x, z)) + [(x, z)];
        rooms := rooms + [room];
        z := z + 1;
      }
      assert GridCells(x + 1, n) == done + RowCells(x, n);
    }

    function GetRooms(): seq<Rooms.Room>
      reads this
    {
      rooms
    }
  }
}
