/** The ring of bridged satoshis per block (contracts/satoshi-bridge/src/block_amount_ring.rs). */
module BlockAmounts {
  import opened Wrappers

  const U128_MAX: nat := 0xFFFF_FFFF_FFFF_FFFF_FFFF_FFFF_FFFF_FFFF

  function SaturatingAdd(a: nat, b: nat): nat {
    if a + b <= U128_MAX then a + b else U128_MAX
  }

  function SaturatingSub(a: nat, b: nat): nat {
    if b <= a then a - b else 0
  }

  /** Confirmations of a block: those on top of it and its own. */
  function DepthAt(tip: nat, height: nat): nat {
    SaturatingSub(tip, height) + 1
  }

  datatype Cell = Cell(height: nat, sats: nat)

  /** The content of a ring: one optional cell a slot. */
  type Cells = seq<Option<Cell>>

  function Slot(height: nat, capacity: nat): (i: nat)
    requires capacity > 0
    ensures i < capacity
  {
    height % capacity
  }

  function EmptyCells(capacity: nat): Cells {
    seq(capacity, _ => None)
  }

  /** The amount remembered for a block, if its slot still holds it. */
  function Lookup(cells: Cells, height: nat): Option<nat>
    requires |cells| > 0
  {
    match cells[Slot(height, |cells|)]
    case Some(c) => if c.height == height then Some(c.sats) else None
    case None => None
  }

  /** Whether the slot of a block has been taken over by a newer block. */
  predicate Overtaken(cells: Cells, height: nat)
    requires |cells| > 0
  {
    var cell := cells[Slot(height, |cells|)];
    cell.Some? && cell.value.height > height
  }

  function BumpResult(cells: Cells, height: nat, amount: nat): Option<nat>
    requires |cells| > 0
  {
    if Overtaken(cells, height) then None
    else match Lookup(cells, height)
      case Some(sats) => Some(SaturatingAdd(sats, amount))
      case None => Some(amount)
  }

  function BumpCells(cells: Cells, height: nat, amount: nat): (r: Cells)
    requires |cells| > 0
    ensures |r| == |cells|
  {
    match BumpResult(cells, height, amount)
    case None => cells
    case Some(sats) => cells[Slot(height, |cells|) := Some(Cell(height, sats))]
  }

  function UnbumpCells(cells: Cells, height: nat, amount: nat): (r: Cells)
    requires |cells| > 0
    ensures |r| == |cells|
  {
    match Lookup(cells, height)
    case None => cells
    case Some(sats) => cells[Slot(height, |cells|) := Some(Cell(height, SaturatingSub(sats, amount)))]
  }

  /** Puts an old cell into a resized ring unless a newer block already has its slot. */
  function Place(cells: Cells, cell: Cell): (r: Cells)
    requires |cells| > 0
    ensures |r| == |cells|
  {
    var i := Slot(cell.height, |cells|);
    if cells[i].None? || cell.height > cells[i].value.height then cells[i := Some(cell)] else cells
  }

  /** The first n old cells placed into an empty ring of the new capacity. */
  function PlaceFirst(cells: Cells, n: nat, capacity: nat): (r: Cells)
    requires n <= |cells| && capacity > 0
    ensures |r| == capacity
  {
    if n == 0 then EmptyCells(capacity)
    else
      var before := PlaceFirst(cells, n - 1, capacity);
      if cells[n - 1].None? then before else Place(before, cells[n - 1].value)
  }

  function ResizedCells(cells: Cells, capacity: nat): (r: Cells)
    requires capacity > 0
    ensures |r| == capacity
  {
    if capacity == |cells| then cells else PlaceFirst(cells, |cells|, capacity)
  }

  /** The ring object: a vector of cells changed in place. */
  class BlockAmountRing {
    var cells: array<Option<Cell>>

    ghost predicate Valid()
      reads this
    {
      cells.Length > 0
    }

    constructor (capacity: nat)
      requires capacity > 0
      ensures Valid() && fresh(cells) && cells[..] == EmptyCells(capacity)
    {
      cells := new Option<Cell>[capacity](_ => None);
    }

    method Bump(height: nat, amount: nat) returns (r: Option<nat>)
      requires Valid()
      modifies cells
      ensures r == BumpResult(old(cells[..]), height, amount)
      ensures cells[..] == BumpCells(old(cells[..]), height, amount)
    {
      var i := height % cells.Length;
      match cells[i] {
        case Some(c) =>
          if c.height == height {
            var sats := SaturatingAdd(c.sats, amount);
            cells[i] := Some(Cell(height, sats));
            return Some(sats);
          } else if c.height > height {
            return None;
          }
        case None =>
      }
      cells[i] := Some(Cell(height, amount));
      r := Some(amount);
    }

    method Unbump(height: nat, amount: nat)
      requires Valid()
      modifies cells
      ensures cells[..] == UnbumpCells(old(cells[..]), height, amount)
    {
      var i := height % cells.Length;
      if cells[i].Some? && cells[i].value.height == height {
        cells[i] := Some(Cell(height, SaturatingSub(cells[i].value.sats, amount)));
      }
    }

    method Get(height: nat) returns (r: Option<nat>)
      requires Valid()
      ensures r == Lookup(cells[..], height)
    {
      var i := height % cells.Length;
      r := if cells[i].Some? && cells[i].value.height == height then Some(cells[i].value.sats) else None;
    }

    /** What Bump would return, without changing the ring. */
    method Peek(height: nat, amount: nat) returns (r: Option<nat>)
      requires Valid()
      ensures r == BumpResult(cells[..], height, amount)
    {
      match cells[height % cells.Length] {
        case Some(c) =>
          if c.height == height {
            return Some(SaturatingAdd(c.sats, amount));
          } else if c.height > height {
            return None;
          }
        case None =>
      }
      r := Some(amount);
    }

    method Resize(capacity: nat) returns (ok: bool)
      requires Valid()
      modifies this
      ensures Valid() && ok == (capacity > 0)
      ensures ok ==> cells[..] == ResizedCells(old(cells[..]), capacity)
      ensures cells == old(cells) || fresh(cells)
      ensures !ok ==> cells == old(cells)
    {
      if capacity == 0 {
        return false;
      }
      ok := true;
      if capacity == cells.Length {
        return;
      }
      var newCells := new Option<Cell>[capacity](_ => None);
      var n := 0;
      while n < cells.Length
        invariant 0 <= n <= cells.Length && cells == old(cells) && fresh(newCells)
        invariant newCells[..] == PlaceFirst(cells[..], n, capacity)
      {
        if cells[n].Some? {
          var entry := cells[n].value;
          var i := entry.height % capacity;
          if newCells[i].None? || entry.height > newCells[i].value.height {
            newCells[i] := cells[n];
          }
        }
        n := n + 1;
      }
      cells := newCells;
    }
  }

  /** Every cell sits in the slot of its own height. */
  ghost predicate WellSlotted(cells: Cells) {
    forall i :: 0 <= i < |cells| && cells[i].Some? ==> Slot(cells[i].value.height, |cells|) == i
  }

  /** Resizing keeps, for each new slot, the newest old block that falls into it. */
  lemma {:induction false} ResizeKeepsNewest(cells: Cells, capacity: nat, j: nat)
    requires WellSlotted(cells) && capacity > 0 && j < capacity
    ensures var r := ResizedCells(cells, capacity);
      && (r[j].Some? ==> r[j] in cells && Slot(r[j].value.height, capacity) == j)
      && (forall i :: 0 <= i < |cells| && cells[i].Some? && Slot(cells[i].value.height, capacity) == j
            ==> r[j].Some? && cells[i].value.height <= r[j].value.height)
  {
    if capacity == |cells| {
    } else {
      PlaceFirstKeepsNewest(cells, |cells|, capacity, j);
    }
  }

  lemma {:induction false} PlaceFirstKeepsNewest(cells: Cells, n: nat, capacity: nat, j: nat)
    requires n <= |cells| && capacity > 0 && j < capacity
    ensures var r := PlaceFirst(cells, n, capacity);
      && (r[j].Some? ==> r[j] in cells && Slot(r[j].value.height, capacity) == j)
      && (forall i :: 0 <= i < n && cells[i].Some? && Slot(cells[i].value.height, capacity) == j
            ==> r[j].Some? && cells[i].value.height <= r[j].value.height)
  {
    hide Slot;
    if n == 0 {
    } else {
      PlaceFirstKeepsNewest(cells, n - 1, capacity, j);
    }
  }

  lemma ResizeKeepsSlots(cells: Cells, capacity: nat)
    requires WellSlotted(cells) && capacity > 0
    ensures WellSlotted(ResizedCells(cells, capacity))
  {
    forall j | 0 <= j < capacity
      ensures ResizedCells(cells, capacity)[j].Some? ==>
                Slot(ResizedCells(cells, capacity)[j].value.height, capacity) == j
    {
      ResizeKeepsNewest(cells, capacity, j);
    }
  }

  lemma EmptyRingStaysEmpty(capacity: nat, other: nat)
    requires capacity > 0 && other > 0
    ensures ResizedCells(EmptyCells(capacity), other) == EmptyCells(other)
  {
    var ring := ResizedCells(EmptyCells(capacity), other);
    forall j | 0 <= j < other ensures ring[j] == None {
      ResizeKeepsNewest(EmptyCells(capacity), other, j);
    }
  }
}
